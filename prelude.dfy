/** The runtime's unsigned 64-bit integers and the outcome of a runtime method.

    UInt64 arithmetic in the runtime never wraps: an addition or multiplication
    past 2^64 - 1 and a subtraction below zero abort the whole transaction.
    Every such abort, and every failed assertion of a runtime method, is an
    `Error` here. */
module Prelude {

  const MAX_U64: nat := 0xFFFF_FFFF_FFFF_FFFF

  /** A UInt64 value. */
  type U64 = x: nat | x <= MAX_U64

  /** Why a runtime method aborted its transaction. */
  datatype Error =
    | Overflow                // a UInt64 add or mul past MAX_U64
    | Underflow               // a UInt64 sub below zero
    | BalanceNotEnough        // 'balance is not enough'
    | OrderNotFound           // no order was ever stored under the id
    | OrderAlreadyCancelled   // 'order is already cancelled'
    | OrderAlreadyExecuted    // 'order is already executed'
    | SenderNotMaker          // "sender doesn't match order maker"
    | OwnOrder                // "sender can't execute his own order"

  /** The new value computed by an operation, or why it aborted. */
  datatype Result<+T> = Ok(value: T) | Err(error: Error) {
    predicate IsFailure() { Err? }

    function PropagateFailure<U>(): Result<U>
      requires Err?
    {
      Err(error)
    }

    function Extract(): T
      requires Ok?
    {
      value
    }
  }

  /** What a runtime method reports to the transaction that called it. */
  datatype Outcome = Pass | Fail(error: Error)
}
