# Two-asset spot exchange: balance ledger and order book

This project models the two runtime modules at the core of a bitcoin/dollar spot
exchange, and proves properties of the model.

- **Balances** (`Ledger`, `ledger.dfy`). There are two maps from account to UInt64 balance, one
  for bitcoin and one for dollars. An account that was never written holds zero. The
  module has `addBitcoin`, `addDollar`, `subBitcoin` and `subDollar`. An addition past
  2^64 − 1 aborts the transaction instead of wrapping, and so does a subtraction below zero.
- **OrderBook** (`Exchange`, `exchange.dfy`). It keeps a map from order id to `Order` and a
  counter that gives the next order id.
  - `placeOrder` escrows the maker's side of the order: `amount * price` dollars for a buy,
    `amount` bitcoin for a sell. It then stores the order, open, under the next id.
  - `cancelOrder` refunds the escrow to the maker and marks the order cancelled.
  - `executeOrder` makes another account pay the maker and marks the order executed.
- `Prelude` (`prelude.dfy`) holds the UInt64 range, the error kinds and the result types.

Every runtime method runs in one transaction: if a check fails, nothing it wrote is kept.
The model checks every guard before any write. Each operation exists in two forms:
- a pure function on a `State` value (`Place`, `Cancel`, `Execute`; `Credit` and `Debit`
  for the ledger). The lemmas are about these functions.
- a method of a class whose fields are updated in place (`OrderBook.PlaceOrder`, …,
  `Balances.AddBitcoin`, …). The method's contract says that it commits exactly the
  function's result, or changes nothing and reports the function's error.

`Supply(s, asset)` is the sum of all account balances of an asset plus the escrow of that
asset held for open orders. `placeOrder` and `cancelOrder` preserve it. `executeOrder` as
written does not preserve it (see Findings).

## Model

| member | source | states |
|---|---|---|
| `Ledger.BalanceOf` | packages/chain/src/balances.ts:26-27 | an account without an entry reads as zero; otherwise its stored balance |
| `Ledger.Credit` | packages/chain/src/balances.ts:25-36 | `add` fails with Overflow exactly when balance + amount exceeds 2^64 − 1; otherwise the account gains exactly `amount` and no other account changes |
| `Ledger.Debit` | packages/chain/src/balances.ts:38-50 | `sub` fails with Underflow exactly when `amount` exceeds the balance, so no balance goes negative; otherwise the account loses exactly `amount` and no other account changes |
| `Ledger.CreditThenDebit` | packages/chain/src/balances.ts:25-50 | a sub of what was just added succeeds and restores every account's balance |
| `Ledger.CreditTotal` | packages/chain/src/balances.ts:25-36 | a successful add raises the sum of all balances of that asset by exactly `amount` |
| `Ledger.DebitTotal` | packages/chain/src/balances.ts:38-50 | a successful sub lowers the sum of all balances of that asset by exactly `amount` |
| `Ledger.Balances.constructor` | packages/chain/src/balances.ts:14-22 | both balance maps start empty, so every account starts at zero |
| `Ledger.Balances.AddBitcoin` | packages/chain/src/balances.ts:25-29 | the bitcoin map becomes `Credit`'s result, or stays unchanged with the Overflow reported; the dollar map is unchanged |
| `Ledger.Balances.AddDollar` | packages/chain/src/balances.ts:31-36 | the dollar map becomes `Credit`'s result, or stays unchanged with the Overflow reported; the bitcoin map is unchanged |
| `Ledger.Balances.SubBitcoin` | packages/chain/src/balances.ts:38-43 | the bitcoin map becomes `Debit`'s result, or stays unchanged with the Underflow reported; the dollar map is unchanged |
| `Ledger.Balances.SubDollar` | packages/chain/src/balances.ts:45-50 | the dollar map becomes `Debit`'s result, or stays unchanged with the Underflow reported; the bitcoin map is unchanged |
| `Exchange.Order.AsCancelled` | packages/chain/src/order-book.ts:121-126 | sets `isCancelled` and keeps `isExecuted`, `isBuy`, `amount`, `price` and `maker` |
| `Exchange.Order.AsExecuted` | packages/chain/src/order-book.ts:128-133 | sets `isExecuted` and keeps `isCancelled`, `isBuy`, `amount`, `price` and `maker` |
| `Exchange.Place` | packages/chain/src/order-book.ts:26-56 | fails exactly when `amount * price` overflows, the selected balance is short (buy: dollars < `amount * price`; sell: bitcoin < `amount`) or the id counter is at its maximum. On success it debits exactly the escrow from the sender, leaves every other balance alone, stores an open order with `maker = sender` under the old counter, raises the counter by one and changes no other order |
| `Exchange.Cancel` | packages/chain/src/order-book.ts:58-79 | fails with OrderNotFound, OrderAlreadyCancelled, OrderAlreadyExecuted or SenderNotMaker, checked in that order. For an open order of the sender it fails only on overflow. On success it credits the sender exactly the escrow, changes no other account, marks the order cancelled and keeps the counter |
| `Exchange.Execute` | packages/chain/src/order-book.ts:81-110 | fails with OrderNotFound, OwnOrder (the sender is the maker), OrderAlreadyCancelled or OrderAlreadyExecuted, checked in that order. It fails with BalanceNotEnough when the sender lacks what it must pay. On success the sender's payment (bitcoin `amount` for a buy, dollars `amount * price` for a sell) equals the maker's gain. No account's balance of the escrowed asset changes, and no third account changes. The order is marked executed |
| `Exchange.ClosedOrderIsFinal` | packages/chain/src/order-book.ts:63-88 | once an order is cancelled or executed, every cancel and every execute of its id fails |
| `Exchange.CancelOrExecuteCloses` | packages/chain/src/order-book.ts:63-109 | after a successful cancel, a second cancel fails with OrderAlreadyCancelled and an execute fails; after a successful execute, a cancel fails with OrderAlreadyExecuted and a second execute fails |
| `Exchange.PlaceThenCancel` | packages/chain/src/order-book.ts:33-78 | cancelling by the maker of the order just placed succeeds, marks it cancelled and gives every account back both of its balances |
| `Exchange.PlaceConservesSupply` | packages/chain/src/order-book.ts:38-55 | from a state whose order ids are all below the counter and whose orders carry at most one terminal flag, `placeOrder` uses an id no stored order has, keeps that invariant and preserves each asset's supply (balances plus escrow) |
| `Exchange.CancelConservesSupply` | packages/chain/src/order-book.ts:70-78 | `cancelOrder` keeps the invariant and preserves each asset's supply |
| `Exchange.ExecuteLosesEscrow` | packages/chain/src/order-book.ts:100-109 | `executeOrder` as written keeps the invariant and lowers the supply of the escrowed asset by exactly the escrow; the other asset's supply is preserved |
| `Exchange.ExecuteSettled` | packages/chain/src/order-book.ts:81-110 | the corrected `executeOrder`: it fails where the version as written fails, or on overflow of the sender's credit. On success it also credits the sender with the maker's escrow, so the sender gives what the order asks for and receives what the maker offered |
| `Exchange.SettledExecuteConservesSupply` | packages/chain/src/order-book.ts:95-109 | the corrected `executeOrder` keeps the invariant and preserves each asset's supply |
| `Exchange.OrderBook.constructor` | packages/chain/src/order-book.ts:17-24 | the book starts with no orders and the counter at zero, over the ledger it is given |
| `Exchange.OrderBook.PlaceOrder` | packages/chain/src/order-book.ts:26-56 | the ledger maps, the orders and the counter become `Place`'s result, or stay unchanged and `Place`'s error is reported |
| `Exchange.OrderBook.CancelOrder` | packages/chain/src/order-book.ts:58-79 | the ledger maps and the orders become `Cancel`'s result, or stay unchanged and `Cancel`'s error is reported |
| `Exchange.OrderBook.ExecuteOrder` | packages/chain/src/order-book.ts:81-110 | the ledger maps and the orders become `Execute`'s result, or stay unchanged and `Execute`'s error is reported |
| `Exchange.TestScenario` | packages/chain/test/order-book.test.ts:34-125 | runs the test's transactions through the class methods, with bob (the account set as signer at line 108) as the sender of the execution. Each one succeeds. Alice ends with 20 bitcoin and 45,000 dollars and bob with 955,000 dollars, as the test expects. Bob ends with 0 bitcoin, where the test expects 1 |
| `Exchange.TestRunAsWrittenIsOwnOrder` | packages/chain/test/order-book.test.ts:63-110 | after the test's place, cancel and place by alice, the execution with alice as its sender, as line 109 writes it, fails with OwnOrder because alice made order 1 |
| `Exchange.SettledTestRunMeetsTest` | packages/chain/test/order-book.test.ts:63-125 | from the balances the test sets up, the run with bob executing and the corrected `executeOrder` succeeds and ends with every balance the test expects, including bob's 1 bitcoin |

## Findings

| source | as written | input that shows it | evidently intended | confidence | as-written member | corrected member |
|---|---|---|---|---|---|---|
| packages/chain/src/order-book.ts:100-108 | `executeOrder` debits the sender and credits the maker, but never credits the sender with the maker's escrow. The escrowed bitcoin of a sell order, or the escrowed dollars of a buy order, leave the book and reach no account | alice (21 bitcoin) places a sell order for 1 bitcoin at 45,000 and bob (1,000,000 dollars) executes it: bob ends with 0 bitcoin, while packages/chain/test/order-book.test.ts:123 expects 1 (the test signs that transaction as bob at line 108 but names alice as its sender at line 109) | the counterparty also receives the maker's escrow, making a full swap that conserves both assets | high (not executed) | `Exchange.ExecuteLosesEscrow`, `Exchange.TestScenario` | `Exchange.ExecuteSettled`, `Exchange.SettledExecuteConservesSupply`, `Exchange.SettledTestRunMeetsTest` |

The class `Exchange.OrderBook` models the code as written, so `ExecuteOrder` follows
`Execute`. The corrected `ExecuteSettled` is the version that the supply and test-run
results are proved for.

## Left out

- `Exchange.TestScenario`, `Exchange.SettledTestRunMeetsTest`: the sender of the sixth
  transaction is bob, from `setSigner(bob)` at packages/chain/test/order-book.test.ts:108,
  not the `alice` written at line 109. With alice as sender the execution fails with
  OwnOrder (`Exchange.TestRunAsWrittenIsOwnOrder`), and the test cannot reach its checks
  at lines 117-125.
- Framework internals are not modelled: the runtime-module registry
  (packages/chain/src/runtime.ts), storage commitments, proof generation and dependency
  injection. The all-or-nothing commit of a transaction is modelled by checking every
  guard before any write.
- The transaction sender is an explicit `sender` parameter. Accounts are an opaque type
  with equality only, so public-key cryptography is not modelled.
- `Exchange.Cancel`, `Exchange.Execute`: an id that was never placed fails with
  OrderNotFound. The source instead reads the store's default record for such an id. What
  follows then depends on framework code that is not part of this model: the default
  maker, zero amounts, and an executed record written under that id.
- `Provable.if` is modelled as an ordinary conditional. The source computes both branches,
  including the subtraction or addition in the branch it discards, and whether that alone
  can abort depends on library code that is not part of this model.
- The id counter's own overflow (`orderId.add(UInt64.one)`) is checked with the other
  guards before any write. In the source it is computed after the writes have been staged;
  the outcome is the same because an abort discards them.
- The concurrency and sequencing of transactions, block production and signing are left
  out: each operation is one sequential step.
