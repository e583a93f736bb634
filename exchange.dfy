/** The order book (packages/chain/src/order-book.ts): makers place buy or sell
    orders for bitcoin at a fixed dollar price, escrowing what they offer in
    the ledger; a maker may cancel an open order for a refund, and any other
    account may execute it. */
module Exchange {
  import opened Prelude
  import opened Ledger

  /** The two balances the ledger keeps per account. */
  datatype Asset = Bitcoin | Dollar

  /** One order: `amount` bitcoin at `price` dollars each; a buy order offers
      dollars for bitcoin, a sell order bitcoin for dollars. */
  datatype Order = Order(isBuy: bool, isCancelled: bool, isExecuted: bool, amount: U64, price: U64, maker: Account)
  {
    /** The same order, marked cancelled. */
    function AsCancelled(): (o: Order)
      ensures o.isCancelled && o.isExecuted == isExecuted
      ensures o.isBuy == isBuy && o.amount == amount && o.price == price && o.maker == maker
    {
      this.(isCancelled := true)
    }

    /** The same order, marked executed. */
    function AsExecuted(): (o: Order)
      ensures o.isExecuted && o.isCancelled == isCancelled
      ensures o.isBuy == isBuy && o.amount == amount && o.price == price && o.maker == maker
    {
      this.(isExecuted := true)
    }

    /** Neither cancelled nor executed: the only state that admits a transition. */
    predicate IsOpen() {
      !isCancelled && !isExecuted
    }

    /** The asset the maker offers: dollars for a buy, bitcoin for a sell. */
    function LockedAsset(): Asset {
      if isBuy then Dollar else Bitcoin
    }

    /** What the maker escrows on placement: `amount * price` dollars for a
        buy, `amount` bitcoin for a sell. */
    function Locks(asset: Asset): nat {
      match asset
      case Bitcoin => if isBuy then 0 else amount
      case Dollar => if isBuy then amount * price else 0
    }
  }

  /** The state the order book and the ledger share: both balance maps, the
      stored orders and the id the next order gets. */
  datatype State = State(bitcoin: BalanceMap, dollar: BalanceMap, orders: map<U64, Order>, nextOrderId: U64)
  {
    function Holdings(asset: Asset): BalanceMap {
      match asset
      case Bitcoin => bitcoin
      case Dollar => dollar
    }

    /** The same state with the balances of `asset` replaced by `m`. */
    function With(asset: Asset, m: BalanceMap): State {
      match asset
      case Bitcoin => this.(bitcoin := m)
      case Dollar => this.(dollar := m)
    }

    /** Every stored order has an id below the counter (ids are handed out
        in sequence and never reused) and at most one terminal flag. */
    ghost predicate Valid() {
      forall id :: id in orders ==> id < nextOrderId && !(orders[id].isCancelled && orders[id].isExecuted)
    }
  }

  /** The transaction around one runtime method: either all the writes of
      `result` are committed, or none are and the method reports the error. */
  predicate Commits(before: State, result: Result<State>, after: State, outcome: Outcome) {
    match result
    case Ok(s) => outcome == Pass && after == s
    case Err(e) => outcome == Fail(e) && after == before
  }

  /** `placeOrder`: escrow the sender's side of the order and store it, open,
      under the next order id. */
  function Place(s: State, sender: Account, isBuy: bool, amount: U64, price: U64): (r: Result<State>)
    ensures amount * price > MAX_U64 ==> r == Err(Overflow)
    ensures amount * price <= MAX_U64 && isBuy && BalanceOf(s.dollar, sender) < amount * price ==> r == Err(BalanceNotEnough)
    ensures amount * price <= MAX_U64 && !isBuy && BalanceOf(s.bitcoin, sender) < amount ==> r == Err(BalanceNotEnough)
    ensures r.Err? <==>
      || amount * price > MAX_U64
      || (isBuy && BalanceOf(s.dollar, sender) < amount * price)
      || (!isBuy && BalanceOf(s.bitcoin, sender) < amount)
      || s.nextOrderId == MAX_U64
    ensures r.Ok? ==>
      && BalanceOf(r.value.dollar, sender) + (if isBuy then amount * price else 0) == BalanceOf(s.dollar, sender)
      && BalanceOf(r.value.bitcoin, sender) + (if isBuy then 0 else amount) == BalanceOf(s.bitcoin, sender)
    ensures r.Ok? ==> forall a :: a != sender ==>
      BalanceOf(r.value.dollar, a) == BalanceOf(s.dollar, a) && BalanceOf(r.value.bitcoin, a) == BalanceOf(s.bitcoin, a)
    ensures r.Ok? ==>
      && r.value.nextOrderId == s.nextOrderId + 1
      && s.nextOrderId in r.value.orders
      && r.value.orders[s.nextOrderId] == Order(isBuy, false, false, amount, price, sender)
      && r.value.orders - {s.nextOrderId} == s.orders - {s.nextOrderId}
  {
    var balanceDollar := BalanceOf(s.dollar, sender);
    var balanceBitcoin := BalanceOf(s.bitcoin, sender);
    if amount * price > MAX_U64 then Err(Overflow)
    else
      var amountDollar: U64 := amount * price;
      var amountBitcoin := amount;
      if !(if isBuy then balanceDollar >= amountDollar else balanceBitcoin >= amountBitcoin) then Err(BalanceNotEnough)
      else if s.nextOrderId == MAX_U64 then Err(Overflow)
      else
        var newBalanceDollar: U64 := if isBuy then balanceDollar - amountDollar else balanceDollar;
        var newBalanceBitcoin: U64 := if isBuy then balanceBitcoin else balanceBitcoin - amountBitcoin;
        var order := Order(isBuy, false, false, amount, price, sender);
        Ok(State(s.bitcoin[sender := newBalanceBitcoin], s.dollar[sender := newBalanceDollar],
                 s.orders[s.nextOrderId := order], s.nextOrderId + 1))
  }

  /** `cancelOrder`: the maker of an open order gets its escrow back and the
      order is marked cancelled. */
  function Cancel(s: State, sender: Account, orderId: U64): (r: Result<State>)
    ensures orderId !in s.orders ==> r == Err(OrderNotFound)
    ensures orderId in s.orders && s.orders[orderId].isCancelled ==> r == Err(OrderAlreadyCancelled)
    ensures orderId in s.orders && !s.orders[orderId].isCancelled && s.orders[orderId].isExecuted ==>
      r == Err(OrderAlreadyExecuted)
    ensures orderId in s.orders && s.orders[orderId].IsOpen() && sender != s.orders[orderId].maker ==>
      r == Err(SenderNotMaker)
    ensures r.Ok? ==> orderId in s.orders && s.orders[orderId].IsOpen() && sender == s.orders[orderId].maker
    ensures orderId in s.orders && s.orders[orderId].IsOpen() && sender == s.orders[orderId].maker ==>
      var o := s.orders[orderId];
      (r.Err? <==>
        || o.amount * o.price > MAX_U64
        || BalanceOf(s.dollar, sender) + (if o.isBuy then o.amount * o.price else 0) > MAX_U64
        || BalanceOf(s.bitcoin, sender) + (if o.isBuy then 0 else o.amount) > MAX_U64)
    ensures r.Ok? ==>
      var o := s.orders[orderId];
      && BalanceOf(r.value.dollar, sender) == BalanceOf(s.dollar, sender) + (if o.isBuy then o.amount * o.price else 0)
      && BalanceOf(r.value.bitcoin, sender) == BalanceOf(s.bitcoin, sender) + (if o.isBuy then 0 else o.amount)
      && r.value.orders == s.orders[orderId := o.AsCancelled()]
      && r.value.nextOrderId == s.nextOrderId
    ensures r.Ok? ==> forall a :: a != sender ==>
      BalanceOf(r.value.dollar, a) == BalanceOf(s.dollar, a) && BalanceOf(r.value.bitcoin, a) == BalanceOf(s.bitcoin, a)
  {
    if orderId !in s.orders then Err(OrderNotFound)
    else
      var order := s.orders[orderId];
      if order.isCancelled then Err(OrderAlreadyCancelled)
      else if order.isExecuted then Err(OrderAlreadyExecuted)
      else if sender != order.maker then Err(SenderNotMaker)
      else
        var balanceDollar := BalanceOf(s.dollar, sender);
        var balanceBitcoin := BalanceOf(s.bitcoin, sender);
        if order.amount * order.price > MAX_U64 then Err(Overflow)
        else
          var amountDollar: U64 := order.amount * order.price;
          var amountBitcoin := order.amount;
          if (if order.isBuy then balanceDollar + amountDollar else balanceBitcoin + amountBitcoin) > MAX_U64 then
            Err(Overflow)
          else
            var newBalanceDollar: U64 := if order.isBuy then balanceDollar + amountDollar else balanceDollar;
            var newBalanceBitcoin: U64 := if order.isBuy then balanceBitcoin else balanceBitcoin + amountBitcoin;
            Ok(State(s.bitcoin[sender := newBalanceBitcoin], s.dollar[sender := newBalanceDollar],
                     s.orders[orderId := order.AsCancelled()], s.nextOrderId))
  }

  /** `executeOrder` as written: the sender pays the maker what the order asks
      for (`amount` bitcoin to a buyer, `amount * price` dollars to a seller),
      and the order is marked executed. The maker's escrow is not paid out. */
  function Execute(s: State, sender: Account, orderId: U64): (r: Result<State>)
    ensures orderId !in s.orders ==> r == Err(OrderNotFound)
    ensures orderId in s.orders && sender == s.orders[orderId].maker ==> r == Err(OwnOrder)
    ensures orderId in s.orders && sender != s.orders[orderId].maker && s.orders[orderId].isCancelled ==>
      r == Err(OrderAlreadyCancelled)
    ensures orderId in s.orders && sender != s.orders[orderId].maker ==>
      !s.orders[orderId].isCancelled && s.orders[orderId].isExecuted ==> r == Err(OrderAlreadyExecuted)
    ensures r.Ok? ==>
      && orderId in s.orders && sender != s.orders[orderId].maker && s.orders[orderId].IsOpen()
      && s.orders[orderId].amount * s.orders[orderId].price <= MAX_U64
    ensures orderId in s.orders && sender != s.orders[orderId].maker && s.orders[orderId].IsOpen() ==>
      var o := s.orders[orderId];
      o.amount * o.price <= MAX_U64 ==>
        (if o.isBuy then BalanceOf(s.bitcoin, sender) < o.amount else BalanceOf(s.dollar, sender) < o.amount * o.price) ==>
          r == Err(BalanceNotEnough)
    ensures orderId in s.orders && sender != s.orders[orderId].maker && s.orders[orderId].IsOpen() ==>
      var o := s.orders[orderId];
      (r.Err? <==>
        || o.amount * o.price > MAX_U64
        || (o.isBuy && (BalanceOf(s.bitcoin, sender) < o.amount || BalanceOf(s.bitcoin, o.maker) + o.amount > MAX_U64))
        || (!o.isBuy && (BalanceOf(s.dollar, sender) < o.amount * o.price
                         || BalanceOf(s.dollar, o.maker) + o.amount * o.price > MAX_U64)))
    ensures r.Ok? ==>
      var o := s.orders[orderId];
      if o.isBuy then
        && BalanceOf(r.value.bitcoin, sender) + o.amount == BalanceOf(s.bitcoin, sender)
        && BalanceOf(r.value.bitcoin, o.maker) == BalanceOf(s.bitcoin, o.maker) + o.amount
        && forall a :: BalanceOf(r.value.dollar, a) == BalanceOf(s.dollar, a)
      else
        && BalanceOf(r.value.dollar, sender) + o.amount * o.price == BalanceOf(s.dollar, sender)
        && BalanceOf(r.value.dollar, o.maker) == BalanceOf(s.dollar, o.maker) + o.amount * o.price
        && forall a :: BalanceOf(r.value.bitcoin, a) == BalanceOf(s.bitcoin, a)
    ensures r.Ok? ==> forall a :: a != sender && a != s.orders[orderId].maker ==>
      BalanceOf(r.value.dollar, a) == BalanceOf(s.dollar, a) && BalanceOf(r.value.bitcoin, a) == BalanceOf(s.bitcoin, a)
    ensures r.Ok? ==>
      && r.value.orders == s.orders[orderId := s.orders[orderId].AsExecuted()]
      && r.value.nextOrderId == s.nextOrderId
  {
    if orderId !in s.orders then Err(OrderNotFound)
    else
      var order := s.orders[orderId];
      if sender == order.maker then Err(OwnOrder)
      else if order.isCancelled then Err(OrderAlreadyCancelled)
      else if order.isExecuted then Err(OrderAlreadyExecuted)
      else
        var senderBalanceDollar := BalanceOf(s.dollar, sender);
        var senderBalanceBitcoin := BalanceOf(s.bitcoin, sender);
        var makerBalanceDollar := BalanceOf(s.dollar, order.maker);
        var makerBalanceBitcoin := BalanceOf(s.bitcoin, order.maker);
        if order.amount * order.price > MAX_U64 then Err(Overflow)
        else
          var amountDollar: U64 := order.amount * order.price;
          var amountBitcoin := order.amount;
          if !(if order.isBuy then senderBalanceBitcoin >= amountBitcoin else senderBalanceDollar >= amountDollar) then
            Err(BalanceNotEnough)
          else if (if order.isBuy then makerBalanceBitcoin + amountBitcoin else makerBalanceDollar + amountDollar) > MAX_U64 then
            Err(Overflow)
          else
            var newSenderBalanceDollar: U64 := if order.isBuy then senderBalanceDollar else senderBalanceDollar - amountDollar;
            var newSenderBalanceBitcoin: U64 := if order.isBuy then senderBalanceBitcoin - amountBitcoin else senderBalanceBitcoin;
            var newMakerBalanceDollar: U64 := if order.isBuy then makerBalanceDollar else makerBalanceDollar + amountDollar;
            var newMakerBalanceBitcoin: U64 := if order.isBuy then makerBalanceBitcoin + amountBitcoin else makerBalanceBitcoin;
            Ok(State(s.bitcoin[sender := newSenderBalanceBitcoin][order.maker := newMakerBalanceBitcoin],
                     s.dollar[sender := newSenderBalanceDollar][order.maker := newMakerBalanceDollar],
                     s.orders[orderId := order.AsExecuted()], s.nextOrderId))
  }

  /** `executeOrder` as evidently intended: as written, and then the maker's
      escrow goes to the sender (`amount * price` dollars from a buy order,
      `amount` bitcoin from a sell order). */
  function ExecuteSettled(s: State, sender: Account, orderId: U64): (r: Result<State>)
    ensures Execute(s, sender, orderId).Err? ==> r == Execute(s, sender, orderId)
    ensures Execute(s, sender, orderId).Ok? ==>
      var o := s.orders[orderId];
      (r.Err? <==>
        (if o.isBuy then BalanceOf(s.dollar, sender) + o.amount * o.price else BalanceOf(s.bitcoin, sender) + o.amount) > MAX_U64)
    ensures r.Ok? ==>
      var s1 := Execute(s, sender, orderId).value;
      && r.value.orders == s1.orders && r.value.nextOrderId == s1.nextOrderId
      && forall a :: a != sender ==>
           BalanceOf(r.value.dollar, a) == BalanceOf(s1.dollar, a) && BalanceOf(r.value.bitcoin, a) == BalanceOf(s1.bitcoin, a)
    ensures r.Ok? ==>
      var o := s.orders[orderId];
      if o.isBuy then
        && BalanceOf(r.value.bitcoin, sender) + o.amount == BalanceOf(s.bitcoin, sender)
        && BalanceOf(r.value.dollar, sender) == BalanceOf(s.dollar, sender) + o.amount * o.price
      else
        && BalanceOf(r.value.dollar, sender) + o.amount * o.price == BalanceOf(s.dollar, sender)
        && BalanceOf(r.value.bitcoin, sender) == BalanceOf(s.bitcoin, sender) + o.amount
  {
    var s1 :- Execute(s, sender, orderId);
    var asset := s.orders[orderId].LockedAsset();
    var credited :- Credit(s1.Holdings(asset), sender, s.orders[orderId].Locks(asset));
    Ok(s1.With(asset, credited))
  }

  /** A cancelled or executed order admits no further cancel or execute. */
  lemma ClosedOrderIsFinal(s: State, orderId: U64, sender: Account)
    requires orderId in s.orders && !s.orders[orderId].IsOpen()
    ensures Cancel(s, sender, orderId).Err?
    ensures Execute(s, sender, orderId).Err? && ExecuteSettled(s, sender, orderId).Err?
  {
  }

  /** After a successful cancel or execute, the order is closed for good. */
  lemma CancelOrExecuteCloses(s: State, caller: Account, orderId: U64, sender: Account)
    ensures Cancel(s, caller, orderId).Ok? ==>
      var s1 := Cancel(s, caller, orderId).value;
      Cancel(s1, sender, orderId) == Err(OrderAlreadyCancelled) && Execute(s1, sender, orderId).Err?
    ensures Execute(s, caller, orderId).Ok? ==>
      var s1 := Execute(s, caller, orderId).value;
      Cancel(s1, sender, orderId) == Err(OrderAlreadyExecuted) && Execute(s1, sender, orderId).Err?
  {
  }

  /** A placement undone by its maker: cancelling the order just placed
      succeeds and gives every account back both of its balances. */
  lemma PlaceThenCancel(s: State, sender: Account, isBuy: bool, amount: U64, price: U64)
    requires Place(s, sender, isBuy, amount, price).Ok?
    ensures Cancel(Place(s, sender, isBuy, amount, price).value, sender, s.nextOrderId).Ok?
    ensures
      var s2 := Cancel(Place(s, sender, isBuy, amount, price).value, sender, s.nextOrderId).value;
      && s2.orders[s.nextOrderId].isCancelled
      && forall a :: BalanceOf(s2.dollar, a) == BalanceOf(s.dollar, a) && BalanceOf(s2.bitcoin, a) == BalanceOf(s.bitcoin, a)
  {
  }

  /** What an order holds in escrow: its locked amount while open, nothing once closed. */
  ghost function Escrow(o: Order, asset: Asset): nat {
    if o.IsOpen() then o.Locks(asset) else 0
  }

  /** The escrow the book holds, of one asset, for the orders with ids below `n`. */
  ghost function Held(orders: map<U64, Order>, n: U64, asset: Asset): nat
    decreases n
  {
    if n == 0 then 0
    else Held(orders, n - 1, asset) + (if n - 1 in orders then Escrow(orders[n - 1], asset) else 0)
  }

  /** All of one asset there is: in the accounts plus in the book's escrow. */
  ghost function Supply(s: State, asset: Asset): nat {
    Total(s.Holdings(asset)) + Held(s.orders, s.nextOrderId, asset)
  }

  /** Writing an order at or above `n` does not change the escrow below `n`. */
  lemma {:induction false} HeldAbove(orders: map<U64, Order>, k: U64, o: Order, n: U64, asset: Asset)
    requires n <= k
    ensures Held(orders[k := o], n, asset) == Held(orders, n, asset)
    decreases n
  {
    if n > 0 {
      HeldAbove(orders, k, o, n - 1, asset);
    }
  }

  /** Replacing a stored order below `n` changes the escrow by the difference. */
  lemma {:induction false} HeldUpdate(orders: map<U64, Order>, k: U64, o: Order, n: U64, asset: Asset)
    requires k < n && k in orders
    ensures Held(orders[k := o], n, asset) + Escrow(orders[k], asset) == Held(orders, n, asset) + Escrow(o, asset)
    decreases n
  {
    if k == n - 1 {
      HeldAbove(orders, k, o, n - 1, asset);
    } else {
      HeldUpdate(orders, k, o, n - 1, asset);
    }
  }

  /** Writing two different accounts' balances changes the sum by both differences. */
  lemma TotalUpdate2(m: BalanceMap, a: Account, v: U64, b: Account, w: U64)
    requires a != b
    ensures Total(m[a := v][b := w]) + BalanceOf(m, a) + BalanceOf(m, b) == Total(m) + v + w
  {
    TotalUpdate(m, a, v);
    TotalUpdate(m[a := v], b, w);
  }

  /** `placeOrder` uses a fresh id, keeps ids below the counter, and moves the
      escrow from the sender's balance into the book: no asset is created or lost. */
  lemma PlaceConservesSupply(s: State, sender: Account, isBuy: bool, amount: U64, price: U64, asset: Asset)
    requires s.Valid() && Place(s, sender, isBuy, amount, price).Ok?
    ensures s.nextOrderId !in s.orders
    ensures Place(s, sender, isBuy, amount, price).value.Valid()
    ensures Supply(Place(s, sender, isBuy, amount, price).value, asset) == Supply(s, asset)
  {
    var s' := Place(s, sender, isBuy, amount, price).value;
    var n := s.nextOrderId;
    var o := Order(isBuy, false, false, amount, price, sender);
    assert s'.orders == s.orders[n := o];
    HeldAbove(s.orders, n, o, n, asset);
    TotalUpdate(s.Holdings(asset), sender, BalanceOf(s'.Holdings(asset), sender));
    assert s'.Holdings(asset) == s.Holdings(asset)[sender := BalanceOf(s'.Holdings(asset), sender)];
  }

  /** `cancelOrder` moves the escrow from the book back to the maker: no
      asset is created or lost. */
  lemma CancelConservesSupply(s: State, sender: Account, orderId: U64, asset: Asset)
    requires s.Valid() && Cancel(s, sender, orderId).Ok?
    ensures Cancel(s, sender, orderId).value.Valid()
    ensures Supply(Cancel(s, sender, orderId).value, asset) == Supply(s, asset)
  {
    var s' := Cancel(s, sender, orderId).value;
    var o := s.orders[orderId];
    HeldUpdate(s.orders, orderId, o.AsCancelled(), s.nextOrderId, asset);
    TotalUpdate(s.Holdings(asset), sender, BalanceOf(s'.Holdings(asset), sender));
    assert s'.Holdings(asset) == s.Holdings(asset)[sender := BalanceOf(s'.Holdings(asset), sender)];
  }

  /** `executeOrder` as written takes the maker's escrow out of the book and
      credits it to nobody: exactly the escrowed amount of that asset is lost. */
  lemma ExecuteLosesEscrow(s: State, sender: Account, orderId: U64, asset: Asset)
    requires s.Valid() && Execute(s, sender, orderId).Ok?
    ensures Execute(s, sender, orderId).value.Valid()
    ensures Supply(Execute(s, sender, orderId).value, asset) + s.orders[orderId].Locks(asset) == Supply(s, asset)
  {
    var s' := Execute(s, sender, orderId).value;
    var o := s.orders[orderId];
    HeldUpdate(s.orders, orderId, o.AsExecuted(), s.nextOrderId, asset);
    var m := s.Holdings(asset);
    var v, w := BalanceOf(s'.Holdings(asset), sender), BalanceOf(s'.Holdings(asset), o.maker);
    TotalUpdate2(m, sender, v, o.maker, w);
    assert s'.Holdings(asset) == m[sender := v][o.maker := w];
  }

  /** The settled `executeOrder` is a full swap: no asset is created or lost. */
  lemma SettledExecuteConservesSupply(s: State, sender: Account, orderId: U64, asset: Asset)
    requires s.Valid() && ExecuteSettled(s, sender, orderId).Ok?
    ensures ExecuteSettled(s, sender, orderId).value.Valid()
    ensures Supply(ExecuteSettled(s, sender, orderId).value, asset) == Supply(s, asset)
  {
    var s1 := Execute(s, sender, orderId).value;
    var locked := s.orders[orderId].LockedAsset();
    ExecuteLosesEscrow(s, sender, orderId, asset);
    CreditTotal(s1.Holdings(locked), sender, s.orders[orderId].Locks(locked));
  }

  /** The `OrderBook` runtime module: the stored orders and the id counter,
      writing balances into the ledger module it is given. */
  class OrderBook {
    const balances: Balances
    var orders: map<U64, Order>
    var nextOrderId: U64

    /** No orders yet; the counter starts at zero. */
    constructor (balances: Balances)
      ensures this.balances == balances && orders == map[] && nextOrderId == 0
    {
      this.balances := balances;
      orders := map[];
      nextOrderId := 0;
    }

    /** The shared state this module and its ledger hold. */
    function Snapshot(): State
      reads this, balances
    {
      State(balances.bitcoin, balances.dollar, orders, nextOrderId)
    }

    method PlaceOrder(sender: Account, isBuy: bool, amount: U64, price: U64) returns (r: Outcome)
      modifies this, balances
      ensures Commits(old(Snapshot()), Place(old(Snapshot()), sender, isBuy, amount, price), Snapshot(), r)
    {
      var balanceDollar := BalanceOf(balances.dollar, sender);
      var balanceBitcoin := BalanceOf(balances.bitcoin, sender);
      if amount * price > MAX_U64 {
        return Fail(Overflow);
      }
      var amountDollar: U64 := amount * price;
      var amountBitcoin := amount;
      if !(if isBuy then balanceDollar >= amountDollar else balanceBitcoin >= amountBitcoin) {
        return Fail(BalanceNotEnough);
      }
      var newBalanceDollar: U64 := if isBuy then balanceDollar - amountDollar else balanceDollar;
      var newBalanceBitcoin: U64 := if isBuy then balanceBitcoin else balanceBitcoin - amountBitcoin;
      var orderId := nextOrderId;
      if orderId == MAX_U64 {
        return Fail(Overflow);
      }
      var order := Order(isBuy, false, false, amount, price, sender);
      balances.dollar := balances.dollar[sender := newBalanceDollar];
      balances.bitcoin := balances.bitcoin[sender := newBalanceBitcoin];
      orders := orders[orderId := order];
      nextOrderId := orderId + 1;
      r := Pass;
    }

    method CancelOrder(sender: Account, orderId: U64) returns (r: Outcome)
      modifies this, balances
      ensures Commits(old(Snapshot()), Cancel(old(Snapshot()), sender, orderId), Snapshot(), r)
    {
      if orderId !in orders {
        return Fail(OrderNotFound);
      }
      var order := orders[orderId];
      if order.isCancelled {
        return Fail(OrderAlreadyCancelled);
      }
      if order.isExecuted {
        return Fail(OrderAlreadyExecuted);
      }
      if sender != order.maker {
        return Fail(SenderNotMaker);
      }
      var balanceDollar := BalanceOf(balances.dollar, sender);
      var balanceBitcoin := BalanceOf(balances.bitcoin, sender);
      if order.amount * order.price > MAX_U64 {
        return Fail(Overflow);
      }
      var amountDollar: U64 := order.amount * order.price;
      var amountBitcoin := order.amount;
      var refunded: nat := if order.isBuy then balanceDollar as nat + amountDollar else balanceBitcoin as nat + amountBitcoin;
      if refunded > MAX_U64 {
        return Fail(Overflow);
      }
      var newBalanceDollar: U64 := if order.isBuy then balanceDollar + amountDollar else balanceDollar;
      var newBalanceBitcoin: U64 := if order.isBuy then balanceBitcoin else balanceBitcoin + amountBitcoin;
      balances.dollar := balances.dollar[sender := newBalanceDollar];
      balances.bitcoin := balances.bitcoin[sender := newBalanceBitcoin];
      orders := orders[orderId := order.AsCancelled()];
      r := Pass;
    }

    method ExecuteOrder(sender: Account, orderId: U64) returns (r: Outcome)
      modifies this, balances
      ensures Commits(old(Snapshot()), Execute(old(Snapshot()), sender, orderId), Snapshot(), r)
    {
      if orderId !in orders {
        return Fail(OrderNotFound);
      }
      var order := orders[orderId];
      if sender == order.maker {
        return Fail(OwnOrder);
      }
      if order.isCancelled {
        return Fail(OrderAlreadyCancelled);
      }
      if order.isExecuted {
        return Fail(OrderAlreadyExecuted);
      }
      var senderBalanceDollar := BalanceOf(balances.dollar, sender);
      var senderBalanceBitcoin := BalanceOf(balances.bitcoin, sender);
      var makerBalanceDollar := BalanceOf(balances.dollar, order.maker);
      var makerBalanceBitcoin := BalanceOf(balances.bitcoin, order.maker);
      if order.amount * order.price > MAX_U64 {
        return Fail(Overflow);
      }
      var amountDollar: U64 := order.amount * order.price;
      var amountBitcoin := order.amount;
      if !(if order.isBuy then senderBalanceBitcoin >= amountBitcoin else senderBalanceDollar >= amountDollar) {
        return Fail(BalanceNotEnough);
      }
      var received: nat := if order.isBuy then makerBalanceBitcoin as nat + amountBitcoin else makerBalanceDollar as nat + amountDollar;
      if received > MAX_U64 {
        return Fail(Overflow);
      }
      var newSenderBalanceDollar: U64 := if order.isBuy then senderBalanceDollar else senderBalanceDollar - amountDollar;
      var newSenderBalanceBitcoin: U64 := if order.isBuy then senderBalanceBitcoin - amountBitcoin else senderBalanceBitcoin;
      var newMakerBalanceDollar: U64 := if order.isBuy then makerBalanceDollar else makerBalanceDollar + amountDollar;
      var newMakerBalanceBitcoin: U64 := if order.isBuy then makerBalanceBitcoin + amountBitcoin else makerBalanceBitcoin;
      balances.dollar := balances.dollar[sender := newSenderBalanceDollar];
      balances.bitcoin := balances.bitcoin[sender := newSenderBalanceBitcoin];
      balances.dollar := balances.dollar[order.maker := newMakerBalanceDollar];
      balances.bitcoin := balances.bitcoin[order.maker := newMakerBalanceBitcoin];
      orders := orders[orderId := order.AsExecuted()];
      r := Pass;
    }
  }

  /** The test run of the order-book module against the model as written,
      with bob as the sender of the execution: every transaction succeeds, but
      bob, the buyer of the sold bitcoin, ends with none of it. */
  method TestScenario(alice: Account, bob: Account) returns (aliceBitcoin: U64, aliceDollar: U64, bobBitcoin: U64, bobDollar: U64)
    requires alice != bob
    ensures aliceBitcoin == 20 && aliceDollar == 45_000
    ensures bobDollar == 1_000_000 - 45_000
    ensures bobBitcoin == 0
  {
    var ledger := new Balances();
    var r := ledger.AddBitcoin(alice, 21);
    assert r == Pass;
    r := ledger.AddDollar(bob, 1_000_000);
    assert r == Pass;
    assert BalanceOf(ledger.bitcoin, alice) == 21 && BalanceOf(ledger.dollar, bob) == 1_000_000;

    var book := new OrderBook(ledger);
    r := book.PlaceOrder(alice, false, 1, 45_000);
    assert r == Pass;
    assert BalanceOf(ledger.bitcoin, alice) == 20;

    r := book.CancelOrder(alice, 0);
    assert r == Pass;
    assert BalanceOf(ledger.bitcoin, alice) == 21;

    r := book.PlaceOrder(alice, false, 1, 45_000);
    assert r == Pass;
    assert BalanceOf(ledger.bitcoin, alice) == 20;

    r := book.ExecuteOrder(bob, 1);
    assert r == Pass;
    aliceBitcoin := BalanceOf(ledger.bitcoin, alice);
    aliceDollar := BalanceOf(ledger.dollar, alice);
    bobBitcoin := BalanceOf(ledger.bitcoin, bob);
    bobDollar := BalanceOf(ledger.dollar, bob);
  }

  /** The first order-book transactions of the test run: alice places a sell
      order for 1 bitcoin at 45,000 dollars, cancels it and places it again. */
  function TestRunSetup(s0: State, alice: Account): Result<State> {
    var s1 :- Place(s0, alice, false, 1, 45_000);
    var s2 :- Cancel(s1, alice, 0);
    Place(s2, alice, false, 1, 45_000)
  }

  /** The sixth transaction as the test writes it names alice, the maker of
      order 1, as its sender; `executeOrder` then rejects it as her own order. */
  lemma TestRunAsWrittenIsOwnOrder(s0: State, alice: Account)
    requires BalanceOf(s0.bitcoin, alice) == 21
    requires s0.orders == map[] && s0.nextOrderId == 0
    ensures TestRunSetup(s0, alice).Ok?
    ensures Execute(TestRunSetup(s0, alice).value, alice, 1) == Err(OwnOrder)
  {
  }

  /** The same run with bob as the executor and the settled `executeOrder`. */
  function SettledTestRun(s0: State, alice: Account, bob: Account): Result<State> {
    var s3 :- TestRunSetup(s0, alice);
    ExecuteSettled(s3, bob, 1)
  }

  /** From the balances the test sets up (alice 21 bitcoin, bob 1,000,000
      dollars, no orders), the settled run ends with the balances the test expects. */
  lemma SettledTestRunMeetsTest(s0: State, alice: Account, bob: Account)
    requires alice != bob
    requires BalanceOf(s0.bitcoin, alice) == 21 && BalanceOf(s0.dollar, alice) == 0
    requires BalanceOf(s0.bitcoin, bob) == 0 && BalanceOf(s0.dollar, bob) == 1_000_000
    requires s0.orders == map[] && s0.nextOrderId == 0
    ensures SettledTestRun(s0, alice, bob).Ok?
    ensures var s := SettledTestRun(s0, alice, bob).value;
      && BalanceOf(s.bitcoin, alice) == 20 && BalanceOf(s.dollar, alice) == 45_000
      && BalanceOf(s.bitcoin, bob) == 1 && BalanceOf(s.dollar, bob) == 1_000_000 - 45_000
  {
  }
}
