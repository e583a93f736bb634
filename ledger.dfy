/** The balance ledger: one UInt64 balance per account for each of the two
    assets, bitcoin and dollar (packages/chain/src/balances.ts). */
module Ledger {
  import opened Prelude

  /** An account, named by its public key; only equality between keys matters. */
  type Account(==, !new)

  /** The balances of one asset, with an entry for every account ever written. */
  type BalanceMap = map<Account, U64>

  /** The balance of `a`: an account that was never written holds zero. */
  function BalanceOf(m: BalanceMap, a: Account): (b: U64)
    ensures a in m ==> b == m[a]
    ensures a !in m ==> b == 0
  {
    if a in m then m[a] else 0
  }

  /** `add`: read the balance of `a`, add `amount` and write the sum back. */
  function Credit(m: BalanceMap, a: Account, amount: U64): (r: Result<BalanceMap>)
    ensures r.Err? <==> BalanceOf(m, a) + amount > MAX_U64
    ensures r.Err? ==> r.error == Overflow
    ensures r.Ok? ==> BalanceOf(r.value, a) == BalanceOf(m, a) + amount
    ensures r.Ok? ==> forall b :: b != a ==> BalanceOf(r.value, b) == BalanceOf(m, b)
  {
    var newBalance := BalanceOf(m, a) + amount;
    if newBalance > MAX_U64 then Err(Overflow) else Ok(m[a := newBalance])
  }

  /** `sub`: read the balance of `a`, subtract `amount` and write the difference back. */
  function Debit(m: BalanceMap, a: Account, amount: U64): (r: Result<BalanceMap>)
    ensures r.Err? <==> amount > BalanceOf(m, a)
    ensures r.Err? ==> r.error == Underflow
    ensures r.Ok? ==> BalanceOf(r.value, a) + amount == BalanceOf(m, a)
    ensures r.Ok? ==> forall b :: b != a ==> BalanceOf(r.value, b) == BalanceOf(m, b)
  {
    var balance := BalanceOf(m, a);
    if amount > balance then Err(Underflow) else Ok(m[a := balance - amount])
  }

  /** A debit of what was just credited restores every balance. */
  lemma CreditThenDebit(m: BalanceMap, a: Account, amount: U64)
    requires Credit(m, a, amount).Ok?
    ensures Debit(Credit(m, a, amount).value, a, amount).Ok?
    ensures forall b :: BalanceOf(Debit(Credit(m, a, amount).value, a, amount).value, b) == BalanceOf(m, b)
  {
  }

  /** The sum of all balances of one asset: the asset's supply held by accounts. */
  ghost function Total(m: BalanceMap): nat
    decreases |m|
  {
    if m == map[] then 0
    else
      var a :| a in m;
      m[a] + Total(m - {a})
  }

  /** The sum does not depend on the account `Total` happens to pick first. */
  lemma {:induction false} TotalRemove(m: BalanceMap, a: Account)
    requires a in m
    ensures Total(m) == m[a] + Total(m - {a})
    decreases |m|
  {
    var b :| b in m && Total(m) == m[b] + Total(m - {b});
    if b != a {
      TotalRemove(m - {b}, a);
      TotalRemove(m - {a}, b);
      assert m - {b} - {a} == m - {a} - {b};
    }
  }

  /** Writing one balance changes the sum by the difference. */
  lemma TotalUpdate(m: BalanceMap, a: Account, v: U64)
    ensures Total(m[a := v]) + BalanceOf(m, a) == Total(m) + v
  {
    TotalRemove(m[a := v], a);
    assert m[a := v] - {a} == m - {a};
    if a in m {
      TotalRemove(m, a);
    } else {
      assert m - {a} == m;
    }
  }

  /** A credit of `amount` adds exactly `amount` to the asset's supply. */
  lemma CreditTotal(m: BalanceMap, a: Account, amount: U64)
    requires Credit(m, a, amount).Ok?
    ensures Total(Credit(m, a, amount).value) == Total(m) + amount
  {
    TotalUpdate(m, a, BalanceOf(m, a) + amount);
  }

  /** A debit of `amount` removes exactly `amount` from the asset's supply. */
  lemma DebitTotal(m: BalanceMap, a: Account, amount: U64)
    requires Debit(m, a, amount).Ok?
    ensures Total(Debit(m, a, amount).value) + amount == Total(m)
  {
    TotalUpdate(m, a, BalanceOf(m, a) - amount);
  }

  /** The runtime module `Balances`: the two balance maps, updated in place. */
  class Balances {
    var bitcoin: BalanceMap
    var dollar: BalanceMap

    /** Every account starts with zero of both assets. */
    constructor ()
      ensures bitcoin == map[] && dollar == map[]
    {
      bitcoin := map[];
      dollar := map[];
    }

    method AddBitcoin(address: Account, amount: U64) returns (r: Outcome)
      modifies this
      ensures dollar == old(dollar)
      ensures match Credit(old(bitcoin), address, amount)
              case Ok(m) => r == Pass && bitcoin == m
              case Err(e) => r == Fail(e) && bitcoin == old(bitcoin)
    {
      var currentBalance := BalanceOf(bitcoin, address);
      if currentBalance + amount > MAX_U64 {
        return Fail(Overflow);
      }
      bitcoin := bitcoin[address := currentBalance + amount];
      r := Pass;
    }

    method AddDollar(address: Account, amount: U64) returns (r: Outcome)
      modifies this
      ensures bitcoin == old(bitcoin)
      ensures match Credit(old(dollar), address, amount)
              case Ok(m) => r == Pass && dollar == m
              case Err(e) => r == Fail(e) && dollar == old(dollar)
    {
      var currentBalance := BalanceOf(dollar, address);
      if currentBalance + amount > MAX_U64 {
        return Fail(Overflow);
      }
      dollar := dollar[address := currentBalance + amount];
      r := Pass;
    }

    method SubBitcoin(address: Account, amount: U64) returns (r: Outcome)
      modifies this
      ensures dollar == old(dollar)
      ensures match Debit(old(bitcoin), address, amount)
              case Ok(m) => r == Pass && bitcoin == m
              case Err(e) => r == Fail(e) && bitcoin == old(bitcoin)
    {
      var currentBalance := BalanceOf(bitcoin, address);
      if amount > currentBalance {
        return Fail(Underflow);
      }
      bitcoin := bitcoin[address := currentBalance - amount];
      r := Pass;
    }

    method SubDollar(address: Account, amount: U64) returns (r: Outcome)
      modifies this
      ensures bitcoin == old(bitcoin)
      ensures match Debit(old(dollar), address, amount)
              case Ok(m) => r == Pass && dollar == m
              case Err(e) => r == Fail(e) && dollar == old(dollar)
    {
      var currentBalance := BalanceOf(dollar, address);
      if amount > currentBalance {
        return Fail(Underflow);
      }
      dollar := dollar[address := currentBalance - amount];
      r := Pass;
    }
  }
}
