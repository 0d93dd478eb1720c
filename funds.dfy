/**
 * The amount attached to a call: the sum of the amounts of all its coins,
 * whatever their denomination, computed with `Uint128` addition, which
 * panics rather than wrap when a partial sum passes `UINT128_MAX`.
 */
module Funds {
  import opened Types

  /** The exact sum of every coin's amount; no coin is filtered out by its denomination. */
  function TotalAmount(funds: seq<Coin>): (total: nat)
    ensures forall i :: 0 <= i < |funds| ==> funds[i].amount <= total
    ensures funds == [] ==> total == 0
  {
    if funds == [] then 0 else funds[0].amount + TotalAmount(funds[1..])
  }

  lemma {:induction false} TotalAmountAppend(a: seq<Coin>, b: seq<Coin>)
    ensures TotalAmount(a + b) == TotalAmount(a) + TotalAmount(b)
  {
    if a == [] {
      assert a + b == b;
    } else {
      assert (a + b)[1..] == a[1..] + b;
      TotalAmountAppend(a[1..], b);
    }
  }

  /** Attaching more coins never lowers the total. */
  lemma TotalAmountPrefix(funds: seq<Coin>, k: nat)
    requires k <= |funds|
    ensures TotalAmount(funds[..k]) <= TotalAmount(funds)
  {
    assert funds == funds[..k] + funds[k..];
    TotalAmountAppend(funds[..k], funds[k..]);
  }

  /**
   * The total depends on the amounts alone: two lists of coins with the same
   * amounts in the same order have the same total, whatever their denominations.
   */
  lemma {:induction false} TotalAmountIgnoresDenoms(a: seq<Coin>, b: seq<Coin>)
    requires |a| == |b|
    requires forall i :: 0 <= i < |a| ==> a[i].amount == b[i].amount
    ensures TotalAmount(a) == TotalAmount(b)
  {
    if a != [] {
      TotalAmountIgnoresDenoms(a[1..], b[1..]);
    }
  }

  /**
   * `info.funds.iter().map(|c| c.amount).sum()`: adds the amounts left to
   * right; `None` stands for the overflow panic of `Uint128` addition, which
   * happens exactly when the true total does not fit in 128 bits.
   */
  method SumFunds(funds: seq<Coin>) returns (sent: Option<Uint128>)
    ensures sent == if TotalAmount(funds) <= UINT128_MAX then Some(TotalAmount(funds)) else None
  {
    var total: Uint128 := 0;
    var i := 0;
    while i < |funds|
      invariant 0 <= i <= |funds|
      invariant total == TotalAmount(funds[..i])
    {
      assert funds[..i + 1] == funds[..i] + [funds[i]];
      TotalAmountAppend(funds[..i], [funds[i]]);
      if total + funds[i].amount > UINT128_MAX {
        TotalAmountPrefix(funds, i + 1);
        return None;
      }
      total := total + funds[i].amount;
      i := i + 1;
    }
    assert funds[..i] == funds;
    return Some(total);
  }
}
