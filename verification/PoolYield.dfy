/**
 The oracle's yield arithmetic: rounding down per pool loses, over a list of pools with one
 rate, less than one unit per pool after the first against the yield of the combined TVL.
 */
module PoolYield {
  import opened Base
  import opened VaultProtocol

  /** `get_pool_yield`, whose product panics outside u256. */
  function YieldOf(m: PoolMetrics): Outcome<nat> {
    var _ :- Assert(m.yieldRate * m.tvl <= U256_MAX, "u256_mul Overflow");
    Ok(m.yieldRate * m.tvl / FULL_WEIGHT)
  }

  function YieldAmount(rate: nat, tvl: nat): nat {
    rate * tvl / 100_000
  }

  function TotalTvl(tvls: seq<nat>): nat {
    if tvls == [] then 0 else tvls[0] + TotalTvl(tvls[1..])
  }

  function TotalYield(rate: nat, tvls: seq<nat>): nat {
    if tvls == [] then 0 else YieldAmount(rate, tvls[0]) + TotalYield(rate, tvls[1..])
  }

  lemma FloorsAdd(x: nat, y: nat)
    ensures x / 100_000 + y / 100_000 <= (x + y) / 100_000 <= x / 100_000 + y / 100_000 + 1
  {
  }

  /** Rounding per pool never pays more than rounding once, and at most one unit less per pool after the first. */
  lemma {:induction false} RoundingLoss(rate: nat, tvls: seq<nat>)
    requires tvls != []
    ensures TotalYield(rate, tvls) <= YieldAmount(rate, TotalTvl(tvls)) <= TotalYield(rate, tvls) + |tvls| - 1
  {
    if |tvls| == 1 {
      assert tvls[1..] == [];
    } else {
      RoundingLoss(rate, tvls[1..]);
      assert rate * TotalTvl(tvls) == rate * tvls[0] + rate * TotalTvl(tvls[1..]);
      FloorsAdd(rate * tvls[0], rate * TotalTvl(tvls[1..]));
    }
  }

  function Copies(tvl: nat, n: nat): seq<nat> {
    if n == 0 then [] else [tvl] + Copies(tvl, n - 1)
  }

  lemma {:induction false} CopiesAdd(tvl: nat, n: nat)
    ensures |Copies(tvl, n)| == n && TotalTvl(Copies(tvl, n)) == n * tvl
    ensures tvl < 100_000 ==> TotalYield(1, Copies(tvl, n)) == 0
  {
    if n > 0 {
      CopiesAdd(tvl, n - 1);
      assert Copies(tvl, n)[1..] == Copies(tvl, n - 1);
      assert (n - 1) * tvl + tvl == n * tvl;
    }
  }

  /** The whole loss occurs: for up to 100000 pools there are TVLs for which it is n - 1. */
  lemma LossIsAttained(n: nat)
    requires 1 <= n <= 100_000
    ensures exists tvls :: |tvls| == n && YieldAmount(1, TotalTvl(tvls)) == TotalYield(1, tvls) + n - 1
  {
    var tvls := Copies(100_000 - 1, n);
    CopiesAdd(100_000 - 1, n);
    assert 1 * TotalTvl(tvls) == (n - 1) * 100_000 + (100_000 - n);
    assert YieldAmount(1, TotalTvl(tvls)) == n - 1;
  }

  /** More TVL never yields less, and a rate of at most one hundred percent never yields more than the TVL. */
  lemma YieldIsMonotone(rate: nat, a: nat, b: nat)
    requires a <= b
    ensures YieldAmount(rate, a) <= YieldAmount(rate, b)
    ensures rate <= 100_000 ==> YieldAmount(rate, b) <= b
  {
    assert rate * a <= rate * b;
    if rate <= 100_000 { assert rate * b <= 100_000 * b; }
  }

  /** The contract answers exactly when the product fits, and then with the yield rounded down to a whole unit: the
      rate is in parts of 100000. */
  lemma YieldIsRoundedDown(m: PoolMetrics)
    ensures YieldOf(m).Ok? <==> m.yieldRate * m.tvl <= U256_MAX
    ensures YieldOf(m).Ok? ==>
      var y := YieldOf(m).value;
      y == YieldAmount(m.yieldRate, m.tvl) && y * 100_000 <= m.yieldRate * m.tvl < (y + 1) * 100_000
  {
    var product := m.yieldRate * m.tvl;
    assert product / 100_000 * 100_000 <= product < (product / 100_000 + 1) * 100_000;
  }

  /** A pool that answers for a TVL answers for every smaller one, and with no more. */
  lemma YieldAnswers(m: PoolMetrics, smaller: nat)
    requires YieldOf(m).Ok? && smaller <= m.tvl
    ensures YieldOf(m).value == YieldAmount(m.yieldRate, m.tvl)
    ensures YieldOf(m.(tvl := smaller)).Ok? && YieldOf(m.(tvl := smaller)).value <= YieldOf(m).value
  {
    assert m.yieldRate * smaller <= m.yieldRate * m.tvl;
    YieldIsMonotone(m.yieldRate, smaller, m.tvl);
  }
}
