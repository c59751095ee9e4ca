/** A target's share of a rate, by weight. */
module Shares {
  import opened Tally
  import Arith

  const U32: nat := 0x1_0000_0000
  const U64: nat := 0x1_0000_0000_0000_0000

  /** A weight that is not set is one. */
  function WeightOf(weight: nat): (w: nat)
    ensures w >= 1
  {
    if weight == 0 then 1 else weight
  }

  /** Divided first and rounded from the remainder, as a sum of the product and half the total need not
      fit. */
  function Rounded(product: nat, total: nat): nat
    requires total > 0
  {
    var rem := product % total;
    if rem >= total - rem then product / total + 1 else product / total
  }

  function AtLeastOne(v: nat): nat { if v == 0 then 1 else v }

  /** `rate` x `w` / `total`, rounded to nearest, at least one for a rate that is set. Every step is as
      wide as the code's: a product of 64 bits, a result of 32. */
  function Share(rate: nat, w: nat, total: nat): nat
    requires total > 0
  {
    if rate == 0 then 0 else AtLeastOne(Rounded(rate * w % U64, total)) % U32
  }

  /** Nearest, with a half rounded up. */
  ghost predicate Nearest(v: nat, product: nat, total: nat) {
    2 * product - total < 2 * total * v <= 2 * product + total
  }

  lemma ProductFits(rate: nat, w: nat)
    requires rate < U32 && w < U32
    ensures rate * w < U64
  {
    Arith.MulMono(w, U32, rate);
    Arith.MulMono(rate, U32, U32);
  }

  lemma RoundedIsNearest(product: nat, total: nat)
    requires total > 0
    ensures Nearest(Rounded(product, total), product, total)
  {
    var q, rem := product / total, product % total;
    assert product == total * q + rem;
    assert total * (q + 1) == total * q + total;
  }

  /** A share of a weight that is at most the total is at most the rate, so nothing overflows. */
  lemma NearestFits(v: nat, rate: nat, w: nat, total: nat)
    requires w <= total && total > 0 && Nearest(v, rate * w, total)
    ensures v <= rate
  {
    Arith.MulMono(w, total, rate);
    assert total * (rate + 1) == rate * total + total;
    if v > rate {
      Arith.MulMono(rate + 1, v, total);
      assert false;
    }
  }

  lemma ShareIs(rate: nat, w: nat, total: nat)
    requires 0 < rate < U32 && w < U32 && w <= total && total > 0
    ensures Rounded(rate * w, total) <= rate && Share(rate, w, total) == AtLeastOne(Rounded(rate * w, total))
  {
    ProductFits(rate, w);
    RoundedIsNearest(rate * w, total);
    NearestFits(Rounded(rate * w, total), rate, w, total);
    hide Rounded;
    assert rate * w % U64 == rate * w;
  }

  /** The share is the nearest integer, or it is the one that a non-zero rate is raised to. */
  lemma ShareIsNearest(rate: nat, w: nat, total: nat)
    requires rate < U32 && w < U32 && w <= total && total > 0
    ensures var v := Share(rate, w, total);
      && v <= rate < U32
      && (rate > 0 ==> v >= 1)
      && (Nearest(v, rate * w, total) || (v == 1 && Nearest(0, rate * w, total)))
  {
    if rate > 0 {
      ShareIs(rate, w, total);
      RoundedIsNearest(rate * w, total);
      hide Share, Rounded;
    } else {
      assert rate * w == 0;
    }
  }

  // ----- All targets together -----

  function Total(weights: seq<nat>): nat {
    if weights == [] then 0 else Total(weights[..|weights| - 1]) + WeightOf(weights[|weights| - 1])
  }

  /** Fewer than 2^32 weights sum to a 64-bit number. */
  lemma {:induction false} TotalFits(weights: seq<nat>)
    requires forall i | 0 <= i < |weights| :: weights[i] < U32
    ensures Total(weights) <= |weights| * (U32 - 1)
  {
    if weights != [] {
      TotalFits(weights[..|weights| - 1]);
    }
  }

  /** The shares of all targets. */
  function SharesOf(rate: nat, weights: seq<nat>, total: nat): nat
    requires total > 0
  {
    if weights == [] then 0
    else SharesOf(rate, weights[..|weights| - 1], total) + Share(rate, WeightOf(weights[|weights| - 1]), total)
  }

  /** No share was raised to one. */
  ghost predicate NoneRaised(rate: nat, weights: seq<nat>, total: nat)
    requires total > 0
  {
    forall i | 0 <= i < |weights| ::
      Nearest(Share(rate, WeightOf(weights[i]), total), rate * WeightOf(weights[i]), total)
  }

  lemma {:induction false} WeightWithinTotal(weights: seq<nat>, i: nat)
    requires i < |weights|
    ensures WeightOf(weights[i]) <= Total(weights)
  {
    if i < |weights| - 1 {
      WeightWithinTotal(weights[..|weights| - 1], i);
    }
  }

  /** Twice the error of one share, in units of the total. */
  ghost function Error(rate: nat, weight: nat, total: nat): int
    requires total > 0
  {
    2 * (total * Share(rate, WeightOf(weight), total) - rate * WeightOf(weight))
  }

  ghost function Errors(rate: nat, weights: seq<nat>, total: nat): int
    requires total > 0
  {
    if weights == [] then 0
    else Errors(rate, weights[..|weights| - 1], total) + Error(rate, weights[|weights| - 1], total)
  }

  lemma {:induction false} ErrorsIs(rate: nat, weights: seq<nat>, total: nat)
    requires total > 0
    ensures Errors(rate, weights, total) == 2 * (total * SharesOf(rate, weights, total) - rate * Total(weights))
  {
    if weights != [] {
      var k := |weights| - 1;
      ErrorsIs(rate, weights[..k], total);
      var w := WeightOf(weights[k]);
      Arith.Distributes(total, SharesOf(rate, weights[..k], total), Share(rate, w, total));
      Arith.Distributes(rate, Total(weights[..k]), w);
      hide Share, WeightOf;
    }
  }

  lemma {:induction false} ErrorsWithin(rate: nat, weights: seq<nat>, total: nat, bound: nat)
    requires total > 0
    requires forall i | 0 <= i < |weights| :: -(bound as int) <= Error(rate, weights[i], total) <= bound
    ensures -(bound * |weights|) <= Errors(rate, weights, total) <= bound * |weights|
  {
    if weights != [] {
      var k := |weights| - 1;
      ErrorsWithin(rate, weights[..k], total, bound);
      Arith.Distributes(bound, k, 1);
      hide Error;
    }
  }

  /** A nearest share is off by at most half a total, a raised one by at most one. */
  lemma ErrorWithin(rate: nat, weight: nat, total: nat)
    requires total > 0 && rate < U32 && weight < U32 && WeightOf(weight) <= total
    ensures -2 * total <= Error(rate, weight, total) <= 2 * total
    ensures Nearest(Share(rate, WeightOf(weight), total), rate * WeightOf(weight), total) ==>
              -(total as int) <= Error(rate, weight, total) <= total
  {
    var w := WeightOf(weight);
    ShareIsNearest(rate, w, total);
    var v, p := Share(rate, w, total), rate * w;
    hide Share;
    Arith.Distributes(2, total * v, -p);
    assert 2 * total * v == 2 * (total * v);
  }

  /** The shares of all targets sum to within one a target of the rate, and to within half of that when
      none was raised to one. */
  lemma SharesSum(rate: nat, weights: seq<nat>)
    requires rate < U32 && weights != [] && forall i | 0 <= i < |weights| :: weights[i] < U32
    ensures Total(weights) > 0
    ensures var total := Total(weights);
      var off := SharesOf(rate, weights, total) - rate;
      && -(|weights| as int) <= off <= |weights|
      && (NoneRaised(rate, weights, total) ==> -(|weights| as int) <= 2 * off <= |weights|)
  {
    WeightWithinTotal(weights, 0);
    var total, n, sum := Total(weights), |weights|, SharesOf(rate, weights, Total(weights));
    ErrorsIs(rate, weights, total);
    AllWithin(rate, weights);
    Bounds(total, sum, rate, n, Errors(rate, weights, total));
  }

  lemma Bounds(total: nat, sum: nat, rate: nat, n: nat, errors: int)
    requires total > 0 && errors == 2 * (total * sum - rate * total)
    requires -(2 * total * n) <= errors <= 2 * total * n
    ensures -(n as int) <= sum - rate <= n
    ensures -(total * n) <= errors <= total * n ==> -(n as int) <= 2 * (sum - rate) <= n
  {
    Arith.Distributes(total, sum, -(rate as int));
    assert total * -(rate as int) == -(rate * total);
    assert 2 * total * n == 2 * (total * n);
    Cancel(total, sum - rate, n);
    if -(total * n) <= errors <= total * n {
      Arith.Distributes(total, sum - rate, sum - rate);
      Cancel(total, 2 * (sum - rate), n);
    }
  }

  lemma AllWithin(rate: nat, weights: seq<nat>)
    requires rate < U32 && weights != [] && forall i | 0 <= i < |weights| :: weights[i] < U32
    requires Total(weights) > 0
    ensures var total := Total(weights);
      && -(2 * total * |weights|) <= Errors(rate, weights, total) <= 2 * total * |weights|
      && (NoneRaised(rate, weights, total) ==>
          -(total * |weights|) <= Errors(rate, weights, total) <= total * |weights|)
  {
    var total := Total(weights);
    forall i | 0 <= i < |weights|
      ensures -2 * total <= Error(rate, weights[i], total) <= 2 * total
      ensures NoneRaised(rate, weights, total) ==> -(total as int) <= Error(rate, weights[i], total) <= total
    {
      WeightWithinTotal(weights, i);
      ErrorWithin(rate, weights[i], total);
      hide Error;
    }
    ErrorsWithin(rate, weights, total, 2 * total);
    if NoneRaised(rate, weights, total) {
      ErrorsWithin(rate, weights, total, total);
    }
  }

  lemma Cancel(total: nat, d: int, n: nat)
    requires total > 0 && -(total * n) <= total * d <= total * n
    ensures -(n as int) <= d <= n
  {
    Arith.MulOrder(total, d, n);
    Arith.MulOrder(total, -(n as int), d);
    assert total * -(n as int) == -(total * n);
  }
}
