/** When a reported discount contribution can be negative: the rounding difference that the worst line absorbs. */
module RiskSigns {
  import opened Decimals
  import opened RiskModel
  import opened RiskScoring

  ghost predicate Violating(vs: seq<Overage>) { forall o :: o in vs ==> o.overage > 0.0 && o.weight >= 0.0 }

  lemma RoundedShareNonNegative(vs: seq<Overage>, excess: real, i: nat)
    requires i < |vs| && excess >= 0.0 && Violating(vs)
    ensures RoundedShare(vs, excess, i) >= 0.0
  {
    assert vs[i] in vs;
    NonNegativeProduct(vs[i].overage, vs[i].weight);
    if WeightedOverage(vs) > 0.0 {
      NonNegativeQuotient(vs[i].overage * vs[i].weight, WeightedOverage(vs));
    }
    NonNegativeProduct(excess, Share(vs, i));
    Round2Near(excess * Share(vs, i));
  }

  /** The first i rounded shares without line w. */
  function OthersSum(vs: seq<Overage>, excess: real, w: nat, i: nat): real
    requires i <= |vs| && w < |vs|
  {
    RoundedSum(vs, excess, i) - if w < i then RoundedShare(vs, excess, w) else 0.0
  }

  /** The same before rounding. */
  function OthersExact(vs: seq<Overage>, excess: real, w: nat, i: nat): real
    requires i <= |vs| && w < |vs|
  {
    Times(excess, ShareSum(vs, i)) - if w < i then Times(excess, Share(vs, w)) else 0.0
  }

  /** Rounding adds at most half a cent for each of those lines. */
  lemma {:induction false} OthersNear(vs: seq<Overage>, excess: real, w: nat, i: nat)
    requires i <= |vs| && w < |vs|
    ensures OthersSum(vs, excess, w, i) <= OthersExact(vs, excess, w, i) + 0.005 * (if w < i then i - 1 else i) as real
  {
    if i == 0 {
      ShareSumStep(vs, 0);
      assert Times(excess, 0.0) == 0.0;
    } else {
      OthersNear(vs, excess, w, i - 1);
      ShareSumStep(vs, i - 1);
      RoundedShareNear(vs, excess, i - 1);
      TimesAdd(excess, ShareSum(vs, i - 1), Share(vs, i - 1));
      hide RoundedShare, Share, ShareSum, Times;
    }
  }

  /** When the worst line's own share is at least half a cent for each other line, the others leave enough for it. */
  lemma OthersLeaveEnough(vs: seq<Overage>, excess: real, worst: nat)
    requires worst < |vs| && Times(excess, Share(vs, worst)) >= 0.005 * (|vs| - 1) as real
    ensures OthersRounded(vs, excess, worst) <= excess
  {
    OthersNear(vs, excess, worst, |vs|);
    ShareSumStep(vs, worst);
    assert Times(excess, 1.0) == excess;
    hide Share, RoundedShare, RoundedSum, ShareSum, Times;
  }

  /** Of factors apportioned as RiskScoring.ApportionExcess does, none is negative if and only if the rounded shares of the
      lines other than the worst do not exceed the excess. */
  lemma SignsExactly(vs: seq<Overage>, excess: real, worst: nat, factors: seq<Factor>)
    requires worst < |vs| == |factors| && excess >= 0.0 && Violating(vs)
    requires forall i :: 0 <= i < |vs| && i != worst ==> factors[i].contribution == RoundedShare(vs, excess, i)
    requires factors[worst].contribution == excess - OthersRounded(vs, excess, worst)
    ensures (forall i :: 0 <= i < |vs| ==> factors[i].contribution >= 0.0) <==> OthersRounded(vs, excess, worst) <= excess
  {
    forall i | 0 <= i < |vs| ensures RoundedShare(vs, excess, i) >= 0.0 {
      RoundedShareNonNegative(vs, excess, i);
    }
    hide RoundedShare, OthersRounded, Violating;
  }

  // --- a negative contribution ---

  /** One of fifty equal lines, each 0.04 over its ceiling. */
  function Slight(): Overage { Overage(RiskLine(1, 1.0, 1.0, 10.04, 0.0, false, 0, false), 10.04, 10.0, 0.04, 1.0, 0.02) }

  function Equal(n: nat): seq<Overage> { seq(n, _ => Slight()) }

  lemma {:induction false} EqualSums(n: nat)
    ensures WeightedOverage(Equal(n)) == 0.0008 * n as real && ViolatingCount(Equal(n)) == n
  {
    if n > 0 {
      EqualSums(n - 1);
      assert Equal(n)[1..] == Equal(n - 1);
    }
  }

  lemma {:induction false} EqualRounded(vs: seq<Overage>, excess: real, r: real, i: nat)
    requires i <= |vs| && forall k :: 0 <= k < |vs| ==> RoundedShare(vs, excess, k) == r
    ensures RoundedSum(vs, excess, i) == r * i as real
  {
    if i > 0 {
      EqualRounded(vs, excess, r, i - 1);
    }
  }

  lemma EqualMax(n: nat)
    requires n > 0
    ensures MaxOverage(Equal(n)) == 0.04
  {
    var vs := Equal(n);
    assert vs[0] == Slight();
    hide MaxOverage;
    var o :| o in vs && o.overage == MaxOverage(vs);
  }

  lemma FiftyExcess(n: nat)
    requires n == 50
    ensures DiscountExcess(Equal(n), DEFAULTS) == 10.28
  {
    var vs := Equal(n);
    EqualSums(n);
    EqualMax(n);
    assert |vs| == n;
    hide WeightedOverage, ViolatingCount, MaxOverage, Equal;
    assert ViolationRatio(vs) == 1.0;
    assert RawExcess(vs, DEFAULTS) == 10.28;
    assert Round2(10.28) == 10.28;
  }

  lemma FiftyShare(n: nat, k: nat)
    requires k < n == 50
    ensures RoundedShare(Equal(n), 10.28, k) == 0.21
  {
    EqualSums(n);
    var vs := Equal(n);
    assert vs[k] == Slight();
    hide WeightedOverage, Equal;
    assert WeightedOverage(vs) == 0.04;
    assert Share(vs, k) == 0.02;
    assert Round2(0.2056) == 0.21;
  }

  /** The excess of fifty such lines under the default settings is 10.28; 49 shares of 0.21 leave the worst line with -0.01. */
  lemma NegativeCorrection(n: nat)
    requires n == 50
    ensures DiscountExcess(Equal(n), DEFAULTS) == 10.28 && IsWorst(Equal(n), 0)
    ensures 10.28 - OthersRounded(Equal(n), 10.28, 0) == -0.01
  {
    var vs := Equal(n);
    assert |vs| == n && forall k :: 0 <= k < n ==> vs[k] == Slight();
    FiftyExcess(n);
    forall k | 0 <= k < n ensures RoundedShare(vs, 10.28, k) == 0.21 {
      FiftyShare(n, k);
    }
    hide RoundedShare, DiscountExcess, Equal;
    EqualRounded(vs, 10.28, 0.21, n);
    hide RoundedSum;
  }
}
