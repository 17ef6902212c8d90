/** When exactly a raised discount can lower the score: the margin factor at zero net revenue. */
module RiskFloor {
  import opened Prelude
  import opened Sums
  import opened Decimals
  import opened RiskModel
  import opened RiskMonotone

  /** No deal ever scores lower after a discount is raised. */
  ghost predicate ScoreNeverDrops(p: Params) {
    forall a, b :: Sensible(a) && Sensible(b) && Raised(a, b) ==> Score(a, p) <= Score(b, p)
  }

  /** One unit at price 100 sold at the given discount, with the given cost and a ceiling of 100. */
  function OneLineDeal(discount: real, cost: real): Context {
    Context([RiskLine(1, 1.0, 100.0, discount, cost, false, 0, false)], 0.0, 100.0, map[], false)
  }

  /** With a single assessed line every aggregate is that line's. */
  lemma SingleLine(os: seq<Overage>)
    requires |os| == 1
    ensures MaxOverage(os) == os[0].overage && WeightedOverage(os) == os[0].overage * os[0].weight
    ensures ViolatingCount(os) == if os[0].overage > 0.0 then 1 else 0
    ensures TotalNet(os) == os[0].listAmt * (1.0 - os[0].effective / 100.0)
    ensures TotalCost(os) == os[0].line.costSubtotal
  {
    assert os[1..] == [];
    assert SumReal(os, WeightedOf()) == WeightedOf()(os[0]) + SumReal(os[1..], WeightedOf());
    assert SumInt(os, ViolationOf()) == ViolationOf()(os[0]) + SumInt(os[1..], ViolationOf());
    assert SumReal(os, NetOf()) == NetOf()(os[0]) + SumReal(os[1..], NetOf());
    assert SumReal(os, CostOfLine()) == CostOfLine()(os[0]) + SumReal(os[1..], CostOfLine());
  }

  lemma OneLineAssessed(discount: int, cost: real)
    requires 0 <= discount <= 100
    ensures var os := Overages(OneLineDeal(discount as real, cost));
            && |os| == 1 && os[0].effective == discount as real && os[0].overage == 0.0
            && os[0].listAmt == 100.0 && os[0].line.costSubtotal == cost
  {
    Round4Whole(discount);
    Round4Whole(0);
  }

  /** Under a ceiling of 100 such a deal has no overage: its score is its margin points. */
  lemma OneLineScore(discount: int, cost: real, p: Params)
    requires 0 <= discount <= 100 && NonNegativeParams(p)
    ensures var net := 100.0 - discount as real;
            Score(OneLineDeal(discount as real, cost), p)
            == MinReal(100.0, Round2(MarginPoints(Round2(MarginOf(net, cost)), p)))
  {
    var ctx := OneLineDeal(discount as real, cost);
    var os := Overages(ctx);
    OneLineAssessed(discount, cost);
    hide Overages;
    SingleLine(os);
    NoOverageNoPoints(os, p);
    hide Round2, MarginPoints;
    assert WorstInventory(ctx.lines, p) == 0.0 by {
      assert ctx.lines[..0] == [];
    }
  }

  lemma Round4Whole(n: int)
    ensures Round4(n as real) == n as real
  {
    HalfUpWhole(n * 10000);
  }

  lemma NoOverageNoPoints(os: seq<Overage>, p: Params)
    requires MaxOverage(os) == 0.0 && WeightedOverage(os) == 0.0 && ViolationRatio(os) == 0.0
    ensures DiscountPoints(os, p) == 0.0
  {
    assert RawExcess(os, p) == 0.0;
    Round2Monotone(MinReal(p.discountCap, 0.0), 0.0);
    assert Round2(0.0) == 0.0;
  }

  /** A cost, in whole units, at which a single unit of net revenue exhausts the margin cap. */
  lemma RuinousCost(p: Params) returns (k: nat)
    requires NonNegativeParams(p) && p.wMargin > 0.0 && IsHundredths(p.marginCap)
    ensures MarginPoints(Round2(MarginOf(1.0, k as real)), p) == p.marginCap
  {
    var q := ExactQuotient(p.marginCap, p.wMargin);
    k := WholeAbove(q - p.minimumMarginPct + 101.0);
    RuinousMargin(k);
    hide MarginOf, Round2, GapPoints;
    GapExhausts(p.minimumMarginPct - (100.0 - 100.0 * k as real), q, p);
  }

  lemma RuinousMargin(k: nat)
    ensures Round2(MarginOf(1.0, k as real)) == 100.0 - 100.0 * k as real
  {
    var m := 100.0 - 100.0 * k as real;
    assert MarginOf(1.0, k as real) == m;
    assert m * 100.0 == (10000 - 10000 * k) as real;
    Round2Whole(m);
  }

  lemma ExactQuotient(a: real, b: real) returns (q: real)
    requires a >= 0.0 && b > 0.0
    ensures q >= 0.0 && q * b == a
  {
    q := a / b;
  }

  lemma WholeAbove(t: real) returns (k: nat)
    ensures 100.0 * k as real >= t
  {
    k := if t < 0.0 then 0 else t.Floor + 1;
  }

  lemma GapExhausts(gap: real, q: real, p: Params)
    requires NonNegativeParams(p) && IsHundredths(p.marginCap)
    requires 0.0 <= q <= gap && q * p.wMargin == p.marginCap
    ensures GapPoints(gap, p) == p.marginCap
  {
    ScaleMonotone(p.wMargin, q, gap);
    assert Times(p.wMargin, q) == p.marginCap;
    hide Round2, Times;
    Round2Monotone(p.marginCap, Times(p.wMargin, gap));
    Round2Whole(p.marginCap);
  }

  /** Margin points below the cap are whole cents. */
  lemma PointsAreCents(m: real, p: Params)
    requires MarginPoints(m, p) < p.marginCap
    ensures Round2(MarginPoints(m, p)) == MarginPoints(m, p)
  {
    if m < p.minimumMarginPct {
      Round2Near(Times(p.wMargin, p.minimumMarginPct - m));
      hide Round2;
      Round2Whole(MarginPoints(m, p));
    } else {
      assert Round2(0.0) == 0.0;
    }
  }

  /** Without saturation, giving away the last of the net revenue lowers the score of some deal. */
  lemma UnsaturatedDrops(p: Params) returns (a: Context, b: Context)
    requires NonNegativeParams(p) && IsHundredths(p.marginCap) && p.marginCap <= 100.0
    requires !FloorSaturates(p)
    ensures Sensible(a) && Sensible(b) && Raised(a, b) && Score(b, p) < Score(a, p)
  {
    var k := RuinousCost(p);
    a, b := OneLineDeal(99.0, k as real), OneLineDeal(100.0, k as real);
    OneLineScore(99, k as real, p);
    OneLineScore(100, k as real, p);
    Round2Whole(p.marginCap);
    assert MarginOf(0.0, k as real) == 0.0;
    assert Round2(0.0) == 0.0;
    PointsAreCents(0.0, p);
  }

  /** The score never drops if and only if the margin floor saturates. */
  lemma ScoreNeverDropsExactly(p: Params)
    requires NonNegativeParams(p) && IsHundredths(p.marginCap) && p.marginCap <= 100.0
    ensures ScoreNeverDrops(p) <==> FloorSaturates(p)
  {
    if FloorSaturates(p) {
      forall a, b | Sensible(a) && Sensible(b) && Raised(a, b) ensures Score(a, p) <= Score(b, p) {
        ScoreMonotone(a, b, p);
      }
    } else {
      var a, b := UnsaturatedDrops(p);
    }
  }

  /** With the evaluator's weights, only a policy's margin floor decides: it must be at least 24.995 / 3.
      The default floor of 20 meets that; a policy floor of 5 does not. */
  lemma DefaultFloors(floor: real)
    ensures FloorSaturates(DEFAULTS.(minimumMarginPct := floor)) <==> 3.0 * floor >= 24.995
  {
    var p := DEFAULTS.(minimumMarginPct := floor);
    assert Times(p.wMargin, p.minimumMarginPct - 0.0) == 3.0 * floor;
    if 3.0 * floor >= 24.995 {
      HalfUpMonotone(2499.5, 3.0 * floor * 100.0);
      assert Round2(3.0 * floor) >= 25.0;
    } else if floor > 0.0 {
      assert 3.0 * floor * 100.0 + 0.5 < 2500.0;
      assert HalfUp(3.0 * floor * 100.0) <= 2499;
    }
  }
}
