/** Computing the risk score: overages, apportionment of the excess over lines, and the total. */
module RiskScoring {
  import opened Prelude
  import opened Sums
  import opened Decimals
  import opened RiskModel

  datatype FactorKind = DiscountExcessFactor | MarginExposure | InventoryRisk | NegotiationPressure

  /** One explained contribution to the score; lineId only for discount factors. */
  datatype Factor = Factor(kind: FactorKind, lineId: Option<int>, rawValue: real, weight: real, contribution: real)

  datatype RiskResult = RiskResult(
    score: real, severity: Severity, level: Level, factors: seq<Factor>,
    maxOverage: real, weightedOverage: real, violationRatio: real, marginPct: real)

  function ContributionOf(): Factor -> real { (f: Factor) => f.contribution }

  function Total(factors: seq<Factor>): real { SumReal(factors, ContributionOf()) }

  // --- apportionment ---

  /** The share of the excess that falls to violating line i before rounding. */
  function Share(vs: seq<Overage>, i: nat): real
    requires i < |vs|
  {
    if WeightedOverage(vs) > 0.0 then vs[i].overage * vs[i].weight / WeightedOverage(vs) else 1.0 / |vs| as real
  }

  /** The shares of the first i lines together. */
  function ShareSum(vs: seq<Overage>, i: nat): real
    requires i <= |vs| && vs != []
  {
    if WeightedOverage(vs) > 0.0 then WeightedOverage(vs[..i]) / WeightedOverage(vs) else i as real / |vs| as real
  }

  function RoundedShare(vs: seq<Overage>, excess: real, i: nat): real
    requires i < |vs|
  {
    Round2(excess * Share(vs, i))
  }

  /** The rounded shares of the first i lines together. */
  function RoundedSum(vs: seq<Overage>, excess: real, i: nat): real
    requires i <= |vs|
  {
    if i == 0 then 0.0 else RoundedSum(vs, excess, i - 1) + RoundedShare(vs, excess, i - 1)
  }

  /** The rounded shares of all lines but w. */
  function OthersRounded(vs: seq<Overage>, excess: real, w: nat): real
    requires w < |vs|
  {
    RoundedSum(vs, excess, |vs|) - RoundedShare(vs, excess, w)
  }

  /** The first line with the highest overage, which absorbs the rounding difference. */
  ghost predicate IsWorst(vs: seq<Overage>, w: nat) {
    && w < |vs|
    && (forall i :: 0 <= i < |vs| ==> vs[i].overage <= vs[w].overage)
    && (forall i :: 0 <= i < w ==> vs[i].overage < vs[w].overage)
  }

  /** At most half a cent for each of n lines. */
  ghost predicate Within(difference: real, n: nat) { -0.005 * n as real <= difference <= 0.005 * n as real }

  lemma ShareSumStep(vs: seq<Overage>, i: nat)
    requires i < |vs|
    ensures ShareSum(vs, 0) == 0.0 && ShareSum(vs, |vs|) == 1.0
    ensures ShareSum(vs, i + 1) == ShareSum(vs, i) + Share(vs, i)
  {
    assert vs[..|vs|] == vs && vs[..i + 1] == vs[..i] + [vs[i]];
    SumRealAppend(vs[..i], vs[i], WeightedOf());
    var (a, b, s) := (WeightedOverage(vs[..i]), vs[i].overage * vs[i].weight, WeightedOverage(vs));
    if s > 0.0 {
      QuotientAdd(a, b, s);
    } else {
      QuotientAdd(i as real, 1.0, |vs| as real);
    }
  }

  lemma QuotientAdd(a: real, b: real, s: real)
    requires s > 0.0
    ensures (a + b) / s == a / s + b / s && s / s == 1.0
  {
  }

  /** The factor of violating line i before the rounding difference is settled. */
  function RoundedFactor(vs: seq<Overage>, excess: real, p: Params, i: nat): Factor
    requires i < |vs|
  {
    Factor(DiscountExcessFactor, Some(vs[i].line.lineId), vs[i].overage, p.wDiscountMax, RoundedShare(vs, excess, i))
  }

  /** Gives every violating line its rounded share, and finds the line that is to absorb the difference. */
  method RoundedFactors(vs: seq<Overage>, excess: real, p: Params)
    returns (factors: seq<Factor>, accum: real, worst: nat)
    requires vs != [] && forall o :: o in vs ==> o.overage > 0.0
    ensures |factors| == |vs| && forall i :: 0 <= i < |vs| ==> factors[i] == RoundedFactor(vs, excess, p, i)
    ensures accum == Total(factors) == RoundedSum(vs, excess, |vs|) && IsWorst(vs, worst)
  {
    hide SumReal, RoundedShare, Total;
    factors, accum := [], 0.0;
    var highest;
    highest, worst := -1.0, 0;
    NoFactors();
    for i := 0 to |vs|
      invariant |factors| == i && forall k :: 0 <= k < i ==> factors[k] == RoundedFactor(vs, excess, p, k)
      invariant accum == Total(factors) == RoundedSum(vs, excess, i)
      invariant i == 0 ==> highest == -1.0
      invariant i > 0 ==> worst < i && highest == vs[worst].overage
      invariant forall k :: 0 <= k < i ==> vs[k].overage <= highest
      invariant forall k :: 0 <= k < i && k < worst ==> vs[k].overage < highest
    {
      var contribution := RoundedShare(vs, excess, i);
      assert vs[i] in vs;
      accum := accum + contribution;
      if vs[i].overage > highest {
        highest, worst := vs[i].overage, i;
      }
      var f := Factor(DiscountExcessFactor, Some(vs[i].line.lineId), vs[i].overage, p.wDiscountMax, contribution);
      factors := Add(factors, f);
    }
  }

  /** Splits a positive excess over the violating lines to the cent. */
  method ApportionExcess(vs: seq<Overage>, excess: real, p: Params) returns (factors: seq<Factor>, ghost worst: nat)
    requires vs != [] && forall o :: o in vs ==> o.overage > 0.0
    ensures |factors| == |vs| && IsWorst(vs, worst)
    ensures Total(factors) == excess
    ensures forall i :: 0 <= i < |vs| ==>
              && factors[i].kind == DiscountExcessFactor && factors[i].lineId == Some(vs[i].line.lineId)
              && factors[i].rawValue == vs[i].overage && factors[i].weight == p.wDiscountMax
    ensures forall i :: 0 <= i < |vs| && i != worst ==> factors[i].contribution == RoundedShare(vs, excess, i)
    // the worst line carries what the others leave, a correction of at most half a cent per violating line
    ensures factors[worst].contribution == excess - OthersRounded(vs, excess, worst)
    ensures Within(factors[worst].contribution - RoundedShare(vs, excess, worst), |vs|)
  {
    RoundedSumNear(vs, excess, |vs|);
    ShareSumStep(vs, 0);
    assert Times(excess, 1.0) == excess;
    hide RoundedShare, RoundedSum, ShareSum, Total, Times;
    var accum, maxEntry;
    factors, accum, maxEntry := RoundedFactors(vs, excess, p);
    worst := maxEntry;
    var diff := excess - accum;
    Patch(factors, maxEntry, diff);
    factors := factors[maxEntry := factors[maxEntry].(contribution := factors[maxEntry].contribution + diff)];
  }

  lemma TimesAdd(a: real, b: real, c: real)
    ensures Times(a, b + c) == Times(a, b) + Times(a, c)
  {
  }

  lemma RoundedShareNear(vs: seq<Overage>, excess: real, i: nat)
    requires i < |vs|
    ensures -0.005 <= RoundedShare(vs, excess, i) - Times(excess, Share(vs, i)) <= 0.005
  {
    Round2Near(excess * Share(vs, i));
    hide Round2, Share;
  }

  /** Each rounded share adds at most half a cent to the difference from the exact shares. */
  lemma {:induction false} RoundedSumNear(vs: seq<Overage>, excess: real, i: nat)
    requires i <= |vs| && vs != []
    ensures Within(RoundedSum(vs, excess, i) - Times(excess, ShareSum(vs, i)), i)
  {
    if i == 0 {
      ShareSumStep(vs, 0);
      assert Times(excess, 0.0) == 0.0;
    } else {
      RoundedSumNear(vs, excess, i - 1);
      ShareSumStep(vs, i - 1);
      RoundedShareNear(vs, excess, i - 1);
      TimesAdd(excess, ShareSum(vs, i - 1), Share(vs, i - 1));
      hide RoundedShare, Share, ShareSum, Times;
    }
  }

  lemma NoFactors()
    ensures Total([]) == 0.0
  {
  }

  /** Changing one contribution by diff changes the total by diff. */
  lemma Patch(factors: seq<Factor>, w: nat, diff: real)
    requires w < |factors|
    ensures Total(factors[w := factors[w].(contribution := factors[w].contribution + diff)]) == Total(factors) + diff
  {
    var patched := factors[w := factors[w].(contribution := factors[w].contribution + diff)];
    SumRealWithout(factors, w, ContributionOf());
    SumRealWithout(patched, w, ContributionOf());
    assert patched[..w] + patched[w + 1..] == factors[..w] + factors[w + 1..];
  }

  // --- the calculation ---

  method LineOverages(ctx: Context) returns (os: seq<Overage>)
    ensures os == Overages(ctx)
  {
    hide Compound, Portion, Round4, TotalList;
    var totalList := TotalList(ctx);
    os := [];
    for i := 0 to |ctx.lines|
      invariant |os| == i && forall k :: 0 <= k < i ==> os[k] == Assess(ctx, ctx.lines[k])
    {
      var l := ctx.lines[i];
      var ceiling := if l.lineId in ctx.ceilings then ctx.ceilings[l.lineId] else ctx.tierDefaultCeiling;
      var eff := l.discountPct;
      if ctx.orderDiscountPct > 0.0 {
        eff := Compound(l.discountPct / 100.0, ctx.orderDiscountPct / 100.0);
      }
      eff := Round4(eff);
      var overage := Round4(MaxReal(0.0, eff - ceiling));
      var listAmt := l.qty * l.priceUnit;
      var weight := Portion(listAmt, totalList);
      assert eff == Effective(ctx, l) && ceiling == Ceiling(ctx, l);
      os := os + [Overage(l, eff, ceiling, overage, listAmt, weight)];
      assert os[i] == Assess(ctx, l);
    }
  }

  /** Scans the lines for shortages. */
  method ScanInventory(lines: seq<RiskLine>, p: Params) returns (points: real)
    ensures points == MinReal(p.invCap, WorstInventory(lines, p))
  {
    points := 0.0;
    for i := 0 to |lines|
      invariant 0.0 <= points == WorstInventory(lines[..i], p)
    {
      var l := lines[i];
      assert lines[..i + 1][..i] == lines[..i] && lines[..i + 1][i] == l;
      if l.stockable {
        if l.availableQty < WholeUnits(l.qty) {
          points := MaxReal(points, p.invBackorderPoints);
        } else if l.inventoryShortage {
          points := MaxReal(points, p.invSplitPoints);
        }
      }
    }
    assert lines[..|lines|] == lines;
    points := MinReal(p.invCap, points);
  }

  /** Discount factors explain exactly the discount points, each for a violating line. */
  method DiscountFactors(ctx: Context, os: seq<Overage>, p: Params) returns (factors: seq<Factor>)
    requires os == Overages(ctx)
    ensures Total(factors) == DiscountPoints(os, p)
    ensures forall f :: f in factors ==> f.kind == DiscountExcessFactor
    ensures ExplainDiscounts(factors, os, p)
  {
    NoFactors();
    factors := [];
    var excess := DiscountExcess(os, p);
    if excess > 0.0 {
      var violating := Filter(os, IsViolating());
      if violating == [] {
        assert forall o :: o in os ==> o.overage <= 0.0;
        NoViolationNoExcess(ctx, p);
      }
      ghost var worst;
      factors, worst := ApportionExcess(violating, excess, p);
    }
  }

  lemma InventoryIsCents(lines: seq<RiskLine>, p: Params)
    requires IsHundredths(p.invSplitPoints) && IsHundredths(p.invBackorderPoints)
    ensures IsHundredths(WorstInventory(lines, p))
  {
    assert IsHundredths(0.0);
    if lines != [] {
      InventoryIsCents(lines[..|lines| - 1], p);
    }
  }

  /** When caps and inventory points are whole cents, as all callers' are, the final rounding changes nothing:
      the score is the sum of the points, capped at 100. */
  lemma ScoreIsExactSum(ctx: Context, p: Params)
    requires IsHundredths(p.marginCap) && IsHundredths(p.invSplitPoints) && IsHundredths(p.invBackorderPoints)
    requires IsHundredths(p.invCap)
    ensures Score(ctx, p) == MinReal(100.0, Points(ctx, Overages(ctx), p))
  {
    var os := Overages(ctx);
    var m := MarginPct(os);
    assert IsHundredths(0.0) && IsHundredths(5.0);
    Round2Near(MinReal(p.discountCap, RawExcess(os, p)));
    Round2Near(Times(p.wMargin, p.minimumMarginPct - m));
    InventoryIsCents(ctx.lines, p);
    hide IsHundredths, Round2, WorstInventory, MarginPct, RawExcess, Overages;
    HundredthsAdd(DiscountPoints(os, p), MarginPoints(m, p));
    HundredthsAdd(DiscountPoints(os, p) + MarginPoints(m, p), InventoryPoints(ctx.lines, p));
    HundredthsAdd(DiscountPoints(os, p) + MarginPoints(m, p) + InventoryPoints(ctx.lines, p),
                  NegotiationPoints(ctx.openCounter));
    Round2Whole(Points(ctx, os, p));
  }

  /** The factors besides the discounts': one for a margin below the floor, one for stock, one for an open counter-offer. */
  function OtherFactors(ctx: Context, marginPct: real, p: Params): seq<Factor> {
    (if marginPct < p.minimumMarginPct
     then [Factor(MarginExposure, None, p.minimumMarginPct - marginPct, p.wMargin, GapPoints(p.minimumMarginPct - marginPct, p))]
     else [])
    + (if InventoryPoints(ctx.lines, p) > 0.0
       then [Factor(InventoryRisk, None, InventoryPoints(ctx.lines, p), 1.0, InventoryPoints(ctx.lines, p))] else [])
    + (if ctx.openCounter then [Factor(NegotiationPressure, None, 1.0, 5.0, 5.0)] else [])
  }

  /** A discount factor for each violating line, in order, when there is an excess to explain. */
  ghost predicate ExplainDiscounts(factors: seq<Factor>, os: seq<Overage>, p: Params) {
    var vs := Filter(os, IsViolating());
    if DiscountExcess(os, p) > 0.0 then
      && |factors| == |vs|
      && forall i :: 0 <= i < |vs| ==>
           && factors[i].kind == DiscountExcessFactor && factors[i].lineId == Some(vs[i].line.lineId)
           && factors[i].rawValue == vs[i].overage && factors[i].weight == p.wDiscountMax
    else factors == []
  }

  /** Appends the factors for margin, stock and open counter-offers. */
  method AddOthers(factors0: seq<Factor>, ctx: Context, marginPct: real, p: Params) returns (factors: seq<Factor>)
    ensures factors == factors0 + OtherFactors(ctx, marginPct, p)
    ensures Total(factors)
            == Total(factors0) + MarginPoints(marginPct, p) + InventoryPoints(ctx.lines, p) + NegotiationPoints(ctx.openCounter)
  {
    hide Total, WorstInventory, GapPoints;
    factors := factors0;
    if marginPct < p.minimumMarginPct {
      var gap := p.minimumMarginPct - marginPct;
      factors := Add(factors, Factor(MarginExposure, None, gap, p.wMargin, GapPoints(gap, p)));
    }
    var invPoints := ScanInventory(ctx.lines, p);
    if invPoints > 0.0 {
      factors := Add(factors, Factor(InventoryRisk, None, invPoints, 1.0, invPoints));
    }
    if ctx.openCounter {
      factors := Add(factors, Factor(NegotiationPressure, None, 1.0, 5.0, 5.0));
    }
  }

  method AllFactors(ctx: Context, os: seq<Overage>, p: Params) returns (factors: seq<Factor>)
    requires os == Overages(ctx)
    ensures Total(factors) == Points(ctx, os, p)
    ensures exists n: nat :: n <= |factors| && ExplainDiscounts(factors[..n], os, p)
                             && factors[n..] == OtherFactors(ctx, MarginPct(os), p)
  {
    var discounts := DiscountFactors(ctx, os, p);
    hide ExplainDiscounts, OtherFactors, Overages, Total, DiscountPoints, MarginPct, MarginPoints, InventoryPoints;
    factors := AddOthers(discounts, ctx, MarginPct(os), p);
    assert factors[..|discounts|] == discounts && factors[|discounts|..] == OtherFactors(ctx, MarginPct(os), p);
  }

  method CalculateDealRisk(ctx: Context, p: Params) returns (r: RiskResult)
    ensures r.score == Score(ctx, p)
    ensures r.level == RequiredLevel(ctx, p) && r.severity == SeverityOf(r.score, p)
    // the approval that is needed and the severity, by the thresholds
    ensures r.level.NoApproval? <==> r.maxOverage == 0.0 && r.score < p.managerThreshold
    ensures !r.level.NoApproval? ==>
              (r.level.ManagerAndFinance? <==> r.score > p.financeThreshold || r.maxOverage >= p.singleLineFinancePts)
    ensures r.severity.Low? <==> r.score < p.managerThreshold
    ensures r.severity.High? <==> r.score >= p.managerThreshold && r.score > p.financeThreshold
    // the factors explain the score: they add up to it before the final rounding and cap
    ensures Total(r.factors) == Points(ctx, Overages(ctx), p)
    ensures r.score == MinReal(100.0, Round2(Total(r.factors)))
    ensures exists n: nat :: n <= |r.factors| && ExplainDiscounts(r.factors[..n], Overages(ctx), p)
                             && r.factors[n..] == OtherFactors(ctx, r.marginPct, p)
    ensures r.maxOverage == MaxOverage(Overages(ctx)) && r.marginPct == MarginPct(Overages(ctx))
    ensures r.weightedOverage == WeightedOverage(Overages(ctx)) && r.violationRatio == ViolationRatio(Overages(ctx))
  {
    var os := LineOverages(ctx);
    var factors := AllFactors(ctx, os, p);
    hide Overages, DiscountPoints, MarginPct, MarginPoints, InventoryPoints, Round2, MaxOverage, Total, ExplainDiscounts, OtherFactors;
    var score := MinReal(100.0, Round2(Total(factors)));
    var maxOverage := MaxOverage(os);
    var severity := if score < p.managerThreshold then Low else if score <= p.financeThreshold then Medium else High;
    var level := Manager;
    if maxOverage == 0.0 && score < p.managerThreshold {
      level := NoApproval;
    } else if score > p.financeThreshold || maxOverage >= p.singleLineFinancePts {
      level := ManagerAndFinance;
    }
    r := RiskResult(score, severity, level, factors, maxOverage, WeightedOverage(os), ViolationRatio(os), MarginPct(os));
  }

  method Add(factors: seq<Factor>, f: Factor) returns (r: seq<Factor>)
    ensures r == factors + [f] && Total(r) == Total(factors) + f.contribution
  {
    SumRealAppend(factors, f, ContributionOf());
    r := factors + [f];
  }
}
