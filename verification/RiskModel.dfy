/** Deal risk: the quantities that enter the score and what they mean. */
module RiskModel {
  import opened Prelude
  import opened Sums
  import opened Decimals

  datatype RiskLine = RiskLine(
    lineId: int, qty: real, priceUnit: real, discountPct: real, costSubtotal: real,
    stockable: bool, availableQty: int, inventoryShortage: bool)

  /** The deal as scored; openCounter says that the customer has an open counter-discount. */
  datatype Context = Context(
    lines: seq<RiskLine>, orderDiscountPct: real, tierDefaultCeiling: real,
    ceilings: map<int, real>, openCounter: bool)

  datatype Params = Params(
    minimumMarginPct: real, managerThreshold: real, financeThreshold: real, singleLineFinancePts: real,
    wDiscountMax: real, wDiscountWeighted: real, wDiscountRatio: real, discountCap: real,
    wMargin: real, marginCap: real, invSplitPoints: real, invBackorderPoints: real, invCap: real)

  /** The values the evaluator uses when no policy overrides margin and thresholds. */
  const DEFAULTS: Params := Params(20.0, 20.0, 50.0, 10.0, 5.0, 2.0, 10.0, 60.0, 3.0, 25.0, 8.0, 20.0, 20.0)

  datatype Level = NoApproval | Manager | ManagerAndFinance

  datatype Severity = Low | Medium | High

  /** A line with its effective discount, ceiling, excess over it, list amount and share of the list total. */
  datatype Overage = Overage(line: RiskLine, effective: real, ceiling: real, overage: real, listAmt: real, weight: real)

  /** A product, as a named term that the proofs can compare without expanding it. */
  function Times(a: real, b: real): real { a * b }

  function ListAmt(): RiskLine -> real { (l: RiskLine) => l.qty * l.priceUnit }

  function TotalList(ctx: Context): real { SumReal(ctx.lines, ListAmt()) }

  /** A line discount and an order discount, both fractions, one after the other; in percent. */
  function Compound(dLine: real, dOrder: real): real { 100.0 * (1.0 - (1.0 - dLine) * (1.0 - dOrder)) }

  /** Line and order discount compounded, to four places. */
  function Effective(ctx: Context, l: RiskLine): real {
    Round4(if ctx.orderDiscountPct > 0.0 then Compound(l.discountPct / 100.0, ctx.orderDiscountPct / 100.0)
           else l.discountPct)
  }

  function Portion(amount: real, total: real): real { if total > 0.0 then amount / total else 0.0 }

  function Ceiling(ctx: Context, l: RiskLine): real {
    if l.lineId in ctx.ceilings then ctx.ceilings[l.lineId] else ctx.tierDefaultCeiling
  }

  function Assess(ctx: Context, l: RiskLine): Overage {
    var eff := Effective(ctx, l);
    Overage(l, eff, Ceiling(ctx, l), Round4(MaxReal(0.0, eff - Ceiling(ctx, l))), l.qty * l.priceUnit,
            Portion(l.qty * l.priceUnit, TotalList(ctx)))
  }

  function Overages(ctx: Context): seq<Overage> {
    seq(|ctx.lines|, i requires 0 <= i < |ctx.lines| => Assess(ctx, ctx.lines[i]))
  }

  /** The largest excess over a ceiling, or 0 for no lines. */
  function MaxOverage(os: seq<Overage>): (m: real)
    ensures forall o :: o in os ==> o.overage <= m
    ensures if os == [] then m == 0.0 else exists o :: o in os && o.overage == m
  {
    if os == [] then 0.0
    else if |os| == 1 then os[0].overage
    else MaxReal(os[0].overage, MaxOverage(os[1..]))
  }

  function WeightedOf(): Overage -> real { (o: Overage) => o.overage * o.weight }

  function WeightedOverage(os: seq<Overage>): real { SumReal(os, WeightedOf()) }

  function IsViolating(): Overage -> bool { (o: Overage) => o.overage > 0.0 }

  function ViolationOf(): Overage -> int { (o: Overage) => if o.overage > 0.0 then 1 else 0 }

  function ViolatingCount(os: seq<Overage>): int { SumInt(os, ViolationOf()) }

  function ViolationRatio(os: seq<Overage>): real {
    if os == [] then 0.0 else ViolatingCount(os) as real / |os| as real
  }

  function RawExcess(os: seq<Overage>, p: Params): real {
    Times(p.wDiscountMax, MaxOverage(os)) + Times(p.wDiscountWeighted, WeightedOverage(os))
    + Times(p.wDiscountRatio, ViolationRatio(os))
  }

  /** The DISCOUNT_EXCESS total: weighted, capped, rounded to cents. */
  function DiscountExcess(os: seq<Overage>, p: Params): real { Round2(MinReal(p.discountCap, RawExcess(os, p))) }

  /** Only a positive total gives discount factors. */
  function DiscountPoints(os: seq<Overage>, p: Params): real { MaxReal(0.0, DiscountExcess(os, p)) }

  function NetOf(): Overage -> real { (o: Overage) => o.listAmt * (1.0 - o.effective / 100.0) }

  function CostOfLine(): Overage -> real { (o: Overage) => o.line.costSubtotal }

  function TotalNet(os: seq<Overage>): real { SumReal(os, NetOf()) }

  function TotalCost(os: seq<Overage>): real { SumReal(os, CostOfLine()) }

  /** Margin as a percentage of net revenue; 0 when there is no net revenue. */
  function MarginOf(net: real, cost: real): real { if net > 0.0 then (net - cost) / net * 100.0 else 0.0 }

  function MarginPct(os: seq<Overage>): real { Round2(MarginOf(TotalNet(os), TotalCost(os))) }

  function GapPoints(gap: real, p: Params): real { MinReal(p.marginCap, Round2(Times(p.wMargin, gap))) }

  /** The MARGIN_EXPOSURE points for a given margin percentage. */
  function MarginPoints(marginPct: real, p: Params): real {
    if marginPct < p.minimumMarginPct then GapPoints(p.minimumMarginPct - marginPct, p) else 0.0
  }

  /** Whole units requested: int() truncates toward zero. */
  function WholeUnits(qty: real): int { if qty >= 0.0 then qty.Floor else -((-qty).Floor) }

  function LineInventoryPoints(l: RiskLine, p: Params): real {
    if !l.stockable then 0.0
    else if l.availableQty < WholeUnits(l.qty) then p.invBackorderPoints
    else if l.inventoryShortage then p.invSplitPoints
    else 0.0
  }

  /** The worst inventory points of any line, at least 0. */
  function WorstInventory(lines: seq<RiskLine>, p: Params): real {
    if lines == [] then 0.0
    else MaxReal(WorstInventory(lines[..|lines| - 1], p), LineInventoryPoints(lines[|lines| - 1], p))
  }

  /** The INVENTORY_RISK points: a factor only when positive. */
  function InventoryPoints(lines: seq<RiskLine>, p: Params): real {
    MaxReal(0.0, MinReal(p.invCap, WorstInventory(lines, p)))
  }

  function NegotiationPoints(openCounter: bool): real { if openCounter then 5.0 else 0.0 }

  /** The points each kind of factor contributes, added up. */
  function Points(ctx: Context, os: seq<Overage>, p: Params): real {
    DiscountPoints(os, p) + MarginPoints(MarginPct(os), p) + InventoryPoints(ctx.lines, p) + NegotiationPoints(ctx.openCounter)
  }

  /** The deal's risk score. */
  function Score(ctx: Context, p: Params): real { MinReal(100.0, Round2(Points(ctx, Overages(ctx), p))) }

  function SeverityOf(score: real, p: Params): Severity {
    if score < p.managerThreshold then Low else if score <= p.financeThreshold then Medium else High
  }

  function LevelOf(maxOverage: real, score: real, p: Params): Level {
    if maxOverage == 0.0 && score < p.managerThreshold then NoApproval
    else if score > p.financeThreshold || maxOverage >= p.singleLineFinancePts then ManagerAndFinance
    else Manager
  }

  function RequiredLevel(ctx: Context, p: Params): Level { LevelOf(MaxOverage(Overages(ctx)), Score(ctx, p), p) }

  function LevelPriority(l: Level): nat {
    match l case NoApproval => 0 case Manager => 1 case ManagerAndFinance => 2
  }

  function SeverityRank(s: Severity): nat { match s case Low => 0 case Medium => 1 case High => 2 }

  /** Quantities, prices and costs are not negative and discounts are percentages. */
  ghost predicate Sensible(ctx: Context) {
    && 0.0 <= ctx.orderDiscountPct <= 100.0
    && forall l :: l in ctx.lines ==>
         l.qty >= 0.0 && l.priceUnit >= 0.0 && l.costSubtotal >= 0.0 && 0.0 <= l.discountPct <= 100.0
  }

  /** Weights, points and caps are not negative. */
  ghost predicate NonNegativeParams(p: Params) {
    && p.wDiscountMax >= 0.0 && p.wDiscountWeighted >= 0.0 && p.wDiscountRatio >= 0.0 && p.discountCap >= 0.0
    && p.wMargin >= 0.0 && p.marginCap >= 0.0
  }

  // --- basic facts ---

  lemma OverageNonNegative(ctx: Context)
    ensures forall o :: o in Overages(ctx) ==> o.overage >= 0.0
  {
    forall o | o in Overages(ctx) ensures o.overage >= 0.0 {
      HalfUpNear(MaxReal(0.0, o.effective - o.ceiling) * 10000.0);
    }
  }

  /** Weights are not negative; and no line outweighs the list total. */
  lemma WeightNonNegative(ctx: Context)
    requires Sensible(ctx)
    ensures forall o :: o in Overages(ctx) ==> o.weight >= 0.0 && o.listAmt >= 0.0
  {
    forall o | o in Overages(ctx) ensures o.weight >= 0.0 && o.listAmt >= 0.0 {
      var i :| 0 <= i < |ctx.lines| && o == Assess(ctx, ctx.lines[i]);
      assert ctx.lines[i] in ctx.lines;
      NonNegativeProduct(o.line.qty, o.line.priceUnit);
      if TotalList(ctx) > 0.0 {
        NonNegativeQuotient(o.listAmt, TotalList(ctx));
      }
    }
  }

  lemma NonNegativeProduct(a: real, b: real)
    requires a >= 0.0 && b >= 0.0
    ensures a * b >= 0.0
  {
  }

  lemma NonNegativeQuotient(a: real, b: real)
    requires a >= 0.0 && b > 0.0
    ensures a / b >= 0.0
  {
  }

  lemma {:induction false} SumRealNonNegative<T>(s: seq<T>, f: T -> real)
    requires forall x :: x in s ==> f(x) >= 0.0
    ensures SumReal(s, f) >= 0.0
  {
    if s != [] {
      SumRealNonNegative(s[1..], f);
    }
  }

  lemma {:induction false} CountRange(os: seq<Overage>)
    ensures 0 <= ViolatingCount(os) <= |os|
    ensures ViolatingCount(os) == 0 <==> forall o :: o in os ==> o.overage <= 0.0
  {
    if os != [] {
      CountRange(os[1..]);
      assert os == [os[0]] + os[1..];
    }
  }

  /** Without a line over its ceiling there is no excess to apportion. */
  lemma NoViolationNoExcess(ctx: Context, p: Params)
    requires forall o :: o in Overages(ctx) ==> o.overage <= 0.0
    ensures DiscountExcess(Overages(ctx), p) <= 0.0
  {
    var os := Overages(ctx);
    OverageNonNegative(ctx);
    CountRange(os);
    NothingWeighted(os);
    assert MaxOverage(os) == 0.0 && WeightedOverage(os) == 0.0 && ViolationRatio(os) == 0.0;
    hide Overages;
    assert RawExcess(os, p) == 0.0;
    Round2Monotone(MinReal(p.discountCap, 0.0), 0.0);
    assert Round2(0.0) == 0.0;
  }

  lemma {:induction false} NothingWeighted(os: seq<Overage>)
    requires forall o :: o in os ==> o.overage == 0.0
    ensures WeightedOverage(os) == 0.0
  {
    if os != [] {
      NothingWeighted(os[1..]);
    }
  }

  lemma MarginPointsRange(m: real, p: Params)
    requires NonNegativeParams(p)
    ensures 0.0 <= MarginPoints(m, p) <= p.marginCap
  {
    hide Round2;
    if m < p.minimumMarginPct {
      NonNegativeProduct(p.wMargin, p.minimumMarginPct - m);
      Round2Near(Times(p.wMargin, p.minimumMarginPct - m));
    }
  }

  /** The score lies between 0 and 100. */
  lemma ScoreRange(ctx: Context, p: Params)
    requires NonNegativeParams(p)
    ensures 0.0 <= Score(ctx, p) <= 100.0
  {
    MarginPointsRange(MarginPct(Overages(ctx)), p);
    Round2Near(Points(ctx, Overages(ctx), p));
  }
}
