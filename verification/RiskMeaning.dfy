/** What the score is made of, stated on the deal and the settings alone. */
module RiskMeaning {
  import opened Prelude
  import opened Sums
  import opened Decimals
  import opened RiskModel
  import opened RiskScoring

  /** Within half a unit of the fourth, or of the second, decimal place. */
  predicate Near4(x: real, y: real) { -0.00005 <= x - y <= 0.00005 }

  predicate Near2(x: real, y: real) { -0.005 <= x - y <= 0.005 }

  lemma Round4Near(x: real)
    ensures Near4(Round4(x), x) && (x == 0.0 ==> Round4(x) == 0.0)
  {
    HalfUpNear(x * 10000.0);
  }

  // --- one line ---

  /** The list total of the lines. */
  function ListTotal(lines: seq<RiskLine>): real {
    if lines == [] then 0.0 else lines[0].qty * lines[0].priceUnit + ListTotal(lines[1..])
  }

  lemma {:induction false} ListTotalIsSum(lines: seq<RiskLine>)
    ensures SumReal(lines, ListAmt()) == ListTotal(lines)
  {
    if lines != [] {
      ListTotalIsSum(lines[1..]);
    }
  }

  /** o assesses line l: its ceiling, its discount after the order's, its excess, and its part of the list total. */
  ghost predicate Assesses(o: Overage, l: RiskLine, ctx: Context) {
    && o.line == l && o.listAmt == l.qty * l.priceUnit
    && o.ceiling == (if l.lineId in ctx.ceilings then ctx.ceilings[l.lineId] else ctx.tierDefaultCeiling)
    && (ctx.orderDiscountPct <= 0.0 ==> Near4(o.effective, l.discountPct))
    && (ctx.orderDiscountPct > 0.0 ==>
          Near4(100.0 - o.effective, (100.0 - l.discountPct) * (100.0 - ctx.orderDiscountPct) / 100.0))
    && (o.effective <= o.ceiling ==> o.overage == 0.0)
    && (o.effective > o.ceiling ==> Near4(o.overage, o.effective - o.ceiling))
    && (ListTotal(ctx.lines) > 0.0 ==> o.weight * ListTotal(ctx.lines) == o.listAmt)
    && (ListTotal(ctx.lines) <= 0.0 ==> o.weight == 0.0)
  }

  lemma Compounded(d: real, o: real)
    ensures 100.0 - Compound(d / 100.0, o / 100.0) == (100.0 - d) * (100.0 - o) / 100.0
  {
    var (x, y) := (1.0 - d / 100.0, 1.0 - o / 100.0);
    assert 100.0 - d == 100.0 * x && 100.0 - o == 100.0 * y;
    assert (100.0 * x) * (100.0 * y) == 10000.0 * (x * y);
  }

  lemma PortionTimes(amount: real, total: real)
    requires total > 0.0
    ensures Portion(amount, total) * total == amount
  {
  }

  lemma LineMeaning(ctx: Context, i: nat)
    requires i < |ctx.lines|
    ensures |Overages(ctx)| == |ctx.lines| && Assesses(Overages(ctx)[i], ctx.lines[i], ctx)
  {
    var l := ctx.lines[i];
    var o := Overages(ctx)[i];
    assert o == Assess(ctx, l);
    ListTotalIsSum(ctx.lines);
    Compounded(l.discountPct, ctx.orderDiscountPct);
    Round4Near(if ctx.orderDiscountPct > 0.0 then Compound(l.discountPct / 100.0, ctx.orderDiscountPct / 100.0)
               else l.discountPct);
    if TotalList(ctx) > 0.0 {
      PortionTimes(o.listAmt, TotalList(ctx));
    }
    hide Compound, Round4, Portion, ListTotal;
    var eff := Effective(ctx, l);
    hide Effective;
    Round4Near(if eff - o.ceiling > 0.0 then eff - o.ceiling else 0.0);
  }

  // --- the excess ---

  function WeightedTotal(os: seq<Overage>): real {
    if os == [] then 0.0 else os[0].overage * os[0].weight + WeightedTotal(os[1..])
  }

  function OverCount(os: seq<Overage>): nat {
    if os == [] then 0 else (if os[0].overage > 0.0 then 1 else 0) + OverCount(os[1..])
  }

  lemma {:induction false} WeightedTotalIsSum(os: seq<Overage>)
    ensures WeightedOverage(os) == WeightedTotal(os) && ViolatingCount(os) == OverCount(os)
  {
    if os != [] {
      WeightedTotalIsSum(os[1..]);
    }
  }

  /** max is the largest overage, 0 without lines. */
  ghost predicate IsLargest(max: real, os: seq<Overage>) {
    && (forall o :: o in os ==> o.overage <= max)
    && if os == [] then max == 0.0 else exists o :: o in os && o.overage == max
  }

  /** raw puts its weights on the largest overage, the weighted sum and the share of lines over their ceiling. */
  ghost predicate IsRaw(raw: real, max: real, ratio: real, os: seq<Overage>, p: Params) {
    && IsLargest(max, os) && (os == [] ==> ratio == 0.0) && Times(ratio, |os| as real) == OverCount(os) as real
    && raw == Times(p.wDiscountMax, max) + Times(p.wDiscountWeighted, WeightedTotal(os)) + Times(p.wDiscountRatio, ratio)
  }

  /** points are raw, capped, to cents and never negative. */
  ghost predicate IsCapped(points: real, raw: real, p: Params) {
    var capped := if raw < p.discountCap then raw else p.discountCap;
    points >= 0.0 && (points > 0.0 ==> Near2(points, capped)) && (points == 0.0 ==> capped <= 0.005)
  }

  ghost predicate IsDiscount(points: real, os: seq<Overage>, p: Params) {
    exists max, ratio, raw :: IsRaw(raw, max, ratio, os, p) && IsCapped(points, raw, p)
  }

  lemma CappedMeaning(os: seq<Overage>, p: Params)
    ensures IsCapped(DiscountPoints(os, p), RawExcess(os, p), p)
  {
    var raw := RawExcess(os, p);
    Round2Near(if raw < p.discountCap then raw else p.discountCap);
    hide RawExcess, Round2;
  }

  lemma RatioMeaning(os: seq<Overage>)
    ensures os == [] ==> ViolationRatio(os) == 0.0
    ensures Times(ViolationRatio(os), |os| as real) == ViolatingCount(os) as real
  {
    hide ViolatingCount;
    if os == [] {
      assert ViolatingCount([]) == 0 by { WeightedTotalIsSum([]); }
      assert Times(0.0, 0.0) == 0.0;
    } else {
      PortionTimes(ViolatingCount(os) as real, |os| as real);
    }
  }

  lemma DiscountMeaning(os: seq<Overage>, p: Params)
    ensures IsDiscount(DiscountPoints(os, p), os, p)
  {
    CappedMeaning(os, p);
    WeightedTotalIsSum(os);
    RatioMeaning(os);
    assert IsLargest(MaxOverage(os), os);
    hide MaxOverage, WeightedOverage, ViolationRatio, ViolatingCount, OverCount, WeightedTotal, IsLargest, Times, IsCapped, DiscountPoints;
    assert IsRaw(RawExcess(os, p), MaxOverage(os), ViolationRatio(os), os, p);
  }

  // --- the margin ---

  function NetTotal(os: seq<Overage>): real {
    if os == [] then 0.0 else os[0].listAmt * (100.0 - os[0].effective) / 100.0 + NetTotal(os[1..])
  }

  function CostTotal(os: seq<Overage>): real { if os == [] then 0.0 else os[0].line.costSubtotal + CostTotal(os[1..]) }

  lemma NetOfLine(o: Overage)
    ensures NetOf()(o) == o.listAmt * (100.0 - o.effective) / 100.0
  {
    var x := 1.0 - o.effective / 100.0;
    assert 100.0 - o.effective == 100.0 * x;
    assert o.listAmt * (100.0 * x) == 100.0 * (o.listAmt * x);
  }

  lemma {:induction false} NetTotalIsSum(os: seq<Overage>)
    ensures TotalNet(os) == NetTotal(os) && TotalCost(os) == CostTotal(os)
  {
    if os != [] {
      NetTotalIsSum(os[1..]);
      NetOfLine(os[0]);
    }
  }

  /** margin is what is left of the net revenue after costs, in percent to cents; 0 without net revenue. */
  ghost predicate IsMargin(margin: real, os: seq<Overage>) {
    && (NetTotal(os) <= 0.0 ==> margin == 0.0)
    && (NetTotal(os) > 0.0 ==> exists exact :: IsPercentage(exact, NetTotal(os), CostTotal(os)) && Near2(margin, exact))
  }

  predicate IsPercentage(exact: real, net: real, cost: real) { exact * net == 100.0 * (net - cost) }

  lemma PercentageMeaning(net: real, cost: real)
    requires net > 0.0
    ensures IsPercentage(MarginOf(net, cost), net, cost)
  {
    var q := (net - cost) / net;
    assert q * net == net - cost && MarginOf(net, cost) == q * 100.0;
    assert (q * 100.0) * net == 100.0 * (q * net);
  }

  lemma MarginMeaning(os: seq<Overage>)
    ensures IsMargin(MarginPct(os), os)
  {
    NetTotalIsSum(os);
    var (net, cost) := (NetTotal(os), CostTotal(os));
    hide NetTotal, CostTotal, TotalNet, TotalCost;
    var exact := MarginOf(net, cost);
    Round2Near(exact);
    assert Round2(0.0) == 0.0;
    if net > 0.0 {
      PercentageMeaning(net, cost);
    } else {
      assert exact == 0.0;
    }
    hide Round2, MarginOf, IsPercentage;
    assert MarginPct(os) == Round2(exact);
  }

  /** points charge for a margin below the floor: weight times gap to cents, up to the cap. */
  ghost predicate IsMarginCharge(points: real, margin: real, p: Params) {
    && (margin >= p.minimumMarginPct ==> points == 0.0)
    && (margin < p.minimumMarginPct ==>
          && points <= p.marginCap
          && (points == p.marginCap || Near2(points, Times(p.wMargin, p.minimumMarginPct - margin)))
          && (points == p.marginCap ==> p.marginCap <= Times(p.wMargin, p.minimumMarginPct - margin) + 0.005))
  }

  lemma MarginChargeMeaning(margin: real, p: Params)
    ensures IsMarginCharge(MarginPoints(margin, p), margin, p)
  {
    if margin < p.minimumMarginPct {
      GapMeaning(p.minimumMarginPct - margin, p);
      hide GapPoints, Times;
    }
  }

  lemma GapMeaning(gap: real, p: Params)
    ensures var points := GapPoints(gap, p);
            && points <= p.marginCap && (points == p.marginCap || Near2(points, Times(p.wMargin, gap)))
            && (points == p.marginCap ==> p.marginCap <= Times(p.wMargin, gap) + 0.005)
  {
    hide Times, Round2;
    Round2Near(Times(p.wMargin, gap));
  }

  // --- stock ---

  /** A stockable line that asks for more whole units than there are. */
  predicate Short(l: RiskLine) { l.stockable && l.qty >= 0.0 && (l.availableQty + 1) as real <= l.qty }

  /** A stockable line that needs more than one warehouse. */
  predicate NeedsSplit(l: RiskLine) { l.stockable && l.inventoryShortage }

  lemma WholeUnitsMeaning(qty: real, available: int)
    requires qty >= 0.0
    ensures available < WholeUnits(qty) <==> (available + 1) as real <= qty
  {
  }

  predicate AnyShort(lines: seq<RiskLine>) { exists l :: l in lines && Short(l) }

  predicate AnySplit(lines: seq<RiskLine>) { exists l :: l in lines && NeedsSplit(l) }

  lemma AnyLast(before: seq<RiskLine>, last: RiskLine)
    ensures AnyShort(before + [last]) <==> AnyShort(before) || Short(last)
    ensures AnySplit(before + [last]) <==> AnySplit(before) || NeedsSplit(last)
  {
    var lines := before + [last];
    assert last in lines && forall l :: l in lines <==> l in before || l == last;
    hide Short, NeedsSplit;
  }

  lemma {:induction false} WorstMeaning(lines: seq<RiskLine>, p: Params)
    requires 0.0 <= p.invSplitPoints <= p.invBackorderPoints && forall l :: l in lines ==> l.qty >= 0.0
    ensures WorstInventory(lines, p)
            == if AnyShort(lines) then p.invBackorderPoints else if AnySplit(lines) then p.invSplitPoints else 0.0
  {
    if lines != [] {
      var (before, last) := (lines[..|lines| - 1], lines[|lines| - 1]);
      assert lines == before + [last];
      WorstMeaning(before, p);
      AnyLast(before, last);
      WholeUnitsMeaning(last.qty, last.availableQty);
      hide WholeUnits, AnyShort, AnySplit;
    }
  }

  /** The inventory points: those of a backorder if some line is short, else those of a split if some line needs one,
      else none; capped. */
  lemma InventoryMeaning(lines: seq<RiskLine>, p: Params)
    requires 0.0 <= p.invSplitPoints <= p.invBackorderPoints && p.invCap >= 0.0
    requires forall l :: l in lines ==> l.qty >= 0.0
    ensures var worst := if AnyShort(lines) then p.invBackorderPoints else if AnySplit(lines) then p.invSplitPoints else 0.0;
            InventoryPoints(lines, p) == if worst <= p.invCap then worst else p.invCap
  {
    WorstMeaning(lines, p);
    hide AnyShort, AnySplit, WorstInventory;
  }

  // --- the score ---

  /** total sums up discount, margin, inventory and negotiation points. */
  ghost predicate IsTotal(total: real, discount: real, margin: real, charge: real, ctx: Context, p: Params) {
    && IsDiscount(discount, Overages(ctx), p) && IsMargin(margin, Overages(ctx)) && IsMarginCharge(charge, margin, p)
    && total == discount + charge + InventoryPoints(ctx.lines, p) + (if ctx.openCounter then 5.0 else 0.0)
  }

  /** score is that total, to cents and up to 100. */
  ghost predicate IsScore(score: real, ctx: Context, p: Params) {
    exists total, discount, margin, charge ::
      && IsTotal(total, discount, margin, charge, ctx, p)
      && score <= 100.0 && (score == 100.0 || Near2(score, total)) && (score == 100.0 ==> total >= 99.995)
  }

  lemma ScoreMeaning(ctx: Context, p: Params)
    ensures IsScore(Score(ctx, p), ctx, p)
  {
    var os := Overages(ctx);
    var margin := MarginPct(os);
    DiscountMeaning(os, p);
    MarginMeaning(os);
    MarginChargeMeaning(margin, p);
    var total := Points(ctx, os, p);
    Round2Near(total);
    hide Overages, IsDiscount, IsMargin, IsMarginCharge, DiscountPoints, MarginPct, MarginPoints, InventoryPoints, Round2;
    assert IsTotal(total, DiscountPoints(os, p), margin, MarginPoints(margin, p), ctx, p);
    hide IsTotal, Points;
  }

  /** The factors besides the discounts': one for the margin, with its gap as raw value, exactly below the floor; one for
      stock exactly when it takes points; and five points exactly under an open counter-offer; and no others. */
  lemma OthersMeaning(ctx: Context, margin: real, p: Params, f: Factor)
    ensures f in OtherFactors(ctx, margin, p) <==>
              && f.lineId == None && !f.kind.DiscountExcessFactor?
              && (f.kind.MarginExposure? ==>
                    && margin < p.minimumMarginPct && f.rawValue + margin == p.minimumMarginPct && f.weight == p.wMargin
                    && f.contribution == MarginPoints(margin, p))
              && (f.kind.InventoryRisk? ==>
                    f.weight == 1.0 && f.rawValue == f.contribution == InventoryPoints(ctx.lines, p) && f.rawValue > 0.0)
              && (f.kind.NegotiationPressure? ==>
                    ctx.openCounter && f.rawValue == 1.0 && f.weight == f.contribution == 5.0)
  {
    hide GapPoints, WorstInventory;
  }

  /** Which approval a deal needs: none without an overage below the manager's threshold; finance too above its threshold
      or for a large overage on a single line. */
  ghost predicate IsLevel(level: Level, maxOverage: real, score: real, p: Params) {
    && (level.NoApproval? <==> maxOverage == 0.0 && score < p.managerThreshold)
    && (!level.NoApproval? ==>
          (level.ManagerAndFinance? <==> score > p.financeThreshold || maxOverage >= p.singleLineFinancePts))
  }

  ghost predicate IsSeverity(severity: Severity, score: real, p: Params) {
    && (severity.Low? <==> score < p.managerThreshold)
    && (severity.High? <==> score >= p.managerThreshold && score > p.financeThreshold)
  }

  /** The whole result of scoring a deal, on the deal and the settings. */
  ghost predicate Explains(r: RiskResult, ctx: Context, p: Params) {
    && IsScore(r.score, ctx, p) && IsLargest(r.maxOverage, Overages(ctx)) && IsMargin(r.marginPct, Overages(ctx))
    && IsLevel(r.level, r.maxOverage, r.score, p) && IsSeverity(r.severity, r.score, p)
    && forall i :: 0 <= i < |ctx.lines| ==> |Overages(ctx)| == |ctx.lines| && Assesses(Overages(ctx)[i], ctx.lines[i], ctx)
  }

  /** What RiskScoring.CalculateDealRisk returns means what it should. */
  lemma ResultMeaning(r: RiskResult, ctx: Context, p: Params)
    requires r.score == Score(ctx, p) && r.level == RequiredLevel(ctx, p) && r.severity == SeverityOf(r.score, p)
    requires r.maxOverage == MaxOverage(Overages(ctx)) && r.marginPct == MarginPct(Overages(ctx))
    ensures Explains(r, ctx, p)
  {
    ScoreMeaning(ctx, p);
    MarginMeaning(Overages(ctx));
    forall i | 0 <= i < |ctx.lines|
      ensures |Overages(ctx)| == |ctx.lines| && Assesses(Overages(ctx)[i], ctx.lines[i], ctx)
    {
      LineMeaning(ctx, i);
    }
    hide IsScore, IsMargin, Overages, Assesses, Score, MarginPct;
  }

  // --- a worked example ---

  /** Two lines at list price 100, one 4 points over its ceiling and one short of stock, under an open counter-offer. */
  function Example(): Context {
    Context([RiskLine(1, 1.0, 100.0, 14.0, 149.6, false, 0, false), RiskLine(2, 1.0, 100.0, 10.0, 0.0, true, 0, true)],
            0.0, 10.0, map[], true)
  }

  lemma ExampleAssessed()
    ensures var os := Overages(Example());
            && |os| == 2 && os[0].overage == 4.0 && os[1].overage == 0.0 && os[0].weight == os[1].weight == 0.5
            && os[0].effective == 14.0 && os[1].effective == 10.0 && os[0].listAmt == os[1].listAmt == 100.0
            && os[0].line == Example().lines[0] && os[1].line == Example().lines[1]
  {
    HalfUpWhole(140000);
    HalfUpWhole(100000);
    HalfUpWhole(40000);
    HalfUpWhole(0);
    var ctx := Example();
    ListTotalIsSum(ctx.lines);
    assert ctx.lines[1..] == [ctx.lines[1]] && ctx.lines[1..][1..] == [];
    assert ListTotal(ctx.lines) == 100.0 + ListTotal(ctx.lines[1..]) == 200.0;
  }

  /** Under the default settings: 29 for the discounts, 15 for a margin of 15 percent, 20 for a backorder and 5 for the
      counter-offer. */
  lemma ExampleScore()
    ensures Score(Example(), DEFAULTS) == 69.0 && RequiredLevel(Example(), DEFAULTS).ManagerAndFinance?
  {
    var (ctx, p) := (Example(), DEFAULTS);
    var os := Overages(ctx);
    ExampleAssessed();
    ExampleSums(os);
    assert MaxOverage(os) == 4.0;
    ExampleInventory();
    hide Overages, Example, MaxOverage, WeightedOverage, ViolatingCount, TotalNet, TotalCost, WorstInventory, Round2, IsHundredths;
    ExamplePoints(os, p);
    hide DiscountPoints, MarginPct, MarginPoints;
    assert Points(ctx, os, p) == 69.0 by {
      assert InventoryPoints(ctx.lines, p) == 20.0;
    }
    hide Points;
    assert Round2(69.0) == 69.0 by { Round2Exact(69); }
  }

  lemma Round2Exact(n: int)
    ensures Round2(n as real) == n as real
  {
    HalfUpWhole(n * 100);
  }

  lemma ExampleInventory()
    ensures WorstInventory(Example().lines, DEFAULTS) == 20.0 && Example().openCounter
  {
    var lines := Example().lines;
    assert lines[..1][..0] == [] && lines[..2] == lines && lines[..1] == [lines[0]];
    assert WorstInventory(lines[..1], DEFAULTS) == 0.0;
  }

  lemma ExampleSums(os: seq<Overage>)
    requires |os| == 2 && os[0].overage == 4.0 && os[1].overage == 0.0 && os[0].weight == os[1].weight == 0.5
    requires os[0].effective == 14.0 && os[1].effective == 10.0 && os[0].listAmt == os[1].listAmt == 100.0
    requires os[0].line.costSubtotal == 149.6 && os[1].line.costSubtotal == 0.0
    ensures WeightedOverage(os) == 2.0 && ViolatingCount(os) == 1 && TotalNet(os) == 176.0 && TotalCost(os) == 149.6
  {
    var rest := os[1..];
    assert rest[0] == os[1] && rest[1..] == [];
    WeightedTotalIsSum(os);
    NetTotalIsSum(os);
    assert WeightedTotal(rest) == 0.0 && OverCount(rest) == 0 && NetTotal(rest) == 90.0 && CostTotal(rest) == 0.0;
    hide WeightedOverage, ViolatingCount, TotalNet, TotalCost;
    assert NetTotal(os) == 86.0 + NetTotal(rest);
  }

  lemma ExamplePoints(os: seq<Overage>, p: Params)
    requires p == DEFAULTS && |os| == 2 && MaxOverage(os) == 4.0 && WeightedOverage(os) == 2.0 && ViolatingCount(os) == 1
    requires TotalNet(os) == 176.0 && TotalCost(os) == 149.6
    ensures DiscountPoints(os, p) == 29.0 && MarginPct(os) == 15.0 && MarginPoints(15.0, p) == 15.0
  {
    hide MaxOverage, WeightedOverage, ViolatingCount, TotalNet, TotalCost;
    Round2Exact(29);
    Round2Exact(15);
    assert RawExcess(os, p) == 29.0;
    assert MarginOf(176.0, 149.6) == 15.0;
  }

  /** One line at 100 with costs of 30, 8 points over its ceiling. */
  function HighExample(): Context {
    Context([RiskLine(1, 1.0, 100.0, 18.0, 30.0, false, 0, false)], 0.0, 10.0, map[], false)
  }

  lemma HighAssessed()
    ensures var os := Overages(HighExample());
            && |os| == 1 && os[0].overage == 8.0 && os[0].weight == 1.0 && os[0].effective == 18.0
            && os[0].listAmt == 100.0 && os[0].line == HighExample().lines[0]
  {
    HalfUpWhole(180000);
    HalfUpWhole(80000);
    var ctx := HighExample();
    ListTotalIsSum(ctx.lines);
    assert ctx.lines[1..] == [];
    assert ListTotal(ctx.lines) == 100.0;
  }

  lemma HighSums(os: seq<Overage>)
    requires |os| == 1 && os[0].overage == 8.0 && os[0].weight == 1.0 && os[0].effective == 18.0
    requires os[0].listAmt == 100.0 && os[0].line.costSubtotal == 30.0
    ensures MaxOverage(os) == 8.0 && WeightedOverage(os) == 8.0 && ViolatingCount(os) == 1
    ensures TotalNet(os) == 82.0 && TotalCost(os) == 30.0
  {
    assert os[1..] == [];
    WeightedTotalIsSum(os);
    NetTotalIsSum(os);
    assert WeightedTotal(os[1..]) == 0.0 && NetTotal(os[1..]) == 0.0 && CostTotal(os[1..]) == 0.0;
    hide WeightedOverage, ViolatingCount, TotalNet, TotalCost;
  }

  /** Under the default settings its discounts alone reach their cap of 60: finance must sign, though no line is 10 points
      over. */
  lemma HighScore()
    ensures Score(HighExample(), DEFAULTS) == 60.0 && RequiredLevel(HighExample(), DEFAULTS).ManagerAndFinance?
    ensures MaxOverage(Overages(HighExample())) == 8.0
  {
    var (ctx, p) := (HighExample(), DEFAULTS);
    var os := Overages(ctx);
    HighAssessed();
    HighSums(os);
    assert WorstInventory(ctx.lines, p) == 0.0 by {
      assert ctx.lines[..0] == [];
    }
    assert !ctx.openCounter;
    hide Overages, HighExample, MaxOverage, WeightedOverage, ViolatingCount, TotalNet, TotalCost, WorstInventory;
    HighPoints(os, p);
    hide DiscountPoints, MarginPct, MarginPoints;
    Round2Exact(60);
    assert Points(ctx, os, p) == 60.0;
  }

  lemma HighPoints(os: seq<Overage>, p: Params)
    requires p == DEFAULTS && |os| == 1 && MaxOverage(os) == 8.0 && WeightedOverage(os) == 8.0 && ViolatingCount(os) == 1
    requires TotalNet(os) == 82.0 && TotalCost(os) == 30.0
    ensures DiscountPoints(os, p) == 60.0 && MarginPoints(MarginPct(os), p) == 0.0
  {
    hide MaxOverage, WeightedOverage, ViolatingCount, TotalNet, TotalCost;
    Round2Exact(60);
    assert RawExcess(os, p) == 66.0;
    PercentageMeaning(82.0, 30.0);
    var m := MarginOf(82.0, 30.0);
    assert 63.0 <= m <= 64.0 by { assert m * 82.0 == 5200.0; }
    Round2Near(m);
    hide Round2;
    assert MarginPct(os) == Round2(m) >= 20.0;
  }
}
