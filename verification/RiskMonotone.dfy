/** Raising a discount never lowers the risk score, its severity or the approval it requires,
    and exactly which settings of the margin factor that depends on. */
module RiskMonotone {
  import opened Prelude
  import opened Sums
  import opened Decimals
  import opened RiskModel

  /** b is a with some line discounts raised, and perhaps the order discount raised or a counter-offer
      opened; all else is equal. */
  ghost predicate Raised(a: Context, b: Context) {
    && b == a.(lines := b.lines, orderDiscountPct := b.orderDiscountPct, openCounter := b.openCounter)
    && (a.openCounter ==> b.openCounter)
    && a.orderDiscountPct <= b.orderDiscountPct
    && |a.lines| == |b.lines|
    && forall i :: 0 <= i < |a.lines| ==>
         && b.lines[i] == a.lines[i].(discountPct := b.lines[i].discountPct)
         && a.lines[i].discountPct <= b.lines[i].discountPct
  }

  /** What raising discounts does to the assessed lines. */
  ghost predicate Above(oa: seq<Overage>, ob: seq<Overage>) {
    && |oa| == |ob|
    && forall i :: 0 <= i < |oa| ==>
         && 0.0 <= oa[i].effective <= ob[i].effective <= 100.0
         && 0.0 <= oa[i].overage <= ob[i].overage
         && oa[i].weight == ob[i].weight >= 0.0
         && oa[i].listAmt == ob[i].listAmt >= 0.0
         && oa[i].line.costSubtotal == ob[i].line.costSubtotal >= 0.0
  }

  lemma CompoundMonotone(d: real, d': real, o: real, o': real)
    requires 0.0 <= d <= d' <= 1.0 && 0.0 <= o <= o' <= 1.0
    ensures 0.0 <= Compound(d, o) <= Compound(d', o') <= 100.0
    ensures 100.0 * d <= Compound(d, o)
  {
    var (x, y, x', y') := (1.0 - d, 1.0 - o, 1.0 - d', 1.0 - o');
    ProductMonotone(x', x, y', y);
    ProductMonotone(x, x, y, 1.0);
  }

  lemma ProductMonotone(x': real, x: real, y': real, y: real)
    requires 0.0 <= x' <= x && 0.0 <= y' <= y
    ensures 0.0 <= x' * y' <= x * y
  {
    assert x' * y' <= x * y';
    assert x * y' <= x * y;
  }

  lemma ScaleMonotone(w: real, y': real, y: real)
    requires w >= 0.0 && y' <= y
    ensures Times(w, y') <= Times(w, y)
  {
  }

  lemma EffectiveMonotone(a: Context, b: Context, l: RiskLine, l': RiskLine)
    requires 0.0 <= a.orderDiscountPct <= b.orderDiscountPct <= 100.0
    requires 0.0 <= l.discountPct <= l'.discountPct <= 100.0
    ensures 0.0 <= Effective(a, l) <= Effective(b, l') <= 100.0
  {
    var (d, d', o, o') := (l.discountPct / 100.0, l'.discountPct / 100.0, a.orderDiscountPct / 100.0, b.orderDiscountPct / 100.0);
    CompoundMonotone(d, d', o, o');
    CompoundMonotone(d', d', o', o');
    hide Compound;
    var x := if a.orderDiscountPct > 0.0 then Compound(d, o) else l.discountPct;
    var y := if b.orderDiscountPct > 0.0 then Compound(d', o') else l'.discountPct;
    assert x <= y by {
      if !(a.orderDiscountPct > 0.0) && b.orderDiscountPct > 0.0 {
        assert 100.0 * d <= 100.0 * d' <= Compound(d', o');
      }
    }
    Round4Monotone(x, y);
    Round4Range(x, 100);
    Round4Range(y, 100);
  }

  lemma {:induction false} SameListAmounts(la: seq<RiskLine>, lb: seq<RiskLine>)
    requires |la| == |lb|
    requires forall i :: 0 <= i < |la| ==> lb[i] == la[i].(discountPct := lb[i].discountPct)
    ensures SumReal(la, ListAmt()) == SumReal(lb, ListAmt())
  {
    if la != [] {
      SameListAmounts(la[1..], lb[1..]);
    }
  }

  lemma RaisedIsAbove(a: Context, b: Context)
    requires Sensible(a) && Sensible(b) && Raised(a, b)
    ensures Above(Overages(a), Overages(b))
  {
    var (oa, ob) := (Overages(a), Overages(b));
    SameListAmounts(a.lines, b.lines);
    WeightNonNegative(a);
    OverageNonNegative(a);
    forall i | 0 <= i < |oa|
      ensures 0.0 <= oa[i].effective <= ob[i].effective <= 100.0
      ensures 0.0 <= oa[i].overage <= ob[i].overage
      ensures oa[i].weight == ob[i].weight >= 0.0
      ensures oa[i].listAmt == ob[i].listAmt >= 0.0
      ensures oa[i].line.costSubtotal == ob[i].line.costSubtotal >= 0.0
    {
      assert oa[i] in oa && a.lines[i] in a.lines && b.lines[i] in b.lines;
      RaisedLine(a, b, a.lines[i], b.lines[i]);
    }
  }

  lemma RaisedLine(a: Context, b: Context, l: RiskLine, l': RiskLine)
    requires 0.0 <= a.orderDiscountPct <= b.orderDiscountPct <= 100.0
    requires 0.0 <= l.discountPct <= l'.discountPct <= 100.0
    requires l' == l.(discountPct := l'.discountPct)
    requires TotalList(a) == TotalList(b) && Ceiling(a, l) == Ceiling(b, l')
    ensures 0.0 <= Assess(a, l).effective <= Assess(b, l').effective <= 100.0
    ensures Assess(a, l).overage <= Assess(b, l').overage
    ensures Assess(a, l).weight == Assess(b, l').weight && Assess(a, l).listAmt == Assess(b, l').listAmt
  {
    EffectiveMonotone(a, b, l, l');
    hide Effective, Round4, Portion;
    Round4Monotone(MaxReal(0.0, Effective(a, l) - Ceiling(a, l)), MaxReal(0.0, Effective(b, l') - Ceiling(b, l')));
  }

  // --- the discount factor ---

  lemma {:induction false} WeightedMonotone(oa: seq<Overage>, ob: seq<Overage>)
    requires Above(oa, ob)
    ensures 0.0 <= WeightedOverage(oa) <= WeightedOverage(ob)
  {
    if oa != [] {
      ProductMonotone(oa[0].overage, ob[0].overage, oa[0].weight, ob[0].weight);
      WeightedMonotone(oa[1..], ob[1..]);
    }
  }

  lemma {:induction false} CountMonotone(oa: seq<Overage>, ob: seq<Overage>)
    requires Above(oa, ob)
    ensures 0 <= ViolatingCount(oa) <= ViolatingCount(ob)
  {
    if oa != [] {
      CountMonotone(oa[1..], ob[1..]);
    }
  }

  lemma MaxMonotone(oa: seq<Overage>, ob: seq<Overage>)
    requires Above(oa, ob)
    ensures 0.0 <= MaxOverage(oa) <= MaxOverage(ob)
  {
    if oa != [] {
      var m := MaxOverage(oa);
      var o :| o in oa && o.overage == m;
      var i :| 0 <= i < |oa| && oa[i] == o;
      assert ob[i] in ob;
    }
  }

  lemma QuotientMonotone(x: real, y: real, n: real)
    requires x <= y && n > 0.0
    ensures x / n <= y / n
  {
  }

  lemma RatioMonotone(oa: seq<Overage>, ob: seq<Overage>)
    requires Above(oa, ob)
    ensures 0.0 <= ViolationRatio(oa) <= ViolationRatio(ob)
  {
    CountMonotone(oa, ob);
    if oa != [] {
      var n := |oa| as real;
      QuotientMonotone(0.0, ViolatingCount(oa) as real, n);
      QuotientMonotone(ViolatingCount(oa) as real, ViolatingCount(ob) as real, n);
    }
  }

  lemma DiscountMonotone(oa: seq<Overage>, ob: seq<Overage>, p: Params)
    requires Above(oa, ob) && NonNegativeParams(p)
    ensures DiscountPoints(oa, p) <= DiscountPoints(ob, p)
  {
    MaxMonotone(oa, ob);
    WeightedMonotone(oa, ob);
    RatioMonotone(oa, ob);
    hide *;
    assert RawExcess(oa, p) <= RawExcess(ob, p) by { RawMonotone(oa, ob, p); }
    DiscountOfRaw(oa, ob, p);
  }

  lemma RawMonotone(oa: seq<Overage>, ob: seq<Overage>, p: Params)
    requires NonNegativeParams(p)
    requires MaxOverage(oa) <= MaxOverage(ob) && WeightedOverage(oa) <= WeightedOverage(ob)
    requires ViolationRatio(oa) <= ViolationRatio(ob)
    ensures RawExcess(oa, p) <= RawExcess(ob, p)
  {
    hide MaxOverage, WeightedOverage, ViolationRatio, Times;
    ScaleMonotone(p.wDiscountMax, MaxOverage(oa), MaxOverage(ob));
    ScaleMonotone(p.wDiscountWeighted, WeightedOverage(oa), WeightedOverage(ob));
    ScaleMonotone(p.wDiscountRatio, ViolationRatio(oa), ViolationRatio(ob));
  }

  lemma DiscountOfRaw(oa: seq<Overage>, ob: seq<Overage>, p: Params)
    requires RawExcess(oa, p) <= RawExcess(ob, p)
    ensures DiscountPoints(oa, p) <= DiscountPoints(ob, p)
  {
    hide RawExcess, Round2;
    Round2Monotone(MinReal(p.discountCap, RawExcess(oa, p)), MinReal(p.discountCap, RawExcess(ob, p)));
  }

  // --- the margin factor ---

  lemma {:induction false} NetAntitone(oa: seq<Overage>, ob: seq<Overage>)
    requires Above(oa, ob)
    ensures 0.0 <= TotalNet(ob) <= TotalNet(oa)
    ensures 0.0 <= TotalCost(ob) == TotalCost(oa)
  {
    if oa != [] {
      ProductMonotone(oa[0].listAmt, oa[0].listAmt, 1.0 - ob[0].effective / 100.0, 1.0 - oa[0].effective / 100.0);
      NetAntitone(oa[1..], ob[1..]);
    }
  }

  lemma CrossMultiply(a: real, n: real, b: real, m: real)
    requires n > 0.0 && m > 0.0 && a * m <= b * n
    ensures a / n <= b / m
  {
    var (x, y, k) := (a / n, b / m, n * m);
    assert x * n == a && y * m == b;
    assert x * k == a * m by { assert x * k == (x * n) * m; }
    assert y * k == b * n by { assert y * k == (y * m) * n; }
    assert x > y ==> x * k > y * k;
  }

  /** Less net revenue over the same cost is a lower margin. */
  lemma MarginOfLess(net: real, net': real, cost: real)
    requires 0.0 < net' <= net && cost >= 0.0
    ensures MarginOf(net', cost) <= MarginOf(net, cost)
  {
    CrossMultiply(net' - cost, net', net - cost, net) by {
      assert (net' - cost) * net == net' * net - cost * net;
      assert (net - cost) * net' == net' * net - cost * net';
      assert cost * net' <= cost * net;
    }
  }

  lemma MarginAntitone(oa: seq<Overage>, ob: seq<Overage>)
    requires Above(oa, ob) && (TotalNet(ob) > 0.0 || TotalNet(oa) == 0.0)
    ensures MarginPct(ob) <= MarginPct(oa)
  {
    NetAntitone(oa, ob);
    hide Round2;
    if TotalNet(ob) > 0.0 {
      MarginOfLess(TotalNet(oa), TotalNet(ob), TotalCost(oa));
    }
    hide TotalNet, TotalCost, MarginOf;
    Round2Monotone(MarginOf(TotalNet(ob), TotalCost(ob)), MarginOf(TotalNet(oa), TotalCost(oa)));
  }

  lemma GapMonotone(gap: real, gap': real, p: Params)
    requires gap <= gap' && NonNegativeParams(p)
    ensures GapPoints(gap, p) <= GapPoints(gap', p)
  {
    hide Round2, Times;
    ScaleMonotone(p.wMargin, gap, gap');
    Round2Monotone(Times(p.wMargin, gap), Times(p.wMargin, gap'));
  }

  lemma MarginPointsAntitone(m: real, m': real, p: Params)
    requires m' <= m && NonNegativeParams(p)
    ensures MarginPoints(m, p) <= MarginPoints(m', p)
  {
    MarginPointsRange(m', p);
    if m < p.minimumMarginPct {
      GapMonotone(p.minimumMarginPct - m, p.minimumMarginPct - m', p);
    }
  }

  /** A deal with no net revenue, whose margin reads 0, already scores the full margin points;
      or the margin factor has no weight. */
  predicate FloorSaturates(p: Params) { p.wMargin == 0.0 || MarginPoints(0.0, p) >= p.marginCap }

  lemma NoWeightNoPoints(m: real, p: Params)
    requires NonNegativeParams(p) && p.wMargin == 0.0
    ensures MarginPoints(m, p) == 0.0
  {
    assert Times(0.0, p.minimumMarginPct - m) == 0.0;
    assert Round2(0.0) == 0.0;
  }

  /** Margin points never fall either: step by step while there is net revenue, and down to none of it
      when the floor saturates. */
  lemma MarginFactorMonotone(oa: seq<Overage>, ob: seq<Overage>, p: Params)
    requires Above(oa, ob) && NonNegativeParams(p)
    requires TotalNet(ob) > 0.0 || TotalNet(oa) == 0.0 || FloorSaturates(p)
    ensures MarginPoints(MarginPct(oa), p) <= MarginPoints(MarginPct(ob), p)
  {
    NetAntitone(oa, ob);
    if TotalNet(ob) > 0.0 || TotalNet(oa) == 0.0 {
      MarginAntitone(oa, ob);
      MarginPointsAntitone(MarginPct(oa), MarginPct(ob), p);
    } else {
      assert MarginPct(ob) == 0.0 by { assert Round2(0.0) == 0.0; }
      MarginPointsRange(MarginPct(oa), p);
      if p.wMargin == 0.0 {
        NoWeightNoPoints(MarginPct(oa), p);
        NoWeightNoPoints(MarginPct(ob), p);
      }
    }
  }

  // --- the score ---

  lemma {:induction false} SameInventory(la: seq<RiskLine>, lb: seq<RiskLine>, p: Params)
    requires |la| == |lb|
    requires forall i :: 0 <= i < |la| ==> lb[i] == la[i].(discountPct := lb[i].discountPct)
    ensures WorstInventory(la, p) == WorstInventory(lb, p)
  {
    if la != [] {
      SameInventory(la[..|la| - 1], lb[..|lb| - 1], p);
    }
  }

  lemma PointsMonotone(a: Context, b: Context, p: Params)
    requires Raised(a, b) && NonNegativeParams(p)
    requires Above(Overages(a), Overages(b))
    requires TotalNet(Overages(b)) > 0.0 || TotalNet(Overages(a)) == 0.0 || FloorSaturates(p)
    ensures Points(a, Overages(a), p) <= Points(b, Overages(b), p)
  {
    SameInventory(a.lines, b.lines, p);
    assert NegotiationPoints(a.openCounter) <= NegotiationPoints(b.openCounter);
    hide *;
    DiscountMonotone(Overages(a), Overages(b), p);
    MarginFactorMonotone(Overages(a), Overages(b), p);
    PointsAdd(a, b, p);
  }

  lemma PointsAdd(a: Context, b: Context, p: Params)
    requires DiscountPoints(Overages(a), p) <= DiscountPoints(Overages(b), p)
    requires MarginPoints(MarginPct(Overages(a)), p) <= MarginPoints(MarginPct(Overages(b)), p)
    requires WorstInventory(a.lines, p) == WorstInventory(b.lines, p)
    requires NegotiationPoints(a.openCounter) <= NegotiationPoints(b.openCounter)
    ensures Points(a, Overages(a), p) <= Points(b, Overages(b), p)
  {
    hide Overages, DiscountPoints, MarginPoints, MarginPct, WorstInventory, NegotiationPoints;
  }

  /** Raising discounts never lowers the score, as long as net revenue is left or was already gone,
      or the margin floor saturates. */
  lemma ScoreMonotone(a: Context, b: Context, p: Params)
    requires Sensible(a) && Sensible(b) && Raised(a, b) && NonNegativeParams(p)
    requires TotalNet(Overages(b)) > 0.0 || TotalNet(Overages(a)) == 0.0 || FloorSaturates(p)
    ensures Score(a, p) <= Score(b, p)
  {
    RaisedIsAbove(a, b);
    PointsMonotone(a, b, p);
    hide Points, Overages, Round2;
    Round2Monotone(Points(a, Overages(a), p), Points(b, Overages(b), p));
  }

  /** Severity and required approval follow the score and the largest overage upward. */
  lemma RoutingMonotone(m: real, s: real, m': real, s': real, p: Params)
    requires 0.0 <= m <= m' && s <= s'
    ensures SeverityRank(SeverityOf(s, p)) <= SeverityRank(SeverityOf(s', p))
    ensures LevelPriority(LevelOf(m, s, p)) <= LevelPriority(LevelOf(m', s', p))
  {
  }

  /** So neither the severity nor the required approval ever drops. */
  lemma ApprovalMonotone(a: Context, b: Context, p: Params)
    requires Sensible(a) && Sensible(b) && Raised(a, b) && NonNegativeParams(p)
    requires TotalNet(Overages(b)) > 0.0 || TotalNet(Overages(a)) == 0.0 || FloorSaturates(p)
    ensures SeverityRank(SeverityOf(Score(a, p), p)) <= SeverityRank(SeverityOf(Score(b, p), p))
    ensures LevelPriority(RequiredLevel(a, p)) <= LevelPriority(RequiredLevel(b, p))
  {
    RaisedIsAbove(a, b);
    MaxMonotone(Overages(a), Overages(b));
    ScoreMonotone(a, b, p);
    hide Overages, Score;
    RoutingMonotone(MaxOverage(Overages(a)), Score(a, p), MaxOverage(Overages(b)), Score(b, p), p);
  }
}
