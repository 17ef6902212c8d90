/** What accepted terms do to an order's lines, and what an evaluation reads off them. */
module OrderLaws {
  import opened Prelude
  import opened Decimals
  import opened RiskModel
  import opened RiskMeaning
  import opened OrderTerms

  /** after is before with f done to exactly the lines with this id. */
  ghost predicate OnlyLine(before: seq<OrderLine>, after: seq<OrderLine>, id: int, f: OrderLine -> OrderLine) {
    && |after| == |before|
    && forall i :: 0 <= i < |before| ==> after[i] == if before[i].id == id then f(before[i]) else before[i]
  }

  lemma OneChange(lines: seq<OrderLine>, c: LineChange)
    ensures |Changed(lines, [c])| == |lines|
    ensures forall i :: 0 <= i < |lines| ==> Changed(lines, [c])[i] == ChangeLine(lines[i], c)
  {
    assert [c][..0] == [];
    assert Changed(lines, [c][..0]) == lines;
  }

  /** A quantity change sets the quantity of the line it names, to whatever was asked for. */
  lemma ChangingQuantity(ls: Lines, id: int, qty: real, m: Market)
    requires id != 0
    ensures CanApply(QtyChange(Some(id), Some(qty)), m)
    ensures var e := Applied(ls, QtyChange(Some(id), Some(qty)), m);
            e.lineSeq == ls.lineSeq && OnlyLine(ls.items, e.items, id, (l: OrderLine) => l.(qty := qty))
  {
    OneChange(ls.items, LineChange(id, None, Some(qty)));
  }

  /** Removing a line sets its quantity to zero: the line stays. */
  lemma RemovingLine(ls: Lines, id: int, m: Market)
    requires id != 0
    ensures CanApply(RemoveLine(Some(id)), m)
    ensures var e := Applied(ls, RemoveLine(Some(id)), m);
            e.lineSeq == ls.lineSeq && OnlyLine(ls.items, e.items, id, (l: OrderLine) => l.(qty := 0.0))
  {
    OneChange(ls.items, LineChange(id, None, Some(0.0)));
  }

  /** A counter-discount on a line sets its discount; without a line it sets every line's. */
  lemma Discounting(ls: Lines, id: Option<int>, value: real, m: Market)
    ensures CanApply(CounterDiscount(id, Some(value)), m)
    ensures var e := Applied(ls, CounterDiscount(id, Some(value)), m);
            && e.lineSeq == ls.lineSeq && |e.items| == |ls.items|
            && forall i :: 0 <= i < |ls.items| ==>
                 e.items[i] == if id.None? || id.value == 0 || ls.items[i].id == id.value
                               then ls.items[i].(discountPct := value) else ls.items[i]
  {
    CounterSets(ls.items, id, value);
    hide Changed, CounterChanges;
  }

  /** Adding a product appends one unit at its list price without a discount, under the next line id. */
  lemma AddingProduct(ls: Lines, productId: int, m: Market)
    ensures CanApply(AddProduct(Some(productId)), m) <==> productId in m.catalog
    ensures productId in m.catalog ==>
              Applied(ls, AddProduct(Some(productId)), m)
              == Lines(ls.items + [OrderLine(ls.lineSeq + 1, productId, 1.0, m.catalog[productId].listPrice, 0.0)], ls.lineSeq + 1)
  {
  }

  /** Comments, and terms that leave out what they are about, change nothing. */
  lemma ChangingNothing(ls: Lines, t: Terms, m: Market)
    requires match t
             case QtyChange(id, qty) => id == None || id == Some(0) || qty == None
             case CounterDiscount(_, value) => value == None
             case RemoveLine(id) => id == None || id == Some(0)
             case AddProduct(productId) => productId == None
             case Comment => true
    ensures CanApply(t, m) && Applied(ls, t, m) == ls
  {
  }

  // --- what is read ---

  /** r scores line l of the product: quantity, price, discount and cost to cents, the cost from rounded factors; and whether
      the main warehouse alone can serve it. */
  ghost predicate Reads(r: RiskLine, l: OrderLine, p: Product) {
    && r.lineId == l.id && Near2(r.qty, l.qty) && Near2(r.priceUnit, l.priceUnit) && Near2(r.discountPct, l.discountPct)
    && (exists unitCost :: Near2(unitCost, p.unitCost) && Near2(r.costSubtotal, Times(r.qty, unitCost)))
    && r.stockable == p.stockable && r.availableQty == p.onHand
    && (r.qty >= 0.0 ==> (r.inventoryShortage <==> p.stockable && (p.inMain + 1) as real <= r.qty))
  }

  lemma LineRead(lines: seq<OrderLine>, m: Market, openCounter: bool, i: nat)
    requires Known(lines, m) && i < |lines|
    ensures var ctx := ContextOf(lines, m, openCounter);
            && |ctx.lines| == |lines| && Reads(ctx.lines[i], lines[i], m.catalog[lines[i].productId])
            && ctx.orderDiscountPct == 0.0 && ctx.tierDefaultCeiling == m.tierCeiling && ctx.openCounter == openCounter
  {
    var (l, p) := (lines[i], m.catalog[lines[i].productId]);
    Round2Near(l.qty);
    Round2Near(l.priceUnit);
    Round2Near(l.discountPct);
    Round2Near(p.unitCost);
    Round2Near(Times(Round2(l.qty), Round2(p.unitCost)));
    var qty := Round2(l.qty);
    if qty >= 0.0 {
      WholeUnitsMeaning(qty, p.inMain);
    }
    hide Round2, Times, WholeUnits;
    assert Near2(Round2(p.unitCost), p.unitCost);
    assert ScoredLines(lines, m)[i] == Scored(l, m);
  }

  /** The rule that applies to a product: its own, or the fallback. */
  predicate IsRule(r: Rule, productId: int, m: Market) {
    r == if productId in m.rules then m.rules[productId] else m.fallback
  }

  /** The ceiling of a line is that of its product, if no later line has the same id. */
  lemma {:induction false} CeilingRead(lines: seq<OrderLine>, m: Market, i: nat, r: Rule)
    requires i < |lines| && IsRule(r, lines[i].productId, m)
    requires forall j :: i < j < |lines| ==> lines[j].id != lines[i].id
    ensures lines[i].id in Ceilings(lines, m) && Ceilings(lines, m)[lines[i].id] == r.ceiling
    decreases |lines|
  {
    if i < |lines| - 1 {
      CeilingRead(lines[..|lines| - 1], m, i, r);
    }
  }

  /** Margin floor and thresholds are those of the last line's product; weights and caps are the defaults. */
  lemma PolicyRead(lines: seq<OrderLine>, m: Market, r: Rule)
    requires lines != [] && IsRule(r, lines[|lines| - 1].productId, m)
    ensures var p := ParamsOf(lines, m);
            && p.minimumMarginPct == r.minimumMarginPct && p.managerThreshold == r.managerThreshold
            && p.financeThreshold == r.financeThreshold && p.singleLineFinancePts == r.singleLineFinancePts
            && p.wDiscountMax == 5.0 && p.wDiscountWeighted == 2.0 && p.wDiscountRatio == 10.0 && p.discountCap == 60.0
            && p.wMargin == 3.0 && p.marginCap == 25.0
            && p.invSplitPoints == 8.0 && p.invBackorderPoints == 20.0 && p.invCap == 20.0
  {
  }
}
