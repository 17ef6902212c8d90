/** An order's lines as negotiations change them, and the risk context that an evaluation builds from them. */
module OrderTerms {
  import opened Prelude
  import opened Decimals
  import opened RiskModel

  datatype OrderLine = OrderLine(id: int, productId: int, qty: real, priceUnit: real, discountPct: real)

  /** A product with what is on hand of it in all warehouses together and in the main one. */
  datatype Product = Product(listPrice: real, unitCost: real, stockable: bool, onHand: int, inMain: int)

  /** The policy resolved for a product: its ceiling, the margin floor and the routing thresholds. */
  datatype Rule = Rule(
    ceiling: real, minimumMarginPct: real, managerThreshold: real, financeThreshold: real, singleLineFinancePts: real)

  /** Everything outside the order that an evaluation reads. */
  datatype Market = Market(catalog: map<int, Product>, rules: map<int, Rule>, fallback: Rule, tierCeiling: real)

  /** The order's lines, and the last line id given out. */
  datatype Lines = Lines(items: seq<OrderLine>, lineSeq: int)

  /** What a customer asks for; a comment asks for no change. */
  datatype Terms =
    | QtyChange(lineId: Option<int>, qty: Option<real>)
    | CounterDiscount(lineId: Option<int>, value: Option<real>)
    | RemoveLine(lineId: Option<int>)
    | AddProduct(productId: Option<int>)
    | Comment

  datatype LineChange = LineChange(lineId: int, discountPct: Option<real>, qty: Option<real>)

  function Or<T>(o: Option<T>, otherwise: T): T { if o.Some? then o.value else otherwise }

  /** Missing ids and id 0 name no line. */
  predicate Names(id: Option<int>) { id.Some? && id.value != 0 }

  // --- changing the lines ---

  function ChangeLine(l: OrderLine, c: LineChange): OrderLine {
    if l.id == c.lineId then l.(discountPct := Or(c.discountPct, l.discountPct), qty := Or(c.qty, l.qty)) else l
  }

  /** The lines after all changes, each made to every line with its id. */
  function Changed(lines: seq<OrderLine>, changes: seq<LineChange>): seq<OrderLine> {
    if changes == [] then lines
    else
      var before := Changed(lines, changes[..|changes| - 1]);
      seq(|before|, i requires 0 <= i < |before| => ChangeLine(before[i], changes[|changes| - 1]))
  }

  /** A counter-discount sets the line it names, or every line. */
  function CounterChanges(lines: seq<OrderLine>, lineId: Option<int>, value: real): seq<LineChange> {
    if Names(lineId) then [LineChange(lineId.value, Some(value), None)]
    else seq(|lines|, i requires 0 <= i < |lines| => LineChange(lines[i].id, Some(value), None))
  }

  /** The changes to existing lines that accepted terms amount to; incomplete terms change nothing. */
  function ChangesOf(lines: seq<OrderLine>, t: Terms): seq<LineChange> {
    match t
    case QtyChange(id, qty) => if Names(id) && qty.Some? then [LineChange(id.value, None, qty)] else []
    case CounterDiscount(id, value) => if value.Some? then CounterChanges(lines, id, value.value) else []
    case RemoveLine(id) => if Names(id) then [LineChange(id.value, None, Some(0.0))] else []
    case AddProduct(_) => []
    case Comment => []
  }

  predicate Adds(t: Terms) { t.AddProduct? && t.productId.Some? }

  /** Adding a product the order system does not know fails. */
  predicate CanApply(t: Terms, m: Market) { Adds(t) ==> t.productId.value in m.catalog }

  function Applied(ls: Lines, t: Terms, m: Market): Lines
    requires CanApply(t, m)
  {
    if Adds(t) then
      Lines(ls.items + [OrderLine(ls.lineSeq + 1, t.productId.value, 1.0, m.catalog[t.productId.value].listPrice, 0.0)],
            ls.lineSeq + 1)
    else Lines(Changed(ls.items, ChangesOf(ls.items, t)), ls.lineSeq)
  }

  class OrderLines {
    var items: seq<OrderLine>
    var lineSeq: int

    ghost function View(): Lines
      reads this
    {
      Lines(items, lineSeq)
    }

    constructor (items: seq<OrderLine>, lineSeq: int)
      ensures View() == Lines(items, lineSeq)
    {
      this.items, this.lineSeq := items, lineSeq;
    }

    method ApplyLineChanges(changes: seq<LineChange>)
      modifies this
      ensures View() == Lines(Changed(old(items), changes), old(lineSeq))
    {
      for k := 0 to |changes|
        invariant View() == Lines(Changed(old(items), changes[..k]), old(lineSeq))
      {
        assert changes[..k + 1][..k] == changes[..k];
        var (before, c) := (items, changes[k]);
        for i := 0 to |before|
          invariant |items| == |before| && lineSeq == old(lineSeq)
          invariant forall j :: 0 <= j < i ==> items[j] == ChangeLine(before[j], c)
          invariant forall j :: i <= j < |before| ==> items[j] == before[j]
        {
          if items[i].id == c.lineId {
            if c.discountPct.Some? {
              items := items[i := items[i].(discountPct := c.discountPct.value)];
            }
            if c.qty.Some? {
              items := items[i := items[i].(qty := c.qty.value)];
            }
          }
        }
      }
      assert changes[..|changes|] == changes;
    }

    method AddLine(productId: int, listPrice: real)
      modifies this
      ensures View() == Lines(old(items) + [OrderLine(old(lineSeq) + 1, productId, 1.0, listPrice, 0.0)], old(lineSeq) + 1)
    {
      lineSeq := lineSeq + 1;
      items := items + [OrderLine(lineSeq, productId, 1.0, listPrice, 0.0)];
    }

    /** Carries out accepted terms on the order. */
    method ApplyTerms(t: Terms, m: Market) returns (ok: bool)
      modifies this
      ensures ok == CanApply(t, m) && View() == if ok then Applied(old(View()), t, m) else old(View())
    {
      if t.AddProduct? && t.productId.Some? {
        if t.productId.value !in m.catalog {
          return false;
        }
        AddLine(t.productId.value, m.catalog[t.productId.value].listPrice);
      } else {
        ApplyLineChanges(ChangesOf(items, t));
      }
      return true;
    }
  }

  /** Changes that all set the same discount set it on exactly the lines they name. */
  lemma {:induction false} ChangedAt(lines: seq<OrderLine>, changes: seq<LineChange>, value: real)
    requires forall c :: c in changes ==> c == LineChange(c.lineId, Some(value), None)
    ensures |Changed(lines, changes)| == |lines|
    ensures forall i :: 0 <= i < |lines| ==>
              Changed(lines, changes)[i] == if exists c :: c in changes && c.lineId == lines[i].id
                                            then lines[i].(discountPct := value) else lines[i]
  {
    if changes != [] {
      var (before, last) := (changes[..|changes| - 1], changes[|changes| - 1]);
      ChangedAt(lines, before, value);
      assert changes == before + [last];
    }
  }

  /** A counter-discount sets this line. */
  predicate Affects(lineId: Option<int>, l: OrderLine) { !Names(lineId) || l.id == lineId.value }

  /** An accepted counter-discount sets its value on every line it affects and changes nothing else. */
  lemma CounterSets(lines: seq<OrderLine>, lineId: Option<int>, value: real)
    ensures var r := Changed(lines, CounterChanges(lines, lineId, value));
            |r| == |lines| && forall i :: 0 <= i < |lines| ==>
                                r[i] == if Affects(lineId, lines[i]) then lines[i].(discountPct := value) else lines[i]
  {
    var changes := CounterChanges(lines, lineId, value);
    ChangedAt(lines, changes, value);
    forall i | 0 <= i < |lines|
      ensures Affects(lineId, lines[i]) <==> exists c :: c in changes && c.lineId == lines[i].id
    {
      if Affects(lineId, lines[i]) {
        var k := if Names(lineId) then 0 else i;
        assert changes[k] == LineChange(lines[i].id, Some(value), None);
      }
    }
  }

  // --- the context of an evaluation ---

  /** Every product of the order is in the catalogue. */
  ghost predicate Known(lines: seq<OrderLine>, m: Market) { forall l :: l in lines ==> l.productId in m.catalog }

  /** Accepted terms bring no product that is not in the catalogue. */
  lemma StillKnown(ls: Lines, t: Terms, m: Market)
    requires Known(ls.items, m) && CanApply(t, m)
    ensures Known(Applied(ls, t, m).items, m)
  {
    if !Adds(t) {
      ChangedProducts(ls.items, ChangesOf(ls.items, t));
      var r := Changed(ls.items, ChangesOf(ls.items, t));
      forall l | l in r ensures l.productId in m.catalog {
        var i :| 0 <= i < |r| && r[i] == l;
        assert ls.items[i] in ls.items;
      }
    }
  }

  /** Changes leave every line its id, product and price. */
  lemma {:induction false} ChangedProducts(lines: seq<OrderLine>, changes: seq<LineChange>)
    ensures |Changed(lines, changes)| == |lines|
    ensures forall i :: 0 <= i < |lines| ==>
              var r := Changed(lines, changes)[i];
              r == lines[i].(qty := r.qty, discountPct := r.discountPct)
    decreases |changes|
  {
    if changes != [] {
      ChangedProducts(lines, changes[..|changes| - 1]);
    }
  }

  function ProductOf(m: Market, productId: int): Product {
    if productId in m.catalog then m.catalog[productId] else Product(0.0, 0.0, false, 0, 0)
  }

  function RuleOf(m: Market, productId: int): Rule { if productId in m.rules then m.rules[productId] else m.fallback }

  /** A line as it is scored: amounts rounded to cents, and short when the main warehouse cannot serve it alone. */
  function Scored(l: OrderLine, m: Market): RiskLine {
    var p := ProductOf(m, l.productId);
    var qty := Round2(l.qty);
    RiskLine(l.id, qty, Round2(l.priceUnit), Round2(l.discountPct), Round2(Times(qty, Round2(p.unitCost))),
             p.stockable, p.onHand, p.stockable && WholeUnits(qty) > p.inMain)
  }

  function ScoredLines(lines: seq<OrderLine>, m: Market): seq<RiskLine> {
    seq(|lines|, i requires 0 <= i < |lines| => Scored(lines[i], m))
  }

  function Ceilings(lines: seq<OrderLine>, m: Market): map<int, real> {
    if lines == [] then map[]
    else
      var last := lines[|lines| - 1];
      Ceilings(lines[..|lines| - 1], m)[last.id := RuleOf(m, last.productId).ceiling]
  }

  /** The margin floor and thresholds are those resolved for the last line. */
  function ParamsOf(lines: seq<OrderLine>, m: Market): Params {
    if lines == [] then DEFAULTS
    else
      var r := RuleOf(m, lines[|lines| - 1].productId);
      DEFAULTS.(minimumMarginPct := r.minimumMarginPct, managerThreshold := r.managerThreshold,
                financeThreshold := r.financeThreshold, singleLineFinancePts := r.singleLineFinancePts)
  }

  function ContextOf(lines: seq<OrderLine>, m: Market, openCounter: bool): Context {
    Context(ScoredLines(lines, m), 0.0, m.tierCeiling, Ceilings(lines, m), openCounter)
  }

  /** Builds the context and resolves the policies, line by line. */
  method BuildContext(lines: seq<OrderLine>, m: Market, openCounter: bool) returns (ctx: Context, p: Params)
    requires Known(lines, m)
    ensures ctx == ContextOf(lines, m, openCounter) && p == ParamsOf(lines, m)
  {
    hide Round2, Times;
    var scored: seq<RiskLine> := [];
    var ceilings: map<int, real> := map[];
    p := DEFAULTS;
    for i := 0 to |lines|
      invariant |scored| == i && forall k :: 0 <= k < i ==> scored[k] == Scored(lines[k], m)
      invariant ceilings == Ceilings(lines[..i], m) && p == ParamsOf(lines[..i], m)
    {
      var l := lines[i];
      assert lines[..i + 1][..i] == lines[..i] && l in lines;
      var product := m.catalog[l.productId];
      var qty := Round2(l.qty);
      var line := RiskLine(l.id, qty, Round2(l.priceUnit), Round2(l.discountPct), Round2(Times(qty, Round2(product.unitCost))),
                           product.stockable, product.onHand, product.stockable && WholeUnits(qty) > product.inMain);
      assert line == Scored(l, m);
      scored := scored + [line];
      var rule := RuleOf(m, l.productId);
      ceilings := ceilings[l.id := rule.ceiling];
      p := p.(minimumMarginPct := rule.minimumMarginPct, managerThreshold := rule.managerThreshold,
              financeThreshold := rule.financeThreshold, singleLineFinancePts := rule.singleLineFinancePts);
    }
    assert lines[..|lines|] == lines;
    ctx := Context(scored, 0.0, m.tierCeiling, ceilings, openCounter);
  }
}
