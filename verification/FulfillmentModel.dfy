/** Orders, warehouses and stock as the multi-warehouse planner sees them. */
module FulfillmentModel {
  import opened Prelude
  import opened Sums
  import opened Sorting

  datatype Line = Line(lineId: int, productId: int, requestedQty: int)

  datatype Warehouse = Warehouse(id: int, costWeight: real, priority: int, active: bool)

  datatype Allocation = Allocation(
    lineId: int, productId: int, warehouseId: Option<int>,
    requestedQty: int, allocatedQty: int, backorderQty: int, shippingCost: real)

  /** One entry of the demand table: total quantity wanted of a product. */
  datatype Need = Need(productId: int, qty: int)

  /** product id -> warehouse id -> quantity on hand */
  type Stock = map<int, map<int, int>>

  /** Missing entries count as zero and negative entries are clamped to zero. */
  function Avail(stock: Stock, wid: int, pid: int): nat {
    Max(0, if pid in stock && wid in stock[pid] then stock[pid][wid] else 0)
  }

  // --- quantities that get summed ---

  function AvailOf(stock: Stock, pid: int): Warehouse -> int { (w: Warehouse) => Avail(stock, w.id, pid) }

  function AvailWithin(stock: Stock, pid: int, ids: set<int>): Warehouse -> int {
    (w: Warehouse) => if w.id in ids then Avail(stock, w.id, pid) else 0
  }

  function CostOf(): Warehouse -> real { (w: Warehouse) => w.costWeight }

  function CostWithin(ids: set<int>): Warehouse -> real {
    (w: Warehouse) => if w.id in ids then w.costWeight else 0.0
  }

  function PriorityOf(): Warehouse -> int { (w: Warehouse) => w.priority }

  function PriorityWithin(ids: set<int>): Warehouse -> int {
    (w: Warehouse) => if w.id in ids then w.priority else 0
  }

  function WantedOf(pid: int): Line -> int { (l: Line) => if l.productId == pid then l.requestedQty else 0 }

  function RequestedOf(lineId: int): Line -> int { (l: Line) => if l.lineId == lineId then l.requestedQty else 0 }

  function TakenOf(wid: int, pid: int): Allocation -> int {
    (a: Allocation) => if a.warehouseId == Some(wid) && a.productId == pid then a.allocatedQty else 0
  }

  function ServedOf(lineId: int): Allocation -> int {
    (a: Allocation) => if a.lineId == lineId then a.allocatedQty + a.backorderQty else 0
  }

  function BackorderedOf(pid: int): Allocation -> int {
    (a: Allocation) => if a.productId == pid then a.backorderQty else 0
  }

  /** Everything the lines want of a product. */
  function Demand(lines: seq<Line>, pid: int): int { SumInt(lines, WantedOf(pid)) }

  /** Everything the warehouses hold of a product. */
  function Supply(ws: seq<Warehouse>, stock: Stock, pid: int): int { SumInt(ws, AvailOf(stock, pid)) }

  /** What the warehouses with an id in ids hold of a product. */
  function SupplyWithin(ws: seq<Warehouse>, ids: set<int>, stock: Stock, pid: int): int {
    SumInt(ws, AvailWithin(stock, pid, ids))
  }

  /** Shipping cost of using the warehouses with an id in ids, once each. */
  function ShippingCost(ws: seq<Warehouse>, ids: set<int>): real { SumReal(ws, CostWithin(ids)) }

  /** The priority numbers of the warehouses with an id in ids, added up. */
  function PrioritySum(ws: seq<Warehouse>, ids: set<int>): int { SumInt(ws, PriorityWithin(ids)) }

  function TotalCost(ws: seq<Warehouse>): real { SumReal(ws, CostOf()) }

  function TotalPriority(ws: seq<Warehouse>): int { SumInt(ws, PriorityOf()) }

  function Ids(ws: seq<Warehouse>): set<int> { set w <- ws :: w.id }

  ghost predicate DistinctIds(ws: seq<Warehouse>) {
    forall i, j :: 0 <= i < j < |ws| ==> ws[i].id != ws[j].id
  }

  function IsActive(): Warehouse -> bool { (w: Warehouse) => w.active }

  function IsWanted(): Line -> bool { (l: Line) => l.requestedQty > 0 }

  function ActiveWarehouses(ws: seq<Warehouse>): seq<Warehouse> { Filter(ws, IsActive()) }

  function ValidLines(lines: seq<Line>): seq<Line> { Filter(lines, IsWanted()) }

  /** The order in which warehouses are drawn from: cheapest shipping first. */
  predicate KeyLe(a: Warehouse, b: Warehouse) {
    || a.costWeight < b.costWeight
    || (a.costWeight == b.costWeight && (a.priority < b.priority || (a.priority == b.priority && a.id <= b.id)))
  }

  function SortByKey(ws: seq<Warehouse>): seq<Warehouse> { Sort(ws, KeyLe) }

  // --- what a choice of warehouses can cover ---

  /** Cheaper, or as cheap with priority numbers that add up to no more. */
  predicate LeadsOrTies(cost: real, priority: int, cost': real, priority': int) {
    cost < cost' || (cost == cost' && priority <= priority')
  }

  /** The warehouses together hold every product in the quantity the lines want. */
  ghost predicate CanCover(ws: seq<Warehouse>, lines: seq<Line>, stock: Stock) {
    forall pid :: Supply(ws, stock, pid) >= Demand(lines, pid)
  }

  /** ids names warehouses from ws that together can cover the lines. */
  ghost predicate CoveringIds(ws: seq<Warehouse>, ids: set<int>, lines: seq<Line>, stock: Stock) {
    && ids <= Ids(ws)
    && forall pid :: SupplyWithin(ws, ids, stock, pid) >= Demand(lines, pid)
  }

  /** needs lists each wanted product once with its total demand. */
  ghost predicate Tallies(needs: seq<Need>, lines: seq<Line>) {
    && (forall i, j :: 0 <= i < j < |needs| ==> needs[i].productId != needs[j].productId)
    && (forall i :: 0 <= i < |needs| ==> needs[i].qty == Demand(lines, needs[i].productId) && needs[i].qty > 0)
    && (forall l :: l in lines ==> exists i :: 0 <= i < |needs| && needs[i].productId == l.productId)
  }

  // --- lemmas ---

  lemma {:induction false} DemandNonNegative(lines: seq<Line>, pid: int)
    requires forall l :: l in lines ==> l.requestedQty > 0
    ensures Demand(lines, pid) >= 0
    ensures (exists l :: l in lines && l.productId == pid) <==> Demand(lines, pid) > 0
  {
    SumIntNonNegative(lines, WantedOf(pid));
    if l :| l in lines && l.productId == pid {
      var i :| 0 <= i < |lines| && lines[i] == l;
      SumIntElement(lines, i, WantedOf(pid));
    }
    if forall l :: l in lines ==> l.productId != pid {
      NoDemand(lines, pid);
    }
  }

  lemma {:induction false} NoDemand(lines: seq<Line>, pid: int)
    requires forall l :: l in lines ==> l.productId != pid
    ensures Demand(lines, pid) == 0
  {
    if lines != [] {
      NoDemand(lines[1..], pid);
    }
  }

  lemma SupplyNonNegative(ws: seq<Warehouse>, stock: Stock, pid: int)
    ensures Supply(ws, stock, pid) >= 0
  {
    SumIntNonNegative(ws, AvailOf(stock, pid));
  }

  /** Checking the demand table is checking every product. */
  lemma CoverByTally(ws: seq<Warehouse>, needs: seq<Need>, lines: seq<Line>, stock: Stock)
    requires Tallies(needs, lines)
    ensures CanCover(ws, lines, stock)
            <==> forall i :: 0 <= i < |needs| ==> Supply(ws, stock, needs[i].productId) >= needs[i].qty
  {
    if forall i :: 0 <= i < |needs| ==> Supply(ws, stock, needs[i].productId) >= needs[i].qty {
      forall pid ensures Supply(ws, stock, pid) >= Demand(lines, pid) {
        SupplyNonNegative(ws, stock, pid);
        if exists l :: l in lines && l.productId == pid {
          var l :| l in lines && l.productId == pid;
          assert exists i :: 0 <= i < |needs| && needs[i].productId == l.productId;
        } else {
          NoDemand(lines, pid);
        }
      }
    }
  }

  lemma KeyLeIsTotal()
    ensures TotalPreorder(KeyLe)
  {
  }

  /** Sorting keeps the warehouses, so nothing that is summed over them changes. */
  lemma SortByKeyKeeps(ws: seq<Warehouse>)
    ensures Sorted(SortByKey(ws), KeyLe)
    ensures multiset(SortByKey(ws)) == multiset(ws)
    ensures forall w :: w in SortByKey(ws) <==> w in ws
    ensures Ids(SortByKey(ws)) == Ids(ws)
    ensures DistinctIds(ws) ==> DistinctIds(SortByKey(ws))
    ensures forall stock, pid :: Supply(SortByKey(ws), stock, pid) == Supply(ws, stock, pid)
  {
    KeyLeIsTotal();
    SortSorted(ws, KeyLe);
    var s := SortByKey(ws);
    SameElements(s, ws);
    forall stock, pid ensures Supply(s, stock, pid) == Supply(ws, stock, pid) {
      SumIntPermutation(s, ws, AvailOf(stock, pid));
    }
    if DistinctIds(ws) {
      DistinctIdsReorder(ws, s);
    }
  }

  lemma SortByKeyKeepsWithin(ws: seq<Warehouse>, ids: set<int>, stock: Stock)
    ensures forall pid :: SupplyWithin(SortByKey(ws), ids, stock, pid) == SupplyWithin(ws, ids, stock, pid)
    ensures ShippingCost(SortByKey(ws), ids) == ShippingCost(ws, ids)
    ensures PrioritySum(SortByKey(ws), ids) == PrioritySum(ws, ids)
  {
    forall pid ensures SupplyWithin(SortByKey(ws), ids, stock, pid) == SupplyWithin(ws, ids, stock, pid) {
      SumIntPermutation(SortByKey(ws), ws, AvailWithin(stock, pid, ids));
    }
    SumRealPermutation(SortByKey(ws), ws, CostWithin(ids));
    SumIntPermutation(SortByKey(ws), ws, PriorityWithin(ids));
  }

  /** Distinct ids means as many ids as warehouses, which no reordering changes. */
  lemma {:induction false} DistinctIdsCount(ws: seq<Warehouse>)
    ensures |Ids(ws)| <= |ws|
    ensures DistinctIds(ws) ==> |Ids(ws)| == |ws|
  {
    if ws != [] {
      DistinctIdsCount(ws[1..]);
      assert ws == [ws[0]] + ws[1..];
      assert Ids(ws) == {ws[0].id} + Ids(ws[1..]);
    }
  }

  lemma {:induction false} CountedIdsAreDistinct(ws: seq<Warehouse>)
    requires |Ids(ws)| == |ws|
    ensures DistinctIds(ws)
  {
    if ws != [] {
      NewIdCounts(ws);
      CountedIdsAreDistinct(ws[1..]);
      forall i, j | 0 <= i < j < |ws| ensures ws[i].id != ws[j].id {
        assert ws[j] == ws[1..][j - 1] && ws[j] in ws[1..];
        assert i > 0 ==> ws[i] == ws[1..][i - 1];
      }
    }
  }

  lemma NewIdCounts(ws: seq<Warehouse>)
    requires ws != [] && |Ids(ws)| == |ws|
    ensures |Ids(ws[1..])| == |ws[1..]| && ws[0].id !in Ids(ws[1..])
  {
    var rest := Ids(ws[1..]);
    assert ws == [ws[0]] + ws[1..];
    assert Ids(ws) == {ws[0].id} + rest;
    DistinctIdsCount(ws[1..]);
    assert ws[0].id in rest ==> Ids(ws) == rest;
  }

  lemma DistinctIdsReorder(a: seq<Warehouse>, b: seq<Warehouse>)
    requires multiset(a) == multiset(b) && DistinctIds(a)
    ensures DistinctIds(b)
  {
    SameElements(a, b);
    assert Ids(a) == Ids(b);
    assert |a| == |multiset(a)| == |multiset(b)| == |b|;
    DistinctIdsCount(a);
    CountedIdsAreDistinct(b);
  }

  lemma {:induction false} FilterKeepsDistinct(ws: seq<Warehouse>, p: Warehouse -> bool)
    requires DistinctIds(ws)
    ensures DistinctIds(Filter(ws, p))
  {
    if ws != [] {
      FilterKeepsDistinct(ws[1..], p);
      forall w | w in Filter(ws[1..], p) ensures w.id != ws[0].id {
        var i :| 0 <= i < |ws[1..]| && ws[1..][i] == w;
        assert ws[i + 1] == w;
      }
    }
  }

  lemma FirstIdIsNew(ws: seq<Warehouse>)
    requires ws != [] && DistinctIds(ws)
    ensures DistinctIds(ws[1..]) && ws[0].id !in Ids(ws[1..]) && Ids(ws) == {ws[0].id} + Ids(ws[1..])
  {
    assert ws == [ws[0]] + ws[1..];
  }

  lemma SameIdSameWarehouse(ws: seq<Warehouse>, s: seq<Warehouse>)
    requires DistinctIds(ws) && forall w :: w in s ==> w in ws
    ensures forall w :: w in ws ==> (w.id in Ids(s) <==> w in s)
  {
    forall w | w in ws && w.id in Ids(s) ensures w in s {
      var v :| v in s && v.id == w.id;
      var i :| 0 <= i < |ws| && ws[i] == w;
      var j :| 0 <= j < |ws| && ws[j] == v;
      assert i == j;
    }
  }

  /** Removing the first of s from ws keeps the rest of s inside the rest of ws. */
  lemma RemoveFirst(ws: seq<Warehouse>, s: seq<Warehouse>) returns (i: nat, rest: seq<Warehouse>)
    requires s != [] && DistinctIds(ws) && DistinctIds(s) && forall w :: w in s ==> w in ws
    ensures i < |ws| && ws[i] == s[0] && rest == ws[..i] + ws[i + 1..]
    ensures DistinctIds(rest) && s[0] !in rest && s[0] !in s[1..]
    ensures forall w :: w in rest <==> w in ws && w != s[0]
    ensures forall w :: w in s[1..] ==> w in rest
  {
    assert s[0] in s;
    i :| 0 <= i < |ws| && ws[i] == s[0];
    rest := ws[..i] + ws[i + 1..];
    forall w | w in ws && w != s[0] ensures w in rest {
      var k :| 0 <= k < |ws| && ws[k] == w;
      assert k < i ==> rest[k] == w;
      assert k > i ==> rest[k - 1] == w;
    }
  }

  /** A quantity that is zero outside s has the same sum over s as over ws. */
  lemma {:induction false} SelectionSumInt(ws: seq<Warehouse>, s: seq<Warehouse>, f: Warehouse -> int)
    requires DistinctIds(ws) && DistinctIds(s) && forall w :: w in s ==> w in ws
    requires forall w :: w in ws && w !in s ==> f(w) == 0
    ensures SumInt(s, f) == SumInt(ws, f)
  {
    if s == [] {
      ZeroSumInt(ws, f);
    } else {
      var i, rest := RemoveFirst(ws, s);
      SumIntWithout(ws, i, f);
      SelectionSumInt(rest, s[1..], f);
    }
  }

  lemma {:induction false} SelectionSumReal(ws: seq<Warehouse>, s: seq<Warehouse>, f: Warehouse -> real)
    requires DistinctIds(ws) && DistinctIds(s) && forall w :: w in s ==> w in ws
    requires forall w :: w in ws && w !in s ==> f(w) == 0.0
    ensures SumReal(s, f) == SumReal(ws, f)
  {
    if s == [] {
      ZeroSumReal(ws, f);
    } else {
      var i, rest := RemoveFirst(ws, s);
      SumRealWithout(ws, i, f);
      SelectionSumReal(rest, s[1..], f);
    }
  }

  /** Warehouses selected from ws stock and cost what ws does at their ids. */
  lemma SelectionTotals(ws: seq<Warehouse>, s: seq<Warehouse>, stock: Stock)
    requires DistinctIds(ws) && DistinctIds(s) && forall w :: w in s ==> w in ws
    ensures forall pid :: Supply(s, stock, pid) == SupplyWithin(ws, Ids(s), stock, pid)
    ensures TotalCost(s) == ShippingCost(ws, Ids(s)) && TotalPriority(s) == PrioritySum(ws, Ids(s))
  {
    SameIdSameWarehouse(ws, s);
    forall pid ensures Supply(s, stock, pid) == SupplyWithin(ws, Ids(s), stock, pid) {
      SumIntSame(s, AvailOf(stock, pid), AvailWithin(stock, pid, Ids(s)));
      SelectionSumInt(ws, s, AvailWithin(stock, pid, Ids(s)));
    }
    SumRealSame(s, CostOf(), CostWithin(Ids(s)));
    SelectionSumReal(ws, s, CostWithin(Ids(s)));
    SumIntSame(s, PriorityOf(), PriorityWithin(Ids(s)));
    SelectionSumInt(ws, s, PriorityWithin(Ids(s)));
  }
}
