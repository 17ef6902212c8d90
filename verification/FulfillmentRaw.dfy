/** The planner's promises on its raw arguments: all lines and all warehouses, active or not, wanted or not. */
module FulfillmentRaw {
  import opened Prelude
  import opened Sums
  import opened FulfillmentModel
  import opened FulfillmentFill

  /** Stock on hand; missing entries and negative ones are none. */
  function Held(stock: map<int, map<int, int>>, wid: int, pid: int): int {
    if pid in stock && wid in stock[pid] && stock[pid][wid] > 0 then stock[pid][wid] else 0
  }

  /** What the lines with a positive quantity want of a product. */
  function Wanted(lines: seq<Line>, pid: int): int {
    if lines == [] then 0
    else (if lines[0].productId == pid && lines[0].requestedQty > 0 then lines[0].requestedQty else 0) + Wanted(lines[1..], pid)
  }

  /** What they want under one line id. */
  function WantedBy(lines: seq<Line>, lineId: int): int {
    if lines == [] then 0
    else (if lines[0].lineId == lineId && lines[0].requestedQty > 0 then lines[0].requestedQty else 0) + WantedBy(lines[1..], lineId)
  }

  /** What the active warehouses hold of a product. */
  function HeldActive(ws: seq<Warehouse>, stock: Stock, pid: int): int {
    if ws == [] then 0
    else (if ws[0].active then Held(stock, ws[0].id, pid) else 0) + HeldActive(ws[1..], stock, pid)
  }

  /** What the active warehouses with an id in ids hold of a product. */
  function HeldWithin(ws: seq<Warehouse>, ids: set<int>, stock: Stock, pid: int): int {
    if ws == [] then 0
    else (if ws[0].active && ws[0].id in ids then Held(stock, ws[0].id, pid) else 0) + HeldWithin(ws[1..], ids, stock, pid)
  }

  /** Their cost weights and priority numbers, added up. */
  function CostOver(ws: seq<Warehouse>, ids: set<int>): real {
    if ws == [] then 0.0
    else (if ws[0].active && ws[0].id in ids then ws[0].costWeight else 0.0) + CostOver(ws[1..], ids)
  }

  function PriorityOver(ws: seq<Warehouse>, ids: set<int>): int {
    if ws == [] then 0
    else (if ws[0].active && ws[0].id in ids then ws[0].priority else 0) + PriorityOver(ws[1..], ids)
  }

  ghost predicate IsActiveId(ws: seq<Warehouse>, id: int) { exists w :: w in ws && w.active && w.id == id }

  /** ids names active warehouses that together hold all that is wanted. */
  ghost predicate Covers(ws: seq<Warehouse>, ids: set<int>, lines: seq<Line>, stock: Stock) {
    && (forall i :: i in ids ==> IsActiveId(ws, i))
    && forall pid :: HeldWithin(ws, ids, stock, pid) >= Wanted(lines, pid)
  }

  /** One warehouse holds all that is wanted. */
  ghost predicate CoversAlone(w: Warehouse, lines: seq<Line>, stock: Stock) {
    forall pid :: Held(stock, w.id, pid) >= Wanted(lines, pid)
  }

  predicate SomethingWanted(lines: seq<Line>) { exists l :: l in lines && l.requestedQty > 0 }

  ghost predicate SomeActive(ws: seq<Warehouse>) { exists w :: w in ws && w.active }

  /** What allocations ship, or backorders leave open, of a product. */
  function BackorderedTotal(backs: seq<Allocation>, pid: int): int {
    if backs == [] then 0
    else (if backs[0].productId == pid then backs[0].backorderQty else 0) + BackorderedTotal(backs[1..], pid)
  }

  function ServedTotal(allocs: seq<Allocation>, lineId: int): int {
    if allocs == [] then 0
    else (if allocs[0].lineId == lineId then allocs[0].allocatedQty + allocs[0].backorderQty else 0)
         + ServedTotal(allocs[1..], lineId)
  }

  function TakenTotal(allocs: seq<Allocation>, wid: int, pid: int): int {
    if allocs == [] then 0
    else (if allocs[0].warehouseId == Some(wid) && allocs[0].productId == pid then allocs[0].allocatedQty else 0)
         + TakenTotal(allocs[1..], wid, pid)
  }

  /** Every allocation ships a positive quantity for a wanted line from an active warehouse, at that warehouse's weight. */
  ghost predicate ShipsSoundly(allocs: seq<Allocation>, lines: seq<Line>, ws: seq<Warehouse>) {
    forall a :: a in allocs ==>
      && a.allocatedQty == a.requestedQty > 0 && a.backorderQty == 0
      && (exists l :: l in lines && l.requestedQty > 0 && l.lineId == a.lineId && l.productId == a.productId)
      && (exists w :: w in ws && w.active && a.warehouseId == Some(w.id) && a.shippingCost == w.costWeight)
  }

  /** Cheapest first, then lower priority number, then lower id. */
  ghost predicate InShippingOrder(chosen: seq<Warehouse>) {
    forall i, j :: 0 <= i < j < |chosen| ==>
      || chosen[i].costWeight < chosen[j].costWeight
      || (chosen[i].costWeight == chosen[j].costWeight
          && (chosen[i].priority < chosen[j].priority
              || (chosen[i].priority == chosen[j].priority && chosen[i].id <= chosen[j].id)))
  }

  // --- the raw quantities are those of the active warehouses and the valid lines ---

  lemma {:induction false} WantedIsDemand(lines: seq<Line>, pid: int)
    ensures Demand(ValidLines(lines), pid) == Wanted(lines, pid)
  {
    if lines != [] {
      WantedIsDemand(lines[1..], pid);
    }
  }

  lemma {:induction false} WantedByIsRequested(lines: seq<Line>, lineId: int)
    ensures Requested(ValidLines(lines), lineId) == WantedBy(lines, lineId)
  {
    if lines != [] {
      WantedByIsRequested(lines[1..], lineId);
    }
  }

  lemma {:induction false} HeldIsSupply(ws: seq<Warehouse>, stock: Stock, pid: int)
    ensures Supply(ActiveWarehouses(ws), stock, pid) == HeldActive(ws, stock, pid)
  {
    if ws != [] {
      HeldIsSupply(ws[1..], stock, pid);
    }
  }

  lemma {:induction false} WithinIsSupply(ws: seq<Warehouse>, ids: set<int>, stock: Stock, pid: int)
    ensures SupplyWithin(ActiveWarehouses(ws), ids, stock, pid) == HeldWithin(ws, ids, stock, pid)
  {
    if ws != [] {
      WithinIsSupply(ws[1..], ids, stock, pid);
    }
  }

  lemma {:induction false} OverIsCost(ws: seq<Warehouse>, ids: set<int>)
    ensures ShippingCost(ActiveWarehouses(ws), ids) == CostOver(ws, ids)
    ensures PrioritySum(ActiveWarehouses(ws), ids) == PriorityOver(ws, ids)
  {
    if ws != [] {
      OverIsCost(ws[1..], ids);
    }
  }

  lemma {:induction false} TotalsAreSums(allocs: seq<Allocation>, lineId: int, wid: int, pid: int)
    ensures Backordered(allocs, pid) == BackorderedTotal(allocs, pid)
    ensures Served(allocs, lineId) == ServedTotal(allocs, lineId)
    ensures Taken(allocs, wid, pid) == TakenTotal(allocs, wid, pid)
  {
    if allocs != [] {
      TotalsAreSums(allocs[1..], lineId, wid, pid);
    }
  }

  lemma CoversIsCovering(ws: seq<Warehouse>, ids: set<int>, lines: seq<Line>, stock: Stock)
    ensures CoveringIds(ActiveWarehouses(ws), ids, ValidLines(lines), stock) <==> Covers(ws, ids, lines, stock)
  {
    forall pid
      ensures SupplyWithin(ActiveWarehouses(ws), ids, stock, pid) == HeldWithin(ws, ids, stock, pid)
      ensures Demand(ValidLines(lines), pid) == Wanted(lines, pid)
    {
      WithinIsSupply(ws, ids, stock, pid);
      WantedIsDemand(lines, pid);
    }
    ActiveIds(ws, ids);
    hide SupplyWithin, Demand, HeldWithin, Wanted, Filter, Ids, IsActiveId;
  }

  lemma ActiveIds(ws: seq<Warehouse>, ids: set<int>)
    ensures ids <= Ids(ActiveWarehouses(ws)) <==> forall i :: i in ids ==> IsActiveId(ws, i)
  {
    var active := Ids(ActiveWarehouses(ws));
    forall i ensures i in active <==> IsActiveId(ws, i) {
      if i in active {
        var w :| w in ActiveWarehouses(ws) && w.id == i;
        assert w in ws && w.active;
      }
      if IsActiveId(ws, i) {
        var w :| w in ws && w.active && w.id == i;
        assert w in ActiveWarehouses(ws);
      }
    }
    if forall i :: i in ids ==> IsActiveId(ws, i) {
      assert forall i :: i in ids ==> i in active;
    }
  }

  /** How many warehouses are active. */
  function ActiveCount(ws: seq<Warehouse>): nat {
    if ws == [] then 0 else (if ws[0].active then 1 else 0) + ActiveCount(ws[1..])
  }

  lemma {:induction false} CountIsLength(ws: seq<Warehouse>)
    ensures |ActiveWarehouses(ws)| == ActiveCount(ws)
    ensures ActiveWarehouses(ws) != [] <==> SomeActive(ws)
  {
    if ws != [] {
      CountIsLength(ws[1..]);
    }
    assert ActiveWarehouses(ws) != [] ==> ActiveWarehouses(ws)[0] in ws;
  }

  lemma WantedIsValid(lines: seq<Line>)
    ensures ValidLines(lines) != [] <==> SomethingWanted(lines)
  {
    assert ValidLines(lines) != [] ==> ValidLines(lines)[0] in lines;
    if l :| l in lines && l.requestedQty > 0 {
      assert l in ValidLines(lines);
    }
  }

  lemma AloneIsCover(w: Warehouse, lines: seq<Line>, stock: Stock)
    ensures CanCover([w], ValidLines(lines), stock) <==> CoversAlone(w, lines, stock)
  {
    forall pid
      ensures Supply([w], stock, pid) == Held(stock, w.id, pid) && Demand(ValidLines(lines), pid) == Wanted(lines, pid)
    {
      SumIntSingle(w, AvailOf(stock, pid));
      WantedIsDemand(lines, pid);
    }
  }
}
