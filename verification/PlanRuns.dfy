/** What every run of plan operations keeps, and what applying a plan ships. */
module PlanRuns {
  import opened Prelude
  import opened Sums
  import opened FulfillmentModel
  import opened FulfillmentFill
  import P = FulfillmentPlanner
  import A = ApprovalModel
  import opened PlanModel

  datatype Event =
    | PlanProposed(result: P.Plan)
    | PlanAccepted(k: nat)
    | PlanOverridden(k: nat, items: seq<Manual>, hasReason: bool, products: map<int, int>, profiles: seq<Warehouse>)
    | PlanApplied(k: nat)
    | DealMoved(status: A.DealStatus)

  function Step(d: Desk, e: Event): Desk {
    match e
    case PlanProposed(result) => Propose(d, result)
    case PlanAccepted(k) => Accept(d, k)
    case PlanOverridden(k, items, hasReason, products, profiles) => Override(d, k, items, hasReason, products, profiles)
    case PlanApplied(k) => ApplyPlan(d, k)
    case DealMoved(status) => d.(dealStatus := status)
  }

  function Run(d: Desk, events: seq<Event>): Desk
    decreases |events|
  {
    if events == [] then d else Step(Run(d, events[..|events| - 1]), events[|events| - 1])
  }

  // --- pickings ---

  /** All the positive warehouse ids that the items leave from. */
  function Sources(items: seq<Allocation>): set<int> { set a <- items | HasWarehouse(a) :: a.warehouseId.value }

  lemma {:induction false} WarehousesOfExactly(items: seq<Allocation>)
    ensures forall i, j :: 0 <= i < j < |WarehousesOf(items)| ==> WarehousesOf(items)[i] != WarehousesOf(items)[j]
    ensures forall w :: w in WarehousesOf(items) <==> w in Sources(items)
    decreases |items|
  {
    if items != [] {
      var (before, a) := (items[..|items| - 1], items[|items| - 1]);
      WarehousesOfExactly(before);
      assert items == before + [a];
      assert Sources(items) == Sources(before) + if HasWarehouse(a) then {a.warehouseId.value} else {};
    }
  }

  lemma {:induction false} DistinctCount(s: seq<int>, t: set<int>)
    requires forall i, j :: 0 <= i < j < |s| ==> s[i] != s[j]
    requires forall w :: w in s <==> w in t
    ensures |s| == |t|
  {
    if s == [] {
      assert forall w :: w !in t;
    } else {
      assert s == [s[0]] + s[1..];
      DistinctCount(s[1..], t - {s[0]});
    }
  }

  lemma PayloadSources(r: Row)
    ensures Sources(Payload(r)) == ShipsFrom(r.lines)
  {
  }

  /** Applying creates one picking for each warehouse that ships something. */
  lemma PickingCount(r: Row)
    ensures |WarehousesOf(Payload(r))| == |ShipsFrom(r.lines)|
  {
    WarehousesOfExactly(Payload(r));
    PayloadSources(r);
    DistinctCount(WarehousesOf(Payload(r)), ShipsFrom(r.lines));
  }

  /** New pickings have consecutive ids, one per warehouse, and carry that warehouse's allocations in order. */
  lemma {:induction false} PickAllPickings(d: Depot, ws: seq<int>, items: seq<Allocation>)
    ensures PickAll(d, ws, items).pickingSeq == d.pickingSeq + |ws|
    ensures PickAll(d, ws, items).pickings
            == d.pickings + seq(|ws|, i requires 0 <= i < |ws| =>
                                        Picking(d.pickingSeq + 1 + i, ws[i], Filter(items, FromWarehouse(ws[i]))))
    decreases |ws|
  {
    if ws != [] {
      PickAllPickings(d, ws[..|ws| - 1], items);
    }
  }

  // --- the rows ---

  /** No two proposals are open at once. */
  ghost predicate OneProposed(d: Desk) {
    forall i, j :: 0 <= i < |d.rows| && 0 <= j < |d.rows| && d.rows[i].status.Proposed? && d.rows[j].status.Proposed? ==> i == j
  }

  /** Some line ships from a warehouse with id 0. */
  predicate UsesZero(lines: seq<Allocation>) { exists a :: a in lines && a.warehouseId == Some(0) && a.allocatedQty > 0 }

  /** Every line splits its request; the shipment count is the number of warehouses that ship, and one more in a computed
      plan that ships from a warehouse with id 0; and an applied plan has a picking for each warehouse that ships. */
  ghost predicate RowFits(r: Row) {
    && (forall a :: a in r.lines ==> a.allocatedQty + a.backorderQty == a.requestedQty)
    && r.shipments == |ShipsFrom(r.lines)| + (if !r.manual && UsesZero(r.lines) then 1 else 0)
    && (r.status.Applied? ==> |r.pickingIds| == |ShipsFrom(r.lines)|)
  }

  ghost predicate Kept(d: Desk) { OneProposed(d) && forall r :: r in d.rows ==> RowFits(r) }

  /** The result is one the planner can compute, for some lines, warehouses and stock. */
  ghost predicate Computed(result: P.Plan, active: seq<Warehouse>, valid: seq<Line>, stock: Stock) {
    P.PlanFits(result, active, valid, stock)
  }

  /** The lines of a computed plan: allocations ship from a warehouse, backorders do not. */
  lemma ComputedLines(allocs: seq<Allocation>, backs: seq<Allocation>)
    requires forall a :: a in allocs ==> a.allocatedQty == a.requestedQty > 0 && a.backorderQty == 0 && a.warehouseId.Some?
    requires forall b :: b in backs ==> IsBackorder(b)
    ensures forall a :: a in allocs + backs ==> a.allocatedQty + a.backorderQty == a.requestedQty && a.allocatedQty >= 0
    ensures ShipsFrom(allocs + backs) == UsedIds(allocs) - {0}
    ensures UsesZero(allocs + backs) <==> 0 in UsedIds(allocs)
  {
    var lines := allocs + backs;
    forall a | a in lines
      ensures a.allocatedQty + a.backorderQty == a.requestedQty && a.allocatedQty >= 0
      ensures a.allocatedQty > 0 ==> a in allocs && a.warehouseId.Some?
    {
      assert a in allocs || a in backs;
    }
    forall w ensures w in ShipsFrom(lines) <==> w in UsedIds(allocs) && w != 0 {
      if a :| a in allocs && a.warehouseId == Some(w) && w != 0 {
        assert a in lines && HasWarehouse(a) && a.allocatedQty > 0;
      }
    }
    if a :| a in allocs && a.warehouseId == Some(0) {
      assert a in lines;
    }
  }

  function RowFor(result: P.Plan, status: PlanStatus): Row {
    Row(status, false, result.shipments, result.shippingCost, result.allocations + result.backorders, [])
  }

  /** A computed plan counts the warehouses its lines ship from. */
  lemma ComputedRowFits(result: P.Plan, active: seq<Warehouse>, valid: seq<Line>, stock: Stock)
    requires Computed(result, active, valid, stock)
    ensures var r := RowFor(result, Proposed);
            && RowFits(r) && (UsesZero(r.lines) <==> 0 in result.used)
            && ShipsFrom(r.lines) == result.used - {0} && result.shipments == |result.used|
            && forall a :: a in r.lines ==> a.allocatedQty >= 0
  {
    ComputedShape(result, active, valid, stock);
    ComputedLines(result.allocations, result.backorders);
    CountWithZero(result.used);
    hide SumInt, ShipsFrom, UsedIds, UsesZero, Computed;
  }

  lemma ComputedShape(result: P.Plan, active: seq<Warehouse>, valid: seq<Line>, stock: Stock)
    requires Computed(result, active, valid, stock)
    ensures forall a :: a in result.allocations ==>
                          a.allocatedQty == a.requestedQty > 0 && a.backorderQty == 0 && a.warehouseId.Some?
    ensures forall b :: b in result.backorders ==> IsBackorder(b)
    ensures result.used == UsedIds(result.allocations) && result.shipments == |result.used|
  {
    hide SumInt, UsedIds, SharesExactly, BackordersExactly, ServesExactly, Backordered;
  }

  lemma CountWithZero(used: set<int>)
    ensures |used| == |used - {0}| + if 0 in used then 1 else 0
  {
    assert used == (used - {0}) + (if 0 in used then {0} else {});
  }

  lemma {:induction false} ManualLinesFit(items: seq<Manual>, products: map<int, int>, profiles: seq<Warehouse>)
    requires NamesLines(items, products)
    ensures forall a :: a in ManualLines(items, products, profiles) ==>
                          a.allocatedQty + a.backorderQty == a.requestedQty > 0
    decreases |items|
  {
    if items != [] {
      ManualLinesFit(items[..|items| - 1], products, profiles);
    }
  }

  ghost predicate EventFits(e: Event) {
    e.PlanProposed? ==> exists active, valid, stock :: Computed(e.result, active, valid, stock)
  }

  lemma ProposeKeeps(d: Desk, result: P.Plan)
    requires Kept(d) && RowFits(RowFor(result, Proposed))
    ensures Kept(Propose(d, result))
  {
    hide RowFits;
    var s := SupersedeRows(d.rows);
    forall r | r in s ensures RowFits(r) {
      var i :| 0 <= i < |s| && s[i] == r;
      assert d.rows[i] in d.rows;
      SupersededFits(d.rows[i]);
    }
  }

  lemma SupersededFits(r: Row)
    requires RowFits(r)
    ensures RowFits(SupersedeRow(r))
  {
  }

  /** Replacing one row by a fitting one that is not proposed keeps the table. */
  lemma ReplaceKeeps(d: Desk, k: nat, r: Row)
    requires Kept(d) && k < |d.rows| && RowFits(r) && !r.status.Proposed?
    ensures Kept(d.(rows := d.rows[k := r]))
  {
    hide RowFits;
  }

  lemma StepKeeps(d: Desk, e: Event)
    requires Kept(d) && EventFits(e)
    ensures Kept(Step(d, e))
  {
    match e
    case PlanProposed(result) =>
      var active, valid, stock :| Computed(result, active, valid, stock);
      ComputedRowFits(result, active, valid, stock);
      ProposeKeeps(d, result);
    case PlanAccepted(k) =>
      if AcceptError(d, k).None? {
        assert d.rows[k] in d.rows;
        ReplaceKeeps(d, k, d.rows[k].(status := Accepted));
      }
    case PlanOverridden(k, items, hasReason, products, profiles) =>
      if OverrideError(d, k, items, hasReason, products).None? {
        ManualLinesFit(items, products, profiles);
        ReplaceKeeps(d, k, Override(d, k, items, hasReason, products, profiles).rows[k]);
      }
    case PlanApplied(k) =>
      if ApplyError(d, k).None? {
        assert d.rows[k] in d.rows;
        PickingCount(d.rows[k]);
        ReplaceKeeps(d, k, ApplyPlan(d, k).rows[k]);
      }
    case DealMoved(_) =>
  }

  /** Over every run at most one plan is proposed and every stored plan fits. */
  lemma {:induction false} RunKeeps(d: Desk, events: seq<Event>)
    requires Kept(d) && forall e :: e in events ==> EventFits(e)
    ensures Kept(Run(d, events))
    decreases |events|
  {
    if events != [] {
      RunKeeps(d, events[..|events| - 1]);
      StepKeeps(Run(d, events[..|events| - 1]), events[|events| - 1]);
    }
  }

  lemma StepKeepsApplied(d: Desk, e: Event, k: nat)
    requires k < |d.rows| && d.rows[k].status.Applied?
    ensures k < |Step(d, e).rows| && Step(d, e).rows[k] == d.rows[k]
  {
    hide ManualLines, PickAll, Payload, WarehousesOf, NamesLines;
  }

  /** Applied is final: no later event touches the plan. */
  lemma {:induction false} AppliedIsFinal(d: Desk, events: seq<Event>, k: nat)
    requires k < |d.rows| && d.rows[k].status.Applied?
    ensures k < |Run(d, events).rows| && Run(d, events).rows[k] == d.rows[k]
    decreases |events|
  {
    if events != [] {
      AppliedIsFinal(d, events[..|events| - 1], k);
      StepKeepsApplied(Run(d, events[..|events| - 1]), events[|events| - 1], k);
      hide Step;
    }
  }

  /** Each applied plan of any run created exactly its estimated number of pickings if and only if it is manual or ships
      from no warehouse numbered 0, which the order system takes for none. */
  lemma AppliedShipsExactly(d: Desk, events: seq<Event>, k: nat)
    requires d.rows == [] && (forall e :: e in events ==> EventFits(e))
    requires k < |Run(d, events).rows| && Run(d, events).rows[k].status.Applied?
    ensures var r := Run(d, events).rows[k];
            |r.pickingIds| == r.shipments <==> r.manual || !UsesZero(r.lines)
  {
    RunKeeps(d, events);
    assert Run(d, events).rows[k] in Run(d, events).rows;
  }

  /** For a computed plan that is exact: it creates as many pickings as estimated if and only if it does not ship from a
      warehouse numbered 0. */
  lemma ComputedShipsExactly(result: P.Plan, active: seq<Warehouse>, valid: seq<Line>, stock: Stock)
    requires Computed(result, active, valid, stock)
    ensures var r := RowFor(result, Accepted);
            |WarehousesOf(Payload(r))| == result.shipments <==> 0 !in result.used
  {
    ComputedRowFits(result, active, valid, stock);
    PickingCount(RowFor(result, Accepted));
    assert 0 !in result.used ==> result.used - {0} == result.used;
  }

  // --- stock ---

  function OnHand(stock: Stock, pid: int, wid: int): int {
    if pid in stock && wid in stock[pid] then stock[pid][wid] else 0
  }

  predicate Listed(stock: Stock, pid: int, wid: int) { pid in stock && wid in stock[pid] }

  /** Deducting positive quantities from one warehouse lowers each product there by its total, but not below zero,
      and touches nothing else. */
  lemma {:induction false} DeductAllEffect(stock: Stock, items: seq<Allocation>, wid: int, pid: int, w: int)
    requires forall a :: a in items ==> a.warehouseId == Some(wid) && a.allocatedQty > 0
    ensures var (e, taken) := (DeductAll(stock, items), Taken(items, w, pid));
            && taken >= 0 && Listed(e, pid, w) == Listed(stock, pid, w)
            && (w != wid ==> OnHand(e, pid, w) == OnHand(stock, pid, w) && taken == 0)
            && (Listed(stock, pid, w) ==>
                  OnHand(e, pid, w) == if taken == 0 then OnHand(stock, pid, w) else Max(0, OnHand(stock, pid, w) - taken))
    decreases |items|
  {
    if items != [] {
      var (before, a) := (items[..|items| - 1], items[|items| - 1]);
      DeductAllEffect(stock, before, wid, pid, w);
      assert items == before + [a];
      SumIntAppend(before, a, TakenOf(w, pid));
      hide SumInt;
    }
  }

  lemma {:induction false} TakenFromGroup(items: seq<Allocation>, wid: int, pid: int)
    ensures Taken(Filter(items, FromWarehouse(wid)), wid, pid) == Taken(items, wid, pid)
  {
    if items != [] {
      TakenFromGroup(items[1..], wid, pid);
    }
  }

  lemma {:induction false} TakenFromOther(items: seq<Allocation>, wid: int, w: int, pid: int)
    requires w != wid
    ensures Taken(Filter(items, FromWarehouse(wid)), w, pid) == 0
  {
    ZeroSumInt(Filter(items, FromWarehouse(wid)), TakenOf(w, pid));
  }

  /** Over all pickings: every warehouse among ws gives what the items take from it. */
  lemma {:induction false} PickAllStock(d: Depot, ws: seq<int>, items: seq<Allocation>, pid: int, w: int)
    requires forall a :: a in items ==> a.allocatedQty > 0
    requires forall i, j :: 0 <= i < j < |ws| ==> ws[i] != ws[j]
    ensures var (e, taken) := (PickAll(d, ws, items).stock, if w in ws then Taken(items, w, pid) else 0);
            && taken >= 0 && Listed(e, pid, w) == Listed(d.stock, pid, w)
            && (Listed(d.stock, pid, w) ==>
                  OnHand(e, pid, w) == if taken == 0 then OnHand(d.stock, pid, w) else Max(0, OnHand(d.stock, pid, w) - taken))
    decreases |ws|
  {
    if ws != [] {
      var (before, wid) := (ws[..|ws| - 1], ws[|ws| - 1]);
      PickAllStock(d, before, items, pid, w);
      assert ws == before + [wid];
      DeductAllEffect(PickAll(d, before, items).stock, Filter(items, FromWarehouse(wid)), wid, pid, w);
      if w == wid {
        TakenFromGroup(items, wid, pid);
      } else {
        TakenFromOther(items, wid, w, pid);
      }
      hide SumInt, DeductAll, Filter;
    }
  }

  lemma {:induction false} PayloadKeepsTaken(lines: seq<Allocation>, wid: int, pid: int)
    requires forall a :: a in lines ==> a.allocatedQty >= 0
    ensures Taken(Filter(lines, IsShippable()), wid, pid) == Taken(lines, wid, pid)
  {
    if lines != [] {
      PayloadKeepsTaken(lines[1..], wid, pid);
    }
  }

  lemma {:induction false} BackordersTakeNothing(backs: seq<Allocation>, wid: int, pid: int)
    requires forall b :: b in backs ==> IsBackorder(b)
    ensures Taken(backs, wid, pid) == 0
  {
    ZeroSumInt(backs, TakenOf(wid, pid));
  }

  lemma NotASource(items: seq<Allocation>, w: int, pid: int)
    requires w != 0 && w !in Sources(items)
    ensures Taken(items, w, pid) == 0
  {
    forall a | a in items ensures TakenOf(w, pid)(a) == 0 {
      assert a.warehouseId == Some(w) ==> HasWarehouse(a) && w in Sources(items);
    }
    ZeroSumInt(items, TakenOf(w, pid));
  }

  /** What a computed plan's payload takes from a warehouse is what its allocations take there. */
  lemma PayloadTakes(result: P.Plan, active: seq<Warehouse>, valid: seq<Line>, stock: Stock, pid: int, w: int)
    requires Computed(result, active, valid, stock)
    ensures Taken(Payload(RowFor(result, Accepted)), w, pid) == Taken(result.allocations, w, pid)
  {
    ComputedRowFits(result, active, valid, stock);
    PayloadKeepsTaken(result.allocations + result.backorders, w, pid);
    BackordersTakeNothing(result.backorders, w, pid);
    SumIntConcat(result.allocations, result.backorders, TakenOf(w, pid));
  }

  /** No warehouse is asked for more than it has available. */
  lemma TakenFits(result: P.Plan, active: seq<Warehouse>, valid: seq<Line>, stock: Stock, pid: int, w: int)
    requires Computed(result, active, valid, stock) && w in Ids(result.chosen)
    ensures Taken(result.allocations, w, pid) <= Avail(stock, w, pid)
  {
    hide SumInt;
    var j :| 0 <= j < |result.chosen| && result.chosen[j].id == w;
    assert Taken(result.allocations, w, pid) == Share(result.chosen, stock, pid, Demand(valid, pid), j);
  }

  lemma PayloadPositive(r: Row)
    ensures forall a :: a in Payload(r) ==> a.allocatedQty > 0
  {
  }

  /** Applying a computed plan to the stock it was computed from takes from each warehouse exactly what the plan
      allocates there: the clamp at zero never hides a shortage. */
  lemma ComputedPlanShipsItsStock(d: Depot, result: P.Plan, active: seq<Warehouse>, valid: seq<Line>, pid: int, w: int)
    requires Computed(result, active, valid, d.stock) && w in Ids(result.chosen) && w != 0
    ensures var items := Payload(RowFor(result, Accepted));
            OnHand(PickAll(d, WarehousesOf(items), items).stock, pid, w)
            == OnHand(d.stock, pid, w) - Taken(result.allocations, w, pid)
  {
    var items := Payload(RowFor(result, Accepted));
    hide *;
    PayloadPositive(RowFor(result, Accepted));
    PayloadTakes(result, active, valid, d.stock, pid, w);
    TakenFits(result, active, valid, d.stock, pid, w);
    PickAllTakes(d, items, pid, w);
    Unclamped(d.stock, PickAll(d, WarehousesOf(items), items).stock, Taken(items, w, pid), pid, w);
  }

  /** Pickings for all warehouses of the items take, at each warehouse but number 0, what the items take. */
  lemma PickAllTakes(d: Depot, items: seq<Allocation>, pid: int, w: int)
    requires w != 0 && forall a :: a in items ==> a.allocatedQty > 0
    ensures var (e, taken) := (PickAll(d, WarehousesOf(items), items).stock, Taken(items, w, pid));
            && taken >= 0 && Listed(e, pid, w) == Listed(d.stock, pid, w)
            && (Listed(d.stock, pid, w) ==>
                  OnHand(e, pid, w) == if taken == 0 then OnHand(d.stock, pid, w) else Max(0, OnHand(d.stock, pid, w) - taken))
  {
    hide *;
    WarehousesOfExactly(items);
    if w !in Sources(items) {
      NotASource(items, w, pid);
    }
    PickAllStock(d, WarehousesOf(items), items, pid, w);
  }

  lemma Unclamped(before: Stock, after: Stock, taken: int, pid: int, w: int)
    requires 0 <= taken <= Avail(before, w, pid) && Listed(after, pid, w) == Listed(before, pid, w)
    requires Listed(before, pid, w) ==>
               OnHand(after, pid, w) == if taken == 0 then OnHand(before, pid, w) else Max(0, OnHand(before, pid, w) - taken)
    ensures OnHand(after, pid, w) == OnHand(before, pid, w) - taken
  {
  }
}
