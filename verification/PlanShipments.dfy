/** What applied plans ship over a run: how well, how much of each order line, and from where. */
module PlanShipments {
  import opened Prelude
  import opened Sums
  import opened FulfillmentModel
  import opened FulfillmentFill
  import P = FulfillmentPlanner
  import A = ApprovalModel
  import opened PlanModel
  import opened PlanRuns

  // --- stored plans stay optimal ---

  /** The stored plan ships everything, from as few warehouses as can cover the lines, as cheaply as so many can. */
  ghost predicate RowOptimal(r: Row, active: seq<Warehouse>, lines: seq<Line>, stock: Stock) {
    && (forall a :: a in r.lines ==> a.backorderQty == 0)
    && (forall ids :: CoveringIds(active, ids, lines, stock) ==> r.shipments <= |ids|)
    && (forall ids :: CoveringIds(active, ids, lines, stock) && |ids| == r.shipments ==>
                        r.shippingCost <= ShippingCost(active, ids))
  }

  /** The plan's contents, as opposed to its status. */
  predicate SameContents(r: Row, s: Row) {
    r.manual == s.manual && r.shipments == s.shipments && r.shippingCost == s.shippingCost && r.lines == s.lines
  }

  lemma StepKeepsContents(d: Desk, e: Event, k: nat)
    requires k < |d.rows| && !(e.PlanOverridden? && e.k == k)
    ensures k < |Step(d, e).rows| && SameContents(Step(d, e).rows[k], d.rows[k])
  {
    hide ManualLines, PickAll, Payload, WarehousesOf, NamesLines;
  }

  /** Only an override changes what a stored plan says. */
  lemma {:induction false} ContentsStay(d: Desk, events: seq<Event>, k: nat)
    requires k < |d.rows| && forall e :: e in events ==> !(e.PlanOverridden? && e.k == k)
    ensures k < |Run(d, events).rows| && SameContents(Run(d, events).rows[k], d.rows[k])
    decreases |events|
  {
    if events != [] {
      ContentsStay(d, events[..|events| - 1], k);
      StepKeepsContents(Run(d, events[..|events| - 1]), events[|events| - 1], k);
      hide Step;
    }
  }

  /** A computed plan that was optimal for its stock is stored so and stays so over every run that does not override it. */
  lemma ProposalStaysOptimal(d: Desk, result: P.Plan, active: seq<Warehouse>, valid: seq<Line>, stock: Stock, events: seq<Event>)
    requires Computed(result, active, valid, stock) && P.OptimalShipping(result, active, valid, stock)
    requires forall e :: e in events ==> !(e.PlanOverridden? && e.k == |d.rows|)
    ensures var (k, rows) := (|d.rows|, Run(Propose(d, result), events).rows);
            k < |rows| && !rows[k].manual && RowOptimal(rows[k], active, valid, stock)
  {
    ComputedShape(result, active, valid, stock);
    hide Run, CoveringIds;
    assert Propose(d, result).rows[|d.rows|] == RowFor(result, Proposed);
    ContentsStay(Propose(d, result), events, |d.rows|);
  }

  // --- how much of a line is shipped ---

  function QtyFor(lineId: int): Allocation -> int { (a: Allocation) => if a.lineId == lineId then a.allocatedQty else 0 }

  function PickedFor(lineId: int): Picking -> int { (p: Picking) => SumInt(p.lines, QtyFor(lineId)) }

  /** What all pickings carry of an order line. */
  function Shipped(d: Depot, lineId: int): int { SumInt(d.pickings, PickedFor(lineId)) }

  /** What a plan ships of an order line when it is applied: positive quantities from warehouses other than number 0. */
  function SendsFor(lineId: int): Allocation -> int {
    (a: Allocation) => if a.lineId == lineId && HasWarehouse(a) && a.allocatedQty > 0 then a.allocatedQty else 0
  }

  function SentFor(lineId: int): Row -> int { (r: Row) => if r.status.Applied? then SumInt(r.lines, SendsFor(lineId)) else 0 }

  function Members(ws: seq<int>): set<int> { set w <- ws }

  /** The quantity for a line that leaves from a warehouse of ws. */
  function QtyFrom(lineId: int, ws: set<int>): Allocation -> int {
    (a: Allocation) => if a.lineId == lineId && a.warehouseId.Some? && a.warehouseId.value in ws then a.allocatedQty else 0
  }

  lemma {:induction false} OneMoreWarehouse(items: seq<Allocation>, ws: set<int>, w: int, lineId: int)
    requires w !in ws
    ensures SumInt(items, QtyFrom(lineId, ws + {w}))
            == SumInt(items, QtyFrom(lineId, ws)) + SumInt(Filter(items, FromWarehouse(w)), QtyFor(lineId))
  {
    if items != [] {
      OneMoreWarehouse(items[1..], ws, w, lineId);
      if items[0].warehouseId == Some(w) {
        var group := Filter(items, FromWarehouse(w));
        assert group[0] == items[0] && group[1..] == Filter(items[1..], FromWarehouse(w));
      }
    }
  }

  /** The pickings of distinct warehouses carry exactly what leaves from them. */
  lemma {:induction false} PickAllShips(d: Depot, ws: seq<int>, items: seq<Allocation>, lineId: int)
    requires forall i, j :: 0 <= i < j < |ws| ==> ws[i] != ws[j]
    ensures Shipped(PickAll(d, ws, items), lineId)
            == Shipped(d, lineId) + SumInt(items, QtyFrom(lineId, Members(ws)))
    decreases |ws|
  {
    if ws == [] {
      ZeroSumInt(items, QtyFrom(lineId, Members(ws)));
    } else {
      var (before, w) := (ws[..|ws| - 1], ws[|ws| - 1]);
      PickAllShips(d, before, items, lineId);
      assert ws == before + [w];
      assert Members(ws) == Members(before) + {w};
      OneMoreWarehouse(items, Members(before), w, lineId);
      var e := PickAll(d, before, items);
      SumIntAppend(e.pickings, Picking(e.pickingSeq + 1, w, Filter(items, FromWarehouse(w))), PickedFor(lineId));
      hide SumInt, Filter, DeductAll;
    }
  }

  lemma {:induction false} PayloadSends(lines: seq<Allocation>, lineId: int)
    ensures SumInt(Filter(lines, IsShippable()), SendsFor(lineId)) == SumInt(lines, SendsFor(lineId))
  {
    if lines != [] {
      PayloadSends(lines[1..], lineId);
    }
  }

  /** Applying a plan ships exactly what it sends of every line. */
  lemma ApplyShips(d: Depot, r: Row, lineId: int)
    ensures Shipped(PickAll(d, WarehousesOf(Payload(r)), Payload(r)), lineId)
            == Shipped(d, lineId) + SumInt(r.lines, SendsFor(lineId))
  {
    var (items, ws) := (Payload(r), WarehousesOf(Payload(r)));
    PayloadPositive(r);
    WarehousesOfExactly(items);
    PickAllShips(d, ws, items, lineId);
    PayloadSends(r.lines, lineId);
    forall a | a in items ensures QtyFrom(lineId, Members(ws))(a) == SendsFor(lineId)(a) {
      assert HasWarehouse(a) ==> a.warehouseId.value in Sources(items);
      assert a.warehouseId.Some? && a.warehouseId.value in ws ==> HasWarehouse(a);
    }
    SumIntSame(items, QtyFrom(lineId, Members(ws)), SendsFor(lineId));
  }

  lemma {:induction false} SupersededSends(rows: seq<Row>, lineId: int)
    ensures SumInt(SupersedeRows(rows), SentFor(lineId)) == SumInt(rows, SentFor(lineId))
  {
    if rows != [] {
      SupersededSends(rows[1..], lineId);
      assert SupersedeRows(rows)[1..] == SupersedeRows(rows[1..]);
    }
  }

  lemma ReplaceSends(rows: seq<Row>, k: nat, r: Row, lineId: int)
    requires k < |rows|
    ensures SumInt(rows[k := r], SentFor(lineId)) == SumInt(rows, SentFor(lineId)) - SentFor(lineId)(rows[k]) + SentFor(lineId)(r)
  {
    SumIntWithout(rows, k, SentFor(lineId));
    SumIntWithout(rows[k := r], k, SentFor(lineId));
    assert rows[k := r][..k] + rows[k := r][k + 1..] == rows[..k] + rows[k + 1..];
  }

  lemma StepShips(d: Desk, e: Event, lineId: int)
    ensures Shipped(Step(d, e).depot, lineId) - Shipped(d.depot, lineId)
            == SumInt(Step(d, e).rows, SentFor(lineId)) - SumInt(d.rows, SentFor(lineId))
  {
    hide SumInt, ManualLines, PickAll, SupersedeRows;
    match e
    case PlanProposed(result) =>
      SupersededSends(d.rows, lineId);
      SumIntAppend(SupersedeRows(d.rows), RowFor(result, Proposed), SentFor(lineId));
    case PlanAccepted(k) =>
      if AcceptError(d, k).None? {
        ReplaceSends(d.rows, k, Accept(d, k).rows[k], lineId);
      }
    case PlanOverridden(k, items, hasReason, products, profiles) =>
      if OverrideError(d, k, items, hasReason, products).None? {
        ReplaceSends(d.rows, k, Override(d, k, items, hasReason, products, profiles).rows[k], lineId);
      }
    case PlanApplied(k) =>
      if ApplyError(d, k).None? {
        ApplyShips(d.depot, d.rows[k], lineId);
        ReplaceSends(d.rows, k, ApplyPlan(d, k).rows[k], lineId);
      }
    case DealMoved(_) =>
  }

  /** Over any run the pickings carry of each order line exactly what the applied plans send: nothing is shipped without a
      plan, and every applied plan ships once. */
  lemma {:induction false} RunShips(d: Desk, events: seq<Event>, lineId: int)
    requires d.rows == []
    ensures Shipped(Run(d, events).depot, lineId) - Shipped(d.depot, lineId) == SumInt(Run(d, events).rows, SentFor(lineId))
    decreases |events|
  {
    if events != [] {
      RunShips(d, events[..|events| - 1], lineId);
      StepShips(Run(d, events[..|events| - 1]), events[|events| - 1], lineId);
      hide SumInt, Step;
    }
  }

  function AppliedOf(): Row -> int { (r: Row) => if r.status.Applied? then 1 else 0 }

  /** How many of the plans are applied. */
  function AppliedCount(rows: seq<Row>): int { SumInt(rows, AppliedOf()) }

  /** A computed plan sends at most what was requested of each line. */
  lemma ComputedSends(result: P.Plan, active: seq<Warehouse>, valid: seq<Line>, stock: Stock, lineId: int)
    requires Computed(result, active, valid, stock)
    ensures 0 <= SumInt(result.allocations + result.backorders, SendsFor(lineId)) <= Requested(valid, lineId)
  {
    ComputedShape(result, active, valid, stock);
    var lines := result.allocations + result.backorders;
    SumIntConcat(result.allocations, result.backorders, ServedOf(lineId));
    assert Served(result.allocations, lineId) + Served(result.backorders, lineId) == Requested(valid, lineId);
    hide SumInt, Computed;
    SumIntNonNegative(lines, SendsFor(lineId));
    SumIntMonotone(lines, SendsFor(lineId), ServedOf(lineId));
  }

  /** Every stored plan sends at most the requested quantity of the line. */
  ghost predicate SendsAtMost(rows: seq<Row>, lineId: int, requested: int) {
    forall r :: r in rows ==> SumInt(r.lines, SendsFor(lineId)) <= requested
  }

  /** All proposals are computed for these lines, and nothing is overridden. */
  ghost predicate PlansFor(e: Event, valid: seq<Line>) {
    && !e.PlanOverridden?
    && (e.PlanProposed? ==> exists active, stock :: Computed(e.result, active, valid, stock))
  }

  /** Apart from overrides a step leaves the lines of stored plans alone; a proposal adds one plan. */
  lemma StepKeepsLines(d: Desk, e: Event)
    requires !e.PlanOverridden?
    ensures |Step(d, e).rows| == |d.rows| + if e.PlanProposed? then 1 else 0
    ensures forall i :: 0 <= i < |d.rows| ==> Step(d, e).rows[i].lines == d.rows[i].lines
    ensures e.PlanProposed? ==> Step(d, e).rows[|d.rows|].lines == e.result.allocations + e.result.backorders
  {
    hide PickAll;
  }

  lemma {:induction false} RunSendsAtMost(d: Desk, events: seq<Event>, valid: seq<Line>, lineId: int)
    requires d.rows == [] && forall e :: e in events ==> PlansFor(e, valid)
    ensures SendsAtMost(Run(d, events).rows, lineId, Requested(valid, lineId))
    decreases |events|
  {
    if events != [] {
      var (before, e) := (Run(d, events[..|events| - 1]), events[|events| - 1]);
      RunSendsAtMost(d, events[..|events| - 1], valid, lineId);
      assert e in events && PlansFor(e, valid);
      hide SumInt, Run, Step, Computed;
      StepKeepsLines(before, e);
      if e.PlanProposed? {
        var active, stock :| Computed(e.result, active, valid, stock);
        ComputedSends(e.result, active, valid, stock, lineId);
      }
      forall r | r in Step(before, e).rows ensures SumInt(r.lines, SendsFor(lineId)) <= Requested(valid, lineId) {
        var i :| 0 <= i < |Step(before, e).rows| && Step(before, e).rows[i] == r;
        if i < |before.rows| {
          assert before.rows[i] in before.rows;
        }
      }
    }
  }

  lemma {:induction false} SumAtMost(rows: seq<Row>, lineId: int, requested: int)
    requires SendsAtMost(rows, lineId, requested)
    ensures SumInt(rows, SentFor(lineId)) <= AppliedCount(rows) * requested
  {
    if rows != [] {
      SumAtMost(rows[1..], lineId, requested);
      var n := AppliedCount(rows[1..]);
      assert rows[0] in rows;
      assert (n + 1) * requested == n * requested + requested;
    }
  }

  /** With computed plans only, an order line is shipped at most once for each applied plan. */
  lemma ShippedAtMost(d: Desk, events: seq<Event>, valid: seq<Line>, lineId: int)
    requires d.rows == [] && d.depot.pickings == [] && forall e :: e in events ==> PlansFor(e, valid)
    ensures Shipped(Run(d, events).depot, lineId) <= AppliedCount(Run(d, events).rows) * Requested(valid, lineId)
  {
    RunShips(d, events, lineId);
    RunSendsAtMost(d, events, valid, lineId);
    SumAtMost(Run(d, events).rows, lineId, Requested(valid, lineId));
  }

  // --- two runs ---

  const FIVE: Line := Line(1, 1, 5)

  function Site(id: int): Warehouse { Warehouse(id, 1.0, 1, true) }

  /** Ten units of product 1 in one warehouse. */
  function TenAt(id: int): Stock { map[1 := map[id := 10]] }

  function AllFrom(id: int): Allocation { Allocation(1, 1, Some(id), 5, 5, 0, 1.0) }

  /** The plan that ships an order line for five from that warehouse. */
  function SmallPlan(id: int): P.Plan { P.Plan(P.FullCoverage, 1, 1.0, [AllFrom(id)], [], [Site(id)], {id}) }

  lemma SmallSums(id: int)
    ensures forall pid :: Supply([Site(id)], TenAt(id), pid) == if pid == 1 then 10 else 0
    ensures forall pid :: Demand([FIVE], pid) == if pid == 1 then 5 else 0
    ensures forall pid :: Taken([AllFrom(id)], id, pid) == if pid == 1 then 5 else 0
    ensures forall pid :: Before([Site(id)], TenAt(id), pid, 0) == 0
    ensures forall lid :: Served([AllFrom(id)], lid) == Requested([FIVE], lid)
  {
    var (w, a, stock) := (Site(id), AllFrom(id), TenAt(id));
    forall pid
      ensures Supply([w], stock, pid) == (if pid == 1 then 10 else 0) && Demand([FIVE], pid) == (if pid == 1 then 5 else 0)
      ensures Taken([a], id, pid) == (if pid == 1 then 5 else 0) && Before([w], stock, pid, 0) == 0
    {
      SumIntSingle(w, AvailOf(stock, pid));
      SumIntSingle(FIVE, WantedOf(pid));
      SumIntSingle(a, TakenOf(id, pid));
      assert [w][..0] == [];
    }
    forall lid ensures Served([a], lid) == Requested([FIVE], lid) {
      SumIntSingle(a, ServedOf(lid));
      SumIntSingle(FIVE, RequestedOf(lid));
    }
  }

  lemma SmallFill(id: int)
    ensures FillsExactly([FIVE], [Site(id)], TenAt(id), [AllFrom(id)], [])
  {
    SmallSums(id);
    SmallPlanShape(id);
    hide Supply, Demand, Taken, Served, Requested, Before, Backordered, Sound, UsedIds;
    assert SharesExactly([FIVE], [Site(id)], TenAt(id), [AllFrom(id)]);
  }

  lemma SmallPlanIsComputed(id: int)
    ensures Computed(SmallPlan(id), [Site(id)], [FIVE], TenAt(id))
  {
    SmallSums(id);
    SmallFill(id);
    SmallPlanShape(id);
    SumRealSingle(Site(id), CostWithin({id}));
    hide FillsExactly, Sound, UsedIds, Supply, Demand, Taken, Served, Requested, Before, Backordered, SumReal;
    assert [Site(id)][0] == Site(id) && Site(id) in [Site(id)];
  }

  lemma SmallPlanShape(id: int)
    ensures Sound([AllFrom(id)], [Site(id)], [FIVE]) && UsedIds([AllFrom(id)]) == {id}
    ensures forall pid :: Backordered([], pid) == 0
    ensures forall lid :: Served([], lid) == 0
  {
    assert FIVE in [FIVE] && Site(id) in [Site(id)];
    assert AllFrom(id) in [AllFrom(id)];
  }

  function SmallRow(id: int, status: PlanStatus): Row { RowFor(SmallPlan(id), status) }

  /** A confirmed deal, and that stock. */
  function SmallDesk(id: int, rows: seq<Row>): Desk { Desk(A.Confirmed, rows, Depot(TenAt(id), [], 0)) }

  lemma SmallPayload(id: int, status: PlanStatus)
    ensures Payload(SmallRow(id, status)) == [AllFrom(id)]
    ensures WarehousesOf([AllFrom(id)]) == if id == 0 then [] else [id]
  {
    assert [AllFrom(id)][..0] == [];
    assert Filter([AllFrom(id)], IsShippable()) == [AllFrom(id)] + Filter([AllFrom(id)][1..], IsShippable());
  }

  lemma RunSnoc(d: Desk, events: seq<Event>, e: Event)
    ensures Run(d, events + [e]) == Step(Run(d, events), e)
  {
    assert (events + [e])[..|events|] == events;
  }

  lemma SmallLines(id: int, status: PlanStatus)
    ensures SmallRow(id, status).lines == [AllFrom(id)] && !SmallRow(id, status).manual
  {
    assert [AllFrom(id)] + [] == [AllFrom(id)];
  }

  lemma Proposing(id: int, rows: seq<Row>)
    requires forall r :: r in rows ==> !r.status.Proposed?
    ensures Step(SmallDesk(id, rows), PlanProposed(SmallPlan(id))) == SmallDesk(id, rows + [SmallRow(id, Proposed)])
  {
    forall i | 0 <= i < |rows| ensures SupersedeRows(rows)[i] == rows[i] {
      assert rows[i] in rows;
    }
    assert SupersedeRows(rows) == rows;
  }

  lemma Accepting(id: int, rows: seq<Row>)
    ensures Step(SmallDesk(id, rows + [SmallRow(id, Proposed)]), PlanAccepted(|rows|))
            == SmallDesk(id, rows + [SmallRow(id, PlanStatus.Accepted)])
  {
    var all := rows + [SmallRow(id, Proposed)];
    assert all[|rows| := SmallRow(id, PlanStatus.Accepted)] == rows + [SmallRow(id, PlanStatus.Accepted)];
  }

  /** The run continued by proposing the small plan and accepting it. */
  function Agreeing(events: seq<Event>, id: int, k: nat): seq<Event> {
    events + [PlanProposed(SmallPlan(id))] + [PlanAccepted(k)]
  }

  lemma AgreeingAdds(d: Desk, events: seq<Event>, id: int, rows: seq<Row>)
    requires Run(d, events) == SmallDesk(id, rows) && forall r :: r in rows ==> !r.status.Proposed?
    ensures Run(d, Agreeing(events, id, |rows|)) == SmallDesk(id, rows + [SmallRow(id, PlanStatus.Accepted)])
  {
    var p := PlanProposed(SmallPlan(id));
    Proposing(id, rows);
    Accepting(id, rows);
    RunSnoc(d, events, p);
    RunSnoc(d, events + [p], PlanAccepted(|rows|));
    hide Run, Step, SmallDesk, SmallRow, SmallPlan;
  }

  lemma SmallProposalFits(id: int)
    ensures EventFits(PlanProposed(SmallPlan(id)))
  {
    SmallPlanIsComputed(id);
    hide Computed, SmallPlan;
  }

  /** A computed plan that ships from a warehouse numbered 0 is applied without a single picking: one was estimated. */
  lemma WarehouseZeroShipsNothing()
    ensures EventFits(PlanProposed(SmallPlan(0)))
    ensures var d := Run(SmallDesk(0, []), Agreeing([], 0, 0) + [PlanApplied(0)]);
            && |d.rows| == 1 && d.rows[0].status.Applied? && !d.rows[0].manual && UsesZero(d.rows[0].lines)
            && d.rows[0].shipments == 1 && d.rows[0].pickingIds == [] && d.depot.pickings == []
  {
    var (d, row) := (SmallDesk(0, []), SmallRow(0, PlanStatus.Accepted));
    SmallProposalFits(0);
    AgreeingAdds(d, [], 0, []);
    RunSnoc(d, Agreeing([], 0, 0), PlanApplied(0));
    SmallLines(0, PlanStatus.Accepted);
    SmallPayload(0, PlanStatus.Accepted);
    hide Computed, EventFits, Payload, Run, WarehousesOf, Agreeing;
    assert [] + [row] == [row];
    assert AllFrom(0) in row.lines && seq(0, i => 1 + i) == [];
  }

  lemma BothApplied()
    ensures var row := SmallRow(1, PlanStatus.Accepted);
            var rows := Step(Step(SmallDesk(1, [row, row]), PlanApplied(0)), PlanApplied(1)).rows;
            SumInt(rows, SentFor(1)) == 10 && AppliedCount(rows) == 2
  {
    var row := SmallRow(1, PlanStatus.Accepted);
    var d := Step(SmallDesk(1, [row, row]), PlanApplied(0));
    var rows := Step(d, PlanApplied(1)).rows;
    SmallLines(1, PlanStatus.Accepted);
    hide SumInt, SmallRow, PickAll, Payload, WarehousesOf;
    assert d.rows[0].lines == d.rows[1].lines == [AllFrom(1)] && d.rows[0].status.Applied? && d.rows[1] == row;
    assert rows == [rows[0], rows[1]] && rows[0] == d.rows[0] && rows[1].lines == [AllFrom(1)] && rows[1].status.Applied?;
    SumIntPair(rows[0], rows[1], SentFor(1));
    SumIntPair(rows[0], rows[1], AppliedOf());
    SumIntSingle(AllFrom(1), SendsFor(1));
  }

  function TwiceApplied(): seq<Event> { Agreeing(Agreeing([], 1, 0), 1, 1) + [PlanApplied(0)] + [PlanApplied(1)] }

  lemma TwiceAppliedFits()
    ensures forall e :: e in TwiceApplied() ==> PlansFor(e, [FIVE])
  {
    SmallPlanIsComputed(1);
    hide Computed, SmallPlan;
  }

  /** Nothing supersedes an accepted plan: proposing and accepting twice and applying both ships a line for five twice. */
  lemma AcceptedTwiceShipsTwice()
    ensures forall e :: e in TwiceApplied() ==> PlansFor(e, [FIVE])
    ensures var d := Run(SmallDesk(1, []), TwiceApplied());
            Shipped(d.depot, 1) == 10 && AppliedCount(d.rows) == 2 && Requested([FIVE], 1) == 5
  {
    var (d, row, events) := (SmallDesk(1, []), SmallRow(1, PlanStatus.Accepted), Agreeing(Agreeing([], 1, 0), 1, 1));
    TwiceAppliedFits();
    AgreeingAdds(d, [], 1, []);
    assert [] + [row] == [row] && [row] + [row] == [row, row];
    AgreeingAdds(d, Agreeing([], 1, 0), 1, [row]);
    BothApplied();
    SumIntSingle(FIVE, RequestedOf(1));
    assert Shipped(d.depot, 1) == 0;
    hide Run, Step, Agreeing, PlansFor, SumInt;
    RunSnoc(d, events, PlanApplied(0));
    RunSnoc(d, events + [PlanApplied(0)], PlanApplied(1));
    RunShips(d, TwiceApplied(), 1);
  }
}
