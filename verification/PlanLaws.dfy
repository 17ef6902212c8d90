/** What every single plan operation does, from its input to its output. */
module PlanLaws {
  import opened Prelude
  import opened Sums
  import opened FulfillmentModel
  import P = FulfillmentPlanner
  import A = ApprovalModel
  import opened PlanModel
  import opened PlanRuns

  /** Proposing supersedes earlier proposals and stores the result with its allocations and backorders as lines. */
  lemma ProposingPlan(d: Desk, result: P.Plan)
    ensures var (e, n) := (Step(d, PlanProposed(result)), |d.rows|);
            && e.dealStatus == d.dealStatus && e.depot == d.depot && |e.rows| == n + 1
            && (forall i :: 0 <= i < n ==>
                  e.rows[i] == d.rows[i].(status := if d.rows[i].status.Proposed? then Superseded else d.rows[i].status))
            && e.rows[n] == Row(Proposed, false, result.shipments, result.shippingCost,
                                result.allocations + result.backorders, [])
  {
  }

  /** Only the status, the lines and what follows from them change, of row k alone. */
  ghost predicate OnlyRow(d: Desk, e: Desk, k: nat, row: Row) {
    k < |d.rows| == |e.rows| && e.rows[k] == row && forall i :: 0 <= i < |d.rows| && i != k ==> e.rows[i] == d.rows[i]
  }

  /** A proposed plan is accepted; any other is refused. */
  lemma AcceptingPlan(d: Desk, k: nat)
    ensures var e := Step(d, PlanAccepted(k));
            if k < |d.rows| && d.rows[k].status.Proposed?
            then OnlyRow(d, e, k, d.rows[k].(status := PlanStatus.Accepted)) && e.dealStatus == d.dealStatus && e.depot == d.depot
            else e == d
  {
  }

  /** The deal is confirmed or in fulfillment, and the plan accepted or overridden. */
  predicate CanShip(d: Desk, k: nat) {
    && (d.dealStatus.Confirmed? || d.dealStatus.InFulfillment?)
    && k < |d.rows| && (d.rows[k].status.Accepted? || d.rows[k].status.Overridden?)
  }

  /** Only then a plan is applied. It is marked so with the ids of its pickings, one for each warehouse that it ships from,
      and the deal is in fulfillment; the plan's other contents and all other plans stay as they are. */
  lemma ApplyingPlan(d: Desk, k: nat)
    ensures var e := Step(d, PlanApplied(k));
            if CanShip(d, k)
            then && OnlyRow(d, e, k, d.rows[k].(status := Applied,
                                                pickingIds := seq(|Sources(d.rows[k].lines)|, i => d.depot.pickingSeq + 1 + i)))
                 && e.dealStatus.InFulfillment?
            else e == d
  {
    hide PickAll, WarehousesOf, Payload, ShipsFrom, Sources, Propose, Accept, Override;
    if CanShip(d, k) {
      PickingCount(d.rows[k]);
      SourcesAre(d.rows[k].lines);
    }
  }

  /** after has the pickings of before and n more with consecutive ids. */
  ghost predicate AddsPickings(before: Depot, after: Depot, n: nat) {
    && after.pickingSeq == before.pickingSeq + n
    && |after.pickings| == |before.pickings| + n && after.pickings[..|before.pickings|] == before.pickings
    && forall j :: |before.pickings| <= j < |after.pickings| ==>
         after.pickings[j].id == before.pickingSeq + 1 + (j - |before.pickings|)
  }

  lemma {:induction false} PickingAdds(d: Depot, ws: seq<int>, items: seq<Allocation>)
    ensures AddsPickings(d, PickAll(d, ws, items), |ws|)
    decreases |ws|
  {
    if ws != [] {
      PickingAdds(d, ws[..|ws| - 1], items);
      hide Filter, DeductAll;
    }
  }

  /** The order system keeps its pickings and adds one for each such warehouse. */
  lemma ApplyingPicks(d: Desk, k: nat)
    requires CanShip(d, k)
    ensures AddsPickings(d.depot, Step(d, PlanApplied(k)).depot, |Sources(d.rows[k].lines)|)
  {
    hide PickAll, WarehousesOf, Payload, ShipsFrom, Sources, AddsPickings, Propose, Accept, Override;
    PickingCount(d.rows[k]);
    SourcesAre(d.rows[k].lines);
    PickingAdds(d.depot, WarehousesOf(Payload(d.rows[k])), Payload(d.rows[k]));
    assert Step(d, PlanApplied(k)) == ApplyPlan(d, k);
  }

  /** The warehouses that lines ship a positive quantity from; number 0 is none. */
  function Sources(lines: seq<Allocation>): set<int> {
    set a <- lines | a.warehouseId.Some? && a.warehouseId.value != 0 && a.allocatedQty > 0 :: a.warehouseId.value
  }

  lemma SourcesAre(lines: seq<Allocation>)
    ensures Sources(lines) == ShipsFrom(lines)
  {
  }

  /** What applying sends from one warehouse: the plan's lines that ship a positive quantity from it, in order. */
  lemma PickingOf(r: Row, wid: int)
    requires wid != 0
    ensures var group := Filter(Payload(r), FromWarehouse(wid));
            && (forall a :: a in group <==> a in r.lines && a.allocatedQty > 0 && a.warehouseId == Some(wid))
            && (group != [] <==> wid in WarehousesOf(Payload(r)))
  {
    WarehousesOfExactly(Payload(r));
    var group := Filter(Payload(r), FromWarehouse(wid));
    assert group != [] ==> group[0] in group;
    if a :| a in Payload(r) && a.warehouseId == Some(wid) {
      assert a in group;
    }
  }

  // --- overriding ---

  /** a carries out manual item m: the line's product unless one is given, what is shipped and what is backordered, and the
      warehouse's weight on file when something ships. */
  ghost predicate CarriesOut(a: Allocation, m: Manual, products: map<int, int>, profiles: seq<Warehouse>) {
    && a.lineId == m.lineId && a.warehouseId == m.warehouseId
    && (m.productId != 0 ==> a.productId == m.productId)
    && (m.productId == 0 ==> m.lineId in products && a.productId == products[m.lineId])
    && a.allocatedQty == m.shipped && a.backorderQty == m.backorder && a.requestedQty == m.shipped + m.backorder
    && (m.shipped <= 0 || m.warehouseId == None || m.warehouseId == Some(0) ==> a.shippingCost == 0.0)
    && (m.shipped > 0 && m.warehouseId.Some? && m.warehouseId.value != 0 ==>
          && ((exists w :: w in profiles && w.id == m.warehouseId.value) ==>
                exists w :: w in profiles && w.id == m.warehouseId.value && a.shippingCost == w.costWeight)
          && ((forall w :: w in profiles ==> w.id != m.warehouseId.value) ==> a.shippingCost == 0.0))
  }

  lemma {:induction false} WeightOnFile(profiles: seq<Warehouse>, wid: int)
    ensures (exists w :: w in profiles && w.id == wid) ==>
              exists w :: w in profiles && w.id == wid && ProfileWeight(profiles, wid) == w.costWeight
    ensures (forall w :: w in profiles ==> w.id != wid) ==> ProfileWeight(profiles, wid) == 0.0
  {
    if profiles != [] && profiles[0].id != wid {
      WeightOnFile(profiles[1..], wid);
      if w :| w in profiles && w.id == wid {
        assert w in profiles[1..];
      }
    }
  }

  /** The items with something to ship or backorder. */
  function Kept(items: seq<Manual>): seq<Manual> {
    if items == [] then []
    else Kept(items[..|items| - 1]) + if items[|items| - 1].shipped + items[|items| - 1].backorder > 0 then [items[|items| - 1]] else []
  }

  lemma ItemCarriedOut(m: Manual, products: map<int, int>, profiles: seq<Warehouse>)
    requires m.lineId in products
    ensures CarriesOut(ManualLine(m, products, profiles), m, products, profiles)
  {
    if m.warehouseId.Some? {
      WeightOnFile(profiles, m.warehouseId.value);
    }
  }

  lemma {:induction false} ItemsCarriedOut(items: seq<Manual>, products: map<int, int>, profiles: seq<Warehouse>)
    requires NamesLines(items, products)
    ensures var lines := ManualLines(items, products, profiles);
            && |lines| == |Kept(items)|
            && forall i :: 0 <= i < |lines| ==> CarriesOut(lines[i], Kept(items)[i], products, profiles)
    decreases |items|
  {
    if items != [] {
      var m := items[|items| - 1];
      assert m in items;
      ItemsCarriedOut(items[..|items| - 1], products, profiles);
      ItemCarriedOut(m, products, profiles);
      hide CarriesOut, ManualLine;
    }
  }

  /** The sum of weights on file over the warehouses of ids. */
  function WeightOf(profiles: seq<Warehouse>, ids: set<int>): real {
    if profiles == [] then 0.0
    else (if profiles[0].id in ids then profiles[0].costWeight else 0.0) + WeightOf(profiles[1..], ids)
  }

  lemma {:induction false} WeightIsCost(profiles: seq<Warehouse>, ids: set<int>)
    ensures ShippingCost(profiles, ids) == WeightOf(profiles, ids)
  {
    if profiles != [] {
      WeightIsCost(profiles[1..], ids);
    }
  }

  /** An override needs a reason, a proposed or accepted plan, and items that name lines of the order. It replaces the plan's
      lines by one for each item with something to ship or backorder, and counts and weighs the warehouses that ship. */
  lemma OverridingPlan(d: Desk, k: nat, items: seq<Manual>, hasReason: bool, products: map<int, int>, profiles: seq<Warehouse>)
    ensures var e := Step(d, PlanOverridden(k, items, hasReason, products, profiles));
            if hasReason && k < |d.rows| && (d.rows[k].status.Proposed? || d.rows[k].status.Accepted?)
               && (forall m :: m in items ==> m.lineId != 0 && m.lineId in products)
            then && k < |e.rows| && OnlyRow(d, e, k, e.rows[k]) && e.dealStatus == d.dealStatus && e.depot == d.depot
                 && e.rows[k].status.Overridden? && e.rows[k].manual && e.rows[k].pickingIds == d.rows[k].pickingIds
                 && |e.rows[k].lines| == |Kept(items)|
                 && (forall i :: 0 <= i < |Kept(items)| ==> CarriesOut(e.rows[k].lines[i], Kept(items)[i], products, profiles))
                 && e.rows[k].shipments == |Sources(e.rows[k].lines)|
                 && e.rows[k].shippingCost == WeightOf(profiles, Sources(e.rows[k].lines))
            else e == d
  {
    if OverrideError(d, k, items, hasReason, products).None? {
      ItemsCarriedOut(items, products, profiles);
      WeightIsCost(profiles, ShipsFrom(ManualLines(items, products, profiles)));
      SourcesAre(ManualLines(items, products, profiles));
    }
    hide CarriesOut, ManualLines, Kept, ShippingCost, WeightOf, Sources, ShipsFrom;
  }

  // --- refusals ---

  /** Why accepting, applying or overriding is refused: for the first reason that applies. */
  lemma PlanRefusals(d: Desk, k: nat, items: seq<Manual>, hasReason: bool, products: map<int, int>)
    ensures AcceptError(d, k) == (if k >= |d.rows| then Some(NotFound)
                                  else if d.rows[k].status != Proposed then Some(InvalidStatus) else None)
    ensures ApplyError(d, k) == (if d.dealStatus != A.Confirmed && d.dealStatus != A.InFulfillment then Some(DealNotConfirmed)
                                 else if k >= |d.rows| then Some(NotFound)
                                 else if d.rows[k].status !in {PlanStatus.Accepted, Overridden} then Some(InvalidStatus)
                                 else None)
    ensures OverrideError(d, k, items, hasReason, products)
            == (if !hasReason then Some(ReasonRequired)
                else if k >= |d.rows| then Some(NotFound)
                else if d.rows[k].status !in {Proposed, PlanStatus.Accepted} then Some(InvalidStatus)
                else if exists m :: m in items && (m.lineId == 0 || m.lineId !in products) then Some(InvalidLine) else None)
  {
  }
}
