/** Stored fulfillment plans of a deal, and the pickings they create when applied. */
module PlanModel {
  import opened Prelude
  import opened FulfillmentModel
  import P = FulfillmentPlanner
  import A = ApprovalModel

  datatype PlanStatus = Proposed | Accepted | Overridden | Applied | Superseded

  /** A stored plan; manual marks one that was overridden, pickingIds are those of its application. */
  datatype Row = Row(
    status: PlanStatus, manual: bool, shipments: nat, shippingCost: real, lines: seq<Allocation>, pickingIds: seq<int>)

  datatype Picking = Picking(id: int, warehouseId: int, lines: seq<Allocation>)

  /** The order system's side: stock on hand and the pickings created for the order. */
  datatype Depot = Depot(stock: Stock, pickings: seq<Picking>, pickingSeq: int)

  datatype Desk = Desk(dealStatus: A.DealStatus, rows: seq<Row>, depot: Depot)

  datatype Error = NotFound | InvalidStatus | ReasonRequired | InvalidLine | DealNotConfirmed

  // --- creating pickings ---

  /** Allocations without a warehouse, or with warehouse id 0, start no picking. */
  predicate HasWarehouse(a: Allocation) { a.warehouseId.Some? && a.warehouseId.value != 0 }

  /** The warehouses of the allocations, in order of first appearance. */
  function WarehousesOf(items: seq<Allocation>): seq<int> {
    if items == [] then []
    else
      var (ws, a) := (WarehousesOf(items[..|items| - 1]), items[|items| - 1]);
      if HasWarehouse(a) && a.warehouseId.value !in ws then ws + [a.warehouseId.value] else ws
  }

  function FromWarehouse(wid: int): Allocation -> bool { (a: Allocation) => a.warehouseId == Some(wid) }

  /** Takes an allocation off the stock on hand, never below zero; unknown stock stays unknown. */
  function Deduct(stock: Stock, a: Allocation): Stock
    requires a.warehouseId.Some?
  {
    var wid := a.warehouseId.value;
    if a.productId in stock && wid in stock[a.productId]
    then stock[a.productId := stock[a.productId][wid := Max(0, stock[a.productId][wid] - a.allocatedQty)]]
    else stock
  }

  function DeductAll(stock: Stock, items: seq<Allocation>): Stock
    requires forall a :: a in items ==> a.warehouseId.Some?
  {
    if items == [] then stock else Deduct(DeductAll(stock, items[..|items| - 1]), items[|items| - 1])
  }

  /** One picking for everything that leaves one warehouse. */
  function Pick(d: Depot, wid: int, items: seq<Allocation>): Depot {
    var group := Filter(items, FromWarehouse(wid));
    Depot(DeductAll(d.stock, group), d.pickings + [Picking(d.pickingSeq + 1, wid, group)], d.pickingSeq + 1)
  }

  function PickAll(d: Depot, ws: seq<int>, items: seq<Allocation>): Depot {
    if ws == [] then d else Pick(PickAll(d, ws[..|ws| - 1], items), ws[|ws| - 1], items)
  }

  // --- the plan table ---

  function SupersedeRow(r: Row): Row { if r.status.Proposed? then r.(status := Superseded) else r }

  function SupersedeRows(rows: seq<Row>): (s: seq<Row>)
    ensures |s| == |rows| && forall i :: 0 <= i < |rows| ==> s[i] == SupersedeRow(rows[i])
  {
    if rows == [] then [] else [SupersedeRow(rows[0])] + SupersedeRows(rows[1..])
  }

  /** Stores a computed plan in place of any earlier proposal. */
  function Propose(d: Desk, result: P.Plan): Desk {
    d.(rows := SupersedeRows(d.rows)
               + [Row(Proposed, false, result.shipments, result.shippingCost, result.allocations + result.backorders, [])])
  }

  function AcceptError(d: Desk, k: nat): Option<Error> {
    if k >= |d.rows| then Some(NotFound) else if !d.rows[k].status.Proposed? then Some(InvalidStatus) else None
  }

  function Accept(d: Desk, k: nat): Desk {
    if AcceptError(d, k).Some? then d else d.(rows := d.rows[k := d.rows[k].(status := Accepted)])
  }

  /** A manual allocation; product 0 means the order line's own product. */
  datatype Manual = Manual(lineId: int, productId: int, warehouseId: Option<int>, shipped: int, backorder: int)

  /** Manual allocations must name lines of the order. */
  predicate NamesLines(items: seq<Manual>, products: map<int, int>) {
    forall m :: m in items ==> m.lineId != 0 && m.lineId in products
  }

  /** The shipping weight on file for a warehouse, or 0. */
  function ProfileWeight(profiles: seq<Warehouse>, wid: int): real {
    if profiles == [] then 0.0
    else if profiles[0].id == wid then profiles[0].costWeight
    else ProfileWeight(profiles[1..], wid)
  }

  function ManualLine(m: Manual, products: map<int, int>, profiles: seq<Warehouse>): Allocation
    requires m.lineId in products
  {
    var ships := m.warehouseId.Some? && m.warehouseId.value != 0 && m.shipped > 0;
    Allocation(m.lineId, if m.productId != 0 then m.productId else products[m.lineId], m.warehouseId,
               m.shipped + m.backorder, m.shipped, m.backorder,
               if ships then ProfileWeight(profiles, m.warehouseId.value) else 0.0)
  }

  /** Items without a positive total are dropped. */
  function ManualLines(items: seq<Manual>, products: map<int, int>, profiles: seq<Warehouse>): seq<Allocation>
    requires NamesLines(items, products)
  {
    if items == [] then []
    else
      var (before, m) := (ManualLines(items[..|items| - 1], products, profiles), items[|items| - 1]);
      if m.shipped + m.backorder <= 0 then before else before + [ManualLine(m, products, profiles)]
  }

  /** The warehouses that really ship something for these lines. */
  function ShipsFrom(lines: seq<Allocation>): set<int> {
    set a <- lines | HasWarehouse(a) && a.allocatedQty > 0 :: a.warehouseId.value
  }

  function OverrideError(d: Desk, k: nat, items: seq<Manual>, hasReason: bool, products: map<int, int>): Option<Error> {
    if !hasReason then Some(ReasonRequired)
    else if k >= |d.rows| then Some(NotFound)
    else if !(d.rows[k].status.Proposed? || d.rows[k].status.Accepted?) then Some(InvalidStatus)
    else if !NamesLines(items, products) then Some(InvalidLine)
    else None
  }

  function Override(d: Desk, k: nat, items: seq<Manual>, hasReason: bool, products: map<int, int>,
                    profiles: seq<Warehouse>): Desk
  {
    if OverrideError(d, k, items, hasReason, products).Some? then d
    else
      var lines := ManualLines(items, products, profiles);
      d.(rows := d.rows[k := d.rows[k].(status := Overridden, manual := true, lines := lines, shipments := |ShipsFrom(lines)|,
                                        shippingCost := ShippingCost(profiles, ShipsFrom(lines)))])
  }

  function IsShippable(): Allocation -> bool { (a: Allocation) => a.allocatedQty > 0 && a.warehouseId.Some? }

  function Payload(r: Row): seq<Allocation> { Filter(r.lines, IsShippable()) }

  function ApplyError(d: Desk, k: nat): Option<Error> {
    if !(d.dealStatus.Confirmed? || d.dealStatus.InFulfillment?) then Some(DealNotConfirmed)
    else if k >= |d.rows| then Some(NotFound)
    else if !(d.rows[k].status.Accepted? || d.rows[k].status.Overridden?) then Some(InvalidStatus)
    else None
  }

  function ApplyPlan(d: Desk, k: nat): Desk {
    if ApplyError(d, k).Some? then d
    else
      var ws := WarehousesOf(Payload(d.rows[k]));
      Desk(A.InFulfillment,
           d.rows[k := d.rows[k].(status := Applied, pickingIds := seq(|ws|, i => d.depot.pickingSeq + 1 + i))],
           PickAll(d.depot, ws, Payload(d.rows[k])))
  }
}
