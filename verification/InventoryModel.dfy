/** The standalone inventory adapter's data and what its two core operations compute.
    Quantities are integers in units of 0.0001, the precision that the adapter rounds to. */
module InventoryModel {
  import opened Prelude
  import opened Sums
  import opened Sorting

  datatype Level = Level(available: int, reserved: int, incoming: int)

  /** A warehouse and its place in the routing order. */
  datatype Site = Site(id: int, sequence: int)

  datatype Item = Item(productId: int, warehouseId: int, quantity: int)

  datatype FulfillmentPlan = FulfillmentPlan(
    orderId: int, allocations: seq<Item>, batchId: Option<string>, requestedQty: Option<int>)

  datatype Picking = Picking(id: int, orderId: int, item: Item, batchId: string)

  datatype OrderState = Draft | Sale | Done | Cancelled

  datatype Inventory = Inventory(
    sites: seq<Site>, store: map<int, map<int, Level>>, orders: map<int, OrderState>,
    pickings: seq<Picking>, nextPickingId: int)

  datatype Error = ValidationError | NotFoundError | InvalidStateError

  datatype Outcome = Applied(batchId: string, pickingIds: seq<int>) | AlreadyApplied(batchId: string, pickingIds: seq<int>)

  // --- stock ---

  /** Missing products and warehouses read as zero. */
  function LevelAt(store: map<int, map<int, Level>>, pid: int, wid: int): Level {
    if pid in store && wid in store[pid] then store[pid][wid] else Level(0, 0, 0)
  }

  function Put(store: map<int, map<int, Level>>, pid: int, wid: int, level: Level): map<int, map<int, Level>> {
    store[pid := (if pid in store then store[pid] else map[])[wid := level]]
  }

  predicate SiteLe(a: Site, b: Site) { a.sequence < b.sequence || (a.sequence == b.sequence && a.id <= b.id) }

  function Routing(inv: Inventory): seq<Site> { Sort(inv.sites, SiteLe) }

  predicate HasSite(inv: Inventory, wid: int) { exists s :: s in inv.sites && s.id == wid }

  function QuantityOf(): Item -> int { (i: Item) => i.quantity }

  function TotalQuantity(items: seq<Item>): int { SumInt(items, QuantityOf()) }

  function QuantityAt(pid: int, wid: int): Item -> int {
    (i: Item) => if i.productId == pid && i.warehouseId == wid then i.quantity else 0
  }

  /** What the items together take of a product from a warehouse. */
  function TakenAt(items: seq<Item>, pid: int, wid: int): int { SumInt(items, QuantityAt(pid, wid)) }

  function PickedAt(pid: int, wid: int): Picking -> int { (p: Picking) => QuantityAt(pid, wid)(p.item) }

  /** What all pickings together carry of a product from a warehouse. */
  function Picked(pickings: seq<Picking>, pid: int, wid: int): int { SumInt(pickings, PickedAt(pid, wid)) }

  // --- applying a plan ---

  /** A missing or empty batch id falls back to the plan's, and then to a newly generated one. */
  function BatchOf(plan: FulfillmentPlan, batchId: Option<string>, generated: string): string {
    if batchId.Some? && batchId.value != "" then batchId.value
    else if plan.batchId.Some? && plan.batchId.value != "" then plan.batchId.value
    else generated
  }

  predicate BadItem(i: Item) { i.warehouseId <= 0 || i.quantity <= 0 }

  /** The checks made before the batch is looked up. */
  function PlanError(inv: Inventory, orderId: int, plan: FulfillmentPlan): Option<Error> {
    if orderId <= 0 || plan.orderId != orderId || plan.allocations == [] || TotalQuantity(plan.allocations) <= 0 then
      Some(ValidationError)
    else if exists i :: i in plan.allocations && BadItem(i) then Some(ValidationError)
    else if plan.requestedQty.Some? && !(-1 <= TotalQuantity(plan.allocations) - plan.requestedQty.value <= 1) then
      Some(ValidationError)
    else if orderId !in inv.orders then Some(NotFoundError)
    else if inv.orders[orderId].Cancelled? || inv.orders[orderId].Done? then Some(InvalidStateError)
    else None
  }

  function ItemError(inv: Inventory, i: Item): Option<Error> {
    if i.productId <= 0 then Some(ValidationError)
    else if !HasSite(inv, i.warehouseId) then Some(NotFoundError)
    else if LevelAt(inv.store, i.productId, i.warehouseId).available < i.quantity then Some(InvalidStateError)
    else None
  }

  /** The first item that live stock cannot serve, each checked by itself. */
  function StockError(inv: Inventory, items: seq<Item>): Option<Error> {
    if items == [] then None
    else if ItemError(inv, items[0]).Some? then ItemError(inv, items[0])
    else StockError(inv, items[1..])
  }

  function BatchPickings(pickings: seq<Picking>, batch: string): seq<int> {
    if pickings == [] then []
    else BatchPickings(pickings[..|pickings| - 1], batch)
         + if pickings[|pickings| - 1].batchId == batch then [pickings[|pickings| - 1].id] else []
  }

  /** Moves one item from available to reserved and records a picking for it. */
  function Reserve(inv: Inventory, i: Item, orderId: int, batch: string): Inventory {
    var l := LevelAt(inv.store, i.productId, i.warehouseId);
    inv.(store := Put(inv.store, i.productId, i.warehouseId,
                      l.(available := l.available - i.quantity, reserved := l.reserved + i.quantity)),
         pickings := inv.pickings + [Picking(inv.nextPickingId, orderId, i, batch)],
         nextPickingId := inv.nextPickingId + 1)
  }

  function ReserveAll(inv: Inventory, items: seq<Item>, orderId: int, batch: string): Inventory {
    if items == [] then inv
    else Reserve(ReserveAll(inv, items[..|items| - 1], orderId, batch), items[|items| - 1], orderId, batch)
  }

  function Fail(inv: Inventory, e: Error): (Inventory, Result<Outcome, Error>) { (inv, Err(e)) }

  function Apply(inv: Inventory, orderId: int, plan: FulfillmentPlan, batchId: Option<string>, idempotent: bool,
                 generated: string): (Inventory, Result<Outcome, Error>)
  {
    var batch := BatchOf(plan, batchId, generated);
    var existing := BatchPickings(inv.pickings, batch);
    if PlanError(inv, orderId, plan).Some? then Fail(inv, PlanError(inv, orderId, plan).value)
    else if existing != [] && !idempotent then Fail(inv, InvalidStateError)
    else if existing != [] then (inv, Ok(AlreadyApplied(batch, existing)))
    else if StockError(inv, plan.allocations).Some? then Fail(inv, StockError(inv, plan.allocations).value)
    else
      (ReserveAll(inv, plan.allocations, orderId, batch),
       Ok(Applied(batch, seq(|plan.allocations|, i => inv.nextPickingId + i))))
  }

  // --- splitting a request ---

  function AvailableAt(inv: Inventory, pid: int): Site -> int { (s: Site) => LevelAt(inv.store, pid, s.id).available }

  function TotalAvailable(inv: Inventory, pid: int): int { SumInt(inv.sites, AvailableAt(inv, pid)) }

  /** Takes from each warehouse with stock in turn until the request is met. */
  function SplitOver(inv: Inventory, sites: seq<Site>, pid: int, qty: int): seq<Item> {
    if sites == [] || qty <= 0 then []
    else
      var here := AvailableAt(inv, pid)(sites[0]);
      if here <= 0 then SplitOver(inv, sites[1..], pid, qty)
      else [Item(pid, sites[0].id, Min(here, qty))] + SplitOver(inv, sites[1..], pid, qty - Min(here, qty))
  }

  function Split(inv: Inventory, orderId: int, pid: int, qty: int): Result<FulfillmentPlan, Error> {
    if orderId <= 0 || pid <= 0 || qty <= 0 || qty > TotalAvailable(inv, pid) then Err(ValidationError)
    else Ok(FulfillmentPlan(orderId, SplitOver(inv, Routing(inv), pid, qty), None, Some(qty)))
  }
}
