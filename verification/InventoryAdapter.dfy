/** The inventory adapter working on its in-memory store, proved to do what InventoryModel says. */
module InventoryAdapter {
  import opened Prelude
  import opened Sums
  import opened Sorting
  import opened InventoryModel
  import InventoryRuns

  class Adapter {
    const sites: seq<Site>
    var store: map<int, map<int, Level>>
    var orders: map<int, OrderState>
    var pickings: seq<Picking>
    var nextPickingId: int

    ghost function View(): Inventory
      reads this
    {
      Inventory(sites, store, orders, pickings, nextPickingId)
    }

    constructor (sites: seq<Site>, store: map<int, map<int, Level>>, orders: map<int, OrderState>)
      ensures View() == Inventory(sites, store, orders, [], 1001)
    {
      this.sites, this.store, this.orders := sites, store, orders;
      pickings, nextPickingId := [], 1001;
    }

    method ExistingPickings(batch: string) returns (ids: seq<int>)
      ensures ids == BatchPickings(pickings, batch)
    {
      ids := [];
      for i := 0 to |pickings|
        invariant ids == BatchPickings(pickings[..i], batch)
      {
        assert pickings[..i + 1][..i] == pickings[..i];
        if pickings[i].batchId == batch {
          ids := ids + [pickings[i].id];
        }
      }
      assert pickings[..|pickings|] == pickings;
    }

    /** The live stock of a warehouse, if the adapter knows the warehouse. */
    method WarehouseStock(pid: int, wid: int) returns (level: Option<Level>)
      ensures level == if HasSite(View(), wid) then Some(LevelAt(store, pid, wid)) else None
    {
      for i := 0 to |sites|
        invariant forall k :: 0 <= k < i ==> sites[k].id != wid
      {
        if sites[i].id == wid {
          assert sites[i] in View().sites;
          return Some(LevelAt(store, pid, wid));
        }
      }
      return None;
    }

    method CheckPlan(orderId: int, plan: FulfillmentPlan) returns (error: Option<Error>)
      ensures error == PlanError(View(), orderId, plan)
    {
      if orderId <= 0 || plan.orderId != orderId || plan.allocations == [] {
        return Some(ValidationError);
      }
      var total := TotalQuantity(plan.allocations);
      if total <= 0 {
        return Some(ValidationError);
      }
      for i := 0 to |plan.allocations|
        invariant forall k :: 0 <= k < i ==> !BadItem(plan.allocations[k])
      {
        if plan.allocations[i].warehouseId <= 0 || plan.allocations[i].quantity <= 0 {
          assert BadItem(plan.allocations[i]);
          return Some(ValidationError);
        }
      }
      if plan.requestedQty.Some? && !(-1 <= total - plan.requestedQty.value <= 1) {
        return Some(ValidationError);
      }
      if orderId !in orders {
        return Some(NotFoundError);
      }
      if orders[orderId].Cancelled? || orders[orderId].Done? {
        return Some(InvalidStateError);
      }
      return None;
    }

    method CheckStock(items: seq<Item>) returns (error: Option<Error>)
      ensures error == StockError(View(), items)
    {
      for i := 0 to |items|
        invariant StockError(View(), items) == StockError(View(), items[i..])
      {
        if items[i].productId <= 0 {
          return Some(ValidationError);
        }
        var level := WarehouseStock(items[i].productId, items[i].warehouseId);
        if level.None? {
          return Some(NotFoundError);
        }
        if level.value.available < items[i].quantity {
          return Some(InvalidStateError);
        }
        assert items[i..][1..] == items[i + 1..];
      }
      return None;
    }

    method ApplyFulfillmentPlan(orderId: int, plan: FulfillmentPlan, batchId: Option<string>, idempotent: bool,
                                generated: string) returns (r: Result<Outcome, Error>)
      modifies this
      ensures (View(), r) == Apply(old(View()), orderId, plan, batchId, idempotent, generated)
    {
      var error := CheckPlan(orderId, plan);
      if error.Some? {
        return Err(error.value);
      }
      var batch := BatchOf(plan, batchId, generated);
      var existing := ExistingPickings(batch);
      if existing != [] {
        return if idempotent then Ok(AlreadyApplied(batch, existing)) else Err(InvalidStateError);
      }
      error := CheckStock(plan.allocations);
      if error.Some? {
        return Err(error.value);
      }
      var created := ReserveItems(orderId, plan.allocations, batch);
      return Ok(Applied(batch, created));
    }

    /** The mutation itself: no check fails any more. */
    method ReserveItems(orderId: int, items: seq<Item>, batch: string) returns (created: seq<int>)
      modifies this
      ensures View() == ReserveAll(old(View()), items, orderId, batch)
      ensures created == seq(|items|, i => old(nextPickingId) + i)
    {
      hide Put, LevelAt;
      created := [];
      for i := 0 to |items|
        invariant View() == ReserveAll(old(View()), items[..i], orderId, batch)
        invariant nextPickingId == old(nextPickingId) + i
        invariant |created| == i && forall k :: 0 <= k < i ==> created[k] == old(nextPickingId) + k
      {
        var item := items[i];
        assert items[..i + 1][..i] == items[..i];
        var l := LevelAt(store, item.productId, item.warehouseId);
        store := Put(store, item.productId, item.warehouseId,
                     l.(available := l.available - item.quantity, reserved := l.reserved + item.quantity));
        pickings := pickings + [Picking(nextPickingId, orderId, item, batch)];
        created := created + [nextPickingId];
        nextPickingId := nextPickingId + 1;
      }
      assert items[..|items|] == items;
    }

    method CalculateFulfillmentSplit(orderId: int, pid: int, qty: int) returns (r: Result<FulfillmentPlan, Error>)
      ensures r == Split(View(), orderId, pid, qty)
    {
      if orderId <= 0 || pid <= 0 || qty <= 0 {
        return Err(ValidationError);
      }
      var routing := Sort(sites, SiteLe);
      var total := TotalOver(routing, pid);
      SumIntPermutation(routing, sites, AvailableAt(View(), pid));
      if qty > total {
        return Err(ValidationError);
      }
      var allocations := AllocateOver(routing, pid, qty);
      InventoryRuns.SplitIsExact(View(), orderId, pid, qty);
      if !(-1 <= TotalQuantity(allocations) - qty <= 1) {
        assert false; // the closing check of the sum never fires
      }
      return Ok(FulfillmentPlan(orderId, allocations, None, Some(qty)));
    }

    method TotalOver(routing: seq<Site>, pid: int) returns (total: int)
      ensures total == SumInt(routing, AvailableAt(View(), pid))
    {
      total := 0;
      for i := 0 to |routing|
        invariant total == SumInt(routing[..i], AvailableAt(View(), pid))
      {
        SumIntPrefix(routing, i, AvailableAt(View(), pid));
        total := total + LevelAt(store, pid, routing[i].id).available;
      }
      assert routing[..|routing|] == routing;
    }

    /** Greedy allocation in routing order. */
    method AllocateOver(routing: seq<Site>, pid: int, qty: int) returns (allocations: seq<Item>)
      requires qty > 0
      ensures allocations == SplitOver(View(), routing, pid, qty)
    {
      allocations := [];
      var remaining := qty;
      for i := 0 to |routing|
        invariant remaining > 0
        invariant SplitOver(View(), routing, pid, qty) == allocations + SplitOver(View(), routing[i..], pid, remaining)
      {
        assert routing[i..][1..] == routing[i + 1..];
        var available := LevelAt(store, pid, routing[i].id).available;
        if available > 0 {
          var take := Min(available, remaining);
          allocations := allocations + [Item(pid, routing[i].id, take)];
          remaining := remaining - take;
          if remaining <= 0 {
            break;
          }
        }
      }
    }
  }
}
