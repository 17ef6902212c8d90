/** The fulfillment service acting on a deal's plans, and the order system creating pickings. */
module PlanDesk {
  import opened Prelude
  import opened FulfillmentBound
  import opened FulfillmentModel
  import P = FulfillmentPlanner
  import A = ApprovalModel
  import M = PlanModel

  class OrderDepot {
    var stock: Stock
    var pickings: seq<M.Picking>
    var pickingSeq: int

    ghost function View(): M.Depot
      reads this
    {
      M.Depot(stock, pickings, pickingSeq)
    }

    constructor (stock: Stock, pickingSeq: int)
      ensures View() == M.Depot(stock, [], pickingSeq)
    {
      this.stock, pickings, this.pickingSeq := stock, [], pickingSeq;
    }

    /** Groups the allocations by warehouse and creates one picking per group. */
    method ApplyFulfillmentPlan(items: seq<Allocation>) returns (created: seq<int>)
      requires forall a :: a in items ==> a.warehouseId.Some?
      modifies this
      ensures View() == M.PickAll(old(View()), M.WarehousesOf(items), items)
      ensures created == seq(|M.WarehousesOf(items)|, i => old(pickingSeq) + 1 + i)
    {
      hide M.DeductAll, M.WarehousesOf;
      var warehouses := GroupByWarehouse(items);
      created := [];
      for k := 0 to |warehouses|
        invariant View() == M.PickAll(old(View()), warehouses[..k], items)
        invariant pickingSeq == old(pickingSeq) + k
        invariant |created| == k && forall j :: 0 <= j < k ==> created[j] == old(pickingSeq) + 1 + j
      {
        assert warehouses[..k + 1][..k] == warehouses[..k];
        CreatePicking(warehouses[k], Filter(items, M.FromWarehouse(warehouses[k])));
        created := created + [pickingSeq];
      }
      assert warehouses[..|warehouses|] == warehouses;
    }

    method GroupByWarehouse(items: seq<Allocation>) returns (warehouses: seq<int>)
      ensures warehouses == M.WarehousesOf(items)
    {
      warehouses := [];
      for i := 0 to |items|
        invariant warehouses == M.WarehousesOf(items[..i])
      {
        assert items[..i + 1][..i] == items[..i];
        if M.HasWarehouse(items[i]) {
          if items[i].warehouseId.value !in warehouses {
            warehouses := warehouses + [items[i].warehouseId.value];
          }
        }
      }
      assert items[..|items|] == items;
    }

    method CreatePicking(wid: int, group: seq<Allocation>)
      requires forall a :: a in group ==> a.warehouseId == Some(wid)
      modifies this
      ensures View() == M.Depot(M.DeductAll(old(stock), group),
                                old(pickings) + [M.Picking(old(pickingSeq) + 1, wid, group)], old(pickingSeq) + 1)
    {
      pickingSeq := pickingSeq + 1;
      for i := 0 to |group|
        invariant stock == M.DeductAll(old(stock), group[..i])
        invariant pickings == old(pickings) && pickingSeq == old(pickingSeq) + 1
      {
        assert group[..i + 1][..i] == group[..i];
        var pid := group[i].productId;
        if pid in stock && wid in stock[pid] {
          stock := stock[pid := stock[pid][wid := Max(0, stock[pid][wid] - group[i].allocatedQty)]];
        }
      }
      assert group[..|group|] == group;
      pickings := pickings + [M.Picking(pickingSeq, wid, group)];
    }
  }

  class PlanTable {
    const depot: OrderDepot
    var dealStatus: A.DealStatus
    var rows: seq<M.Row>

    ghost function View(): M.Desk
      reads this, depot
    {
      M.Desk(dealStatus, rows, depot.View())
    }

    constructor (depot: OrderDepot, dealStatus: A.DealStatus)
      ensures this.depot == depot && View() == M.Desk(dealStatus, [], depot.View())
    {
      this.depot, this.dealStatus, rows := depot, dealStatus, [];
    }

    /** Plans the stockable lines of the order over the active warehouses and stores the proposal. */
    method ProposeFulfillmentPlan(lines: seq<Line>, warehouses: seq<Warehouse>, strategy: Option<string>)
      returns (ghost result: P.Plan)
      requires DistinctIds(ActiveWarehouses(warehouses))
      modifies this
      ensures P.FitsRaw(result, lines, warehouses, depot.stock)
      ensures P.StrategyRaw(result, lines, warehouses, depot.stock, strategy)
      ensures P.PlanFits(result, ActiveWarehouses(warehouses), ValidLines(lines), depot.stock)
      ensures var (active, valid) := (ActiveWarehouses(warehouses), ValidLines(lines));
              P.SearchesAll(strategy, active, valid, depot.stock) && |active| <= 6 && CanCover(active, valid, depot.stock) ==>
                P.OptimalShipping(result, active, valid, depot.stock)
      ensures result.strategy.Greedy? ==>
                GreedyPlan(result.chosen, ActiveWarehouses(warehouses), ValidLines(lines), depot.stock)
      ensures View() == M.Propose(old(View()), result)
    {
      hide P.FitsRaw, P.StrategyRaw, P.OptimalRaw, P.PlanFits, P.OptimalShipping, GreedyPlan;
      var plan := P.CalculateFulfillmentPlan(lines, warehouses, depot.stock, strategy);
      var rows0 := rows;
      var i := 0;
      while i < |rows|
        invariant 0 <= i <= |rows| == |rows0|
        invariant forall k :: 0 <= k < i ==> rows[k] == M.SupersedeRow(rows0[k])
        invariant forall k :: i <= k < |rows| ==> rows[k] == rows0[k]
        invariant dealStatus == old(dealStatus)
      {
        if rows[i].status.Proposed? {
          rows := rows[i := rows[i].(status := M.Superseded)];
        }
        i := i + 1;
      }
      assert rows == M.SupersedeRows(rows0);
      rows := rows + [M.Row(M.Proposed, false, plan.shipments, plan.shippingCost, plan.allocations + plan.backorders, [])];
      result := plan;
    }

    method AcceptFulfillmentPlan(k: nat) returns (error: Option<M.Error>)
      modifies this
      ensures error == M.AcceptError(old(View()), k) && View() == M.Accept(old(View()), k)
    {
      if k >= |rows| {
        return Some(M.NotFound);
      }
      if !rows[k].status.Proposed? {
        return Some(M.InvalidStatus);
      }
      rows := rows[k := rows[k].(status := M.Accepted)];
      return None;
    }

    /** Replaces the lines of a plan by hand; nothing is kept of a refused override. */
    method OverrideFulfillmentPlan(k: nat, items: seq<M.Manual>, hasReason: bool, products: map<int, int>,
                                   profiles: seq<Warehouse>) returns (error: Option<M.Error>)
      modifies this
      ensures error == M.OverrideError(old(View()), k, items, hasReason, products)
      ensures View() == M.Override(old(View()), k, items, hasReason, products, profiles)
    {
      if !hasReason {
        return Some(M.ReasonRequired);
      }
      if k >= |rows| {
        return Some(M.NotFound);
      }
      if !(rows[k].status.Proposed? || rows[k].status.Accepted?) {
        return Some(M.InvalidStatus);
      }
      var lines: seq<Allocation> := [];
      var used: set<int> := {};
      for i := 0 to |items|
        invariant M.NamesLines(items[..i], products)
        invariant lines == M.ManualLines(items[..i], products, profiles)
        invariant used == M.ShipsFrom(lines)
      {
        var m := items[i];
        if m.lineId == 0 || m.lineId !in products {
          assert m in items;
          return Some(M.InvalidLine);
        }
        assert items[..i + 1][..i] == items[..i];
        if m.shipped + m.backorder > 0 {
          var line := M.ManualLine(m, products, profiles);
          if M.HasWarehouse(line) && m.shipped > 0 {
            used := used + {m.warehouseId.value};
          }
          lines := lines + [line];
        }
      }
      assert items[..|items|] == items;
      rows := rows[k := rows[k].(status := M.Overridden, manual := true, lines := lines, shipments := |used|,
                                 shippingCost := ShippingCost(profiles, used))];
      return None;
    }

    method ApplyPlan(k: nat) returns (error: Option<M.Error>)
      modifies this, depot
      ensures error == M.ApplyError(old(View()), k) && View() == M.ApplyPlan(old(View()), k)
    {
      if !(dealStatus.Confirmed? || dealStatus.InFulfillment?) {
        return Some(M.DealNotConfirmed);
      }
      if k >= |rows| {
        return Some(M.NotFound);
      }
      if !(rows[k].status.Accepted? || rows[k].status.Overridden?) {
        return Some(M.InvalidStatus);
      }
      var payload := Filter(rows[k].lines, M.IsShippable());
      var pickingIds := depot.ApplyFulfillmentPlan(payload);
      rows := rows[k := rows[k].(status := M.Applied, pickingIds := pickingIds)];
      dealStatus := A.InFulfillment;
      return None;
    }
  }
}
