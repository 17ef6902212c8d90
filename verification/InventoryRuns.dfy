/** Conservation, exactly-once batches and non-negative stock over runs of the inventory adapter,
    and why a computed split can always be applied. */
module InventoryRuns {
  import opened Prelude
  import opened Sums
  import opened Sorting
  import opened InventoryModel

  /** One call of the apply operation. */
  datatype Call = Call(orderId: int, plan: FulfillmentPlan, batchId: Option<string>, idempotent: bool, generated: string)

  function Do(inv: Inventory, c: Call): (Inventory, Result<Outcome, Error>) {
    Apply(inv, c.orderId, c.plan, c.batchId, c.idempotent, c.generated)
  }

  /** The inventory after a sequence of calls, successful or not. */
  function Run(inv: Inventory, calls: seq<Call>): Inventory
    decreases |calls|
  {
    if calls == [] then inv else Do(Run(inv, calls[..|calls| - 1]), calls[|calls| - 1]).0
  }

  // --- conservation ---

  /** One reservation moves exactly its quantity at exactly its product and warehouse. */
  lemma ReserveEffect(inv: Inventory, i: Item, orderId: int, batch: string, pid: int, wid: int)
    ensures var e := Reserve(inv, i, orderId, batch);
            && LevelAt(e.store, pid, wid).available
               == LevelAt(inv.store, pid, wid).available - QuantityAt(pid, wid)(i)
            && LevelAt(e.store, pid, wid).reserved
               == LevelAt(inv.store, pid, wid).reserved + QuantityAt(pid, wid)(i)
            && Picked(e.pickings, pid, wid) == Picked(inv.pickings, pid, wid) + QuantityAt(pid, wid)(i)
  {
    var p := Picking(inv.nextPickingId, orderId, i, batch);
    SumIntAppend(inv.pickings, p, PickedAt(pid, wid));
    hide SumInt;
    assert PickedAt(pid, wid)(p) == QuantityAt(pid, wid)(i);
  }

  lemma {:induction false} ReserveAllEffect(inv: Inventory, items: seq<Item>, orderId: int, batch: string, pid: int, wid: int)
    ensures var e := ReserveAll(inv, items, orderId, batch);
            && LevelAt(e.store, pid, wid).available == LevelAt(inv.store, pid, wid).available - TakenAt(items, pid, wid)
            && LevelAt(e.store, pid, wid).reserved == LevelAt(inv.store, pid, wid).reserved + TakenAt(items, pid, wid)
            && Picked(e.pickings, pid, wid) == Picked(inv.pickings, pid, wid) + TakenAt(items, pid, wid)
            && e.sites == inv.sites && e.orders == inv.orders
            && e.nextPickingId == inv.nextPickingId + |items|
    decreases |items|
  {
    if items != [] {
      var (before, last) := (items[..|items| - 1], items[|items| - 1]);
      ReserveAllEffect(inv, before, orderId, batch, pid, wid);
      ReserveEffect(ReserveAll(inv, before, orderId, batch), last, orderId, batch, pid, wid);
      assert items == before + [last];
      SumIntAppend(before, last, QuantityAt(pid, wid));
      hide SumInt, LevelAt, Put;
    }
  }

  /** Per product and warehouse, stock only moves from available to reserved, in step with the pickings. */
  ghost predicate Conserved(a: Inventory, b: Inventory) {
    && a.sites == b.sites && a.orders == b.orders
    && forall pid, wid ::
         && LevelAt(b.store, pid, wid).available + LevelAt(b.store, pid, wid).reserved
            == LevelAt(a.store, pid, wid).available + LevelAt(a.store, pid, wid).reserved
         && LevelAt(b.store, pid, wid).reserved - LevelAt(a.store, pid, wid).reserved
            == Picked(b.pickings, pid, wid) - Picked(a.pickings, pid, wid)
  }

  lemma CallConserves(inv: Inventory, c: Call)
    ensures Conserved(inv, Do(inv, c).0)
    ensures Do(inv, c).1.Err? ==> Do(inv, c).0 == inv
  {
    var batch := BatchOf(c.plan, c.batchId, c.generated);
    var e := ReserveAll(inv, c.plan.allocations, c.orderId, batch);
    ReserveAllEffect(inv, c.plan.allocations, c.orderId, batch, 0, 0);
    forall pid, wid
      ensures LevelAt(e.store, pid, wid).available + LevelAt(e.store, pid, wid).reserved
              == LevelAt(inv.store, pid, wid).available + LevelAt(inv.store, pid, wid).reserved
      ensures LevelAt(e.store, pid, wid).reserved - LevelAt(inv.store, pid, wid).reserved
              == Picked(e.pickings, pid, wid) - Picked(inv.pickings, pid, wid)
    {
      ReserveAllEffect(inv, c.plan.allocations, c.orderId, batch, pid, wid);
    }
    hide ReserveAll, LevelAt, SumInt;
  }

  /** Stock is conserved over every run of apply calls. */
  lemma {:induction false} RunConserves(inv: Inventory, calls: seq<Call>)
    ensures Conserved(inv, Run(inv, calls))
    decreases |calls|
  {
    if calls != [] {
      RunConserves(inv, calls[..|calls| - 1]);
      CallConserves(Run(inv, calls[..|calls| - 1]), calls[|calls| - 1]);
    }
  }

  // --- exactly-once batches ---

  lemma {:induction false} ReserveAllBatch(inv: Inventory, items: seq<Item>, orderId: int, batch: string, other: string)
    ensures BatchPickings(ReserveAll(inv, items, orderId, batch).pickings, other)
            == BatchPickings(inv.pickings, other)
               + if batch == other then seq(|items|, i => inv.nextPickingId + i) else []
    ensures ReserveAll(inv, items, orderId, batch).nextPickingId == inv.nextPickingId + |items|
    decreases |items|
  {
    if items != [] {
      var before := items[..|items| - 1];
      var e := ReserveAll(inv, before, orderId, batch);
      ReserveAllBatch(inv, before, orderId, batch, other);
      var ps := ReserveAll(inv, items, orderId, batch).pickings;
      assert ps[..|ps| - 1] == e.pickings && ps[|ps| - 1].id == inv.nextPickingId + |before|;
      assert seq(|items|, i => inv.nextPickingId + i)
          == seq(|before|, i => inv.nextPickingId + i) + [inv.nextPickingId + |before|];
    }
  }

  /** Once a batch has pickings, no call adds any to it. */
  lemma BatchFrozen(inv: Inventory, c: Call, batch: string)
    requires BatchPickings(inv.pickings, batch) != []
    ensures BatchPickings(Do(inv, c).0.pickings, batch) == BatchPickings(inv.pickings, batch)
  {
    ReserveAllBatch(inv, c.plan.allocations, c.orderId, BatchOf(c.plan, c.batchId, c.generated), batch);
  }

  lemma {:induction false} BatchFrozenOverRun(inv: Inventory, calls: seq<Call>, batch: string)
    requires BatchPickings(inv.pickings, batch) != []
    ensures BatchPickings(Run(inv, calls).pickings, batch) == BatchPickings(inv.pickings, batch)
    decreases |calls|
  {
    if calls != [] {
      BatchFrozenOverRun(inv, calls[..|calls| - 1], batch);
      BatchFrozen(Run(inv, calls[..|calls| - 1]), calls[|calls| - 1], batch);
    }
  }

  /** The pickings of a newly applied batch are exactly the ones returned. */
  lemma FirstPickings(inv: Inventory, c: Call)
    requires Do(inv, c).1.Ok? && Do(inv, c).1.value.Applied?
    ensures var batch := BatchOf(c.plan, c.batchId, c.generated);
            && Do(inv, c).1.value.batchId == batch
            && BatchPickings(Do(inv, c).0.pickings, batch) == Do(inv, c).1.value.pickingIds != []
  {
    var batch := BatchOf(c.plan, c.batchId, c.generated);
    ReserveAllBatch(inv, c.plan.allocations, c.orderId, batch, batch);
  }

  /** A batch deducts once: after it was applied, and whatever happens next, applying a plan under the same batch id
      changes nothing; it returns the first call's picking ids if idempotent and is refused if not. */
  lemma BatchAppliesOnce(inv: Inventory, first: Call, calls: seq<Call>, again: Call)
    requires Do(inv, first).1.Ok? && Do(inv, first).1.value.Applied?
    requires BatchOf(again.plan, again.batchId, again.generated) == BatchOf(first.plan, first.batchId, first.generated)
    requires PlanError(Run(Do(inv, first).0, calls), again.orderId, again.plan).None?
    ensures var later := Run(Do(inv, first).0, calls);
            Do(later, again) == (later, if again.idempotent
                                        then Ok(AlreadyApplied(Do(inv, first).1.value.batchId, Do(inv, first).1.value.pickingIds))
                                        else Err(InvalidStateError))
  {
    var batch := BatchOf(first.plan, first.batchId, first.generated);
    FirstPickings(inv, first);
    hide Run, ReserveAll, StockError, PlanError, BatchPickings, BatchOf;
    BatchFrozenOverRun(Do(inv, first).0, calls, batch);
  }

  // --- non-negative stock ---

  ghost predicate NonNegativeStock(inv: Inventory) { forall pid, wid :: LevelAt(inv.store, pid, wid).available >= 0 }

  /** No product is taken twice from the same warehouse. */
  ghost predicate DistinctPairs(items: seq<Item>) {
    forall i, j :: 0 <= i < j < |items| ==>
      items[i].productId != items[j].productId || items[i].warehouseId != items[j].warehouseId
  }

  /** A successful apply leaves non-negative stock exactly when the items together, not just one by one, fit the stock. */
  lemma NonNegativeExactly(inv: Inventory, c: Call)
    requires NonNegativeStock(inv) && Do(inv, c).1.Ok? && Do(inv, c).1.value.Applied?
    ensures NonNegativeStock(Do(inv, c).0) <==>
            forall pid, wid :: TakenAt(c.plan.allocations, pid, wid) <= LevelAt(inv.store, pid, wid).available
  {
    var e := Do(inv, c).0;
    forall pid, wid
      ensures LevelAt(e.store, pid, wid).available
              == LevelAt(inv.store, pid, wid).available - TakenAt(c.plan.allocations, pid, wid)
    {
      ReserveAllEffect(inv, c.plan.allocations, c.orderId, BatchOf(c.plan, c.batchId, c.generated), pid, wid);
    }
    hide ReserveAll, LevelAt, SumInt;
    if NonNegativeStock(e) {
      forall pid, wid ensures TakenAt(c.plan.allocations, pid, wid) <= LevelAt(inv.store, pid, wid).available {
        assert LevelAt(e.store, pid, wid).available >= 0;
      }
    }
  }

  lemma {:induction false} TakenNowhere(items: seq<Item>, pid: int, wid: int)
    requires forall i :: i in items ==> i.productId != pid || i.warehouseId != wid
    ensures TakenAt(items, pid, wid) == 0
  {
    ZeroSumInt(items, QuantityAt(pid, wid));
  }

  /** With distinct pairs the item-by-item check is a check of the totals. */
  lemma {:induction false} DistinctPairsFit(inv: Inventory, items: seq<Item>, pid: int, wid: int)
    requires NonNegativeStock(inv) && DistinctPairs(items) && StockError(inv, items).None?
    ensures TakenAt(items, pid, wid) <= LevelAt(inv.store, pid, wid).available
  {
    if items == [] {
      assert TakenAt(items, pid, wid) == 0;
    } else if items[0].productId == pid && items[0].warehouseId == wid {
      TakenNowhere(items[1..], pid, wid);
    } else {
      DistinctPairsFit(inv, items[1..], pid, wid);
    }
  }

  /** Over runs of plans with distinct pairs available stock never goes negative. */
  lemma {:induction false} RunStaysNonNegative(inv: Inventory, calls: seq<Call>)
    requires NonNegativeStock(inv) && forall c :: c in calls ==> DistinctPairs(c.plan.allocations)
    ensures NonNegativeStock(Run(inv, calls))
    decreases |calls|
  {
    if calls != [] {
      var (before, c) := (Run(inv, calls[..|calls| - 1]), calls[|calls| - 1]);
      RunStaysNonNegative(inv, calls[..|calls| - 1]);
      if Do(before, c).1.Ok? && Do(before, c).1.value.Applied? {
        NonNegativeExactly(before, c);
        forall pid, wid ensures TakenAt(c.plan.allocations, pid, wid) <= LevelAt(before.store, pid, wid).available {
          DistinctPairsFit(before, c.plan.allocations, pid, wid);
        }
      }
    }
  }

  /** Listing the same pair twice passes the check and oversells: 6 + 6 out of 10. */
  lemma RepeatedPairOversells() returns (inv: Inventory, c: Call)
    ensures NonNegativeStock(inv) && Do(inv, c).1.Ok? && LevelAt(Do(inv, c).0.store, 1, 1).available == -2
  {
    inv := Inventory([Site(1, 1)], map[1 := map[1 := Level(10, 0, 0)]], map[1 := Sale], [], 1001);
    var i := Item(1, 1, 6);
    c := Call(1, FulfillmentPlan(1, [i, i], None, Some(12)), Some("B"), false, "");
    assert Site(1, 1) in inv.sites;
    var s := [i, i];
    SumIntPair(i, i, QuantityOf());
    SumIntPair(i, i, QuantityAt(1, 1));
    ServableItems(inv, s);
    ReserveAllEffect(inv, s, 1, "B", 1, 1);
    hide ReserveAll, SumInt;
  }

  // --- split then apply ---

  /** Stock counted only where it is positive. */
  function PositiveAt(inv: Inventory, pid: int): Site -> int { (s: Site) => Max(0, AvailableAt(inv, pid)(s)) }

  /** What is split adds up to the request whenever the warehouses hold enough. */
  lemma {:induction false} SplitAddsUp(inv: Inventory, sites: seq<Site>, pid: int, qty: int)
    requires 0 <= qty <= SumInt(sites, PositiveAt(inv, pid))
    ensures TotalQuantity(SplitOver(inv, sites, pid, qty)) == qty
  {
    if sites != [] && qty > 0 {
      var here := AvailableAt(inv, pid)(sites[0]);
      assert PositiveAt(inv, pid)(sites[0]) == Max(0, here);
      if here <= 0 {
        SplitAddsUp(inv, sites[1..], pid, qty);
      } else {
        SumIntNonNegative(sites[1..], PositiveAt(inv, pid));
        SplitAddsUp(inv, sites[1..], pid, qty - Min(here, qty));
        var s := SplitOver(inv, sites, pid, qty);
        assert s[1..] == SplitOver(inv, sites[1..], pid, qty - Min(here, qty));
      }
    }
  }

  /** Every item takes a positive quantity that its warehouse has, and all but the last drain theirs. */
  lemma {:induction false} SplitDrains(inv: Inventory, sites: seq<Site>, pid: int, qty: int)
    ensures var s := SplitOver(inv, sites, pid, qty);
            && (forall i :: i in s ==> i.productId == pid && (exists t :: t in sites && t.id == i.warehouseId)
                                       && 0 < i.quantity <= LevelAt(inv.store, pid, i.warehouseId).available)
            && forall k :: 0 <= k < |s| - 1 ==> s[k].quantity == LevelAt(inv.store, pid, s[k].warehouseId).available
  {
    if sites != [] && qty > 0 {
      assert sites[0] in sites && forall t :: t in sites[1..] ==> t in sites;
      var here := AvailableAt(inv, pid)(sites[0]);
      if here <= 0 {
        SplitDrains(inv, sites[1..], pid, qty);
      } else {
        SplitDrains(inv, sites[1..], pid, qty - Min(here, qty));
      }
    }
  }

  ghost predicate DistinctSites(sites: seq<Site>) { forall i, j :: 0 <= i < j < |sites| ==> sites[i].id != sites[j].id }

  lemma {:induction false} SplitPairsDistinct(inv: Inventory, sites: seq<Site>, pid: int, qty: int)
    requires DistinctSites(sites)
    ensures DistinctPairs(SplitOver(inv, sites, pid, qty))
  {
    if sites != [] && qty > 0 {
      var here := AvailableAt(inv, pid)(sites[0]);
      if here <= 0 {
        SplitPairsDistinct(inv, sites[1..], pid, qty);
      } else {
        var rest := SplitOver(inv, sites[1..], pid, qty - Min(here, qty));
        SplitPairsDistinct(inv, sites[1..], pid, qty - Min(here, qty));
        SplitDrains(inv, sites[1..], pid, qty - Min(here, qty));
        forall i | i in rest ensures i.warehouseId != sites[0].id {
          var t :| t in sites[1..] && t.id == i.warehouseId;
          var k :| 0 <= k < |sites[1..]| && sites[1..][k] == t;
          assert sites[k + 1] == t;
        }
      }
    }
  }

  lemma {:induction false} ServableItems(inv: Inventory, items: seq<Item>)
    requires forall i :: i in items ==> ItemError(inv, i).None?
    ensures StockError(inv, items).None?
  {
    if items != [] {
      ServableItems(inv, items[1..]);
    }
  }

  /** A successful split adds up exactly to the request, however stock is spread and even where some is negative,
      and drains every warehouse it uses but the last. */
  lemma SplitIsExact(inv: Inventory, orderId: int, pid: int, qty: int)
    requires Split(inv, orderId, pid, qty).Ok?
    ensures var s := Split(inv, orderId, pid, qty).value.allocations;
            && s != [] && TotalQuantity(s) == qty
            && (forall i :: i in s ==> ItemError(inv, i).None? && i.quantity > 0 && i.productId == pid)
            && (forall k :: 0 <= k < |s| - 1 ==> s[k].quantity == LevelAt(inv.store, pid, s[k].warehouseId).available)
  {
    var routing := Routing(inv);
    SameElements(routing, inv.sites);
    SumIntPermutation(routing, inv.sites, AvailableAt(inv, pid));
    SumIntMonotone(routing, AvailableAt(inv, pid), PositiveAt(inv, pid));
    SplitAddsUp(inv, routing, pid, qty);
    SplitDrains(inv, routing, pid, qty);
  }

  /** A split computed for an open order always passes every check when applied to unchanged stock under a new batch,
      and leaves stock non-negative. */
  lemma SplitThenApply(inv: Inventory, orderId: int, pid: int, qty: int, batchId: Option<string>, idempotent: bool,
                       generated: string)
    requires Split(inv, orderId, pid, qty).Ok?
    requires orderId in inv.orders && !inv.orders[orderId].Cancelled? && !inv.orders[orderId].Done?
    requires DistinctSites(inv.sites) && (forall s :: s in inv.sites ==> s.id > 0)
    requires BatchPickings(inv.pickings, BatchOf(Split(inv, orderId, pid, qty).value, batchId, generated)) == []
    ensures var c := Call(orderId, Split(inv, orderId, pid, qty).value, batchId, idempotent, generated);
            && Do(inv, c).1.Ok? && Do(inv, c).1.value.Applied?
            && (NonNegativeStock(inv) ==> NonNegativeStock(Do(inv, c).0))
  {
    var plan := Split(inv, orderId, pid, qty).value;
    var c := Call(orderId, plan, batchId, idempotent, generated);
    SplitIsExact(inv, orderId, pid, qty);
    ServableItems(inv, plan.allocations);
    assert forall i :: i in plan.allocations ==> !BadItem(i);
    if NonNegativeStock(inv) {
      RoutingDistinct(inv);
      SplitPairsDistinct(inv, Routing(inv), pid, qty);
      forall p, wid ensures TakenAt(plan.allocations, p, wid) <= LevelAt(inv.store, p, wid).available {
        DistinctPairsFit(inv, plan.allocations, p, wid);
      }
      NonNegativeExactly(inv, c);
    }
  }

  lemma RoutingDistinct(inv: Inventory)
    requires DistinctSites(inv.sites)
    ensures DistinctSites(Routing(inv))
  {
    SortKeepsDistinct(inv.sites);
  }

  lemma {:induction false} SortKeepsDistinct(sites: seq<Site>)
    requires DistinctSites(sites)
    ensures DistinctSites(Sort(sites, SiteLe))
  {
    if sites != [] {
      var rest := Sort(sites[1..], SiteLe);
      SortKeepsDistinct(sites[1..]);
      SameElements(rest, sites[1..]);
      InsertKeepsDistinct(sites[0], rest);
    }
  }

  lemma {:induction false} InsertKeepsDistinct(x: Site, s: seq<Site>)
    requires DistinctSites(s) && forall t :: t in s ==> t.id != x.id
    ensures DistinctSites(Insert(x, s, SiteLe))
  {
    if s != [] && !SiteLe(x, s[0]) {
      var r := Insert(x, s[1..], SiteLe);
      InsertKeepsDistinct(x, s[1..]);
      forall t | t in r ensures t.id != s[0].id {
        assert t in multiset(r);
      }
    }
  }
}
