/** What applying and splitting do, on the caller's arguments and the stock on record. */
module InventoryLaws {
  import opened Prelude
  import opened Sums
  import opened Sorting
  import opened InventoryModel
  import opened InventoryRuns

  // --- which batch ---

  /** The batch id a call works under: the caller's, unless missing or empty; else the plan's, unless missing or empty; and a
      generated one only then. */
  predicate WorksUnder(c: Call, batch: string) {
    match (c.batchId, c.plan.batchId)
    case (Some(b), other) =>
      if |b| > 0 then batch == b
      else (match other case Some(o) => (if |o| > 0 then batch == o else batch == c.generated) case None => batch == c.generated)
    case (None, Some(o)) => if |o| > 0 then batch == o else batch == c.generated
    case (None, None) => batch == c.generated
  }

  lemma BatchIs(c: Call)
    ensures WorksUnder(c, BatchOf(c.plan, c.batchId, c.generated))
  {
  }

  /** A picking of this batch is on record. */
  ghost predicate OnRecord(inv: Inventory, batch: string) { exists p :: p in inv.pickings && p.batchId == batch }

  lemma {:induction false} RecordedPickings(pickings: seq<Picking>, batch: string)
    ensures BatchPickings(pickings, batch) != [] <==> exists p :: p in pickings && p.batchId == batch
    ensures forall id :: id in BatchPickings(pickings, batch) <==> exists p :: p in pickings && p.batchId == batch && p.id == id
    decreases |pickings|
  {
    if pickings != [] {
      var (before, last) := (pickings[..|pickings| - 1], pickings[|pickings| - 1]);
      RecordedPickings(before, batch);
      assert forall p :: p in pickings <==> p in before || p == last;
    }
  }

  /** Exactly once on the caller's batch id: after a call under it was applied, and whatever happens next, any call under the
      same id, with whatever plan and generated id, changes nothing: it is refused, or returns the first call's picking ids.
      The very same request is refused only if it is not idempotent. */
  lemma CallerBatchOnce(inv: Inventory, first: Call, calls: seq<Call>, again: Call, batch: string)
    requires first.batchId == again.batchId == Some(batch) && batch != ""
    requires Do(inv, first).1.Ok? && Do(inv, first).1.value.Applied?
    ensures var (later, ids) := (Run(Do(inv, first).0, calls), Do(inv, first).1.value.pickingIds);
            && Do(inv, first).1.value.batchId == batch && Do(later, again).0 == later
            && (Do(later, again).1.Err? || Do(later, again).1 == Ok(AlreadyApplied(batch, ids)))
            && (again.plan == first.plan && again.orderId == first.orderId ==>
                  Do(later, again).1 == if again.idempotent then Ok(AlreadyApplied(batch, ids)) else Err(InvalidStateError))
  {
    OnceUnder(inv, first, calls, again, batch);
  }

  /** The same for the plan's batch id, when the caller gives none or an empty one. */
  lemma PlanBatchOnce(inv: Inventory, first: Call, calls: seq<Call>, again: Call, batch: string)
    requires first.plan.batchId == again.plan.batchId == Some(batch) && batch != ""
    requires first.batchId in {None, Some("")} && again.batchId in {None, Some("")}
    requires Do(inv, first).1.Ok? && Do(inv, first).1.value.Applied?
    ensures var (later, ids) := (Run(Do(inv, first).0, calls), Do(inv, first).1.value.pickingIds);
            && Do(inv, first).1.value.batchId == batch && Do(later, again).0 == later
            && (Do(later, again).1.Err? || Do(later, again).1 == Ok(AlreadyApplied(batch, ids)))
            && (again.plan == first.plan && again.orderId == first.orderId ==>
                  Do(later, again).1 == if again.idempotent then Ok(AlreadyApplied(batch, ids)) else Err(InvalidStateError))
  {
    OnceUnder(inv, first, calls, again, batch);
  }

  lemma OnceUnder(inv: Inventory, first: Call, calls: seq<Call>, again: Call, batch: string)
    requires WorksUnder(first, batch) && WorksUnder(again, batch)
    requires Do(inv, first).1.Ok? && Do(inv, first).1.value.Applied?
    ensures var (later, ids) := (Run(Do(inv, first).0, calls), Do(inv, first).1.value.pickingIds);
            && Do(inv, first).1.value.batchId == batch && Do(later, again).0 == later
            && (Do(later, again).1.Err? || Do(later, again).1 == Ok(AlreadyApplied(batch, ids)))
            && (again.plan == first.plan && again.orderId == first.orderId ==>
                  Do(later, again).1 == if again.idempotent then Ok(AlreadyApplied(batch, ids)) else Err(InvalidStateError))
  {
    BatchIs(first);
    BatchIs(again);
    FirstPickings(inv, first);
    var e := Do(inv, first).0;
    CallConserves(inv, first);
    RunConserves(e, calls);
    BatchFrozenOverRun(e, calls, batch);
    hide Run, ReserveAll, StockError, BatchPickings, BatchOf, LevelAt;
    if PlanError(Run(e, calls), again.orderId, again.plan).None? {
      BatchAppliesOnce(inv, first, calls, again);
    }
  }

  // --- when a call succeeds ---

  function Total(items: seq<Item>): int { if items == [] then 0 else items[0].quantity + Total(items[1..]) }

  lemma {:induction false} TotalIsSum(items: seq<Item>)
    ensures TotalQuantity(items) == Total(items)
    ensures (forall i :: i in items ==> i.quantity > 0) && items != [] ==> Total(items) > 0
  {
    if items != [] {
      TotalIsSum(items[1..]);
    }
  }

  /** Available stock; what is not on record is zero. */
  function Available(inv: Inventory, pid: int, wid: int): int {
    if pid !in inv.store then 0 else if wid !in inv.store[pid] then 0 else inv.store[pid][wid].available
  }

  /** The request is well formed: positive ids and quantities that add up to the requested one, to 0.0001. */
  ghost predicate WellFormed(c: Call) {
    && c.orderId > 0 && c.plan.orderId == c.orderId && c.plan.allocations != []
    && (forall i :: i in c.plan.allocations ==> i.quantity > 0 && i.warehouseId > 0)
    && (c.plan.requestedQty.Some? ==>
          c.plan.requestedQty.value - 1 <= Total(c.plan.allocations) <= c.plan.requestedQty.value + 1)
  }

  /** The order exists and is neither cancelled nor done. */
  ghost predicate OpenOrder(inv: Inventory, orderId: int) {
    orderId in inv.orders && (inv.orders[orderId].Draft? || inv.orders[orderId].Sale?)
  }

  /** The item's product is valid, its warehouse known, and its quantity in stock there. */
  ghost predicate ItemInStock(inv: Inventory, i: Item) {
    && i.productId > 0 && (exists s :: s in inv.sites && s.id == i.warehouseId)
    && i.quantity <= Available(inv, i.productId, i.warehouseId)
  }

  /** Each item by itself is in stock at a known warehouse. */
  ghost predicate InStock(inv: Inventory, items: seq<Item>) { forall k :: 0 <= k < |items| ==> ItemInStock(inv, items[k]) }

  lemma PlanErrorMeans(inv: Inventory, c: Call)
    ensures PlanError(inv, c.orderId, c.plan) == (if !WellFormed(c) then Some(ValidationError)
                                                  else if c.orderId !in inv.orders then Some(NotFoundError)
                                                  else if !OpenOrder(inv, c.orderId) then Some(InvalidStateError)
                                                  else None)
  {
    TotalIsSum(c.plan.allocations);
    hide TotalQuantity, Total;
  }

  lemma ItemErrorMeans(inv: Inventory, i: Item)
    ensures ItemError(inv, i) == if ItemInStock(inv, i) then None else Some(KindOf(inv, i))
  {
  }

  lemma {:induction false} StockErrorMeans(inv: Inventory, items: seq<Item>)
    ensures StockError(inv, items).None? <==> InStock(inv, items)
  {
    if items != [] {
      StockErrorMeans(inv, items[1..]);
      ItemErrorMeans(inv, items[0]);
      assert forall k :: 0 < k < |items| ==> items[k] == items[1..][k - 1];
      hide ItemInStock, ItemError, KindOf;
    }
  }

  /** The first item that is not in stock decides the error: an invalid product, an unknown warehouse, or too little stock. */
  lemma {:induction false} StockErrorKind(inv: Inventory, items: seq<Item>, k: nat)
    requires k < |items| && InStock(inv, items[..k]) && !ItemInStock(inv, items[k])
    ensures StockError(inv, items) == Some(KindOf(inv, items[k]))
  {
    ItemErrorMeans(inv, items[0]);
    hide ItemInStock, ItemError, KindOf;
    if k > 0 {
      assert items[..k][0] == items[0];
      assert items[1..][..k - 1] == items[..k][1..] && items[1..][k - 1] == items[k];
      StockErrorKind(inv, items[1..], k - 1);
    }
  }

  ghost function KindOf(inv: Inventory, i: Item): Error {
    if i.productId <= 0 then ValidationError
    else if forall s :: s in inv.sites ==> s.id != i.warehouseId then NotFoundError
    else InvalidStateError
  }

  /** A call is applied if and only if it is well formed, its order open, its batch not on record, and every item in stock; a
      batch on record is reported if the call is idempotent. */
  lemma AppliesExactly(inv: Inventory, c: Call, batch: string)
    requires WorksUnder(c, batch)
    ensures (Do(inv, c).1.Ok? && Do(inv, c).1.value.Applied?) <==>
              WellFormed(c) && OpenOrder(inv, c.orderId) && !OnRecord(inv, batch) && InStock(inv, c.plan.allocations)
    ensures (Do(inv, c).1.Ok? && Do(inv, c).1.value.AlreadyApplied?) <==>
              WellFormed(c) && OpenOrder(inv, c.orderId) && OnRecord(inv, batch) && c.idempotent
    ensures !WellFormed(c) ==> Do(inv, c).1 == Err(ValidationError)
    ensures WellFormed(c) && c.orderId !in inv.orders ==> Do(inv, c).1 == Err(NotFoundError)
    ensures WellFormed(c) && c.orderId in inv.orders && !OpenOrder(inv, c.orderId) ==> Do(inv, c).1 == Err(InvalidStateError)
    ensures WellFormed(c) && OpenOrder(inv, c.orderId) && OnRecord(inv, batch) && !c.idempotent ==>
              Do(inv, c).1 == Err(InvalidStateError)
  {
    BatchIs(c);
    PlanErrorMeans(inv, c);
    StockErrorMeans(inv, c.plan.allocations);
    RecordedPickings(inv.pickings, batch);
    hide BatchOf, PlanError, StockError, BatchPickings, ReserveAll, WellFormed, InStock;
  }

  /** Otherwise the first item that is not in stock decides the error of a call that passes the other checks. */
  lemma RefusedForStock(inv: Inventory, c: Call, batch: string, k: nat)
    requires WorksUnder(c, batch) && WellFormed(c) && OpenOrder(inv, c.orderId) && !OnRecord(inv, batch)
    requires k < |c.plan.allocations|
    requires InStock(inv, c.plan.allocations[..k]) && !ItemInStock(inv, c.plan.allocations[k])
    ensures Do(inv, c) == (inv, Err(KindOf(inv, c.plan.allocations[k])))
  {
    BatchIs(c);
    PlanErrorMeans(inv, c);
    StockErrorKind(inv, c.plan.allocations, k);
    RecordedPickings(inv.pickings, batch);
    hide BatchOf, PlanError, StockError, BatchPickings, ReserveAll, WellFormed, InStock, ItemInStock, KindOf;
  }

  /** An applied call leaves one picking for each item, in order, with consecutive ids, its order and its batch; takes each
      item from available to reserved; and touches no other stock. */
  lemma ApplyingMoves(inv: Inventory, c: Call, batch: string, pid: int, wid: int)
    requires WorksUnder(c, batch) && Do(inv, c).1.Ok? && Do(inv, c).1.value.Applied?
    ensures var (e, items) := (Do(inv, c).0, c.plan.allocations);
            && |e.pickings| == |inv.pickings| + |items| && e.pickings[..|inv.pickings|] == inv.pickings
            && (forall k :: 0 <= k < |items| ==>
                  e.pickings[|inv.pickings| + k] == Picking(inv.nextPickingId + k, c.orderId, items[k], batch))
            && Do(inv, c).1.value == Applied(batch, seq(|items|, k => inv.nextPickingId + k))
            && Available(e, pid, wid) == Available(inv, pid, wid) - TakenFrom(items, pid, wid)
  {
    BatchIs(c);
    ReserveAllPickings(inv, c.plan.allocations, c.orderId, batch);
    ReserveAllEffect(inv, c.plan.allocations, c.orderId, batch, pid, wid);
    TakenIsSum(c.plan.allocations, pid, wid);
    hide BatchOf, PlanError, StockError, BatchPickings, ReserveAll, TakenFrom, TakenAt;
  }

  function TakenFrom(items: seq<Item>, pid: int, wid: int): int {
    if items == [] then 0
    else (if items[0].productId == pid && items[0].warehouseId == wid then items[0].quantity else 0) + TakenFrom(items[1..], pid, wid)
  }

  lemma {:induction false} TakenIsSum(items: seq<Item>, pid: int, wid: int)
    ensures TakenAt(items, pid, wid) == TakenFrom(items, pid, wid)
  {
    if items != [] {
      TakenIsSum(items[1..], pid, wid);
    }
  }

  lemma {:induction false} ReserveAllPickings(inv: Inventory, items: seq<Item>, orderId: int, batch: string)
    ensures var e := ReserveAll(inv, items, orderId, batch);
            && e.nextPickingId == inv.nextPickingId + |items|
            && |e.pickings| == |inv.pickings| + |items| && e.pickings[..|inv.pickings|] == inv.pickings
            && forall k :: 0 <= k < |items| ==>
                 e.pickings[|inv.pickings| + k] == Picking(inv.nextPickingId + k, orderId, items[k], batch)
    decreases |items|
  {
    if items != [] {
      var before := items[..|items| - 1];
      ReserveAllPickings(inv, before, orderId, batch);
      hide Put, LevelAt;
    }
  }

  // --- splitting ---

  function AvailableTotal(inv: Inventory, sites: seq<Site>, pid: int): int {
    if sites == [] then 0 else Available(inv, pid, sites[0].id) + AvailableTotal(inv, sites[1..], pid)
  }

  lemma {:induction false} AvailableIsSum(inv: Inventory, sites: seq<Site>, pid: int)
    ensures SumInt(sites, AvailableAt(inv, pid)) == AvailableTotal(inv, sites, pid)
  {
    if sites != [] {
      AvailableIsSum(inv, sites[1..], pid);
    }
  }

  /** A split succeeds exactly for positive ids and a positive quantity within the total stock of the product. */
  lemma SplitsExactly(inv: Inventory, orderId: int, pid: int, qty: int)
    ensures Split(inv, orderId, pid, qty).Ok? <==>
              orderId > 0 && pid > 0 && 0 < qty <= AvailableTotal(inv, inv.sites, pid)
    ensures Split(inv, orderId, pid, qty).Err? ==> Split(inv, orderId, pid, qty).error == ValidationError
    ensures Split(inv, orderId, pid, qty).Ok? ==>
              var plan := Split(inv, orderId, pid, qty).value;
              plan.orderId == orderId && plan.batchId == None && plan.requestedQty == Some(qty)
  {
    AvailableIsSum(inv, inv.sites, pid);
    hide SplitOver, SumInt;
  }

  lemma SiteOrder()
    ensures TotalPreorder(SiteLe)
  {
  }

  /** Sites before a used one have given all they had. */
  lemma {:induction false} EarlierDrained(inv: Inventory, sites: seq<Site>, pid: int, qty: int, i: nat, j: nat)
    requires i < j < |sites| && DistinctSites(sites) && Available(inv, pid, sites[i].id) > 0
    requires exists k :: k in SplitOver(inv, sites, pid, qty) && k.warehouseId == sites[j].id
    ensures Item(pid, sites[i].id, Available(inv, pid, sites[i].id)) in SplitOver(inv, sites, pid, qty)
  {
    var here := AvailableAt(inv, pid)(sites[0]);
    var rest := SplitOver(inv, sites[1..], pid, qty - if here <= 0 then 0 else Min(here, qty));
    assert sites[j] == sites[1..][j - 1];
    assert exists k :: k in rest && k.warehouseId == sites[1..][j - 1].id;
    if i == 0 {
      assert here > 0 && rest != [];
      assert Min(here, qty) == here;
    } else {
      assert sites[i] == sites[1..][i - 1];
      EarlierDrained(inv, sites[1..], pid, qty - (if here <= 0 then 0 else Min(here, qty)), i - 1, j - 1);
    }
  }

  /** A split goes by routing sequence, then id: what ships from a warehouse leaves none that comes before it with stock of
      its own. */
  lemma SplitGoesInSequence(inv: Inventory, orderId: int, pid: int, qty: int, s: Site, t: Site)
    requires Split(inv, orderId, pid, qty).Ok? && DistinctSites(inv.sites) && s in inv.sites && t in inv.sites
    requires s.sequence < t.sequence || (s.sequence == t.sequence && s.id < t.id)
    requires exists k :: k in Split(inv, orderId, pid, qty).value.allocations && k.warehouseId == t.id
    ensures Available(inv, pid, s.id) > 0 ==>
              Item(pid, s.id, Available(inv, pid, s.id)) in Split(inv, orderId, pid, qty).value.allocations
  {
    var routing := Routing(inv);
    SiteOrder();
    SortSorted(inv.sites, SiteLe);
    SameElements(routing, inv.sites);
    RoutingDistinct(inv);
    var i :| 0 <= i < |routing| && routing[i] == s;
    var j :| 0 <= j < |routing| && routing[j] == t;
    assert i != j && !(j < i) by {
      assert j < i ==> SiteLe(routing[j], routing[i]);
    }
    hide SplitOver, Sort;
    if Available(inv, pid, s.id) > 0 {
      EarlierDrained(inv, routing, pid, qty, i, j);
    }
  }
}
