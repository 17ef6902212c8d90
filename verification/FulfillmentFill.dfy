/** Line-by-line allocation from the chosen warehouses, with running stock and backorders. */
module FulfillmentFill {
  import opened Prelude
  import opened Sums
  import opened FulfillmentModel

  /** What the first j chosen warehouses hold of a product. */
  function Before(chosen: seq<Warehouse>, stock: Stock, pid: int, j: nat): int
    requires j <= |chosen|
  {
    Supply(chosen[..j], stock, pid)
  }

  /** The closed form: warehouse j ships what the demand leaves after the earlier warehouses,
      up to its own stock. */
  function Share(chosen: seq<Warehouse>, stock: Stock, pid: int, demand: int, j: nat): int
    requires j < |chosen|
  {
    Min(Avail(stock, chosen[j].id, pid), Max(0, demand - Before(chosen, stock, pid, j)))
  }

  /** What the chosen warehouses cannot ship. */
  function Shortfall(chosen: seq<Warehouse>, stock: Stock, pid: int, demand: int): int {
    Max(0, demand - Supply(chosen, stock, pid))
  }

  function Taken(allocs: seq<Allocation>, wid: int, pid: int): int { SumInt(allocs, TakenOf(wid, pid)) }

  function Backordered(backs: seq<Allocation>, pid: int): int { SumInt(backs, BackorderedOf(pid)) }

  function Served(allocs: seq<Allocation>, lineId: int): int { SumInt(allocs, ServedOf(lineId)) }

  function Requested(lines: seq<Line>, lineId: int): int { SumInt(lines, RequestedOf(lineId)) }

  /** The warehouse ids that appear on allocations. */
  function UsedIds(allocs: seq<Allocation>): set<int> {
    set a <- allocs | a.warehouseId.Some? :: a.warehouseId.value
  }

  lemma BeforeStep(chosen: seq<Warehouse>, stock: Stock, pid: int, j: nat)
    requires j < |chosen|
    ensures Before(chosen, stock, pid, j) >= 0
    ensures Before(chosen, stock, pid, j + 1) == Before(chosen, stock, pid, j) + Avail(stock, chosen[j].id, pid)
    ensures Before(chosen, stock, pid, j + 1) <= Supply(chosen, stock, pid)
  {
    SumIntPrefix(chosen, j, AvailOf(stock, pid));
    SumIntNonNegative(chosen[..j], AvailOf(stock, pid));
    assert chosen == chosen[..j + 1] + chosen[j + 1..];
    SumIntConcat(chosen[..j + 1], chosen[j + 1..], AvailOf(stock, pid));
    SumIntNonNegative(chosen[j + 1..], AvailOf(stock, pid));
  }

  /** Later warehouses are reached only by demand that exceeds everything before them. */
  lemma {:induction false} BeforeMonotone(chosen: seq<Warehouse>, stock: Stock, pid: int, i: nat, j: nat)
    requires i <= j <= |chosen|
    ensures Before(chosen, stock, pid, i) <= Before(chosen, stock, pid, j)
    decreases j - i
  {
    if i < j {
      BeforeStep(chosen, stock, pid, i);
      BeforeMonotone(chosen, stock, pid, i + 1, j);
    }
  }

  lemma OneMoreAllocation(allocs: seq<Allocation>, a: Allocation)
    ensures forall wid, pid :: Taken(allocs + [a], wid, pid) == Taken(allocs, wid, pid) + TakenOf(wid, pid)(a)
    ensures forall lid :: Served(allocs + [a], lid) == Served(allocs, lid) + ServedOf(lid)(a)
    ensures forall pid :: Backordered(allocs + [a], pid) == Backordered(allocs, pid) + BackorderedOf(pid)(a)
    ensures UsedIds(allocs + [a]) == UsedIds(allocs) + if a.warehouseId.Some? then {a.warehouseId.value} else {}
  {
    forall wid, pid ensures Taken(allocs + [a], wid, pid) == Taken(allocs, wid, pid) + TakenOf(wid, pid)(a) {
      SumIntAppend(allocs, a, TakenOf(wid, pid));
    }
    forall lid ensures Served(allocs + [a], lid) == Served(allocs, lid) + ServedOf(lid)(a) {
      SumIntAppend(allocs, a, ServedOf(lid));
    }
    forall pid ensures Backordered(allocs + [a], pid) == Backordered(allocs, pid) + BackorderedOf(pid)(a) {
      SumIntAppend(allocs, a, BackorderedOf(pid));
    }
  }

  /** The running stock and the allocations so far agree with the closed form for one product. */
  ghost predicate Drawn(chosen: seq<Warehouse>, stock: Stock, pid: int, demand: int,
                        avail: map<(int, int), int>, allocs: seq<Allocation>, from: nat, to: nat)
    requires to <= |chosen|
  {
    forall j :: from <= j < to ==>
      && (chosen[j].id, pid) in avail
      && Taken(allocs, chosen[j].id, pid) == Share(chosen, stock, pid, demand, j)
      && avail[(chosen[j].id, pid)] == Avail(stock, chosen[j].id, pid) - Share(chosen, stock, pid, demand, j)
  }

  /** Each allocation ships a positive quantity for a line of the order from a chosen warehouse. */
  ghost predicate Sound(allocs: seq<Allocation>, chosen: seq<Warehouse>, lines: seq<Line>) {
    forall a :: a in allocs ==>
      && a.allocatedQty == a.requestedQty > 0 && a.backorderQty == 0
      && (exists l :: l in lines && a.lineId == l.lineId && a.productId == l.productId)
      && (exists w :: w in chosen && a.warehouseId == Some(w.id) && a.shippingCost == w.costWeight)
  }

  /** Serving the line from warehouse j moves its share from the old demand to the new one. */
  lemma ShareStep(chosen: seq<Warehouse>, stock: Stock, pid: int, served: int, target: int, j: nat, needed: int, qty: int)
    requires j < |chosen| && 0 <= served <= target
    requires 0 <= needed == Left(chosen, stock, pid, served, target, j)
    requires var here := Avail(stock, chosen[j].id, pid) - Share(chosen, stock, pid, served, j);
             qty == if here > 0 && needed > 0 then Min(needed, here) else 0
    ensures Share(chosen, stock, pid, target, j) == Share(chosen, stock, pid, served, j) + qty
    ensures 0 <= needed - qty == Left(chosen, stock, pid, served, target, j + 1)
  {
    BeforeStep(chosen, stock, pid, j);
  }

  /** What of target - served the first j warehouses leave to the others. */
  function Left(chosen: seq<Warehouse>, stock: Stock, pid: int, served: int, target: int, j: nat): int
    requires j <= |chosen|
  {
    target - served - (Min(target, Before(chosen, stock, pid, j)) - Min(served, Before(chosen, stock, pid, j)))
  }

  lemma NothingLeft(chosen: seq<Warehouse>, stock: Stock, pid: int, served: int, target: int, j: nat)
    requires j <= |chosen| && 0 <= served <= target
    requires Left(chosen, stock, pid, served, target, j) == 0
    ensures forall k :: j <= k < |chosen| ==>
              Share(chosen, stock, pid, target, k) == Share(chosen, stock, pid, served, k)
    ensures Left(chosen, stock, pid, served, target, |chosen|) == 0
  {
    forall k | j <= k < |chosen|
      ensures Share(chosen, stock, pid, target, k) == Share(chosen, stock, pid, served, k)
    {
      BeforeMonotone(chosen, stock, pid, j, k);
    }
    BeforeMonotone(chosen, stock, pid, j, |chosen|);
  }

  lemma NothingDrawnYet(chosen: seq<Warehouse>, stock: Stock, pid: int)
    ensures Before(chosen, stock, pid, 0) == 0
  {
  }

  lemma LeftIsShortfall(chosen: seq<Warehouse>, stock: Stock, pid: int, served: int, target: int)
    requires 0 <= served <= target
    ensures Left(chosen, stock, pid, served, target, |chosen|)
            == Shortfall(chosen, stock, pid, target) - Shortfall(chosen, stock, pid, served)
  {
    assert chosen[..|chosen|] == chosen;
  }

  /** Drawing a share at warehouse j leaves every other warehouse's account alone. */
  lemma DrawnStep(chosen: seq<Warehouse>, stock: Stock, pid: int, served: int, target: int, j: nat,
                  avail0: map<(int, int), int>, allocs0: seq<Allocation>,
                  avail: map<(int, int), int>, allocs: seq<Allocation>)
    requires j < |chosen| && DistinctIds(chosen)
    requires Drawn(chosen, stock, pid, target, avail0, allocs0, 0, j)
    requires Drawn(chosen, stock, pid, served, avail0, allocs0, j, |chosen|)
    requires forall wid :: wid != chosen[j].id ==> Taken(allocs, wid, pid) == Taken(allocs0, wid, pid)
    requires forall k :: k in avail0 && k != (chosen[j].id, pid) ==> k in avail && avail[k] == avail0[k]
    requires Taken(allocs, chosen[j].id, pid) == Share(chosen, stock, pid, target, j)
    requires (chosen[j].id, pid) in avail
    requires avail[(chosen[j].id, pid)] == Avail(stock, chosen[j].id, pid) - Share(chosen, stock, pid, target, j)
    ensures Drawn(chosen, stock, pid, target, avail, allocs, 0, j + 1)
    ensures Drawn(chosen, stock, pid, served, avail, allocs, j + 1, |chosen|)
  {
  }

  /** The records that a line leaves untouched or extends, from allocs0 to allocs. */
  ghost predicate LineFrame(l: Line, shipped: int, chosen: seq<Warehouse>, lines: seq<Line>,
                            avail0: map<(int, int), int>, allocs0: seq<Allocation>,
                            avail: map<(int, int), int>, allocs: seq<Allocation>) {
    && (forall k :: k in avail0 && k.1 != l.productId ==> k in avail && avail[k] == avail0[k])
    && (forall wid, pid :: pid != l.productId ==> Taken(allocs, wid, pid) == Taken(allocs0, wid, pid))
    && (forall lid :: Served(allocs, lid) == Served(allocs0, lid) + if lid == l.lineId then shipped else 0)
    && Sound(allocs, chosen, lines)
  }

  /** One allocation of qty units of the line from warehouse w. */
  method Draw(l: Line, w: Warehouse, qty: int, ghost shipped: int, ghost chosen: seq<Warehouse>, ghost lines: seq<Line>,
              ghost avail00: map<(int, int), int>, ghost allocs00: seq<Allocation>,
              avail0: map<(int, int), int>, allocs0: seq<Allocation>)
    returns (avail: map<(int, int), int>, allocs: seq<Allocation>)
    requires l in lines && w in chosen && qty > 0 && (w.id, l.productId) in avail0
    requires LineFrame(l, shipped, chosen, lines, avail00, allocs00, avail0, allocs0)
    ensures LineFrame(l, shipped + qty, chosen, lines, avail00, allocs00, avail, allocs)
    ensures avail == avail0[(w.id, l.productId) := avail0[(w.id, l.productId)] - qty]
    ensures forall wid :: Taken(allocs, wid, l.productId)
                          == Taken(allocs0, wid, l.productId) + if wid == w.id then qty else 0
  {
    var a := Allocation(l.lineId, l.productId, Some(w.id), qty, qty, 0, w.costWeight);
    OneMoreAllocation(allocs0, a);
    allocs := allocs0 + [a];
    avail := avail0[(w.id, l.productId) := avail0[(w.id, l.productId)] - qty];
  }

  /** Allocates one line over the chosen warehouses in order; served is the demand for its product
      that earlier lines brought. */
  method FillLine(l: Line, chosen: seq<Warehouse>, ghost stock: Stock, ghost served: int, ghost lines: seq<Line>,
                  avail0: map<(int, int), int>, allocs0: seq<Allocation>)
    returns (needed: int, avail: map<(int, int), int>, allocs: seq<Allocation>)
    requires l in lines && l.requestedQty > 0 && served >= 0 && DistinctIds(chosen)
    requires Drawn(chosen, stock, l.productId, served, avail0, allocs0, 0, |chosen|)
    requires Sound(allocs0, chosen, lines)
    ensures 0 <= needed == Shortfall(chosen, stock, l.productId, served + l.requestedQty)
                           - Shortfall(chosen, stock, l.productId, served)
    ensures Drawn(chosen, stock, l.productId, served + l.requestedQty, avail, allocs, 0, |chosen|)
    ensures LineFrame(l, l.requestedQty - needed, chosen, lines, avail0, allocs0, avail, allocs)
  {
    hide SumInt;
    var pid := l.productId;
    ghost var target := served + l.requestedQty;
    needed, avail, allocs := l.requestedQty, avail0, allocs0;
    NothingDrawnYet(chosen, stock, pid);
    var j := 0;
    while j < |chosen|
      invariant 0 <= j <= |chosen|
      invariant 0 <= needed == Left(chosen, stock, pid, served, target, j)
      invariant Drawn(chosen, stock, pid, target, avail, allocs, 0, j)
      invariant Drawn(chosen, stock, pid, served, avail, allocs, j, |chosen|)
      invariant LineFrame(l, l.requestedQty - needed, chosen, lines, avail0, allocs0, avail, allocs)
    {
      var w := chosen[j];
      var availHere := avail[(w.id, pid)];
      ghost var avail1, allocs1, needed1 := avail, allocs, needed;
      if availHere > 0 && needed > 0 {
        var qty := Min(needed, availHere);
        avail, allocs := Draw(l, w, qty, l.requestedQty - needed, chosen, lines, avail0, allocs0, avail, allocs);
        needed := needed - qty;
      }
      ShareStep(chosen, stock, pid, served, target, j, needed1, needed1 - needed);
      DrawnStep(chosen, stock, pid, served, target, j, avail1, allocs1, avail, allocs);
      j := j + 1;
      if needed == 0 {
        NothingLeft(chosen, stock, pid, served, target, j);
        j := |chosen|;
        break;
      }
    }
    LeftIsShortfall(chosen, stock, pid, served, target);
  }

  /** Every chosen warehouse ships exactly its closed-form share of every product. */
  ghost predicate SharesExactly(lines: seq<Line>, chosen: seq<Warehouse>, stock: Stock, allocs: seq<Allocation>) {
    forall j, pid :: 0 <= j < |chosen| ==>
      Taken(allocs, chosen[j].id, pid) == Share(chosen, stock, pid, Demand(lines, pid), j)
  }

  /** Exactly what the chosen warehouses cannot ship is backordered. */
  ghost predicate BackordersExactly(lines: seq<Line>, chosen: seq<Warehouse>, stock: Stock, backs: seq<Allocation>) {
    forall pid :: Backordered(backs, pid) == Shortfall(chosen, stock, pid, Demand(lines, pid))
  }

  /** Every line id gets, in allocations and backorders together, what it requested. */
  ghost predicate ServesExactly(lines: seq<Line>, allocs: seq<Allocation>, backs: seq<Allocation>) {
    forall lid :: Served(allocs, lid) + Served(backs, lid) == Requested(lines, lid)
  }

  ghost predicate IsBackorder(b: Allocation) {
    b.backorderQty == b.requestedQty > 0 && b.allocatedQty == 0 && b.warehouseId == None
  }

  /** The whole fill, whatever the order of the lines and however demand is split over them. */
  ghost predicate FillsExactly(lines: seq<Line>, chosen: seq<Warehouse>, stock: Stock,
                               allocs: seq<Allocation>, backs: seq<Allocation>) {
    && SharesExactly(lines, chosen, stock, allocs)
    && BackordersExactly(lines, chosen, stock, backs)
    && ServesExactly(lines, allocs, backs)
    && Sound(allocs, chosen, lines)
    && forall b :: b in backs ==> IsBackorder(b)
  }

  lemma SharesStep(lines: seq<Line>, i: nat, needed: int, chosen: seq<Warehouse>, stock: Stock,
                   avail0: map<(int, int), int>, allocs0: seq<Allocation>,
                   avail: map<(int, int), int>, allocs: seq<Allocation>)
    requires i < |lines|
    requires SharesExactly(lines[..i], chosen, stock, allocs0)
    requires Drawn(chosen, stock, lines[i].productId, Demand(lines[..i], lines[i].productId) + lines[i].requestedQty,
                   avail, allocs, 0, |chosen|)
    requires LineFrame(lines[i], lines[i].requestedQty - needed, chosen, lines, avail0, allocs0, avail, allocs)
    ensures SharesExactly(lines[..i + 1], chosen, stock, allocs)
  {
    forall j, pid | 0 <= j < |chosen|
      ensures Taken(allocs, chosen[j].id, pid) == Share(chosen, stock, pid, Demand(lines[..i + 1], pid), j)
    {
      hide SumInt;
      SumIntPrefix(lines, i, WantedOf(pid));
      if pid == lines[i].productId {
        assert Demand(lines[..i + 1], pid) == Demand(lines[..i], pid) + lines[i].requestedQty;
      } else {
        assert Demand(lines[..i + 1], pid) == Demand(lines[..i], pid);
      }
    }
  }

  lemma BackordersStep(lines: seq<Line>, i: nat, needed: int, chosen: seq<Warehouse>, stock: Stock, backs0: seq<Allocation>,
                       backs: seq<Allocation>)
    requires i < |lines|
    requires BackordersExactly(lines[..i], chosen, stock, backs0)
    requires var pid := lines[i].productId;
             needed == Shortfall(chosen, stock, pid, Demand(lines[..i], pid) + lines[i].requestedQty)
                       - Shortfall(chosen, stock, pid, Demand(lines[..i], pid))
    requires forall pid :: Backordered(backs, pid)
                           == Backordered(backs0, pid) + if pid == lines[i].productId then needed else 0
    ensures BackordersExactly(lines[..i + 1], chosen, stock, backs)
  {
    forall pid ensures Backordered(backs, pid) == Shortfall(chosen, stock, pid, Demand(lines[..i + 1], pid)) {
      SumIntPrefix(lines, i, WantedOf(pid));
    }
  }

  lemma ServesStep(lines: seq<Line>, i: nat, needed: int, allocs0: seq<Allocation>, backs0: seq<Allocation>,
                   allocs: seq<Allocation>, backs: seq<Allocation>)
    requires i < |lines|
    requires ServesExactly(lines[..i], allocs0, backs0)
    requires forall lid :: Served(allocs, lid)
                           == Served(allocs0, lid) + if lid == lines[i].lineId then lines[i].requestedQty - needed else 0
    requires forall lid :: Served(backs, lid) == Served(backs0, lid) + if lid == lines[i].lineId then needed else 0
    ensures ServesExactly(lines[..i + 1], allocs, backs)
  {
    forall lid ensures Served(allocs, lid) + Served(backs, lid) == Requested(lines[..i + 1], lid) {
      SumIntPrefix(lines, i, RequestedOf(lid));
    }
  }

  /** The running stock table agrees with the closed form for every wanted product. */
  ghost predicate AllDrawn(lines: seq<Line>, chosen: seq<Warehouse>, needs: seq<Need>, stock: Stock,
                           avail: map<(int, int), int>, allocs: seq<Allocation>) {
    forall n :: n in needs ==>
      Drawn(chosen, stock, n.productId, Demand(lines, n.productId), avail, allocs, 0, |chosen|)
  }

  lemma AllDrawnStep(lines: seq<Line>, i: nat, needed: int, chosen: seq<Warehouse>, needs: seq<Need>, stock: Stock,
                     avail0: map<(int, int), int>, allocs0: seq<Allocation>,
                     avail: map<(int, int), int>, allocs: seq<Allocation>)
    requires i < |lines|
    requires AllDrawn(lines[..i], chosen, needs, stock, avail0, allocs0)
    requires Drawn(chosen, stock, lines[i].productId, Demand(lines[..i], lines[i].productId) + lines[i].requestedQty,
                   avail, allocs, 0, |chosen|)
    requires LineFrame(lines[i], lines[i].requestedQty - needed, chosen, lines, avail0, allocs0, avail, allocs)
    ensures AllDrawn(lines[..i + 1], chosen, needs, stock, avail, allocs)
  {
    hide SumInt;
    forall n | n in needs
      ensures Drawn(chosen, stock, n.productId, Demand(lines[..i + 1], n.productId), avail, allocs, 0, |chosen|)
    {
      SumIntPrefix(lines, i, WantedOf(n.productId));
      assert n.productId != lines[i].productId ==>
        Demand(lines[..i + 1], n.productId) == Demand(lines[..i], n.productId);
    }
  }

  /** The initial stock table. */
  method OpeningStock(chosen: seq<Warehouse>, needs: seq<Need>, stock: Stock) returns (avail: map<(int, int), int>)
    ensures AllDrawn([], chosen, needs, stock, avail, [])
  {
    hide SumInt;
    avail := map w <- chosen, n <- needs :: (w.id, n.productId) := Avail(stock, w.id, n.productId);
    forall n | n in needs
      ensures Drawn(chosen, stock, n.productId, Demand([], n.productId), avail, [], 0, |chosen|)
    {
      NothingDrawn(chosen, stock, n.productId);
      forall j | 0 <= j < |chosen| ensures (chosen[j].id, n.productId) in avail {
        assert chosen[j] in chosen;
      }
    }
  }

  lemma NothingDrawn(chosen: seq<Warehouse>, stock: Stock, pid: int)
    ensures Demand([], pid) == 0
    ensures forall j :: 0 <= j < |chosen| ==> Share(chosen, stock, pid, 0, j) == 0
    ensures forall wid :: Taken([], wid, pid) == 0
  {
    forall j | 0 <= j < |chosen| ensures Share(chosen, stock, pid, 0, j) == 0 {
      SumIntNonNegative(chosen[..j], AvailOf(stock, pid));
    }
  }

  method FillLines(lines: seq<Line>, chosen: seq<Warehouse>, needs: seq<Need>, stock: Stock)
    returns (allocs: seq<Allocation>, backs: seq<Allocation>)
    requires DistinctIds(chosen) && Tallies(needs, lines)
    requires forall l :: l in lines ==> l.requestedQty > 0
    ensures FillsExactly(lines, chosen, stock, allocs, backs)
  {
    hide SumInt;
    var avail := OpeningStock(chosen, needs, stock);
    allocs, backs := [], [];
    NothingFilled(chosen, stock);
    for i := 0 to |lines|
      invariant AllDrawn(lines[..i], chosen, needs, stock, avail, allocs)
      invariant SharesExactly(lines[..i], chosen, stock, allocs)
      invariant BackordersExactly(lines[..i], chosen, stock, backs)
      invariant ServesExactly(lines[..i], allocs, backs)
      invariant Sound(allocs, chosen, lines)
      invariant forall b :: b in backs ==> IsBackorder(b)
    {
      var l := lines[i];
      ghost var avail0, allocs0, backs0 := avail, allocs, backs;
      ghost var served := Demand(lines[..i], l.productId);
      DemandNonNegative(lines[..i], l.productId);
      var k :| 0 <= k < |needs| && needs[k].productId == l.productId;
      var needed;
      needed, avail, allocs := FillLine(l, chosen, stock, served, lines, avail, allocs);
      if needed > 0 {
        var b := Allocation(l.lineId, l.productId, None, needed, 0, needed, 0.0);
        OneMoreAllocation(backs, b);
        backs := backs + [b];
      }
      SharesStep(lines, i, needed, chosen, stock, avail0, allocs0, avail, allocs);
      AllDrawnStep(lines, i, needed, chosen, needs, stock, avail0, allocs0, avail, allocs);
      BackordersStep(lines, i, needed, chosen, stock, backs0, backs);
      ServesStep(lines, i, needed, allocs0, backs0, allocs, backs);
    }
    assert lines[..|lines|] == lines;
  }

  lemma NothingFilled(chosen: seq<Warehouse>, stock: Stock)
    ensures SharesExactly([], chosen, stock, []) && BackordersExactly([], chosen, stock, [])
    ensures ServesExactly([], [], [])
  {
    forall j, pid | 0 <= j < |chosen| ensures Share(chosen, stock, pid, 0, j) == 0 {
      SumIntNonNegative(chosen[..j], AvailOf(stock, pid));
    }
    forall pid ensures Shortfall(chosen, stock, pid, 0) == 0 {
      SupplyNonNegative(chosen, stock, pid);
    }
  }
}
