/** The planner: which warehouses to draw from, the plan it makes, and what that plan guarantees. */
module FulfillmentPlanner {
  import opened Prelude
  import opened Sums
  import opened Sorting
  import opened FulfillmentModel
  import opened FulfillmentSearch
  import opened FulfillmentGreedy
  import opened FulfillmentBound
  import opened FulfillmentFill
  import opened FulfillmentRaw

  datatype Strategy = NoStockableItems | NoActiveWarehouses | FullCoverage | Exhaustive | Greedy

  /** The result; chosen and used are the warehouses that the algorithm notes list by id. */
  datatype Plan = Plan(
    strategy: Strategy, shipments: nat, shippingCost: real,
    allocations: seq<Allocation>, backorders: seq<Allocation>,
    chosen: seq<Warehouse>, used: set<int>)

  predicate Forced(force: Option<string>) { force == Some("GREEDY") || force == Some("EXHAUSTIVE") }

  /** The search passes over no choice of warehouses: nothing is forced, or EXHAUSTIVE is, which skips the check of
      single warehouses, and none of them would have passed it. */
  ghost predicate SearchesAll(force: Option<string>, ws: seq<Warehouse>, lines: seq<Line>, stock: Stock) {
    || !Forced(force)
    || (force == Some("EXHAUSTIVE") && forall w :: w in ws ==> !CanCover([w], lines, stock))
  }

  /** Adds up the demand per product, in order of first appearance. */
  method TotalDemand(lines: seq<Line>) returns (needs: seq<Need>)
    requires forall l :: l in lines ==> l.requestedQty > 0
    ensures Tallies(needs, lines)
  {
    needs := [];
    for i := 0 to |lines|
      invariant Tallies(needs, lines[..i])
    {
      var l := lines[i];
      ghost var needs0 := needs;
      var k := 0;
      while k < |needs| && needs[k].productId != l.productId
        invariant 0 <= k <= |needs|
        invariant forall j :: 0 <= j < k ==> needs[j].productId != l.productId
      {
        k := k + 1;
      }
      needs := if k < |needs| then needs[k := Need(l.productId, needs[k].qty + l.requestedQty)]
               else needs + [Need(l.productId, l.requestedQty)];
      TallyStep(lines, i, needs0, k, needs);
    }
    assert lines[..|lines|] == lines;
  }

  lemma TallyStep(lines: seq<Line>, i: nat, needs0: seq<Need>, k: nat, needs: seq<Need>)
    requires i < |lines| && lines[i].requestedQty > 0 && Tallies(needs0, lines[..i])
    requires k <= |needs0| && forall j :: 0 <= j < k ==> needs0[j].productId != lines[i].productId
    requires k < |needs0| ==> needs0[k].productId == lines[i].productId
    requires needs == if k < |needs0| then needs0[k := Need(lines[i].productId, needs0[k].qty + lines[i].requestedQty)]
                      else needs0 + [Need(lines[i].productId, lines[i].requestedQty)]
    ensures Tallies(needs, lines[..i + 1])
  {
    var pid := lines[i].productId;
    if k == |needs0| {
      NoDemand(lines[..i], pid);
    }
    hide SumInt;
    forall j | 0 <= j < |needs|
      ensures needs[j].qty == Demand(lines[..i + 1], needs[j].productId) && needs[j].qty > 0
    {
      SumIntPrefix(lines, i, WantedOf(needs[j].productId));
    }
    forall l | l in lines[..i + 1] ensures exists j :: 0 <= j < |needs| && needs[j].productId == l.productId {
      assert needs[k].productId == pid;
      if l in lines[..i] {
        var j :| 0 <= j < |needs0| && needs0[j].productId == l.productId;
        assert needs[j].productId == l.productId;
      }
    }
  }

  /** The warehouses that cover everything alone. */
  method FullCoverageCandidates(ws: seq<Warehouse>, needs: seq<Need>, ghost lines: seq<Line>, stock: Stock)
    returns (candidates: seq<Warehouse>)
    requires Tallies(needs, lines)
    ensures forall w :: w in candidates <==> w in ws && CanCover([w], lines, stock)
  {
    candidates := [];
    for i := 0 to |ws|
      invariant forall w :: w in candidates <==> w in ws[..i] && CanCover([w], lines, stock)
    {
      var ok := MeetsNeeds([ws[i]], needs, stock);
      CoverByTally([ws[i]], needs, lines, stock);
      if ok {
        candidates := candidates + [ws[i]];
      }
    }
    assert ws[..|ws|] == ws;
  }

  /** The candidate with the least key. */
  method LeastByKey(candidates: seq<Warehouse>) returns (best: Warehouse)
    requires candidates != []
    ensures best in candidates && forall w :: w in candidates ==> KeyLe(best, w)
  {
    best := candidates[0];
    for i := 1 to |candidates|
      invariant best in candidates && forall k :: 0 <= k < i ==> KeyLe(best, candidates[k])
    {
      if !KeyLe(best, candidates[i]) {
        best := candidates[i];
      }
    }
  }

  /** found is a covering choice of as few warehouses as possible, and the cheapest such choice. */
  ghost predicate BestCover(ws: seq<Warehouse>, found: seq<Warehouse>, lines: seq<Line>, stock: Stock) {
    && CheapestCover(ws, found, lines, stock)
    && forall ids :: CoveringIds(ws, ids, lines, stock) ==> |found| <= |ids|
  }

  /** The chosen warehouses fall short on each product exactly as far as all of ws would. */
  ghost predicate SameShortfall(ws: seq<Warehouse>, chosen: seq<Warehouse>, lines: seq<Line>, stock: Stock) {
    forall pid :: Shortfall(chosen, stock, pid, Demand(lines, pid)) == Shortfall(ws, stock, pid, Demand(lines, pid))
  }

  ghost predicate Selects(ws: seq<Warehouse>, chosen: seq<Warehouse>) {
    DistinctIds(chosen) && forall w :: w in chosen ==> w in ws
  }

  lemma SelectionHolds(ws: seq<Warehouse>, chosen: seq<Warehouse>, stock: Stock, pid: int)
    requires DistinctIds(ws) && Selects(ws, chosen)
    ensures Supply(chosen, stock, pid) <= Supply(ws, stock, pid)
    ensures (forall w :: w in ws && w !in chosen ==> Avail(stock, w.id, pid) == 0) ==>
              Supply(chosen, stock, pid) == Supply(ws, stock, pid)
  {
    SelectionTotals(ws, chosen, stock);
    SumIntMonotone(ws, AvailWithin(stock, pid, Ids(chosen)), AvailOf(stock, pid));
    if forall w :: w in ws && w !in chosen ==> Avail(stock, w.id, pid) == 0 {
      SelectionSumInt(ws, chosen, AvailOf(stock, pid));
    }
  }

  lemma CoverLeavesNoShortfall(ws: seq<Warehouse>, chosen: seq<Warehouse>, lines: seq<Line>, stock: Stock)
    requires DistinctIds(ws) && Selects(ws, chosen) && CanCover(chosen, lines, stock)
    ensures SameShortfall(ws, chosen, lines, stock)
  {
    forall pid ensures Supply(chosen, stock, pid) <= Supply(ws, stock, pid) {
      SelectionHolds(ws, chosen, stock, pid);
    }
  }

  /** Leaving out warehouses is harmless where nothing is uncovered or they hold nothing. */
  lemma UselessOnesLeftOut(ws: seq<Warehouse>, chosen: seq<Warehouse>, needs: seq<Need>, lines: seq<Line>, stock: Stock)
    requires DistinctIds(ws) && Selects(ws, chosen) && Tallies(needs, lines)
    requires forall w, n :: w in ws && w !in chosen && n in needs && Avail(stock, w.id, n.productId) > 0 ==>
                              UncoveredOf(chosen, stock)(n) == 0
    ensures SameShortfall(ws, chosen, lines, stock)
  {
    forall pid
      ensures Shortfall(chosen, stock, pid, Demand(lines, pid)) == Shortfall(ws, stock, pid, Demand(lines, pid))
    {
      SelectionHolds(ws, chosen, stock, pid);
      if exists i :: 0 <= i < |needs| && needs[i].productId == pid {
        var i :| 0 <= i < |needs| && needs[i].productId == pid;
        assert needs[i] in needs && needs[i].qty == Demand(lines, pid);
      } else {
        NoDemand(lines, pid);
        SupplyNonNegative(chosen, stock, pid);
        SupplyNonNegative(ws, stock, pid);
      }
    }
  }

  function IsRelevant(needs: seq<Need>, stock: Stock): Warehouse -> bool {
    (w: Warehouse) => exists n :: n in needs && Avail(stock, w.id, n.productId) > 0
  }

  /** Warehouses holding anything wanted, or all of them when none does. */
  method RelevantWarehouses(ws: seq<Warehouse>, needs: seq<Need>, ghost lines: seq<Line>, stock: Stock)
    returns (chosen: seq<Warehouse>)
    requires DistinctIds(ws) && Tallies(needs, lines)
    ensures Selects(ws, chosen) && SameShortfall(ws, chosen, lines, stock)
    ensures if NothingInStock(ws, needs, stock) then chosen == ws
            else forall w :: w in chosen <==> w in ws && IsRelevant(needs, stock)(w)
  {
    chosen := Filter(ws, IsRelevant(needs, stock));
    FilterKeepsDistinct(ws, IsRelevant(needs, stock));
    assert chosen != [] ==> chosen[0] in ws && IsRelevant(needs, stock)(chosen[0]);
    if chosen == [] {
      chosen := ws;
    }
    UselessOnesLeftOut(ws, chosen, needs, lines, stock);
  }

  /** Any covering set of ids needs at least one warehouse, and one warehouse is a full-coverage candidate. */
  lemma SmallCovers(ws: seq<Warehouse>, candidates: seq<Warehouse>, lines: seq<Line>, stock: Stock, ids: set<int>)
    requires DistinctIds(ws) && CoveringIds(ws, ids, lines, stock)
    requires lines != [] && forall l :: l in lines ==> l.requestedQty > 0
    requires forall w :: w in candidates <==> w in ws && CanCover([w], lines, stock)
    ensures |ids| >= 1
    ensures |ids| == 1 ==> exists w :: w in candidates && ids == {w.id} && ShippingCost(ws, ids) == w.costWeight
                                         && PrioritySum(ws, ids) == w.priority
  {
    var s := SubsetIsCombination(ws, ids);
    CombinationShape(ws, |ids|, s);
    CombinationTotals(ws, |ids|, s, stock);
    DemandNonNegative(lines, lines[0].productId);
    assert lines[0] in lines;
    if |ids| == 1 {
      var w := s[0];
      assert s == [w] && w in s;
      forall pid ensures Supply([w], stock, pid) >= Demand(lines, pid) {
        assert Supply(s, stock, pid) == SupplyWithin(ws, ids, stock, pid);
      }
      SumRealSingle(w, CostOf());
      SumIntSingle(w, PriorityOf());
      assert w in candidates && ids == {w.id};
    }
  }

  /** A single candidate with the least key is a best cover. */
  lemma SingleIsBest(ws: seq<Warehouse>, candidates: seq<Warehouse>, best: Warehouse, lines: seq<Line>, stock: Stock)
    requires DistinctIds(ws)
    requires lines != [] && forall l :: l in lines ==> l.requestedQty > 0
    requires forall w :: w in candidates <==> w in ws && CanCover([w], lines, stock)
    requires best in candidates && forall w :: w in candidates ==> KeyLe(best, w)
    ensures BestCover(ws, [best], lines, stock)
  {
    SelectionTotals(ws, [best], stock);
    assert Ids([best]) == {best.id};
    SumRealSingle(best, CostOf());
    SumIntSingle(best, PriorityOf());
    forall ids | CoveringIds(ws, ids, lines, stock)
      ensures 1 <= |ids|
      ensures |ids| == 1 ==>
                LeadsOrTies(TotalCost([best]), TotalPriority([best]), ShippingCost(ws, ids), PrioritySum(ws, ids))
    {
      SmallCovers(ws, candidates, lines, stock, ids);
    }
  }

  /** All of ws together, when they hold enough, are themselves a covering choice. */
  lemma AllTogether(ws: seq<Warehouse>, lines: seq<Line>, stock: Stock)
    requires DistinctIds(ws) && CanCover(ws, lines, stock)
    ensures CoveringIds(ws, Ids(ws), lines, stock) && |Ids(ws)| == |ws|
  {
    SelectionTotals(ws, ws, stock);
    DistinctIdsCount(ws);
  }

  method ChooseWarehouses(ws: seq<Warehouse>, needs: seq<Need>, ghost lines: seq<Line>, stock: Stock, force: Option<string>)
    returns (strategy: Strategy, chosen: seq<Warehouse>)
    requires ws != [] && DistinctIds(ws) && Tallies(needs, lines)
    requires lines != [] && forall l :: l in lines ==> l.requestedQty > 0
    ensures Selects(ws, chosen) && SameShortfall(ws, chosen, lines, stock)
    ensures strategy.FullCoverage? <==> !Forced(force) && exists w :: w in ws && CanCover([w], lines, stock)
    ensures strategy.Greedy? <==> !strategy.FullCoverage? && (|ws| > 6 || force == Some("GREEDY"))
    ensures strategy in {FullCoverage, Exhaustive, Greedy}
    ensures strategy.FullCoverage? ==>
              |chosen| == 1 && forall w :: w in ws && CanCover([w], lines, stock) ==> KeyLe(chosen[0], w)
    ensures strategy.Greedy? ==> GreedyChoice(chosen, ws, needs, stock)
    ensures SearchesAll(force, ws, lines, stock) && |ws| <= 6 && CanCover(ws, lines, stock) ==>
              BestCover(ws, chosen, lines, stock)
  {
    var candidates := [];
    if !Forced(force) {
      candidates := FullCoverageCandidates(ws, needs, lines, stock);
    }
    if candidates != [] {
      var best := LeastByKey(candidates);
      SingleIsBest(ws, candidates, best, lines, stock);
      CoverLeavesNoShortfall(ws, [best], lines, stock);
      return FullCoverage, [best];
    }
    if |ws| <= 6 && force != Some("GREEDY") {
      var found := FewestCheapest(ws, needs, lines, stock);
      if found.Some? {
        CoverLeavesNoShortfall(ws, found.value, lines, stock);
        if SearchesAll(force, ws, lines, stock) {
          FoundIsBest(ws, found.value, lines, stock);
        }
        return Exhaustive, found.value;
      }
      if SearchesAll(force, ws, lines, stock) {
        NothingFound(ws, lines, stock);
      }
      chosen := RelevantWarehouses(ws, needs, lines, stock);
      return Exhaustive, chosen;
    }
    chosen := GreedyOrAll(ws, needs, lines, stock);
    return Greedy, chosen;
  }

  /** When no size has a cover, not even all warehouses together cover the demand. */
  lemma NothingFound(ws: seq<Warehouse>, lines: seq<Line>, stock: Stock)
    requires ws != [] && DistinctIds(ws)
    requires lines != [] && forall l :: l in lines ==> l.requestedQty > 0
    requires forall w :: w in ws ==> !CanCover([w], lines, stock)
    requires forall k :: 2 <= k <= |ws| ==> NoCoverOfSize(ws, k, lines, stock)
    ensures !CanCover(ws, lines, stock)
  {
    assert |ws| >= 2 ==> NoCoverOfSize(ws, |ws|, lines, stock);
    if CanCover(ws, lines, stock) {
      AllTogether(ws, lines, stock);
      SmallCovers(ws, [], lines, stock, Ids(ws));
    }
  }

  lemma FoundIsBest(ws: seq<Warehouse>, found: seq<Warehouse>, lines: seq<Line>, stock: Stock)
    requires DistinctIds(ws) && CheapestCover(ws, found, lines, stock)
    requires lines != [] && forall l :: l in lines ==> l.requestedQty > 0
    requires forall w :: w in ws ==> !CanCover([w], lines, stock)
    requires forall k :: 2 <= k < |found| ==> NoCoverOfSize(ws, k, lines, stock)
    ensures BestCover(ws, found, lines, stock)
  {
    forall ids | CoveringIds(ws, ids, lines, stock) ensures |found| <= |ids| {
      SmallCovers(ws, [], lines, stock, ids);
      assert 2 <= |ids| < |found| ==> NoCoverOfSize(ws, |ids|, lines, stock);
    }
  }

  method GreedyOrAll(ws: seq<Warehouse>, needs: seq<Need>, ghost lines: seq<Line>, stock: Stock)
    returns (chosen: seq<Warehouse>)
    requires DistinctIds(ws) && Tallies(needs, lines)
    ensures Selects(ws, chosen) && SameShortfall(ws, chosen, lines, stock)
    ensures GreedyChoice(chosen, ws, needs, stock)
  {
    var selected := GreedyCover(ws, needs, stock);
    chosen := selected;
    if selected == [] {
      chosen := ws;
    }
    UselessOnesLeftOut(ws, chosen, needs, lines, stock);
    if selected == [] {
      forall w, n | w in ws && n in needs ensures Avail(stock, w.id, n.productId) == 0 {
        assert UncoveredOf([], stock)(n) == Max(0, n.qty - Supply([], stock, n.productId)) > 0;
      }
    }
  }

  // --- which warehouses the plan ships from ---

  lemma {:induction false} NotUsedTakesNothing(allocs: seq<Allocation>, wid: int, pid: int)
    requires wid !in UsedIds(allocs)
    ensures Taken(allocs, wid, pid) == 0
  {
    if allocs != [] {
      assert allocs == [allocs[0]] + allocs[1..];
      NotUsedTakesNothing(allocs[1..], wid, pid);
    }
  }

  /** A chosen warehouse that ships nothing could have been left out of the cover. */
  lemma UnusedCanGo(ws: seq<Warehouse>, chosen: seq<Warehouse>, j: nat, lines: seq<Line>, stock: Stock)
    requires DistinctIds(ws) && Selects(ws, chosen) && CanCover(chosen, lines, stock) && j < |chosen|
    requires forall pid :: Share(chosen, stock, pid, Demand(lines, pid), j) == 0
    ensures CoveringIds(ws, Ids(chosen[..j] + chosen[j + 1..]), lines, stock)
  {
    var rest := chosen[..j] + chosen[j + 1..];
    SelectionTotals(ws, rest, stock);
    forall pid ensures Supply(rest, stock, pid) >= Demand(lines, pid) {
      SumIntWithout(chosen, j, AvailOf(stock, pid));
      BeforeStep(chosen, stock, pid, j);
    }
  }

  /** A plan that follows the closed form over a best cover ships from every warehouse of it. */
  lemma BestCoverAllUsed(ws: seq<Warehouse>, chosen: seq<Warehouse>, lines: seq<Line>, stock: Stock, allocs: seq<Allocation>)
    requires DistinctIds(ws) && BestCover(ws, chosen, lines, stock)
    requires SharesExactly(lines, chosen, stock, allocs) && Sound(allocs, chosen, lines)
    ensures UsedIds(allocs) == Ids(chosen)
  {
    forall j | 0 <= j < |chosen| ensures chosen[j].id in UsedIds(allocs) {
      var rest := chosen[..j] + chosen[j + 1..];
      DistinctIdsCount(rest);
      assert |Ids(rest)| <= |rest| == |chosen| - 1;
      if chosen[j].id !in UsedIds(allocs) {
        forall pid ensures Share(chosen, stock, pid, Demand(lines, pid), j) == 0 {
          NotUsedTakesNothing(allocs, chosen[j].id, pid);
        }
        UnusedCanGo(ws, chosen, j, lines, stock);
      }
    }
    UsedAreChosen(allocs, chosen, lines);
  }

  lemma UsedAreChosen(allocs: seq<Allocation>, chosen: seq<Warehouse>, lines: seq<Line>)
    requires Sound(allocs, chosen, lines)
    ensures UsedIds(allocs) <= Ids(chosen)
  {
  }

  /** The cost counted over the chosen warehouses is the cost over all of them. */
  lemma CostOverChosen(ws: seq<Warehouse>, chosen: seq<Warehouse>, used: set<int>)
    requires DistinctIds(ws) && Selects(ws, chosen) && used <= Ids(chosen)
    ensures ShippingCost(chosen, used) == ShippingCost(ws, used)
  {
    SameIdSameWarehouse(ws, chosen);
    SelectionSumReal(ws, chosen, CostWithin(used));
  }

  // --- the plan ---

  /** Fewest shipments, then least shipping cost, then least total priority number, among all choices that cover the
      whole demand. */
  ghost predicate OptimalShipping(plan: Plan, active: seq<Warehouse>, lines: seq<Line>, stock: Stock) {
    && plan.backorders == []
    && CoveringIds(active, plan.used, lines, stock)
    && plan.used == Ids(plan.chosen)
    && (forall ids :: CoveringIds(active, ids, lines, stock) ==> plan.shipments <= |ids|)
    && (forall ids :: CoveringIds(active, ids, lines, stock) && |ids| == plan.shipments ==>
                        LeadsOrTies(plan.shippingCost, PrioritySum(active, plan.used),
                                    ShippingCost(active, ids), PrioritySum(active, ids)))
  }

  /** What every plan for these lines and active warehouses guarantees, whatever the strategy. */
  ghost predicate PlanFits(plan: Plan, active: seq<Warehouse>, lines: seq<Line>, stock: Stock) {
    && Selects(active, plan.chosen) && Sorted(plan.chosen, KeyLe)
    // every line, warehouse and product is accounted for by the closed form
    && FillsExactly(lines, plan.chosen, stock, plan.allocations, plan.backorders)
    // exact shortfall: never backordering stock that some active warehouse holds
    && (forall pid :: Backordered(plan.backorders, pid) == Max(0, Demand(lines, pid) - Supply(active, stock, pid)))
    && plan.used == UsedIds(plan.allocations) && plan.shipments == |plan.used|
    && plan.shippingCost == ShippingCost(active, plan.used)
  }

  /** The plan on its raw arguments. Everything shipped leaves an active warehouse for a wanted line; of each product exactly
      what all active warehouses lack is backordered; each line id gets what it wants; the warehouses are used in shipping
      order; and shipments and cost are those of the warehouses that ship. */
  ghost predicate FitsRaw(plan: Plan, lines: seq<Line>, ws: seq<Warehouse>, stock: Stock) {
    && ShipsSoundly(plan.allocations, lines, ws)
    && (forall pid :: BackorderedTotal(plan.backorders, pid)
                      == Max(0, Wanted(lines, pid) - HeldActive(ws, stock, pid)))
    && (forall b :: b in plan.backorders ==> b.warehouseId == None && b.allocatedQty == 0 && b.backorderQty == b.requestedQty > 0)
    && (forall lid :: ServedTotal(plan.allocations, lid) + ServedTotal(plan.backorders, lid) == WantedBy(lines, lid))
    && (forall w, pid :: w in ws && w.active ==> TakenTotal(plan.allocations, w.id, pid) <= Held(stock, w.id, pid))
    && InShippingOrder(plan.chosen)
    && plan.used == (set a <- plan.allocations | a.warehouseId.Some? :: a.warehouseId.value)
    && plan.shipments == |plan.used| && plan.shippingCost == CostOver(ws, plan.used)
  }

  /** Fewest warehouses, then least cost, then least total priority number, among all covering sets of active ones. */
  ghost predicate OptimalRaw(plan: Plan, lines: seq<Line>, ws: seq<Warehouse>, stock: Stock) {
    && plan.backorders == [] && Covers(ws, plan.used, lines, stock)
    && (forall ids :: Covers(ws, ids, lines, stock) ==> plan.shipments <= |ids|)
    && (forall ids :: Covers(ws, ids, lines, stock) && |ids| == plan.shipments ==>
                        LeadsOrTies(plan.shippingCost, PriorityOver(ws, plan.used), CostOver(ws, ids), PriorityOver(ws, ids)))
  }

  lemma TakenWithinStock(plan: Plan, active: seq<Warehouse>, lines: seq<Line>, stock: Stock, w: Warehouse, pid: int)
    requires DistinctIds(active) && PlanFits(plan, active, lines, stock) && w in active
    ensures Taken(plan.allocations, w.id, pid) <= Avail(stock, w.id, pid)
  {
    if w.id in UsedIds(plan.allocations) {
      UsedAreChosen(plan.allocations, plan.chosen, lines);
      var v :| v in plan.chosen && v.id == w.id;
      var j :| 0 <= j < |plan.chosen| && plan.chosen[j] == v;
      hide SumInt;
      assert Taken(plan.allocations, plan.chosen[j].id, pid) == Share(plan.chosen, stock, pid, Demand(lines, pid), j);
    } else {
      NotUsedTakesNothing(plan.allocations, w.id, pid);
    }
  }

  lemma TotalsOnRaw(plan: Plan, lines: seq<Line>, ws: seq<Warehouse>, stock: Stock)
    requires DistinctIds(ActiveWarehouses(ws)) && PlanFits(plan, ActiveWarehouses(ws), ValidLines(lines), stock)
    ensures forall pid :: BackorderedTotal(plan.backorders, pid) == Max(0, Wanted(lines, pid) - HeldActive(ws, stock, pid))
    ensures forall lid :: ServedTotal(plan.allocations, lid) + ServedTotal(plan.backorders, lid) == WantedBy(lines, lid)
    ensures forall w, pid :: w in ws && w.active ==> TakenTotal(plan.allocations, w.id, pid) <= Held(stock, w.id, pid)
  {
    var (active, valid) := (ActiveWarehouses(ws), ValidLines(lines));
    hide SumInt, Filter;
    forall pid
      ensures BackorderedTotal(plan.backorders, pid) == Max(0, Wanted(lines, pid) - HeldActive(ws, stock, pid))
    {
      WantedIsDemand(lines, pid);
      HeldIsSupply(ws, stock, pid);
      TotalsAreSums(plan.backorders, 0, 0, pid);
    }
    forall lid ensures ServedTotal(plan.allocations, lid) + ServedTotal(plan.backorders, lid) == WantedBy(lines, lid) {
      WantedByIsRequested(lines, lid);
      TotalsAreSums(plan.allocations, lid, 0, 0);
      TotalsAreSums(plan.backorders, lid, 0, 0);
    }
    forall w, pid | w in ws && w.active ensures TakenTotal(plan.allocations, w.id, pid) <= Held(stock, w.id, pid) {
      TotalsAreSums(plan.allocations, 0, w.id, pid);
      TakenWithinStock(plan, active, valid, stock, w, pid);
    }
  }

  lemma ShapeOnRaw(plan: Plan, lines: seq<Line>, ws: seq<Warehouse>, stock: Stock)
    requires PlanFits(plan, ActiveWarehouses(ws), ValidLines(lines), stock)
    ensures ShipsSoundly(plan.allocations, lines, ws) && InShippingOrder(plan.chosen)
    ensures forall b :: b in plan.backorders ==> IsBackorder(b)
    ensures plan.used == UsedIds(plan.allocations)
    ensures plan.shipments == |plan.used| && plan.shippingCost == ShippingCost(ActiveWarehouses(ws), plan.used)
  {
    assert forall w :: w in ActiveWarehouses(ws) ==> w in ws && w.active;
    assert forall l :: l in ValidLines(lines) ==> l in lines && l.requestedQty > 0;
    hide SumInt, SumReal, Filter, UsedIds, SharesExactly, BackordersExactly, ServesExactly, Backordered, Demand, Supply;
  }

  lemma FitsOnRaw(plan: Plan, lines: seq<Line>, ws: seq<Warehouse>, stock: Stock)
    requires DistinctIds(ActiveWarehouses(ws)) && PlanFits(plan, ActiveWarehouses(ws), ValidLines(lines), stock)
    ensures FitsRaw(plan, lines, ws, stock)
  {
    hide PlanFits, ShipsSoundly, InShippingOrder, DistinctIds, Filter, SumReal, BackorderedTotal, ServedTotal, TakenTotal;
    TotalsOnRaw(plan, lines, ws, stock);
    ShapeOnRaw(plan, lines, ws, stock);
    OverIsCost(ws, plan.used);
  }

  lemma OptimalOnRaw(plan: Plan, lines: seq<Line>, ws: seq<Warehouse>, stock: Stock)
    requires OptimalShipping(plan, ActiveWarehouses(ws), ValidLines(lines), stock)
    ensures OptimalRaw(plan, lines, ws, stock)
  {
    forall ids
      ensures CoveringIds(ActiveWarehouses(ws), ids, ValidLines(lines), stock) <==> Covers(ws, ids, lines, stock)
      ensures ShippingCost(ActiveWarehouses(ws), ids) == CostOver(ws, ids)
      ensures PrioritySum(ActiveWarehouses(ws), ids) == PriorityOver(ws, ids)
    {
      CoversIsCovering(ws, ids, lines, stock);
      OverIsCost(ws, ids);
    }
    hide CoveringIds, Covers, ShippingCost, PrioritySum, CostOver, PriorityOver, Filter;
  }

  /** Which way the plan was made, and for full coverage that the one warehouse comes first in shipping order of all that
      cover alone. */
  ghost predicate StrategyRaw(plan: Plan, lines: seq<Line>, ws: seq<Warehouse>, stock: Stock, force: Option<string>) {
    && (plan.strategy.NoStockableItems? <==> !SomethingWanted(lines))
    && (plan.strategy.NoActiveWarehouses? <==> SomethingWanted(lines) && !SomeActive(ws))
    && (plan.strategy.FullCoverage? <==>
          && SomethingWanted(lines) && force != Some("GREEDY") && force != Some("EXHAUSTIVE")
          && exists w :: w in ws && w.active && CoversAlone(w, lines, stock))
    && (plan.strategy.FullCoverage? ==>
          && |plan.chosen| == 1
          && forall w :: w in ws && w.active && CoversAlone(w, lines, stock) ==> InShippingOrder([plan.chosen[0], w]))
    && (plan.strategy.Greedy? <==>
          && SomethingWanted(lines) && SomeActive(ws) && !plan.strategy.FullCoverage?
          && (ActiveCount(ws) > 6 || force == Some("GREEDY")))
  }

  ghost predicate SearchesAllRaw(force: Option<string>, ws: seq<Warehouse>, lines: seq<Line>, stock: Stock) {
    && force != Some("GREEDY")
    && (force == Some("EXHAUSTIVE") ==> forall w :: w in ws && w.active ==> !CoversAlone(w, lines, stock))
  }

  /** Some set of active warehouses covers all that is wanted. */
  ghost predicate SomeCover(ws: seq<Warehouse>, lines: seq<Line>, stock: Stock) { exists ids :: Covers(ws, ids, lines, stock) }

  /** The same on the active warehouses and the valid lines. */
  ghost predicate StrategyFits(plan: Plan, active: seq<Warehouse>, valid: seq<Line>, stock: Stock, force: Option<string>) {
    && (plan.strategy.NoStockableItems? <==> valid == [])
    && (plan.strategy.NoActiveWarehouses? <==> valid != [] && active == [])
    && (plan.strategy.FullCoverage? <==> valid != [] && !Forced(force) && exists w :: w in active && CanCover([w], valid, stock))
    && (plan.strategy.FullCoverage? ==>
          |plan.chosen| == 1 && forall w :: w in active && CanCover([w], valid, stock) ==> KeyLe(plan.chosen[0], w))
    && (plan.strategy.Greedy? <==>
          valid != [] && active != [] && !plan.strategy.FullCoverage? && (|active| > 6 || force == Some("GREEDY")))
  }

  lemma StrategyOnRaw(plan: Plan, lines: seq<Line>, ws: seq<Warehouse>, stock: Stock, force: Option<string>)
    requires StrategyFits(plan, ActiveWarehouses(ws), ValidLines(lines), stock, force)
    ensures StrategyRaw(plan, lines, ws, stock, force)
  {
    WantedIsValid(lines);
    CountIsLength(ws);
    forall w ensures CanCover([w], ValidLines(lines), stock) <==> CoversAlone(w, lines, stock) {
      AloneIsCover(w, lines, stock);
    }
    assert forall w :: w in ActiveWarehouses(ws) <==> w in ws && w.active;
    hide CanCover, CoversAlone, Filter, ActiveCount, SomethingWanted, SomeActive;
  }

  lemma SearchOnRaw(force: Option<string>, ws: seq<Warehouse>, lines: seq<Line>, stock: Stock)
    requires SearchesAllRaw(force, ws, lines, stock)
    ensures SearchesAll(force, ActiveWarehouses(ws), ValidLines(lines), stock)
  {
    forall w | w in ActiveWarehouses(ws) && force == Some("EXHAUSTIVE") ensures !CanCover([w], ValidLines(lines), stock) {
      AloneIsCover(w, lines, stock);
      assert w in ws && w.active;
    }
    hide CanCover, CoversAlone, Filter;
  }

  lemma CoverOnRaw(ws: seq<Warehouse>, lines: seq<Line>, stock: Stock)
    requires SomeCover(ws, lines, stock)
    ensures CanCover(ActiveWarehouses(ws), ValidLines(lines), stock)
  {
    var ids :| Covers(ws, ids, lines, stock);
    var (active, valid) := (ActiveWarehouses(ws), ValidLines(lines));
    CoversIsCovering(ws, ids, lines, stock);
    forall pid ensures Supply(active, stock, pid) >= Demand(valid, pid) {
      SumIntMonotone(active, AvailWithin(stock, pid, ids), AvailOf(stock, pid));
      assert SupplyWithin(active, ids, stock, pid) >= Demand(valid, pid);
    }
  }

  method CalculateFulfillmentPlan(lines: seq<Line>, warehouses: seq<Warehouse>, stock: Stock, force: Option<string>)
    returns (plan: Plan)
    requires DistinctIds(ActiveWarehouses(warehouses))
    // on the raw arguments
    ensures FitsRaw(plan, lines, warehouses, stock) && StrategyRaw(plan, lines, warehouses, stock, force)
    ensures SearchesAllRaw(force, warehouses, lines, stock) && ActiveCount(warehouses) <= 6 && SomeCover(warehouses, lines, stock) ==>
              OptimalRaw(plan, lines, warehouses, stock)
    // on the active warehouses and the valid lines
    ensures PlanFits(plan, ActiveWarehouses(warehouses), ValidLines(lines), stock)
    ensures plan.strategy.Greedy? ==> GreedyPlan(plan.chosen, ActiveWarehouses(warehouses), ValidLines(lines), stock)
    ensures SearchesAll(force, ActiveWarehouses(warehouses), ValidLines(lines), stock)
            && |ActiveWarehouses(warehouses)| <= 6 && CanCover(ActiveWarehouses(warehouses), ValidLines(lines), stock) ==>
              OptimalShipping(plan, ActiveWarehouses(warehouses), ValidLines(lines), stock)
  {
    var valid := ValidLines(lines);
    var active := ActiveWarehouses(warehouses);
    assert forall l :: l in valid ==> l.requestedQty > 0;
    hide *;
    if valid == [] {
      plan := Plan(NoStockableItems, 0, 0.0, [], [], [], {});
      EmptyPlan(active, stock, plan);
      assert StrategyFits(plan, active, valid, stock, force) by { EmptyStrategy(plan, active, stock, force); }
    } else if active == [] {
      var backs := BackorderAll(valid, stock);
      plan := Plan(NoActiveWarehouses, 0, 0.0, [], backs, [], {});
      NoWarehousePlan(valid, stock, plan);
      assert StrategyFits(plan, active, valid, stock, force) by { NoWarehouseStrategy(plan, valid, stock, force); }
    } else {
      plan := PlanFrom(valid, active, stock, force);
    }
    FitsOnRaw(plan, lines, warehouses, stock);
    StrategyOnRaw(plan, lines, warehouses, stock, force);
    if SearchesAllRaw(force, warehouses, lines, stock) && ActiveCount(warehouses) <= 6 && SomeCover(warehouses, lines, stock) {
      SearchOnRaw(force, warehouses, lines, stock);
      CoverOnRaw(warehouses, lines, stock);
      CountIsLength(warehouses);
      OptimalOnRaw(plan, lines, warehouses, stock);
    }
  }

  lemma EmptyStrategy(plan: Plan, active: seq<Warehouse>, stock: Stock, force: Option<string>)
    requires plan.strategy.NoStockableItems?
    ensures StrategyFits(plan, active, [], stock, force)
  {
  }

  lemma NoWarehouseStrategy(plan: Plan, valid: seq<Line>, stock: Stock, force: Option<string>)
    requires plan.strategy.NoActiveWarehouses? && valid != []
    ensures StrategyFits(plan, [], valid, stock, force)
  {
  }

  /** Fills the lines from the chosen warehouses, cheapest first, and counts what was used. */
  method PlanOver(strategy: Strategy, unsorted: seq<Warehouse>, ghost active: seq<Warehouse>, needs: seq<Need>,
                  valid: seq<Line>, stock: Stock) returns (plan: Plan)
    requires DistinctIds(active) && Selects(active, unsorted) && SameShortfall(active, unsorted, valid, stock)
    requires Tallies(needs, valid) && forall l :: l in valid ==> l.requestedQty > 0
    ensures plan.strategy == strategy && plan.chosen == SortByKey(unsorted) && PlanFits(plan, active, valid, stock)
  {
    hide SumInt, SumReal, UsedIds, Taken, Served, Demand, Share, Tallies;
    var chosen := SortByKey(unsorted);
    SortByKeyKeeps(unsorted);
    var allocs, backs := FillLines(valid, chosen, needs, stock);
    UsedAreChosen(allocs, chosen, valid);
    var used := UsedIds(allocs);
    CostOverChosen(active, chosen, used);
    plan := Plan(strategy, |used|, ShippingCost(chosen, used), allocs, backs, chosen, used);
  }

  method PlanFrom(valid: seq<Line>, active: seq<Warehouse>, stock: Stock, force: Option<string>) returns (plan: Plan)
    requires valid != [] && (forall l :: l in valid ==> l.requestedQty > 0)
    requires active != [] && DistinctIds(active)
    ensures StrategyFits(plan, active, valid, stock, force) && PlanFits(plan, active, valid, stock)
    ensures plan.strategy.Greedy? ==> GreedyPlan(plan.chosen, active, valid, stock)
    ensures SearchesAll(force, active, valid, stock) && |active| <= 6 && CanCover(active, valid, stock) ==>
              OptimalShipping(plan, active, valid, stock)
  {
    hide BestCover, OptimalShipping, PlanFits, StrategyFits, GreedyPlan, GreedyChoice, Tallies, SumInt;
    var needs := TotalDemand(valid);
    var sorted := SortByKey(active);
    SortByKeyKeeps(active);
    var strategy, unsorted := ChooseWarehouses(sorted, needs, valid, stock, force);
    plan := PlanOver(strategy, unsorted, active, needs, valid, stock);
    SortByKeyKeeps(unsorted);
    StrategyKept(plan, sorted, unsorted, active, valid, stock, force);
    if SearchesAll(force, active, valid, stock) && |active| <= 6 && CanCover(active, valid, stock) {
      BestCoverReordered(active, sorted, unsorted, plan.chosen, valid, stock);
      BestPlanIsOptimal(plan, active, valid, stock);
    }
    if strategy.Greedy? {
      GreedyPlanKept(active, sorted, unsorted, plan.chosen, needs, valid, stock);
    }
  }

  /** Sorting the active warehouses does not change which strategy applies, nor a choice of one. */
  lemma StrategyKept(plan: Plan, sorted: seq<Warehouse>, chosen: seq<Warehouse>, active: seq<Warehouse>, valid: seq<Line>,
                     stock: Stock, force: Option<string>)
    requires valid != [] && active != [] && |sorted| == |active| && (forall w :: w in sorted <==> w in active)
    requires plan.strategy in {FullCoverage, Exhaustive, Greedy} && plan.chosen == SortByKey(chosen)
    requires plan.strategy.FullCoverage? <==> !Forced(force) && exists w :: w in sorted && CanCover([w], valid, stock)
    requires plan.strategy.Greedy? <==> !plan.strategy.FullCoverage? && (|sorted| > 6 || force == Some("GREEDY"))
    requires plan.strategy.FullCoverage? ==>
               |chosen| == 1 && forall w :: w in sorted && CanCover([w], valid, stock) ==> KeyLe(chosen[0], w)
    ensures StrategyFits(plan, active, valid, stock, force)
  {
    if plan.strategy.FullCoverage? {
      assert chosen == [chosen[0]] && Sort([], KeyLe) == [] && chosen[1..] == [];
    }
    hide CanCover;
  }

  lemma GreedyPlanKept(active: seq<Warehouse>, sorted: seq<Warehouse>, unsorted: seq<Warehouse>, chosen: seq<Warehouse>,
                       needs: seq<Need>, lines: seq<Line>, stock: Stock)
    requires GreedyChoice(unsorted, sorted, needs, stock) && Tallies(needs, lines) && lines != []
    requires multiset(sorted) == multiset(active) && multiset(chosen) == multiset(unsorted)
    ensures GreedyPlan(chosen, active, lines, stock)
  {
    ChoiceReordered(unsorted, chosen, sorted, active, needs, stock);
    GreedyIsFew(chosen, active, needs, lines, stock);
  }

  lemma BestPlanIsOptimal(plan: Plan, active: seq<Warehouse>, lines: seq<Line>, stock: Stock)
    requires DistinctIds(active) && PlanFits(plan, active, lines, stock) && BestCover(active, plan.chosen, lines, stock)
    ensures OptimalShipping(plan, active, lines, stock)
  {
    BestCoverAllUsed(active, plan.chosen, lines, stock, plan.allocations);
    NoBackorders(plan.backorders, plan.chosen, lines, stock);
  }

  lemma EmptyPlan(active: seq<Warehouse>, stock: Stock, plan: Plan)
    requires plan == Plan(NoStockableItems, 0, 0.0, [], [], [], {})
    ensures PlanFits(plan, active, [], stock) && OptimalShipping(plan, active, [], stock)
  {
    forall pid ensures SupplyWithin(active, {}, stock, pid) == 0 && Supply(active, stock, pid) >= 0 {
      ZeroSumInt(active, AvailWithin(stock, pid, {}));
      SupplyNonNegative(active, stock, pid);
    }
    ZeroSumReal(active, CostWithin({}));
    forall ids | CoveringIds(active, ids, [], stock) && |ids| == 0
      ensures ShippingCost(active, ids) == 0.0 && PrioritySum(active, ids) == PrioritySum(active, {})
    {
      assert ids == {};
    }
    NothingFilled([], stock);
    hide SumInt, SumReal, SharesExactly, BackordersExactly, ServesExactly;
  }

  lemma NoWarehousePlan(valid: seq<Line>, stock: Stock, plan: Plan)
    requires valid != [] && forall l :: l in valid ==> l.requestedQty > 0
    requires FillsExactly(valid, [], stock, [], plan.backorders)
    requires plan == Plan(NoActiveWarehouses, 0, 0.0, [], plan.backorders, [], {})
    ensures PlanFits(plan, [], valid, stock) && !CanCover([], valid, stock)
  {
    DemandNonNegative(valid, valid[0].productId);
    assert valid[0] in valid && Supply([], stock, valid[0].productId) == 0;
  }

  /** With no warehouse to ship from, every line is backordered whole. */
  method BackorderAll(valid: seq<Line>, ghost stock: Stock) returns (backs: seq<Allocation>)
    requires forall l :: l in valid ==> l.requestedQty > 0
    ensures FillsExactly(valid, [], stock, [], backs)
  {
    backs := [];
    for i := 0 to |valid|
      invariant BackordersExactly(valid[..i], [], stock, backs) && ServesExactly(valid[..i], [], backs)
      invariant forall b :: b in backs ==> IsBackorder(b)
    {
      var l := valid[i];
      ghost var backs0 := backs;
      var b := Allocation(l.lineId, l.productId, None, l.requestedQty, 0, l.requestedQty, 0.0);
      OneMoreAllocation(backs, b);
      backs := backs + [b];
      DemandNonNegative(valid[..i], l.productId);
      assert Supply([], stock, l.productId) == 0;
      BackordersStep(valid, i, l.requestedQty, [], stock, backs0, backs);
      ServesStep(valid, i, l.requestedQty, [], backs0, [], backs);
    }
    assert valid[..|valid|] == valid;
  }

  /** A best cover stays one when the warehouses, and the choice itself, are put in another order. */
  lemma BestCoverReordered(active: seq<Warehouse>, sorted: seq<Warehouse>, found: seq<Warehouse>, chosen: seq<Warehouse>,
                           lines: seq<Line>, stock: Stock)
    requires DistinctIds(active) && sorted == SortByKey(active) && chosen == SortByKey(found)
    requires BestCover(sorted, found, lines, stock)
    ensures BestCover(active, chosen, lines, stock)
  {
    SortByKeyKeeps(active);
    SortByKeyKeeps(found);
    SumRealPermutation(found, chosen, CostOf());
    SumIntPermutation(found, chosen, PriorityOf());
    forall ids
      ensures CoveringIds(sorted, ids, lines, stock) <==> CoveringIds(active, ids, lines, stock)
      ensures ShippingCost(sorted, ids) == ShippingCost(active, ids) && PrioritySum(sorted, ids) == PrioritySum(active, ids)
    {
      SortByKeyKeepsWithin(active, ids, stock);
    }
  }

  lemma NoBackorders(backs: seq<Allocation>, chosen: seq<Warehouse>, lines: seq<Line>, stock: Stock)
    requires BackordersExactly(lines, chosen, stock, backs) && CanCover(chosen, lines, stock)
    requires forall b :: b in backs ==> IsBackorder(b)
    ensures backs == []
  {
    if backs != [] {
      var pid := backs[0].productId;
      assert Backordered(backs, pid) == Shortfall(chosen, stock, pid, Demand(lines, pid)) == 0;
      assert IsBackorder(backs[0]);
      SumIntElement(backs, 0, BackorderedOf(pid));
    }
  }

  /** A warehouse ships a product only once every warehouse before it, none of them dearer, has shipped all it had. */
  lemma DearerOnlyWhenCheaperEmpty(plan: Plan, lines: seq<Line>, stock: Stock, i: nat, j: nat, pid: int)
    requires Sorted(plan.chosen, KeyLe) && SharesExactly(lines, plan.chosen, stock, plan.allocations)
    requires i < j < |plan.chosen| && Taken(plan.allocations, plan.chosen[j].id, pid) > 0
    ensures plan.chosen[i].costWeight <= plan.chosen[j].costWeight
    ensures Taken(plan.allocations, plan.chosen[i].id, pid) == Avail(stock, plan.chosen[i].id, pid)
  {
    hide SumInt;
    var d := Demand(lines, pid);
    assert Taken(plan.allocations, plan.chosen[j].id, pid) == Share(plan.chosen, stock, pid, d, j);
    assert Taken(plan.allocations, plan.chosen[i].id, pid) == Share(plan.chosen, stock, pid, d, i);
    BeforeStep(plan.chosen, stock, pid, i);
    BeforeMonotone(plan.chosen, stock, pid, i + 1, j);
    BeforeStep(plan.chosen, stock, pid, j);
  }
}
