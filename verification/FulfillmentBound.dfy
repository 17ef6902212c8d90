/** How few warehouses the greedy cover chooses, next to the smallest choice that could cover the lines. */
module FulfillmentBound {
  import opened Prelude
  import opened Sums
  import opened FulfillmentModel
  import opened FulfillmentGreedy

  /** chosen puts a greedy selection into another order. */
  ghost predicate Reorders(chosen: seq<Warehouse>, ws: seq<Warehouse>, needs: seq<Need>, stock: Stock) {
    exists selected :: Progress(needs, ws, selected, stock) && EachHelped(needs, selected, stock)
                       && PicksBest(needs, ws, selected, stock) && multiset(selected) == multiset(chosen)
  }

  /** No warehouse holds anything that is needed. */
  ghost predicate NothingInStock(ws: seq<Warehouse>, needs: seq<Need>, stock: Stock) {
    forall w, n :: w in ws && n in needs ==> Avail(stock, w.id, n.productId) == 0
  }

  /** A greedy selection, or all warehouses when none can help. */
  ghost predicate GreedyChoice(chosen: seq<Warehouse>, ws: seq<Warehouse>, needs: seq<Need>, stock: Stock) {
    Reorders(chosen, ws, needs, stock) || (NothingInStock(ws, needs, stock) && multiset(chosen) == multiset(ws))
  }

  function AllOf(): Line -> int { (l: Line) => l.requestedQty }

  /** All units that the lines want. */
  function TotalRequested(lines: seq<Line>): int { SumInt(lines, AllOf()) }

  /** If m warehouses can cover the lines, the T chosen ones satisfy m^(T-1) <= D * (m-1)^(T-1). */
  ghost predicate FewChosen(chosen: seq<Warehouse>, ws: seq<Warehouse>, lines: seq<Line>, stock: Stock) {
    forall ids :: CoveringIds(ws, ids, lines, stock) && chosen != [] ==>
      Pow(|ids|, |chosen| - 1) <= TotalRequested(lines) * Pow(|ids| - 1, |chosen| - 1)
  }

  ghost predicate GreedyPlan(chosen: seq<Warehouse>, ws: seq<Warehouse>, lines: seq<Line>, stock: Stock) {
    && FewChosen(chosen, ws, lines, stock)
    && exists needs :: Tallies(needs, lines) && GreedyChoice(chosen, ws, needs, stock)
  }

  // --- the demand table adds up to the lines ---

  /** The quantities of lines for one of these products. */
  function WantedIn(pids: set<int>): Line -> int { (l: Line) => if l.productId in pids then l.requestedQty else 0 }

  lemma {:induction false} OneMoreProduct(lines: seq<Line>, pids: set<int>, pid: int)
    requires pid !in pids
    ensures SumInt(lines, WantedIn(pids + {pid})) == SumInt(lines, WantedIn(pids)) + Demand(lines, pid)
  {
    if lines != [] {
      OneMoreProduct(lines[1..], pids, pid);
    }
  }

  function Products(needs: seq<Need>): set<int> { set n <- needs :: n.productId }

  lemma {:induction false} NeedsTotal(needs: seq<Need>, lines: seq<Line>)
    requires forall i, j :: 0 <= i < j < |needs| ==> needs[i].productId != needs[j].productId
    requires forall i :: 0 <= i < |needs| ==> needs[i].qty == Demand(lines, needs[i].productId)
    ensures SumInt(needs, QtyOf()) == SumInt(lines, WantedIn(Products(needs)))
  {
    if needs == [] {
      ZeroSumInt(lines, WantedIn(Products(needs)));
    } else {
      NeedsTotal(needs[1..], lines);
      assert needs == [needs[0]] + needs[1..];
      assert Products(needs) == Products(needs[1..]) + {needs[0].productId};
      assert needs[0].productId !in Products(needs[1..]);
      OneMoreProduct(lines, Products(needs[1..]), needs[0].productId);
    }
  }

  lemma TallyTotal(needs: seq<Need>, lines: seq<Line>)
    requires Tallies(needs, lines)
    ensures SumInt(needs, QtyOf()) == TotalRequested(lines)
  {
    NeedsTotal(needs, lines);
    forall l | l in lines ensures WantedIn(Products(needs))(l) == l.requestedQty {
      var i :| 0 <= i < |needs| && needs[i].productId == l.productId;
      assert needs[i] in needs;
    }
    SumIntSame(lines, WantedIn(Products(needs)), AllOf());
  }

  lemma {:induction false} NothingCovered(needs: seq<Need>, stock: Stock)
    requires forall n :: n in needs ==> n.qty >= 0
    ensures Outstanding(needs, [], stock) == SumInt(needs, QtyOf())
  {
    if needs != [] {
      NothingCovered(needs[1..], stock);
      assert Supply([], stock, needs[0].productId) == 0;
    }
  }

  // --- the bound ---

  /** Something is wanted, so a covering set is not empty, and covers each entry of the demand table. */
  lemma CoversTable(ws: seq<Warehouse>, ids: set<int>, needs: seq<Need>, lines: seq<Line>, stock: Stock)
    requires Tallies(needs, lines) && lines != [] && CoveringIds(ws, ids, lines, stock)
    ensures needs != [] && ids != {} && CoversNeeds(ws, ids, needs, stock)
  {
    assert lines[0] in lines;
    if ids == {} {
      ZeroSumInt(ws, AvailWithin(stock, needs[0].productId, ids));
    }
  }

  lemma {:induction false} OutstandingNonNegative(needs: seq<Need>, ws: seq<Warehouse>, stock: Stock)
    ensures Outstanding(needs, ws, stock) >= 0
  {
    SumIntNonNegative(needs, UncoveredOf(ws, stock));
  }

  lemma ScaleUp(r: int, p: int)
    requires r >= 1 && p >= 0
    ensures p <= r * p
  {
  }

  lemma SelectionIsFew(selected: seq<Warehouse>, ws: seq<Warehouse>, ids: set<int>, needs: seq<Need>, stock: Stock)
    requires Progress(needs, ws, selected, stock) && EachHelped(needs, selected, stock) && selected != []
    requires ids != {} && CoversNeeds(ws, ids, needs, stock)
    ensures Pow(|ids|, |selected| - 1) <= Outstanding(needs, [], stock) * Pow(|ids| - 1, |selected| - 1)
  {
    var t := |selected| - 1;
    OutstandingNonNegative(needs, selected[..t + 1], stock);
    assert After(needs, selected, stock, t + 1) < After(needs, selected, stock, t);
    GreedyBound(needs, ws, selected, stock, ids, t);
    PowNonNegative(|ids|, t);
    var (r, p) := (After(needs, selected, stock, t), Pow(|ids|, t));
    assert r >= 1;
    ScaleUp(r, p);
  }

  lemma GreedyIsFew(chosen: seq<Warehouse>, ws: seq<Warehouse>, needs: seq<Need>, lines: seq<Line>, stock: Stock)
    requires Tallies(needs, lines) && lines != [] && GreedyChoice(chosen, ws, needs, stock)
    ensures FewChosen(chosen, ws, lines, stock)
  {
    hide Progress, EachHelped, PicksBest, CoversNeeds, SumInt, Outstanding;
    forall ids | CoveringIds(ws, ids, lines, stock) && chosen != []
      ensures Pow(|ids|, |chosen| - 1) <= TotalRequested(lines) * Pow(|ids| - 1, |chosen| - 1)
    {
      CoversTable(ws, ids, needs, lines, stock);
      if Reorders(chosen, ws, needs, stock) {
        var selected :| Progress(needs, ws, selected, stock) && EachHelped(needs, selected, stock)
                        && multiset(selected) == multiset(chosen);
        assert |selected| == |multiset(selected)| == |multiset(chosen)| == |chosen|;
        SelectionIsFew(selected, ws, ids, needs, stock);
        NothingCovered(needs, stock);
        TallyTotal(needs, lines);
      } else {
        EmptyStockCoversNothing(ws, ids, needs, stock);
      }
    }
  }

  lemma EmptyStockCoversNothing(ws: seq<Warehouse>, ids: set<int>, needs: seq<Need>, stock: Stock)
    requires needs != [] && needs[0].qty > 0 && NothingInStock(ws, needs, stock)
    ensures !CoversNeeds(ws, ids, needs, stock)
  {
    assert needs[0] in needs;
    ZeroSumInt(ws, AvailWithin(stock, needs[0].productId, ids));
  }

  /** The order of the warehouses does not matter to a greedy choice. */
  lemma ChoiceReordered(chosen: seq<Warehouse>, chosen': seq<Warehouse>, ws: seq<Warehouse>, ws': seq<Warehouse>,
                        needs: seq<Need>, stock: Stock)
    requires GreedyChoice(chosen, ws, needs, stock)
    requires multiset(chosen) == multiset(chosen') && multiset(ws) == multiset(ws')
    ensures GreedyChoice(chosen', ws', needs, stock)
  {
    if Reorders(chosen, ws, needs, stock) {
      var selected :| Progress(needs, ws, selected, stock) && EachHelped(needs, selected, stock)
                      && PicksBest(needs, ws, selected, stock) && multiset(selected) == multiset(chosen);
      forall w | w in ws' ensures w in ws {
        assert w in multiset(ws');
      }
      ProgressReordered(selected, ws, ws', needs, stock);
    } else {
      forall w | w in ws' ensures w in ws {
        assert w in multiset(ws');
      }
    }
  }

  lemma ProgressReordered(selected: seq<Warehouse>, ws: seq<Warehouse>, ws': seq<Warehouse>, needs: seq<Need>, stock: Stock)
    requires Progress(needs, ws, selected, stock) && multiset(ws) == multiset(ws')
    ensures Progress(needs, ws', selected, stock)
  {
    forall ids | CoversNeeds(ws', ids, needs, stock) ensures CoversNeeds(ws, ids, needs, stock) {
      forall n | n in needs ensures SupplyWithin(ws, ids, stock, n.productId) >= n.qty {
        SumIntPermutation(ws, ws', AvailWithin(stock, n.productId, ids));
      }
    }
    hide CoversNeeds, RoundRemoves;
  }
}
