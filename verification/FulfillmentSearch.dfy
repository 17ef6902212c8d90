/** The exhaustive search for the fewest, then cheapest, covering warehouses. */
module FulfillmentSearch {
  import opened Prelude
  import opened Sorting
  import opened FulfillmentModel

  function PrependAll(w: Warehouse, ss: seq<seq<Warehouse>>): (r: seq<seq<Warehouse>>)
    ensures |r| == |ss|
    ensures forall i :: 0 <= i < |ss| ==> r[i] == [w] + ss[i]
  {
    if ss == [] then [] else [[w] + ss[0]] + PrependAll(w, ss[1..])
  }

  /** itertools.combinations: the k-element subsequences in lexicographic order of position. */
  function Combinations(ws: seq<Warehouse>, k: nat): seq<seq<Warehouse>> {
    if k == 0 then [[]]
    else if ws == [] then []
    else PrependAll(ws[0], Combinations(ws[1..], k - 1)) + Combinations(ws[1..], k)
  }

  /** The subset order: total shipping cost, then total priority. */
  predicate SubsetLe(a: seq<Warehouse>, b: seq<Warehouse>) {
    || TotalCost(a) < TotalCost(b)
    || (TotalCost(a) == TotalCost(b) && TotalPriority(a) <= TotalPriority(b))
  }

  /** A combination is empty, or skips the first warehouse, or puts it before a smaller combination. */
  lemma CombinationCases(ws: seq<Warehouse>, k: nat, s: seq<Warehouse>)
    requires s in Combinations(ws, k)
    ensures k == 0 ==> s == []
    ensures k > 0 ==> ws != []
    ensures k > 0 ==> || s in Combinations(ws[1..], k)
                      || (s != [] && s[0] == ws[0] && s == [s[0]] + s[1..] && s[1..] in Combinations(ws[1..], k - 1))
  {
    if k > 0 && s !in Combinations(ws[1..], k) {
      var tails := Combinations(ws[1..], k - 1);
      var i :| 0 <= i < |tails| && s == [ws[0]] + tails[i];
      assert s[1..] == tails[i];
    }
  }

  lemma {:induction false} CombinationMembers(ws: seq<Warehouse>, k: nat, s: seq<Warehouse>)
    requires s in Combinations(ws, k)
    ensures |s| == k && forall w :: w in s ==> w in ws
  {
    hide Combinations;
    CombinationCases(ws, k, s);
    if k > 0 {
      if s in Combinations(ws[1..], k) {
        CombinationMembers(ws[1..], k, s);
      } else {
        CombinationMembers(ws[1..], k - 1, s[1..]);
      }
    }
  }

  lemma {:induction false} CombinationDistinct(ws: seq<Warehouse>, k: nat, s: seq<Warehouse>)
    requires DistinctIds(ws) && s in Combinations(ws, k)
    ensures DistinctIds(s)
  {
    hide Combinations;
    CombinationCases(ws, k, s);
    if k > 0 {
      FirstIdIsNew(ws);
      if s in Combinations(ws[1..], k) {
        CombinationDistinct(ws[1..], k, s);
      } else {
        CombinationDistinct(ws[1..], k - 1, s[1..]);
        CombinationMembers(ws[1..], k - 1, s[1..]);
        forall j | 0 < j < |s| ensures s[0].id != s[j].id {
          assert s[j] in s[1..];
        }
      }
    }
  }

  /** Every combination names k different warehouses of ws. */
  lemma CombinationShape(ws: seq<Warehouse>, k: nat, s: seq<Warehouse>)
    requires DistinctIds(ws) && s in Combinations(ws, k)
    ensures |s| == k == |Ids(s)| && Ids(s) <= Ids(ws)
    ensures DistinctIds(s) && forall w :: w in s ==> w in ws
  {
    CombinationMembers(ws, k, s);
    CombinationDistinct(ws, k, s);
    DistinctIdsCount(s);
  }

  /** A combination stocks what ws holds at its ids, and costs what shipping from them costs. */
  lemma CombinationTotals(ws: seq<Warehouse>, k: nat, s: seq<Warehouse>, stock: Stock)
    requires DistinctIds(ws) && s in Combinations(ws, k)
    ensures forall pid :: Supply(s, stock, pid) == SupplyWithin(ws, Ids(s), stock, pid)
    ensures TotalCost(s) == ShippingCost(ws, Ids(s)) && TotalPriority(s) == PrioritySum(ws, Ids(s))
  {
    CombinationShape(ws, k, s);
    SelectionTotals(ws, s, stock);
  }

  function HasIdIn(ids: set<int>): Warehouse -> bool { (w: Warehouse) => w.id in ids }

  /** Every selection by a condition is listed as a combination of its size. */
  lemma {:induction false} SelectionIsCombination(ws: seq<Warehouse>, p: Warehouse -> bool)
    ensures Filter(ws, p) in Combinations(ws, |Filter(ws, p)|)
  {
    if ws != [] {
      var t := Filter(ws[1..], p);
      SelectionIsCombination(ws[1..], p);
      if p(ws[0]) {
        var tails := Combinations(ws[1..], |t|);
        var i :| 0 <= i < |tails| && tails[i] == t;
        assert PrependAll(ws[0], tails)[i] == [ws[0]] + t;
      }
    }
  }

  /** Conversely every set of ids from ws is the ids of some combination of its size. */
  lemma SubsetIsCombination(ws: seq<Warehouse>, ids: set<int>) returns (s: seq<Warehouse>)
    requires DistinctIds(ws) && ids <= Ids(ws)
    ensures s in Combinations(ws, |ids|) && Ids(s) == ids
  {
    s := Filter(ws, HasIdIn(ids));
    SelectionIsCombination(ws, HasIdIn(ids));
    FilterKeepsDistinct(ws, HasIdIn(ids));
    DistinctIdsCount(s);
    assert Ids(s) == ids;
  }

  lemma SubsetLeIsTotal()
    ensures TotalPreorder(SubsetLe)
  {
  }

  /** Whether the warehouses meet every entry of the demand table. */
  method MeetsNeeds(ws: seq<Warehouse>, needs: seq<Need>, stock: Stock) returns (ok: bool)
    ensures ok <==> forall i :: 0 <= i < |needs| ==> Supply(ws, stock, needs[i].productId) >= needs[i].qty
  {
    for i := 0 to |needs|
      invariant forall k :: 0 <= k < i ==> Supply(ws, stock, needs[k].productId) >= needs[k].qty
    {
      if Supply(ws, stock, needs[i].productId) < needs[i].qty {
        return false;
      }
    }
    return true;
  }

  /** No k warehouses of ws can cover the lines. */
  ghost predicate NoCoverOfSize(ws: seq<Warehouse>, k: nat, lines: seq<Line>, stock: Stock) {
    forall ids :: CoveringIds(ws, ids, lines, stock) ==> |ids| != k
  }

  /** The k-subsets in ascending subset order. */
  method RankedCombinations(ws: seq<Warehouse>, k: nat) returns (subsets: seq<seq<Warehouse>>)
    ensures Sorted(subsets, SubsetLe)
    ensures forall s :: s in Combinations(ws, k) <==> s in subsets
  {
    subsets := Sort(Combinations(ws, k), SubsetLe);
    SubsetLeIsTotal();
    SortSorted(Combinations(ws, k), SubsetLe);
    SameElements(Combinations(ws, k), subsets);
  }

  /** found covers the lines, and no covering choice of as many warehouses is cheaper, or as cheap and preferred by
      priority. */
  ghost predicate CheapestCover(ws: seq<Warehouse>, found: seq<Warehouse>, lines: seq<Line>, stock: Stock) {
    && DistinctIds(found) && |Ids(found)| == |found|
    && (forall w :: w in found ==> w in ws)
    && CoveringIds(ws, Ids(found), lines, stock)
    && CanCover(found, lines, stock)
    && TotalCost(found) == ShippingCost(ws, Ids(found)) && TotalPriority(found) == PrioritySum(ws, Ids(found))
    && forall ids :: CoveringIds(ws, ids, lines, stock) && |ids| == |found| ==>
         LeadsOrTies(TotalCost(found), TotalPriority(found), ShippingCost(ws, ids), PrioritySum(ws, ids))
  }

  /** The first covering subset of size k in subset order: cheapest among the covering ones. */
  method CheapestCoverOfSize(ws: seq<Warehouse>, k: nat, needs: seq<Need>, ghost lines: seq<Line>, stock: Stock)
    returns (found: Option<seq<Warehouse>>)
    requires DistinctIds(ws) && Tallies(needs, lines)
    ensures found.None? ==> NoCoverOfSize(ws, k, lines, stock)
    ensures found.Some? ==> |found.value| == k && CheapestCover(ws, found.value, lines, stock)
  {
    var subsets := RankedCombinations(ws, k);
    for i := 0 to |subsets|
      invariant forall j :: 0 <= j < i ==> !CanCover(subsets[j], lines, stock)
    {
      var ok := MeetsNeeds(subsets[i], needs, stock);
      CoverByTally(subsets[i], needs, lines, stock);
      if ok {
        FirstCoverIsCheapest(ws, k, subsets, i, lines, stock);
        return Some(subsets[i]);
      }
    }
    NoneCovers(ws, k, subsets, lines, stock);
    return None;
  }

  lemma FirstCoverIsCheapest(ws: seq<Warehouse>, k: nat, subsets: seq<seq<Warehouse>>, i: nat,
                             lines: seq<Line>, stock: Stock)
    requires DistinctIds(ws) && Sorted(subsets, SubsetLe) && i < |subsets|
    requires forall s :: s in Combinations(ws, k) <==> s in subsets
    requires CanCover(subsets[i], lines, stock)
    requires forall j :: 0 <= j < i ==> !CanCover(subsets[j], lines, stock)
    ensures |subsets[i]| == k && CheapestCover(ws, subsets[i], lines, stock)
  {
    var s := subsets[i];
    CombinationShape(ws, k, s);
    CombinationTotals(ws, k, s, stock);
    forall ids | CoveringIds(ws, ids, lines, stock) && |ids| == k
      ensures LeadsOrTies(TotalCost(s), TotalPriority(s), ShippingCost(ws, ids), PrioritySum(ws, ids))
    {
      var j := CoveringPosition(ws, k, subsets, ids, lines, stock);
      assert j == i || SubsetLe(s, subsets[j]);
    }
  }

  lemma NoneCovers(ws: seq<Warehouse>, k: nat, subsets: seq<seq<Warehouse>>, lines: seq<Line>, stock: Stock)
    requires DistinctIds(ws)
    requires forall s :: s in Combinations(ws, k) <==> s in subsets
    requires forall j :: 0 <= j < |subsets| ==> !CanCover(subsets[j], lines, stock)
    ensures NoCoverOfSize(ws, k, lines, stock)
  {
    forall ids | CoveringIds(ws, ids, lines, stock) ensures |ids| != k {
      if |ids| == k {
        var j := CoveringPosition(ws, k, subsets, ids, lines, stock);
        assert false;
      }
    }
  }

  /** A covering set of ids sits somewhere in the list of subsets, and that subset covers. */
  lemma CoveringPosition(ws: seq<Warehouse>, k: nat, subsets: seq<seq<Warehouse>>, ids: set<int>,
                         lines: seq<Line>, stock: Stock) returns (j: nat)
    requires DistinctIds(ws) && |ids| == k && CoveringIds(ws, ids, lines, stock)
    requires forall s :: s in Combinations(ws, k) <==> s in subsets
    ensures j < |subsets| && CanCover(subsets[j], lines, stock)
    ensures TotalCost(subsets[j]) == ShippingCost(ws, ids) && TotalPriority(subsets[j]) == PrioritySum(ws, ids)
  {
    var t := SubsetIsCombination(ws, ids);
    CombinationTotals(ws, k, t, stock);
    j :| 0 <= j < |subsets| && subsets[j] == t;
  }

  /** Sizes 2, 3, ... in turn: the first size that covers, with its cheapest covering subset. */
  method FewestCheapest(ws: seq<Warehouse>, needs: seq<Need>, ghost lines: seq<Line>, stock: Stock)
    returns (found: Option<seq<Warehouse>>)
    requires DistinctIds(ws) && Tallies(needs, lines)
    ensures found.None? ==> forall k :: 2 <= k <= |ws| ==> NoCoverOfSize(ws, k, lines, stock)
    ensures found.Some? ==>
              && 2 <= |found.value| <= |ws| && CheapestCover(ws, found.value, lines, stock)
              && forall k :: 2 <= k < |found.value| ==> NoCoverOfSize(ws, k, lines, stock)
  {
    var k := 2;
    while k <= |ws|
      invariant 2 <= k
      invariant forall m :: 2 <= m < k ==> NoCoverOfSize(ws, m, lines, stock)
    {
      found := CheapestCoverOfSize(ws, k, needs, lines, stock);
      if found.Some? {
        return;
      }
      k := k + 1;
    }
    return None;
  }
}
