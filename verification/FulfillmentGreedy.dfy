/** The greedy cover for many warehouses, and how fast it closes in on the demand. */
module FulfillmentGreedy {
  import opened Prelude
  import opened Sums
  import opened FulfillmentModel

  /** What w would add for one entry of the remaining demand. */
  function GainOn(w: Warehouse, stock: Stock): Need -> int {
    (n: Need) => Min(Avail(stock, w.id, n.productId), n.qty)
  }

  function Gain(w: Warehouse, remaining: seq<Need>, stock: Stock): int { SumInt(remaining, GainOn(w, stock)) }

  function QtyOf(): Need -> int { (n: Need) => n.qty }

  /** What the warehouses leave uncovered of one entry of the demand. */
  function UncoveredOf(ws: seq<Warehouse>, stock: Stock): Need -> int {
    (n: Need) => Max(0, n.qty - Supply(ws, stock, n.productId))
  }

  /** Total units of demand the warehouses leave uncovered. */
  function Outstanding(needs: seq<Need>, ws: seq<Warehouse>, stock: Stock): int {
    SumInt(needs, UncoveredOf(ws, stock))
  }

  /** remaining is needs after drawing on the selected warehouses. */
  ghost predicate RemainingAfter(remaining: seq<Need>, needs: seq<Need>, selected: seq<Warehouse>, stock: Stock) {
    && |remaining| == |needs|
    && forall i :: 0 <= i < |needs| ==>
         remaining[i] == needs[i].(qty := UncoveredOf(selected, stock)(needs[i]))
  }

  /** Preference among pool warehouses: more gain, then cheaper, then lower priority number. */
  predicate Beats(a: Warehouse, b: Warehouse, remaining: seq<Need>, stock: Stock) {
    var (ga, gb) := (Gain(a, remaining, stock), Gain(b, remaining, stock));
    || ga > gb
    || (ga == gb && (a.costWeight < b.costWeight || (a.costWeight == b.costWeight && a.priority < b.priority)))
  }

  /** The first warehouse of the pool that none beats. */
  method BestOfPool(pool: seq<Warehouse>, remaining: seq<Need>, stock: Stock) returns (best: nat)
    requires pool != []
    ensures best < |pool|
    ensures forall i :: 0 <= i < |pool| ==> !Beats(pool[i], pool[best], remaining, stock)
    ensures forall i :: 0 <= i < best ==> Beats(pool[best], pool[i], remaining, stock)
  {
    best := 0;
    for i := 1 to |pool|
      invariant best < i
      invariant forall k :: 0 <= k < i ==> !Beats(pool[k], pool[best], remaining, stock)
      invariant forall k :: 0 <= k < best ==> Beats(pool[best], pool[k], remaining, stock)
    {
      if Beats(pool[i], pool[best], remaining, stock) {
        best := i;
      }
    }
  }

  /** Takes what w holds off every entry of the remaining demand. */
  method DrawDown(remaining0: seq<Need>, w: Warehouse, stock: Stock) returns (remaining: seq<Need>)
    ensures |remaining| == |remaining0|
    ensures forall i :: 0 <= i < |remaining| ==>
              remaining[i] == remaining0[i].(qty := remaining0[i].qty - GainOn(w, stock)(remaining0[i]))
  {
    remaining := remaining0;
    for i := 0 to |remaining0|
      invariant |remaining| == |remaining0|
      invariant forall k :: 0 <= k < i ==>
                  remaining[k] == remaining0[k].(qty := remaining0[k].qty - GainOn(w, stock)(remaining0[k]))
      invariant forall k :: i <= k < |remaining0| ==> remaining[k] == remaining0[k]
    {
      remaining := remaining[i := remaining[i].(
        qty := remaining[i].qty - Min(Avail(stock, w.id, remaining[i].productId), remaining[i].qty))];
    }
  }

  /** Whether some entry of the remaining demand is still positive. */
  method AnyLeft(remaining: seq<Need>) returns (left: bool)
    ensures left <==> exists i :: 0 <= i < |remaining| && remaining[i].qty > 0
  {
    for i := 0 to |remaining|
      invariant forall k :: 0 <= k < i ==> remaining[k].qty <= 0
    {
      if remaining[i].qty > 0 {
        return true;
      }
    }
    return false;
  }

  /** Selecting w after the others removes its gain from what is outstanding. */
  lemma SelectStep(needs: seq<Need>, selected: seq<Warehouse>, w: Warehouse, remaining0: seq<Need>,
                   remaining: seq<Need>, stock: Stock)
    requires RemainingAfter(remaining0, needs, selected, stock)
    requires |remaining| == |remaining0|
    requires forall i :: 0 <= i < |remaining| ==>
               remaining[i] == remaining0[i].(qty := remaining0[i].qty - GainOn(w, stock)(remaining0[i]))
    ensures RemainingAfter(remaining, needs, selected + [w], stock)
    ensures Outstanding(needs, selected + [w], stock)
            == Outstanding(needs, selected, stock) - Gain(w, remaining0, stock)
  {
    forall pid ensures Supply(selected + [w], stock, pid) == Supply(selected, stock, pid) + Avail(stock, w.id, pid) {
      SumIntAppend(selected, w, AvailOf(stock, pid));
    }
    OutstandingStep(needs, selected, w, remaining0, stock);
  }

  lemma {:induction false} OutstandingStep(needs: seq<Need>, selected: seq<Warehouse>, w: Warehouse,
                                           remaining: seq<Need>, stock: Stock)
    requires RemainingAfter(remaining, needs, selected, stock)
    ensures Outstanding(needs, selected + [w], stock)
            == Outstanding(needs, selected, stock) - Gain(w, remaining, stock)
  {
    if needs != [] {
      SumIntAppend(selected, w, AvailOf(stock, needs[0].productId));
      OutstandingStep(needs[1..], selected, w, remaining[1..], stock);
    }
  }

  /** The uncovered demand is the sum of the remaining quantities. */
  lemma {:induction false} RemainingTotal(needs: seq<Need>, selected: seq<Warehouse>, remaining: seq<Need>, stock: Stock)
    requires RemainingAfter(remaining, needs, selected, stock)
    ensures SumInt(remaining, QtyOf()) == Outstanding(needs, selected, stock)
  {
    if needs != [] {
      RemainingTotal(needs[1..], selected, remaining[1..], stock);
    }
  }

  // --- the progress bound ---

  /** The gain of w, counted only when w is one of ids. */
  function GainWithin(remaining: seq<Need>, stock: Stock, ids: set<int>): Warehouse -> int {
    (w: Warehouse) => if w.id in ids then Gain(w, remaining, stock) else 0
  }

  function OneWithin(ids: set<int>): Warehouse -> int { (w: Warehouse) => if w.id in ids then 1 else 0 }

  /** Gains of the chosen pool warehouses together cover any demand their stock covers. */
  lemma {:induction false} GainsCover(pool: seq<Warehouse>, ids: set<int>, remaining: seq<Need>, stock: Stock)
    requires forall n :: n in remaining ==> 0 <= n.qty <= SupplyWithin(pool, ids, stock, n.productId)
    ensures SumInt(pool, GainWithin(remaining, stock, ids)) >= SumInt(remaining, QtyOf())
  {
    if remaining == [] {
      SumIntNonNegative(pool, GainWithin([], stock, ids));
    } else {
      GainsCover(pool, ids, remaining[1..], stock);
      GainSplit(pool, ids, remaining, stock);
      MinsCover(pool, ids, remaining[0], stock);
    }
  }

  /** The gain of w on a single entry, counted only when w is one of ids. */
  function GainOnWithin(n: Need, stock: Stock, ids: set<int>): Warehouse -> int {
    (w: Warehouse) => if w.id in ids then Min(Avail(stock, w.id, n.productId), n.qty) else 0
  }

  lemma {:induction false} GainSplit(pool: seq<Warehouse>, ids: set<int>, remaining: seq<Need>, stock: Stock)
    requires remaining != []
    ensures SumInt(pool, GainWithin(remaining, stock, ids))
            == SumInt(pool, GainOnWithin(remaining[0], stock, ids)) + SumInt(pool, GainWithin(remaining[1..], stock, ids))
  {
    if pool != [] {
      GainSplit(pool[1..], ids, remaining, stock);
    }
  }

  /** Capping each stock at the demand still covers the demand, if the stocks together do. */
  lemma {:induction false} MinsCover(pool: seq<Warehouse>, ids: set<int>, n: Need, stock: Stock)
    requires 0 <= n.qty
    ensures SumInt(pool, GainOnWithin(n, stock, ids)) >= Min(n.qty, SupplyWithin(pool, ids, stock, n.productId))
    ensures SumInt(pool, GainOnWithin(n, stock, ids)) >= 0
  {
    if pool != [] {
      var rest := pool[1..];
      MinsCover(rest, ids, n, stock);
      SumIntNonNegative(rest, AvailWithin(stock, n.productId, ids));
      assert GainOnWithin(n, stock, ids)(pool[0])
          == Min(n.qty, AvailWithin(stock, n.productId, ids)(pool[0]));
      assert SupplyWithin(pool, ids, stock, n.productId)
          == AvailWithin(stock, n.productId, ids)(pool[0]) + SupplyWithin(rest, ids, stock, n.productId);
    }
  }

  /** When no pool warehouse gains more than best, m of them gain at most m times best. */
  lemma {:induction false} GainsBounded(pool: seq<Warehouse>, ids: set<int>, remaining: seq<Need>, stock: Stock, best: int)
    requires forall w :: w in pool ==> Gain(w, remaining, stock) <= best
    ensures SumInt(pool, GainWithin(remaining, stock, ids)) <= SumInt(pool, OneWithin(ids)) * best
  {
    if pool != [] {
      GainsBounded(pool[1..], ids, remaining, stock, best);
      var (g, c) := (GainWithin(remaining, stock, ids)(pool[0]), OneWithin(ids)(pool[0]));
      assert SumInt(pool, OneWithin(ids)) == c + SumInt(pool[1..], OneWithin(ids));
      assert g <= c * best;
      assert (c + SumInt(pool[1..], OneWithin(ids))) * best == c * best + SumInt(pool[1..], OneWithin(ids)) * best;
    }
  }

  /** At most |ids| different warehouses have an id in ids. */
  lemma {:induction false} CountWithin(ws: seq<Warehouse>, ids: set<int>)
    requires DistinctIds(ws)
    ensures 0 <= SumInt(ws, OneWithin(ids)) <= |ids|
  {
    if ws != [] {
      var rest := ids - {ws[0].id};
      CountWithin(ws[1..], rest);
      SumIntSame(ws[1..], OneWithin(rest), OneWithin(ids));
    }
  }

  /** The pool still holds whatever the selected warehouses leave uncovered. */
  lemma PoolHolds(ws: seq<Warehouse>, selected: seq<Warehouse>, pool: seq<Warehouse>, ids: set<int>,
                  stock: Stock, n: Need)
    requires multiset(ws) == multiset(selected) + multiset(pool)
    requires SupplyWithin(ws, ids, stock, n.productId) >= n.qty
    ensures UncoveredOf(selected, stock)(n) <= SupplyWithin(pool, ids, stock, n.productId)
  {
    var f := AvailWithin(stock, n.productId, ids);
    SumIntPermutation(ws, selected + pool, f);
    SumIntConcat(selected, pool, f);
    SumIntMonotone(selected, f, AvailOf(stock, n.productId));
    SumIntNonNegative(pool, f);
  }

  /** A round that picks the best of the pool removes at least one part in |ids| of what is outstanding. */
  lemma RoundProgress(ws: seq<Warehouse>, selected: seq<Warehouse>, pool: seq<Warehouse>, best: Warehouse,
                      needs: seq<Need>, remaining: seq<Need>, ids: set<int>, stock: Stock)
    requires DistinctIds(pool) && multiset(ws) == multiset(selected) + multiset(pool)
    requires RemainingAfter(remaining, needs, selected, stock)
    requires forall w :: w in pool ==> Gain(w, remaining, stock) <= Gain(best, remaining, stock)
    requires CoversNeeds(ws, ids, needs, stock)
    ensures |ids| * Gain(best, remaining, stock) >= Outstanding(needs, selected, stock)
  {
    forall n | n in remaining ensures 0 <= n.qty <= SupplyWithin(pool, ids, stock, n.productId) {
      var i :| 0 <= i < |remaining| && remaining[i] == n;
      assert needs[i] in needs;
      PoolHolds(ws, selected, pool, ids, stock, needs[i]);
    }
    hide SumInt;
    GainsCover(pool, ids, remaining, stock);
    RemainingTotal(needs, selected, remaining, stock);
    var g := Gain(best, remaining, stock);
    GainsBounded(pool, ids, remaining, stock, g);
    CountWithin(pool, ids);
    SumIntNonNegative(remaining, GainOn(best, stock));
    ScaleLe(SumInt(pool, OneWithin(ids)), |ids|, g);
  }

  lemma ScaleLe(a: int, b: int, g: nat)
    requires a <= b
    ensures a * g <= b * g
  {
  }

  // --- the loop ---

  /** What is outstanding after the first t selections. */
  function After(needs: seq<Need>, selected: seq<Warehouse>, stock: Stock, t: nat): int
    requires t <= |selected|
  {
    Outstanding(needs, selected[..t], stock)
  }

  /** The warehouses of ws named by ids could together cover all demand. */
  ghost predicate CoversNeeds(ws: seq<Warehouse>, ids: set<int>, needs: seq<Need>, stock: Stock) {
    forall n :: n in needs ==> SupplyWithin(ws, ids, stock, n.productId) >= n.qty
  }

  /** Selection number t removed at least one part in m of what was outstanding before it. */
  ghost predicate RoundRemoves(needs: seq<Need>, selected: seq<Warehouse>, stock: Stock, m: nat, t: nat)
    requires t < |selected|
  {
    m * (After(needs, selected, stock, t) - After(needs, selected, stock, t + 1)) >= After(needs, selected, stock, t)
  }

  /** That holds of every selection, for every set ids of warehouses that could cover all demand. */
  ghost predicate Progress(needs: seq<Need>, ws: seq<Warehouse>, selected: seq<Warehouse>, stock: Stock) {
    forall ids, t :: 0 <= t < |selected| && CoversNeeds(ws, ids, needs, stock) ==>
                       RoundRemoves(needs, selected, stock, |ids|, t)
  }

  /** Every selected warehouse strictly reduced what was outstanding. */
  ghost predicate EachHelped(needs: seq<Need>, selected: seq<Warehouse>, stock: Stock) {
    forall t :: 0 <= t < |selected| ==> After(needs, selected, stock, t + 1) < After(needs, selected, stock, t)
  }

  /** How much selecting w next would reduce what is outstanding. */
  function Relief(needs: seq<Need>, selected: seq<Warehouse>, w: Warehouse, stock: Stock): int {
    Outstanding(needs, selected, stock) - Outstanding(needs, selected + [w], stock)
  }

  /** Selecting v relieves more than w, or as much at less cost, or as much at the same cost with no higher priority number. */
  ghost predicate Preferred(needs: seq<Need>, selected: seq<Warehouse>, v: Warehouse, w: Warehouse, stock: Stock) {
    var (a, b) := (Relief(needs, selected, v, stock), Relief(needs, selected, w, stock));
    a > b || (a == b && LeadsOrTies(v.costWeight, v.priority, w.costWeight, w.priority))
  }

  /** Every selection was preferred to all that were left. */
  ghost predicate PicksBest(needs: seq<Need>, ws: seq<Warehouse>, selected: seq<Warehouse>, stock: Stock) {
    forall t, w :: 0 <= t < |selected| && w in ws && w !in selected[..t] ==>
                     Preferred(needs, selected[..t], selected[t], w, stock)
  }

  lemma PicksBestStep(ws: seq<Warehouse>, needs: seq<Need>, selected: seq<Warehouse>, pool: seq<Warehouse>,
                      best: Warehouse, remaining: seq<Need>, stock: Stock)
    requires multiset(ws) == multiset(selected) + multiset(pool) && RemainingAfter(remaining, needs, selected, stock)
    requires forall w :: w in pool ==> !Beats(w, best, remaining, stock)
    requires PicksBest(needs, ws, selected, stock)
    ensures PicksBest(needs, ws, selected + [best], stock)
  {
    var s := selected + [best];
    OutstandingStep(needs, selected, best, remaining, stock);
    forall t, w | 0 <= t < |s| && w in ws && w !in s[..t] ensures Preferred(needs, s[..t], s[t], w, stock) {
      assert s[..t] == selected[..t];
      if t == |selected| {
        assert s[..t] == selected && w in multiset(ws) && w !in multiset(selected);
        assert w in pool;
        OutstandingStep(needs, selected, w, remaining, stock);
      } else {
        assert s[t] == selected[t];
      }
    }
  }

  method GreedyCover(ws: seq<Warehouse>, needs: seq<Need>, stock: Stock) returns (selected: seq<Warehouse>)
    requires DistinctIds(ws) && forall n :: n in needs ==> n.qty >= 0
    ensures DistinctIds(selected) && forall w :: w in selected ==> w in ws
    ensures Progress(needs, ws, selected, stock)
    ensures EachHelped(needs, selected, stock) && PicksBest(needs, ws, selected, stock)
    // it stops only when all demand is covered or nothing left in the pool helps
    ensures forall w, n :: w in ws && w !in selected && n in needs && Avail(stock, w.id, n.productId) > 0 ==>
                             UncoveredOf(selected, stock)(n) == 0
  {
    hide SumInt, Progress, EachHelped, PicksBest, RemainingAfter, Outstanding;
    var remaining, pool := needs, ws;
    selected := [];
    NothingSelected(ws, needs, stock);
    var left := AnyLeft(remaining);
    while left && pool != []
      invariant multiset(ws) == multiset(selected) + multiset(pool)
      invariant RemainingAfter(remaining, needs, selected, stock)
      invariant left <==> exists i :: 0 <= i < |remaining| && remaining[i].qty > 0
      invariant Progress(needs, ws, selected, stock)
      invariant EachHelped(needs, selected, stock) && PicksBest(needs, ws, selected, stock)
      decreases |pool|
    {
      var b := BestOfPool(pool, remaining, stock);
      var best := pool[b];
      if Gain(best, remaining, stock) == 0 {
        break;
      }
      ghost var remaining0, selected0 := remaining, selected;
      remaining := DrawDown(remaining, best, stock);
      SelectStep(needs, selected, best, remaining0, remaining, stock);
      PartsAreDistinct(ws, selected, pool);
      ProgressStep(ws, needs, selected, pool, best, remaining0, stock);
      PicksBestStep(ws, needs, selected, pool, best, remaining0, stock);
      selected := selected + [best];
      MultisetWithout(pool, b);
      pool := pool[..b] + pool[b + 1..];
      left := AnyLeft(remaining);
    }
    PartsAreDistinct(ws, selected, pool);
    NothingHelps(ws, needs, selected, pool, remaining, stock);
  }

  lemma PartsAreDistinct(ws: seq<Warehouse>, selected: seq<Warehouse>, pool: seq<Warehouse>)
    requires DistinctIds(ws) && multiset(ws) == multiset(selected) + multiset(pool)
    ensures DistinctIds(selected) && DistinctIds(pool)
  {
    var s := selected + pool;
    DistinctIdsReorder(ws, s);
    assert forall i :: 0 <= i < |selected| ==> s[i] == selected[i];
    assert forall i :: 0 <= i < |pool| ==> s[|selected| + i] == pool[i];
  }

  lemma NothingSelected(ws: seq<Warehouse>, needs: seq<Need>, stock: Stock)
    requires forall n :: n in needs ==> n.qty >= 0
    ensures RemainingAfter(needs, needs, [], stock)
    ensures Progress(needs, ws, [], stock) && EachHelped(needs, [], stock) && PicksBest(needs, ws, [], stock)
  {
  }

  lemma ProgressStep(ws: seq<Warehouse>, needs: seq<Need>, selected: seq<Warehouse>, pool: seq<Warehouse>,
                     best: Warehouse, remaining: seq<Need>, stock: Stock)
    requires DistinctIds(pool) && multiset(ws) == multiset(selected) + multiset(pool)
    requires RemainingAfter(remaining, needs, selected, stock)
    requires forall w :: w in pool ==> Gain(w, remaining, stock) <= Gain(best, remaining, stock)
    requires Gain(best, remaining, stock) != 0
    requires Outstanding(needs, selected + [best], stock)
             == Outstanding(needs, selected, stock) - Gain(best, remaining, stock)
    requires Progress(needs, ws, selected, stock) && EachHelped(needs, selected, stock)
    ensures Progress(needs, ws, selected + [best], stock)
    ensures EachHelped(needs, selected + [best], stock)
  {
    SumIntNonNegative(remaining, GainOn(best, stock));
    hide SumInt, Outstanding, CoversNeeds;
    var s := selected + [best];
    assert s[..|selected|] == selected && s[..|selected| + 1] == s;
    forall t: nat | t <= |selected| ensures After(needs, s, stock, t) == After(needs, selected, stock, t) {
      assert s[..t] == selected[..t];
    }
    forall ids, t | 0 <= t < |s| && CoversNeeds(ws, ids, needs, stock)
      ensures RoundRemoves(needs, s, stock, |ids|, t)
    {
      if t == |selected| {
        RoundProgress(ws, selected, pool, best, needs, remaining, ids, stock);
      } else {
        assert RoundRemoves(needs, selected, stock, |ids|, t);
      }
    }
  }

  lemma NothingHelps(ws: seq<Warehouse>, needs: seq<Need>, selected: seq<Warehouse>, pool: seq<Warehouse>,
                     remaining: seq<Need>, stock: Stock)
    requires multiset(ws) == multiset(selected) + multiset(pool)
    requires RemainingAfter(remaining, needs, selected, stock)
    requires || (forall i :: 0 <= i < |remaining| ==> remaining[i].qty <= 0)
             || (forall w :: w in pool ==> Gain(w, remaining, stock) <= 0)
    ensures forall w, n :: w in ws && w !in selected && n in needs && Avail(stock, w.id, n.productId) > 0 ==>
                             UncoveredOf(selected, stock)(n) == 0
    ensures forall w :: w in selected ==> w in ws
  {
    forall w, n | w in ws && w !in selected && n in needs && Avail(stock, w.id, n.productId) > 0
      ensures UncoveredOf(selected, stock)(n) == 0
    {
      var i :| 0 <= i < |needs| && needs[i] == n;
      assert w in multiset(ws) && w !in multiset(selected);
      assert w in pool;
      if remaining[i].qty > 0 {
        SumIntElement(remaining, i, GainOn(w, stock));
        assert false;
      }
    }
    forall w | w in selected ensures w in ws {
      assert w in multiset(ws);
    }
  }

  /** After t rounds the outstanding demand has shrunk geometrically: R * m^t <= D * (m - 1)^t. */
  lemma {:induction false} GreedyBound(needs: seq<Need>, ws: seq<Warehouse>, selected: seq<Warehouse>, stock: Stock,
                                       ids: set<int>, t: nat)
    requires Progress(needs, ws, selected, stock) && t <= |selected|
    requires ids != {} && CoversNeeds(ws, ids, needs, stock)
    ensures After(needs, selected, stock, t) * Pow(|ids|, t) <= Outstanding(needs, [], stock) * Pow(|ids| - 1, t)
  {
    hide SumInt, Outstanding, CoversNeeds;
    if t == 0 {
      assert selected[..0] == [];
    } else {
      GreedyBound(needs, ws, selected, stock, ids, t - 1);
      assert RoundRemoves(needs, selected, stock, |ids|, t - 1);
      var m := |ids|;
      PowNonNegative(m, t - 1);
      Shrink(After(needs, selected, stock, t - 1), After(needs, selected, stock, t), Outstanding(needs, [], stock),
             m, Pow(m, t - 1), Pow(m - 1, t - 1));
    }
  }

  lemma {:induction false} PowNonNegative(base: nat, exp: nat)
    ensures Pow(base, exp) >= 0
  {
    if exp > 0 {
      PowNonNegative(base, exp - 1);
    }
  }

  lemma Shrink(r0: int, r1: int, d: int, m: int, p: int, q: int)
    requires m >= 1 && p >= 0
    requires m * (r0 - r1) >= r0 && r0 * p <= d * q
    ensures r1 * (m * p) <= d * ((m - 1) * q)
  {
    assert m * r1 <= (m - 1) * r0;
    assert (m * r1) * p <= ((m - 1) * r0) * p;
    assert (m - 1) * (r0 * p) <= (m - 1) * (d * q);
  }
}
