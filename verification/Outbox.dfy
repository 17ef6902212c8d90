/** The transactional outbox: queued gateway calls, retried in order, at most five attempts each. */
module Outbox {
  import opened Prelude
  import opened Sums

  datatype Status = Pending | Processed | Failed

  /** What a call to the gateway comes back with; an unknown method counts as any other failure. */
  datatype Outcome = Success | CapabilityMissing | OtherFailure

  datatype Record = Record(status: Status, attempts: nat)

  /** A call that reached the gateway, for the record at that position in the table. */
  datatype Call = Call(record: nat, outcome: Outcome)

  /** The outcome of the given attempt on the given record. */
  type Gateway = (nat, nat) -> Outcome

  /** The table in creation order, and the calls made so far. */
  datatype Table = Table(records: seq<Record>, calls: seq<Call>)

  const MAX_ATTEMPTS: nat := 5

  predicate Eligible(r: Record) { !r.status.Processed? && r.attempts < MAX_ATTEMPTS }

  function Attempted(r: Record, o: Outcome): Record {
    Record(match o
           case Success => Processed
           case CapabilityMissing => Failed
           case OtherFailure => if r.attempts + 1 >= MAX_ATTEMPTS then Failed else Pending,
           r.attempts + 1)
  }

  /** The positions of the first limit eligible records from position i on. */
  function Selected(records: seq<Record>, i: nat, limit: nat): seq<nat>
    decreases |records| - i
  {
    if i >= |records| || limit == 0 then []
    else if Eligible(records[i]) then [i] + Selected(records, i + 1, limit - 1)
    else Selected(records, i + 1, limit)
  }

  function Process(t: Table, i: nat, gw: Gateway): Table {
    if i >= |t.records| then t
    else
      var o := gw(i, t.records[i].attempts + 1);
      Table(t.records[i := Attempted(t.records[i], o)], t.calls + [Call(i, o)])
  }

  function ProcessAll(t: Table, picks: seq<nat>, gw: Gateway): Table
    decreases |picks|
  {
    if picks == [] then t else Process(ProcessAll(t, picks[..|picks| - 1], gw), picks[|picks| - 1], gw)
  }

  function Drain(t: Table, gw: Gateway, limit: nat): Table { ProcessAll(t, Selected(t.records, 0, limit), gw) }

  class OutboxTable {
    var records: seq<Record>
    ghost var calls: seq<Call>

    ghost function View(): Table
      reads this
    {
      Table(records, calls)
    }

    constructor ()
      ensures View() == Table([], [])
    {
      records, calls := [], [];
    }

    method QueueMutation()
      modifies this
      ensures View() == Table(old(records) + [Record(Pending, 0)], old(calls))
    {
      records := records + [Record(Pending, 0)];
    }

    /** The query: pending or failed records with attempts left, oldest first, up to the limit. */
    method EligibleRecords(limit: nat) returns (found: seq<nat>)
      ensures found == Selected(records, 0, limit)
    {
      found := [];
      var i := 0;
      while i < |records| && |found| < limit
        invariant 0 <= i <= |records| && |found| <= limit
        invariant Selected(records, 0, limit) == found + Selected(records, i, limit - |found|)
      {
        if Eligible(records[i]) {
          found := found + [i];
        }
        i := i + 1;
      }
    }

    method DrainOutbox(gw: Gateway, limit: nat) returns (processed: nat)
      modifies this
      ensures View() == Drain(old(View()), gw, limit)
      ensures processed == SuccessCount(calls) - SuccessCount(old(calls))
    {
      hide SumInt, Selected;
      var found := EligibleRecords(limit);
      SelectedInRange(records, 0, limit);
      processed := 0;
      for k := 0 to |found|
        invariant View() == ProcessAll(old(View()), found[..k], gw)
        invariant |records| == |old(records)|
        invariant processed == SuccessCount(calls) - SuccessCount(old(calls))
      {
        assert found[..k + 1][..k] == found[..k];
        var i := found[k];
        assert i in found;
        var attempts := records[i].attempts + 1;
        var outcome := gw(i, attempts);
        var status := records[i].status;
        match outcome {
          case Success =>
            status := Processed;
            processed := processed + 1;
          case CapabilityMissing =>
            status := Failed;
          case OtherFailure =>
            status := if attempts >= MAX_ATTEMPTS then Failed else Pending;
        }
        records := records[i := Record(status, attempts)];
        SumIntAppend(calls, Call(i, outcome), SuccessOf());
        calls := calls + [Call(i, outcome)];
      }
      assert found[..|found|] == found;
    }
  }

  // --- what the table keeps ---

  function SuccessOf(): Call -> int { (c: Call) => if c.outcome.Success? then 1 else 0 }

  function SuccessCount(calls: seq<Call>): int { SumInt(calls, SuccessOf()) }

  function CallOn(i: nat): Call -> int { (c: Call) => if c.record == i then 1 else 0 }

  function SuccessOn(i: nat): Call -> int { (c: Call) => if c.record == i && c.outcome.Success? then 1 else 0 }

  /** At most five attempts, each of which is a call made; a record is processed exactly when one call on it succeeded,
      and once its attempts are used up it is processed or failed. */
  ghost predicate Orderly(t: Table) {
    && (forall c :: c in t.calls ==> c.record < |t.records|)
    && forall i :: 0 <= i < |t.records| ==>
      && t.records[i].attempts <= MAX_ATTEMPTS
      && SumInt(t.calls, CallOn(i)) == t.records[i].attempts
      && SumInt(t.calls, SuccessOn(i)) == (if t.records[i].status.Processed? then 1 else 0)
      && (t.records[i].status.Pending? ==> t.records[i].attempts < MAX_ATTEMPTS)
  }

  /** A record with no attempts left to make. */
  predicate Settled(r: Record) { r.status.Processed? || (r.status.Failed? && r.attempts == MAX_ATTEMPTS) }

  lemma {:induction false} SelectedInRange(records: seq<Record>, i: nat, limit: nat)
    ensures forall k :: k in Selected(records, i, limit) ==> i <= k < |records| && Eligible(records[k])
    ensures forall a, b :: 0 <= a < b < |Selected(records, i, limit)| ==>
                             Selected(records, i, limit)[a] < Selected(records, i, limit)[b]
    decreases |records| - i
  {
    if i < |records| && limit > 0 {
      if Eligible(records[i]) {
        var rest := Selected(records, i + 1, limit - 1);
        SelectedInRange(records, i + 1, limit - 1);
        assert forall b :: 0 <= b < |rest| ==> rest[b] in rest;
      } else {
        SelectedInRange(records, i + 1, limit);
      }
    }
  }

  /** An eligible record is attempted; with it the table stays orderly. */
  lemma ProcessOrderly(t: Table, i: nat, gw: Gateway)
    requires Orderly(t) && i < |t.records| && Eligible(t.records[i])
    ensures Orderly(Process(t, i, gw))
  {
    var c := Call(i, gw(i, t.records[i].attempts + 1));
    forall k | 0 <= k < |t.records|
      ensures SumInt(t.calls + [c], CallOn(k)) == SumInt(t.calls, CallOn(k)) + CallOn(k)(c)
      ensures SumInt(t.calls + [c], SuccessOn(k)) == SumInt(t.calls, SuccessOn(k)) + SuccessOn(k)(c)
    {
      SumIntAppend(t.calls, c, CallOn(k));
      SumIntAppend(t.calls, c, SuccessOn(k));
    }
    hide SumInt;
  }

  /** Processing distinct positions touches exactly those, each as if it were alone. */
  lemma {:induction false} ProcessAllEffect(t: Table, picks: seq<nat>, gw: Gateway)
    requires Orderly(t)
    requires forall k :: k in picks ==> k < |t.records| && Eligible(t.records[k])
    requires forall a, b :: 0 <= a < b < |picks| ==> picks[a] < picks[b]
    ensures var e := ProcessAll(t, picks, gw);
            && Orderly(e) && |e.records| == |t.records|
            && forall k :: 0 <= k < |t.records| ==>
                 e.records[k] == if k in picks then Attempted(t.records[k], gw(k, t.records[k].attempts + 1)) else t.records[k]
    decreases |picks|
  {
    if picks != [] {
      var (before, last) := (picks[..|picks| - 1], picks[|picks| - 1]);
      assert picks == before + [last];
      assert forall k :: k in before ==> k in picks;
      ProcessAllEffect(t, before, gw);
      assert last in picks && last !in before;
      hide Orderly;
      ProcessOrderly(ProcessAll(t, before, gw), last, gw);
    }
  }

  /** A drain keeps the table orderly, attempts eligible records only, and leaves every other one alone. */
  lemma DrainEffect(t: Table, gw: Gateway, limit: nat)
    requires Orderly(t)
    ensures var e := Drain(t, gw, limit);
            && Orderly(e) && |e.records| == |t.records|
            && forall k :: 0 <= k < |t.records| ==>
                 || e.records[k] == t.records[k]
                 || (Eligible(t.records[k]) && e.records[k].attempts == t.records[k].attempts + 1)
  {
    SelectedInRange(t.records, 0, limit);
    ProcessAllEffect(t, Selected(t.records, 0, limit), gw);
  }

  // --- enough drains settle everything ---

  function AttemptsLeft(): Record -> int { (r: Record) => if Eligible(r) then MAX_ATTEMPTS - r.attempts else 0 }

  function Remaining(records: seq<Record>): int { SumInt(records, AttemptsLeft()) }

  lemma {:induction false} RemainingBounds(records: seq<Record>)
    ensures 0 <= Remaining(records) <= MAX_ATTEMPTS * |records|
    ensures Remaining(records) == 0 ==> forall r :: r in records ==> !Eligible(r)
  {
    if records != [] {
      RemainingBounds(records[1..]);
      assert records == [records[0]] + records[1..];
    }
  }

  /** With something eligible, the first eligible record is among the selected. */
  lemma {:induction false} SelectsSome(records: seq<Record>, i: nat, limit: nat)
    requires limit >= 1 && exists k :: i <= k < |records| && Eligible(records[k])
    ensures Selected(records, i, limit) != []
    decreases |records| - i
  {
    if !Eligible(records[i]) {
      SelectsSome(records, i + 1, limit);
    }
  }

  /** Records that only lose attempts lose them in the total. */
  lemma {:induction false} RemainingFalls(a: seq<Record>, b: seq<Record>)
    requires |a| == |b|
    requires forall k :: 0 <= k < |a| ==> AttemptsLeft()(b[k]) <= AttemptsLeft()(a[k])
    ensures Remaining(b) <= Remaining(a)
    ensures (exists k :: 0 <= k < |a| && AttemptsLeft()(b[k]) < AttemptsLeft()(a[k])) ==> Remaining(b) < Remaining(a)
  {
    if a != [] {
      assert forall k :: 0 <= k < |a[1..]| ==> a[1..][k] == a[k + 1] && b[1..][k] == b[k + 1];
      RemainingFalls(a[1..], b[1..]);
      if k :| 0 < k < |a| && AttemptsLeft()(b[k]) < AttemptsLeft()(a[k]) {
        assert AttemptsLeft()(b[1..][k - 1]) < AttemptsLeft()(a[1..][k - 1]);
      }
    }
  }

  /** A drain of at least one record uses up an attempt whenever there is one to use. */
  lemma DrainProgress(t: Table, gw: Gateway, limit: nat)
    requires Orderly(t) && limit >= 1
    ensures Remaining(Drain(t, gw, limit).records) <= Max(0, Remaining(t.records) - 1)
  {
    var e := Drain(t, gw, limit);
    DrainEffect(t, gw, limit);
    RemainingBounds(t.records);
    assert forall k :: 0 <= k < |t.records| ==> AttemptsLeft()(e.records[k]) <= AttemptsLeft()(t.records[k]);
    RemainingFalls(t.records, e.records);
    if Remaining(t.records) > 0 {
      if forall k :: 0 <= k < |t.records| ==> !Eligible(t.records[k]) {
        NothingRemains(t.records);
      }
      SelectsSome(t.records, 0, limit);
      var picks := Selected(t.records, 0, limit);
      SelectedInRange(t.records, 0, limit);
      ProcessAllEffect(t, picks, gw);
      assert picks[0] in picks;
      assert AttemptsLeft()(e.records[picks[0]]) < AttemptsLeft()(t.records[picks[0]]);
    }
  }

  lemma {:induction false} NothingRemains(records: seq<Record>)
    requires forall k :: 0 <= k < |records| ==> !Eligible(records[k])
    ensures Remaining(records) == 0
  {
    ZeroSumInt(records, AttemptsLeft());
  }

  /** Queueing keeps the table orderly: no call was made yet for the record that is added. */
  lemma QueueOrderly(t: Table)
    requires Orderly(t)
    ensures Orderly(Table(t.records + [Record(Pending, 0)], t.calls))
  {
    ZeroSumInt(t.calls, CallOn(|t.records|));
    ZeroSumInt(t.calls, SuccessOn(|t.records|));
    hide SumInt;
  }

  // --- runs ---

  /** What happens to the table: a record is queued, or a drain runs against some gateway with some limit. */
  datatype Event = Queued | Drained(gw: Gateway, limit: nat)

  function Step(t: Table, e: Event): Table {
    match e
    case Queued => Table(t.records + [Record(Pending, 0)], t.calls)
    case Drained(gw, limit) => Drain(t, gw, limit)
  }

  function Run(t: Table, events: seq<Event>): Table
    decreases |events|
  {
    if events == [] then t else Step(Run(t, events[..|events| - 1]), events[|events| - 1])
  }

  lemma {:induction false} RunOrderly(t: Table, events: seq<Event>)
    requires Orderly(t)
    ensures Orderly(Run(t, events)) && |t.records| <= |Run(t, events).records|
    decreases |events|
  {
    if events != [] {
      var (before, e) := (Run(t, events[..|events| - 1]), events[|events| - 1]);
      RunOrderly(t, events[..|events| - 1]);
      if e.Drained? {
        DrainEffect(before, e.gw, e.limit);
      } else {
        QueueOrderly(before);
      }
    }
  }

  /** Over any run from an empty table, whatever the gateways do: each attempt of a record is one call, there are at
      most five, at most one of them succeeds, and one did exactly when the record is processed. */
  lemma SucceedsAtMostOnce(events: seq<Event>, i: nat)
    requires i < |Run(Table([], []), events).records|
    ensures var t := Run(Table([], []), events);
            && SumInt(t.calls, CallOn(i)) == t.records[i].attempts <= MAX_ATTEMPTS
            && SumInt(t.calls, SuccessOn(i)) <= 1
            && (SumInt(t.calls, SuccessOn(i)) == 1 <==> t.records[i].status.Processed?)
  {
    RunOrderly(Table([], []), events);
  }

  /** A settled record is never touched again. */
  lemma {:induction false} SettledStays(t: Table, events: seq<Event>, i: nat)
    requires Orderly(t) && i < |t.records| && Settled(t.records[i])
    ensures i < |Run(t, events).records| && Run(t, events).records[i] == t.records[i]
    ensures SumInt(Run(t, events).calls, CallOn(i)) == SumInt(t.calls, CallOn(i))
    decreases |events|
  {
    RunOrderly(t, events);
    if events != [] {
      var (before, e) := (events[..|events| - 1], events[|events| - 1]);
      SettledStays(t, before, i);
      RunOrderly(t, before);
      if e.Drained? {
        DrainEffect(Run(t, before), e.gw, e.limit);
      }
    }
  }

  lemma {:induction false} DrainsProgress(t: Table, events: seq<Event>)
    requires Orderly(t) && forall e :: e in events ==> e.Drained? && e.limit >= 1
    ensures Orderly(Run(t, events)) && |Run(t, events).records| == |t.records|
    ensures Remaining(Run(t, events).records) <= Max(0, Remaining(t.records) - |events|)
    decreases |events|
  {
    if events != [] {
      var (before, e) := (events[..|events| - 1], events[|events| - 1]);
      DrainsProgress(t, before);
      DrainEffect(Run(t, before), e.gw, e.limit);
      DrainProgress(Run(t, before), e.gw, e.limit);
    } else {
      RemainingBounds(t.records);
    }
  }

  /** Whatever the gateways do, five drains per record settle every record: it is processed, or failed with exactly
      five attempts. */
  lemma FiveDrainsEachSettle(t: Table, events: seq<Event>)
    requires Orderly(t) && |events| >= MAX_ATTEMPTS * |t.records|
    requires forall e :: e in events ==> e.Drained? && e.limit >= 1
    ensures forall r :: r in Run(t, events).records ==> Settled(r)
  {
    DrainsProgress(t, events);
    RemainingBounds(t.records);
    RemainingBounds(Run(t, events).records);
  }
}
