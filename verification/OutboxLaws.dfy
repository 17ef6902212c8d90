/** What one drain does to each record. */
module OutboxLaws {
  import opened Prelude
  import opened Outbox

  /** A record that a drain may attempt: not processed, and attempted fewer than five times. */
  predicate Open(r: Record) { (r.status.Pending? || r.status.Failed?) && r.attempts < 5 }

  /** e is r after one more attempt with this outcome: processed by a success; failed when the gateway lacks the
      capability; otherwise pending, or failed with the fifth attempt. */
  predicate AfterAttempt(r: Record, e: Record, o: Outcome) {
    && e.attempts == r.attempts + 1
    && (o.Success? ==> e.status.Processed?)
    && (o.CapabilityMissing? ==> e.status.Failed?)
    && (o.OtherFailure? ==> if r.attempts + 1 < 5 then e.status.Pending? else e.status.Failed?)
  }

  /** How many of the first n records are open. */
  function OpenCount(records: seq<Record>, n: nat): nat
    requires n <= |records|
  {
    if n == 0 then 0 else OpenCount(records, n - 1) + if Open(records[n - 1]) then 1 else 0
  }

  lemma {:induction false} SelectedMeans(records: seq<Record>, i: nat, limit: nat, done: nat)
    requires i <= |records| && done == OpenCount(records, i)
    ensures forall k :: k in Selected(records, i, limit) <==>
                          i <= k < |records| && Open(records[k]) && OpenCount(records, k) < done + limit
    decreases |records| - i
  {
    if i < |records| {
      forall k | i <= k < |records| ensures OpenCount(records, k) >= done {
        CountGrows(records, i, k);
      }
      if limit > 0 {
        if Open(records[i]) {
          SelectedMeans(records, i + 1, limit - 1, done + 1);
        } else {
          SelectedMeans(records, i + 1, limit, done);
        }
      }
    }
  }

  lemma {:induction false} CountGrows(records: seq<Record>, i: nat, k: nat)
    requires i <= k <= |records|
    ensures OpenCount(records, i) <= OpenCount(records, k)
    decreases k
  {
    if i < k {
      CountGrows(records, i, k - 1);
    }
  }

  /** A drain attempts exactly the open records with fewer than limit open ones before them, oldest first, each once; every
      other record stays as it is. */
  lemma Draining(t: Table, gw: Gateway, limit: nat)
    requires Orderly(t)
    ensures var e := Step(t, Drained(gw, limit));
            && |e.records| == |t.records|
            && forall k :: 0 <= k < |t.records| ==>
                 if Open(t.records[k]) && OpenCount(t.records, k) < limit
                 then AfterAttempt(t.records[k], e.records[k], gw(k, t.records[k].attempts + 1))
                 else e.records[k] == t.records[k]
  {
    SelectedInRange(t.records, 0, limit);
    ProcessAllEffect(t, Selected(t.records, 0, limit), gw);
    SelectedMeans(t.records, 0, limit, 0);
    hide Selected, ProcessAll, Orderly, OpenCount;
  }

  /** Queueing appends a pending record that was never attempted. */
  lemma Queueing(t: Table)
    ensures Step(t, Queued).records == t.records + [Record(Pending, 0)] && Step(t, Queued).calls == t.calls
  {
  }

  /** A missing capability marks a record failed, yet it is tried again as long as attempts are left. */
  lemma MissingIsRetried(r: Record, e: Record)
    requires Open(r) && AfterAttempt(r, e, CapabilityMissing)
    ensures e.status.Failed? && (Open(e) <==> r.attempts < 4)
  {
  }
}
