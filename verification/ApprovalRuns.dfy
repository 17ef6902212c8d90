/** What every run of governance operations keeps, from a newly synchronised deal onward. */
module ApprovalRuns {
  import opened Prelude
  import opened RiskModel
  import opened ApprovalModel

  /** The deal waits for the given stage. */
  predicate AwaitsStage(s: ApprovalState, stage: Stage) {
    match stage case SalesManagerStage => s.PendingManager? case FinanceStage => s.PendingFinance?
  }

  predicate Awaits(s: ApprovalState) { s.PendingManager? || s.PendingFinance? }

  /** Request table: a pending request is the newest row, matches the deal's state and concerns the
      current assessment; and a waiting deal has one. */
  ghost predicate OnePending(d: Deal) {
    && (forall i :: 0 <= i < |d.requests| && d.requests[i].status.Pending? ==>
          && i == |d.requests| - 1 && AwaitsStage(d.approvalState, d.requests[i].stage)
          && d.currentAssessment == Some(d.requests[i].assessment))
    && (Awaits(d.approvalState) ==> d.requests != [] && d.requests[|d.requests| - 1].status.Pending?)
  }

  /** The deal's score and level are those of its current assessment. */
  ghost predicate CurrentStands(d: Deal) {
    match d.currentAssessment
    case None => d.approvalState.NotEvaluated? && d.approvedAssessment.None? && d.requests == []
    case Some(c) => c < |d.assessments| && d.currentScore == Some(d.assessments[c].score)
                    && d.requiredLevel == d.assessments[c].level
  }

  predicate MayDecide(role: Role, stage: Stage) {
    role.Admin? || (match stage case SalesManagerStage => role.SalesManager? case FinanceStage => role.Finance?)
  }

  /** Every granted request was granted by someone entitled to, who is not the deal's owner, and the
      decision is on record. */
  ghost predicate GrantsOnRecord(d: Deal) {
    forall i :: 0 <= i < |d.requests| && d.requests[i].status.Granted? ==> GrantOnRecord(d, i)
  }

  ghost predicate GrantOnRecord(d: Deal, i: nat)
    requires i < |d.requests|
  {
    && d.requests[i].decidedBy.Some? && d.requests[i].decidedBy.value != d.owner
    && exists role :: MayDecide(role, d.requests[i].stage)
                      && Decision(i, Actor(d.requests[i].decidedBy.value, role), Approve) in d.decisions
  }

  /** Some request of this stage on this assessment was granted. */
  ghost predicate HasGrant(d: Deal, assessment: nat, stage: Stage) {
    exists i :: 0 <= i < |d.requests| && d.requests[i].status.Granted?
                && d.requests[i].assessment == assessment && d.requests[i].stage == stage
  }

  /** The assessment went through every stage that its level demands. */
  ghost predicate SignedOff(d: Deal, assessment: nat) {
    && assessment < |d.assessments|
    && HasGrant(d, assessment, SalesManagerStage)
    && (d.assessments[assessment].level.ManagerAndFinance? ==> HasGrant(d, assessment, FinanceStage))
  }

  ghost predicate WaitingMakesSense(d: Deal) {
    && (d.approvalState.PendingManager? ==> !d.requiredLevel.NoApproval?)
    && (d.approvalState.PendingFinance? ==>
          d.requiredLevel.ManagerAndFinance? && d.currentAssessment.Some?
          && HasGrant(d, d.currentAssessment.value, SalesManagerStage))
  }

  /** An approved deal's current terms never exceed the terms that were signed. */
  ghost predicate NoDrift(d: Deal) {
    && (d.approvedAssessment.Some? ==> SignedOff(d, d.approvedAssessment.value))
    && (d.approvalState.Approved? ==>
          && d.approvedAssessment.Some? && d.currentAssessment.Some? && d.currentAssessment.value < |d.assessments|
          && Covered(Lookup(d.assessments, d.approvedAssessment), d.assessments[d.currentAssessment.value]))
  }

  ghost predicate Governed(d: Deal) {
    && OnePending(d) && CurrentStands(d) && GrantsOnRecord(d) && WaitingMakesSense(d) && NoDrift(d)
    && forall i :: 0 <= i < |d.requests| ==> d.requests[i].assessment < |d.assessments|
  }

  /** Rows are only added, and a request that is no longer pending never changes again. */
  ghost predicate Extends(d: Deal, e: Deal) {
    && e.owner == d.owner && d.assessments <= e.assessments && d.decisions <= e.decisions
    && |d.requests| <= |e.requests|
    && forall i :: 0 <= i < |d.requests| ==>
         && e.requests[i].assessment == d.requests[i].assessment && e.requests[i].stage == d.requests[i].stage
         && (!d.requests[i].status.Pending? ==> e.requests[i] == d.requests[i])
  }

  lemma EvaluateExtends(d: Deal, verdict: Assessment, gw: Gateway)
    ensures Extends(d, Evaluate(d, verdict, gw))
  {
    assert d.assessments + [verdict] == Evaluate(d, verdict, gw).assessments;
  }

  lemma StepExtends(d: Deal, e: Event)
    ensures Extends(d, Step(d, e))
  {
    match e
    case Evaluated(verdict, gw) => EvaluateExtends(d, verdict, gw);
    case NegotiationAnswered(n, response, verdict, gw) =>
      hide Evaluate;
      if Guard(d, e).None? && response.Accept? {
        EvaluateExtends(d.(negotiations := d.negotiations[n := Accepted]), verdict, gw);
      }
    case _ =>
  }

  lemma ExtendsTransitive(d: Deal, e: Deal, f: Deal)
    requires Extends(d, e) && Extends(e, f)
    ensures Extends(d, f)
  {
  }

  lemma GrantsPersist(d: Deal, e: Deal, assessment: nat, stage: Stage)
    requires Extends(d, e) && HasGrant(d, assessment, stage)
    ensures HasGrant(e, assessment, stage)
  {
    var i :| 0 <= i < |d.requests| && d.requests[i].status.Granted?
             && d.requests[i].assessment == assessment && d.requests[i].stage == stage;
    assert e.requests[i] == d.requests[i];
  }

  lemma SignOffPersists(d: Deal, e: Deal, assessment: nat)
    requires Extends(d, e) && SignedOff(d, assessment)
    ensures SignedOff(e, assessment)
  {
    GrantsPersist(d, e, assessment, SalesManagerStage);
    if d.assessments[assessment].level.ManagerAndFinance? {
      GrantsPersist(d, e, assessment, FinanceStage);
    }
  }

  /** Grants stay on record when the rows they rest on stay. */
  lemma RecordsPersist(d: Deal, e: Deal)
    requires Extends(d, e) && GrantsOnRecord(d)
    requires forall i :: 0 <= i < |e.requests| && e.requests[i].status.Granted? ==>
               (i < |d.requests| && d.requests[i].status.Granted?) || GrantOnRecord(e, i)
    ensures GrantsOnRecord(e)
  {
    forall i | 0 <= i < |e.requests| && e.requests[i].status.Granted? ensures GrantOnRecord(e, i) {
      if i < |d.requests| && d.requests[i].status.Granted? {
        assert GrantOnRecord(d, i) && e.requests[i] == d.requests[i];
      }
    }
  }

  // --- each operation ---

  lemma EvaluateGoverned(d: Deal, verdict: Assessment, gw: Gateway)
    requires Governed(d)
    ensures Governed(Evaluate(d, verdict, gw)) && Extends(d, Evaluate(d, verdict, gw))
  {
    var e := Evaluate(d, verdict, gw);
    EvaluateExtends(d, verdict, gw);
    EvaluateRecords(d, verdict, gw);
    if d.approvedAssessment.Some? {
      SignOffPersists(d, e, d.approvedAssessment.value);
    }
    EvaluateKeepsOnePending(d, verdict, gw);
    hide SignedOff, GrantsOnRecord, HasGrant, OnePending;
  }

  lemma EvaluateKeepsOnePending(d: Deal, verdict: Assessment, gw: Gateway)
    requires OnePending(d)
    ensures OnePending(Evaluate(d, verdict, gw))
  {
  }

  lemma EvaluateRecords(d: Deal, verdict: Assessment, gw: Gateway)
    requires GrantsOnRecord(d)
    ensures GrantsOnRecord(Evaluate(d, verdict, gw))
  {
    EvaluateExtends(d, verdict, gw);
    RecordsPersist(d, Evaluate(d, verdict, gw));
  }

  lemma SettleRecords(d: Deal, request: nat, actor: Actor, action: Action, gw: Gateway)
    requires Governed(d) && DecideGuard(d, request, actor).None?
    ensures GrantsOnRecord(Decide(d, request, actor, action, gw))
    ensures Extends(d, Decide(d, request, actor, action, gw))
  {
    var e := Decide(d, request, actor, action, gw);
    var decision := Decision(request, actor, action);
    assert e.decisions == d.decisions + [decision];
    assert action.Approve? ==> GrantOnRecord(e, request) by {
      assert decision in e.decisions && MayDecide(actor.role, d.requests[request].stage);
      assert decision == Decision(request, Actor(actor.id, actor.role), action);
    }
    RecordsPersist(d, e);
  }

  /** Approving a request gives its assessment the grant of its stage. */
  lemma ApproveGrants(d: Deal, request: nat, actor: Actor, gw: Gateway)
    requires DecideGuard(d, request, actor).None?
    ensures HasGrant(Decide(d, request, actor, Approve, gw), d.requests[request].assessment, d.requests[request].stage)
  {
    assert Decide(d, request, actor, Approve, gw).requests[request].status.Granted?;
  }

  lemma DecideKeepsNoDrift(d: Deal, request: nat, actor: Actor, action: Action, gw: Gateway)
    requires Governed(d) && DecideGuard(d, request, actor).None?
    ensures NoDrift(Decide(d, request, actor, action, gw))
  {
    var e := Decide(d, request, actor, action, gw);
    SettleRecords(d, request, actor, action, gw);
    if d.approvedAssessment.Some? {
      SignOffPersists(d, e, d.approvedAssessment.value);
    }
    if action.Approve? {
      ApproveGrants(d, request, actor, gw);
      if d.approvalState.PendingFinance? {
        GrantsPersist(d, e, d.currentAssessment.value, SalesManagerStage);
      }
    }
    hide HasGrant, GrantsOnRecord, Extends;
  }

  lemma DecideGoverned(d: Deal, request: nat, actor: Actor, action: Action, gw: Gateway)
    requires Governed(d) && DecideGuard(d, request, actor).None?
    ensures Governed(Decide(d, request, actor, action, gw))
  {
    SettleRecords(d, request, actor, action, gw);
    DecideKeepsOnePending(d, request, actor, action, gw);
    DecideKeepsNoDrift(d, request, actor, action, gw);
    if action.Approve? {
      ApproveGrants(d, request, actor, gw);
    }
    if d.approvalState.PendingFinance? {
      GrantsPersist(d, Decide(d, request, actor, action, gw), d.currentAssessment.value, SalesManagerStage);
    }
    hide HasGrant, GrantsOnRecord, Extends, NoDrift;
  }

  lemma DecideKeepsOnePending(d: Deal, request: nat, actor: Actor, action: Action, gw: Gateway)
    requires OnePending(d) && DecideGuard(d, request, actor).None?
    ensures OnePending(Decide(d, request, actor, action, gw))
  {
  }

  /** Operations that touch neither assessments, requests nor the approval state keep everything. */
  lemma UntouchedGoverned(d: Deal, e: Deal)
    requires Governed(d)
    requires e == d.(status := e.status, customerConfirmedPending := e.customerConfirmedPending,
                     negotiations := e.negotiations, order := e.order)
    ensures Governed(e)
  {
    RecordsPersist(d, e) by {
      assert Extends(d, e);
    }
    if d.approvedAssessment.Some? {
      SignOffPersists(d, e, d.approvedAssessment.value);
    }
    if d.approvalState.PendingFinance? {
      GrantsPersist(d, e, d.currentAssessment.value, SalesManagerStage);
    }
  }

  lemma StepGoverned(d: Deal, e: Event)
    requires Governed(d)
    ensures Governed(Step(d, e))
  {
    if Guard(d, e).None? {
      match e
      case Evaluated(verdict, gw) => EvaluateGoverned(d, verdict, gw);
      case Decided(request, actor, action, gw) => DecideGoverned(d, request, actor, action, gw);
      case NegotiationAnswered(n, response, verdict, gw) =>
        if response.Accept? {
          var d1 := d.(negotiations := d.negotiations[n := Accepted]);
          UntouchedGoverned(d, d1);
          EvaluateGoverned(d1, verdict, gw);
          UntouchedGoverned(Evaluate(d1, verdict, gw), Step(d, e));
        } else {
          UntouchedGoverned(d, Step(d, e));
        }
      case _ => UntouchedGoverned(d, Step(d, e));
    }
  }

  // --- whole runs ---

  lemma NewDealGoverned(owner: int, partner: int, order: Order)
    ensures Governed(NewDeal(owner, partner, order))
  {
  }

  /** Every deal that any run can reach is governed: at most one pending request, signed-off approvals, no drift. */
  lemma {:induction false} RunGoverned(owner: int, partner: int, order: Order, events: seq<Event>)
    ensures Governed(Run(NewDeal(owner, partner, order), events))
    decreases |events|
  {
    if events == [] {
      NewDealGoverned(owner, partner, order);
    } else {
      RunGoverned(owner, partner, order, events[..|events| - 1]);
      StepGoverned(Run(NewDeal(owner, partner, order), events[..|events| - 1]), events[|events| - 1]);
    }
  }

  /** Over any stretch of a run, settled requests, decisions and assessments stay as they were. */
  lemma {:induction false} HistoryIsFinal(d: Deal, events: seq<Event>)
    ensures Extends(d, Run(d, events))
    decreases |events|
  {
    if events != [] {
      var before := Run(d, events[..|events| - 1]);
      HistoryIsFinal(d, events[..|events| - 1]);
      StepExtends(before, events[|events| - 1]);
      ExtendsTransitive(d, before, Run(d, events));
    }
  }

  /** The main result in full: whenever a reachable deal is approved, its current score and level are at most those of
      the signed assessment; that assessment was granted by a sales manager or administrator, and by finance or an
      administrator too when its level demands it; and the owner granted none of it. */
  lemma NoApprovalDrift(owner: int, partner: int, order: Order, events: seq<Event>)
    requires Run(NewDeal(owner, partner, order), events).approvalState.Approved?
    ensures var d := Run(NewDeal(owner, partner, order), events);
            && d.approvedAssessment.Some? && d.currentScore.Some? && d.approvedAssessment.value < |d.assessments|
            && var signed := d.assessments[d.approvedAssessment.value];
            && d.currentScore.value <= signed.score
            && LevelPriority(d.requiredLevel) <= LevelPriority(signed.level)
            && SignedOff(d, d.approvedAssessment.value)
            && forall i :: 0 <= i < |d.requests| && d.requests[i].status.Granted? ==> GrantOnRecord(d, i)
  {
    RunGoverned(owner, partner, order, events);
  }

  /** How many requests are pending: exactly one while the deal waits, none otherwise. */
  function PendingCount(rs: seq<Request>): nat {
    if rs == [] then 0 else PendingCount(rs[..|rs| - 1]) + if rs[|rs| - 1].status.Pending? then 1 else 0
  }

  lemma {:induction false} NonePending(rs: seq<Request>)
    requires forall i :: 0 <= i < |rs| ==> !rs[i].status.Pending?
    ensures PendingCount(rs) == 0
  {
    if rs != [] {
      NonePending(rs[..|rs| - 1]);
    }
  }

  lemma RequestTable(owner: int, partner: int, order: Order, events: seq<Event>)
    ensures var d := Run(NewDeal(owner, partner, order), events);
            && PendingCount(d.requests) == (if Awaits(d.approvalState) then 1 else 0)
            && (Awaits(d.approvalState) ==>
                  var r := d.requests[|d.requests| - 1];
                  && r.status.Pending? && AwaitsStage(d.approvalState, r.stage) && r.assessment < |d.assessments|
                  && d.currentAssessment == Some(r.assessment) && d.assessments[r.assessment].level == d.requiredLevel)
  {
    var d := Run(NewDeal(owner, partner, order), events);
    RunGoverned(owner, partner, order, events);
    if d.requests != [] {
      NonePending(d.requests[..|d.requests| - 1]);
    }
  }
}
