/** The order's lock, confirmation, and what it takes to lose or keep an approval. */
module ApprovalLocks {
  import opened Prelude
  import opened RiskModel
  import opened RiskMonotone
  import opened ApprovalModel
  import opened ApprovalRuns

  /** Waiting and rejected deals have a locked order; approved and returned ones, and those that need no approval, an
      unlocked one. */
  predicate LockAgrees(d: Deal) {
    && (Awaits(d.approvalState) || d.approvalState.Rejected? ==> d.order.locked)
    && (d.approvalState.Approved? || d.approvalState.Returned? || d.approvalState.EvaluatedNoApproval? ==> !d.order.locked)
  }

  /** Every governance write of the event reaches the order system. */
  predicate GovernanceReaches(e: Event) {
    match e
    case Evaluated(_, gw) => gw.governanceOk
    case Decided(_, _, _, gw) => gw.governanceOk
    case NegotiationAnswered(_, _, _, gw) => gw.governanceOk
    case _ => true
  }

  /** Taking on this verdict calls for a locked order. */
  predicate WantsLock(d: Deal, verdict: Assessment) {
    !verdict.level.NoApproval?
    && !(d.approvalState.Approved? && Covered(Lookup(d.assessments, d.approvedAssessment), verdict))
  }

  /** The event needs its governance write: it signs a deal off or returns it, or its verdict calls for another lock. */
  predicate NeedsLockWrite(d: Deal, e: Event) {
    Guard(d, e).None? &&
    match e
    case Evaluated(verdict, _) => d.order.locked != WantsLock(d, verdict)
    case Decided(request, _, action, _) =>
      || action.Return?
      || (action.Approve? && !(d.requiredLevel.ManagerAndFinance? && d.requests[request].stage.SalesManagerStage?))
    case NegotiationAnswered(_, response, verdict, _) => response.Accept? && d.order.locked != WantsLock(d, verdict)
    case _ => false
  }

  /** One step keeps the lock in agreement exactly when its governance write gets through or is not needed. */
  lemma StepKeepsLockExactly(d: Deal, e: Event)
    requires Governed(d) && LockAgrees(d)
    ensures LockAgrees(Step(d, e)) <==> GovernanceReaches(e) || !NeedsLockWrite(d, e)
  {
    hide SupersedeAll, HasGrant, GrantsOnRecord, NoDrift;
  }

  /** The lock agrees with the approval state over every run whose governance writes get through. */
  lemma {:induction false} RunKeepsLock(owner: int, partner: int, order: Order, events: seq<Event>)
    requires forall e :: e in events ==> GovernanceReaches(e)
    ensures LockAgrees(Run(NewDeal(owner, partner, order), events))
    decreases |events|
  {
    if events != [] {
      var before := events[..|events| - 1];
      RunKeepsLock(owner, partner, order, before);
      RunGoverned(owner, partner, order, before);
      StepKeepsLockExactly(Run(NewDeal(owner, partner, order), before), events[|events| - 1]);
    }
  }

  /** The event asks the order system to confirm. */
  predicate IssuesConfirm(d: Deal, e: Event) {
    Guard(d, e).None? &&
    match e
    case Decided(request, _, action, _) =>
      action.Approve? && d.customerConfirmedPending
      && !(d.requiredLevel.ManagerAndFinance? && d.requests[request].stage.SalesManagerStage?)
    case CustomerConfirmed(_, _) => d.approvalState.Approved? && !(d.status.Confirmed? || d.status.Invoiced? || d.status.Paid?)
    case _ => false
  }

  function GatewayOf(e: Event): Gateway {
    match e
    case Evaluated(_, gw) => gw
    case Decided(_, _, _, gw) => gw
    case CustomerConfirmed(_, gw) => gw
    case NegotiationAnswered(_, _, _, gw) => gw
    case _ => Gateway(true, true)
  }

  /** Every step into CONFIRMED is a confirmation of an approved deal whose terms have not drifted. */
  lemma OnlyApprovedConfirms(d: Deal, e: Event)
    requires Governed(d) && !d.status.Confirmed? && Step(d, e).status.Confirmed?
    ensures IssuesConfirm(d, e) && Step(d, e).approvalState.Approved? && NoDrift(Step(d, e))
  {
    StepGoverned(d, e);
    hide SupersedeAll, HasGrant, GrantsOnRecord, OnePending, NoDrift;
  }

  /** With the lock in agreement and the order system reachable, every confirmation that is issued succeeds
      and leaves a sale order. */
  lemma IssuedConfirmSucceeds(d: Deal, e: Event)
    requires Governed(d) && LockAgrees(d) && IssuesConfirm(d, e)
    requires GovernanceReaches(e) && GatewayOf(e).confirmOk
    ensures Step(d, e).status.Confirmed? && Step(d, e).order.state.Sale?
  {
    hide SupersedeAll, HasGrant, GrantsOnRecord, OnePending, NoDrift;
  }

  /** Safe confirmation, over every run whose gateway calls get through: a step into CONFIRMED leaves an unlocked sale
      order and an approved deal whose current terms are covered by the signed ones. */
  lemma SafeConfirmation(owner: int, partner: int, order: Order, events: seq<Event>, e: Event)
    requires (forall x :: x in events ==> GovernanceReaches(x)) && GovernanceReaches(e) && GatewayOf(e).confirmOk
    requires var d := Run(NewDeal(owner, partner, order), events);
             !d.status.Confirmed? && Step(d, e).status.Confirmed?
    ensures var c := Step(Run(NewDeal(owner, partner, order), events), e);
            && c.order == Order(false, Sale) && c.approvalState.Approved? && NoDrift(c)
  {
    var d := Run(NewDeal(owner, partner, order), events);
    RunGoverned(owner, partner, order, events);
    RunKeepsLock(owner, partner, order, events);
    hide Run, Step, Governed, NoDrift;
    OnlyApprovedConfirms(d, e);
    IssuedConfirmSucceeds(d, e);
    StepKeepsLockExactly(d, e);
  }

  /** A customer confirmation marks the deal CONFIRMED whatever the order system answers; the order becomes a
      sale exactly when it was unlocked and reachable, or was one already. */
  lemma CustomerConfirmExactly(d: Deal, gw: Gateway)
    requires d.approvalState.Approved? && !d.status.Invoiced? && !d.status.Paid? && !d.status.Confirmed?
    ensures CustomerConfirm(d, gw).status.Confirmed?
    ensures CustomerConfirm(d, gw).order.state.Sale? <==> ConfirmSucceeds(d.order, gw) || d.order.state.Sale?
  {
  }

  /** A run with a single lost governance write that ends CONFIRMED with the order still a locked quotation. */
  lemma LostUnlockConfirmsNothing() returns (events: seq<Event>)
    ensures var d := Run(NewDeal(1, 7, Order(false, Quotation)), events);
            d.status.Confirmed? && d.approvalState.Approved? && d.order == Order(true, Quotation)
    ensures |events| == 3 && GovernanceReaches(events[0]) && !GovernanceReaches(events[1]) && GovernanceReaches(events[2])
  {
    var e0 := Evaluated(Assessment(30.0, Manager), Gateway(true, true));
    var e1 := Decided(0, Actor(2, SalesManager), Approve, Gateway(false, true));
    var e2 := CustomerConfirmed(7, Gateway(true, true));
    events := [e0, e1, e2];
    var d := NewDeal(1, 7, Order(false, Quotation));
    assert events[..2] == [e0, e1] && [e0, e1][..1] == [e0] && [e0][..0] == [];
    assert Run(d, []) == d;
    assert Run(d, [e0]) == Step(d, e0);
    assert Run(d, [e0, e1]) == Step(Step(d, e0), e1);
    assert Run(d, events) == Step(Step(Step(d, e0), e1), e2);
  }

  // --- losing and keeping an approval ---

  /** Re-evaluating an approved deal keeps the approval exactly when the signed assessment covers the new verdict.
      Otherwise the approval is gone at once: the deal waits for a sales manager on the new assessment, with the
      order locked, unless the new terms need no approval. */
  lemma ReevaluationExactly(d: Deal, verdict: Assessment, gw: Gateway)
    requires Governed(d) && d.approvalState.Approved?
    ensures var e := Evaluate(d, verdict, gw);
            var covered := Covered(Lookup(d.assessments, d.approvedAssessment), verdict);
            && (e.approvalState.Approved? <==> covered)
            && (covered ==> e.requests == d.requests)
            && (!covered && verdict.level.NoApproval? ==> e.approvalState.EvaluatedNoApproval? && e.requests == d.requests)
            && (!covered && !verdict.level.NoApproval? ==>
                  && e.approvalState.PendingManager?
                  && e.requests == d.requests + [Request(|d.assessments|, SalesManagerStage, 1, Pending, None)]
                  && (gw.governanceOk ==> e.order.locked))
  {
    var rs := SupersedeAll(d.requests);
    assert forall i :: 0 <= i < |d.requests| ==> rs[i] == d.requests[i];
    assert rs == d.requests;
  }

  /** The assessment stored for a deal context. */
  function Verdict(ctx: Context, p: Params): Assessment { Assessment(Score(ctx, p), RequiredLevel(ctx, p)) }

  /** Improvements keep an approval: an approved deal, re-evaluated with every discount at or below its value in the
      signed assessment and all else equal, stays approved and opens no request (unless the signed deal gave away all
      its revenue under a margin floor too low to matter, see RiskFloor). */
  lemma ImprovementKeepsApproval(d: Deal, signed: Context, improved: Context, p: Params, gw: Gateway)
    requires Governed(d) && d.approvalState.Approved?
    requires Lookup(d.assessments, d.approvedAssessment) == Some(Verdict(signed, p))
    requires Sensible(signed) && Sensible(improved) && Raised(improved, signed) && NonNegativeParams(p)
    requires TotalNet(Overages(signed)) > 0.0 || TotalNet(Overages(improved)) == 0.0 || FloorSaturates(p)
    ensures var e := Evaluate(d, Verdict(improved, p), gw);
            && e.approvalState.Approved? && e.requests == d.requests && e.approvedAssessment == d.approvedAssessment
  {
    ScoreMonotone(improved, signed, p);
    ApprovalMonotone(improved, signed, p);
    hide Score, RequiredLevel;
    ReevaluationExactly(d, Verdict(improved, p), gw);
  }

  /** Without a granted decision a deal that is not approved can become neither approved nor CONFIRMED. */
  lemma NoGrantNoStep(d: Deal, e: Event)
    requires Governed(d) && !d.approvalState.Approved? && !d.status.Confirmed?
    requires !(e.Decided? && e.action.Approve?)
    ensures !Step(d, e).approvalState.Approved? && !Step(d, e).status.Confirmed?
  {
    hide SupersedeAll, HasGrant, GrantsOnRecord, OnePending, NoDrift, Governed;
  }

  lemma {:induction false} NoGrantNoConfirmation(d: Deal, events: seq<Event>)
    requires Governed(d) && !d.approvalState.Approved? && !d.status.Confirmed?
    requires forall e :: e in events ==> !(e.Decided? && e.action.Approve?)
    ensures Governed(Run(d, events))
    ensures !Run(d, events).approvalState.Approved? && !Run(d, events).status.Confirmed?
    decreases |events|
  {
    if events != [] {
      var before := events[..|events| - 1];
      NoGrantNoConfirmation(d, before);
      hide Governed, Step;
      StepGoverned(Run(d, before), events[|events| - 1]);
      NoGrantNoStep(Run(d, before), events[|events| - 1]);
    }
  }

  /** The counter-offer trap: accepting a counter-offer on an approved deal whose terms are then riskier than those
      signed revokes the approval and locks the order, and in whatever run follows the deal is not CONFIRMED again
      before someone grants a request. */
  lemma {:induction false} RiskierCounterRevokes(d: Deal, n: nat, verdict: Assessment, gw: Gateway, events: seq<Event>)
    requires Governed(d) && d.approvalState.Approved? && n < |d.negotiations| && d.negotiations[n].Open?
    requires gw.governanceOk && !verdict.level.NoApproval?
    requires !Covered(Lookup(d.assessments, d.approvedAssessment), verdict)
    requires forall e :: e in events ==> !(e.Decided? && e.action.Approve?)
    ensures var e := Step(d, NegotiationAnswered(n, Accept, verdict, gw));
            && e.approvalState.PendingManager? && e.order.locked && e.status.Sent?
            && !Run(e, events).status.Confirmed? && !Run(e, events).approvalState.Approved?
  {
    var d1 := d.(negotiations := d.negotiations[n := Accepted]);
    UntouchedGoverned(d, d1);
    ReevaluationExactly(d1, verdict, gw);
    var answer := NegotiationAnswered(n, Accept, verdict, gw);
    StepGoverned(d, answer);
    assert Step(d, answer) == Evaluate(d1, verdict, gw).(status := Sent);
    hide Governed, Evaluate, Step;
    NoGrantNoConfirmation(Step(d, answer), events);
  }
}
