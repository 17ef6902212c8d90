/** What every single operation does to a deal, from its input to its output. */
module ApprovalLaws {
  import opened Prelude
  import opened RiskModel
  import opened ApprovalModel
  import opened ApprovalRuns
  import opened ApprovalLocks

  // --- decisions ---

  /** This actor may settle requests of this stage: administrators all, the others only their own stage's. */
  predicate Entitled(actor: Actor, stage: Stage) {
    match actor.role
    case Admin => true
    case SalesManager => stage.SalesManagerStage?
    case Finance => stage.FinanceStage?
    case SalesRep => false
    case Customer => false
  }

  /** A decision is refused, without any change, exactly when there is no such pending request, or the actor owns the deal
      or is not entitled; for the first of these reasons that applies. */
  lemma RefusedDecision(d: Deal, request: nat, actor: Actor, action: Action, gw: Gateway)
    ensures var e := Decided(request, actor, action, gw);
            && (Guard(d, e) == Some(NotFound) <==> request >= |d.requests|)
            && (Guard(d, e) == Some(RequestNotPending) <==> request < |d.requests| && !d.requests[request].status.Pending?)
            && (Guard(d, e) == Some(OwnDeal) <==>
                  request < |d.requests| && d.requests[request].status.Pending? && d.owner == actor.id)
            && (Guard(d, e) == Some(Forbidden) <==>
                  && request < |d.requests| && d.requests[request].status.Pending? && d.owner != actor.id
                  && !Entitled(actor, d.requests[request].stage))
            && (Guard(d, e) == None <==>
                  && request < |d.requests| && d.requests[request].status.Pending? && d.owner != actor.id
                  && Entitled(actor, d.requests[request].stage))
            && (Guard(d, e).Some? ==> Step(d, e) == d)
  {
  }

  /** e is d with this request settled by the actor and the decision logged; nothing else differs but what the caller of
      this predicate names by updating d. */
  predicate Settles(d: Deal, e: Deal, request: nat, status: RequestStatus, actor: Actor, action: Action)
    requires request < |d.requests|
  {
    var r := d.requests[request];
    && |e.requests| >= |d.requests|
    && (forall i :: 0 <= i < |d.requests| && i != request ==> e.requests[i] == d.requests[i])
    && e.requests[request] == Request(r.assessment, r.stage, r.sequence, status, Some(actor.id))
    && e.decisions == d.decisions + [Decision(request, actor, action)]
    && e.owner == d.owner && e.partner == d.partner && e.requiredLevel == d.requiredLevel
    && e.currentScore == d.currentScore && e.currentAssessment == d.currentAssessment && e.assessments == d.assessments
    && e.negotiations == d.negotiations
  }

  /** Returning sends the request back, marks the deal RETURNED and unlocks the order. */
  lemma Returning(d: Deal, request: nat, actor: Actor, gw: Gateway)
    requires Guard(d, Decided(request, actor, Return, gw)).None?
    ensures var e := Step(d, Decided(request, actor, Return, gw));
            && request < |d.requests| == |e.requests| && Settles(d, e, request, SentBack, actor, Return)
            && e.approvalState.Returned? && e.status == d.status
            && e.approvedAssessment == d.approvedAssessment && e.customerConfirmedPending == d.customerConfirmedPending
            && e.order == Order(if gw.governanceOk then false else d.order.locked, d.order.state)
  {
  }

  /** Rejecting refuses the request, marks the deal REJECTED and locks the order. */
  lemma Rejecting(d: Deal, request: nat, actor: Actor, gw: Gateway)
    requires Guard(d, Decided(request, actor, Reject, gw)).None?
    ensures var e := Step(d, Decided(request, actor, Reject, gw));
            && request < |d.requests| == |e.requests| && Settles(d, e, request, Refused, actor, Reject)
            && e.approvalState.Rejected? && e.status == d.status
            && e.approvedAssessment == d.approvedAssessment && e.customerConfirmedPending == d.customerConfirmedPending
            && e.order == Order(if gw.governanceOk then true else d.order.locked, d.order.state)
  {
  }

  /** Escalating, like any action without a branch of its own, only logs the decision. */
  lemma Escalating(d: Deal, request: nat, actor: Actor, action: Action, gw: Gateway)
    requires Guard(d, Decided(request, actor, action, gw)).None? && (action.Escalate? || action.Invalidate?)
    ensures Step(d, Decided(request, actor, action, gw))
            == d.(decisions := d.decisions + [Decision(request, actor, action)])
  {
  }

  /** Granting the first of two stages opens the second on the same assessment; the order stays as it is. */
  lemma GrantingFirstStage(d: Deal, request: nat, actor: Actor, gw: Gateway)
    requires Guard(d, Decided(request, actor, Approve, gw)).None?
    requires d.requiredLevel.ManagerAndFinance? && d.requests[request].stage.SalesManagerStage?
    ensures var e := Step(d, Decided(request, actor, Approve, gw));
            && request < |d.requests| && |e.requests| == |d.requests| + 1
            && Settles(d, e, request, Granted, actor, Approve)
            && e.requests[|d.requests|] == Request(d.requests[request].assessment, FinanceStage, 2, Pending, None)
            && e.approvalState.PendingFinance? && e.status == d.status && e.order == d.order
            && e.approvedAssessment == d.approvedAssessment && e.customerConfirmedPending == d.customerConfirmedPending
  {
  }

  /** Granting the last stage signs the request's assessment and unlocks the order; a deal that the customer had accepted is
      confirmed with it, if the order system can be reached and the order is unlocked. */
  lemma GrantingLastStage(d: Deal, request: nat, actor: Actor, gw: Gateway)
    requires Guard(d, Decided(request, actor, Approve, gw)).None?
    requires !(d.requiredLevel.ManagerAndFinance? && d.requests[request].stage.SalesManagerStage?)
    ensures var e := Step(d, Decided(request, actor, Approve, gw));
            var locked := if gw.governanceOk then false else d.order.locked;
            var confirms := d.customerConfirmedPending && gw.confirmOk && !locked;
            && request < |d.requests| == |e.requests| && Settles(d, e, request, Granted, actor, Approve)
            && e.approvalState.Approved? && e.approvedAssessment == Some(d.requests[request].assessment)
            && e.status == (if confirms then Confirmed else d.status)
            && e.customerConfirmedPending == (d.customerConfirmedPending && !confirms)
            && e.order == Order(locked, if confirms then Sale else d.order.state)
  {
  }

  // --- evaluation ---

  /** A signed level is at least as high as another. */
  predicate AtLeast(signed: Level, level: Level) {
    match signed
    case ManagerAndFinance => true
    case Manager => !level.ManagerAndFinance?
    case NoApproval => level.NoApproval?
  }

  /** The deal is approved, on an assessment with at least this score and level. */
  predicate StillCovered(d: Deal, verdict: Assessment) {
    && d.approvalState.Approved? && d.approvedAssessment.Some? && d.approvedAssessment.value < |d.assessments|
    && verdict.score <= d.assessments[d.approvedAssessment.value].score
    && AtLeast(d.assessments[d.approvedAssessment.value].level, verdict.level)
  }

  /** Evaluating stores the verdict and makes it current. A covered approval stands and leaves requests alone. Otherwise
      pending requests are superseded, and a sales manager's request on the new assessment is opened unless no approval is
      needed. The order is locked exactly when approval is needed and does not stand. */
  lemma Evaluating(d: Deal, verdict: Assessment, gw: Gateway)
    ensures var e := Step(d, Evaluated(verdict, gw));
            var (kept, asks, n) := (StillCovered(d, verdict), !verdict.level.NoApproval?, |d.requests|);
            && e.assessments == d.assessments + [verdict] && e.currentAssessment == Some(|d.assessments|)
            && e.currentScore == Some(verdict.score) && e.requiredLevel == verdict.level
            && (kept ==> e.approvalState.Approved? && e.requests == d.requests)
            && (!kept && !asks ==> e.approvalState.EvaluatedNoApproval? && |e.requests| == n)
            && (!kept && asks ==>
                  && e.approvalState.PendingManager? && |e.requests| == n + 1
                  && e.requests[n] == Request(|d.assessments|, SalesManagerStage, 1, Pending, None))
            && (!kept ==> forall i :: 0 <= i < n ==>
                  var r := d.requests[i];
                  e.requests[i] == Request(r.assessment, r.stage, r.sequence,
                                           if r.status.Pending? then Superseded else r.status, r.decidedBy))
            && e.order == Order(if gw.governanceOk then asks && !kept else d.order.locked, d.order.state)
            && e.owner == d.owner && e.partner == d.partner && e.status == d.status
            && e.approvedAssessment == d.approvedAssessment && e.decisions == d.decisions
            && e.customerConfirmedPending == d.customerConfirmedPending && e.negotiations == d.negotiations
  {
    assert Covered(Lookup(d.assessments, d.approvedAssessment), verdict) && d.approvalState.Approved? <==> StillCovered(d, verdict);
    hide Covered, Lookup, StillCovered;
  }

  // --- the customer ---

  /** The customer's confirmation: refused to anyone else; nothing on a deal confirmed, invoiced or paid; on an approved deal
      the deal is confirmed, and the order becomes a sale if it is unlocked and reachable; on any other deal the acceptance
      is noted, and nothing else. */
  lemma Confirming(d: Deal, customer: int, gw: Gateway)
    ensures var (e, done) := (Step(d, CustomerConfirmed(customer, gw)), d.status in {Confirmed, Invoiced, Paid});
            && (Guard(d, CustomerConfirmed(customer, gw)) == if customer != d.partner then Some(NotFound) else None)
            && (customer != d.partner || done ==> e == d)
            && (customer == d.partner && !done && d.approvalState.Approved? ==>
                  e == d.(status := Confirmed, customerConfirmedPending := false,
                          order := Order(d.order.locked, if gw.confirmOk && !d.order.locked then Sale else d.order.state)))
            && (customer == d.partner && !done && !d.approvalState.Approved? ==> e == d.(customerConfirmedPending := true))
  {
  }

  /** A negotiation is opened by the deal's customer unless the deal is confirmed, cancelled or expired. */
  lemma Negotiating(d: Deal, customer: int)
    ensures var e := Step(d, NegotiationSubmitted(customer));
            Guard(d, NegotiationSubmitted(customer)) == (if customer != d.partner then Some(NotFound)
                                                         else if d.status in {Confirmed, Cancelled, Expired} then Some(DealClosed)
                                                         else None)
            && e == if customer == d.partner && d.status !in {Confirmed, Cancelled, Expired}
                    then d.(negotiations := d.negotiations + [Open], status := UnderNegotiation) else d
  {
  }

  /** An open negotiation is answered once. Accepting it evaluates the deal on the new verdict and sends the quotation;
      declining sends it; countering keeps the negotiation going; anything else is ignored. */
  lemma Answering(d: Deal, n: nat, response: Response, verdict: Assessment, gw: Gateway)
    ensures var (e, a) := (Step(d, NegotiationAnswered(n, response, verdict, gw)), NegotiationAnswered(n, response, verdict, gw));
            && Guard(d, a) == (if n >= |d.negotiations| then Some(NotFound)
                               else if !d.negotiations[n].Open? then Some(NegotiationNotOpen) else None)
            && (Guard(d, a).Some? ==> e == d)
            && (Guard(d, a).None? ==>
                  match response
                  case Accept =>
                    e == Step(d.(negotiations := d.negotiations[n := Accepted]), Evaluated(verdict, gw)).(status := Sent)
                  case Decline => e == d.(negotiations := d.negotiations[n := Declined], status := Sent)
                  case Counter => e == d.(negotiations := d.negotiations[n := Countered], status := UnderNegotiation)
                  case OtherResponse => e == d)
  {
    hide Evaluate;
  }

  /** Sending marks the deal sent; cancelling cancels deal and order; applying a plan puts a deal that is confirmed, or in
      fulfillment already, in fulfillment, and is refused for any other. */
  lemma Moving(d: Deal)
    ensures Step(d, QuotationSent) == d.(status := Sent)
    ensures Step(d, OrderCancelled) == d.(status := Cancelled, order := Order(d.order.locked, CancelledOrder))
    ensures Step(d, FulfillmentApplied) == if d.status in {Confirmed, InFulfillment} then d.(status := InFulfillment) else d
    ensures Guard(d, FulfillmentApplied).Some? <==> d.status !in {Confirmed, InFulfillment}
  {
  }

  /** Over runs whose governance writes get through, a returned deal can be revised: its order is unlocked. */
  lemma ReturnedIsUnlocked(owner: int, partner: int, order: Order, events: seq<Event>)
    requires forall e :: e in events ==> GovernanceReaches(e)
    requires Run(NewDeal(owner, partner, order), events).approvalState.Returned?
    ensures !Run(NewDeal(owner, partner, order), events).order.locked
  {
    RunKeepsLock(owner, partner, order, events);
  }

  /** A deal starts as a draft: not evaluated, nothing asked, signed, decided or negotiated, the order as it is. */
  lemma Starting(owner: int, partner: int, order: Order)
    ensures var d := Run(NewDeal(owner, partner, order), []);
            && d.owner == owner && d.partner == partner && d.order == order
            && d.status.Draft? && d.approvalState.NotEvaluated? && d.requiredLevel.NoApproval?
            && d.currentScore == None && d.currentAssessment == None && d.approvedAssessment == None
            && !d.customerConfirmedPending
            && d.assessments == [] && d.requests == [] && d.decisions == [] && d.negotiations == []
  {
  }
}
