/** One deal under governance: its assessments, approval requests, decisions and the order behind it,
    and what each service operation does to them. Rows are identified by their position. */
module ApprovalModel {
  import opened Prelude
  import opened RiskModel

  datatype DealStatus =
    | Draft | Sent | UnderNegotiation | Confirmed | InFulfillment | Fulfilled | Invoiced | Paid | Cancelled | Expired

  datatype ApprovalState =
    | NotEvaluated | EvaluatedNoApproval | PendingManager | PendingFinance | Approved | Rejected | Returned | Invalidated

  datatype RequestStatus = Pending | Granted | Refused | SentBack | Superseded

  datatype Stage = SalesManagerStage | FinanceStage

  datatype Role = Admin | SalesManager | SalesRep | Finance | Customer

  datatype Action = Approve | Reject | Return | Escalate | Invalidate

  datatype Actor = Actor(id: int, role: Role)

  /** A stored risk assessment, as far as governance looks at it. */
  datatype Assessment = Assessment(score: real, level: Level)

  datatype Request = Request(assessment: nat, stage: Stage, sequence: nat, status: RequestStatus, decidedBy: Option<int>)

  /** The record of a decision on a request. */
  datatype Decision = Decision(request: nat, actor: Actor, action: Action)

  datatype NegotiationStatus = Open | Accepted | Declined | Countered

  datatype OrderState = Quotation | Sale | CancelledOrder

  datatype Order = Order(locked: bool, state: OrderState)

  datatype Deal = Deal(
    owner: int, partner: int, status: DealStatus, approvalState: ApprovalState, requiredLevel: Level,
    currentScore: Option<real>, currentAssessment: Option<nat>, approvedAssessment: Option<nat>,
    customerConfirmedPending: bool,
    assessments: seq<Assessment>, requests: seq<Request>, decisions: seq<Decision>,
    negotiations: seq<NegotiationStatus>, order: Order)

  /** Whether the two kinds of gateway call of an operation get through; failures are swallowed. */
  datatype Gateway = Gateway(governanceOk: bool, confirmOk: bool)

  datatype Error = NotFound | RequestNotPending | OwnDeal | Forbidden | DealClosed | NegotiationNotOpen

  /** A deal as the first synchronisation creates it, for an order in any state. */
  function NewDeal(owner: int, partner: int, order: Order): Deal {
    Deal(owner, partner, Draft, NotEvaluated, NoApproval, None, None, None, false, [], [], [], [], order)
  }

  function Lookup(assessments: seq<Assessment>, id: Option<nat>): Option<Assessment> {
    if id.Some? && id.value < |assessments| then Some(assessments[id.value]) else None
  }

  /** A new verdict is covered by a signed assessment that is at least as high in level and score. */
  predicate Covered(signed: Option<Assessment>, verdict: Assessment) {
    signed.Some? && LevelPriority(verdict.level) <= LevelPriority(signed.value.level) && verdict.score <= signed.value.score
  }

  function Supersede(r: Request): Request { if r.status.Pending? then r.(status := Superseded) else r }

  function SupersedeAll(rs: seq<Request>): (r: seq<Request>)
    ensures |r| == |rs| && forall i :: 0 <= i < |rs| ==> r[i] == Supersede(rs[i])
  {
    if rs == [] then [] else [Supersede(rs[0])] + SupersedeAll(rs[1..])
  }

  /** Keeps a covered approval; otherwise supersedes open requests and asks for a new one if needed. */
  function Route(d: Deal, assessment: nat, level: Level, covered: bool): Deal {
    if covered && d.approvalState.Approved? then d
    else if level.NoApproval? then
      d.(requests := SupersedeAll(d.requests), approvalState := EvaluatedNoApproval)
    else
      d.(requests := SupersedeAll(d.requests) + [Request(assessment, SalesManagerStage, 1, Pending, None)],
         approvalState := PendingManager)
  }

  function SetLock(o: Order, locked: bool, gw: Gateway): Order { if gw.governanceOk then o.(locked := locked) else o }

  /** Re-evaluation: store the verdict, route it, make it current, and lock or unlock the order. */
  function Evaluate(d: Deal, verdict: Assessment, gw: Gateway): Deal {
    var id := |d.assessments|;
    var covered := Covered(Lookup(d.assessments, d.approvedAssessment), verdict);
    var r := Route(d.(assessments := d.assessments + [verdict]), id, verdict.level, covered);
    r.(currentScore := Some(verdict.score), requiredLevel := verdict.level, currentAssessment := Some(id),
       order := SetLock(r.order, !verdict.level.NoApproval? && !r.approvalState.Approved?, gw))
  }

  /** The guards on deciding a request, in order. */
  function DecideGuard(d: Deal, request: nat, actor: Actor): Option<Error> {
    if request >= |d.requests| then Some(NotFound)
    else if !d.requests[request].status.Pending? then Some(RequestNotPending)
    else if d.owner == actor.id then Some(OwnDeal)
    else if actor.role.Admin? then None
    else if d.requests[request].stage.SalesManagerStage? && !actor.role.SalesManager? then Some(Forbidden)
    else if d.requests[request].stage.FinanceStage? && !actor.role.Finance? then Some(Forbidden)
    else None
  }

  function Settle(d: Deal, request: nat, status: RequestStatus, actor: Actor): Deal
    requires request < |d.requests|
  {
    d.(requests := d.requests[request := d.requests[request].(status := status, decidedBy := Some(actor.id))])
  }

  /** Confirming in the order system works only on an unlocked order that can be reached. */
  predicate ConfirmSucceeds(o: Order, gw: Gateway) { gw.confirmOk && !o.locked }

  /** Granting the last stage: sign the assessment, unlock, and confirm if the customer already accepted. */
  function Grant(d: Deal, assessment: nat, gw: Gateway): Deal {
    var g := d.(approvalState := Approved, approvedAssessment := Some(assessment), order := SetLock(d.order, false, gw));
    if g.customerConfirmedPending && ConfirmSucceeds(g.order, gw)
    then g.(status := Confirmed, customerConfirmedPending := false, order := g.order.(state := Sale))
    else g
  }

  function Decide(d: Deal, request: nat, actor: Actor, action: Action, gw: Gateway): Deal
    requires DecideGuard(d, request, actor).None?
  {
    var r := d.requests[request];
    var e := d.(decisions := d.decisions + [Decision(request, actor, action)]);
    match action
    case Approve =>
      var s := Settle(e, request, Granted, actor);
      if d.requiredLevel.ManagerAndFinance? && r.stage.SalesManagerStage? then
        s.(requests := s.requests + [Request(r.assessment, FinanceStage, 2, Pending, None)],
           approvalState := PendingFinance)
      else Grant(s, r.assessment, gw)
    case Reject =>
      Settle(e, request, Refused, actor).(approvalState := Rejected, order := SetLock(d.order, true, gw))
    case Return =>
      Settle(e, request, SentBack, actor).(approvalState := Returned, order := SetLock(d.order, false, gw))
    case Escalate => e
    case Invalidate => e
  }

  /** The customer accepts: an approved deal is confirmed, any other is marked as accepted. */
  function CustomerConfirm(d: Deal, gw: Gateway): Deal {
    if d.status.Confirmed? || d.status.Invoiced? || d.status.Paid? then d
    else if d.approvalState.Approved? then
      d.(status := Confirmed, customerConfirmedPending := false,
         order := if ConfirmSucceeds(d.order, gw) then d.order.(state := Sale) else d.order)
    else d.(customerConfirmedPending := true)
  }

  function SubmitNegotiation(d: Deal): Deal { d.(negotiations := d.negotiations + [Open], status := UnderNegotiation) }

  datatype Response = Accept | Decline | Counter | OtherResponse

  /** Accepting a negotiation applies its changes, re-evaluates, and sends the quotation again. */
  function Respond(d: Deal, negotiation: nat, response: Response, verdict: Assessment, gw: Gateway): Deal
    requires negotiation < |d.negotiations|
  {
    match response
    case Accept =>
      Evaluate(d.(negotiations := d.negotiations[negotiation := Accepted]), verdict, gw).(status := Sent)
    case Decline => d.(negotiations := d.negotiations[negotiation := Declined], status := Sent)
    case Counter => d.(negotiations := d.negotiations[negotiation := Countered], status := UnderNegotiation)
    case OtherResponse => d
  }

  /** Everything that happens to a deal. */
  datatype Event =
    | Evaluated(verdict: Assessment, gw: Gateway)
    | Decided(request: nat, actor: Actor, action: Action, gw: Gateway)
    | CustomerConfirmed(partner: int, gw: Gateway)
    | NegotiationSubmitted(partner: int)
    | NegotiationAnswered(negotiation: nat, response: Response, verdict: Assessment, gw: Gateway)
    | QuotationSent
    | OrderCancelled
    | FulfillmentApplied

  /** The guards of every operation; a refused operation changes nothing. */
  function Guard(d: Deal, e: Event): Option<Error> {
    match e
    case Decided(request, actor, _, _) => DecideGuard(d, request, actor)
    case CustomerConfirmed(partner, _) => if d.partner != partner then Some(NotFound) else None
    case NegotiationSubmitted(partner) =>
      if d.partner != partner then Some(NotFound)
      else if d.status.Confirmed? || d.status.Cancelled? || d.status.Expired? then Some(DealClosed)
      else None
    case NegotiationAnswered(n, _, _, _) =>
      if n >= |d.negotiations| then Some(NotFound)
      else if !d.negotiations[n].Open? then Some(NegotiationNotOpen)
      else None
    case FulfillmentApplied => if d.status.Confirmed? || d.status.InFulfillment? then None else Some(DealClosed)
    case _ => None
  }

  function Apply(d: Deal, e: Event): Deal
    requires Guard(d, e).None?
  {
    match e
    case Evaluated(verdict, gw) => Evaluate(d, verdict, gw)
    case Decided(request, actor, action, gw) => Decide(d, request, actor, action, gw)
    case CustomerConfirmed(_, gw) => CustomerConfirm(d, gw)
    case NegotiationSubmitted(_) => SubmitNegotiation(d)
    case NegotiationAnswered(n, response, verdict, gw) => Respond(d, n, response, verdict, gw)
    case QuotationSent => d.(status := Sent)
    case OrderCancelled => d.(status := Cancelled, order := d.order.(state := CancelledOrder))
    case FulfillmentApplied => d.(status := InFulfillment)
  }

  function Step(d: Deal, e: Event): Deal { if Guard(d, e).None? then Apply(d, e) else d }

  /** The deal after the first n events. */
  function Run(d: Deal, events: seq<Event>): Deal
    decreases |events|
  {
    if events == [] then d else Step(Run(d, events[..|events| - 1]), events[|events| - 1])
  }
}
