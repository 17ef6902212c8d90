/** A deal together with its order's lines and the terms under negotiation: here the verdict of an evaluation is
    the risk of the order as it stands. */
module QuoteModel {
  import opened Prelude
  import opened RiskModel
  import opened ApprovalModel
  import opened ApprovalLocks
  import opened OrderTerms

  /** terms[i] is what negotiation i asks for. */
  datatype Quote = Quote(deal: Deal, lines: Lines, terms: seq<Terms>)

  datatype QuoteError = DealError(error: Error) | UnknownProduct

  /** Some counter-discount is still open. */
  predicate OpenCounter(negotiations: seq<NegotiationStatus>, terms: seq<Terms>) {
    exists i :: 0 <= i < |negotiations| && i < |terms| && negotiations[i].Open? && terms[i].CounterDiscount?
  }

  /** What evaluating the order now would find. */
  function CurrentContext(q: Quote, m: Market): Context {
    ContextOf(q.lines.items, m, OpenCounter(q.deal.negotiations, q.terms))
  }

  function CurrentVerdict(q: Quote, m: Market): Assessment { Verdict(CurrentContext(q, m), ParamsOf(q.lines.items, m)) }

  function EvaluateQuote(q: Quote, m: Market, gw: Gateway): Quote {
    q.(deal := Evaluate(q.deal, CurrentVerdict(q, m), gw))
  }

  function SubmitTerms(q: Quote, t: Terms): Quote { q.(deal := SubmitNegotiation(q.deal), terms := q.terms + [t]) }

  /** The order changed and the negotiation closed, before the deal is evaluated again. */
  function Agreed(q: Quote, n: nat, m: Market): Quote
    requires n < |q.deal.negotiations| && n < |q.terms| && CanApply(q.terms[n], m)
  {
    Quote(q.deal.(negotiations := q.deal.negotiations[n := Accepted]), Applied(q.lines, q.terms[n], m), q.terms)
  }

  function AnswerTerms(q: Quote, n: nat, response: Response, m: Market, gw: Gateway): Quote
    requires n < |q.deal.negotiations| && n < |q.terms| && (response.Accept? ==> CanApply(q.terms[n], m))
  {
    if response.Accept? then
      var a := Agreed(q, n, m);
      a.(deal := Respond(q.deal, n, Accept, CurrentVerdict(a, m), gw))
    else q.(deal := Respond(q.deal, n, response, Assessment(0.0, NoApproval), gw))
  }

  /** Events in which neither order lines nor negotiations play a part. */
  type PlainEvent = e: Event | !e.Evaluated? && !e.NegotiationSubmitted? && !e.NegotiationAnswered?
    witness QuotationSent

  datatype QuoteEvent =
    | Evaluation(m: Market, gw: Gateway)
    | Submission(partner: int, terms: Terms)
    | Answer(n: nat, response: Response, m: Market, gw: Gateway)
    | Edit(lines: Lines)
    | Other(e: PlainEvent)

  /** Every negotiation has its terms. */
  predicate InStep(q: Quote) { |q.terms| == |q.deal.negotiations| }

  function QuoteGuard(q: Quote, e: QuoteEvent): Option<QuoteError>
    requires InStep(q)
  {
    match e
    case Submission(partner, _) => Lift(Guard(q.deal, NegotiationSubmitted(partner)))
    case Answer(n, response, m, gw) =>
      var refused := Guard(q.deal, NegotiationAnswered(n, response, Assessment(0.0, NoApproval), gw));
      if refused.Some? then Lift(refused)
      else if response.Accept? && !CanApply(q.terms[n], m) then Some(UnknownProduct)
      else None
    case Other(e) => Lift(Guard(q.deal, e))
    case _ => None
  }

  function Lift(e: Option<Error>): Option<QuoteError> { if e.Some? then Some(DealError(e.value)) else None }

  function QuoteStep(q: Quote, e: QuoteEvent): (r: Quote)
    requires InStep(q)
    ensures InStep(r)
  {
    if QuoteGuard(q, e).Some? then q
    else
      match e
      case Evaluation(m, gw) => EvaluateQuote(q, m, gw)
      case Submission(_, t) => SubmitTerms(q, t)
      case Answer(n, response, m, gw) => AnswerTerms(q, n, response, m, gw)
      case Edit(lines) => q.(lines := lines)
      case Other(e) => q.(deal := Step(q.deal, e))
  }

  function QuoteRun(q: Quote, events: seq<QuoteEvent>): (r: Quote)
    requires InStep(q)
    ensures InStep(r)
    decreases |events|
  {
    if events == [] then q else QuoteStep(QuoteRun(q, events[..|events| - 1]), events[|events| - 1])
  }

  function NewQuote(owner: int, partner: int, order: Order, lines: Lines): Quote {
    Quote(NewDeal(owner, partner, order), lines, [])
  }
}
