/** Runs in which verdicts come from the order: they are runs of the deal, and an accepted counter-offer keeps an
    approval exactly as far as the points it adds are paid for by the ones it frees. */
module QuoteRuns {
  import opened Prelude
  import opened Sums
  import opened Decimals
  import opened RiskModel
  import opened RiskFloor
  import RiskScoring
  import opened ApprovalModel
  import opened ApprovalRuns
  import opened ApprovalLocks
  import opened OrderTerms
  import opened NegotiationTerms
  import opened QuoteModel

  // --- refinement ---

  /** The deal's part in an event: none for an edit of the order or a refused answer. */
  function DealPart(q: Quote, e: QuoteEvent): seq<Event>
    requires InStep(q)
  {
    if QuoteGuard(q, e).Some? then []
    else
      match e
      case Evaluation(m, gw) => [Evaluated(CurrentVerdict(q, m), gw)]
      case Submission(partner, _) => [NegotiationSubmitted(partner)]
      case Answer(n, response, m, gw) =>
        [NegotiationAnswered(n, response, if response.Accept? then CurrentVerdict(Agreed(q, n, m), m)
                                          else Assessment(0.0, NoApproval), gw)]
      case Edit(_) => []
      case Other(e) => [e]
  }

  function DealParts(q: Quote, events: seq<QuoteEvent>): seq<Event>
    requires InStep(q)
    decreases |events|
  {
    if events == [] then []
    else
      var before := events[..|events| - 1];
      DealParts(q, before) + DealPart(QuoteRun(q, before), events[|events| - 1])
  }

  lemma StepIsDealStep(q: Quote, e: QuoteEvent)
    requires InStep(q)
    ensures |DealPart(q, e)| <= 1
    ensures QuoteStep(q, e).deal == if DealPart(q, e) == [] then q.deal else Step(q.deal, DealPart(q, e)[0])
  {
    hide Evaluate, Decide, CustomerConfirm, CurrentVerdict, ContextOf;
  }

  /** The order's lines change only by an edit, or by the terms of a negotiation that is accepted; terms are only added. */
  lemma LinesMove(q: Quote, e: QuoteEvent)
    requires InStep(q)
    ensures var s := QuoteStep(q, e);
            && s.lines == (match e
                           case Edit(lines) => lines
                           case Answer(n, response, m, _) =>
                             if n < |q.terms| && q.deal.negotiations[n].Open? && response.Accept? && CanApply(q.terms[n], m)
                             then Applied(q.lines, q.terms[n], m) else q.lines
                           case _ => q.lines)
            && s.terms == (match e
                           case Submission(partner, t) =>
                             if partner == q.deal.partner && q.deal.status !in {Confirmed, Cancelled, Expired}
                             then q.terms + [t] else q.terms
                           case _ => q.terms)
  {
    hide Evaluate, CurrentVerdict, Applied;
  }

  /** Whatever happens to a quote, its deal goes through a run of the deal: everything proved of those runs holds. */
  lemma {:induction false} RunIsDealRun(q: Quote, events: seq<QuoteEvent>)
    requires InStep(q)
    ensures QuoteRun(q, events).deal == Run(q.deal, DealParts(q, events))
    decreases |events|
  {
    if events != [] {
      var (before, e) := (events[..|events| - 1], events[|events| - 1]);
      RunIsDealRun(q, before);
      StepIsDealStep(QuoteRun(q, before), e);
      var (parts, part) := (DealParts(q, before), DealPart(QuoteRun(q, before), e));
      if part == [] {
        assert DealParts(q, events) == parts;
      } else {
        assert DealParts(q, events)[..|parts|] == parts && DealParts(q, events) == parts + [part[0]];
      }
    }
  }

  /** So no quote drifts: whenever its deal is approved, the score and level found last are covered by the signed ones. */
  lemma QuoteGoverned(owner: int, partner: int, order: Order, lines: Lines, events: seq<QuoteEvent>)
    ensures Governed(QuoteRun(NewQuote(owner, partner, order, lines), events).deal)
  {
    var q := NewQuote(owner, partner, order, lines);
    RunIsDealRun(q, events);
    RunGoverned(owner, partner, order, DealParts(q, events));
  }

  // --- finance signs what exceeds its threshold ---

  /** No rule in force asks for more than score t before finance must sign. */
  predicate FinanceFrom(m: Market, t: real) {
    && m.fallback.managerThreshold <= t && m.fallback.financeThreshold <= t
    && forall k :: k in m.rules ==> m.rules[k].managerThreshold <= t && m.rules[k].financeThreshold <= t
  }

  predicate EventFinanceFrom(e: QuoteEvent, t: real) {
    match e
    case Evaluation(m, _) => FinanceFrom(m, t)
    case Answer(_, _, m, _) => FinanceFrom(m, t)
    case _ => true
  }

  /** Every stored assessment with a score above t asks for finance. */
  predicate AsksFinance(assessments: seq<Assessment>, t: real) {
    forall a :: a in assessments && a.score > t ==> a.level.ManagerAndFinance?
  }

  lemma VerdictAsksFinance(lines: seq<OrderLine>, m: Market, ctx: Context, t: real)
    requires FinanceFrom(m, t) && t >= 50.0
    ensures AsksFinance([Verdict(ctx, ParamsOf(lines, m))], t)
  {
    hide Score, MaxOverage, Overages;
    assert ParamsOf(lines, m).financeThreshold <= t && ParamsOf(lines, m).managerThreshold <= t;
  }

  lemma StepAsksFinance(q: Quote, e: QuoteEvent, t: real)
    requires InStep(q) && EventFinanceFrom(e, t) && t >= 50.0 && AsksFinance(q.deal.assessments, t)
    ensures AsksFinance(QuoteStep(q, e).deal.assessments, t)
  {
    if QuoteGuard(q, e).None? {
      match e
      case Evaluation(m, gw) => VerdictAsksFinance(q.lines.items, m, CurrentContext(q, m), t);
      case Answer(n, response, m, gw) =>
        if response.Accept? {
          var a := Agreed(q, n, m);
          VerdictAsksFinance(a.lines.items, m, CurrentContext(a, m), t);
        }
      case _ =>
    }
    hide ContextOf, ParamsOf, Verdict;
  }

  lemma {:induction false} RunAsksFinance(q: Quote, events: seq<QuoteEvent>, t: real)
    requires InStep(q) && t >= 50.0 && AsksFinance(q.deal.assessments, t)
    requires forall e :: e in events ==> EventFinanceFrom(e, t)
    ensures AsksFinance(QuoteRun(q, events).deal.assessments, t)
    decreases |events|
  {
    if events != [] {
      RunAsksFinance(q, events[..|events| - 1], t);
      StepAsksFinance(QuoteRun(q, events[..|events| - 1]), events[|events| - 1], t);
      hide QuoteStep, AsksFinance;
    }
  }

  /** A reachable approved deal whose signed score exceeds every finance threshold in force, and the default one of 50,
      was granted by finance, or an administrator, and not by its owner. */
  lemma HighScoresNeedFinance(owner: int, partner: int, order: Order, lines: Lines, events: seq<QuoteEvent>, t: real)
    requires t >= 50.0 && forall e :: e in events ==> EventFinanceFrom(e, t)
    requires var d := QuoteRun(NewQuote(owner, partner, order, lines), events).deal;
             d.approvalState.Approved? && d.approvedAssessment.Some? && d.approvedAssessment.value < |d.assessments|
             && d.assessments[d.approvedAssessment.value].score > t
    ensures var d := QuoteRun(NewQuote(owner, partner, order, lines), events).deal;
            exists i :: 0 <= i < |d.requests| && d.requests[i].status.Granted? && d.requests[i].stage.FinanceStage?
                        && d.requests[i].assessment == d.approvedAssessment.value && GrantOnRecord(d, i)
  {
    var q := NewQuote(owner, partner, order, lines);
    QuoteGoverned(owner, partner, order, lines, events);
    RunAsksFinance(q, events, t);
    var d := QuoteRun(q, events).deal;
    hide QuoteRun;
    var k := d.approvedAssessment.value;
    assert d.assessments[k] in d.assessments && SignedOff(d, k) && HasGrant(d, k, FinanceStage);
  }

  // --- accepting a counter-discount ---

  lemma CapsAreCents(lines: seq<OrderLine>, m: Market)
    ensures WholeCents(ParamsOf(lines, m)) && NonNegativeParams(ParamsOf(lines, m))
  {
  }

  /** Accepting a counter-discount closes it: the pressure it put on the score stays only if another one is open. */
  lemma AcceptingCloses(q: Quote, n: nat, m: Market)
    requires InStep(q) && n < |q.terms| && CanApply(q.terms[n], m)
    ensures CurrentContext(Agreed(q, n, m), m).openCounter <==>
            exists i :: 0 <= i < |q.terms| && i != n && q.deal.negotiations[i].Open? && q.terms[i].CounterDiscount?
  {
    var a := Agreed(q, n, m);
    forall i | 0 <= i < |q.terms| && i != n ensures a.deal.negotiations[i] == q.deal.negotiations[i] {
    }
  }

  lemma {:induction false} SameCeilings(a: seq<OrderLine>, b: seq<OrderLine>, m: Market)
    requires |a| == |b| && forall i :: 0 <= i < |a| ==> a[i].id == b[i].id && a[i].productId == b[i].productId
    ensures Ceilings(a, m) == Ceilings(b, m) && ParamsOf(a, m) == ParamsOf(b, m)
  {
    if a != [] {
      SameCeilings(a[..|a| - 1], b[..|b| - 1], m);
    }
  }

  lemma SettingDiscount(l: OrderLine, value: real, m: Market)
    ensures Scored(l.(discountPct := value), m) == Scored(l, m).(discountPct := Round2(value))
  {
    hide Round2, Times;
  }

  /** A counter-discount at least as deep as the lines it sets only makes the terms deeper, and leaves the policy alone. */
  lemma CounterDeepens(signed: Context, q: Quote, n: nat, m: Market)
    requires InStep(q) && n < |q.terms| && q.terms[n].CounterDiscount? && q.terms[n].value.Some?
    requires Deeper(signed, CurrentContext(q, m))
    requires forall l :: l in q.lines.items && Affects(q.terms[n].lineId, l) ==>
                           Round2(l.discountPct) <= Round2(q.terms[n].value.value)
    ensures Deeper(signed, CurrentContext(Agreed(q, n, m), m))
    ensures ParamsOf(Agreed(q, n, m).lines.items, m) == ParamsOf(q.lines.items, m)
  {
    var (items, id, value) := (q.lines.items, q.terms[n].lineId, q.terms[n].value.value);
    var after := Agreed(q, n, m).lines.items;
    CounterSets(items, id, value);
    SameCeilings(items, after, m);
    forall i | 0 <= i < |items|
      ensures Scored(after[i], m) == Scored(items[i], m).(discountPct := Scored(after[i], m).discountPct)
      ensures Scored(items[i], m).discountPct <= Scored(after[i], m).discountPct
    {
      assert items[i] in items;
      SettingDiscount(items[i], value, m);
    }
    hide Scored, Changed, CounterChanges, Affects, Round2, Ceilings, ParamsOf;
  }

  /** The counter-offer trap, with the verdict taken from the changed order and the closed negotiation. Accepting a
      counter-discount that leaves the terms deeper than the signed ones keeps the approval if and only if the rise in
      discount and margin points is no more than what closed counter-offers free, or the signed score was 100, and no
      line reaches a higher stage. Otherwise the approval is gone at once, and the deal waits with its order locked unless
      it needs no approval any more. */
  lemma AcceptedCounterExactly(q: Quote, n: nat, signed: Context, m: Market, gw: Gateway)
    requires InStep(q) && n < |q.terms| && q.deal.negotiations[n].Open? && CanApply(q.terms[n], m)
    requires Governed(q.deal) && q.deal.approvalState.Approved?
    requires var p := ParamsOf(Agreed(q, n, m).lines.items, m);
             Lookup(q.deal.assessments, q.deal.approvedAssessment) == Some(Verdict(signed, p))
    requires Deeper(signed, CurrentContext(Agreed(q, n, m), m))
    ensures var p := ParamsOf(Agreed(q, n, m).lines.items, m);
            var after := CurrentContext(Agreed(q, n, m), m);
            var e := QuoteStep(q, Answer(n, Accept, m, gw)).deal;
            && (e.approvalState.Approved? <==>
                  && (Points(signed, Overages(signed), p) >= 100.0
                      || TermPoints(after, p) - TermPoints(signed, p) <= Freed(signed, after))
                  && StageHolds(RequiredLevel(signed, p), MaxOverage(Overages(after)), p))
            && (!e.approvalState.Approved? && !RequiredLevel(after, p).NoApproval? ==>
                  e.approvalState.PendingManager? && (gw.governanceOk ==> e.order.locked))
  {
    var a := Agreed(q, n, m);
    var (after, p) := (CurrentContext(a, m), ParamsOf(a.lines.items, m));
    CapsAreCents(a.lines.items, m);
    UntouchedGoverned(q.deal, a.deal);
    hide Governed, Deeper, WholeCents, Agreed, ContextOf, ParamsOf, Points, Overages, RequiredLevel, Score, TermPoints, Freed, MaxOverage;
    assert CurrentVerdict(a, m) == Verdict(after, p);
    DeeperTermsExactly(a.deal, signed, after, p, gw);
    ReevaluationExactly(a.deal, Verdict(after, p), gw);
    StepEvaluates(q, n, m, gw);
  }

  lemma StepEvaluates(q: Quote, n: nat, m: Market, gw: Gateway)
    requires InStep(q) && n < |q.terms| && q.deal.negotiations[n].Open? && CanApply(q.terms[n], m)
    ensures var a := Agreed(q, n, m);
            QuoteStep(q, Answer(n, Accept, m, gw)) == a.(deal := Evaluate(a.deal, CurrentVerdict(a, m), gw).(status := Sent))
  {
    hide Evaluate, CurrentVerdict;
  }

  // --- a deeper discount in the shadow of its own counter-offer ---

  /** One product at price 100 and no cost under a ceiling of 10 and the default thresholds. */
  function SmallMarket(): Market {
    Market(map[1 := Product(100.0, 0.0, false, 0, 0)], map[], Rule(10.0, 20.0, 20.0, 50.0, 10.0), 10.0)
  }

  function SmallOrder(discount: real): seq<OrderLine> { [OrderLine(1, 1, 1.0, 100.0, discount)] }

  lemma SmallLine(discount: real)
    requires IsHundredths(discount)
    ensures ScoredLines(SmallOrder(discount), SmallMarket()) == [RiskLine(1, 1.0, 100.0, discount, 0.0, false, 0, false)]
    ensures Ceilings(SmallOrder(discount), SmallMarket()) == map[1 := 10.0]
    ensures ParamsOf(SmallOrder(discount), SmallMarket()) == DEFAULTS
  {
    Round2Whole(1.0);
    Round2Whole(100.0);
    Round2Whole(discount);
    Round2Whole(0.0);
    assert SmallOrder(discount)[..0] == [];
    assert Times(1.0, 0.0) == 0.0;
    hide Round2;
  }

  lemma SmallOverages(ctx: Context, discount: real)
    requires discount == 12.0 || discount == 12.5
    requires ctx == Context([RiskLine(1, 1.0, 100.0, discount, 0.0, false, 0, false)], 0.0, 10.0, map[1 := 10.0], ctx.openCounter)
    ensures var os := Overages(ctx);
            && |os| == 1 && os[0].effective == discount && os[0].overage == discount - 10.0
            && os[0].weight == 1.0 && os[0].listAmt == 100.0 && os[0].line.costSubtotal == 0.0
  {
    HalfUpWhole(if discount == 12.0 then 120000 else 125000);
    HalfUpWhole(if discount == 12.0 then 20000 else 25000);
    assert ctx.lines[1..] == [];
    assert SumReal(ctx.lines, ListAmt()) == ListAmt()(ctx.lines[0]) + SumReal(ctx.lines[1..], ListAmt());
  }

  /** Seven points per percent over the ceiling, ten for the violation, and five while the counter-offer is open. */
  lemma SmallVerdict(discount: real, open: bool)
    requires discount == 12.0 || discount == 12.5
    ensures Verdict(ContextOf(SmallOrder(discount), SmallMarket(), open), ParamsOf(SmallOrder(discount), SmallMarket()))
            == Assessment(7.0 * (discount - 10.0) + 10.0 + (if open then 5.0 else 0.0), Manager)
  {
    var (ctx, p) := (ContextOf(SmallOrder(discount), SmallMarket(), open), DEFAULTS);
    SmallLine(discount);
    SmallOverages(ctx, discount);
    var os := Overages(ctx);
    SingleLine(os);
    CapsAreCents(SmallOrder(discount), SmallMarket());
    assert WorstInventory(ctx.lines, p) == 0.0 by {
      assert ctx.lines[..0] == [];
    }
    hide Overages, ContextOf, SmallOrder;
    SmallPoints(ctx, os, discount, p);
    RiskScoring.ScoreIsExactSum(ctx, p);
  }

  lemma SmallPoints(ctx: Context, os: seq<Overage>, discount: real, p: Params)
    requires p == DEFAULTS && (discount == 12.0 || discount == 12.5)
    requires |os| == 1 && os[0].overage == discount - 10.0 && os[0].weight == 1.0 && os[0].listAmt == 100.0
    requires MaxOverage(os) == discount - 10.0 && WeightedOverage(os) == discount - 10.0 && ViolatingCount(os) == 1
    requires TotalNet(os) > 0.0 && TotalCost(os) == 0.0 && WorstInventory(ctx.lines, p) == 0.0
    ensures Points(ctx, os, p) == 7.0 * (discount - 10.0) + 10.0 + NegotiationPoints(ctx.openCounter)
  {
    Round2Whole(7.0 * (discount - 10.0) + 10.0);
    Round2Whole(100.0);
    assert TotalNet(os) / TotalNet(os) == 1.0;
    hide Round2, MaxOverage, WeightedOverage, ViolatingCount, TotalNet, TotalCost, WorstInventory;
    assert RawExcess(os, p) == 7.0 * (discount - 10.0) + 10.0;
    assert MarginPct(os) == 100.0;
  }

  const OK: Gateway := Gateway(true, true)

  const COUNTER: Terms := CounterDiscount(None, Some(12.5))

  /** The verdicts of the run, and the first n of them. */
  function Verdicts(n: nat): seq<Assessment>
    requires n <= 3
  {
    [Assessment(24.0, Manager), Assessment(29.0, Manager), Assessment(27.5, Manager)][..n]
  }

  /** The deal's requests with n verdicts: the second supersedes the first, and is granted once signed. */
  function Requests(n: nat, signed: bool): seq<Request> {
    if n == 0 then []
    else if n == 1 then [Request(0, SalesManagerStage, 1, Pending, None)]
    else [Request(0, SalesManagerStage, 1, Superseded, None),
          if signed then Request(1, SalesManagerStage, 1, Granted, Some(2)) else Request(1, SalesManagerStage, 1, Pending, None)]
  }

  /** The deal after each step of the run below; evaluations are steps 1, 3 and 5, the signature is step 4. */
  function DealAfter(steps: nat): Deal {
    var n := if steps == 0 then 0 else if steps < 3 then 1 else if steps < 5 then 2 else 3;
    var signed := steps >= 4;
    Deal(1, 7, if steps < 2 then Draft else if steps < 5 then UnderNegotiation else if steps == 5 then Sent else Confirmed,
         if steps == 0 then NotEvaluated else if signed then Approved else PendingManager,
         if n == 0 then NoApproval else Manager,
         if n == 0 then None else Some(Verdicts(n)[n - 1].score), if n == 0 then None else Some(n - 1),
         if signed then Some(1) else None, false, Verdicts(n), Requests(n, signed),
         if signed then [Decision(1, Actor(2, SalesManager), Approve)] else [],
         if steps < 2 then [] else if steps < 5 then [Open] else [Accepted],
         Order(0 < steps < 4, if steps < 6 then Quotation else Sale))
  }

  function QuoteAfter(steps: nat): Quote {
    Quote(DealAfter(steps), Lines(SmallOrder(if steps < 5 then 12.0 else 12.5), 1), if steps < 2 then [] else [COUNTER])
  }

  function EventAt(step: nat): QuoteEvent {
    if step == 0 || step == 2 then Evaluation(SmallMarket(), OK)
    else if step == 1 then Submission(7, COUNTER)
    else if step == 3 then Other(Decided(1, Actor(2, SalesManager), Approve, OK))
    else if step == 4 then Answer(0, Accept, SmallMarket(), OK)
    else Other(CustomerConfirmed(7, OK))
  }

  lemma FirstEvaluation()
    ensures QuoteStep(QuoteAfter(0), EventAt(0)) == QuoteAfter(1)
  {
    SmallVerdict(12.0, false);
    hide Verdict, ContextOf, ParamsOf, SmallMarket, SmallOrder;
    assert CurrentVerdict(QuoteAfter(0), SmallMarket()) == Assessment(24.0, Manager);
    hide CurrentVerdict;
  }

  lemma SecondEvaluation()
    ensures QuoteStep(QuoteAfter(2), EventAt(2)) == QuoteAfter(3)
  {
    SmallVerdict(12.0, true);
    hide Verdict, ContextOf, ParamsOf, SmallMarket, SmallOrder;
    var d := DealAfter(2);
    assert OpenCounter(d.negotiations, [COUNTER]) by {
      assert d.negotiations[0].Open? && [COUNTER][0].CounterDiscount?;
    }
    assert CurrentVerdict(QuoteAfter(2), SmallMarket()) == Assessment(29.0, Manager);
    hide CurrentVerdict;
    assert SupersedeAll(d.requests) == [Request(0, SalesManagerStage, 1, Superseded, None)];
  }

  lemma PlainSteps()
    ensures QuoteStep(QuoteAfter(1), EventAt(1)) == QuoteAfter(2)
    ensures QuoteStep(QuoteAfter(3), EventAt(3)) == QuoteAfter(4)
    ensures QuoteStep(QuoteAfter(5), EventAt(5)) == QuoteAfter(6)
  {
    hide SmallOrder, SmallMarket, Evaluate;
  }

  /** The quote between the acceptance of the counter-offer and the evaluation that follows it. */
  function AgreedQuote(): Quote {
    Quote(DealAfter(4).(negotiations := [Accepted]), Lines(SmallOrder(12.5), 1), [COUNTER])
  }

  lemma AgreeingStep()
    ensures Agreed(QuoteAfter(4), 0, SmallMarket()) == AgreedQuote()
  {
    CounterSets(SmallOrder(12.0), None, 12.5);
    assert Changed(SmallOrder(12.0), CounterChanges(SmallOrder(12.0), None, 12.5)) == SmallOrder(12.5);
    hide SmallMarket, SmallOrder, Changed, CounterChanges;
  }

  lemma AgreedVerdict()
    ensures CurrentVerdict(AgreedQuote(), SmallMarket()) == Assessment(27.5, Manager)
  {
    SmallVerdict(12.5, false);
    hide Verdict, ContextOf, ParamsOf, SmallMarket, SmallOrder;
    assert !OpenCounter(AgreedQuote().deal.negotiations, AgreedQuote().terms);
  }

  lemma AgreedEvaluation()
    ensures Evaluate(AgreedQuote().deal, Assessment(27.5, Manager), OK).(status := Sent) == DealAfter(5)
  {
    hide SmallOrder;
  }

  lemma AcceptingStep()
    ensures QuoteStep(QuoteAfter(4), EventAt(4)) == QuoteAfter(5)
  {
    AgreeingStep();
    AgreedVerdict();
    AgreedEvaluation();
    StepEvaluates(QuoteAfter(4), 0, SmallMarket(), OK);
    hide QuoteStep, Evaluate, CurrentVerdict, Agreed, SmallMarket, SmallOrder;
  }

  /** A run under the default settings: the deal is evaluated at 12 percent, then again while a counter-offer of 12.5 is
      open, and signed at that score. Accepting the counter closes it, and the points it put on the score make room for the
      deeper discount: the verdict is new, the approval stands, and the deal is confirmed. */
  lemma DeeperDiscountConfirmed()
    ensures var q := QuoteRun(NewQuote(1, 7, Order(false, Quotation), Lines(SmallOrder(12.0), 1)), EventsTo(6));
            && q.deal.status.Confirmed? && q.deal.approvalState.Approved? && q.deal.order == Order(false, Sale)
            && q.lines.items == SmallOrder(12.5)
            && q.deal.assessments == [Assessment(24.0, Manager), Assessment(29.0, Manager), Assessment(27.5, Manager)]
            && q.deal.approvedAssessment == Some(1) && q.deal.currentAssessment == Some(2)
            && |q.deal.decisions| == 1
  {
    RunsTo(6);
    hide QuoteRun, EventsTo, SmallOrder;
    assert QuoteAfter(0) == NewQuote(1, 7, Order(false, Quotation), Lines(SmallOrder(12.0), 1));
  }

  function EventsTo(steps: nat): seq<QuoteEvent> { if steps == 0 then [] else EventsTo(steps - 1) + [EventAt(steps - 1)] }

  lemma StepTo(k: nat)
    requires k < 6
    ensures QuoteStep(QuoteAfter(k), EventAt(k)) == QuoteAfter(k + 1)
  {
    hide QuoteStep, QuoteAfter, EventAt;
    FirstEvaluation();
    SecondEvaluation();
    PlainSteps();
    AcceptingStep();
  }

  lemma {:induction false} RunsTo(steps: nat)
    requires steps <= 6
    ensures QuoteRun(QuoteAfter(0), EventsTo(steps)) == QuoteAfter(steps)
  {
    if steps > 0 {
      RunsTo(steps - 1);
      StepTo(steps - 1);
      hide QuoteStep, QuoteAfter, EventAt;
      assert EventsTo(steps)[..|EventsTo(steps)| - 1] == EventsTo(steps - 1);
    }
  }
}
