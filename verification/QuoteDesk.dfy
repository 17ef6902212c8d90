/** The governance services acting on a deal and its order in place, risk scoring included. */
module QuoteDesk {
  import opened Prelude
  import opened RiskModel
  import M = ApprovalModel
  import opened ApprovalDesk
  import opened OrderTerms
  import opened QuoteModel
  import RiskScoring

  class QuoteRecord {
    const deal: DealRecord
    const order: OrderLines
    var terms: seq<Terms>

    ghost function View(): Quote
      reads this, deal, deal.orders, order
    {
      Quote(deal.View(), order.View(), terms)
    }

    ghost predicate Valid()
      reads this, deal, deal.orders
    {
      |terms| == |deal.negotiations|
    }

    constructor (owner: int, partner: int, orders: OrderSystem, order: OrderLines)
      ensures Valid() && View() == NewQuote(owner, partner, M.Order(orders.locked, orders.state), order.View())
      ensures this.order == order && deal.orders == orders
    {
      deal := new DealRecord(owner, partner, orders);
      this.order, terms := order, [];
    }

    /** Whether a counter-discount is still open. */
    method HasOpenCounter() returns (open: bool)
      requires Valid()
      ensures open == OpenCounter(deal.negotiations, terms)
    {
      for i := 0 to |terms|
        invariant forall k :: 0 <= k < i ==> !(deal.negotiations[k].Open? && terms[k].CounterDiscount?)
      {
        if deal.negotiations[i].Open? && terms[i].CounterDiscount? {
          return true;
        }
      }
      return false;
    }

    /** Scores the order as it stands. */
    method AssessOrder(m: Market) returns (verdict: M.Assessment)
      requires Valid() && Known(order.items, m)
      ensures verdict == CurrentVerdict(View(), m)
    {
      var open := HasOpenCounter();
      var ctx, p := BuildContext(order.items, m, open);
      hide Score, RequiredLevel;
      var risk := RiskScoring.CalculateDealRisk(ctx, p);
      verdict := M.Assessment(risk.score, risk.level);
    }

    method Evaluate(m: Market, gw: M.Gateway)
      requires Valid() && Known(order.items, m)
      modifies deal, deal.orders
      ensures Valid() && View() == QuoteStep(old(View()), Evaluation(m, gw))
    {
      var verdict := AssessOrder(m);
      deal.EvaluateDeal(verdict, gw);
    }

    method SubmitNegotiation(customer: int, t: Terms) returns (error: Option<M.Error>)
      requires Valid()
      modifies this, deal
      ensures Valid() && Lift(error) == QuoteGuard(old(View()), Submission(customer, t))
      ensures View() == QuoteStep(old(View()), Submission(customer, t))
    {
      error := deal.SubmitNegotiationRequest(customer);
      if error.None? {
        terms := terms + [t];
      }
    }

    /** Answers a negotiation; accepting it changes the order and closes it before the deal is scored again. */
    method Respond(n: nat, response: M.Response, m: Market, gw: M.Gateway) returns (error: Option<QuoteError>)
      requires Valid() && Known(order.items, m)
      modifies deal, deal.orders, order
      ensures Valid() && error == QuoteGuard(old(View()), Answer(n, response, m, gw))
      ensures View() == QuoteStep(old(View()), Answer(n, response, m, gw))
    {
      if n >= |deal.negotiations| {
        return Some(DealError(M.NotFound));
      }
      if !deal.negotiations[n].Open? {
        return Some(DealError(M.NegotiationNotOpen));
      }
      if response.Accept? {
        var ok := order.ApplyTerms(terms[n], m);
        if !ok {
          return Some(UnknownProduct);
        }
        ghost var q := old(View());
        assert CanApply(q.terms[n], m);
        StillKnown(q.lines, terms[n], m);
        deal.negotiations := deal.negotiations[n := M.Accepted];
        assert View() == Agreed(q, n, m);
        var verdict := AssessOrder(m);
        deal.EvaluateDeal(verdict, gw);
        deal.status := M.Sent;
      } else {
        var _ := deal.RespondNegotiationRequest(n, response, M.Assessment(0.0, NoApproval), gw);
      }
      return None;
    }
  }
}
