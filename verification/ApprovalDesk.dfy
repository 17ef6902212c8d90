/** The governance services acting on a deal in place. Each operation is proved to do exactly what
    ApprovalModel says, which ApprovalRuns then reasons about over whole runs. */
module ApprovalDesk {
  import opened Prelude
  import opened RiskModel
  import M = ApprovalModel

  class OrderSystem {
    var locked: bool
    var state: M.OrderState

    constructor (order: M.Order)
      ensures locked == order.locked && state == order.state
    {
      locked, state := order.locked, order.state;
    }

    method SetGovernance(lock: bool, reachable: bool) returns (ok: bool)
      modifies this
      ensures ok == reachable && state == old(state) && locked == if reachable then lock else old(locked)
    {
      if reachable {
        locked := lock;
      }
      ok := reachable;
    }

    /** Refuses a locked order. */
    method Confirm(reachable: bool) returns (ok: bool)
      modifies this
      ensures ok == (reachable && !old(locked)) && locked == old(locked)
      ensures state == if ok then M.Sale else old(state)
    {
      if !reachable || locked {
        return false;
      }
      state := M.Sale;
      return true;
    }
  }

  class DealRecord {
    const owner: int
    const partner: int
    const orders: OrderSystem
    var status: M.DealStatus
    var approvalState: M.ApprovalState
    var requiredLevel: Level
    var currentScore: Option<real>
    var currentAssessment: Option<nat>
    var approvedAssessment: Option<nat>
    var customerConfirmedPending: bool
    var assessments: seq<M.Assessment>
    var requests: seq<M.Request>
    var decisions: seq<M.Decision>
    var negotiations: seq<M.NegotiationStatus>

    ghost function View(): M.Deal
      reads this, orders
    {
      M.Deal(owner, partner, status, approvalState, requiredLevel, currentScore, currentAssessment, approvedAssessment,
             customerConfirmedPending, assessments, requests, decisions, negotiations,
             M.Order(orders.locked, orders.state))
    }

    /** First synchronisation of an order. */
    constructor (owner: int, partner: int, orders: OrderSystem)
      ensures View() == M.NewDeal(owner, partner, M.Order(orders.locked, orders.state))
      ensures this.orders == orders
    {
      this.owner, this.partner, this.orders := owner, partner, orders;
      status, approvalState, requiredLevel := M.Draft, M.NotEvaluated, NoApproval;
      currentScore, currentAssessment, approvedAssessment := None, None, None;
      customerConfirmedPending := false;
      assessments, requests, decisions, negotiations := [], [], [], [];
    }

    method ApplyApprovalRouting(assessment: nat, level: Level, covered: bool)
      modifies this
      ensures View() == M.Route(old(View()), assessment, level, covered)
    {
      if covered && approvalState.Approved? {
        return;
      }
      var requests0 := requests;
      var i := 0;
      while i < |requests|
        invariant 0 <= i <= |requests| == |requests0|
        invariant forall k :: 0 <= k < i ==> requests[k] == M.Supersede(requests0[k])
        invariant forall k :: i <= k < |requests| ==> requests[k] == requests0[k]
        invariant View() == old(View()).(requests := requests)
      {
        if requests[i].status.Pending? {
          requests := requests[i := requests[i].(status := M.Superseded)];
        }
        i := i + 1;
      }
      assert requests == M.SupersedeAll(requests0);
      if level.NoApproval? {
        approvalState := M.EvaluatedNoApproval;
        return;
      }
      requests := requests + [M.Request(assessment, M.SalesManagerStage, 1, M.Pending, None)];
      approvalState := M.PendingManager;
    }

    method EvaluateDeal(verdict: M.Assessment, gw: M.Gateway)
      modifies this, orders
      ensures View() == M.Evaluate(old(View()), verdict, gw)
    {
      var approved := M.Lookup(assessments, approvedAssessment);
      var covered := M.Covered(approved, verdict);
      var id := |assessments|;
      assessments := assessments + [verdict];
      ApplyApprovalRouting(id, verdict.level, covered);
      currentScore, requiredLevel, currentAssessment := Some(verdict.score), verdict.level, Some(id);
      var isLocked := true;
      if verdict.level.NoApproval? {
        isLocked := false;
      } else if approvalState.Approved? {
        isLocked := false;
      }
      var _ := orders.SetGovernance(isLocked, gw.governanceOk);
    }

    method SettleRequest(request: nat, outcome: M.RequestStatus, actor: M.Actor)
      requires request < |requests|
      modifies this
      ensures View() == M.Settle(old(View()), request, outcome, actor)
    {
      requests := requests[request := requests[request].(status := outcome, decidedBy := Some(actor.id))];
    }

    /** The last stage passed: sign, unlock, and confirm for a customer who already accepted. */
    method GrantFinal(assessment: nat, gw: M.Gateway)
      modifies this, orders
      ensures View() == M.Grant(old(View()), assessment, gw)
    {
      approvalState := M.Approved;
      approvedAssessment := Some(assessment);
      var _ := orders.SetGovernance(false, gw.governanceOk);
      if customerConfirmedPending {
        var confirmed := orders.Confirm(gw.confirmOk);
        if confirmed {
          status := M.Confirmed;
          customerConfirmedPending := false;
        }
      }
    }

    method DecideApprovalRequest(request: nat, actor: M.Actor, action: M.Action, gw: M.Gateway)
      returns (error: Option<M.Error>)
      modifies this, orders
      ensures error == M.DecideGuard(old(View()), request, actor)
      ensures View() == M.Step(old(View()), M.Decided(request, actor, action, gw))
    {
      if request >= |requests| {
        return Some(M.NotFound);
      }
      var req := requests[request];
      if !req.status.Pending? {
        return Some(M.RequestNotPending);
      }
      if owner == actor.id {
        return Some(M.OwnDeal);
      }
      if !actor.role.Admin? {
        if req.stage.SalesManagerStage? && !actor.role.SalesManager? {
          return Some(M.Forbidden);
        }
        if req.stage.FinanceStage? && !actor.role.Finance? {
          return Some(M.Forbidden);
        }
      }
      error := None;
      decisions := decisions + [M.Decision(request, actor, action)];
      match action {
        case Approve =>
          SettleRequest(request, M.Granted, actor);
          if requiredLevel.ManagerAndFinance? && req.stage.SalesManagerStage? {
            requests := requests + [M.Request(req.assessment, M.FinanceStage, 2, M.Pending, None)];
            approvalState := M.PendingFinance;
          } else {
            GrantFinal(req.assessment, gw);
          }
        case Reject =>
          SettleRequest(request, M.Refused, actor);
          approvalState := M.Rejected;
          var _ := orders.SetGovernance(true, gw.governanceOk);
        case Return =>
          SettleRequest(request, M.SentBack, actor);
          approvalState := M.Returned;
          var _ := orders.SetGovernance(false, gw.governanceOk);
        case Escalate =>
        case Invalidate =>
      }
    }

    method ConfirmDealByCustomer(customer: int, gw: M.Gateway) returns (error: Option<M.Error>)
      modifies this, orders
      ensures error == M.Guard(old(View()), M.CustomerConfirmed(customer, gw))
      ensures View() == M.Step(old(View()), M.CustomerConfirmed(customer, gw))
    {
      if partner != customer {
        return Some(M.NotFound);
      }
      if status.Confirmed? || status.Invoiced? || status.Paid? {
        return None;
      }
      if approvalState.Approved? {
        var _ := orders.Confirm(gw.confirmOk);
        status := M.Confirmed;
        customerConfirmedPending := false;
      } else {
        customerConfirmedPending := true;
      }
      return None;
    }

    method SubmitNegotiationRequest(customer: int) returns (error: Option<M.Error>)
      modifies this
      ensures error == M.Guard(old(View()), M.NegotiationSubmitted(customer))
      ensures View() == M.Step(old(View()), M.NegotiationSubmitted(customer))
    {
      if partner != customer {
        return Some(M.NotFound);
      }
      if status.Confirmed? || status.Cancelled? || status.Expired? {
        return Some(M.DealClosed);
      }
      negotiations := negotiations + [M.Open];
      status := M.UnderNegotiation;
      return None;
    }

    /** The verdict is the risk of the order once the accepted changes are applied to it. */
    method RespondNegotiationRequest(negotiation: nat, response: M.Response, verdict: M.Assessment, gw: M.Gateway)
      returns (error: Option<M.Error>)
      modifies this, orders
      ensures error == M.Guard(old(View()), M.NegotiationAnswered(negotiation, response, verdict, gw))
      ensures View() == M.Step(old(View()), M.NegotiationAnswered(negotiation, response, verdict, gw))
    {
      if negotiation >= |negotiations| {
        return Some(M.NotFound);
      }
      if !negotiations[negotiation].Open? {
        return Some(M.NegotiationNotOpen);
      }
      match response {
        case Accept =>
          negotiations := negotiations[negotiation := M.Accepted];
          EvaluateDeal(verdict, gw);
          status := M.Sent;
        case Decline =>
          negotiations := negotiations[negotiation := M.Declined];
          status := M.Sent;
        case Counter =>
          negotiations := negotiations[negotiation := M.Countered];
          status := M.UnderNegotiation;
        case OtherResponse =>
      }
      return None;
    }
  }
}
