/** What invoicing, paying and renewing do, in amounts, and what is said about an order's standing. */
module BillingLaws {
  import opened Prelude
  import opened Sums
  import opened BillingCalendar
  import opened BillingModel
  import opened BillingRuns

  /** The invoice with this id, by the numbering from 1001 on. */
  predicate IsInvoice(l: Ledger, id: int, k: nat) { id == 1001 + k && k < |l.invoices| }

  /** Only invoice k and the list of payments differ, the latter by one payment on it. */
  ghost predicate OnlyPays(l: Ledger, e: Ledger, k: nat, booked: int) {
    && k < |l.invoices| == |e.invoices| && e.orders == l.orders
    && (forall j :: 0 <= j < |l.invoices| && j != k ==> e.invoices[j] == l.invoices[j])
    && e.payments == l.payments + [Payment(k, l.invoices[k].orderId, booked)]
  }

  /** An accepted payment books the amount given, but no more than the residual, and all of the residual when none is given;
      the residual falls by what is booked, not below zero, and the invoice is paid exactly when nothing is left. */
  lemma Paying(b: Billing, id: int, k: nat, amount: Option<int>)
    requires IsInvoice(b.ledger, id, k) && !b.ledger.invoices[k].cancelled && (amount.Some? ==> amount.value >= 0)
    ensures var (l, s) := (b.ledger, Step(b, PaymentMade(id, amount)));
            var (e, r) := (s.ledger, b.ledger.invoices[k].residual);
            && s == b.(ledger := e) && OnlyPays(l, e, k, if amount.Some? && amount.value <= r then amount.value else r)
            && e.invoices[k].residual == (if amount.Some? && amount.value <= r then r - amount.value else 0)
            && (e.invoices[k].paymentState.Paid? <==> e.invoices[k].residual == 0)
            && (e.invoices[k].paymentState.InPayment? <==> e.invoices[k].residual > 0)
            && e.invoices[k] == l.invoices[k].(residual := e.invoices[k].residual, paymentState := e.invoices[k].paymentState)
  {
  }

  /** A negative amount, an unknown invoice and a cancelled one are refused, and nothing changes. */
  lemma RefusedPayment(b: Billing, id: int, amount: Option<int>)
    requires || (amount.Some? && amount.value < 0)
             || id < 1001 || id >= 1001 + |b.ledger.invoices|
             || b.ledger.invoices[id - 1001].cancelled
    ensures Step(b, PaymentMade(id, amount)) == b
  {
  }

  /** The payments of these amounts on one invoice. */
  function Payments(id: int, amounts: seq<int>): seq<Event> {
    seq(|amounts|, i requires 0 <= i < |amounts| => PaymentMade(id, Some(amounts[i])))
  }

  function Sum(amounts: seq<int>): int { if amounts == [] then 0 else Sum(amounts[..|amounts| - 1]) + amounts[|amounts| - 1] }

  lemma {:induction false} SumNonNegative(amounts: seq<int>)
    requires forall i :: 0 <= i < |amounts| ==> amounts[i] >= 0
    ensures Sum(amounts) >= 0
    decreases |amounts|
  {
    if amounts != [] {
      SumNonNegative(amounts[..|amounts| - 1]);
    }
  }

  /** Partial payments that together do not exceed the residual leave exactly the residual minus their sum, and every one of
      them is recorded as it was made. */
  lemma {:induction false} PartialPayments(b: Billing, id: int, k: nat, amounts: seq<int>)
    requires IsInvoice(b.ledger, id, k) && !b.ledger.invoices[k].cancelled
    requires (forall i :: 0 <= i < |amounts| ==> amounts[i] >= 0) && Sum(amounts) <= b.ledger.invoices[k].residual
    ensures var (l, e) := (b.ledger, Run(b, Payments(id, amounts)).ledger);
            && IsInvoice(e, id, k) && !e.invoices[k].cancelled && e.orders == l.orders
            && e.invoices[k].residual == l.invoices[k].residual - Sum(amounts) && e.invoices[k].total == l.invoices[k].total
            && (amounts != [] ==> (e.invoices[k].paymentState.Paid? <==> e.invoices[k].residual == 0))
            && |e.invoices| == |l.invoices|
            && (forall j :: 0 <= j < |l.invoices| && j != k ==> e.invoices[j] == l.invoices[j])
            && e.payments == l.payments
               + seq(|amounts|, i requires 0 <= i < |amounts| => Payment(k, l.invoices[k].orderId, amounts[i]))
            && e.invoices[k].orderId == l.invoices[k].orderId
    decreases |amounts|
  {
    if amounts != [] {
      var (before, last) := (amounts[..|amounts| - 1], amounts[|amounts| - 1]);
      SumNonNegative(before);
      PartialPayments(b, id, k, before);
      assert Payments(id, amounts)[..|amounts| - 1] == Payments(id, before);
      Paying(Run(b, Payments(id, before)), id, k, Some(last));
      hide Step;
    }
  }

  // --- invoicing ---

  /** The order has an invoice that counts against its total: an ordinary one that is not cancelled. */
  ghost predicate HasActive(l: Ledger, o: int) {
    exists i :: i in l.invoices && i.orderId == o && !i.cancelled && i.moveType.OutInvoice?
  }

  function ActiveTotal(invs: seq<Invoice>, o: int): int {
    if invs == [] then 0
    else (if invs[0].orderId == o && !invs[0].cancelled && invs[0].moveType.OutInvoice? then invs[0].total else 0)
         + ActiveTotal(invs[1..], o)
  }

  lemma {:induction false} ActiveIsSum(invs: seq<Invoice>, o: int)
    ensures SumInt(Filter(Filter(invs, OfOrder(o)), Counted()), InvoiceTotal()) == ActiveTotal(invs, o)
  {
    if invs != [] {
      ActiveIsSum(invs[1..], o);
      var (a, b) := (Filter(invs, OfOrder(o)), Filter(invs[1..], OfOrder(o)));
      if invs[0].orderId == o {
        assert a == [invs[0]] + b && a[1..] == b;
      } else {
        assert a == b;
      }
    }
  }

  /** The order's invoices already cover its total, or it is worth nothing and has one. */
  ghost predicate AlreadyInvoiced(l: Ledger, o: int) {
    o in l.orders && HasActive(l, o)
    && (l.orders[o].total == 0 || (l.orders[o].total > 0 && ActiveTotal(l.invoices, o) >= l.orders[o].total))
  }

  /** Invoicing adds one invoice over the order's whole total, nothing paid on it, exactly when the order exists, is not
      invoiced already, and is a sale or done. */
  lemma Invoicing(b: Billing, o: int, moveType: MoveType)
    ensures var (l, e) := (b.ledger, Step(b, Invoiced(o, moveType)));
            if o in l.orders && !AlreadyInvoiced(l, o) && (l.orders[o].state.Sale? || l.orders[o].state.Done?)
            then e == b.(ledger := l.(invoices := l.invoices
                           + [Invoice(o, moveType, false, l.orders[o].total, l.orders[o].total, NotPaid, false)]))
            else e == b
  {
    var l := b.ledger;
    ActiveIsSum(l.invoices, o);
    var active := ActiveInvoices(l, o);
    assert active != [] <==> HasActive(l, o) by {
      if active != [] {
        assert active[0] in active;
      }
    }
    hide Filter, HasActive, ActiveTotal;
  }

  // --- renewing ---

  /** The date the subscription renews on: the stored one, or one period after the order. */
  predicate RenewsOn(b: Billing, o: int, date: Option<Date>) {
    o in b.subs
    && date == if o in b.meta then Some(b.meta[o].renewalDate) else AddBillingPeriod(b.subs[o].orderDate, b.subs[o].interval)
  }

  /** A subscription can be renewed: it recurs, its revenue is not negative, it is active (as stored, or by a confirmed
      order with recurring lines), and its next two dates exist. */
  predicate CanRenew(b: Billing, o: int, date: Option<Date>) {
    && o in b.subs && date.Some? && AddBillingPeriod(date.value, b.subs[o].interval).Some?
    && b.subs[o].mrr >= 0 && (b.subs[o].hasRecurring || b.subs[o].mrr > 0)
    && (if o in b.meta then b.meta[o].active
        else (b.subs[o].state.Sale? || b.subs[o].state.Done?) && b.subs[o].hasRecurring)
  }

  /** Renewing bills the monthly revenue of a monthly subscription and the yearly one of a yearly one, marks it active and
      moves its date on by one period; a subscription that cannot be renewed is left alone. */
  lemma Renewing(b: Billing, o: int, date: Option<Date>)
    requires o in b.subs ==> RenewsOn(b, o, date)
    ensures var e := Step(b, Renewed(o));
            if CanRenew(b, o, date)
            then var amount := match b.subs[o].interval case Month => b.subs[o].mrr case Year => b.subs[o].arr;
                 && e.ledger == b.ledger.(invoices := b.ledger.invoices
                                            + [Invoice(o, OutInvoice, false, amount, amount, NotPaid, true)])
                 && e.meta == b.meta[o := Meta(AddBillingPeriod(date.value, b.subs[o].interval).value, true)]
                 && e.subs == b.subs
            else e == b
  {
  }

  // --- an order's standing ---

  /** Totals and residuals of the order's invoices that are not cancelled, refunds counted negatively. */
  function TotalOf(invs: seq<Invoice>, o: int): int {
    if invs == [] then 0
    else (if invs[0].orderId != o || invs[0].cancelled then 0
          else if invs[0].moveType.OutRefund? then 0 - invs[0].total else invs[0].total) + TotalOf(invs[1..], o)
  }

  function ResidualOf(invs: seq<Invoice>, o: int): int {
    if invs == [] then 0
    else (if invs[0].orderId != o || invs[0].cancelled then 0
          else if invs[0].moveType.OutRefund? then 0 - invs[0].residual else invs[0].residual) + ResidualOf(invs[1..], o)
  }

  lemma {:induction false} StandingSums(invs: seq<Invoice>, o: int)
    ensures var valid := Filter(Filter(invs, OfOrder(o)), NotCancelled());
            SumInt(valid, SignedTotal()) == TotalOf(invs, o) && SumInt(valid, SignedResidual()) == ResidualOf(invs, o)
  {
    if invs != [] {
      StandingSums(invs[1..], o);
      var (a, b) := (Filter(invs, OfOrder(o)), Filter(invs[1..], OfOrder(o)));
      if invs[0].orderId == o {
        assert a == [invs[0]] + b && a[1..] == b;
      } else {
        assert a == b;
      }
    }
  }

  ghost predicate Valid(l: Ledger, o: int, i: Invoice) { i in l.invoices && i.orderId == o && !i.cancelled }

  /** What is due is the sum of residuals, and what is paid the rest of the sum of totals, neither below zero. The order is
      paid when nothing is due and something was invoiced, or an invoice over nothing stands; else payment has begun when an
      invoice says so or something was paid. Without a valid invoice the whole order total is due. */
  lemma Standings(l: Ledger, o: int)
    requires o in l.orders
    ensures var s := StandingOf(l, o);
            var due := if ResidualOf(l.invoices, o) > 0 then ResidualOf(l.invoices, o) else 0;
            var paid := if TotalOf(l.invoices, o) > due then TotalOf(l.invoices, o) - due else 0;
            && ((forall i :: !Valid(l, o, i)) ==>
                  s.amountDue == l.orders[o].total && s.amountPaid == 0 && !s.isPaid && s.state.NotPaid?)
            && ((exists i :: Valid(l, o, i)) ==>
                  && s.amountDue == due && s.amountPaid == paid
                  && (s.isPaid <==> due == 0 && (TotalOf(l.invoices, o) > 0 || exists i :: Valid(l, o, i) && i.total == 0))
                  && (s.state.Paid? <==> s.isPaid)
                  && (s.state.InPayment? <==>
                        !s.isPaid && (paid > 0 || exists i :: Valid(l, o, i) && i.paymentState.InPayment?)))
  {
    var valid := Filter(Filter(l.invoices, OfOrder(o)), NotCancelled());
    StandingSums(l.invoices, o);
    assert forall i :: i in valid <==> Valid(l, o, i);
    assert valid != [] ==> valid[0] in valid;
    hide Filter, SumInt, TotalOf, ResidualOf, Valid;
  }

  // --- refusals ---

  /** Why invoicing and paying are refused: for the first reason that applies. */
  lemma LedgerRefusals(l: Ledger, o: int, id: int, amount: Option<int>)
    ensures InvoiceError(l, o) == (if o !in l.orders then Some(NotFoundError)
                                   else if AlreadyInvoiced(l, o) || !(l.orders[o].state.Sale? || l.orders[o].state.Done?)
                                   then Some(InvalidStateError) else None)
    ensures PaymentError(l, id, amount) == (if amount.Some? && amount.value < 0 then Some(ValidationError)
                                            else if id < 1001 || id > 1000 + |l.invoices| then Some(NotFoundError)
                                            else if l.invoices[id - 1001].cancelled then Some(InvalidStateError) else None)
  {
    ActiveIsSum(l.invoices, o);
    var active := ActiveInvoices(l, o);
    assert active != [] <==> HasActive(l, o) by {
      if active != [] {
        assert active[0] in active;
      }
    }
    hide Filter, HasActive, ActiveTotal;
  }

  /** Why a renewal is refused. */
  lemma RenewalRefusals(b: Billing, o: int, date: Option<Date>)
    requires o in b.subs ==> RenewsOn(b, o, date)
    ensures RenewalError(b, o) == None <==> CanRenew(b, o, date)
    ensures RenewalError(b, o) == Some(NotFoundError) <==> o !in b.subs
    ensures RenewalError(b, o) == Some(ValidationError) <==>
              o in b.subs && date.Some? && (b.subs[o].mrr < 0 || (b.subs[o].mrr == 0 && !b.subs[o].hasRecurring))
    ensures RenewalError(b, o) == Some(DateError) ==>
              o in b.subs && (date.None? || AddBillingPeriod(date.value, b.subs[o].interval).None?)
  {
  }
}
