/** The accounting and subscription adapters on their in-memory stores, proved to do what BillingModel says. */
module BillingAdapters {
  import opened Prelude
  import opened Sums
  import opened BillingCalendar
  import opened BillingModel

  class Accounting {
    var orders: map<int, Order>
    var invoices: seq<Invoice>
    var nextInvoiceId: int
    ghost var payments: seq<Payment>

    ghost predicate Valid()
      reads this
    {
      nextInvoiceId == FIRST_INVOICE_ID + |invoices|
    }

    ghost function View(): Ledger
      reads this
    {
      Ledger(orders, invoices, payments)
    }

    constructor (orders: map<int, Order>)
      ensures Valid() && View() == Ledger(orders, [], [])
    {
      this.orders, invoices, nextInvoiceId, payments := orders, [], FIRST_INVOICE_ID, [];
    }

    method CreateInvoice(orderId: int, moveType: MoveType) returns (r: Result<int, Error>)
      requires Valid()
      modifies this
      ensures Valid() && View() == BillingModel.CreateInvoice(old(View()), orderId, moveType)
      ensures r == match InvoiceError(old(View()), orderId)
                   case Some(e) => Err(e)
                   case None => Ok(old(nextInvoiceId))
    {
      if orderId !in orders {
        return Err(NotFoundError);
      }
      var active := Filter(Filter(invoices, OfOrder(orderId)), Counted());
      if active != [] {
        var already := SumInt(active, InvoiceTotal());
        if orders[orderId].total > 0 && already >= orders[orderId].total {
          return Err(InvalidStateError);
        } else if orders[orderId].total == 0 {
          return Err(InvalidStateError);
        }
      }
      if !Confirmed(orders[orderId].state) {
        return Err(InvalidStateError);
      }
      var amount := orders[orderId].total;
      var id := Append(Invoice(orderId, moveType, false, amount, amount, NotPaid, false));
      return Ok(id);
    }

    method Append(invoice: Invoice) returns (id: int)
      requires Valid()
      modifies this
      ensures Valid() && id == old(nextInvoiceId)
      ensures View() == old(View()).(invoices := old(invoices) + [invoice])
    {
      id := nextInvoiceId;
      nextInvoiceId := nextInvoiceId + 1;
      invoices := invoices + [invoice];
    }

    method RecordPayment(id: int, amount: Option<int>) returns (r: Result<int, Error>)
      requires Valid()
      modifies this
      ensures Valid() && View() == BillingModel.RecordPayment(old(View()), id, amount)
      ensures r == match PaymentError(old(View()), id, amount)
                   case Some(e) => Err(e)
                   case None => Ok(Booked(old(invoices)[id - FIRST_INVOICE_ID].residual, amount))
      // in amounts: at most the residual is booked, and taken off it
      ensures r.Ok? ==>
                && 0 <= id - 1001 < |old(invoices)| == |invoices|
                && var before := old(invoices)[id - 1001].residual;
                   && r.value == (if amount.Some? && amount.value <= before then amount.value else before)
                   && invoices[id - 1001].residual
                      == (if amount.Some? && amount.value <= before then before - amount.value else 0)
                   && payments == old(payments) + [Payment(id - 1001, old(invoices)[id - 1001].orderId, r.value)]
    {
      if amount.Some? && amount.value < 0 {
        return Err(ValidationError);
      }
      var k := id - FIRST_INVOICE_ID;
      if !(0 <= k < |invoices|) {
        return Err(NotFoundError);
      }
      if invoices[k].cancelled {
        return Err(InvalidStateError);
      }
      var residual := invoices[k].residual;
      var pay := if amount.None? || amount.value > residual then residual else amount.value;
      var left := Max(0, residual - pay);
      payments := payments + [Payment(k, invoices[k].orderId, pay)];
      invoices := invoices[k := invoices[k].(residual := left, paymentState := if left <= 0 then Paid else InPayment)];
      return Ok(pay);
    }

    method GetPaymentStatus(orderId: int) returns (r: Result<Standing, Error>)
      ensures r == if orderId in orders then Ok(StandingOf(View(), orderId)) else Err(NotFoundError)
    {
      hide Filter, StandingOver;
      if orderId !in orders {
        return Err(NotFoundError);
      }
      var all := Filter(invoices, OfOrder(orderId));
      var valid := Filter(all, NotCancelled());
      if valid == [] {
        return Ok(Standing(false, 0, orders[orderId].total, NotPaid, |all|));
      }
      var standing := Aggregate(valid);
      return Ok(standing);
    }

    /** Paid, due and state over invoices that are not cancelled. */
    method Aggregate(valid: seq<Invoice>) returns (s: Standing)
      ensures s == StandingOver(valid)
    {
      hide SumInt;
      var totalInvoiced, totalDue := TotalsOf(valid);
      totalDue := Max(0, totalDue);
      var totalPaid := Max(0, totalInvoiced - totalDue);
      var isPaid := totalDue <= 0 && (totalInvoiced > 0 || exists i :: i in valid && i.total == 0);
      var state := NotPaid;
      if isPaid {
        state := Paid;
      } else if exists i :: i in valid && i.paymentState.InPayment? {
        state := InPayment;
      } else if totalPaid > 0 {
        state := InPayment;
      }
      s := Standing(isPaid, totalPaid, totalDue, state, |valid|);
    }

    /** What was invoiced and what is due, refunds counted negatively. */
    method TotalsOf(valid: seq<Invoice>) returns (totalInvoiced: int, totalDue: int)
      ensures totalInvoiced == SumInt(valid, SignedTotal()) && totalDue == SumInt(valid, SignedResidual())
    {
      totalInvoiced, totalDue := 0, 0;
      for i := 0 to |valid|
        invariant totalInvoiced == SumInt(valid[..i], SignedTotal())
        invariant totalDue == SumInt(valid[..i], SignedResidual())
      {
        SumIntPrefix(valid, i, SignedTotal());
        SumIntPrefix(valid, i, SignedResidual());
        if valid[i].moveType.OutRefund? {
          totalInvoiced := totalInvoiced - valid[i].total;
          totalDue := totalDue - valid[i].residual;
        } else {
          totalInvoiced := totalInvoiced + valid[i].total;
          totalDue := totalDue + valid[i].residual;
        }
      }
      assert valid[..|valid|] == valid;
    }
  }

  class SubscriptionAdapter {
    const accounting: Accounting
    var subs: map<int, Subscription>
    var meta: map<int, Meta>

    ghost function View(): Billing
      reads this, accounting
    {
      Billing(accounting.View(), subs, meta)
    }

    constructor (accounting: Accounting, subs: map<int, Subscription>, meta: map<int, Meta>)
      ensures this.accounting == accounting && View() == Billing(accounting.View(), subs, meta)
    {
      this.accounting, this.subs, this.meta := accounting, subs, meta;
    }

    /** Bills one period and moves the renewal date on. */
    method TriggerRenewal(orderId: int) returns (r: Result<int, Error>)
      requires accounting.Valid()
      modifies this, accounting
      ensures accounting.Valid() && View() == BillingModel.TriggerRenewal(old(View()), orderId)
      ensures r == match RenewalError(old(View()), orderId)
                   case Some(e) => Err(e)
                   case None => Ok(old(accounting.nextInvoiceId))
    {
      if orderId !in subs {
        return Err(NotFoundError);
      }
      var sub := subs[orderId];
      var active := Confirmed(sub.state) && sub.hasRecurring;
      var renewalDate := AddBillingPeriod(sub.orderDate, sub.interval);
      if orderId in meta {
        active, renewalDate := meta[orderId].active, Some(meta[orderId].renewalDate);
      }
      if renewalDate.None? {
        return Err(DateError);
      }
      if !sub.hasRecurring && sub.mrr <= 0 {
        return Err(ValidationError);
      }
      if sub.mrr < 0 {
        return Err(ValidationError);
      }
      if !active {
        return Err(InvalidStateError);
      }
      var next := AddBillingPeriod(renewalDate.value, sub.interval);
      if next.None? {
        return Err(DateError);
      }
      var amount := if sub.interval.Month? then sub.mrr else sub.arr;
      var id := accounting.Append(Invoice(orderId, OutInvoice, false, amount, amount, NotPaid, true));
      meta := meta[orderId := Meta(next.value, true)];
      return Ok(id);
    }
  }
}
