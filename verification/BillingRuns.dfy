/** What any run of invoicing, renewals and payments keeps. */
module BillingRuns {
  import opened Prelude
  import opened Sums
  import opened BillingCalendar
  import opened BillingModel

  datatype Event = Invoiced(orderId: int, moveType: MoveType) | Renewed(orderId: int) | PaymentMade(id: int, amount: Option<int>)

  function Step(b: Billing, e: Event): Billing {
    match e
    case Invoiced(o, moveType) => b.(ledger := CreateInvoice(b.ledger, o, moveType))
    case Renewed(o) => TriggerRenewal(b, o)
    case PaymentMade(id, amount) => b.(ledger := RecordPayment(b.ledger, id, amount))
  }

  function Run(b: Billing, events: seq<Event>): Billing
    decreases |events|
  {
    if events == [] then b else Step(Run(b, events[..|events| - 1]), events[|events| - 1])
  }

  // --- quantities ---

  function PaidOnInvoice(k: nat): Payment -> int { (p: Payment) => if p.invoice == k then p.amount else 0 }

  function PaidOnOrder(o: int): Payment -> int { (p: Payment) => if p.orderId == o then p.amount else 0 }

  function TotalOn(o: int): Invoice -> int { (i: Invoice) => if i.orderId == o then i.total else 0 }

  function ResidualOn(o: int): Invoice -> int { (i: Invoice) => if i.orderId == o then i.residual else 0 }

  /** Residual and recorded payments make up the total: of every invoice, and of every order. */
  ghost predicate Balanced(l: Ledger) {
    && (forall k :: 0 <= k < |l.invoices| ==>
          l.invoices[k].residual + SumInt(l.payments, PaidOnInvoice(k)) == l.invoices[k].total)
    && (forall p :: p in l.payments ==> p.invoice < |l.invoices|)
    && (forall o :: SumInt(l.invoices, ResidualOn(o)) + SumInt(l.payments, PaidOnOrder(o)) == SumInt(l.invoices, TotalOn(o)))
  }

  lemma AddBalanced(l: Ledger, o: int, moveType: MoveType, amount: int, recurring: bool)
    requires Balanced(l)
    ensures Balanced(AddInvoice(l, o, moveType, amount, recurring))
  {
    var i := Invoice(o, moveType, false, amount, amount, NotPaid, recurring);
    var e := AddInvoice(l, o, moveType, amount, recurring);
    ZeroSumInt(l.payments, PaidOnInvoice(|l.invoices|));
    forall q ensures SumInt(e.invoices, ResidualOn(q)) == SumInt(l.invoices, ResidualOn(q)) + ResidualOn(q)(i)
             ensures SumInt(e.invoices, TotalOn(q)) == SumInt(l.invoices, TotalOn(q)) + TotalOn(q)(i)
    {
      SumIntAppend(l.invoices, i, ResidualOn(q));
      SumIntAppend(l.invoices, i, TotalOn(q));
    }
    hide SumInt;
  }

  /** Replacing one element changes a sum by the difference. */
  lemma SumIntUpdate<T>(s: seq<T>, k: nat, x: T, f: T -> int)
    requires k < |s|
    ensures SumInt(s[k := x], f) == SumInt(s, f) - f(s[k]) + f(x)
  {
    SumIntWithout(s, k, f);
    SumIntWithout(s[k := x], k, f);
    assert s[k := x][..k] + s[k := x][k + 1..] == s[..k] + s[k + 1..];
  }

  lemma PayBalanced(l: Ledger, id: int, amount: Option<int>)
    requires Balanced(l)
    ensures Balanced(RecordPayment(l, id, amount))
  {
    if PaymentError(l, id, amount).None? {
      var k := id - FIRST_INVOICE_ID;
      var e := RecordPayment(l, id, amount);
      var p := e.payments[|l.payments|];
      forall j | 0 <= j < |l.invoices|
        ensures SumInt(e.payments, PaidOnInvoice(j)) == SumInt(l.payments, PaidOnInvoice(j)) + PaidOnInvoice(j)(p)
      {
        SumIntAppend(l.payments, p, PaidOnInvoice(j));
      }
      forall q
        ensures SumInt(e.invoices, ResidualOn(q)) + SumInt(e.payments, PaidOnOrder(q)) == SumInt(e.invoices, TotalOn(q))
      {
        SumIntAppend(l.payments, p, PaidOnOrder(q));
        SumIntUpdate(l.invoices, k, e.invoices[k], ResidualOn(q));
        SumIntUpdate(l.invoices, k, e.invoices[k], TotalOn(q));
      }
      hide SumInt;
    }
  }

  lemma StepBalanced(b: Billing, e: Event)
    requires Balanced(b.ledger)
    ensures Balanced(Step(b, e).ledger)
  {
    match e
    case Invoiced(o, moveType) =>
      if InvoiceError(b.ledger, o).None? {
        AddBalanced(b.ledger, o, moveType, b.ledger.orders[o].total, false);
      }
    case Renewed(o) =>
      if RenewalError(b, o).None? {
        AddBalanced(b.ledger, o, OutInvoice, RenewalAmount(b.subs[o]), true);
      }
    case PaymentMade(id, amount) => PayBalanced(b.ledger, id, amount);
  }

  /** A billing state before anything was invoiced. */
  ghost predicate Fresh(b: Billing) { b.ledger.invoices == [] && b.ledger.payments == [] }

  /** The books balance after every run, refunds included. */
  lemma {:induction false} RunBalanced(b: Billing, events: seq<Event>)
    requires Fresh(b)
    ensures Balanced(Run(b, events).ledger)
    decreases |events|
  {
    if events != [] {
      RunBalanced(b, events[..|events| - 1]);
      StepBalanced(Run(b, events[..|events| - 1]), events[|events| - 1]);
    }
  }

  // --- amounts that are not negative ---

  /** No order, revenue or invoice has a negative amount, and residuals lie between 0 and the total. */
  ghost predicate NonNegative(b: Billing) {
    && (forall o :: o in b.ledger.orders ==> b.ledger.orders[o].total >= 0)
    && (forall o :: o in b.subs ==> b.subs[o].arr >= 0)
    && (forall i :: i in b.ledger.invoices ==> 0 <= i.residual <= i.total && !i.cancelled)
  }

  lemma StepNonNegative(b: Billing, e: Event)
    requires NonNegative(b)
    ensures NonNegative(Step(b, e)) && Step(b, e).ledger.orders == b.ledger.orders && Step(b, e).subs == b.subs
  {
    match e
    case PaymentMade(id, amount) =>
      if PaymentError(b.ledger, id, amount).None? {
        assert b.ledger.invoices[id - FIRST_INVOICE_ID] in b.ledger.invoices;
      }
    case _ =>
  }

  lemma {:induction false} RunNonNegative(b: Billing, events: seq<Event>)
    requires Fresh(b) && NonNegative(b)
    ensures NonNegative(Run(b, events)) && Run(b, events).ledger.orders == b.ledger.orders
    decreases |events|
  {
    if events != [] {
      RunNonNegative(b, events[..|events| - 1]);
      StepNonNegative(Run(b, events[..|events| - 1]), events[|events| - 1]);
    }
  }

  /** For an order with invoices but no refunds, sums over its invoices are sums over the whole book. */
  lemma {:induction false} FilterSums(invs: seq<Invoice>, o: int)
    requires forall i :: i in invs ==> !i.cancelled && (i.orderId == o ==> i.moveType.OutInvoice?)
    ensures var valid := Filter(Filter(invs, OfOrder(o)), NotCancelled());
            && SumInt(valid, SignedTotal()) == SumInt(invs, TotalOn(o))
            && SumInt(valid, SignedResidual()) == SumInt(invs, ResidualOn(o))
            && (valid == [] <==> forall i :: i in invs ==> i.orderId != o)
  {
    if invs != [] {
      FilterSums(invs[1..], o);
      assert invs == [invs[0]] + invs[1..];
      var (a, b) := (Filter(invs, OfOrder(o)), Filter(invs[1..], OfOrder(o)));
      if invs[0].orderId == o {
        assert a[0] == invs[0] && a[1..] == b;
        var v := Filter(a, NotCancelled());
        assert v[0] == invs[0] && v[1..] == Filter(b, NotCancelled());
      } else {
        assert a == b;
      }
    }
  }

  /** Ledger conservation: after any run, for an order with invoices and no refunds, what the status reports as paid is
      exactly the sum of payments recorded on it, and paid plus due is exactly what was invoiced. */
  lemma StatusAddsUp(b: Billing, events: seq<Event>, o: int)
    requires Fresh(b) && NonNegative(b) && o in b.ledger.orders
    requires var invs := Run(b, events).ledger.invoices;
             (forall i :: i in invs && i.orderId == o ==> i.moveType.OutInvoice?) && exists i :: i in invs && i.orderId == o
    ensures var l := Run(b, events).ledger;
            && o in l.orders
            && StandingOf(l, o).amountPaid == SumInt(l.payments, PaidOnOrder(o))
            && StandingOf(l, o).amountPaid + StandingOf(l, o).amountDue == SumInt(l.invoices, TotalOn(o))
            && (StandingOf(l, o).isPaid ==> StandingOf(l, o).amountDue == 0)
  {
    RunBalanced(b, events);
    RunNonNegative(b, events);
    var l := Run(b, events).ledger;
    FilterSums(l.invoices, o);
    SumIntNonNegative(l.invoices, ResidualOn(o));
    hide Run, SumInt, Filter;
    SumIntMonotone(l.invoices, ResidualOn(o), TotalOn(o));
  }

  /** Every invoice by itself: residual plus its payments is its total. */
  lemma InvoiceAddsUp(b: Billing, events: seq<Event>, k: nat)
    requires Fresh(b) && k < |Run(b, events).ledger.invoices|
    ensures var l := Run(b, events).ledger;
            l.invoices[k].residual + SumInt(l.payments, PaidOnInvoice(k)) == l.invoices[k].total
  {
    RunBalanced(b, events);
  }

  // --- no order is invoiced twice ---

  /** Invoices of the order's own total, as opposed to renewals and refunds. */
  function OwnInvoice(o: int): Invoice -> int {
    (i: Invoice) => if i.orderId == o && i.moveType.OutInvoice? && !i.recurring then 1 else 0
  }

  ghost predicate InvoicedOnce(b: Billing) {
    forall o :: o in b.ledger.orders ==>
      && SumInt(b.ledger.invoices, OwnInvoice(o)) <= 1
      && forall i :: i in b.ledger.invoices && OwnInvoice(o)(i) == 1 ==> i.total == b.ledger.orders[o].total
  }

  /** An order with an invoice of its own counts as fully invoiced, however small its other invoices. */
  lemma OwnInvoiceBlocks(b: Billing, o: int, i: Invoice)
    requires NonNegative(b) && InvoicedOnce(b) && o in b.ledger.orders
    requires i in b.ledger.invoices && OwnInvoice(o)(i) == 1
    ensures InvoiceError(b.ledger, o).Some?
  {
    var active := ActiveInvoices(b.ledger, o);
    assert i in active;
    var k :| 0 <= k < |active| && active[k] == i;
    SumIntElement(active, k, InvoiceTotal());
  }

  lemma StepInvoicedOnce(b: Billing, e: Event)
    requires NonNegative(b) && InvoicedOnce(b)
    ensures InvoicedOnce(Step(b, e))
  {
    var s := Step(b, e);
    forall o | o in b.ledger.orders
      ensures SumInt(s.ledger.invoices, OwnInvoice(o)) <= 1
      ensures forall i :: i in s.ledger.invoices && OwnInvoice(o)(i) == 1 ==> i.total == b.ledger.orders[o].total
    {
      OwnCountStep(b, e, o);
    }
    StepNonNegative(b, e);
  }

  lemma OwnCountStep(b: Billing, e: Event, o: int)
    requires NonNegative(b) && InvoicedOnce(b) && o in b.ledger.orders
    ensures var invs := Step(b, e).ledger.invoices;
            && SumInt(invs, OwnInvoice(o)) <= 1
            && forall i :: i in invs && OwnInvoice(o)(i) == 1 ==> i.total == b.ledger.orders[o].total
  {
    var (before, after) := (b.ledger.invoices, Step(b, e).ledger.invoices);
    match e
    case PaymentMade(id, amount) =>
      if PaymentError(b.ledger, id, amount).None? {
        var k := id - FIRST_INVOICE_ID;
        SumIntUpdate(before, k, after[k], OwnInvoice(o));
        forall i | i in after && OwnInvoice(o)(i) == 1 ensures i.total == b.ledger.orders[o].total {
          var j :| 0 <= j < |after| && after[j] == i;
          assert before[j] in before && OwnInvoice(o)(before[j]) == 1 && before[j].total == i.total;
        }
      }
    case _ =>
      if after != before {
        var i := after[|before|];
        SumIntAppend(before, i, OwnInvoice(o));
        if OwnInvoice(o)(i) == 1 && SumInt(before, OwnInvoice(o)) >= 1 {
          var j := SomeOwn(before, o);
          OwnInvoiceBlocks(b, o, j);
        }
      }
  }

  lemma {:induction false} SomeOwn(invs: seq<Invoice>, o: int) returns (i: Invoice)
    requires SumInt(invs, OwnInvoice(o)) >= 1
    ensures i in invs && OwnInvoice(o)(i) == 1
  {
    if OwnInvoice(o)(invs[0]) == 1 {
      i := invs[0];
    } else {
      i := SomeOwn(invs[1..], o);
    }
  }

  /** Over any run no order gets two invoices of its own total, whatever renewals, refunds and payments come between. */
  lemma {:induction false} NoDoubleInvoicing(b: Billing, events: seq<Event>)
    requires Fresh(b) && NonNegative(b)
    ensures InvoicedOnce(Run(b, events))
    decreases |events|
  {
    if events != [] {
      NoDoubleInvoicing(b, events[..|events| - 1]);
      RunNonNegative(b, events[..|events| - 1]);
      StepInvoicedOnce(Run(b, events[..|events| - 1]), events[|events| - 1]);
    }
  }

  // --- n renewals ---

  function Renewals(b: Billing, o: int, n: nat): Billing { if n == 0 then b else TriggerRenewal(Renewals(b, o, n - 1), o) }

  /** The order can be renewed as far as everything but the calendar is concerned. */
  predicate Renewable(b: Billing, o: int) {
    o in b.subs && b.subs[o].mrr >= 0 && (b.subs[o].hasRecurring || b.subs[o].mrr > 0) && IsActive(b, o)
  }

  /** n renewals of a subscription bill it n times and advance its date by n periods, in closed form by BillingCalendar. */
  lemma {:induction false} RenewalsClosedForm(b: Billing, o: int, n: nat)
    requires Renewable(b, o) && RenewalDate(b, o).Some?
    requires Renew(RenewalDate(b, o).value, b.subs[o].interval, n).Some?
    ensures var e := Renewals(b, o, n);
            && e.subs == b.subs && Renewable(e, o)
            && RenewalDate(e, o) == Renew(RenewalDate(b, o).value, b.subs[o].interval, n)
            && e.ledger.payments == b.ledger.payments
            && e.ledger.invoices == b.ledger.invoices
               + seq(n, _ => Invoice(o, OutInvoice, false, RenewalAmount(b.subs[o]), RenewalAmount(b.subs[o]), NotPaid, true))
  {
    if n > 0 {
      RenewalsClosedForm(b, o, n - 1);
      var i := Invoice(o, OutInvoice, false, RenewalAmount(b.subs[o]), RenewalAmount(b.subs[o]), NotPaid, true);
      assert seq(n, _ => i) == seq(n - 1, _ => i) + [i];
    }
  }
}
