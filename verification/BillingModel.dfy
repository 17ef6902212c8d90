/** Invoices, payments and subscription renewals of the standalone billing adapters.
    Money is in cents; an invoice's id is FIRST_INVOICE_ID plus its position. */
module BillingModel {
  import opened Prelude
  import opened Sums
  import opened BillingCalendar

  const FIRST_INVOICE_ID: int := 1001

  datatype OrderState = Draft | Sent | Sale | Done | Cancelled

  datatype Order = Order(state: OrderState, total: int)

  datatype MoveType = OutInvoice | OutRefund

  datatype PaymentState = NotPaid | InPayment | Paid

  datatype Invoice = Invoice(
    orderId: int, moveType: MoveType, cancelled: bool, total: int, residual: int,
    paymentState: PaymentState, recurring: bool)

  /** A recorded payment: the amount that was actually booked on the invoice at that position. */
  datatype Payment = Payment(invoice: nat, orderId: int, amount: int)

  datatype Ledger = Ledger(orders: map<int, Order>, invoices: seq<Invoice>, payments: seq<Payment>)

  datatype Error = ValidationError | NotFoundError | InvalidStateError | DateError

  predicate Confirmed(s: OrderState) { s.Sale? || s.Done? }

  function OfOrder(orderId: int): Invoice -> bool { (i: Invoice) => i.orderId == orderId }

  function InvoicesOf(l: Ledger, orderId: int): seq<Invoice> { Filter(l.invoices, OfOrder(orderId)) }

  function Counted(): Invoice -> bool { (i: Invoice) => !i.cancelled && i.moveType.OutInvoice? }

  function InvoiceTotal(): Invoice -> int { (i: Invoice) => i.total }

  /** Invoices that stand against the order's total. */
  function ActiveInvoices(l: Ledger, orderId: int): seq<Invoice> { Filter(InvoicesOf(l, orderId), Counted()) }

  /** Guards of invoicing an order, including the one against invoicing it twice. */
  function InvoiceError(l: Ledger, orderId: int): Option<Error> {
    if orderId !in l.orders then Some(NotFoundError)
    else
      var order := l.orders[orderId];
      var active := ActiveInvoices(l, orderId);
      if active != [] && order.total > 0 && SumInt(active, InvoiceTotal()) >= order.total then Some(InvalidStateError)
      else if active != [] && order.total == 0 then Some(InvalidStateError)
      else if !Confirmed(order.state) then Some(InvalidStateError)
      else None
  }

  function AddInvoice(l: Ledger, orderId: int, moveType: MoveType, amount: int, recurring: bool): Ledger {
    l.(invoices := l.invoices + [Invoice(orderId, moveType, false, amount, amount, NotPaid, recurring)])
  }

  function CreateInvoice(l: Ledger, orderId: int, moveType: MoveType): Ledger {
    if InvoiceError(l, orderId).Some? then l else AddInvoice(l, orderId, moveType, l.orders[orderId].total, false)
  }

  function PaymentError(l: Ledger, id: int, amount: Option<int>): Option<Error> {
    if amount.Some? && amount.value < 0 then Some(ValidationError)
    else if !(0 <= id - FIRST_INVOICE_ID < |l.invoices|) then Some(NotFoundError)
    else if l.invoices[id - FIRST_INVOICE_ID].cancelled then Some(InvalidStateError)
    else None
  }

  /** A payment books at most the residual; no amount means all of it. */
  function Booked(residual: int, amount: Option<int>): int {
    if amount.None? || amount.value > residual then residual else amount.value
  }

  function RecordPayment(l: Ledger, id: int, amount: Option<int>): Ledger {
    if PaymentError(l, id, amount).Some? then l
    else
      var k := id - FIRST_INVOICE_ID;
      var pay := Booked(l.invoices[k].residual, amount);
      var left := Max(0, l.invoices[k].residual - pay);
      l.(invoices := l.invoices[k := l.invoices[k].(residual := left, paymentState := if left <= 0 then Paid else InPayment)],
         payments := l.payments + [Payment(k, l.invoices[k].orderId, pay)])
  }

  // --- standing of an order ---

  datatype Standing = Standing(isPaid: bool, amountPaid: int, amountDue: int, state: PaymentState, count: nat)

  function NotCancelled(): Invoice -> bool { (i: Invoice) => !i.cancelled }

  function SignedTotal(): Invoice -> int { (i: Invoice) => if i.moveType.OutRefund? then -i.total else i.total }

  function SignedResidual(): Invoice -> int { (i: Invoice) => if i.moveType.OutRefund? then -i.residual else i.residual }

  /** The standing that invoices give an order, none of them cancelled. */
  function StandingOver(valid: seq<Invoice>): Standing {
    var invoiced := SumInt(valid, SignedTotal());
    var due := Max(0, SumInt(valid, SignedResidual()));
    var paid := Max(0, invoiced - due);
    var isPaid := due <= 0 && (invoiced > 0 || exists i :: i in valid && i.total == 0);
    Standing(isPaid, paid, due,
             if isPaid then Paid
             else if (exists i :: i in valid && i.paymentState.InPayment?) || paid > 0 then InPayment
             else NotPaid,
             |valid|)
  }

  function StandingOf(l: Ledger, orderId: int): Standing
    requires orderId in l.orders
  {
    var all := InvoicesOf(l, orderId);
    var valid := Filter(all, NotCancelled());
    if valid == [] then Standing(false, 0, l.orders[orderId].total, NotPaid, |all|) else StandingOver(valid)
  }

  // --- subscriptions ---

  /** A recurring order as parsed: its monthly and yearly revenue, billing interval and order date. */
  datatype Subscription = Subscription(
    mrr: int, arr: int, interval: Interval, hasRecurring: bool, state: OrderState, orderDate: Date)

  datatype Meta = Meta(renewalDate: Date, active: bool)

  datatype Billing = Billing(ledger: Ledger, subs: map<int, Subscription>, meta: map<int, Meta>)

  predicate IsActive(b: Billing, o: int)
    requires o in b.subs
  {
    if o in b.meta then b.meta[o].active else Confirmed(b.subs[o].state) && b.subs[o].hasRecurring
  }

  /** The next billing date: as stored, or one period after the order date. */
  function RenewalDate(b: Billing, o: int): Option<Date>
    requires o in b.subs
  {
    if o in b.meta then Some(b.meta[o].renewalDate) else AddBillingPeriod(b.subs[o].orderDate, b.subs[o].interval)
  }

  function RenewalError(b: Billing, o: int): Option<Error> {
    if o !in b.subs then Some(NotFoundError)
    else if RenewalDate(b, o).None? then Some(DateError)
    else if !b.subs[o].hasRecurring && b.subs[o].mrr <= 0 then Some(ValidationError)
    else if b.subs[o].mrr < 0 then Some(ValidationError)
    else if !IsActive(b, o) then Some(InvalidStateError)
    else if AddBillingPeriod(RenewalDate(b, o).value, b.subs[o].interval).None? then Some(DateError)
    else None
  }

  function RenewalAmount(s: Subscription): int { if s.interval.Month? then s.mrr else s.arr }

  function TriggerRenewal(b: Billing, o: int): Billing {
    if RenewalError(b, o).Some? then b
    else
      var next := AddBillingPeriod(RenewalDate(b, o).value, b.subs[o].interval).value;
      b.(ledger := AddInvoice(b.ledger, o, OutInvoice, RenewalAmount(b.subs[o]), true), meta := b.meta[o := Meta(next, true)])
  }
}
