/** src/components/PublicInvoice.tsx: the customer-facing invoice page,
    its payment flow and its due-date indicators. */
module PublicInvoice {
  import opened Wrappers
  import opened Model
  import opened Seqs
  import opened Store
  import opened Storage
  import InvoiceList

  // ------------------------------------------------------ payment outcome

  /** One stored invoice after the simulated payment: paid and stamped on
      success, failed with its `paidAt` left alone otherwise. */
  function Settled(inv: Invoice, success: bool, now: Time): (r: Invoice)
    ensures success ==> r.status == Paid && r.paidAt == Some(now)
    ensures !success ==> r.status == Failed && r.paidAt == inv.paidAt
    ensures r.(status := inv.status, paidAt := inv.paidAt) == inv
  {
    if success then inv.(status := Paid, paidAt := Some(now)) else inv.(status := Failed)
  }

  /** The `invoices.map(...)` written back after the payment: the invoices
      with the paid invoice's id are settled, every other one is kept. */
  function SettleMatching(invs: seq<Invoice>, id: string, success: bool, now: Time): (r: seq<Invoice>)
    ensures |r| == |invs|
    ensures forall i :: 0 <= i < |r| ==> r[i].id == invs[i].id
    ensures forall i :: 0 <= i < |r| && invs[i].id != id ==> r[i] == invs[i]
    ensures forall i :: 0 <= i < |r| && invs[i].id == id ==> r[i] == Settled(invs[i], success, now)
  {
    seq(|invs|, i requires 0 <= i < |invs| => if invs[i].id == id then Settled(invs[i], success, now) else invs[i])
  }

  /** A successful payment leaves every written invoice satisfying the
      paid/`paidAt` invariant it satisfied before, and the paid one
      satisfying it outright; a failed payment keeps it for an invoice that
      had never been paid. */
  lemma SettleKeepsPaidAtInvariant(invs: seq<Invoice>, id: string, success: bool, now: Time)
    requires forall i :: 0 <= i < |invs| && invs[i].id == id ==> invs[i].paidAt.None? || success
    ensures forall i :: 0 <= i < |invs| && PaidAtMatchesStatus(invs[i]) ==>
              PaidAtMatchesStatus(SettleMatching(invs, id, success, now)[i])
    ensures success ==> forall i :: 0 <= i < |invs| && invs[i].id == id ==>
              PaidAtMatchesStatus(SettleMatching(invs, id, success, now)[i])
  {
  }

  /** Reporting the same outcome twice writes what reporting it once wrote. */
  lemma SettleIdempotent(invs: seq<Invoice>, id: string, success: bool, now: Time)
    ensures SettleMatching(SettleMatching(invs, id, success, now), id, success, now) ==
            SettleMatching(invs, id, success, now)
  {
    var once := SettleMatching(invs, id, success, now);
    var twice := SettleMatching(once, id, success, now);
    assert forall i :: 0 <= i < |twice| ==> twice[i] == once[i];
  }

  // ------------------------------------------------------------ due dates

  /** `isOverdue(dueDate)` at clock reading `now`. */
  function IsOverdue(dueDate: Option<Time>, now: Time): (r: bool)
    ensures r <==> dueDate.Some? && now > dueDate.value
  {
    match dueDate
    case None => false
    case Some(due) => now > due
  }

  /** `getDaysUntilDue(dueDate)`: whole days left, rounded up; null without
      a due date. */
  function DaysUntilDue(dueDate: Option<Time>, now: Time): (r: Option<int>)
    ensures r.None? <==> dueDate.None?
    ensures r.Some? ==> (r.value - 1) * DayMs < dueDate.value - now <= r.value * DayMs
  {
    match dueDate
    case None => None
    case Some(due) => Some(CeilDiv(due - now, DayMs))
  }

  /** `Math.ceil(a / b)` for a positive divisor. */
  function CeilDiv(a: int, b: int): (q: int)
    requires b > 0
    ensures (q - 1) * b < a <= q * b
  {
    -((-a) / b)
  }

  /** The status banner's label. */
  datatype StatusLabel = PaidLabel | PaymentFailed | OverdueLabel | DueSoon | PendingPayment

  function LabelOf(status: Status, dueDate: Option<Time>, now: Time): StatusLabel {
    var days := DaysUntilDue(dueDate, now);
    if status == Paid then PaidLabel
    else if status == Failed then PaymentFailed
    else if IsOverdue(dueDate, now) then OverdueLabel
    else if days.Some? && days.value <= 7 then DueSoon
    else PendingPayment
  }

  /** PAID > PAYMENT FAILED > OVERDUE > DUE SOON > PENDING PAYMENT, where
      due soon means due at most seven days from now. */
  lemma LabelPriority(status: Status, dueDate: Option<Time>, now: Time)
    ensures LabelOf(status, dueDate, now) == PaidLabel <==> status == Paid
    ensures LabelOf(status, dueDate, now) == PaymentFailed <==> status == Failed
    ensures LabelOf(status, dueDate, now) == OverdueLabel <==>
              status != Paid && status != Failed && dueDate.Some? && now > dueDate.value
    ensures LabelOf(status, dueDate, now) == DueSoon <==>
              status != Paid && status != Failed && dueDate.Some? &&
              now <= dueDate.value <= now + 7 * DayMs
  {
    if dueDate.Some? && now <= dueDate.value {
      var d := DaysUntilDue(dueDate, now).value;
      if d <= 7 {
        assert d * DayMs <= 7 * DayMs;
      } else {
        assert (d - 1) * DayMs >= 7 * DayMs;
      }
    }
  }

  /** The guard of `handlePaymentClick`: an invoice is loaded and it is not
      paid. */
  predicate ClickOpensModal(invoice: Option<Invoice>) {
    invoice.Some? && invoice.value.status != Paid
  }

  /** The pay button's visibility. */
  predicate ShowPayButton(status: Status) {
    status == Unpaid || status == Failed
  }

  /** `getPaymentMethodLabel` of this page: the card method reads
      "Credit/Debit Card"; an unknown method shows as itself. */
  function PublicMethodLabel(m: string): (text: string)
    ensures m == "stripe" ==> text == "Credit/Debit Card"
    ensures m == "paypal" ==> text == "PayPal"
    ensures m == "bank-transfer" ==> text == "Bank Transfer"
    ensures m != "stripe" && m != "paypal" && m != "bank-transfer" ==> text == m
  {
    if m == "stripe" then "Credit/Debit Card"
    else if m == "paypal" then "PayPal"
    else if m == "bank-transfer" then "Bank Transfer"
    else m
  }

  /** The customer page and the invoice list label payment methods alike
      except where their tables differ: the card method, which the list calls
      "Stripe", and the two methods only the list knows, which this page
      shows as their raw strings. A method either table knows never shows as
      its raw string on the page that knows it. */
  lemma PublicLabelAgreesWithList(m: string)
    ensures m != "stripe" && m != "zelle" && m != "wire" ==>
              PublicMethodLabel(m) == InvoiceList.PaymentMethodLabel(m)
    ensures PublicMethodLabel("stripe") != InvoiceList.PaymentMethodLabel("stripe")
    ensures m == "zelle" || m == "wire" ==>
              PublicMethodLabel(m) == m && InvoiceList.PaymentMethodLabel(m) != m
    ensures m == "stripe" || m == "paypal" || m == "bank-transfer" ==>
              PublicMethodLabel(m) != m && PublicMethodLabel(m) != ""
  {
    InvoiceList.MethodLabelFallback(m);
  }

  // ----------------------------------------------------------------- page

  /** The page's state. `paymentResult` is `Some(true)` for 'success',
      `Some(false)` for 'failed'. */
  class Page {
    var invoice: Option<Invoice>
    var showPaymentModal: bool
    var paymentResult: Option<bool>
    var showNotification: bool
    var isProcessing: bool

    constructor ()
      ensures invoice == None && !showPaymentModal && paymentResult == None
      ensures !showNotification && !isProcessing
    {
      invoice := None;
      showPaymentModal := false;
      paymentResult := None;
      showNotification := false;
      isProcessing := false;
    }

    /** The lookup effect for the route parameter `id`: the first stored
        invoice with exactly that id; no match leaves the not-found view. */
    method Mount(st: LocalStore, id: string)
      modifies this`invoice
      ensures var found := Find(LoadInvoices(st.savedInvoices), InvoiceIdIs(id));
              invoice == if id != "" && found.Some? then found else old(invoice)
    {
      if id != "" {
        var found := Find(LoadInvoices(st.savedInvoices), InvoiceIdIs(id));
        if found.Some? {
          invoice := found;
        }
      }
    }

    /** `handlePaymentClick`: the modal opens for an invoice that is not paid. */
    method HandlePaymentClick()
      modifies this`showPaymentModal
      ensures showPaymentModal == if ClickOpensModal(invoice) then true else old(showPaymentModal)
    {
      if invoice.None? || invoice.value.status == Paid {
        return;
      }
      showPaymentModal := true;
    }

    /** The synchronous part of `handlePaymentSubmit`; the form data is not
        used. */
    method HandlePaymentSubmit()
      modifies this`isProcessing, this`showPaymentModal
      ensures invoice.Some? ==> isProcessing && !showPaymentModal
      ensures invoice.None? ==> isProcessing == old(isProcessing) && showPaymentModal == old(showPaymentModal)
    {
      if invoice.None? {
        return;
      }
      isProcessing := true;
      showPaymentModal := false;
    }

    /** The timer callback of `handlePaymentSubmit` with the simulated
        outcome `success` (the `Math.random() > 0.1` draw) at clock reading
        `now`: the stored invoices with this id are settled and saved, and
        the page's copy is settled the same way. */
    method CompletePayment(st: LocalStore, success: bool, now: Time)
      requires invoice.Some?
      modifies this, st`savedInvoices
      ensures st.savedInvoices == Some(SettleMatching(LoadInvoices(old(st.savedInvoices)), old(invoice).value.id, success, now))
      ensures invoice == Some(Settled(old(invoice).value, success, now))
      ensures paymentResult == Some(success) && !isProcessing && showNotification
      ensures showPaymentModal == old(showPaymentModal)
    {
      var id := invoice.value.id;
      var invoices := LoadInvoices(st.savedInvoices);
      SaveInvoices(st, SettleMatching(invoices, id, success, now));
      invoice := Some(Settled(invoice.value, success, now));
      paymentResult := Some(success);
      isProcessing := false;
      showNotification := true;
    }

    /** `closeNotification`, and the failure notice's seven-second timer. */
    method CloseNotification()
      modifies this`showNotification, this`paymentResult
      ensures !showNotification && paymentResult == None
    {
      showNotification := false;
      paymentResult := None;
    }
  }

  /** A click on the pay button of a loaded invoice always opens the payment
      modal; a paid invoice shows no button and would open none; a cancelled
      one shows no button although its click would pass the guard. */
  lemma PayButtonOpensModal(inv: Invoice)
    ensures ShowPayButton(inv.status) ==> ClickOpensModal(Some(inv))
    ensures inv.status == Paid ==> !ShowPayButton(inv.status) && !ClickOpensModal(Some(inv))
    ensures inv.status == Cancelled ==> !ShowPayButton(inv.status) && ClickOpensModal(Some(inv))
  {
  }
}
