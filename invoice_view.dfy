/** src/components/InvoiceView.tsx: the owner's view of one invoice, with
    the Mark-as-Paid action and the public payment link. */
module InvoiceView {
  import opened Wrappers
  import opened Model
  import opened Strings
  import opened Seqs
  import opened Store
  import opened Storage
  import PublicInvoice

  /** `getStatusBadge(status)`'s label; `None` for `cancelled`, which has
      no entry in the table (the render reads a field of `undefined`). */
  function BadgeLabel(status: Status): (r: Option<string>)
    ensures r.None? <==> status == Cancelled
    ensures status == Paid ==> r == Some("Paid")
    ensures status == Unpaid ==> r == Some("Unpaid")
    ensures status == Failed ==> r == Some("Failed")
  {
    match status
    case Paid => Some("Paid")
    case Unpaid => Some("Unpaid")
    case Failed => Some("Failed")
    case Cancelled => None
  }

  /** Each label is the stored status name with its first letter capitalised. */
  lemma BadgeLabelCapitalises(status: Status)
    requires status != Cancelled
    ensures var name := StatusName(status);
            var text := BadgeLabel(status).value;
            |text| == |name| && text[0] == UpperChar(name[0]) && text[1..] == name[1..]
  {
  }

  /** The payment-method line: the first character upper-cased and the
      first `-` of the rest turned into a space. */
  function MethodLabel(m: string): (r: string)
    ensures |r| == |m|
    ensures m != "" ==> r[0] == UpperChar(m[0]) && r[1..] == ReplaceFirst(m[1..], '-', ' ')
  {
    if m == "" then "" else [UpperChar(m[0])] + ReplaceFirst(m[1..], '-', ' ')
  }

  /** Mark-as-Paid is offered for unpaid invoices only, not failed ones. */
  predicate ShowMarkAsPaid(status: Status) {
    status == Unpaid
  }

  /** The view's state. */
  class View {
    var invoice: Option<Invoice>
    var copied: bool

    constructor ()
      ensures invoice == None && !copied
    {
      invoice := None;
      copied := false;
    }

    /** The lookup effect, the same exact-id lookup as the public page. */
    method Mount(st: LocalStore, id: string)
      modifies this`invoice
      ensures var found := Find(LoadInvoices(st.savedInvoices), InvoiceIdIs(id));
              invoice == if id != "" && found.Some? then found else old(invoice)
    {
      if id != "" {
        var found := Find(LoadInvoices(st.savedInvoices), InvoiceIdIs(id));
        if found.Some? {
          invoice := found;
        }
      }
    }

    /** `markAsPaid` at clock reading `now`: every stored invoice with this
        id becomes paid and stamped, the rest are written back unchanged,
        and the view's copy is updated the same way. */
    method MarkAsPaid(st: LocalStore, now: Time)
      modifies this`invoice, st`savedInvoices
      ensures old(invoice).None? ==> invoice == old(invoice) && st.savedInvoices == old(st.savedInvoices)
      ensures old(invoice).Some? ==>
                st.savedInvoices == Some(PublicInvoice.SettleMatching(LoadInvoices(old(st.savedInvoices)), old(invoice).value.id, true, now)) &&
                invoice == Some(old(invoice).value.(status := Paid, paidAt := Some(now)))
    {
      if invoice.Some? {
        var invoices := LoadInvoices(st.savedInvoices);
        SaveInvoices(st, PublicInvoice.SettleMatching(invoices, invoice.value.id, true, now));
        invoice := Some(invoice.value.(status := Paid, paidAt := Some(now)));
      }
    }

    /** The link shown and copied: built from the invoice id under `origin`. */
    function Link(origin: string): (link: string)
      requires invoice.Some?
      reads this
      ensures LinkToken(origin, link) == Some(invoice.value.id)
    {
      PaymentLink(origin, invoice.value.id)
    }
  }

  /** Marking paid writes every invoice with the id as paid at `now` and
      leaves every other stored invoice exactly as loaded. */
  lemma MarkAsPaidFacts(invs: seq<Invoice>, id: string, now: Time)
    ensures var r := PublicInvoice.SettleMatching(invs, id, true, now);
            |r| == |invs| &&
            (forall i :: 0 <= i < |r| && invs[i].id == id ==> r[i].status == Paid && r[i].paidAt == Some(now)) &&
            (forall i :: 0 <= i < |r| && invs[i].id != id ==> r[i] == invs[i])
  {
  }

  /** The owner's Mark-as-Paid button is shown only where the customer page
      also offers to pay; after marking, neither is offered for the view's
      copy. A failed invoice is the one status where they differ: the
      customer may retry, the owner is not offered the button. */
  lemma MarkAsPaidButtons(inv: Invoice, now: Time)
    ensures ShowMarkAsPaid(inv.status) ==> PublicInvoice.ShowPayButton(inv.status)
    ensures var marked := inv.(status := Paid, paidAt := Some(now));
            !ShowMarkAsPaid(marked.status) && !PublicInvoice.ShowPayButton(marked.status)
    ensures inv.status == Failed ==> !ShowMarkAsPaid(inv.status) && PublicInvoice.ShowPayButton(inv.status)
  {
  }

  /** Following the view's link opens the public page on the same invoice:
      the token in the link is the id, and the public lookup by that id
      finds the first stored invoice carrying it. */
  lemma LinkOpensSameInvoice(origin: string, invs: seq<Invoice>, k: nat)
    requires k < |invs| && invs[k].id != ""
    requires forall j :: 0 <= j < k ==> invs[j].id != invs[k].id
    ensures var token := LinkToken(origin, PaymentLink(origin, invs[k].id)).value;
            Find(invs, InvoiceIdIs(token)) == Some(invs[k])
  {
    var token := LinkToken(origin, PaymentLink(origin, invs[k].id)).value;
    assert token == invs[k].id;
    assert InvoiceIdIs(token)(invs[k]);
    var idx := FindIndex(invs, InvoiceIdIs(token));
    assert idx == k;
  }
}
