/** src/services/invoiceService.ts: the invoice store kept under the
    `invoices` key, looked up against the clients under the `clients` key. */
module InvoiceService {
  import opened Wrappers
  import opened Model
  import opened Seqs
  import opened Store
  import opened Storage
  import opened InvoiceForm

  /** The amounts `createInvoice` computes, written as the service writes
      them. */
  function ServiceAmounts(items: seq<InvoiceItem>, taxRate: real, kind: DiscountType, value: real): Totals {
    var subtotal := Subtotal(items);
    var discount := if kind == Percentage then (subtotal * value) / 100.0 else value;
    var afterDiscount := subtotal - discount;
    var tax := (afterDiscount * taxRate) / 100.0;
    Totals(subtotal, discount, tax, afterDiscount + tax)
  }

  /** The service and the form compute the same amounts from the same inputs. */
  lemma AmountsAgree(items: seq<InvoiceItem>, taxRate: real, kind: DiscountType, value: real)
    ensures ServiceAmounts(items, taxRate, kind, value) == FormTotals(items, taxRate, kind, value)
  {
    SubtotalIsSum(items);
  }

  /** The argument of `createInvoice`. */
  datatype InvoiceData = InvoiceData(
    clientId: string,
    items: seq<InvoiceItem>,
    taxRate: real,
    discountType: DiscountType,
    discountValue: real,
    paymentMethod: string,
    notes: Option<string>,
    dueDate: Option<Time>)

  /** The invoice `createInvoice` stores for a client that was found. */
  function CreatedInvoice(id: string, client: Client, data: InvoiceData, now: Time): (inv: Invoice)
    ensures inv.id == id && inv.clientId == data.clientId && inv.client == Some(client)
    ensures inv.items == data.items
    ensures var t := FormTotals(data.items, data.taxRate, data.discountType, data.discountValue);
            inv.subtotal == t.subtotal && inv.discount == t.discount && inv.tax == t.tax && inv.total == t.total
    ensures inv.status == Unpaid && inv.paidAt == None && PaidAtMatchesStatus(inv)
    ensures inv.notes == data.notes && inv.dueDate == data.dueDate && inv.createdAt == now
  {
    var t := ServiceAmounts(data.items, data.taxRate, data.discountType, data.discountValue);
    AmountsAgree(data.items, data.taxRate, data.discountType, data.discountValue);
    Invoice(id, data.clientId, Some(client), data.items, t.subtotal, t.tax, data.taxRate, t.discount,
            data.discountType, data.discountValue, t.total, Unpaid, data.paymentMethod, data.notes,
            now, data.dueDate, None, None, None)
  }

  const ClientNotFound: string := "Client not found"
  const InvoiceNotFound: string := "Invoice not found"

  /** `createInvoice(data)` at clock reading `now` on calendar day `day`. An
      unknown client is refused before anything is written; otherwise the new
      invoice goes in front of the stored ones. */
  method CreateInvoice(st: LocalStore, data: InvoiceData, now: Time, day: CalendarDay, random: real)
    returns (r: Result<Invoice>)
    requires ValidDay(day) && 0.0 <= random < 1.0
    modifies st`invoices
    ensures Find(st.clients, ClientIdIs(data.clientId)).None? ==>
              r == Err(ClientNotFound) && st.invoices == old(st.invoices)
    ensures Find(st.clients, ClientIdIs(data.clientId)).Some? ==>
              r == Ok(CreatedInvoice(GenerateInvoiceId(day, random), Find(st.clients, ClientIdIs(data.clientId)).value, data, now)) &&
              st.invoices == [r.value] + old(st.invoices)
  {
    var id := GenerateInvoiceId(day, random);
    var client := Find(st.clients, ClientIdIs(data.clientId));
    if client.None? {
      return Err(ClientNotFound);
    }
    var inv := CreatedInvoice(id, client.value, data, now);
    st.invoices := [inv] + st.invoices;
    r := Ok(inv);
  }

  /** An invoice as the read operations return it: its client looked up
      again by `clientId`, absent when no client has that id. */
  function WithClient(inv: Invoice, clients: seq<Client>): (r: Invoice)
    ensures r.client == Find(clients, ClientIdIs(inv.clientId))
    ensures r.(client := inv.client) == inv
  {
    inv.(client := Find(clients, ClientIdIs(inv.clientId)))
  }

  /** `getInvoiceById(id)` over the stored invoices and clients. */
  function GetInvoiceById(invoices: seq<Invoice>, clients: seq<Client>, id: string): (r: Option<Invoice>)
    ensures r.None? <==> forall i :: 0 <= i < |invoices| ==> invoices[i].id != id
    ensures r.Some? ==> exists i :: 0 <= i < |invoices| && invoices[i].id == id &&
                          (forall j :: 0 <= j < i ==> invoices[j].id != id) &&
                          r.value == WithClient(invoices[i], clients)
  {
    match Find(invoices, InvoiceIdIs(id))
    case None => None
    case Some(inv) => Some(WithClient(inv, clients))
  }

  /** `inv => inv.id === token || inv.public_token === token`. */
  function MatchesToken(token: string): Invoice -> bool {
    (inv: Invoice) => inv.id == token || inv.publicToken == Some(token)
  }

  /** `getInvoiceByToken(token)`: the first invoice whose id or stored token
      is `token`, returned with its id as its token. */
  function GetInvoiceByToken(invoices: seq<Invoice>, clients: seq<Client>, token: string): (r: Option<Invoice>)
    ensures r.None? <==> forall i :: 0 <= i < |invoices| ==>
                           invoices[i].id != token && invoices[i].publicToken != Some(token)
    ensures r.Some? ==> r.value.publicToken == Some(r.value.id)
    ensures r.Some? ==> exists i :: 0 <= i < |invoices| &&
                          (invoices[i].id == token || invoices[i].publicToken == Some(token)) &&
                          (forall j :: 0 <= j < i ==> invoices[j].id != token && invoices[j].publicToken != Some(token)) &&
                          r.value == WithClient(invoices[i], clients).(publicToken := Some(invoices[i].id))
  {
    match Find(invoices, MatchesToken(token))
    case None => None
    case Some(inv) => Some(WithClient(inv, clients).(publicToken := Some(inv.id)))
  }

  /** A token equal to an invoice id finds that invoice when it is the first
      match; every invoice is reachable with its own id as token unless an
      earlier invoice claims that id as its token. */
  lemma TokenLookupByOwnId(invoices: seq<Invoice>, clients: seq<Client>, i: nat)
    requires i < |invoices|
    requires forall j :: 0 <= j < i ==> invoices[j].id != invoices[i].id && invoices[j].publicToken != Some(invoices[i].id)
    ensures GetInvoiceByToken(invoices, clients, invoices[i].id)
            == Some(WithClient(invoices[i], clients).(publicToken := Some(invoices[i].id)))
  {
    var k := FindIndex(invoices, MatchesToken(invoices[i].id));
    assert MatchesToken(invoices[i].id)(invoices[i]);
    assert k == i;
  }

  /** The client shown for an invoice whose client is gone. */
  function UnknownClient(now: Time): (c: Client)
    ensures c.id == "unknown" && c.name == "Unknown Client"
    ensures c.email == "unknown@example.com" && c.address == "Unknown Address" && c.company == None
    ensures c.createdAt == now
  {
    Client("unknown", "Unknown Client", None, "unknown@example.com", "Unknown Address", now)
  }

  /** `getUserInvoices()` at clock reading `now`: every stored invoice, in
      order, with its client looked up or the placeholder client. */
  function GetUserInvoices(invoices: seq<Invoice>, clients: seq<Client>, now: Time): (r: seq<Invoice>)
    ensures |r| == |invoices|
    ensures forall i :: 0 <= i < |r| ==>
              r[i].(client := invoices[i].client) == invoices[i] &&
              r[i].client == Some(Find(clients, ClientIdIs(invoices[i].clientId)).GetOr(UnknownClient(now)))
  {
    seq(|invoices|, i requires 0 <= i < |invoices| =>
      invoices[i].(client := Some(Find(clients, ClientIdIs(invoices[i].clientId)).GetOr(UnknownClient(now)))))
  }

  /** The status write of `updateInvoiceStatus` at clock reading `now`:
      `paid` stamps `paidAt`, `unpaid` clears it, `failed` and `cancelled`
      leave it as it was. */
  function WithStatus(inv: Invoice, status: Status, now: Time): (r: Invoice)
    ensures r.status == status && r.updatedAt == Some(now)
    ensures status == Paid ==> r.paidAt == Some(now)
    ensures status == Unpaid ==> r.paidAt == None
    ensures status == Failed || status == Cancelled ==> r.paidAt == inv.paidAt
    ensures r.(status := inv.status, updatedAt := inv.updatedAt, paidAt := inv.paidAt) == inv
  {
    var u := inv.(status := status, updatedAt := Some(now));
    if status == Paid then u.(paidAt := Some(now))
    else if status == Unpaid then u.(paidAt := None)
    else u
  }

  /** Marking paid or unpaid establishes the `paidAt` invariant; failing or
      cancelling keeps it only when the invoice was not paid. */
  lemma StatusWritesAndInvariant(inv: Invoice, status: Status, now: Time)
    ensures status == Paid || status == Unpaid ==> PaidAtMatchesStatus(WithStatus(inv, status, now))
    ensures (status == Failed || status == Cancelled) && PaidAtMatchesStatus(inv) ==>
              (PaidAtMatchesStatus(WithStatus(inv, status, now)) <==> inv.status != Paid)
  {
  }

  /** Writing the same status twice at the same time is writing it once. */
  lemma WithStatusIdempotent(inv: Invoice, status: Status, now: Time)
    ensures WithStatus(WithStatus(inv, status, now), status, now) == WithStatus(inv, status, now)
  {
  }

  /** `updateInvoiceStatus(id, status)` at clock reading `now`: an unknown
      id is refused and nothing is written; otherwise only the first invoice
      with that id changes, in place. */
  method UpdateInvoiceStatus(st: LocalStore, id: string, status: Status, now: Time) returns (r: Result<()>)
    modifies st`invoices
    ensures r.Err? <==> forall i :: 0 <= i < |old(st.invoices)| ==> old(st.invoices)[i].id != id
    ensures r.Err? ==> r.message == InvoiceNotFound && st.invoices == old(st.invoices)
    ensures r.Ok? ==>
              var k := FindIndex(old(st.invoices), InvoiceIdIs(id));
              0 <= k < |old(st.invoices)| &&
              st.invoices == old(st.invoices)[k := WithStatus(old(st.invoices)[k], status, now)]
  {
    var k := FindIndex(st.invoices, InvoiceIdIs(id));
    if k == -1 {
      return Err(InvoiceNotFound);
    }
    st.invoices := st.invoices[k := WithStatus(st.invoices[k], status, now)];
    r := Ok(());
  }

  /** The status update touches the first invoice with the id and no other
      invoice. */
  lemma UpdateTouchesOnlyFirstMatch(invoices: seq<Invoice>, id: string, status: Status, now: Time, i: nat)
    requires i < |invoices|
    requires FindIndex(invoices, InvoiceIdIs(id)) != i
    ensures var k := FindIndex(invoices, InvoiceIdIs(id));
            k >= 0 ==> invoices[k := WithStatus(invoices[k], status, now)][i] == invoices[i]
  {
  }

  /** `deleteInvoice(id)`. */
  method DeleteInvoice(st: LocalStore, id: string)
    modifies st`invoices
    ensures st.invoices == Filter(old(st.invoices), InvoiceIdIsNot(id))
  {
    st.invoices := Filter(st.invoices, InvoiceIdIsNot(id));
  }

  /** Deleting keeps every other invoice, in order, drops every invoice with
      the id, and a second delete changes nothing. */
  lemma DeleteInvoiceFacts(invoices: seq<Invoice>, id: string)
    ensures IsSubsequence(Filter(invoices, InvoiceIdIsNot(id)), invoices)
    ensures forall i :: 0 <= i < |invoices| ==>
              (invoices[i] in Filter(invoices, InvoiceIdIsNot(id)) <==> invoices[i].id != id)
    ensures Filter(Filter(invoices, InvoiceIdIsNot(id)), InvoiceIdIsNot(id)) == Filter(invoices, InvoiceIdIsNot(id))
  {
    FilterIsSubsequence(invoices, InvoiceIdIsNot(id));
    FilterIdempotent(invoices, InvoiceIdIsNot(id));
  }
}
