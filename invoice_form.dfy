/** src/components/InvoiceForm.tsx: the line-item editor, the totals
    formula and the invoice the form submits. */
module InvoiceForm {
  import opened Wrappers
  import opened Model
  import opened Strings
  import opened Seqs
  import opened Store
  import opened Storage

  // ---------------------------------------------------------------- totals

  /** `items.reduce((sum, item) => sum + item.total, 0)`: a left fold. */
  function Subtotal(items: seq<InvoiceItem>): real {
    if items == [] then 0.0 else Subtotal(items[..|items| - 1]) + items[|items| - 1].total
  }

  /** The sum of the line totals, as a reference definition. */
  function SumOfTotals(items: seq<InvoiceItem>): real {
    if items == [] then 0.0 else items[0].total + SumOfTotals(items[1..])
  }

  lemma {:induction false} SumConcat(a: seq<InvoiceItem>, b: seq<InvoiceItem>)
    ensures SumOfTotals(a + b) == SumOfTotals(a) + SumOfTotals(b)
  {
    if a == [] {
      assert a + b == b;
    } else {
      assert (a + b)[1..] == a[1..] + b;
      SumConcat(a[1..], b);
    }
  }

  /** The fold computes the sum of the line totals, and 0 for no items. */
  lemma {:induction false} SubtotalIsSum(items: seq<InvoiceItem>)
    ensures Subtotal(items) == SumOfTotals(items)
  {
    if items != [] {
      var init := items[..|items| - 1];
      SubtotalIsSum(init);
      SumConcat(init, [items[|items| - 1]]);
      assert items == init + [items[|items| - 1]];
    }
  }

  /** The subtotal does not depend on the order of the items. */
  lemma {:induction false} SumPermutation(a: seq<InvoiceItem>, b: seq<InvoiceItem>)
    requires multiset(a) == multiset(b)
    ensures SumOfTotals(a) == SumOfTotals(b)
  {
    if a == [] {
      assert |b| == |multiset(b)| == 0;
    } else {
      PermutationTail(a, b);
      var k :| 0 <= k < |b| && b[k] == a[0] && multiset(a[1..]) == multiset(b[..k] + b[k + 1..]);
      SumPermutation(a[1..], b[..k] + b[k + 1..]);
      RemoveAt(b, k);
    }
  }

  /** Taking out the item at index `k` takes its total out of the sum. */
  lemma {:induction false} RemoveAt(b: seq<InvoiceItem>, k: nat)
    requires k < |b|
    ensures SumOfTotals(b) == b[k].total + SumOfTotals(b[..k] + b[k + 1..])
  {
    if k == 0 {
      assert b[..k] + b[k + 1..] == b[1..];
    } else {
      RemoveAt(b[1..], k - 1);
      assert b[..k] + b[k + 1..] == [b[0]] + (b[1..][..k - 1] + b[1..][k..]);
    }
  }

  /** Splitting the items by any test splits the sum. */
  lemma {:induction false} SumSplits(items: seq<InvoiceItem>, p: InvoiceItem -> bool, q: InvoiceItem -> bool)
    requires forall i :: 0 <= i < |items| ==> q(items[i]) == !p(items[i])
    ensures SumOfTotals(items) == SumOfTotals(Filter(items, p)) + SumOfTotals(Filter(items, q))
  {
    if items != [] {
      SumSplits(items[1..], p, q);
      if p(items[0]) {
        assert Filter(items, p) == [items[0]] + Filter(items[1..], p);
        SumConcat([items[0]], Filter(items[1..], p));
      } else {
        assert Filter(items, q) == [items[0]] + Filter(items[1..], q);
        SumConcat([items[0]], Filter(items[1..], q));
      }
    }
  }

  /** `calculateDiscount(subtotal)`: a percentage of the subtotal, or the
      fixed amount as entered. Neither is capped or clamped. */
  function Discount(subtotal: real, kind: DiscountType, value: real): real {
    if kind == Percentage then subtotal * value / 100.0 else value
  }

  /** `calculateTax(subtotalAfterDiscount)`. */
  function Tax(afterDiscount: real, taxRate: real): real {
    afterDiscount * taxRate / 100.0
  }

  datatype Totals = Totals(subtotal: real, discount: real, tax: real, total: real)

  /** `calculateTotal()` and the amounts shown beside it: tax is charged on
      the amount left after the discount. */
  function FormTotals(items: seq<InvoiceItem>, taxRate: real, kind: DiscountType, value: real): (t: Totals)
    ensures t.subtotal == SumOfTotals(items)
    ensures t.discount == Discount(t.subtotal, kind, value)
    ensures t.tax == Tax(t.subtotal - t.discount, taxRate)
    ensures t.total == t.subtotal - t.discount + t.tax
  {
    SubtotalIsSum(items);
    var subtotal := Subtotal(items);
    var discount := Discount(subtotal, kind, value);
    var afterDiscount := subtotal - discount;
    var tax := Tax(afterDiscount, taxRate);
    Totals(subtotal, discount, tax, afterDiscount + tax)
  }

  /** The total is the amount after the discount, grown by the tax rate. */
  lemma TotalFormula(items: seq<InvoiceItem>, taxRate: real, kind: DiscountType, value: real)
    ensures var t := FormTotals(items, taxRate, kind, value);
            t.total == (t.subtotal - t.discount) * (1.0 + taxRate / 100.0)
  {
  }

  /** A percentage between 0 and 100 of a non-negative subtotal is a discount
      between 0 and the subtotal; with a non-negative rate the total is then
      non-negative. */
  lemma PercentageDiscountBounds(subtotal: real, value: real, taxRate: real)
    requires 0.0 <= subtotal && 0.0 <= value <= 100.0 && 0.0 <= taxRate
    ensures 0.0 <= Discount(subtotal, Percentage, value) <= subtotal
    ensures 0.0 <= subtotal - Discount(subtotal, Percentage, value) +
                   Tax(subtotal - Discount(subtotal, Percentage, value), taxRate)
  {
    var d := Discount(subtotal, Percentage, value);
    MulNonNegative(subtotal, value);
    MulNonNegative(subtotal, 100.0 - value);
    assert d <= subtotal;
    MulNonNegative(subtotal - d, taxRate);
  }

  lemma MulNonNegative(x: real, y: real)
    requires 0.0 <= x && 0.0 <= y
    ensures 0.0 <= x * y
  {
  }

  /** A fixed discount is taken as entered, so a discount larger than the
      subtotal makes the total negative. */
  lemma FixedDiscountNotCapped()
    ensures var items := [InvoiceItem("1", "design", 1.0, 100.0, 100.0)];
            FormTotals(items, 10.0, Fixed, 150.0) == Totals(100.0, 150.0, -5.0, -55.0)
  {
    var items := [InvoiceItem("1", "design", 1.0, 100.0, 100.0)];
    assert SumOfTotals(items) == 100.0;
  }

  // ------------------------------------------------------------ line items

  /** Every line total is its quantity times its unit price. */
  predicate LineTotalsConsistent(items: seq<InvoiceItem>) {
    forall item :: item in items ==> LineTotalOk(item)
  }

  predicate LineTotalOk(item: InvoiceItem) {
    item.total == item.quantity * item.unitPrice
  }

  /** The item `addItem` appends: id from the clock, quantity 1, price 0. */
  function EmptyItem(id: string): (item: InvoiceItem)
    ensures item.quantity == 1.0 && item.unitPrice == 0.0 && item.total == 0.0
    ensures item.id == id && item.description == ""
    ensures item.total == item.quantity * item.unitPrice
  {
    InvoiceItem(id, "", 1.0, 0.0, 0.0)
  }

  /** `item => item.id !== id`. */
  function ItemIdIsNot(id: string): InvoiceItem -> bool {
    (item: InvoiceItem) => item.id != id
  }

  /** `removeItem(id)` on a list: nothing happens to a list of one item;
      otherwise every item with that id goes. */
  function RemoveItemFrom(items: seq<InvoiceItem>, id: string): (r: seq<InvoiceItem>)
    ensures |items| <= 1 ==> r == items
    ensures |items| > 1 ==> IsSubsequence(r, items)
    ensures |items| > 1 ==> forall i :: 0 <= i < |items| ==> (items[i] in r <==> items[i].id != id)
    ensures forall i :: 0 <= i < |r| ==> r[i] in items
  {
    if |items| > 1 then
      FilterIsSubsequence(items, ItemIdIsNot(id));
      Filter(items, ItemIdIsNot(id))
    else items
  }

  /** No two items share an id. */
  predicate DistinctIds(items: seq<InvoiceItem>) {
    forall i, j :: 0 <= i < j < |items| ==> items[i].id != items[j].id
  }

  lemma {:induction false} FilterDistinctIds(items: seq<InvoiceItem>, id: string)
    requires DistinctIds(items)
    ensures |Filter(items, ItemIdIsNot(id))| >= |items| - 1
    ensures (forall i :: 0 <= i < |items| ==> items[i].id != id) ==> Filter(items, ItemIdIsNot(id)) == items
  {
    if items != [] {
      FilterDistinctIds(items[1..], id);
      if items[0].id == id {
        FilterKeepsAll(items[1..], ItemIdIsNot(id));
      }
    }
  }

  /** With distinct ids, removal takes away at most one item, so the list
      never drops below one item. */
  lemma RemoveKeepsOne(items: seq<InvoiceItem>, id: string)
    requires DistinctIds(items) && |items| >= 1
    ensures |RemoveItemFrom(items, id)| >= 1
    ensures |RemoveItemFrom(items, id)| >= |items| - 1
  {
    if |items| > 1 {
      FilterDistinctIds(items, id);
    }
  }

  /** Two items sharing an id (two additions in the same millisecond) are
      removed together, which empties a two-item list. */
  lemma RemoveSharedIdEmpties()
    ensures RemoveItemFrom([EmptyItem("7"), EmptyItem("7")], "7") == []
  {
    var items := [EmptyItem("7"), EmptyItem("7")];
    assert items[1..][1..] == [];
  }

  /** Removal keeps line totals consistent. */
  lemma RemoveKeepsLineTotals(items: seq<InvoiceItem>, id: string)
    requires LineTotalsConsistent(items)
    ensures LineTotalsConsistent(RemoveItemFrom(items, id))
  {
  }

  /** An edit `updateItem(id, field, value)` makes; the form passes a string
      for `description` and numbers for `quantity` and `unitPrice`. */
  datatype ItemEdit =
    | SetId(id: string)
    | SetDescription(description: string)
    | SetQuantity(quantity: real)
    | SetUnitPrice(unitPrice: real)
    | SetTotal(total: real)

  /** The edited item: the field replaced, and the total recomputed only when
      the quantity or the unit price changed. */
  function ApplyEdit(item: InvoiceItem, edit: ItemEdit): (r: InvoiceItem)
    ensures edit.SetQuantity? ==> r == item.(quantity := edit.quantity, total := edit.quantity * item.unitPrice)
    ensures edit.SetUnitPrice? ==> r == item.(unitPrice := edit.unitPrice, total := item.quantity * edit.unitPrice)
    ensures edit.SetDescription? ==> r == item.(description := edit.description)
    ensures edit.SetId? ==> r == item.(id := edit.id)
    ensures edit.SetTotal? ==> r == item.(total := edit.total)
  {
    match edit
    case SetId(v) => item.(id := v)
    case SetDescription(v) => item.(description := v)
    case SetQuantity(v) =>
      var u := item.(quantity := v);
      u.(total := u.quantity * u.unitPrice)
    case SetUnitPrice(v) =>
      var u := item.(unitPrice := v);
      u.(total := u.quantity * u.unitPrice)
    case SetTotal(v) => item.(total := v)
  }

  /** `updateItem(id, field, value)` on a list: the items with that id are
      edited, in place; the rest, the order and the length stay. */
  function UpdateItems(items: seq<InvoiceItem>, id: string, edit: ItemEdit): (r: seq<InvoiceItem>)
    ensures |r| == |items|
    ensures forall i :: 0 <= i < |items| ==>
              r[i] == if items[i].id == id then ApplyEdit(items[i], edit) else items[i]
  {
    seq(|items|, i requires 0 <= i < |items| =>
      if items[i].id == id then ApplyEdit(items[i], edit) else items[i])
  }

  /** Every edit the form makes keeps the line totals consistent; only a
      direct write of `total` can break them. Editing a description leaves
      the total alone. */
  lemma UpdateKeepsLineTotals(items: seq<InvoiceItem>, id: string, edit: ItemEdit)
    requires LineTotalsConsistent(items) && !edit.SetTotal?
    ensures LineTotalsConsistent(UpdateItems(items, id, edit))
    ensures edit.SetDescription? ==>
              forall i :: 0 <= i < |items| ==> UpdateItems(items, id, edit)[i].total == items[i].total
  {
    var r := UpdateItems(items, id, edit);
    forall x | x in r ensures LineTotalOk(x) {
      var i :| 0 <= i < |r| && r[i] == x;
      assert items[i] in items;
    }
  }

  lemma AddKeepsLineTotals(items: seq<InvoiceItem>, id: string)
    requires LineTotalsConsistent(items)
    ensures LineTotalsConsistent(items + [EmptyItem(id)])
  {
  }

  // ------------------------------------------------------------ submission

  /** `item => item.description.trim() !== ''`: the items the invoice keeps. */
  predicate NonBlank(item: InvoiceItem) { !IsBlank(item.description) }

  predicate BlankDescription(item: InvoiceItem) { IsBlank(item.description) }

  /** The new-client fields of the form, as strings. */
  datatype ClientFields = ClientFields(name: string, company: string, email: string, address: string)

  const EmptyClientFields: ClientFields := ClientFields("", "", "", "")

  /** The client `handleSubmit` creates from the form fields. */
  function NewClientOf(fields: ClientFields, id: string, now: Time): (c: Client)
    ensures c.id == id && c.name == fields.name && c.company == Some(fields.company)
    ensures c.email == fields.email && c.address == fields.address && c.createdAt == now
  {
    Client(id, fields.name, Some(fields.company), fields.email, fields.address, now)
  }

  /** `notes.trim() || undefined`. */
  function NotesOf(notes: string): (r: Option<string>)
    ensures r.None? <==> IsBlank(notes)
    ensures r.Some? ==> r.value == Trim(notes) && r.value != ""
  {
    BlankIffTrimEmpty(notes);
    if Trim(notes) == "" then None else Some(Trim(notes))
  }

  const ThirtyDaysMs: int := 30 * DayMs

  /** The invoice `handleSubmit` builds at clock reading `now`. */
  function SubmittedInvoice(id: string, client: Client, items: seq<InvoiceItem>, taxRate: real,
                            kind: DiscountType, value: real, paymentMethod: string, notes: string,
                            now: Time): Invoice
  {
    var t := FormTotals(items, taxRate, kind, value);
    Invoice(id, client.id, Some(client), Filter(items, NonBlank), t.subtotal, t.tax, taxRate,
            t.discount, kind, value, t.total, Unpaid, paymentMethod, NotesOf(notes), now,
            Some(now + ThirtyDaysMs), None, None, None)
  }

  /** The submitted invoice: status `unpaid` with no payment time, only the
      items with a description, the amounts of the whole form, due thirty
      days after `now`. */
  lemma SubmittedInvoiceFields(id: string, client: Client, items: seq<InvoiceItem>, taxRate: real,
                               kind: DiscountType, value: real, paymentMethod: string, notes: string, now: Time)
    ensures var inv := SubmittedInvoice(id, client, items, taxRate, kind, value, paymentMethod, notes, now);
            var t := FormTotals(items, taxRate, kind, value);
            inv.id == id && inv.clientId == client.id && inv.client == Some(client) &&
            inv.items == Filter(items, NonBlank) &&
            inv.subtotal == t.subtotal && inv.discount == t.discount && inv.tax == t.tax && inv.total == t.total &&
            inv.taxRate == taxRate && inv.discountType == kind && inv.discountValue == value &&
            inv.status == Unpaid && PaidAtMatchesStatus(inv) &&
            inv.paymentMethod == paymentMethod && inv.notes == NotesOf(notes) &&
            inv.createdAt == now && inv.dueDate == Some(now + ThirtyDaysMs) &&
            inv.publicToken == None && inv.updatedAt == None
  {
  }

  /** Totals are computed over every item before the blank ones are
      dropped, so the stored subtotal is the sum of the stored items exactly
      when the dropped items total 0. */
  lemma SubmittedSubtotal(id: string, client: Client, items: seq<InvoiceItem>, taxRate: real,
                          kind: DiscountType, value: real, paymentMethod: string, notes: string, now: Time)
    ensures var inv := SubmittedInvoice(id, client, items, taxRate, kind, value, paymentMethod, notes, now);
            inv.subtotal == SumOfTotals(inv.items) <==> SumOfTotals(Filter(items, BlankDescription)) == 0.0
  {
    SumSplits(items, NonBlank, BlankDescription);
  }

  /** The form's state. */
  class Form {
    var clients: seq<Client>
    var selectedClientId: string
    var isNewClient: bool
    var newClient: ClientFields
    var items: seq<InvoiceItem>
    var taxRate: real
    var discountType: DiscountType
    var discountValue: real
    var paymentMethod: string
    var notes: string

    /** The initial state: one blank item with id "1", tax rate 8.5, a 0
        percentage discount, card payment. */
    constructor ()
      ensures clients == [] && selectedClientId == "" && !isNewClient && newClient == EmptyClientFields
      ensures items == [InvoiceItem("1", "", 1.0, 0.0, 0.0)]
      ensures taxRate == 8.5 && discountType == Percentage && discountValue == 0.0
      ensures paymentMethod == "stripe" && notes == ""
    {
      clients := [];
      selectedClientId := "";
      isNewClient := false;
      newClient := EmptyClientFields;
      items := [InvoiceItem("1", "", 1.0, 0.0, 0.0)];
      taxRate := 8.5;
      discountType := Percentage;
      discountValue := 0.0;
      paymentMethod := "stripe";
      notes := "";
    }

    /** The mount effect: the clients come from `loadClients()`. */
    method Mount(st: LocalStore)
      modifies this`clients
      ensures clients == LoadClients(st.savedClients)
    {
      clients := LoadClients(st.savedClients);
    }

    /** `addItem()` at clock reading `now`. */
    method AddItem(now: nat)
      modifies this`items
      ensures items == old(items) + [EmptyItem(NatToString(now))]
    {
      items := items + [EmptyItem(NatToString(now))];
    }

    /** `removeItem(id)`. */
    method RemoveItem(id: string)
      modifies this`items
      ensures items == RemoveItemFrom(old(items), id)
    {
      if |items| > 1 {
        items := Filter(items, ItemIdIsNot(id));
      }
    }

    /** `updateItem(id, field, value)`. */
    method UpdateItem(id: string, edit: ItemEdit)
      modifies this`items
      ensures items == UpdateItems(old(items), id, edit)
    {
      items := UpdateItems(items, id, edit);
    }

    /** The totals the form shows: the subtotal is the sum of the line
        totals, the discount a percentage of it or the fixed amount as
        entered, and the total the amount left after the discount grown by
        the tax rate. */
    function Totals(): (t: Totals)
      reads this
      ensures t.subtotal == SumOfTotals(items)
      ensures discountType == Percentage ==> t.discount == t.subtotal * discountValue / 100.0
      ensures discountType == Fixed ==> t.discount == discountValue
      ensures t.total == (t.subtotal - t.discount) * (1.0 + taxRate / 100.0)
    {
      TotalFormula(items, taxRate, discountType, discountValue);
      FormTotals(items, taxRate, discountType, discountValue)
    }

    /** The client `handleSubmit` uses: a new client is appended to the
        form's clients and saved; an existing one is looked up by the
        selected id. */
    method ChooseClient(st: LocalStore, now: nat, clientRandom: real) returns (client: Option<Client>)
      requires 0.0 <= clientRandom < 1.0
      modifies this`clients, st`savedClients
      ensures isNewClient ==>
                client == Some(NewClientOf(newClient, GenerateClientId(now, clientRandom), now)) &&
                clients == old(clients) + [client.value] && st.savedClients == Some(clients)
      ensures !isNewClient ==>
                client == Find(clients, ClientIdIs(selectedClientId)) &&
                clients == old(clients) && st.savedClients == old(st.savedClients)
    {
      if isNewClient {
        var c := NewClientOf(newClient, GenerateClientId(now, clientRandom), now);
        clients := clients + [c];
        SaveClients(st, clients);
        client := Some(c);
      } else {
        client := Find(clients, ClientIdIs(selectedClientId));
      }
    }

    /** The end of `handleSubmit` once the client is known: the invoice
        with id `id` is built from the form and put in front of the saved
        invoices. */
    method SaveSubmitted(st: LocalStore, id: string, client: Client, now: Time) returns (inv: Invoice)
      modifies st`savedInvoices
      ensures inv == SubmittedInvoice(id, client, items, taxRate, discountType, discountValue,
                                      paymentMethod, notes, now)
      ensures st.savedInvoices == Some([inv] + LoadInvoices(old(st.savedInvoices)))
    {
      inv := SubmittedInvoice(id, client, items, taxRate, discountType, discountValue, paymentMethod, notes, now);
      SaveInvoices(st, [inv] + LoadInvoices(st.savedInvoices));
    }

    /** `handleSubmit` at clock reading `now` on calendar day `day`, with the
        two `Math.random()` draws as parameters. When the selected client is
        missing the handler stops before writing anything; otherwise the
        invoice is put in front of the saved invoices. */
    method HandleSubmit(st: LocalStore, now: nat, day: CalendarDay, invoiceRandom: real, clientRandom: real)
      returns (r: Result<Invoice>)
      requires ValidDay(day) && 0.0 <= invoiceRandom < 1.0 && 0.0 <= clientRandom < 1.0
      modifies this`clients, st`savedClients, st`savedInvoices
      ensures isNewClient ==>
                clients == old(clients) + [NewClientOf(newClient, GenerateClientId(now, clientRandom), now)] &&
                st.savedClients == Some(clients)
      ensures !isNewClient ==> clients == old(clients) && st.savedClients == old(st.savedClients)
      ensures r.Ok? <==> isNewClient || Find(clients, ClientIdIs(selectedClientId)).Some?
      ensures r.Ok? ==>
                var client := if isNewClient then clients[|clients| - 1]
                              else Find(clients, ClientIdIs(selectedClientId)).value;
                r.value == SubmittedInvoice(GenerateInvoiceId(day, invoiceRandom), client, items, taxRate,
                                            discountType, discountValue, paymentMethod, notes, now) &&
                st.savedInvoices == Some([r.value] + LoadInvoices(old(st.savedInvoices)))
      ensures r.Err? ==> st.savedInvoices == old(st.savedInvoices)
    {
      var client := ChooseClient(st, now, clientRandom);
      if client.None? {
        return Err("Cannot read properties of undefined (reading 'id')");
      }
      var inv := SaveSubmitted(st, GenerateInvoiceId(day, invoiceRandom), client.value, now);
      r := Ok(inv);
    }
  }
}
