/** The records of the invoicing app (src/types/index.ts) and of its user
    accounts (src/hooks/useAuth.ts), as values. */
module Model {
  import opened Wrappers

  /** A point in time: milliseconds since the Unix epoch, as `Date.getTime()`. */
  type Time = int

  const DayMs: int := 24 * 60 * 60 * 1000

  datatype Client = Client(
    id: string,
    name: string,
    company: Option<string>,
    email: string,
    address: string,
    createdAt: Time)

  datatype InvoiceItem = InvoiceItem(
    id: string,
    description: string,
    quantity: real,
    unitPrice: real,
    total: real)

  /** The stored status values. `cancelled` is not in the declared union but
      `updateInvoiceStatus` accepts and stores it. */
  datatype Status = Unpaid | Paid | Failed | Cancelled

  /** The string each status is stored and compared as. */
  function StatusName(s: Status): string {
    match s
    case Unpaid => "unpaid"
    case Paid => "paid"
    case Failed => "failed"
    case Cancelled => "cancelled"
  }

  lemma StatusNameInjective(a: Status, b: Status)
    ensures StatusName(a) == StatusName(b) <==> a == b
  {
  }

  datatype DiscountType = Percentage | Fixed

  /** An invoice. `paymentMethod` is kept as the string the app stores
      ("stripe", "paypal", "bank-transfer", "zelle", "wire"), because every
      use of it is a string comparison or a string edit. `client` is the
      denormalised snapshot, absent when a lookup could not find the client.
      `publicToken` and `updatedAt` are the extra keys the storage layer and
      `updateInvoiceStatus` write. */
  datatype Invoice = Invoice(
    id: string,
    clientId: string,
    client: Option<Client>,
    items: seq<InvoiceItem>,
    subtotal: real,
    tax: real,
    taxRate: real,
    discount: real,
    discountType: DiscountType,
    discountValue: real,
    total: real,
    status: Status,
    paymentMethod: string,
    notes: Option<string>,
    createdAt: Time,
    dueDate: Option<Time>,
    paidAt: Option<Time>,
    publicToken: Option<string>,
    updatedAt: Option<Time>)

  /** A registered account, the value stored under its e-mail in `users`. */
  datatype UserRecord = UserRecord(
    password: string,
    fullName: string,
    id: Option<string>,
    createdAt: Time)

  /** The `userSession` value and the hook's `user`. */
  datatype Session = Session(email: string, fullName: string, id: string)

  /** The `userProfile` value. */
  datatype Profile = Profile(fullName: string, email: string, role: string, companyName: string)

  /** `c => c.id === id`, as `find`, `findIndex` and `filter` callbacks use it. */
  function ClientIdIs(id: string): Client -> bool {
    (c: Client) => c.id == id
  }

  /** `c => c.id !== id`. */
  function ClientIdIsNot(id: string): Client -> bool {
    (c: Client) => c.id != id
  }

  /** `inv => inv.id === id`. */
  function InvoiceIdIs(id: string): Invoice -> bool {
    (inv: Invoice) => inv.id == id
  }

  /** `inv => inv.id !== id`. */
  function InvoiceIdIsNot(id: string): Invoice -> bool {
    (inv: Invoice) => inv.id != id
  }

  /** The invoice invariant: `paidAt` is set exactly when the invoice is
      paid. */
  predicate PaidAtMatchesStatus(inv: Invoice) {
    inv.paidAt.Some? <==> inv.status == Paid
  }
}
