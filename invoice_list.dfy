/** src/components/InvoiceList.tsx: the search, status filter and sort
    pipeline of the invoice list, its URL parameters and its labels. */
module InvoiceList {
  import opened Wrappers
  import opened Model
  import opened Strings
  import opened Seqs
  import opened Store
  import InvoiceService

  // ---------------------------------------------------------------- search

  /** The client's name. Every invoice the list shows comes from
      `getUserInvoices`, which always attaches a client (see
      `UserInvoicesHaveClients`), so the fallback is never used. */
  function ClientName(inv: Invoice): string {
    if inv.client.Some? then inv.client.value.name else ""
  }

  function ClientEmail(inv: Invoice): string {
    if inv.client.Some? then inv.client.value.email else ""
  }

  lemma UserInvoicesHaveClients(invoices: seq<Invoice>, clients: seq<Client>, now: Time)
    ensures forall inv :: inv in InvoiceService.GetUserInvoices(invoices, clients, now) ==> inv.client.Some?
  {
  }

  /** An optional field matches only when it is present and contains the
      term (`field?.toLowerCase().includes(...)`). */
  predicate OptionalContains(field: Option<string>, term: string) {
    field.Some? && ContainsIgnoringCase(field.value, term)
  }

  /** The search callback: a case-insensitive substring test on the id,
      client name, company, e-mail, payment method and notes, or a
      case-sensitive one on the total's string form `totalText(total)`. */
  predicate Matches(inv: Invoice, term: string, totalText: real -> string) {
    ContainsIgnoringCase(inv.id, term) ||
    ContainsIgnoringCase(ClientName(inv), term) ||
    (inv.client.Some? && OptionalContains(inv.client.value.company, term)) ||
    ContainsIgnoringCase(ClientEmail(inv), term) ||
    ContainsIgnoringCase(inv.paymentMethod, term) ||
    OptionalContains(inv.notes, term) ||
    Contains(totalText(inv.total), term)
  }

  function MatchesTerm(term: string, totalText: real -> string): Invoice -> bool {
    (inv: Invoice) => Matches(inv, term, totalText)
  }

  /** The search step: skipped for an empty term. */
  function Searched(invoices: seq<Invoice>, term: string, totalText: real -> string): (r: seq<Invoice>)
    ensures term == "" ==> r == invoices
    ensures forall inv :: inv in r <==> inv in invoices && (term == "" || Matches(inv, term, totalText))
  {
    if term == "" then invoices
    else
      var r := Filter(invoices, MatchesTerm(term, totalText));
      assert forall inv :: inv in invoices ==> (inv in r <==> Matches(inv, term, totalText)) by {
        forall inv | inv in invoices ensures inv in r <==> Matches(inv, term, totalText) {
          var i :| 0 <= i < |invoices| && invoices[i] == inv;
        }
      }
      r
  }

  // --------------------------------------------------------- status filter

  /** The `overdue` filter: unpaid, with a due date already passed. */
  predicate IsOverdueUnpaid(inv: Invoice, now: Time) {
    inv.status == Unpaid && inv.dueDate.Some? && now > inv.dueDate.value
  }

  /** The status-filter callback for a filter other than `all`. */
  predicate PassesStatus(inv: Invoice, filter: string, now: Time) {
    if filter == "overdue" then IsOverdueUnpaid(inv, now) else StatusName(inv.status) == filter
  }

  function StatusIs(filter: string, now: Time): Invoice -> bool {
    (inv: Invoice) => PassesStatus(inv, filter, now)
  }

  /** The status step: skipped for `all`. */
  function StatusFiltered(invoices: seq<Invoice>, filter: string, now: Time): (r: seq<Invoice>)
    ensures filter == "all" ==> r == invoices
    ensures forall inv :: inv in r <==> inv in invoices && (filter == "all" || PassesStatus(inv, filter, now))
  {
    if filter == "all" then invoices
    else
      var r := Filter(invoices, StatusIs(filter, now));
      assert forall inv :: inv in invoices ==> (inv in r <==> PassesStatus(inv, filter, now)) by {
        forall inv | inv in invoices ensures inv in r <==> PassesStatus(inv, filter, now) {
          var i :| 0 <= i < |invoices| && invoices[i] == inv;
        }
      }
      r
  }

  /** The invoices the effect keeps before sorting. */
  function Selected(invoices: seq<Invoice>, term: string, filter: string, now: Time,
                    totalText: real -> string): seq<Invoice> {
    StatusFiltered(Searched(invoices, term, totalText), filter, now)
  }

  /** The kept invoices are some of the loaded ones, in their order, and an
      invoice is kept exactly when it passes both steps. */
  lemma SelectedFacts(invoices: seq<Invoice>, term: string, filter: string, now: Time, totalText: real -> string)
    ensures IsSubsequence(Selected(invoices, term, filter, now, totalText), invoices)
    ensures forall inv :: inv in Selected(invoices, term, filter, now, totalText) <==>
              inv in invoices && (term == "" || Matches(inv, term, totalText)) &&
              (filter == "all" || PassesStatus(inv, filter, now))
  {
    var s := Searched(invoices, term, totalText);
    if term != "" {
      FilterIsSubsequence(invoices, MatchesTerm(term, totalText));
    } else {
      SubsequenceReflexive(invoices);
    }
    if filter != "all" {
      FilterIsSubsequence(s, StatusIs(filter, now));
    } else {
      SubsequenceReflexive(s);
    }
    SubsequenceTransitive(Selected(invoices, term, filter, now, totalText), s, invoices);
  }

  /** The `overdue` filter keeps exactly the unpaid invoices past their due
      date; any other filter but `all` keeps exactly one stored status. */
  lemma StatusFilterExact(invoices: seq<Invoice>, filter: string, now: Time)
    ensures filter == "overdue" ==>
              forall inv :: inv in StatusFiltered(invoices, filter, now) <==>
                inv in invoices && inv.status == Unpaid && inv.dueDate.Some? && now > inv.dueDate.value
    ensures filter != "overdue" && filter != "all" ==>
              forall inv :: inv in StatusFiltered(invoices, filter, now) <==>
                inv in invoices && StatusName(inv.status) == filter
  {
  }

  // ------------------------------------------------------------------ sort

  /** `a` sorts strictly before `b` under the comparator for `sortBy`
      (the comparator returning a negative number). An unknown key compares
      everything equal. */
  predicate Before(sortBy: string, a: Invoice, b: Invoice) {
    if sortBy == "date-desc" then a.createdAt > b.createdAt
    else if sortBy == "date-asc" then a.createdAt < b.createdAt
    else if sortBy == "amount-desc" then a.total > b.total
    else if sortBy == "amount-asc" then a.total < b.total
    else if sortBy == "client" then LexLess(ClientName(a), ClientName(b))
    else if sortBy == "status" then LexLess(StatusName(a.status), StatusName(b.status))
    else false
  }

  lemma BeforeIrreflexive(sortBy: string, a: Invoice)
    ensures !Before(sortBy, a, a)
  {
    LexLessIrreflexive(ClientName(a));
    LexLessIrreflexive(StatusName(a.status));
  }

  lemma BeforeTransitive(sortBy: string, a: Invoice, b: Invoice, c: Invoice)
    requires Before(sortBy, a, b) && Before(sortBy, b, c)
    ensures Before(sortBy, a, c)
  {
    if sortBy == "client" {
      LexLessTransitive(ClientName(a), ClientName(b), ClientName(c));
    } else if sortBy == "status" {
      LexLessTransitive(StatusName(a.status), StatusName(b.status), StatusName(c.status));
    }
  }

  /** No invoice sorts strictly before one that precedes it. */
  predicate Sorted(sortBy: string, s: seq<Invoice>) {
    forall i, j :: 0 <= i < j < |s| ==> !Before(sortBy, s[j], s[i])
  }

  /** `x` placed in front of the first element it sorts strictly before,
      so it lands after every element it ties with. */
  function Insert(sortBy: string, s: seq<Invoice>, x: Invoice): (r: seq<Invoice>)
    ensures multiset(r) == multiset(s) + multiset{x}
  {
    if s == [] then [x]
    else if Before(sortBy, x, s[0]) then [x] + s
    else
      assert s == [s[0]] + s[1..];
      [s[0]] + Insert(sortBy, s[1..], x)
  }

  lemma {:induction false} InsertSorted(sortBy: string, s: seq<Invoice>, x: Invoice)
    requires Sorted(sortBy, s)
    ensures Sorted(sortBy, Insert(sortBy, s, x))
  {
    var r := Insert(sortBy, s, x);
    if s == [] {
    } else if Before(sortBy, x, s[0]) {
      forall i, j | 0 <= i < j < |r| ensures !Before(sortBy, r[j], r[i]) {
        if i == 0 && Before(sortBy, r[j], x) {
          BeforeTransitive(sortBy, r[j], x, s[0]);
          if j == 1 {
            BeforeIrreflexive(sortBy, s[0]);
          }
        }
      }
    } else {
      var t := Insert(sortBy, s[1..], x);
      InsertSorted(sortBy, s[1..], x);
      forall i, j | 0 <= i < j < |r| ensures !Before(sortBy, r[j], r[i]) {
        if i == 0 {
          assert r[j] == t[j - 1];
          assert r[j] in multiset(t);
          assert r[j] in multiset(s[1..]) || r[j] == x;
          if r[j] != x {
            var k :| 0 <= k < |s[1..]| && s[1..][k] == r[j];
            assert s[k + 1] == r[j];
          }
        } else {
          assert r[i] == t[i - 1] && r[j] == t[j - 1];
        }
      }
    }
  }

  /** An unknown key inserts at the end. */
  lemma {:induction false} InsertUnknownKey(sortBy: string, s: seq<Invoice>, x: Invoice)
    requires !KnownSortKey(sortBy)
    ensures Insert(sortBy, s, x) == s + [x]
  {
    if s != [] {
      InsertUnknownKey(sortBy, s[1..], x);
      assert s == [s[0]] + s[1..];
    }
  }

  predicate KnownSortKey(sortBy: string) {
    sortBy in {"date-desc", "date-asc", "amount-desc", "amount-asc", "client", "status"}
  }

  /** `filtered.sort(comparator)`: a stable sort, written as insertion of
      each element in turn. */
  method SortInvoices(sortBy: string, s: seq<Invoice>) returns (r: seq<Invoice>)
    ensures Sorted(sortBy, r)
    ensures multiset(r) == multiset(s)
    ensures !KnownSortKey(sortBy) ==> r == s
  {
    r := [];
    for i := 0 to |s|
      invariant Sorted(sortBy, r)
      invariant multiset(r) == multiset(s[..i])
      invariant !KnownSortKey(sortBy) ==> r == s[..i]
    {
      InsertSorted(sortBy, r, s[i]);
      if !KnownSortKey(sortBy) {
        InsertUnknownKey(sortBy, r, s[i]);
      }
      r := Insert(sortBy, r, s[i]);
      assert s[..i + 1] == s[..i] + [s[i]];
    }
    assert s[..|s|] == s;
  }

  // ----------------------------------------------------------- URL params

  /** The parameters the effect writes: `search` only for a non-empty term,
      `filter` only for a filter other than `all`. */
  function SearchParamsOf(term: string, filter: string): (params: map<string, string>)
    ensures "search" in params <==> term != ""
    ensures "filter" in params <==> filter != "all"
    ensures "search" in params ==> params["search"] == term
    ensures "filter" in params ==> params["filter"] == filter
    ensures forall k :: k in params ==> k == "search" || k == "filter"
  {
    var p := if term != "" then map["search" := term] else map[];
    if filter != "all" then p["filter" := filter] else p
  }

  /** The initial search term: `searchParams.get('search') || ''`. */
  function TermOf(params: map<string, string>): string {
    if "search" in params then params["search"] else ""
  }

  /** The initial filter: `searchParams.get('filter') || 'all'`. */
  function FilterOf(params: map<string, string>): string {
    if "filter" in params && params["filter"] != "" then params["filter"] else "all"
  }

  /** Reopening the page with the parameters it wrote restores the search
      term and the filter. */
  lemma ParamsRoundTrip(term: string, filter: string)
    requires filter != ""
    ensures TermOf(SearchParamsOf(term, filter)) == term
    ensures FilterOf(SearchParamsOf(term, filter)) == filter
  {
  }

  // ---------------------------------------------------------------- labels

  datatype Badge = PaidBadge | FailedBadge | OverdueBadge | UnpaidBadge

  /** `getStatusBadge(status, dueDate)`. */
  function StatusBadge(status: Status, dueDate: Option<Time>, now: Time): Badge {
    if status == Paid then PaidBadge
    else if status == Failed then FailedBadge
    else if dueDate.Some? && now > dueDate.value then OverdueBadge
    else UnpaidBadge
  }

  /** Paid wins over failed, failed over overdue, overdue over unpaid; a
      cancelled invoice shows as unpaid or overdue. */
  lemma BadgePriority(status: Status, dueDate: Option<Time>, now: Time)
    ensures StatusBadge(status, dueDate, now) == PaidBadge <==> status == Paid
    ensures StatusBadge(status, dueDate, now) == FailedBadge <==> status == Failed
    ensures StatusBadge(status, dueDate, now) == OverdueBadge <==>
              status != Paid && status != Failed && dueDate.Some? && now > dueDate.value
    ensures StatusBadge(status, dueDate, now) == OverdueBadge && status == Unpaid ==>
              PassesStatus(InvoiceWithDue(status, dueDate), "overdue", now)
  {
  }

  /** An unpaid placeholder invoice carrying only a status and a due date,
      to relate the badge to the `overdue` filter. */
  function InvoiceWithDue(status: Status, dueDate: Option<Time>): Invoice {
    Invoice("", "", None, [], 0.0, 0.0, 0.0, 0.0, Percentage, 0.0, 0.0, status, "", None, 0, dueDate, None, None, None)
  }

  const MethodLabels: map<string, string> :=
    map["stripe" := "Stripe", "paypal" := "PayPal", "bank-transfer" := "Bank Transfer",
        "zelle" := "Zelle", "wire" := "Wire Transfer"]

  /** `getPaymentMethodLabel(method)`: the label of a known method, the
      method string itself otherwise. */
  function PaymentMethodLabel(m: string): (text: string)
    ensures m in MethodLabels ==> text == MethodLabels[m]
    ensures m !in MethodLabels ==> text == m
  {
    if m in MethodLabels && MethodLabels[m] != "" then MethodLabels[m] else m
  }

  /** Every known label is non-empty, so the `||` fallback is taken only for
      unknown methods, and a known method never shows its raw string. */
  lemma MethodLabelFallback(m: string)
    ensures m in MethodLabels ==> PaymentMethodLabel(m) != "" && PaymentMethodLabel(m) != m
  {
  }

  // ------------------------------------------------------------------ page

  /** The page's state. */
  class ListPage {
    var invoices: seq<Invoice>
    var filteredInvoices: seq<Invoice>
    var searchTerm: string
    var statusFilter: string
    var sortBy: string
    var searchParams: map<string, string>
    var loading: bool

    /** Initial state, read from the URL parameters. */
    constructor (params: map<string, string>)
      ensures searchTerm == TermOf(params) && statusFilter == FilterOf(params) && sortBy == "date-desc"
      ensures invoices == [] && filteredInvoices == [] && searchParams == params && loading
    {
      invoices := [];
      filteredInvoices := [];
      searchTerm := TermOf(params);
      statusFilter := FilterOf(params);
      sortBy := "date-desc";
      searchParams := params;
      loading := true;
    }

    /** The load effect (also what the 30-second refresh does). */
    method Load(st: LocalStore, now: Time)
      modifies this`invoices, this`loading
      ensures invoices == InvoiceService.GetUserInvoices(st.invoices, st.clients, now)
      ensures !loading
    {
      invoices := InvoiceService.GetUserInvoices(st.invoices, st.clients, now);
      loading := false;
    }

    /** The filter effect at clock reading `now`: search, then status
        filter, then sort, and the URL parameters rewritten. */
    method Refresh(now: Time, totalText: real -> string)
      modifies this`filteredInvoices, this`searchParams
      ensures multiset(filteredInvoices) == multiset(Selected(invoices, searchTerm, statusFilter, now, totalText))
      ensures Sorted(sortBy, filteredInvoices)
      ensures searchParams == SearchParamsOf(searchTerm, statusFilter)
    {
      var selected := Selected(invoices, searchTerm, statusFilter, now, totalText);
      filteredInvoices := SortInvoices(sortBy, selected);
      searchParams := SearchParamsOf(searchTerm, statusFilter);
    }
  }

  /** With no search term and the `all` filter every loaded invoice is kept. */
  lemma NoFilterKeepsAll(invoices: seq<Invoice>, now: Time, totalText: real -> string)
    ensures Selected(invoices, "", "all", now, totalText) == invoices
  {
  }
}
