/** src/components/EnhancedDashboard.tsx: the memoised figures of the
    alternative dashboard, computed from the invoices and clients it is
    given. */
module EnhancedDashboard {
  import opened Wrappers
  import opened Model
  import opened Strings
  import opened Seqs
  import InvoiceList
  import Dashboard

  // ------------------------------------------------------------------ KPIs

  /** `totalOutstanding`: the summed totals of the unpaid invoices. */
  function TotalOutstanding(invs: seq<Invoice>): real {
    Dashboard.Revenue(Dashboard.PendingInvoices(invs))
  }

  /** With non-negative totals, the outstanding amount is non-negative, and
      together with the main dashboard's revenue it never exceeds the sum of
      all totals: no invoice is counted as both outstanding and received. */
  lemma OutstandingBounds(invs: seq<Invoice>)
    requires Dashboard.NonNegativeTotals(invs)
    ensures 0.0 <= TotalOutstanding(invs)
    ensures TotalOutstanding(invs) + Dashboard.StatsOf(invs).totalRevenue <= Dashboard.Revenue(invs)
  {
    Dashboard.RevenueOfFilter(invs, InvoiceList.StatusIs("unpaid", 0));
    Dashboard.RevenueOfDisjointFilters(invs, InvoiceList.StatusIs("unpaid", 0), InvoiceList.StatusIs("paid", 0));
  }

  const ReceivedWindowMs: int := 30 * 24 * 3600 * 1000

  /** Paid, with a payment time less than thirty days before `now` (a
      payment time after `now` counts as well). */
  predicate ReceivedRecently(inv: Invoice, now: Time) {
    inv.status == Paid && inv.paidAt.Some? && now - inv.paidAt.value < ReceivedWindowMs
  }

  function ReceivedBy(now: Time): Invoice -> bool {
    (inv: Invoice) => ReceivedRecently(inv, now)
  }

  /** `totalReceived`. */
  function TotalReceived(invs: seq<Invoice>, now: Time): real {
    Dashboard.Revenue(Filter(invs, ReceivedBy(now)))
  }

  /** With non-negative totals, the thirty-day figure never exceeds the
      main dashboard's all-time revenue. */
  lemma ReceivedAtMostRevenue(invs: seq<Invoice>, now: Time)
    requires Dashboard.NonNegativeTotals(invs)
    ensures 0.0 <= TotalReceived(invs, now) <= Dashboard.StatsOf(invs).totalRevenue
  {
    var paid := Dashboard.PaidInvoices(invs);
    assert Dashboard.NonNegativeTotals(paid) by {
      forall i | 0 <= i < |paid| ensures paid[i].total >= 0.0 {
        assert paid[i] in invs;
      }
    }
    var both := (inv: Invoice) => InvoiceList.StatusIs("paid", 0)(inv) && ReceivedBy(now)(inv);
    FilterFilter(invs, InvoiceList.StatusIs("paid", 0), ReceivedBy(now), both);
    assert Filter(invs, both) == Filter(invs, ReceivedBy(now)) by {
      FilterSamePredicate(invs, both, ReceivedBy(now));
    }
    Dashboard.RevenueOfFilter(paid, ReceivedBy(now));
  }

  /** `dueDate < now` for an unpaid invoice. */
  predicate DueBeforeNow(inv: Invoice, now: Time) {
    inv.status == Unpaid && inv.dueDate.Some? && inv.dueDate.value < now
  }

  /** `overdueCount`. */
  function OverdueCount(invs: seq<Invoice>, now: Time): nat {
    Count(invs, (inv: Invoice) => DueBeforeNow(inv, now))
  }

  /** Both dashboards count the same overdue invoices. */
  lemma OverdueCountsAgree(invs: seq<Invoice>, now: Time)
    ensures OverdueCount(invs, now) == |Dashboard.OverdueInvoices(invs, now)|
  {
    FilterSamePredicate(invs, (inv: Invoice) => DueBeforeNow(inv, now), InvoiceList.StatusIs("overdue", now));
  }

  // ----------------------------------------------------------------- table

  /** The client-name search: `i.client?.name?.toLowerCase().includes(...)`;
      a missing client never matches. */
  predicate NameMatches(inv: Invoice, search: string) {
    inv.client.Some? && ContainsIgnoringCase(inv.client.value.name, search)
  }

  function StatusEquals(filter: string): Invoice -> bool {
    (inv: Invoice) => StatusName(inv.status) == filter
  }

  function NameContains(search: string): Invoice -> bool {
    (inv: Invoice) => NameMatches(inv, search)
  }

  /** The status step of `filteredInvoices`: an exact match unless `all`. */
  function StatusStep(invs: seq<Invoice>, statusFilter: string): (r: seq<Invoice>)
    ensures IsSubsequence(r, invs)
    ensures forall inv :: inv in r <==> inv in invs && (statusFilter == "all" || StatusName(inv.status) == statusFilter)
  {
    if statusFilter != "all" then
      FilterFacts(invs, StatusEquals(statusFilter));
      Filter(invs, StatusEquals(statusFilter))
    else
      SubsequenceReflexive(invs);
      invs
  }

  /** The search step: the name search unless the term is blank (the
      untrimmed term is what is searched for). */
  function SearchStep(invs: seq<Invoice>, search: string): (r: seq<Invoice>)
    ensures IsSubsequence(r, invs)
    ensures forall inv :: inv in r <==> inv in invs && (IsBlank(search) || NameMatches(inv, search))
  {
    if !IsBlank(search) then
      FilterFacts(invs, NameContains(search));
      Filter(invs, NameContains(search))
    else
      SubsequenceReflexive(invs);
      invs
  }

  /** `filteredInvoices`. */
  function FilteredInvoices(invs: seq<Invoice>, statusFilter: string, search: string): (r: seq<Invoice>)
    ensures IsSubsequence(r, invs)
    ensures forall inv :: inv in r <==>
              inv in invs && (statusFilter == "all" || StatusName(inv.status) == statusFilter) &&
              (IsBlank(search) || NameMatches(inv, search))
  {
    var byStatus := StatusStep(invs, statusFilter);
    var r := SearchStep(byStatus, search);
    SubsequenceTransitive(r, byStatus, invs);
    r
  }

  /** The `overdue` tab compares the stored status with "overdue", which no
      invoice has, so it always shows an empty table. */
  lemma OverdueTabIsEmpty(invs: seq<Invoice>, search: string)
    ensures FilteredInvoices(invs, "overdue", search) == []
  {
    var r := FilteredInvoices(invs, "overdue", search);
    HeadIsMember(r);
    NoStatusNamedOverdue();
  }

  lemma NoStatusNamedOverdue()
    ensures forall s: Status :: StatusName(s) != "overdue"
  {
    forall s: Status ensures StatusName(s) != "overdue" {
      match s
      case Unpaid => assert StatusName(s)[0] == 'u';
      case Paid => assert StatusName(s)[0] == 'p';
      case Failed => assert StatusName(s)[0] == 'f';
      case Cancelled => assert StatusName(s)[0] == 'c';
    }
  }

  // ----------------------------------------------------------- quick stats

  /** The client ids of the invoices with a given stored status. */
  function ClientIdsWith(invs: seq<Invoice>, status: Status): (ids: set<string>)
    ensures forall id :: id in ids <==> exists i :: 0 <= i < |invs| && invs[i].status == status && invs[i].clientId == id
  {
    set i | 0 <= i < |invs| && invs[i].status == status :: invs[i].clientId
  }

  function IdIn(ids: set<string>): Client -> bool {
    (c: Client) => c.id in ids
  }

  /** `paidClients`: the clients, in order, with at least one paid invoice. */
  function PaidClients(invs: seq<Invoice>, clients: seq<Client>): seq<Client> {
    Filter(clients, IdIn(ClientIdsWith(invs, Paid)))
  }

  /** `outstandingClients`: the clients with at least one unpaid invoice. */
  function OutstandingClients(invs: seq<Invoice>, clients: seq<Client>): seq<Client> {
    Filter(clients, IdIn(ClientIdsWith(invs, Unpaid)))
  }

  /** A client is listed exactly when some invoice of the right status
      carries its id; the lists keep the clients' order. */
  lemma QuickStatsFacts(invs: seq<Invoice>, clients: seq<Client>)
    ensures IsSubsequence(PaidClients(invs, clients), clients)
    ensures IsSubsequence(OutstandingClients(invs, clients), clients)
    ensures forall c :: c in PaidClients(invs, clients) <==>
              c in clients && exists i :: 0 <= i < |invs| && invs[i].status == Paid && invs[i].clientId == c.id
    ensures forall c :: c in OutstandingClients(invs, clients) <==>
              c in clients && exists i :: 0 <= i < |invs| && invs[i].status == Unpaid && invs[i].clientId == c.id
  {
    FilterFacts(clients, IdIn(ClientIdsWith(invs, Paid)));
    FilterFacts(clients, IdIn(ClientIdsWith(invs, Unpaid)));
  }

  // -------------------------------------------------------- recent activity

  datatype ActivityType = Payment | InvoiceCreated

  datatype Activity = Activity(id: string, client: string, status: Status, amount: real, date: Time, kind: ActivityType)

  /** One entry of `recentActivities`. */
  function ActivityOf(inv: Invoice): (a: Activity)
    ensures a.id == inv.id && a.status == inv.status && a.amount == inv.total
    ensures a.client == if inv.client.Some? && inv.client.value.name != "" then inv.client.value.name else "Unknown"
    ensures a.date == Dashboard.PaidDate(inv)
    ensures a.kind == Payment <==> inv.status == Paid
  {
    Activity(inv.id,
             if inv.client.Some? && inv.client.value.name != "" then inv.client.value.name else "Unknown",
             inv.status, inv.total, Dashboard.PaidDate(inv),
             if inv.status == Paid then Payment else InvoiceCreated)
  }

  /** `recentActivities`: the first ten invoices, each as an activity. */
  function RecentActivities(invs: seq<Invoice>): (r: seq<Activity>)
    ensures |r| == if |invs| < 10 then |invs| else 10
    ensures forall i :: 0 <= i < |r| ==> r[i] == ActivityOf(invs[i])
  {
    var first := Take(invs, 10);
    seq(|first|, i requires 0 <= i < |first| => ActivityOf(first[i]))
  }

  // ------------------------------------------------------------ donut chart

  /** The donut's filled fraction, `Math.min(value / total, 1)`, for
      the fixed scale of 10000 the KPIs use. */
  function DonutFraction(value: real): (f: real)
    ensures f <= 1.0
    ensures value <= 10000.0 ==> f * 10000.0 == value
    ensures value >= 10000.0 ==> f == 1.0
  {
    var x := value / 10000.0;
    if x < 1.0 then x else 1.0
  }
}
