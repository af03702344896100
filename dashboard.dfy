/** src/components/Dashboard.tsx: the summary statistics, the month-over-
    month growth figures and the recent and overdue lists. */
module Dashboard {
  import opened Wrappers
  import opened Model
  import opened Seqs
  import opened Store
  import InvoiceService
  import ClientService
  import InvoiceList

  // ------------------------------------------------------------ calendar

  /** `getMonth()` (0 to 11) and `getFullYear()` of a clock reading in the
      browser's time zone; the zone is not modelled, so the conversion is a
      parameter of type `Time -> MonthYear`. */
  datatype MonthYear = MonthYear(month: int, year: int)

  predicate ValidMonth(m: MonthYear) { 0 <= m.month < 12 }

  /** `lastMonth` and `lastMonthYear`: January wraps to December of the
      year before. */
  function PrevMonth(m: MonthYear): (p: MonthYear)
    ensures ValidMonth(m) ==> ValidMonth(p)
    ensures m.month == 0 ==> p == MonthYear(11, m.year - 1)
    ensures m.month != 0 ==> p == MonthYear(m.month - 1, m.year)
  {
    if m.month == 0 then MonthYear(11, m.year - 1) else MonthYear(m.month - 1, m.year)
  }

  /** The month after, to state that `PrevMonth` steps back exactly one month. */
  function NextMonth(m: MonthYear): MonthYear {
    if m.month == 11 then MonthYear(0, m.year + 1) else MonthYear(m.month + 1, m.year)
  }

  lemma PrevNextInverse(m: MonthYear)
    requires ValidMonth(m)
    ensures NextMonth(PrevMonth(m)) == m && PrevMonth(NextMonth(m)) == m
    ensures 12 * PrevMonth(m).year + PrevMonth(m).month == 12 * m.year + m.month - 1
  {
  }

  // ------------------------------------------------------------- revenue

  /** `invoices.reduce((sum, inv) => sum + inv.total, 0)`, in exact
      arithmetic. */
  function Revenue(invs: seq<Invoice>): real {
    if invs == [] then 0.0 else invs[0].total + Revenue(invs[1..])
  }

  predicate NonNegativeTotals(invs: seq<Invoice>) {
    forall i :: 0 <= i < |invs| ==> invs[i].total >= 0.0
  }

  lemma {:induction false} RevenueConcat(a: seq<Invoice>, b: seq<Invoice>)
    ensures Revenue(a + b) == Revenue(a) + Revenue(b)
  {
    if a == [] {
      assert a + b == b;
    } else {
      assert (a + b)[1..] == a[1..] + b;
      RevenueConcat(a[1..], b);
    }
  }

  /** Keeping fewer invoices never raises the revenue, as long as no total
      is negative. */
  lemma {:induction false} RevenueOfFilter(invs: seq<Invoice>, p: Invoice -> bool)
    requires NonNegativeTotals(invs)
    ensures 0.0 <= Revenue(Filter(invs, p)) <= Revenue(invs)
  {
    if invs != [] {
      assert NonNegativeTotals(invs[1..]) by {
        assert forall i :: 0 <= i < |invs[1..]| ==> invs[1..][i] == invs[i + 1];
      }
      RevenueOfFilter(invs[1..], p);
    }
  }

  /** Two tests that never keep the same invoice keep, between them, no more
      revenue than the whole list, as long as no total is negative. */
  lemma {:induction false} RevenueOfDisjointFilters(invs: seq<Invoice>, p: Invoice -> bool, q: Invoice -> bool)
    requires NonNegativeTotals(invs)
    requires forall i :: 0 <= i < |invs| ==> !(p(invs[i]) && q(invs[i]))
    ensures Revenue(Filter(invs, p)) + Revenue(Filter(invs, q)) <= Revenue(invs)
  {
    if invs != [] {
      var rest := invs[1..];
      assert NonNegativeTotals(rest) by {
        assert forall i :: 0 <= i < |rest| ==> rest[i] == invs[i + 1];
      }
      RevenueOfDisjointFilters(rest, p, q);
      RevenueConcat([invs[0]], Filter(rest, p));
      RevenueConcat([invs[0]], Filter(rest, q));
    }
  }

  // --------------------------------------------------------------- stats

  /** The `DashboardStats` record. */
  datatype Stats = Stats(totalInvoices: nat, pendingPayments: nat, paidInvoices: nat, totalRevenue: real)

  function PaidInvoices(invs: seq<Invoice>): seq<Invoice> {
    Filter(invs, InvoiceList.StatusIs("paid", 0))
  }

  function PendingInvoices(invs: seq<Invoice>): seq<Invoice> {
    Filter(invs, InvoiceList.StatusIs("unpaid", 0))
  }

  /** The overdue list: unpaid with a due date already passed at `now`,
      the same test as the list's `overdue` filter. */
  function OverdueInvoices(invs: seq<Invoice>, now: Time): seq<Invoice> {
    Filter(invs, InvoiceList.StatusIs("overdue", now))
  }

  function StatsOf(invs: seq<Invoice>): (s: Stats)
    ensures s.totalInvoices == |invs|
    ensures s.pendingPayments == Count(invs, InvoiceList.StatusIs("unpaid", 0))
    ensures s.paidInvoices == Count(invs, InvoiceList.StatusIs("paid", 0))
    ensures s.totalRevenue == Revenue(PaidInvoices(invs))
  {
    Stats(|invs|, |PendingInvoices(invs)|, |PaidInvoices(invs)|, Revenue(PaidInvoices(invs)))
  }

  /** Paid and pending invoices are disjoint, overdue ones are pending, and
      with non-negative totals the revenue is between zero and the sum of
      all totals. */
  lemma StatsBounds(invs: seq<Invoice>, now: Time)
    ensures StatsOf(invs).paidInvoices + StatsOf(invs).pendingPayments <= StatsOf(invs).totalInvoices
    ensures |OverdueInvoices(invs, now)| <= StatsOf(invs).pendingPayments
    ensures NonNegativeTotals(invs) ==> 0.0 <= StatsOf(invs).totalRevenue <= Revenue(invs)
  {
    DisjointCounts(invs, InvoiceList.StatusIs("paid", 0), InvoiceList.StatusIs("unpaid", 0));
    CountMonotone(invs, InvoiceList.StatusIs("overdue", now), InvoiceList.StatusIs("unpaid", 0));
    if NonNegativeTotals(invs) {
      RevenueOfFilter(invs, InvoiceList.StatusIs("paid", 0));
    }
  }

  // -------------------------------------------------------------- growth

  /** `inv.paidAt || inv.createdAt`. */
  function PaidDate(inv: Invoice): Time {
    inv.paidAt.GetOr(inv.createdAt)
  }

  function PaidIn(cal: Time -> MonthYear, m: MonthYear): Invoice -> bool {
    (inv: Invoice) => cal(PaidDate(inv)) == m
  }

  function CreatedIn(cal: Time -> MonthYear, m: MonthYear): Invoice -> bool {
    (inv: Invoice) => cal(inv.createdAt) == m
  }

  /** The revenue of the paid invoices paid (or, without a payment date,
      created) in month `m`. */
  function MonthRevenue(invs: seq<Invoice>, cal: Time -> MonthYear, m: MonthYear): real {
    Revenue(Filter(PaidInvoices(invs), PaidIn(cal, m)))
  }

  /** The growth rule shared by revenue and invoice count: relative change
      in percent, 100 when there was nothing last month but something now,
      else 0. */
  function Growth(current: real, last: real): real {
    if last > 0.0 then (current - last) / last * 100.0
    else if current > 0.0 then 100.0
    else 0.0
  }

  /** For non-negative figures the growth is positive exactly when this
      month beats last month, zero exactly when they are equal, and never
      below -100. */
  lemma GrowthSign(current: real, last: real)
    requires current >= 0.0 && last >= 0.0
    ensures Growth(current, last) > 0.0 <==> current > last
    ensures Growth(current, last) == 0.0 <==> current == last
    ensures Growth(current, last) >= -100.0
  {
    if last > 0.0 {
      var g := (current - last) / last;
      assert g * last == current - last;
      if current > last {
        assert g > 0.0;
      } else if current < last {
        assert g < 0.0;
      }
      assert g >= -1.0 by {
        if g < -1.0 {
          assert g * last < -1.0 * last;
        }
      }
    }
  }

  /** `successRate`: paid invoices as a percentage of all invoices. */
  function SuccessRate(paid: nat, total: nat): real {
    if total > 0 then paid as real / total as real * 100.0 else 0.0
  }

  lemma SuccessRateBounds(paid: nat, total: nat)
    requires paid <= total
    ensures 0.0 <= SuccessRate(paid, total) <= 100.0
    ensures SuccessRate(paid, total) == 100.0 <==> total > 0 && paid == total
  {
    if total > 0 {
      var t, p := total as real, paid as real;
      var f := p / t;
      assert f * t == p;
      if paid < total {
        assert f * t < 1.0 * t;
        assert f < 1.0;
      } else {
        assert f == 1.0;
      }
    }
  }

  // ---------------------------------------------------- this-month panel

  /** "Invoices Created" of the this-month panel compares the month only,
      so it also counts the same month of earlier years. */
  function CreatedThisMonthPanel(invs: seq<Invoice>, cal: Time -> MonthYear, now: Time): nat {
    Count(invs, (inv: Invoice) => cal(inv.createdAt).month == cal(now).month)
  }

  /** "Payments Received": paid, and paid (or created) in the current month
      of any year. */
  function PaidThisMonthPanel(invs: seq<Invoice>, cal: Time -> MonthYear, now: Time): nat {
    Count(invs, (inv: Invoice) => inv.status == Paid && cal(PaidDate(inv)).month == cal(now).month)
  }

  /** The panel's count is never below the month-and-year count the growth
      figure uses. */
  lemma PanelCountsAtLeastGrowthCounts(invs: seq<Invoice>, cal: Time -> MonthYear, now: Time)
    ensures Count(invs, CreatedIn(cal, cal(now))) <= CreatedThisMonthPanel(invs, cal, now)
    ensures |Filter(PaidInvoices(invs), PaidIn(cal, cal(now)))| <= PaidThisMonthPanel(invs, cal, now)
  {
    CountMonotone(invs, CreatedIn(cal, cal(now)), (inv: Invoice) => cal(inv.createdAt).month == cal(now).month);
    var both := (inv: Invoice) => InvoiceList.StatusIs("paid", 0)(inv) && PaidIn(cal, cal(now))(inv);
    FilterFilter(invs, InvoiceList.StatusIs("paid", 0), PaidIn(cal, cal(now)), both);
    CountMonotone(invs, both, (inv: Invoice) => inv.status == Paid && cal(PaidDate(inv)).month == cal(now).month);
  }

  // --------------------------------------------------------------- lists

  /** `recentInvoices`: the first five loaded invoices. */
  function Recent(invs: seq<Invoice>): (r: seq<Invoice>)
    ensures |r| <= 5 && |r| <= |invs|
    ensures forall i :: 0 <= i < |r| ==> r[i] == invs[i]
    ensures |invs| <= 5 ==> r == invs
  {
    Take(invs, 5)
  }

  /** `daysOverdue` of an overdue invoice: whole days past the due date,
      rounded down. */
  function DaysOverdue(due: Time, now: Time): (d: int)
    requires now > due
    ensures d >= 0
    ensures d * DayMs <= now - due < (d + 1) * DayMs
  {
    (now - due) / DayMs
  }

  // ---------------------------------------------------------------- page

  /** The dashboard's state after a load. */
  class Page {
    var invoices: seq<Invoice>
    var stats: Stats
    var revenueGrowth: real
    var overdueInvoices: seq<Invoice>
    var clientCount: nat
    var loading: bool
    var monthlyGrowth: real
    var successRate: real

    constructor ()
      ensures invoices == [] && stats == Stats(0, 0, 0, 0.0) && overdueInvoices == []
      ensures revenueGrowth == 0.0 && monthlyGrowth == 0.0 && successRate == 0.0
      ensures clientCount == 0 && loading
    {
      invoices := [];
      stats := Stats(0, 0, 0, 0.0);
      revenueGrowth := 0.0;
      overdueInvoices := [];
      clientCount := 0;
      loading := true;
      monthlyGrowth := 0.0;
      successRate := 0.0;
    }

    /** `loadDashboardData` at clock reading `now` (also run by the
        30-second refresh). */
    method Load(st: LocalStore, now: Time, cal: Time -> MonthYear)
      modifies this
      ensures Shows(InvoiceService.GetUserInvoices(st.invoices, st.clients, now), |st.clients|, now, cal)
      ensures !loading
    {
      loading := true;
      var loaded := InvoiceService.GetUserInvoices(st.invoices, st.clients, now);
      var clients := ClientService.GetUserClients(st.clients);
      Compute(loaded, |clients|, now, cal);
      loading := false;
    }

    /** The body of the load once the invoices and clients are read. */
    method Compute(loaded: seq<Invoice>, clients: nat, now: Time, cal: Time -> MonthYear)
      modifies this
      ensures Shows(loaded, clients, now, cal)
      ensures loading == old(loading)
    {
      invoices := loaded;
      clientCount := clients;
      var paid := PaidInvoices(loaded);
      stats := StatsOf(loaded);
      overdueInvoices := OverdueInvoices(loaded, now);
      var current := cal(now);
      var last := PrevMonth(current);
      revenueGrowth := Growth(MonthRevenue(loaded, cal, current), MonthRevenue(loaded, cal, last));
      monthlyGrowth := Growth(Count(loaded, CreatedIn(cal, current)) as real,
                              Count(loaded, CreatedIn(cal, last)) as real);
      successRate := SuccessRate(|paid|, |loaded|);
    }

    /** What the page shows for the loaded invoices and client count. */
    ghost predicate Shows(invs: seq<Invoice>, clients: nat, now: Time, cal: Time -> MonthYear)
      reads this
    {
      var m := cal(now);
      invoices == invs && stats == StatsOf(invs) && clientCount == clients &&
      overdueInvoices == OverdueInvoices(invs, now) &&
      revenueGrowth == Growth(MonthRevenue(invs, cal, m), MonthRevenue(invs, cal, PrevMonth(m))) &&
      monthlyGrowth == Growth(Count(invs, CreatedIn(cal, m)) as real, Count(invs, CreatedIn(cal, PrevMonth(m))) as real) &&
      successRate == SuccessRate(|PaidInvoices(invs)|, |invs|)
    }
  }
}
