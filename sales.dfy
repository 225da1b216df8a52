/** Sales reporting: the date / payment / status filter over the sales list and
    the summary of the completed sales among the filtered ones. Money is in
    cents; dates are day numbers. */
module Sales {
  import opened Seqs

  datatype SaleStatus = Completed | Refunded | Pending

  datatype Sale = Sale(id: int, customer: string, date: int, items: int, total: int,
                       paymentMethod: string, status: SaleStatus)

  /** A date input: empty, or a chosen day. */
  datatype DateInput = NoDate | Day(day: int)

  datatype SalesFilters = SalesFilters(start: DateInput, end: DateInput,
                                       paymentMethod: string, status: string)

  datatype SalesSummary = SalesSummary(totalSales: int, totalTransactions: int,
                                       averageOrderValue: real)

  /** The text the status select compares with. */
  function StatusName(s: SaleStatus): string
  {
    match s
    case Completed => "Completed"
    case Refunded => "Refunded"
    case Pending => "Pending"
  }

  /** Distinct statuses have distinct names, and none is called "All". */
  lemma StatusNamesDistinct(a: SaleStatus, b: SaleStatus)
    ensures StatusName(a) == StatusName(b) <==> a == b
    ensures StatusName(a) != "All"
  {
  }

  // ---------------------------------------------------------------------------
  // Filter

  predicate DateRangeActive(f: SalesFilters)
  {
    f.start.Day? && f.end.Day?
  }

  function InRange(f: SalesFilters): Sale -> bool
    requires DateRangeActive(f)
  {
    (s: Sale) => f.start.day <= s.date <= f.end.day
  }

  function PaidWith(method_: string): Sale -> bool
  {
    (s: Sale) => s.paymentMethod == method_
  }

  function HasStatus(status: string): Sale -> bool
  {
    (s: Sale) => StatusName(s.status) == status
  }

  /** The sale passes every active filter: the inclusive date range when both
      ends are set, the payment method and the status unless they are "All". */
  predicate Passes(s: Sale, f: SalesFilters)
  {
    && (DateRangeActive(f) ==> f.start.day <= s.date <= f.end.day)
    && (f.paymentMethod != "All" ==> s.paymentMethod == f.paymentMethod)
    && (f.status != "All" ==> StatusName(s.status) == f.status)
  }

  /** The date-range step: applied only when both ends are set. */
  function ByDate(sales: seq<Sale>, f: SalesFilters): seq<Sale>
  {
    if DateRangeActive(f) then Filter(sales, InRange(f)) else sales
  }

  /** The filter effect: three filters, each applied only when active. */
  function FilteredSales(sales: seq<Sale>, f: SalesFilters): seq<Sale>
  {
    var byPayment := FilterWhen(ByDate(sales, f), f.paymentMethod != "All", PaidWith(f.paymentMethod));
    FilterWhen(byPayment, f.status != "All", HasStatus(f.status))
  }

  predicate InDateRange(s: Sale, f: SalesFilters)
  {
    DateRangeActive(f) ==> f.start.day <= s.date <= f.end.day
  }

  lemma ByDateSpec(sales: seq<Sale>, f: SalesFilters)
    ensures IsSubsequence(ByDate(sales, f), sales)
    ensures forall s :: s in ByDate(sales, f) <==> s in sales && InDateRange(s, f)
    ensures forall s :: multiset(ByDate(sales, f))[s] ==
              (if InDateRange(s, f) then multiset(sales)[s] else 0)
  {
    if DateRangeActive(f) {
      FilterIsSubsequence(sales, InRange(f));
      FilterMultiset(sales, InRange(f));
    } else {
      SubsequenceRefl(sales);
    }
  }

  /** The filtered list keeps the order of the sales list, and a sale is kept
      iff it passes every active filter. */
  lemma FilteredSalesSpec(sales: seq<Sale>, f: SalesFilters)
    ensures IsSubsequence(FilteredSales(sales, f), sales)
    ensures forall s :: s in FilteredSales(sales, f) <==> s in sales && Passes(s, f)
  {
    var byDate := ByDate(sales, f);
    var byPayment := FilterWhen(byDate, f.paymentMethod != "All", PaidWith(f.paymentMethod));
    ByDateSpec(sales, f);
    FilterWhenSpec(byDate, f.paymentMethod != "All", PaidWith(f.paymentMethod));
    FilterWhenSpec(byPayment, f.status != "All", HasStatus(f.status));
    SubsequenceTrans(byPayment, byDate, sales);
    SubsequenceTrans(FilteredSales(sales, f), byPayment, sales);
  }

  /** Every copy of a passing sale is kept and no copy of any other. */
  lemma FilteredSalesCounts(sales: seq<Sale>, f: SalesFilters)
    ensures forall s :: multiset(FilteredSales(sales, f))[s] ==
              (if Passes(s, f) then multiset(sales)[s] else 0)
  {
    var byDate := ByDate(sales, f);
    var byPayment := FilterWhen(byDate, f.paymentMethod != "All", PaidWith(f.paymentMethod));
    ByDateSpec(sales, f);
    FilterWhenSpec(byDate, f.paymentMethod != "All", PaidWith(f.paymentMethod));
    FilterWhenSpec(byPayment, f.status != "All", HasStatus(f.status));
  }

  /** "Clear Filters": an empty range and "All" / "All". */
  function ClearedFilters(): (f: SalesFilters)
    ensures !DateRangeActive(f)
  {
    SalesFilters(NoDate, NoDate, "All", "All")
  }

  /** After clearing, every sale is shown. */
  lemma ClearedFiltersShowAll(sales: seq<Sale>)
    ensures FilteredSales(sales, ClearedFilters()) == sales
  {
  }

  /** A range with only one end set does not filter by date. */
  lemma HalfRangeIgnored(sales: seq<Sale>, start: int, payment: string, status: string)
    ensures FilteredSales(sales, SalesFilters(Day(start), NoDate, payment, status)) ==
            FilteredSales(sales, SalesFilters(NoDate, NoDate, payment, status))
  {
  }

  // ---------------------------------------------------------------------------
  // Summary

  function IsCompleted(s: Sale): bool
  {
    s.status == Completed
  }

  function SumTotals(sales: seq<Sale>): int
    decreases |sales|
  {
    if sales == [] then 0 else sales[0].total + SumTotals(sales[1..])
  }

  /** The summary effect: only completed sales count; the average is guarded
      against an empty count. */
  function Summary(filtered: seq<Sale>): (r: SalesSummary)
    ensures 0 <= r.totalTransactions <= |filtered|
    ensures r.totalTransactions == 0 ==> r.averageOrderValue == 0.0
    ensures r.totalTransactions > 0 ==>
      r.averageOrderValue * r.totalTransactions as real == r.totalSales as real
  {
    var completed := Filter(filtered, IsCompleted);
    var totalSales := SumTotals(completed);
    var totalTransactions := |completed|;
    SalesSummary(totalSales, totalTransactions,
      if totalTransactions > 0 then totalSales as real / totalTransactions as real else 0.0)
  }

  /** The counted sales are exactly the completed ones among the filtered ones. */
  lemma SummaryCountsCompleted(filtered: seq<Sale>)
    ensures Summary(filtered).totalTransactions == |Filter(filtered, IsCompleted)|
    ensures Summary(filtered).totalSales == SumTotals(Filter(filtered, IsCompleted))
    ensures forall s :: multiset(Filter(filtered, IsCompleted))[s] ==
              (if s.status == Completed then multiset(filtered)[s] else 0)
    ensures (forall s :: s in filtered ==> s.status != Completed) ==> Summary(filtered) == SalesSummary(0, 0, 0.0)
  {
    FilterMultiset(filtered, IsCompleted);
  }

  lemma {:induction false} SumTotalsBounds(sales: seq<Sale>, lo: int, hi: int)
    requires forall s :: s in sales ==> lo <= s.total <= hi
    ensures |sales| * lo <= SumTotals(sales) <= |sales| * hi
    decreases |sales|
  {
    if sales != [] {
      var rest := sales[1..];
      assert sales[0] in sales;
      forall s | s in rest ensures lo <= s.total <= hi {
        assert s in sales;
      }
      SumTotalsBounds(rest, lo, hi);
      MulSucc(|rest|, lo);
      MulSucc(|rest|, hi);
    }
  }

  lemma MulSucc(n: int, x: int)
    ensures (n + 1) * x == x + n * x
  {
  }

  /** When every completed sale's total lies in [lo, hi], so does the average. */
  lemma AverageWithinTotals(filtered: seq<Sale>, lo: int, hi: int)
    requires forall s :: s in filtered && s.status == Completed ==> lo <= s.total <= hi
    requires Summary(filtered).totalTransactions > 0
    ensures lo as real <= Summary(filtered).averageOrderValue <= hi as real
  {
    var completed := Filter(filtered, IsCompleted);
    SumTotalsBounds(completed, lo, hi);
    AverageBounds(SumTotals(completed), |completed|, lo, hi);
  }

  /** Integer bounds on a sum carry over to its exact average. */
  lemma AverageBounds(total: int, n: int, lo: int, hi: int)
    requires n > 0 && n * lo <= total <= n * hi
    ensures lo as real <= total as real / n as real <= hi as real
  {
    var avg := total as real / n as real;
    assert avg * n as real == total as real;
    assert (n * lo) as real == n as real * lo as real;
    assert (n * hi) as real == n as real * hi as real;
  }
}
