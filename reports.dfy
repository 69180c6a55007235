/** The read-only computations behind the reports: the client filter
    (`_filter_by_client`), the month and tax-year filters, the available
    months and tax years, the totals, and the monthly report. */
module Reports {
  import opened Wrappers
  import opened Seqs
  import opened Calendar
  import opened Domain
  import opened TaxYear

  // ---------------------------------------------------------------------------
  // Filters
  // ---------------------------------------------------------------------------

  /** The condition `x.get("client_id") == client_id`. */
  function HasClient<T>(clientOf: T -> Option<string>, id: string): T -> bool {
    x => clientOf(x) == Some(id)
  }

  /** A client id that `if not client_id` treats as absent. */
  predicate NoClient(clientId: Option<string>) {
    clientId.None? || clientId.value == ""
  }

  /** `_filter_by_client`: everything for a missing or empty id; otherwise
      exactly the items of that client, in their original order. */
  function FilterByClient<T(==)>(items: seq<T>, clientOf: T -> Option<string>, clientId: Option<string>): (r: seq<T>)
    ensures NoClient(clientId) ==> r == items
    ensures !NoClient(clientId) ==> IsFilter(r, items, HasClient(clientOf, clientId.value))
  {
    if NoClient(clientId) then items else Keep(items, HasClient(clientOf, clientId.value))
  }

  /** Filtering by the same client twice is filtering once. */
  lemma FilterByClientIdempotent<T>(items: seq<T>, clientOf: T -> Option<string>, clientId: Option<string>)
    ensures FilterByClient(FilterByClient(items, clientOf, clientId), clientOf, clientId)
         == FilterByClient(items, clientOf, clientId)
  {
    if !NoClient(clientId) {
      KeepIdempotent(items, HasClient(clientOf, clientId.value));
    }
  }

  /** The condition "dated in `month` of `year`". */
  function InMonth<T>(dateOf: T -> Date, year: int, month: int): T -> bool {
    x => dateOf(x).year == year && dateOf(x).month == month
  }

  /** The month comprehensions of the monthly report and the invoice route:
      exactly the items dated in that month, in order. */
  function MonthFilter<T(==)>(items: seq<T>, dateOf: T -> Date, year: int, month: int): (r: seq<T>)
    ensures IsFilter(r, items, InMonth(dateOf, year, month))
  {
    Keep(items, InMonth(dateOf, year, month))
  }

  /** The condition "in tax year `ty`". */
  function InTaxYear<T>(dateOf: T -> Date, startMonth: int, ty: int): T -> bool {
    x => GetTaxYear(dateOf(x), startMonth) == ty
  }

  /** The tax-year comprehensions: exactly the items whose tax year is `ty`,
      in order. */
  function TaxYearFilter<T(==)>(items: seq<T>, dateOf: T -> Date, startMonth: int, ty: int): (r: seq<T>)
    ensures IsFilter(r, items, InTaxYear(dateOf, startMonth, ty))
  {
    Keep(items, InTaxYear(dateOf, startMonth, ty))
  }

  /** The client filter and the month filter can be applied in either order. */
  lemma ClientMonthCommute<T>(items: seq<T>, clientOf: T -> Option<string>, dateOf: T -> Date,
                                  clientId: Option<string>, year: int, month: int)
    ensures MonthFilter(FilterByClient(items, clientOf, clientId), dateOf, year, month)
         == FilterByClient(MonthFilter(items, dateOf, year, month), clientOf, clientId)
  {
    if !NoClient(clientId) {
      var c, m := HasClient(clientOf, clientId.value), InMonth(dateOf, year, month);
      var both := x => c(x) && m(x);
      var both' := x => m(x) && c(x);
      KeepKeep(items, c, m, both);
      KeepKeep(items, m, c, both');
      KeepSame(items, both, both');
    }
  }

  // ---------------------------------------------------------------------------
  // Available months and tax years
  // ---------------------------------------------------------------------------

  /** The dates of the entries followed by the dates of the expenses. */
  function AllDates(entries: seq<Entry>, expenses: seq<Expense>): (ds: seq<Date>)
    ensures |ds| == |entries| + |expenses|
    ensures forall i :: 0 <= i < |entries| ==> ds[i] == entries[i].date
    ensures forall i :: 0 <= i < |expenses| ==> ds[|entries| + i] == expenses[i].date
  {
    MapSeq(entries, EntryDate) + MapSeq(expenses, ExpenseDate)
  }

  function MonthKey(d: Date): int {
    MonthIndex(MonthOf(d))
  }

  /** `sorted(set((d.year, d.month) for d in dates), reverse=True)`: each month
      that holds a date, once, newest first. */
  function AvailableMonths(dates: seq<Date>): (r: seq<YearMonth>)
    ensures forall ym :: ym in r <==> exists i :: 0 <= i < |dates| && MonthOf(dates[i]) == ym
    ensures forall i, j :: 0 <= i < j < |r| ==> MonthBefore(r[j], r[i])
    ensures |r| == 0 <==> |dates| == 0
  {
    var keys := MapSeq(dates, MonthKey);
    var ks := DescendingDistinct(keys);
    var r := MapSeq(ks, FromIndex);
    forall ym ensures ym in r <==> exists i :: 0 <= i < |dates| && MonthOf(dates[i]) == ym {
      MonthFromKeys(dates, keys, ks, ym);
    }
    forall i, j | 0 <= i < j < |r| ensures MonthBefore(r[j], r[i]) {
      MonthIndexOrder(r[j], r[i]);
    }
    r
  }

  lemma MonthFromKeys(dates: seq<Date>, keys: seq<int>, ks: seq<int>, ym: YearMonth)
    requires keys == MapSeq(dates, MonthKey)
    requires forall y :: y in ks <==> y in keys
    ensures ym in MapSeq(ks, FromIndex) <==> exists i :: 0 <= i < |dates| && MonthOf(dates[i]) == ym
  {
    var r := MapSeq(ks, FromIndex);
    if ym in r {
      var j :| 0 <= j < |r| && r[j] == ym;
      assert ks[j] in keys;
      var i :| 0 <= i < |dates| && keys[i] == ks[j];
      MonthIndexOrder(MonthOf(dates[i]), ym);
    }
    if exists i :: 0 <= i < |dates| && MonthOf(dates[i]) == ym {
      var i :| 0 <= i < |dates| && MonthOf(dates[i]) == ym;
      assert keys[i] in ks;
      var j :| 0 <= j < |ks| && ks[j] == keys[i];
      assert r[j] == ym;
    }
  }

  function TaxYearOf(startMonth: int): Date -> int {
    d => GetTaxYear(d, startMonth)
  }

  /** `sorted(set(get_tax_year(d, tsm) for d in dates), reverse=True) if dates
      else []`: each tax year that holds a date, once, newest first; empty
      exactly when there are no dates. */
  function AvailableTaxYears(dates: seq<Date>, startMonth: int): (r: seq<int>)
    ensures forall y :: y in r <==> exists i :: 0 <= i < |dates| && GetTaxYear(dates[i], startMonth) == y
    ensures StrictlyDecreasing(r)
    ensures |r| == 0 <==> |dates| == 0
  {
    var years := MapSeq(dates, TaxYearOf(startMonth));
    var r := if |dates| > 0 then DescendingDistinct(years) else [];
    forall y ensures y in r <==> exists i :: 0 <= i < |dates| && GetTaxYear(dates[i], startMonth) == y {
      if exists i :: 0 <= i < |dates| && GetTaxYear(dates[i], startMonth) == y {
        var i :| 0 <= i < |dates| && GetTaxYear(dates[i], startMonth) == y;
        assert years[i] == y;
      }
    }
    r
  }

  // ---------------------------------------------------------------------------
  // Totals
  // ---------------------------------------------------------------------------

  /** The totals a report shows: the number of sessions, hours (hundredths),
      labour, expenses and their sum (pence). */
  datatype Totals = Totals(sessions: int, hours: int, labour: int, expenses: int, amount: int)

  const NoTotals: Totals := Totals(0, 0, 0, 0, 0)

  /** The `sum(...)` lines of the reports and the invoice. */
  function TotalsOf(entries: seq<Entry>, expenses: seq<Expense>): (t: Totals)
    ensures t.sessions == |entries|
    ensures t.hours == SumOf(entries, EntryHours) && t.labour == SumOf(entries, EntryAmount)
    ensures t.expenses == SumOf(expenses, ExpenseAmount)
    ensures t.amount == t.labour + t.expenses
    ensures entries == [] && expenses == [] ==> t == NoTotals
  {
    var labour, spent := SumOf(entries, EntryAmount), SumOf(expenses, ExpenseAmount);
    Totals(|entries|, SumOf(entries, EntryHours), labour, spent, labour + spent)
  }

  /** Totals over joined lists are the sums of the totals: the totals of a
      report split into parts add up to the totals of the whole. */
  lemma TotalsConcat(e1: seq<Entry>, e2: seq<Entry>, x1: seq<Expense>, x2: seq<Expense>)
    ensures TotalsOf(e1 + e2, x1 + x2).sessions == TotalsOf(e1, x1).sessions + TotalsOf(e2, x2).sessions
    ensures TotalsOf(e1 + e2, x1 + x2).hours == TotalsOf(e1, x1).hours + TotalsOf(e2, x2).hours
    ensures TotalsOf(e1 + e2, x1 + x2).labour == TotalsOf(e1, x1).labour + TotalsOf(e2, x2).labour
    ensures TotalsOf(e1 + e2, x1 + x2).expenses == TotalsOf(e1, x1).expenses + TotalsOf(e2, x2).expenses
    ensures TotalsOf(e1 + e2, x1 + x2).amount == TotalsOf(e1, x1).amount + TotalsOf(e2, x2).amount
  {
    SumConcat(e1, e2, EntryHours);
    SumConcat(e1, e2, EntryAmount);
    SumConcat(x1, x2, ExpenseAmount);
  }

  /** Sorting the lists for display does not change their totals. */
  lemma TotalsSorted(entries: seq<Entry>, expenses: seq<Expense>)
    ensures TotalsOf(SortBy(entries, EntryDateKey), SortBy(expenses, ExpenseDateKey)) == TotalsOf(entries, expenses)
  {
    SumSortBy(entries, EntryDateKey, EntryHours);
    SumSortBy(entries, EntryDateKey, EntryAmount);
    SumSortBy(expenses, ExpenseDateKey, ExpenseAmount);
  }

  // ---------------------------------------------------------------------------
  // The monthly report
  // ---------------------------------------------------------------------------

  datatype MonthlyReport = MonthlyReport(
    available: seq<YearMonth>,
    labels: seq<string>,
    totals: Totals,
    entries: seq<Entry>,
    expenses: seq<Expense>)

  /** `if year and month`: both given and neither zero. */
  predicate MonthSelected(year: Option<int>, month: Option<int>) {
    year.Some? && year.value != 0 && month.Some? && month.value != 0
  }

  /** The monthly report: the months on offer for the client, and for a chosen
      month its sessions and expenses in date order with their totals. With
      no month chosen the lists are empty and every total is zero. */
  function MonthlyReportOf(entries: seq<Entry>, expenses: seq<Expense>, clientId: Option<string>,
                           year: Option<int>, month: Option<int>): (r: MonthlyReport)
    ensures var es, xs := FilterByClient(entries, EntryClient, clientId), FilterByClient(expenses, ExpenseClient, clientId);
      && r.available == AvailableMonths(AllDates(es, xs))
      && (MonthSelected(year, month) ==>
            && multiset(r.entries) == multiset(MonthFilter(es, EntryDate, year.value, month.value))
            && multiset(r.expenses) == multiset(MonthFilter(xs, ExpenseDate, year.value, month.value)))
    ensures !MonthSelected(year, month) ==> r.entries == [] && r.expenses == [] && r.totals == NoTotals
    ensures SortedBy(r.entries, EntryDateKey) && SortedBy(r.expenses, ExpenseDateKey)
    ensures r.totals == TotalsOf(r.entries, r.expenses)
    ensures |r.labels| == |r.available| && forall i :: 0 <= i < |r.available| ==> r.labels[i] == MonthLabel(r.available[i])
  {
    var es, xs := FilterByClient(entries, EntryClient, clientId), FilterByClient(expenses, ExpenseClient, clientId);
    var available := AvailableMonths(AllDates(es, xs));
    var me, mx :=
      if MonthSelected(year, month) then MonthFilter(es, EntryDate, year.value, month.value) else [],
      if MonthSelected(year, month) then MonthFilter(xs, ExpenseDate, year.value, month.value) else [];
    TotalsSorted(me, mx);
    MonthlyReport(available, MapSeq(available, MonthLabel), TotalsOf(me, mx), SortBy(me, EntryDateKey), SortBy(mx, ExpenseDateKey))
  }

  /** `sorted(..., key=lambda x: x["date"])` is stable: records of one date
      stay in the order the month filter lists them. */
  lemma MonthlyReportStable(entries: seq<Entry>, expenses: seq<Expense>, clientId: Option<string>,
                            year: Option<int>, month: Option<int>, k: int)
    requires MonthSelected(year, month)
    ensures var r := MonthlyReportOf(entries, expenses, clientId, year, month);
      var es, xs := FilterByClient(entries, EntryClient, clientId), FilterByClient(expenses, ExpenseClient, clientId);
      && Keep(r.entries, KeyIs(EntryDateKey, k)) == Keep(MonthFilter(es, EntryDate, year.value, month.value), KeyIs(EntryDateKey, k))
      && Keep(r.expenses, KeyIs(ExpenseDateKey, k)) == Keep(MonthFilter(xs, ExpenseDate, year.value, month.value), KeyIs(ExpenseDateKey, k))
  {
    var es, xs := FilterByClient(entries, EntryClient, clientId), FilterByClient(expenses, ExpenseClient, clientId);
    SortByStable(MonthFilter(es, EntryDate, year.value, month.value), EntryDateKey, k);
    SortByStable(MonthFilter(xs, ExpenseDate, year.value, month.value), ExpenseDateKey, k);
  }
}
