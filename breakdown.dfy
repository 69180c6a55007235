/** The per-month breakdown of a tax year, built the same way in the web
    report and in the app: one pass over the tax year's sessions and one over
    its expenses accumulate a dictionary of per-month buckets, whose keys are
    then listed oldest first. The web report keys the dictionary by the text
    "YYYY-MM", the app by the tuple (year, month); both are modelled by
    `YearMonth` keys, and `MonthKeyTextOrder` shows that the two orders agree. */
module Breakdown {
  import opened Wrappers
  import opened Text
  import opened Seqs
  import opened Calendar
  import opened Domain
  import opened Hours
  import opened TaxYear
  import opened Reports
  import opened Rounding

  /** One month's running totals: hours (hundredths), labour and expenses
      (pence), and the number of sessions. */
  datatype Bucket = Bucket(hours: int, labour: int, expenses: int, sessions: int)

  function EntryMonthKey(e: Entry): int { MonthKey(e.date) }
  function ExpenseMonthKey(x: Expense): int { MonthKey(x.date) }

  /** What the dictionary holds for month `ym` once both passes are done:
      the sums over the sessions and the expenses dated in that month. */
  function MonthBucket(entries: seq<Entry>, expenses: seq<Expense>, ym: YearMonth): Bucket {
    var k := MonthIndex(ym);
    Bucket(SumWhere(entries, EntryMonthKey, k, EntryHours), SumWhere(entries, EntryMonthKey, k, EntryAmount),
           SumWhere(expenses, ExpenseMonthKey, k, ExpenseAmount), SumWhere(entries, EntryMonthKey, k, One))
  }

  function EntryMonths(entries: seq<Entry>): set<YearMonth> {
    set i | 0 <= i < |entries| :: MonthOf(entries[i].date)
  }

  function ExpenseMonths(expenses: seq<Expense>): set<YearMonth> {
    set i | 0 <= i < |expenses| :: MonthOf(expenses[i].date)
  }

  /** The months that hold a session or an expense. */
  function MonthsOf(entries: seq<Entry>, expenses: seq<Expense>): set<YearMonth> {
    EntryMonths(entries) + ExpenseMonths(expenses)
  }

  lemma EntryMonthsSnoc(entries: seq<Entry>, e: Entry)
    ensures EntryMonths(entries + [e]) == EntryMonths(entries) + {MonthOf(e.date)}
  {
    var s := entries + [e];
    assert forall j :: 0 <= j < |entries| ==> s[j] == entries[j];
    assert s[|entries|] == e;
  }

  lemma ExpenseMonthsSnoc(expenses: seq<Expense>, x: Expense)
    ensures ExpenseMonths(expenses + [x]) == ExpenseMonths(expenses) + {MonthOf(x.date)}
  {
    var s := expenses + [x];
    assert forall j :: 0 <= j < |expenses| ==> s[j] == expenses[j];
    assert s[|expenses|] == x;
  }

  /** Adding one session to the list adds it to its own month's bucket and
      leaves every other month alone. */
  lemma BucketAddEntry(entries: seq<Entry>, e: Entry, expenses: seq<Expense>, ym: YearMonth)
    ensures MonthBucket(entries + [e], expenses, ym) ==
      var b := MonthBucket(entries, expenses, ym);
      if MonthOf(e.date) == ym then Bucket(b.hours + e.hours, b.labour + e.amount, b.expenses, b.sessions + 1) else b
  {
    var k := MonthIndex(ym);
    MonthIndexOrder(MonthOf(e.date), ym);
    SumWhereSnoc(entries, e, EntryMonthKey, k, EntryHours);
    SumWhereSnoc(entries, e, EntryMonthKey, k, EntryAmount);
    SumWhereSnoc(entries, e, EntryMonthKey, k, One);
  }

  /** Adding one expense adds to its own month's expenses only. */
  lemma BucketAddExpense(entries: seq<Entry>, expenses: seq<Expense>, x: Expense, ym: YearMonth)
    ensures MonthBucket(entries, expenses + [x], ym) ==
      var b := MonthBucket(entries, expenses, ym);
      if MonthOf(x.date) == ym then b.(expenses := b.expenses + x.amount) else b
  {
    MonthIndexOrder(MonthOf(x.date), ym);
    SumWhereSnoc(expenses, x, ExpenseMonthKey, MonthIndex(ym), ExpenseAmount);
  }

  /** A month with no session and no expense has an empty bucket. */
  lemma BucketEmpty(entries: seq<Entry>, expenses: seq<Expense>, ym: YearMonth)
    requires ym !in MonthsOf(entries, expenses)
    ensures MonthBucket(entries, expenses, ym) == Bucket(0, 0, 0, 0)
  {
    var k := MonthIndex(ym);
    forall i | 0 <= i < |entries| ensures EntryMonthKey(entries[i]) != k {
      assert MonthOf(entries[i].date) in EntryMonths(entries);
      MonthIndexOrder(MonthOf(entries[i].date), ym);
    }
    forall i | 0 <= i < |expenses| ensures ExpenseMonthKey(expenses[i]) != k {
      assert MonthOf(expenses[i].date) in ExpenseMonths(expenses);
      MonthIndexOrder(MonthOf(expenses[i].date), ym);
    }
    SumWhereNone(entries, EntryMonthKey, k, EntryHours);
    SumWhereNone(entries, EntryMonthKey, k, EntryAmount);
    SumWhereNone(entries, EntryMonthKey, k, One);
    SumWhereNone(expenses, ExpenseMonthKey, k, ExpenseAmount);
  }

  /** The dictionary holds a bucket for each month with a session or an
      expense, and each bucket holds its month's sums. */
  ghost predicate Accumulated(monthly: map<YearMonth, Bucket>, entries: seq<Entry>, expenses: seq<Expense>) {
    && monthly.Keys == MonthsOf(entries, expenses)
    && forall ym :: ym in monthly ==> monthly[ym] == MonthBucket(entries, expenses, ym)
  }

  /** `if month_key not in monthly_data: monthly_data[month_key] = {...}`. */
  function WithBucket(monthly: map<YearMonth, Bucket>, key: YearMonth): (m: map<YearMonth, Bucket>)
    ensures key in m
  {
    if key in monthly then monthly else monthly[key := Bucket(0, 0, 0, 0)]
  }

  /** The sessions loop's step: the session's month gets an empty bucket on
      first sight, then its hours, amount and one more session. */
  function AddEntry(monthly: map<YearMonth, Bucket>, e: Entry): map<YearMonth, Bucket> {
    var key := MonthOf(e.date);
    var m := WithBucket(monthly, key);
    m[key := Bucket(m[key].hours + e.hours, m[key].labour + e.amount, m[key].expenses, m[key].sessions + 1)]
  }

  /** The expenses loop's step: the expense's month gets an empty bucket on
      first sight, then its amount. */
  function AddExpense(monthly: map<YearMonth, Bucket>, x: Expense): map<YearMonth, Bucket> {
    var key := MonthOf(x.date);
    var m := WithBucket(monthly, key);
    m[key := m[key].(expenses := m[key].expenses + x.amount)]
  }

  /** One step of the sessions loop keeps the dictionary accumulated. */
  lemma AccumulateEntry(monthly: map<YearMonth, Bucket>, entries: seq<Entry>, expenses: seq<Expense>, e: Entry)
    requires Accumulated(monthly, entries, expenses)
    ensures Accumulated(AddEntry(monthly, e), entries + [e], expenses)
  {
    var key := MonthOf(e.date);
    if key !in monthly {
      BucketEmpty(entries, expenses, key);
    }
    var m := if key in monthly then monthly else monthly[key := Bucket(0, 0, 0, 0)];
    assert m[key] == MonthBucket(entries, expenses, key);
    var m2 := AddEntry(monthly, e);
    EntryMonthsSnoc(entries, e);
    assert m2.Keys == MonthsOf(entries + [e], expenses);
    BucketAddEntry(entries, e, expenses, key);
    forall ym | ym in m2 && ym != key ensures m2[ym] == MonthBucket(entries + [e], expenses, ym) {
      BucketAddEntry(entries, e, expenses, ym);
    }
  }

  /** One step of the expenses loop keeps the dictionary accumulated. */
  lemma AccumulateExpense(monthly: map<YearMonth, Bucket>, entries: seq<Entry>, expenses: seq<Expense>, x: Expense)
    requires Accumulated(monthly, entries, expenses)
    ensures Accumulated(AddExpense(monthly, x), entries, expenses + [x])
  {
    var key := MonthOf(x.date);
    if key !in monthly {
      BucketEmpty(entries, expenses, key);
    }
    var m := if key in monthly then monthly else monthly[key := Bucket(0, 0, 0, 0)];
    assert m[key] == MonthBucket(entries, expenses, key);
    var m2 := AddExpense(monthly, x);
    ExpenseMonthsSnoc(expenses, x);
    assert m2.Keys == MonthsOf(entries, expenses + [x]);
    BucketAddExpense(entries, expenses, x, key);
    forall ym | ym in m2 && ym != key ensures m2[ym] == MonthBucket(entries, expenses + [x], ym) {
      BucketAddExpense(entries, expenses, x, ym);
    }
  }

  /** The sessions loop as a fold: the steps for each session in turn. */
  function FoldEntries(monthly: map<YearMonth, Bucket>, entries: seq<Entry>): map<YearMonth, Bucket>
    decreases |entries|
  {
    if entries == [] then monthly
    else AddEntry(FoldEntries(monthly, entries[..|entries| - 1]), entries[|entries| - 1])
  }

  /** The expenses loop as a fold: the steps for each expense in turn. */
  function FoldExpenses(monthly: map<YearMonth, Bucket>, expenses: seq<Expense>): map<YearMonth, Bucket>
    decreases |expenses|
  {
    if expenses == [] then monthly
    else AddExpense(FoldExpenses(monthly, expenses[..|expenses| - 1]), expenses[|expenses| - 1])
  }

  /** From an empty dictionary the sessions loop accumulates every session. */
  lemma {:induction false} FoldEntriesAccumulated(entries: seq<Entry>)
    ensures Accumulated(FoldEntries(map[], entries), entries, [])
    decreases |entries|
  {
    if entries == [] {
      assert MonthsOf([], []) == {};
    } else {
      var init, e := entries[..|entries| - 1], entries[|entries| - 1];
      FoldEntriesAccumulated(init);
      AccumulateEntry(FoldEntries(map[], init), init, [], e);
      assert init + [e] == entries;
    }
  }

  /** After the sessions, the expenses loop accumulates every expense. */
  lemma {:induction false} FoldExpensesAccumulated(start: map<YearMonth, Bucket>, entries: seq<Entry>, expenses: seq<Expense>)
    requires Accumulated(start, entries, [])
    ensures Accumulated(FoldExpenses(start, expenses), entries, expenses)
    decreases |expenses|
  {
    if expenses != [] {
      var init, x := expenses[..|expenses| - 1], expenses[|expenses| - 1];
      FoldExpensesAccumulated(start, entries, init);
      AccumulateExpense(FoldExpenses(start, init), entries, init, x);
      assert init + [x] == expenses;
    }
  }

  /** The two accumulation loops: a bucket per month that holds a session or
      an expense, created empty on first sight, then added to. When done each
      bucket holds exactly its month's sums. */
  method AccumulateMonthly(entries: seq<Entry>, expenses: seq<Expense>) returns (monthly: map<YearMonth, Bucket>)
    ensures monthly == FoldExpenses(FoldEntries(map[], entries), expenses)
    ensures Accumulated(monthly, entries, expenses)
  {
    monthly := map[];
    var i := 0;
    while i < |entries|
      invariant 0 <= i <= |entries|
      invariant monthly == FoldEntries(map[], entries[..i])
    {
      var e := entries[i];
      var key := MonthOf(e.date);
      if key !in monthly {
        monthly := monthly[key := Bucket(0, 0, 0, 0)];
      }
      var b := monthly[key];
      monthly := monthly[key := Bucket(b.hours + e.hours, b.labour + e.amount, b.expenses, b.sessions + 1)];
      assert entries[..i + 1][..i] == entries[..i];
      i := i + 1;
    }
    assert entries[..|entries|] == entries;
    ghost var afterEntries := monthly;
    i := 0;
    while i < |expenses|
      invariant 0 <= i <= |expenses|
      invariant monthly == FoldExpenses(afterEntries, expenses[..i])
    {
      var x := expenses[i];
      var key := MonthOf(x.date);
      if key !in monthly {
        monthly := monthly[key := Bucket(0, 0, 0, 0)];
      }
      var b := monthly[key];
      monthly := monthly[key := b.(expenses := b.expenses + x.amount)];
      assert expenses[..i + 1][..i] == expenses[..i];
      i := i + 1;
    }
    assert expenses[..|expenses|] == expenses;
    FoldEntriesAccumulated(entries);
    FoldExpensesAccumulated(afterEntries, entries, expenses);
  }

  // ---------------------------------------------------------------------------
  // Rows, oldest month first
  // ---------------------------------------------------------------------------

  datatype MonthRow = MonthRow(month: YearMonth, bucket: Bucket)

  function RowSessions(r: MonthRow): int { r.bucket.sessions }
  function RowHours(r: MonthRow): int { r.bucket.hours }
  function RowLabour(r: MonthRow): int { r.bucket.labour }
  function RowExpenses(r: MonthRow): int { r.bucket.expenses }

  /** The row for each of the month numbers `ks`, in the order given. */
  function RowsFor(entries: seq<Entry>, expenses: seq<Expense>, ks: seq<int>): (rows: seq<MonthRow>)
    ensures |rows| == |ks|
    ensures forall i :: 0 <= i < |ks| ==> rows[i] == MonthRow(FromIndex(ks[i]), MonthBucket(entries, expenses, FromIndex(ks[i])))
    decreases |ks|
  {
    if ks == [] then []
    else [MonthRow(FromIndex(ks[0]), MonthBucket(entries, expenses, FromIndex(ks[0])))] + RowsFor(entries, expenses, ks[1..])
  }

  /** The column sums of the rows are the grouped sums over their months. */
  lemma {:induction false} RowSums(entries: seq<Entry>, expenses: seq<Expense>, ks: seq<int>)
    ensures SumOf(RowsFor(entries, expenses, ks), RowHours) == SumByKeys(entries, EntryMonthKey, ks, EntryHours)
    ensures SumOf(RowsFor(entries, expenses, ks), RowLabour) == SumByKeys(entries, EntryMonthKey, ks, EntryAmount)
    ensures SumOf(RowsFor(entries, expenses, ks), RowExpenses) == SumByKeys(expenses, ExpenseMonthKey, ks, ExpenseAmount)
    ensures SumOf(RowsFor(entries, expenses, ks), RowSessions) == SumByKeys(entries, EntryMonthKey, ks, One)
    decreases |ks|
  {
    if ks != [] {
      RowSums(entries, expenses, ks[1..]);
      var rows := RowsFor(entries, expenses, ks);
      assert rows[1..] == RowsFor(entries, expenses, ks[1..]);
      assert MonthIndex(FromIndex(ks[0])) == ks[0];
      SumWhereKeep(entries, EntryMonthKey, ks[0], EntryHours);
      SumWhereKeep(entries, EntryMonthKey, ks[0], EntryAmount);
      SumWhereKeep(entries, EntryMonthKey, ks[0], One);
      SumWhereKeep(expenses, ExpenseMonthKey, ks[0], ExpenseAmount);
    }
  }

  /** The month numbers of all sessions and expenses, sorted, once each. */
  function SortedMonthKeys(entries: seq<Entry>, expenses: seq<Expense>): (ks: seq<int>)
    ensures StrictlyIncreasing(ks)
    ensures forall ym :: ym in MonthsOf(entries, expenses) <==> MonthIndex(ym) in ks
    ensures forall i :: 0 <= i < |entries| ==> EntryMonthKey(entries[i]) in ks
    ensures forall i :: 0 <= i < |expenses| ==> ExpenseMonthKey(expenses[i]) in ks
  {
    var all := MapSeq(entries, EntryMonthKey) + MapSeq(expenses, ExpenseMonthKey);
    var ks := SortedDistinct(all);
    forall ym ensures ym in MonthsOf(entries, expenses) <==> MonthIndex(ym) in ks {
      KeysCoverMonths(entries, expenses, ks, ym);
    }
    assert forall i :: 0 <= i < |entries| ==> all[i] == EntryMonthKey(entries[i]);
    assert forall i :: 0 <= i < |expenses| ==> all[|entries| + i] == ExpenseMonthKey(expenses[i]);
    ks
  }

  /** The sorted month numbers are those of the dictionary's keys. */
  lemma KeysCoverMonths(entries: seq<Entry>, expenses: seq<Expense>, keys: seq<int>, ym: YearMonth)
    requires forall y :: y in keys <==> y in MapSeq(entries, EntryMonthKey) + MapSeq(expenses, ExpenseMonthKey)
    ensures ym in MonthsOf(entries, expenses) <==> MonthIndex(ym) in keys
  {
    var all := MapSeq(entries, EntryMonthKey) + MapSeq(expenses, ExpenseMonthKey);
    if ym in EntryMonths(entries) {
      var i :| 0 <= i < |entries| && MonthOf(entries[i].date) == ym;
      assert all[i] == MonthIndex(ym);
    }
    if ym in ExpenseMonths(expenses) {
      var i :| 0 <= i < |expenses| && MonthOf(expenses[i].date) == ym;
      assert all[|entries| + i] == MonthIndex(ym);
    }
    if MonthIndex(ym) in keys {
      var k :| 0 <= k < |all| && all[k] == MonthIndex(ym);
      if k < |entries| {
        MonthIndexOrder(MonthOf(entries[k].date), ym);
        assert MonthOf(entries[k].date) in EntryMonths(entries);
      } else {
        MonthIndexOrder(MonthOf(expenses[k - |entries|].date), ym);
        assert MonthOf(expenses[k - |entries|].date) in ExpenseMonths(expenses);
      }
    }
  }

  /** Rows over strictly increasing month numbers run oldest first. */
  lemma RowsOrdered(entries: seq<Entry>, expenses: seq<Expense>, ks: seq<int>)
    requires StrictlyIncreasing(ks)
    ensures var rows := RowsFor(entries, expenses, ks);
      forall i, j :: 0 <= i < j < |rows| ==> MonthBefore(rows[i].month, rows[j].month)
  {
    var rows := RowsFor(entries, expenses, ks);
    forall i, j | 0 <= i < j < |rows| ensures MonthBefore(rows[i].month, rows[j].month) {
      MonthIndexOrder(rows[i].month, rows[j].month);
    }
  }

  /** The rows over the sorted month numbers add up to the totals. */
  lemma RowsTotal(entries: seq<Entry>, expenses: seq<Expense>)
    ensures var rows := RowsFor(entries, expenses, SortedMonthKeys(entries, expenses));
      && SumOf(rows, RowSessions) == |entries|
      && SumOf(rows, RowHours) == TotalsOf(entries, expenses).hours
      && SumOf(rows, RowLabour) == TotalsOf(entries, expenses).labour
      && SumOf(rows, RowExpenses) == TotalsOf(entries, expenses).expenses
  {
    var keys := SortedMonthKeys(entries, expenses);
    RowSums(entries, expenses, keys);
    SumByKeysTotal(entries, EntryMonthKey, keys, EntryHours);
    SumByKeysTotal(entries, EntryMonthKey, keys, EntryAmount);
    SumByKeysTotal(entries, EntryMonthKey, keys, One);
    SumByKeysTotal(expenses, ExpenseMonthKey, keys, ExpenseAmount);
    SumOne(entries);
  }

  /** Every month with a session or an expense has its row. */
  lemma RowsCover(entries: seq<Entry>, expenses: seq<Expense>, ym: YearMonth)
    requires ym in MonthsOf(entries, expenses)
    ensures var rows := RowsFor(entries, expenses, SortedMonthKeys(entries, expenses));
      exists i :: 0 <= i < |rows| && rows[i].month == ym
  {
    var keys := SortedMonthKeys(entries, expenses);
    var k :| 0 <= k < |keys| && keys[k] == MonthIndex(ym);
    assert RowsFor(entries, expenses, keys)[k].month == ym;
  }

  /** The rows over the sorted month numbers have every property of the
      breakdown. */
  lemma RowsProperties(entries: seq<Entry>, expenses: seq<Expense>)
    ensures var rows := RowsFor(entries, expenses, SortedMonthKeys(entries, expenses));
      && (forall i, j :: 0 <= i < j < |rows| ==> MonthBefore(rows[i].month, rows[j].month))
      && (forall ym :: ym in MonthsOf(entries, expenses) <==> exists i :: 0 <= i < |rows| && rows[i].month == ym)
      && (forall i :: 0 <= i < |rows| ==> rows[i].bucket == MonthBucket(entries, expenses, rows[i].month))
  {
    var keys := SortedMonthKeys(entries, expenses);
    var rows := RowsFor(entries, expenses, keys);
    RowsOrdered(entries, expenses, keys);
    forall ym ensures ym in MonthsOf(entries, expenses) <==> exists i :: 0 <= i < |rows| && rows[i].month == ym {
      if ym in MonthsOf(entries, expenses) {
        RowsCover(entries, expenses, ym);
      }
      if exists i :: 0 <= i < |rows| && rows[i].month == ym {
        var i :| 0 <= i < |rows| && rows[i].month == ym;
        KeyHasMonth(entries, expenses, keys[i]);
      }
    }
  }

  /** The breakdown `[... for key in sorted(monthly)]`: one row per month that
      holds a session or an expense, oldest first, each carrying its month's
      sums. The rows' sessions add up to the number of sessions, and their
      hours, labour and expenses to the tax year's totals. */
  function MonthlyRows(entries: seq<Entry>, expenses: seq<Expense>): (rows: seq<MonthRow>)
    ensures forall i, j :: 0 <= i < j < |rows| ==> MonthBefore(rows[i].month, rows[j].month)
    ensures forall ym :: ym in MonthsOf(entries, expenses) <==> exists i :: 0 <= i < |rows| && rows[i].month == ym
    ensures forall i :: 0 <= i < |rows| ==> rows[i].bucket == MonthBucket(entries, expenses, rows[i].month)
    ensures SumOf(rows, RowSessions) == |entries|
    ensures SumOf(rows, RowHours) == TotalsOf(entries, expenses).hours
    ensures SumOf(rows, RowLabour) == TotalsOf(entries, expenses).labour
    ensures SumOf(rows, RowExpenses) == TotalsOf(entries, expenses).expenses
  {
    RowsProperties(entries, expenses);
    RowsTotal(entries, expenses);
    RowsFor(entries, expenses, SortedMonthKeys(entries, expenses))
  }

  lemma MonthlyRowsAre(entries: seq<Entry>, expenses: seq<Expense>)
    ensures MonthlyRows(entries, expenses) == RowsFor(entries, expenses, SortedMonthKeys(entries, expenses))
  {
  }

  /** Each sorted month number is the number of a month in the dictionary. */
  lemma KeyHasMonth(entries: seq<Entry>, expenses: seq<Expense>, k: int)
    requires k in SortedMonthKeys(entries, expenses)
    ensures FromIndex(k) in MonthsOf(entries, expenses)
  {
    assert MonthIndex(FromIndex(k)) == k;
  }

  /** The loop that lists the dictionary's buckets in the order of `keys`. */
  method ListRows(monthly: map<YearMonth, Bucket>, keys: seq<int>) returns (rows: seq<MonthRow>)
    requires forall i :: 0 <= i < |keys| ==> FromIndex(keys[i]) in monthly
    ensures |rows| == |keys|
    ensures forall i :: 0 <= i < |keys| ==> rows[i] == MonthRow(FromIndex(keys[i]), monthly[FromIndex(keys[i])])
  {
    rows := [];
    var i := 0;
    while i < |keys|
      invariant 0 <= i <= |keys|
      invariant |rows| == i
      invariant forall j :: 0 <= j < i ==> rows[j] == MonthRow(FromIndex(keys[j]), monthly[FromIndex(keys[j])])
    {
      var ym := FromIndex(keys[i]);
      rows := rows + [MonthRow(ym, monthly[ym])];
      i := i + 1;
    }
  }

  /** Listing an accumulated dictionary gives the rows of the breakdown. */
  lemma ListedRows(entries: seq<Entry>, expenses: seq<Expense>, monthly: map<YearMonth, Bucket>, rows: seq<MonthRow>)
    requires Accumulated(monthly, entries, expenses)
    requires var keys := SortedMonthKeys(entries, expenses);
      && |rows| == |keys|
      && forall i :: 0 <= i < |keys| ==> FromIndex(keys[i]) in monthly && rows[i] == MonthRow(FromIndex(keys[i]), monthly[FromIndex(keys[i])])
    ensures rows == RowsFor(entries, expenses, SortedMonthKeys(entries, expenses))
  {
  }

  /** The breakdown as the reports build it: accumulate, then list. */
  method BreakdownRows(entries: seq<Entry>, expenses: seq<Expense>) returns (rows: seq<MonthRow>)
    ensures rows == MonthlyRows(entries, expenses)
  {
    var monthly := AccumulateMonthly(entries, expenses);
    var keys := SortedMonthKeys(entries, expenses);
    forall i | 0 <= i < |keys| ensures FromIndex(keys[i]) in monthly {
      KeyHasMonth(entries, expenses, keys[i]);
    }
    rows := ListRows(monthly, keys);
    ListedRows(entries, expenses, monthly, rows);
    MonthlyRowsAre(entries, expenses);
  }

  // ---------------------------------------------------------------------------
  // The web report's text keys
  // ---------------------------------------------------------------------------

  /** `f"{d.year}-{d.month:02d}"`. */
  function MonthKeyText(ym: YearMonth): (s: string)
    ensures |s| >= 4 && s[|s| - 3] == '-'
    ensures ParseInt(s[..|s| - 3]) == Some(ym.year) && ParseNat(s[|s| - 2..]) == Some(ym.month)
  {
    var s := IntToString(ym.year) + "-" + Pad2(ym.month);
    assert s[..|s| - 3] == IntToString(ym.year) && s[|s| - 2..] == Pad2(ym.month);
    ParseIntToString(ym.year);
    ParsePad2(ym.month);
    s
  }

  /** Distinct months have distinct text keys, so each month is one key. */
  lemma MonthKeyTextInjective(a: YearMonth, b: YearMonth)
    ensures MonthKeyText(a) == MonthKeyText(b) <==> a == b
  {
    if MonthKeyText(a) == MonthKeyText(b) {
      var ta, tb := IntToString(a.year), IntToString(b.year);
      var s := MonthKeyText(a);
      assert |ta| == |tb|;
      assert ta == s[..|ta|] && tb == MonthKeyText(b)[..|tb|];
      IntToStringInjective(a.year, b.year);
      assert Pad2(a.month) == s[|ta| + 1..];
      assert Pad2(b.month) == MonthKeyText(b)[|tb| + 1..];
    }
  }

  /** For four-digit years, `sorted(monthly)` on the text keys is the
      chronological order. */
  lemma MonthKeyTextOrder(a: YearMonth, b: YearMonth)
    requires 1000 <= a.year <= 9999 && 1000 <= b.year <= 9999
    ensures LexLess(MonthKeyText(a), MonthKeyText(b)) <==> MonthBefore(a, b)
  {
    FourDigits(a.year);
    FourDigits(b.year);
    var ya, yb := IntToString(a.year), IntToString(b.year);
    LexConcat(ya, yb, "-" + Pad2(a.month), "-" + Pad2(b.month));
    assert MonthKeyText(a) == ya + ("-" + Pad2(a.month));
    assert MonthKeyText(b) == yb + ("-" + Pad2(b.month));
    DigitsLex(ya, yb);
    LexConcat("-", "-", Pad2(a.month), Pad2(b.month));
    DigitsLex(Pad2(a.month), Pad2(b.month));
  }

  // ---------------------------------------------------------------------------
  // The rows as each front end shows them
  // ---------------------------------------------------------------------------

  /** A breakdown row of the web report. */
  datatype WebRow = WebRow(title: string, sessions: int, hours: int, hoursText: string,
                           labour: int, expenses: int, total: int)

  function ToWebRow(r: MonthRow): (w: WebRow)
    ensures w.total == w.labour + w.expenses
    ensures w.sessions == r.bucket.sessions && w.labour == r.bucket.labour && w.expenses == r.bucket.expenses
    ensures w.title == ShortMonthLabel(r.month) && w.hours == r.bucket.hours
    ensures w.hoursText == FormatHours(r.bucket.hours, 100)
  {
    var b := r.bucket;
    WebRow(ShortMonthLabel(r.month), b.sessions, b.hours, FormatHours(b.hours, 100), b.labour, b.expenses, b.labour + b.expenses)
  }

  /** `f"{currency}{pence / 100:.2f}"`: the currency, a minus sign exactly
      for a negative amount, then the whole units, a point and two digits. */
  function MoneyText(currency: string, pence: int): (s: string)
    ensures |s| >= |currency| + 4 && currency <= s && s[|s| - 3] == '.'
    ensures s[|currency|] == '-' <==> pence < 0
    ensures s[|s| - 2..] == Pad2(Abs(pence) % 100)
  {
    var p := Abs(pence);
    var s := currency + (if pence < 0 then "-" else "") + NatToString(p / 100) + "." + Pad2(p % 100);
    assert NatToString(p / 100)[0] != '-' by { assert IsDigit(NatToString(p / 100)[0]); }
    assert s[|s| - 2..] == Pad2(p % 100);
    s
  }

  /** The money text reads back as its amount: the digits before the point
      are the whole units and the two after it the remaining pence. */
  lemma MoneyTextValue(currency: string, pence: int)
    ensures var s := MoneyText(currency, pence);
      var sign := if pence < 0 then 1 else 0;
      && ParseNat(s[|currency| + sign..|s| - 3]) == Some(Abs(pence) / 100)
      && ParseNat(s[|s| - 2..]) == Some(Abs(pence) % 100)
  {
    var s := MoneyText(currency, pence);
    var sign := if pence < 0 then 1 else 0;
    var p := Abs(pence);
    assert s == currency + (if pence < 0 then "-" else "") + NatToString(p / 100) + "." + Pad2(p % 100);
    assert s[|currency| + sign..|s| - 3] == NatToString(p / 100);
    ParseNatToString(p / 100);
    ParsePad2(p % 100);
  }

  lemma MoneyTextNotDash(currency: string, pence: int)
    ensures MoneyText(currency, pence) != "-"
  {
    assert |MoneyText(currency, pence)| >= 4;
  }

  /** A breakdown row of the app's table. */
  datatype AppRow = AppRow(title: string, sessions: int, hoursText: string, expensesText: string, totalText: string)

  /** The expenses cell is "-" exactly when the month's expenses are not
      positive; the total cell shows labour plus expenses. */
  function ToAppRow(r: MonthRow, currency: string): (a: AppRow)
    ensures a.expensesText == "-" <==> r.bucket.expenses <= 0
    ensures r.bucket.expenses > 0 ==> a.expensesText == MoneyText(currency, r.bucket.expenses)
    ensures a.title == ShortMonthLabel(r.month) && a.sessions == r.bucket.sessions
    ensures a.hoursText == FormatHours(r.bucket.hours, 100)
    ensures a.totalText == MoneyText(currency, r.bucket.labour + r.bucket.expenses)
  {
    var b := r.bucket;
    var shown := MoneyText(currency, b.expenses);
    MoneyTextNotDash(currency, b.expenses);
    var cell := if b.expenses > 0 then shown else "-";
    AppRow(ShortMonthLabel(r.month), b.sessions, FormatHours(b.hours, 100), cell,
      MoneyText(currency, b.labour + b.expenses))
  }

  // ---------------------------------------------------------------------------
  // The tax-year report
  // ---------------------------------------------------------------------------

  datatype TaxYearReport = TaxYearReport(
    years: seq<int>,
    labels: seq<string>,
    totals: Totals,
    breakdown: seq<WebRow>)

  function WebSessions(w: WebRow): int { w.sessions }
  function WebLabour(w: WebRow): int { w.labour }
  function WebExpenses(w: WebRow): int { w.expenses }

  /** Showing the rows does not change their column sums. */
  lemma {:induction false} WebRowSums(rows: seq<MonthRow>)
    ensures SumOf(MapSeq(rows, ToWebRow), WebSessions) == SumOf(rows, RowSessions)
    ensures SumOf(MapSeq(rows, ToWebRow), WebLabour) == SumOf(rows, RowLabour)
    ensures SumOf(MapSeq(rows, ToWebRow), WebExpenses) == SumOf(rows, RowExpenses)
    decreases |rows|
  {
    if rows != [] {
      WebRowSums(rows[1..]);
      assert MapSeq(rows, ToWebRow)[1..] == MapSeq(rows[1..], ToWebRow);
    }
  }

  /** The sessions and expenses of the client in tax year `ty`. */
  function TaxYearEntries(entries: seq<Entry>, clientId: Option<string>, startMonth: Month, ty: int): seq<Entry> {
    TaxYearFilter(FilterByClient(entries, EntryClient, clientId), EntryDate, startMonth, ty)
  }

  function TaxYearExpenses(expenses: seq<Expense>, clientId: Option<string>, startMonth: Month, ty: int): seq<Expense> {
    TaxYearFilter(FilterByClient(expenses, ExpenseClient, clientId), ExpenseDate, startMonth, ty)
  }

  /** The tax years on offer for the client. */
  function ClientTaxYears(entries: seq<Entry>, expenses: seq<Expense>, clientId: Option<string>, startMonth: Month): seq<int> {
    AvailableTaxYears(AllDates(FilterByClient(entries, EntryClient, clientId), FilterByClient(expenses, ExpenseClient, clientId)), startMonth)
  }

  /** The web tax-year report: the tax years on offer for the client with
      helpers.py's labels; for a chosen tax year its totals and its
      breakdown, the months of `MonthlyRows` oldest first, whose rows add up
      to those totals. With no tax year chosen everything is
      zero and the breakdown is empty. */
  method TaxYearReportOf(entries: seq<Entry>, expenses: seq<Expense>, clientId: Option<string>,
                         startMonth: Month, selected: Option<int>) returns (r: TaxYearReport)
    ensures r.years == ClientTaxYears(entries, expenses, clientId, startMonth)
    ensures |r.labels| == |r.years| && forall i :: 0 <= i < |r.years| ==> r.labels[i] == TaxYearLabel(r.years[i], startMonth)
    ensures selected.Some? ==> r.totals == TotalsOf(TaxYearEntries(entries, clientId, startMonth, selected.value),
                                                    TaxYearExpenses(expenses, clientId, startMonth, selected.value))
    ensures selected.None? ==> r.totals == NoTotals && r.breakdown == []
    ensures selected.Some? ==> r.breakdown == MapSeq(MonthlyRows(TaxYearEntries(entries, clientId, startMonth, selected.value),
                                                                 TaxYearExpenses(expenses, clientId, startMonth, selected.value)), ToWebRow)
    ensures SumOf(r.breakdown, WebSessions) == r.totals.sessions
    ensures SumOf(r.breakdown, WebLabour) == r.totals.labour
    ensures SumOf(r.breakdown, WebExpenses) == r.totals.expenses
  {
    var years := ClientTaxYears(entries, expenses, clientId, startMonth);
    var labels := MapSeq(years, (ty: int) => TaxYearLabel(ty, startMonth));
    var te: seq<Entry>, tx: seq<Expense> := [], [];
    if selected.Some? {
      te := TaxYearEntries(entries, clientId, startMonth, selected.value);
      tx := TaxYearExpenses(expenses, clientId, startMonth, selected.value);
    }
    var rows := BreakdownRows(te, tx);
    WebRowSums(rows);
    r := TaxYearReport(years, labels, TotalsOf(te, tx), MapSeq(rows, ToWebRow));
  }
}
