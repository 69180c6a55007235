/** The invoice as data: `generate_invoice_number` and what
    `generate_invoice_html` hands its template (helpers.py), and the web
    app's invoice route that selects the client's sessions and expenses of
    one month for it (webapp.py). The HTML itself is not modelled. */
module Invoice {
  import opened Wrappers
  import opened Text
  import opened Seqs
  import opened Calendar
  import opened Domain
  import opened Reports
  import opened Clients

  /** An f-string rendering of a configuration value. */
  function ValueText(v: Value): string {
    match v
    case Number(n) => IntToString(n)
    case Text(s) => s
  }

  /** `f"{prefix}-{year}{month:02d}"`. */
  function InvoiceNumber(prefix: string, year: int, month: int): string {
    prefix + "-" + IntToString(year) + Pad2(month)
  }

  /** The number opens with the prefix and a dash; for a month of one or two
      digits, the month takes exactly two characters at the end. */
  lemma InvoiceNumberShape(prefix: string, year: int, month: int)
    ensures prefix + "-" <= InvoiceNumber(prefix, year, month)
    ensures 0 <= month < 100 ==> |InvoiceNumber(prefix, year, month)| == |prefix| + 1 + |IntToString(year)| + 2
  {
  }

  /** With four-digit years, one prefix gives each month its own number. */
  lemma InvoiceNumberInjective(prefix: string, a: YearMonth, b: YearMonth)
    requires 1000 <= a.year <= 9999 && 1000 <= b.year <= 9999
    ensures InvoiceNumber(prefix, a.year, a.month) == InvoiceNumber(prefix, b.year, b.month) <==> a == b
  {
    FourDigits(a.year);
    FourDigits(b.year);
    var p := prefix + "-";
    var x, y := IntToString(a.year) + Pad2(a.month), IntToString(b.year) + Pad2(b.month);
    assert InvoiceNumber(prefix, a.year, a.month) == p + x;
    assert InvoiceNumber(prefix, b.year, b.month) == p + y;
    if p + x == p + y {
      assert x == (p + x)[|p|..] && y == (p + y)[|p|..];
      assert IntToString(a.year) == x[..4] && IntToString(b.year) == y[..4];
      assert Pad2(a.month) == x[4..] && Pad2(b.month) == y[4..];
      DigitsLex(IntToString(a.year), IntToString(b.year));
      DigitsLex(Pad2(a.month), Pad2(b.month));
    }
  }

  /** With four-digit years and one prefix, the string order of invoice
      numbers is the order of their months. */
  lemma InvoiceNumberOrder(prefix: string, a: YearMonth, b: YearMonth)
    requires 1000 <= a.year <= 9999 && 1000 <= b.year <= 9999
    ensures LexLess(InvoiceNumber(prefix, a.year, a.month), InvoiceNumber(prefix, b.year, b.month)) <==> MonthBefore(a, b)
  {
    FourDigits(a.year);
    FourDigits(b.year);
    var p := prefix + "-";
    var ya, yb := IntToString(a.year), IntToString(b.year);
    assert InvoiceNumber(prefix, a.year, a.month) == p + (ya + Pad2(a.month));
    assert InvoiceNumber(prefix, b.year, b.month) == p + (yb + Pad2(b.month));
    LexConcat(p, p, ya + Pad2(a.month), yb + Pad2(b.month));
    LexIrreflexive(p);
    LexConcat(ya, yb, Pad2(a.month), Pad2(b.month));
    DigitsLex(ya, yb);
    DigitsLex(Pad2(a.month), Pad2(b.month));
  }

  lemma InvoiceNumberExample()
    ensures InvoiceNumber("INV", 2024, 3) == "INV-202403"
  {
    assert NatToString(2024) == NatToString(202) + ['4'];
    assert NatToString(202) == NatToString(20) + ['2'];
    assert NatToString(20) == NatToString(2) + ['0'];
    assert Pad2(3) == "03";
  }

  // ---------------------------------------------------------------------------
  // The rows of the invoice
  // ---------------------------------------------------------------------------

  datatype EntryRow = EntryRow(date: string, startTime: string, endTime: string, hours: int, hourlyRate: int, amount: int)
  datatype ExpenseRow = ExpenseRow(date: string, description: string, amount: int)

  function ToEntryRow(e: Entry): EntryRow {
    EntryRow(DateText(e.date), e.startTime, e.endTime, e.hours, e.hourlyRate, e.amount)
  }

  function ToExpenseRow(x: Expense): ExpenseRow {
    ExpenseRow(DateText(x.date), x.description.GetOr(DefaultDescription), x.amount)
  }

  function EntryRowAmount(r: EntryRow): int { r.amount }
  function EntryRowHours(r: EntryRow): int { r.hours }
  function ExpenseRowAmount(r: ExpenseRow): int { r.amount }

  /** The rows shown for the sessions, in date order. */
  function EntryRowsOf(entries: seq<Entry>): seq<EntryRow> {
    MapSeq(SortBy(entries, EntryDateKey), ToEntryRow)
  }

  /** The rows shown for the expenses, in date order. */
  function ExpenseRowsOf(expenses: seq<Expense>): seq<ExpenseRow> {
    MapSeq(SortBy(expenses, ExpenseDateKey), ToExpenseRow)
  }

  /** One row per session, and the rows add up to the sessions' hours and
      amounts: sorting loses and adds nothing. */
  lemma EntryRowsTotals(entries: seq<Entry>)
    ensures |EntryRowsOf(entries)| == |entries|
    ensures SumOf(EntryRowsOf(entries), EntryRowAmount) == SumOf(entries, EntryAmount)
    ensures SumOf(EntryRowsOf(entries), EntryRowHours) == SumOf(entries, EntryHours)
  {
    var sorted := SortBy(entries, EntryDateKey);
    SumSortBy(entries, EntryDateKey, EntryAmount);
    SumSortBy(entries, EntryDateKey, EntryHours);
    EntryRowSums(sorted);
  }

  /** One row per expense, and the rows add up to the expenses' amounts. */
  lemma ExpenseRowsTotals(expenses: seq<Expense>)
    ensures |ExpenseRowsOf(expenses)| == |expenses|
    ensures SumOf(ExpenseRowsOf(expenses), ExpenseRowAmount) == SumOf(expenses, ExpenseAmount)
  {
    var sorted := SortBy(expenses, ExpenseDateKey);
    SumSortBy(expenses, ExpenseDateKey, ExpenseAmount);
    ExpenseRowSums(sorted);
  }

  lemma {:induction false} EntryRowSums(entries: seq<Entry>)
    ensures SumOf(MapSeq(entries, ToEntryRow), EntryRowAmount) == SumOf(entries, EntryAmount)
    ensures SumOf(MapSeq(entries, ToEntryRow), EntryRowHours) == SumOf(entries, EntryHours)
    decreases |entries|
  {
    if entries != [] {
      EntryRowSums(entries[1..]);
      assert MapSeq(entries, ToEntryRow)[1..] == MapSeq(entries[1..], ToEntryRow);
    }
  }

  lemma {:induction false} ExpenseRowSums(expenses: seq<Expense>)
    ensures SumOf(MapSeq(expenses, ToExpenseRow), ExpenseRowAmount) == SumOf(expenses, ExpenseAmount)
    decreases |expenses|
  {
    if expenses != [] {
      ExpenseRowSums(expenses[1..]);
      assert MapSeq(expenses, ToExpenseRow)[1..] == MapSeq(expenses[1..], ToExpenseRow);
    }
  }

  /** The rows are the sessions in date order, a session's row showing its
      own date, times, hours, rate and amount. */
  lemma EntryRowsSorted(entries: seq<Entry>)
    ensures var sorted := SortBy(entries, EntryDateKey);
      && multiset(sorted) == multiset(entries)
      && (forall i, j :: 0 <= i < j < |sorted| ==> DateKey(sorted[i].date) <= DateKey(sorted[j].date))
      && forall i :: 0 <= i < |sorted| ==> EntryRowsOf(entries)[i] == ToEntryRow(sorted[i])
  {
  }

  /** An expense saved without a description is shown as "Cleaning supplies";
      one with a description is shown with it. */
  lemma ExpenseDescription(x: Expense)
    ensures ToExpenseRow(x).description == if x.description.Some? then x.description.value else "Cleaning supplies"
  {
  }

  // ---------------------------------------------------------------------------
  // The invoice
  // ---------------------------------------------------------------------------

  datatype Invoice = Invoice(
    number: string,
    invoiceDate: string,
    dueDate: string,
    monthName: string,
    currency: string,
    client: Client,
    entries: seq<EntryRow>,
    expenses: seq<ExpenseRow>,
    totalHours: int,
    totalLabour: int,
    totalExpenses: int,
    totalAmount: int)

  /** The invoice for the sessions and expenses of one month, with the
      configuration's prefix, currency and payment terms. */
  function InvoiceFor(monthEntries: seq<Entry>, monthExpenses: seq<Expense>, ym: YearMonth, prefix: string,
                      currency: string, terms: int, client: Client, today: Date): Invoice
    requires ValidDate(today)
  {
    var totals := TotalsOf(monthEntries, monthExpenses);
    var due := AddDays(today, terms);
    Invoice(InvoiceNumber(prefix, ym.year, ym.month), DateText(today), DateText(due), MonthLabel(ym), currency, client,
            EntryRowsOf(monthEntries), ExpenseRowsOf(monthExpenses),
            totals.hours, totals.labour, totals.expenses, totals.labour + totals.expenses)
  }

  /** The invoice's rows are its sessions and expenses, one each, in date
      order; its totals are the sums of those rows and of the lists; it is due
      `terms` days after the invoice date, and numbered and titled by its
      month. */
  lemma InvoiceForProperties(monthEntries: seq<Entry>, monthExpenses: seq<Expense>, ym: YearMonth, prefix: string,
                             currency: string, terms: int, client: Client, today: Date)
    requires ValidDate(today)
    ensures var inv := InvoiceFor(monthEntries, monthExpenses, ym, prefix, currency, terms, client, today);
      && inv.totalLabour == SumOf(inv.entries, EntryRowAmount) && inv.totalHours == SumOf(inv.entries, EntryRowHours)
      && inv.totalExpenses == SumOf(inv.expenses, ExpenseRowAmount)
      && inv.totalAmount == inv.totalLabour + inv.totalExpenses == TotalsOf(monthEntries, monthExpenses).amount
      && |inv.entries| == |monthEntries| && |inv.expenses| == |monthExpenses|
      && (terms > 0 ==> exists due :: ValidDate(due) && DateBefore(today, due) && inv.dueDate == DateText(due))
      && inv.number == InvoiceNumber(prefix, ym.year, ym.month) && inv.monthName == MonthLabel(ym)
  {
    EntryRowsTotals(monthEntries);
    ExpenseRowsTotals(monthExpenses);
    var due := AddDays(today, terms);
    assert terms > 0 ==> ValidDate(due) && DateBefore(today, due);
  }

  /** A configuration the invoice can be made with. */
  predicate Usable(config: Config) {
    "currency_symbol" in config && "invoice_prefix" in config && "payment_terms" in config && config["payment_terms"].Number?
  }

  /** `inv` is the invoice of the month's sessions and expenses under `config`. */
  predicate InvoiceOf(inv: Invoice, monthEntries: seq<Entry>, monthExpenses: seq<Expense>, year: int, month: int,
                      config: Config, today: Date) {
    && ValidDate(today) && Usable(config) && 1 <= year <= 9999 && 1 <= month <= 12
    && inv == InvoiceFor(monthEntries, monthExpenses, YearMonth(year, month), ValueText(config["invoice_prefix"]),
                         ValueText(config["currency_symbol"]), config["payment_terms"].n, inv.client, today)
  }

  /** What each failure of `generate_invoice_html` is. */
  datatype InvoiceError = MissingKey(key: string) | TermsNotNumber | InvalidMonth

  /** `generate_invoice_html`, with `datetime.now()` as `today`. It fails like
      the source: on a missing currency, prefix or payment terms, on payment
      terms that are not a number, and on a year or month that names no date;
      otherwise it gives the invoice of the month for the client. The rows and
      totals read no configuration key and cannot fail, so they are built
      once the checks have passed; which error is raised is unchanged. */
  method ComposeInvoice(monthEntries: seq<Entry>, monthExpenses: seq<Expense>, year: int, month: int,
                        config: Config, client: Client, today: Date) returns (r: Result<Invoice, InvoiceError>)
    requires ValidDate(today)
    ensures "currency_symbol" !in config ==> r == Err(MissingKey("currency_symbol"))
    ensures "currency_symbol" in config && "invoice_prefix" !in config ==> r == Err(MissingKey("invoice_prefix"))
    ensures "currency_symbol" in config && "invoice_prefix" in config && "payment_terms" !in config ==> r == Err(MissingKey("payment_terms"))
    ensures "currency_symbol" in config && "invoice_prefix" in config && "payment_terms" in config && !config["payment_terms"].Number? ==> r == Err(TermsNotNumber)
    ensures Usable(config) ==> (r == Err(InvalidMonth) <==> !(1 <= year <= 9999 && 1 <= month <= 12))
    ensures r.Ok? <==> Usable(config) && 1 <= year <= 9999 && 1 <= month <= 12
    ensures r.Ok? ==> InvoiceOf(r.value, monthEntries, monthExpenses, year, month, config, today) && r.value.client == client
  {
    if "currency_symbol" !in config {
      return Err(MissingKey("currency_symbol"));
    }
    if "invoice_prefix" !in config {
      return Err(MissingKey("invoice_prefix"));
    }
    if "payment_terms" !in config {
      return Err(MissingKey("payment_terms"));
    }
    if !config["payment_terms"].Number? {
      return Err(TermsNotNumber);
    }
    if !(1 <= year <= 9999 && 1 <= month <= 12) {
      return Err(InvalidMonth);
    }
    var inv := BuildInvoice(monthEntries, monthExpenses, year, month, config, client, today);
    r := Ok(inv);
  }

  /** The body of `generate_invoice_html` once the configuration and month
      are known to be usable: totals, rows, number, dates and month name. */
  method BuildInvoice(monthEntries: seq<Entry>, monthExpenses: seq<Expense>, year: int, month: int,
                      config: Config, client: Client, today: Date) returns (inv: Invoice)
    requires ValidDate(today) && Usable(config) && 1 <= year <= 9999 && 1 <= month <= 12
    ensures InvoiceOf(inv, monthEntries, monthExpenses, year, month, config, today) && inv.client == client
  {
    var totals := TotalsOf(monthEntries, monthExpenses);
    var currency := ValueText(config["currency_symbol"]);
    var entryRows := EntryRowsLoop(monthEntries);
    var expenseRows := ExpenseRowsLoop(monthExpenses);
    var number := InvoiceNumber(ValueText(config["invoice_prefix"]), year, month);
    var invoiceDate := DateText(today);
    var dueDate := DateText(AddDays(today, config["payment_terms"].n));
    var monthName := MonthLabel(YearMonth(year, month));
    inv := Invoice(number, invoiceDate, dueDate, monthName, currency, client, entryRows, expenseRows,
                   totals.hours, totals.labour, totals.expenses, totals.labour + totals.expenses);
    ghost var expected := InvoiceFor(monthEntries, monthExpenses, YearMonth(year, month), ValueText(config["invoice_prefix"]),
                                     currency, config["payment_terms"].n, client, today);
    assert inv == expected;
  }

  /** `for e in sorted(month_entries, key=...): entries_data.append(...)`. */
  method EntryRowsLoop(entries: seq<Entry>) returns (rows: seq<EntryRow>)
    ensures rows == EntryRowsOf(entries)
  {
    var sorted := SortBy(entries, EntryDateKey);
    rows := [];
    var i := 0;
    while i < |sorted|
      invariant 0 <= i <= |sorted|
      invariant rows == MapSeq(sorted[..i], ToEntryRow)
    {
      MapSeqPrefix(sorted, ToEntryRow, i);
      rows := rows + [ToEntryRow(sorted[i])];
      i := i + 1;
    }
    assert sorted[..|sorted|] == sorted;
  }

  /** `for e in sorted(month_expenses, key=...): expenses_data.append(...)`. */
  method ExpenseRowsLoop(expenses: seq<Expense>) returns (rows: seq<ExpenseRow>)
    ensures rows == ExpenseRowsOf(expenses)
  {
    var sorted := SortBy(expenses, ExpenseDateKey);
    rows := [];
    var i := 0;
    while i < |sorted|
      invariant 0 <= i <= |sorted|
      invariant rows == MapSeq(sorted[..i], ToExpenseRow)
    {
      MapSeqPrefix(sorted, ToExpenseRow, i);
      rows := rows + [ToExpenseRow(sorted[i])];
      i := i + 1;
    }
    assert sorted[..|sorted|] == sorted;
  }

  /** Why the invoice route refused. */
  datatype RouteError = MissingArguments | Failed(error: InvoiceError)

  /** The sessions of client `clientId` in the given month. */
  function InvoiceEntries(entries: seq<Entry>, clientId: string, year: int, month: int): seq<Entry> {
    MonthFilter(FilterByClient(entries, EntryClient, Some(clientId)), EntryDate, year, month)
  }

  function InvoiceExpenses(expenses: seq<Expense>, clientId: string, year: int, month: int): seq<Expense> {
    MonthFilter(FilterByClient(expenses, ExpenseClient, Some(clientId)), ExpenseDate, year, month)
  }

  /** `not all([client_id, year, month])`: an absent or empty client id, or
      an absent or zero year or month. */
  predicate MissingArgs(clientId: Option<string>, year: Option<int>, month: Option<int>) {
    clientId.None? || clientId.value == "" || year.None? || year.value == 0 || month.None? || month.value == 0
  }

  /** The `/invoice` route: missing arguments are refused. Otherwise it fails
      exactly as `generate_invoice_html` does, in the same order, and
      succeeds exactly when the configuration is usable and the year and
      month name a date; the invoice then holds the client's sessions and
      expenses of that month, for the client `get_client_by_id` finds: the
      first with the id, else the first client, else the placeholder. */
  method InvoiceRoute(clientId: Option<string>, year: Option<int>, month: Option<int>, config: Config,
                      clients: seq<Client>, entries: seq<Entry>, expenses: seq<Expense>, today: Date)
    returns (r: Result<Invoice, RouteError>)
    requires ValidDate(today)
    ensures r == Err(MissingArguments) <==> MissingArgs(clientId, year, month)
    ensures !MissingArgs(clientId, year, month) ==>
      && ("currency_symbol" !in config ==> r == Err(Failed(MissingKey("currency_symbol"))))
      && ("currency_symbol" in config && "invoice_prefix" !in config ==> r == Err(Failed(MissingKey("invoice_prefix"))))
      && ("currency_symbol" in config && "invoice_prefix" in config && "payment_terms" !in config ==>
            r == Err(Failed(MissingKey("payment_terms"))))
      && ("currency_symbol" in config && "invoice_prefix" in config && "payment_terms" in config && !config["payment_terms"].Number? ==>
            r == Err(Failed(TermsNotNumber)))
      && (Usable(config) && !(1 <= year.value <= 9999 && 1 <= month.value <= 12) ==> r == Err(Failed(InvalidMonth)))
      && (r.Ok? <==> Usable(config) && 1 <= year.value <= 9999 && 1 <= month.value <= 12)
    ensures r.Ok? ==>
      && clientId.Some? && year.Some? && month.Some?
      && InvoiceOf(r.value, InvoiceEntries(entries, clientId.value, year.value, month.value),
                   InvoiceExpenses(expenses, clientId.value, year.value, month.value), year.value, month.value, config, today)
    ensures r.Ok? && (exists i :: 0 <= i < |clients| && clients[i].id == clientId.value) ==>
      exists i :: 0 <= i < |clients| && clients[i] == r.value.client && r.value.client.id == clientId.value
        && forall j :: 0 <= j < i ==> clients[j].id != clientId.value
    ensures r.Ok? && (forall i :: 0 <= i < |clients| ==> clients[i].id != clientId.value) ==>
      r.value.client == if |clients| > 0 then clients[0] else Placeholder
  {
    if MissingArgs(clientId, year, month) {
      return Err(MissingArguments);
    }
    var id, y, m := clientId.value, year.value, month.value;
    var client := GetClientById(clients, id);
    var es := InvoiceEntries(entries, id, y, m);
    var xs := InvoiceExpenses(expenses, id, y, m);
    var composed := ComposeInvoice(es, xs, y, m, config, client, today);
    match composed
    case Ok(inv) => r := Ok(inv);
    case Err(e) => r := Err(Failed(e));
  }

  /** The invoice route puts on the invoice only sessions of that client and
      month: every row comes from one of them. */
  lemma InvoiceEntriesSelected(entries: seq<Entry>, clientId: string, year: int, month: int)
    requires clientId != ""
    ensures var es := InvoiceEntries(entries, clientId, year, month);
      forall i :: 0 <= i < |es| ==> es[i].clientId == Some(clientId) && es[i].date.year == year && es[i].date.month == month
  {
    var cs := FilterByClient(entries, EntryClient, Some(clientId));
    var es := InvoiceEntries(entries, clientId, year, month);
    forall i | 0 <= i < |es| ensures es[i].clientId == Some(clientId) && es[i].date.year == year && es[i].date.month == month {
      assert InMonth(EntryDate, year, month)(es[i]);
      SubseqMultiset(es, cs);
      assert es[i] in multiset(cs);
      var j :| 0 <= j < |cs| && cs[j] == es[i];
      assert HasClient(EntryClient, clientId)(cs[j]);
    }
  }
}
