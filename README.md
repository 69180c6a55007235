# Cleaning tracker: a verified model of its domain rules

The cleaning tracker logs a cleaner's work sessions ("entries") and expenses
for several clients. It totals them by month and by tax year, and produces
invoices. It has a Flask web app (`webapp.py` over `helpers.py`), an older
Streamlit app (`app.py`) and a one-off migration (`backfill_miles.py`) that
fills in missing miles from each client's default.

This project models the deterministic rules of those programs in Dafny and
proves properties of the model:

- **Time arithmetic** (`Hours`, `Rounding`, `Text`, `Calendar`):
  - the minutes between two times of day, wrapping past midnight;
  - reading "HH:MM" texts;
  - the rounding applied when a session is stored;
  - the truncating `"{h}h {m}m"` display.
- **Tax years** (`TaxYear`): the year a date's tax year began, and the two
  labels. helpers.py names the last month; app.py repeats the first.
- **Aggregation** (`Reports`, `Breakdown`):
  - the client, month and tax-year filters;
  - the months and tax years on offer;
  - the totals;
  - the per-month breakdown that both front ends accumulate in a dictionary
    and list oldest first.
- **Invoices** (`Invoice`): the invoice number, the rows sorted by date, the
  totals, the due date, and the error cases of a configuration that lacks a
  key.
- **Record rules** (`Clients`, `Settings`, `Records`, `Mileage`, `Backfill`):
  - client lookup with its fallbacks;
  - the configuration merge and the whitelisted update;
  - building session, expense and client records;
  - delete by id and `list.remove`;
  - the confirm-gated clear;
  - the HMRC mileage allowance;
  - the miles backfill, an in-place loop over an array of sessions.

Units:

- Durations are whole minutes.
- A stored session's `hours` is in hundredths of an hour, because the tracker
  stores `round(hours, 2)`.
- Money is in pence and rates are in pence per hour.
- Python's `round` is modelled as round-half-even on the exact quotient.

The JSON data files are the fields of the class `Records.Store`. Each route
handler and each button action that changes them is a method of that class.

Two points where the model follows the code rather than what a reader might expect:

- `load_config` keeps stored keys that the defaults do not know. It is
  `{**DEFAULT_CONFIG, **stored}`, so nothing filters them out.
- A session's amount is computed from the exact minutes, not from the rounded
  hours stored beside it (`Records.AmountFromExactMinutes`).

## Model

| member | source | states |
|---|---|---|
| `Domain.DefaultConfigValues` | helpers.py:32-46 | `DEFAULT_CONFIG` has the thirteen keys, a rate of 15.00 an hour, an April start, 14-day terms, "£" and the "INV" prefix |
| `Domain.DefaultClientsValue` | helpers.py:48-50 | `DEFAULT_CLIENTS` is the one client "client_1", "Client 1", with 0 default miles |
| `Seqs.SortBy` | helpers.py:168 | `sorted(s, key=...)`: the result is ordered by the key and is a permutation of the input |
| `Seqs.SortByStable` | helpers.py:168 | the sort is stable: the elements of any one key keep their input order |
| `Hours.ElapsedMinutes` | helpers.py:110-113 | for clock minutes, the result is in [0, 1440), is the offset that leads from start to end round the clock, and is 0 exactly when start equals end |
| `Hours.ElapsedMinutesUnique` | helpers.py:110-113 | no other offset in [0, 1440) leads from start to end, so the wrap-around branch is the only correct answer |
| `Hours.OvernightExample` | helpers.py:110-111 | 23:00 to 01:00 is 120 minutes |
| `Hours.ClockMinutes` | helpers.py:105 | `hour * 60 + minute` lies in [0, 1440), and its quotient and remainder by 60 give back the hour and the minute |
| `Hours.ClockMinutesInjective` | helpers.py:105 | two times of day give the same minutes exactly when they are equal |
| `Hours.ToMinutes` | helpers.py:101-105 | a time object gives its clock minutes; a text without ':' fails (IndexError) |
| `Hours.ClockTextMinutes` | helpers.py:101-105 | the "HH:MM" text of a time of day reads back as the same minutes as the time object |
| `Hours.UncheckedTextExample` | helpers.py:102-104 | the fields are not range-checked: "25:00" reads as 1500 minutes |
| `Hours.CalculateMinutes` | helpers.py:96-115 | defined exactly when both times can be read; for in-day minutes the result is the wrap-around offset in [0, 1440) |
| `Hours.AppCalculateMinutes` | app.py:108-119 | the app.py version is in [0, 1440), is 0 exactly when the times are equal, leads from start to end, and agrees with the helpers.py version on time objects |
| `Hours.StoredHours` | webapp.py:94 | the stored hours are within half a hundredth of minutes/60 |
| `Hours.SessionAmount` | webapp.py:96 | the amount is within half a penny of minutes/60 times the rate |
| `Hours.WholeHoursAmount` | webapp.py:96 | whole hours are charged exactly hours times the rate |
| `Hours.TruncDiv` | helpers.py:135-136 | `int(a / b)` truncates toward zero: its magnitude is the floor of the magnitudes' quotient, and it has the sign of `a` |
| `Hours.SplitHours` | helpers.py:133-137 | for a non-negative value, h is its whole hours, m lies in [0, 59], and h*60+m is its whole minutes, rounded down and never rounded up |
| `Hours.SplitHoursNegative` | helpers.py:135-136 | a negative total is shown as its magnitude with both numbers negated |
| `Hours.SplitMinutes` | helpers.py:133-137 | for an exact number of minutes m, the display shows m div 60 hours and m mod 60 minutes |
| `Hours.FormatHours` | helpers.py:133-137 | `"{h}h {m}m"` of the whole hours and truncated minutes that `SplitHours` fixes |
| `Hours.FormatHoursExample` | helpers.py:133-137 | 1.99 hours is shown truncated as "1h 59m" |
| `Rounding.RoundHalfEven` | webapp.py:94-96 | `round` gives an integer within half a unit of the quotient, and the even one at a tie |
| `Rounding.RoundHalfEvenUnique` | webapp.py:94-96 | those two properties determine the rounded value |
| `Rounding.RoundExact` | webapp.py:94-96 | an exact quotient is not changed by rounding |
| `Calendar.DateKeyOrder` | helpers.py:168 | the YYYYMMDD key orders dates as ISO date strings with four-digit years sort, and tells distinct dates apart |
| `Calendar.MonthIndex` | webapp.py:241 | consecutive month numbering, inverted by `FromIndex` |
| `Calendar.MonthIndexOrder` | webapp.py:241 | the month numbers follow the (year, month) tuple order and tell months apart |
| `Calendar.MonthName` | helpers.py:127 | `%B` is the English name from the twelve-name table; `MonthNamesDistinct` shows the names apart |
| `Calendar.MonthAbbrev` | webapp.py:334 | `%b` is three characters |
| `Calendar.MonthNamesDistinct` | helpers.py:127-129 | two months share a `%B` name exactly when they are the same month |
| `Calendar.MonthLabel` | helpers.py:201 | `%B %Y` is the month name, a space and the year |
| `Calendar.ShortMonthLabel` | webapp.py:334 | `%b %Y` is the three-letter name, a space and the year |
| `Calendar.DateText` | helpers.py:171 | `%d/%m/%Y` is the two-digit day, the two-digit month and the year, between slashes |
| `Calendar.DateTextParse` | helpers.py:171 | the date text has slashes at its third and sixth characters and reads back as the same day, month and year |
| `Calendar.ClockText` | app.py:557-558 | `%H:%M` is five characters with ':' in the middle, and splits at ':' into the two padded fields |
| `Calendar.DaysInMonth` | helpers.py:200 | every month has 28 to 31 days |
| `Calendar.NextDay` | helpers.py:200 | the next day is a valid date after the given one |
| `Calendar.PrevDay` | helpers.py:200 | the previous day is a valid date before the given one |
| `Calendar.NextPrevInverse` | helpers.py:200 | a step forward and a step back undo each other |
| `Calendar.AddDays` | helpers.py:200 | `date + timedelta(days=n)` is a valid date: later for n > 0, earlier for n < 0, the same for n = 0 |
| `Calendar.AddDaysInverse` | helpers.py:200 | going n days forward and then n days back returns to the start |
| `Text.IntToString` | helpers.py:130 | `str(n)` is never empty and starts with '-' exactly for a negative number; `ParseIntToString` reads it back |
| `Text.NatToString` | helpers.py:130 | `str(n)` is decimal digits, with a leading '0' exactly for 0, and one digit exactly below 10 |
| `Text.Pad2` | helpers.py:142 | `{month:02d}` of a month number is two digits denoting that number |
| `Text.ParseNat` | helpers.py:104 | an unsigned numeral is read exactly when it is a non-empty string of digits |
| `Text.ParseNatToString` | helpers.py:104 | reading a rendered natural number gives it back |
| `Text.ParsePad2` | helpers.py:104 | a zero-padded field reads back as its number |
| `Text.ParseInt` | helpers.py:104 | `int(s)` succeeds exactly on a non-empty digit string, optionally after one '+' or '-', and an unsigned numeral reads as its digits' value |
| `Text.ParseIntToString` | helpers.py:104 | reading a rendered integer, signed or not, gives it back |
| `Text.IntToStringInjective` | webapp.py:317 | distinct integers render differently |
| `Text.Split` | helpers.py:103 | `split` gives at least one piece, no piece holds the separator, and joining the pieces gives back the text |
| `Text.SplitJoin` | helpers.py:103 | splitting undoes joining separator-free pieces |
| `Text.SplitWithoutSep` | helpers.py:103-104 | a text without the separator splits into itself alone, so it has no second field |
| `TaxYear.GetTaxYear` | helpers.py:118-122 | the result is year or year - 1, year exactly when month >= start month, and the twelve months from its start month contain the date |
| `TaxYear.TaxYearWindowUnique` | helpers.py:118-122 | a tax year whose twelve-month window holds the date is the one returned |
| `TaxYear.CalendarTaxYear` | helpers.py:118-122 | with a January start the tax year is the calendar year |
| `TaxYear.EndMonth` | helpers.py:128 | `start - 1 or 12` is the month before the start month, wrapping to December, and never the start month |
| `TaxYear.PeriodLabel` | helpers.py:130 | every label opens with "{ty}/{ty+1} (" |
| `TaxYear.LastMonth` | helpers.py:118-122 | the last month of a tax year is eleven months after the first; every day in it belongs to the tax year, and the next month starts the following one |
| `TaxYear.TaxYearLabel` | helpers.py:125-130 | the helpers.py label names the start month in ty and the month before the start month in ty+1 |
| `TaxYear.TaxYearLabelEnd` | helpers.py:127-130 | for every start month but January, the label ends with the last month of the tax year |
| `TaxYear.JanuaryLabelOverruns` | helpers.py:128-130 | for a January start, the month the label ends with falls in the next tax year |
| `TaxYear.CorrectedTaxYearLabel` | helpers.py:125-130 | the intended label names the first and last months of the tax year, and agrees with helpers.py for every start month but January |
| `TaxYear.AppTaxYearLabel` | app.py:129-132 | the app.py label names the start month on both sides |
| `TaxYear.LabelsDiffer` | app.py:129-132 | the two front ends never label a tax year the same way |
| `TaxYear.LabelExample` | helpers.py:125-130 | tax year 2024 from April is "2024/2025 (April 2024 - March 2025)" |
| `TaxYear.AppLabelExample` | app.py:129-132 | app.py shows it as "2024/2025 (April 2024 - April 2025)" |
| `TaxYear.JanuaryLabelExample` | helpers.py:128-130 | with a January start, helpers.py shows "2024/2025 (January 2024 - December 2025)" |
| `Mileage.MileageAllowance` | helpers.py:145-153 | for a non-negative distance the allowance lies between 25p and 45p per mile |
| `Mileage.MileageByBands` | helpers.py:151-153 | the allowance is 45p on the miles up to 10,000 plus 25p on the miles beyond |
| `Mileage.MileageMarginal` | helpers.py:151-153 | one more mile adds 45p below 10,000 miles and 25p from there on, so the two formulas meet at 10,000 |
| `Mileage.MileageMonotone` | helpers.py:151-153 | more miles never earn less |
| `Mileage.MileageExamples` | helpers.py:151-153 | 10,000 miles earn £4,500.00 and 12,000 miles earn £5,000.00 |
| `Clients.PlaceholderClient` | helpers.py:84 | the fallback for an empty client list is client "default", named "Unknown", with an empty address |
| `Clients.GetClientById` | helpers.py:79-84 | the first client with the id; when none has it, the first client; when there are no clients, the "default"/"Unknown" placeholder |
| `Clients.ClientNames` | helpers.py:87-89 | one key per distinct name; a name held by several clients maps to the id of the last of them |
| `Clients.ClientNamesDistinct` | helpers.py:87-89 | with distinct names, every client's name maps to its own id |
| `Clients.ClientNamesLastWins` | helpers.py:87-89 | two clients with one name: the later id is kept |
| `Settings.LoadConfig` | helpers.py:70-72 | with no file, the defaults; otherwise every default key and every stored key, with stored values winning and the defaults filling the rest |
| `Settings.LoadConfigComplete` | helpers.py:70-72 | every default key is present after loading |
| `Settings.LoadConfigSaved` | helpers.py:70-72 | loading a saved loaded configuration gives it back |
| `Settings.OverlayAt` | webapp.py:178-180 | after the writes, the configuration has its old keys plus the written ones, with the new values at the written keys and the old values everywhere else |
| `Settings.OverlayStep` | webapp.py:180 | writing one more key is one map update |
| `Settings.MergeKnown` | webapp.py:177-181 | the loop over the request keys writes exactly the request's known keys over the configuration |
| `Settings.UpdateConfig` | webapp.py:174-182 | only keys of the defaults can change or appear; a known request key gets the request's value; every other key keeps its value |
| `Settings.FormValues` | app.py:1046-1059 | the settings form writes exactly the thirteen default keys, the numeric ones as numbers |
| `Settings.SavedForm` | app.py:1046-1060 | saving the form over a loaded configuration keeps its keys, puts the form's value at every default key and the stored value at every other, and loads back unchanged |
| `Invoice.Usable` | helpers.py:142-200 | the configuration conditions `generate_invoice_html` needs: a currency, a prefix and numeric payment terms; a definition |
| `Invoice.InvoiceNumber` | helpers.py:140-142 | `f"{prefix}-{year}{month:02d}"`; its shape, injectivity and order are the lemmas that follow |
| `Invoice.InvoiceNumberShape` | helpers.py:140-142 | the number opens with prefix + "-", and a one- or two-digit month takes exactly two characters |
| `Invoice.InvoiceNumberInjective` | helpers.py:140-142 | with four-digit years and one prefix, each month has its own number |
| `Invoice.InvoiceNumberOrder` | helpers.py:140-142 | with four-digit years and one prefix, invoice numbers sort as their months do |
| `Invoice.InvoiceNumberExample` | helpers.py:140-142 | INV, 2024, 3 gives "INV-202403" |
| `Invoice.ToEntryRow` | helpers.py:169-176 | a session's row: its date as `%d/%m/%Y`, its times, hours, rate and amount |
| `Invoice.ToExpenseRow` | helpers.py:182-186 | an expense's row: its date as `%d/%m/%Y`, its description or "Cleaning supplies", and its amount |
| `Invoice.EntryRowsOf` | helpers.py:167-178 | the session rows of the sessions sorted by date; `EntryRowsTotals` and `EntryRowsSorted` state their count, sums and order |
| `Invoice.ExpenseRowsOf` | helpers.py:180-188 | the expense rows of the expenses sorted by date; `ExpenseRowsTotals` states their count and sums |
| `Invoice.EntryRowsTotals` | helpers.py:162-178 | one row per session, and the rows' hours and amounts add up to the sessions' |
| `Invoice.ExpenseRowsTotals` | helpers.py:180-188 | one row per expense, and the rows' amounts add up to the expenses' |
| `Invoice.EntryRowsSorted` | helpers.py:168-178 | the rows are the sessions permuted into date order, each row showing its own session's fields |
| `Invoice.ExpenseDescription` | helpers.py:185 | an expense without a description shows "Cleaning supplies"; otherwise it shows its own |
| `Invoice.InvoiceFor` | helpers.py:160-208 | the invoice record handed to the template; `InvoiceForProperties` states its totals, rows, due date, number and title |
| `Invoice.InvoiceForProperties` | helpers.py:160-208 | the invoice's totals are the sums of its rows; the total is labour plus expenses; it has one row per record; it is due after the invoice date for positive terms; it carries the month's number and title |
| `Invoice.ComposeInvoice` | helpers.py:160-208 | a missing currency, prefix or payment terms, non-numeric terms or an impossible month is each its own error, checked in the source's order; otherwise the result is the month's invoice for the client |
| `Invoice.BuildInvoice` | helpers.py:162-208 | with a usable configuration and month, the result is the month's invoice for the client |
| `Invoice.EntryRowsLoop` | helpers.py:167-178 | the append loop builds the session rows of the date-sorted sessions |
| `Invoice.ExpenseRowsLoop` | helpers.py:180-188 | the append loop builds the expense rows of the date-sorted expenses |
| `Invoice.MissingArgs` | webapp.py:40 | `not client_id or not year or not month`: an absent or empty id, or an absent or zero year or month; a definition |
| `Invoice.InvoiceEntries` | webapp.py:49-56 | the client's sessions dated in the month, in file order; `InvoiceEntriesSelected` states what they are |
| `Invoice.InvoiceExpenses` | webapp.py:50-61 | the client's expenses dated in the month, in file order; a definition over `FilterByClient` and `MonthFilter` |
| `Invoice.InvoiceRoute` | webapp.py:34-64 | a missing or zero argument is refused, and only then; otherwise it fails with `generate_invoice_html`'s errors in their order, and gives an invoice exactly when the configuration is usable and the year and month name a date; the invoice holds the client's records of that month, and its client is the first with the id, else the first client, else the placeholder |
| `Invoice.InvoiceEntriesSelected` | webapp.py:48-56 | every session on the invoice has the requested client and month |
| `Reports.FilterByClient` | webapp.py:18-22 | the identity for a missing or empty id; otherwise exactly that client's items, in their original order |
| `Reports.FilterByClientIdempotent` | webapp.py:18-22 | filtering twice by one client is filtering once |
| `Reports.MonthFilter` | webapp.py:244-253 | exactly the items dated in the month, in order |
| `Reports.TaxYearFilter` | webapp.py:297-304 | exactly the items of the tax year, in order |
| `Reports.ClientMonthCommute` | webapp.py:49-61 | the client filter and the month filter commute |
| `Reports.AllDates` | webapp.py:237-240 | the session dates followed by the expense dates |
| `Reports.AvailableMonths` | webapp.py:241 | each month that holds a date, once, strictly newest first; empty exactly when there are no dates |
| `Reports.AvailableTaxYears` | webapp.py:292 | each tax year that holds a date, once, strictly descending; empty exactly when there are no dates |
| `Reports.TotalsOf` | webapp.py:258-268 | the number of sessions is the list's length; hours and labour are the sums of the sessions' hours and amounts, expenses the sum of the expenses' amounts; the total is labour plus expenses, and empty lists give zeros |
| `Reports.TotalsConcat` | webapp.py:258-269 | the totals of joined lists are the sums of the parts' totals |
| `Reports.TotalsSorted` | webapp.py:258-271 | sorting for display does not change the totals |
| `Reports.MonthSelected` | webapp.py:243 | `if year and month`: both given and neither zero; a definition |
| `Reports.MonthlyReportOf` | webapp.py:223-273 | the months on offer are the client's; a chosen month's records are a permutation of its filter, sorted by date; with no month chosen, everything is zero; the totals are those of the listed records |
| `Reports.MonthlyReportStable` | webapp.py:270-271 | records of one date stay in the order the month filter lists them |
| `Breakdown.AddEntry` | webapp.py:315-322 | the sessions loop's step: the month's bucket is created on first sight and gains the session; `BucketAddEntry` states its effect |
| `Breakdown.AddExpense` | webapp.py:323-328 | the expenses loop's step: the month's bucket is created on first sight and gains the expense; `BucketAddExpense` states its effect |
| `Breakdown.BucketAddEntry` | webapp.py:315-322 | one more session adds its hours, amount and one session to its own month's bucket only |
| `Breakdown.BucketAddExpense` | webapp.py:323-328 | one more expense adds its amount to its own month's bucket only |
| `Breakdown.BucketEmpty` | webapp.py:318-319 | a month with no record has an empty bucket |
| `Breakdown.WithBucket` | app.py:851-852 | after the first-sight check, the month has a bucket |
| `Breakdown.AccumulateEntry` | webapp.py:315-322 | one step of the sessions loop keeps a bucket, with that month's sums, for each month that holds a record |
| `Breakdown.AccumulateExpense` | webapp.py:323-328 | one step of the expenses loop keeps that invariant |
| `Breakdown.FoldEntriesAccumulated` | webapp.py:314-322 | from an empty dictionary, the sessions loop holds each month's session sums |
| `Breakdown.FoldExpensesAccumulated` | webapp.py:323-328 | the expenses loop then holds each month's full sums |
| `Breakdown.AccumulateMonthly` | app.py:847-862 | the two loops leave one bucket per month that holds a session or an expense, each holding exactly that month's sums |
| `Breakdown.RowsFor` | webapp.py:331-333 | one row per given month number, carrying that month's sums |
| `Breakdown.RowSums` | webapp.py:330-341 | the rows' column sums are the sums grouped by their months |
| `Breakdown.SortedMonthKeys` | webapp.py:331 | the month numbers of the dictionary's keys, strictly ascending |
| `Breakdown.RowsOrdered` | webapp.py:331 | rows over ascending month numbers run oldest first |
| `Breakdown.RowsTotal` | webapp.py:309-341 | the breakdown's sessions, hours, labour and expenses add up to the tax year's totals |
| `Breakdown.RowsCover` | webapp.py:331-333 | every month that holds a record has a row |
| `Breakdown.RowsProperties` | webapp.py:330-341 | the rows run oldest first, cover exactly the months that hold records, and carry those months' sums |
| `Breakdown.MonthlyRows` | webapp.py:330-341 | one row per month that holds a record, oldest first, carrying its sums; the columns add up to the totals |
| `Breakdown.ListRows` | webapp.py:330-333 | the listing loop gives one row per key, in the keys' order, with that key's bucket |
| `Breakdown.ListedRows` | webapp.py:330-333 | listing an accumulated dictionary gives the breakdown rows |
| `Breakdown.BreakdownRows` | webapp.py:314-341 | accumulating and then listing gives exactly the breakdown specified by `MonthlyRows` |
| `Breakdown.MonthKeyText` | webapp.py:317 | the "YYYY-MM" key has '-' before its last two characters, which read back as the month, and the text before it reads back as the year |
| `Breakdown.MonthKeyTextInjective` | webapp.py:317 | distinct months have distinct "YYYY-MM" keys |
| `Breakdown.MonthKeyTextOrder` | webapp.py:331 | for four-digit years, sorting the text keys is sorting chronologically |
| `Breakdown.ToWebRow` | webapp.py:333-341 | a web row carries its month's "%b %Y" label, sessions, hours, formatted hours, labour and expenses, and its total is labour plus expenses |
| `Breakdown.MoneyText` | app.py:873-874 | the money text starts with the currency, has a minus sign right after it exactly for a negative amount, and ends with a point and the two-digit remaining pence |
| `Breakdown.MoneyTextValue` | app.py:873-874 | the digits before the point read back as the whole units of the amount and the two after it as the remaining pence |
| `Breakdown.ToAppRow` | app.py:866-875 | the expenses cell is "-" exactly when the month's expenses are not positive and otherwise their money text; the row carries the label, sessions and formatted hours, and the total cell shows labour plus expenses |
| `Breakdown.WebRowSums` | webapp.py:330-341 | showing the rows does not change their column sums |
| `Breakdown.TaxYearEntries` | webapp.py:284-300 | the client's sessions of the tax year, in file order; a definition over `FilterByClient` and `TaxYearFilter` |
| `Breakdown.TaxYearExpenses` | webapp.py:284-304 | the client's expenses of the tax year, in file order; a definition over `FilterByClient` and `TaxYearFilter` |
| `Breakdown.ClientTaxYears` | webapp.py:284-292 | the tax years on offer for the client: `AvailableTaxYears` of the client's dates; a definition |
| `Breakdown.TaxYearReportOf` | webapp.py:276-353 | the tax years on offer are the client's, each labelled by helpers.py's `get_tax_year_label`; a chosen year's totals are those of its filtered records, and its breakdown is `MonthlyRows` of those records as web rows, so oldest first, one per month with its sums, adding up to the totals; with none chosen, everything is zero |
| `Records.WithoutId` | webapp.py:106 | exactly the records whose id differs, in their original order |
| `Records.WithoutIdAbsent` | webapp.py:152 | deleting an id that no record has changes nothing |
| `Records.WithoutIdIdempotent` | webapp.py:214 | deleting an id twice is deleting it once |
| `Records.IndexOf` | app.py:911 | the position of the first occurrence |
| `Records.RemoveFirst` | app.py:911 | `list.remove` fails exactly when the item is absent; otherwise it takes out the first occurrence and nothing else |
| `Records.RemoveFirstMultiset` | app.py:942 | removing takes away one copy of the item and nothing else |
| `Records.Rate` | webapp.py:87 | the configured hourly rate when it is a number; a text rate makes `hours * rate` fail |
| `Records.BuildEntry` | webapp.py:77-100 | the first missing field is reported; unreadable times and a non-numeric rate are errors; otherwise the session stores the given fields, rounded hours, the configured rate, and the nearest penny to minutes times the rate |
| `Records.AmountFromExactMinutes` | webapp.py:94-96 | twenty minutes at 15.00 an hour store 0.33 hours and charge 5.00, not 4.95 |
| `Records.BuildExpense` | webapp.py:129-146 | the first missing field is reported, and an amount `float()` refuses is an error; otherwise the expense has the given fields and the default description when none is given |
| `Records.IsSpace` | webapp.py:197 | the characters `str.strip()` removes, within Latin-1; a definition |
| `Records.IsBlank` | webapp.py:197 | `not s.strip()`: every character is whitespace, within Latin-1 |
| `Records.BuildClient` | webapp.py:194-208 | a missing or blank name is refused, and nothing else is; the address defaults to empty |
| `Records.BuildAppClient` | app.py:1020-1032 | the app.py form refuses only an empty name |
| `Records.BlankNameAccepted` | app.py:1021 | a name of spaces is added by app.py and refused by the web app |
| `Records.BuildAppEntry` | app.py:546-562 | a session is saved exactly when the rate is a number; its hours are at most 24.00, and its times are the pickers' "HH:MM" |
| `Records.StoredHoursBounds` | app.py:559 | an in-day session stores 0.00 to 24.00 hours |
| `Records.AppEntryAgrees` | app.py:553-562 | an app.py session equals the web app's session built from the same times as text |
| `Records.BuildAppExpense` | app.py:588-602 | an expense is refused exactly when its amount is not positive |
| `Records.Store.constructor` | helpers.py:56-61 | a data directory with no files: no sessions, no expenses, and the defaults for clients and configuration |
| `Records.Store.CreateEntry` | webapp.py:77-100 | the session built under the loaded configuration is appended, or nothing changes |
| `Records.Store.CreateExpense` | webapp.py:129-146 | the built expense is appended, or nothing changes |
| `Records.Store.DeleteEntry` | webapp.py:103-108 | the sessions lose exactly those with the id; nothing else changes |
| `Records.Store.DeleteExpense` | webapp.py:149-154 | the expenses lose exactly those with the id; nothing else changes |
| `Records.Confirmed` | webapp.py:113 | `request.args.get("confirm") == "true"` |
| `Records.Store.ClearEntries` | webapp.py:111-116 | the sessions are emptied exactly when confirm is "true" |
| `Records.Store.ClearExpenses` | webapp.py:157-162 | the expenses are emptied exactly when confirm is "true" |
| `Records.Store.PutConfig` | webapp.py:174-182 | the saved configuration is the loaded one with the request's known keys written over it |
| `Records.Store.SaveSettings` | app.py:1046-1060 | the saved configuration keeps the loaded keys, holds the form's value at every default key and the loaded value elsewhere, and is what the next load returns; nothing else changes |
| `Records.Store.CreateClient` | webapp.py:194-208 | a valid client is appended to the loaded client list |
| `Records.Store.DeleteClient` | webapp.py:211-216 | the client list keeps every client whose id differs, in order |
| `Records.Store.SaveEntry` | app.py:552-564 | the app.py session is appended, or nothing changes |
| `Records.Store.SaveExpense` | app.py:588-602 | exactly one expense is appended when the amount is positive, and none otherwise |
| `Records.Store.RemoveEntry` | app.py:910-912 | the selected session's first occurrence is removed |
| `Records.Store.RemoveExpense` | app.py:941-943 | the selected expense's first occurrence is removed |
| `Records.Store.AddClient` | app.py:1020-1028 | a named client is appended to the loaded client list |
| `Records.Store.ClearAllEntries` | app.py:1079-1080 | the confirmed clear empties the sessions only |
| `Records.Store.ClearAllExpenses` | app.py:1092-1093 | the confirmed clear empties the expenses only |
| `Backfill.ClientMiles` | backfill_miles.py:27 | one key per client id, holding that client's default miles (0 when absent), the later client winning |
| `Backfill.ClientMilesLaterWins` | backfill_miles.py:27 | two clients with one id: the later default is used |
| `Backfill.DefaultFor` | backfill_miles.py:32 | `client_miles.get(entry.get("client_id"), 0)`: the client's default miles, 0 for a missing or unknown client |
| `Backfill.Needs` | backfill_miles.py:31-33 | `current == 0 and default > 0`, absent miles reading as 0 |
| `Backfill.Backfilled` | backfill_miles.py:31-35 | a session that needs miles gets its client's default; every other session is untouched |
| `Backfill.BackfillUntouched` | backfill_miles.py:31-33 | a session that has miles, an unknown client, or a client without a positive default is not changed |
| `Backfill.BackfillOnlyMiles` | backfill_miles.py:35 | only the miles field changes |
| `Backfill.BackfilledDone` | backfill_miles.py:33-35 | a backfilled session needs nothing more |
| `Backfill.BackfillAll` | backfill_miles.py:30-35 | same length, with each session backfilled in place |
| `Backfill.CountNeeding` | backfill_miles.py:28-36 | the count is the number of positions whose session needs miles, so between 0 and the number of sessions |
| `Backfill.CountZero` | backfill_miles.py:39-41 | the count is zero exactly when no session needs miles |
| `Backfill.BackfillIdempotent` | backfill_miles.py:33-35 | after an apply run a second run counts 0 and changes nothing |
| `Backfill.BackfillSets` | backfill_miles.py:33-35 | each session that needed miles ends with its client's positive default |
| `Backfill.RunWith` | backfill_miles.py:28-36 | the loop counts the sessions that need miles in either mode; with apply it backfills them in place, and in a dry run it changes nothing |
| `Backfill.Run` | backfill_miles.py:19-36 | `main`: the miles table is built from the clients, then the loop runs |

## Left out

- Floating point: hours, money and miles are exact integers in hundredths,
  pence and whole miles. Float drift in `(hours - h) * 60`, amounts finer
  than a penny, and the 0.45/0.25 float products are not modelled.
- Python's `round(x, 2)` on binary floats: modelled as round-half-even on the
  exact quotient.
- Web, UI and file plumbing:
  - the Streamlit page code, including widgets, the session-state
    confirmation flags, which client the selectors pick, and the print
    button;
  - Flask routing, `abort`, `jsonify` and status codes. A refused request
    is an `Err` value.
  - Jinja2 rendering and the HTML layout of the invoice. The invoice is
    modelled as the data record handed to the template.
- The file I/O: loading and saving the JSON files, and `DATA_DIR.mkdir`. A
  file's contents are fields of `Records.Store`, and an absent file is
  `None` or empty.
- The clock:
  - `datetime.now()` is the `id` parameter of the record builders and the
    `today` parameter of the invoice.
  - helpers.py reads the clock twice, for the invoice date and the due date.
    The model reads it once.
- `datetime.fromisoformat` is a library call. Dates are held as values.
  - Years outside 1000-9999 are excluded from the date-order and
    invoice-number lemmas, because the source's string keys order only
    four-digit years.
  - For such years the model's orders also differ from the source's string
    sorts: `sorted(monthly)` (webapp.py:331) and the `key=x["date"]` sorts
    (helpers.py:168, webapp.py:270) compare texts, so the source puts
    "1000-01" before "999-12", while the model sorts by the numeric date.
  - Date overflow of `timedelta` is not modelled.
- Python `int()` accepts surrounding whitespace, `_` digit separators and
  non-ASCII Unicode decimal digits (such as "٢٠٢٤"), and `str.strip()` treats
  characters beyond Latin-1 as whitespace. The model accepts an optional sign
  and the ASCII digits '0'-'9' only, and uses the Latin-1 whitespace set.
- A `tax_year_start_month` outside 1..12 is not a `Month`. The source would
  fail or mislabel there.
- A `payment_terms` that is a float: the model takes terms as a whole number
  of days and reports any other value as `TermsNotNumber`.
- JSON `null` values and records with extra keys are not modelled.
- Fields that only repeat a value for display are not in the result records:
  the invoice data leaves out the `config` it hands to the template (business
  and bank details, helpers.py:196), and the two report records leave out
  `total_hours_fmt` and `currency` (webapp.py:266,272,347,352). Each is
  `format_hours` of the total or a configuration value, both modelled.
- Records.BuildExpense: `float()` of a numeric text and its rounding to pence
  are not modelled; the request carries the amount `float()` reads, in pence,
  or marks it as one `float()` refuses.
- The `print` output of the backfill, its `sys.argv` parsing (`apply` is a
  parameter), and its final write of the file. The write happens only when
  something changed, and `RunWith` changes nothing otherwise.
- The app.py default client list has no `default_miles` key, while the
  helpers.py one has 0. The model uses the helpers.py list in both cases.
  Absent miles read as 0, so the backfill is the same.
- Invoice.ComposeInvoice: helpers.py sums the totals before it reads
  `currency_symbol`. The model builds the rows and totals after the checks.
  The sums read no configuration key and cannot fail, so the same error or
  invoice results.

## Findings

| source | as written | input that shows it | evidently intended | confidence | as-written member | corrected member |
|---|---|---|---|---|---|---|
| helpers.py:128-130 | the end month is `start - 1 or 12`, always in year `ty + 1`, so for a January start the label ends in December of the following year | tax year 2024, start month 1: "2024/2025 (January 2024 - December 2025)" covers 24 months | the label ends with the last month of the tax year, December 2024 | medium, not executed | `TaxYear.JanuaryLabelOverruns` | `TaxYear.CorrectedTaxYearLabel` |
