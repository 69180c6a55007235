/** Calendar values: dates, (year, month) buckets, the English month-name table
    that `strftime("%B")` and `strftime("%b")` produce, the textual forms used
    on screen and on invoices, and day arithmetic for due dates. */
module Calendar {
  import opened Wrappers
  import opened Text

  type Month = m: int | 1 <= m <= 12 witness 1
  type Day = d: int | 1 <= d <= 31 witness 1
  type Hour = h: int | 0 <= h < 24 witness 0
  type Minute = m: int | 0 <= m < 60 witness 0

  /** A calendar date as `datetime.fromisoformat` yields it. */
  datatype Date = Date(year: int, month: Month, day: Day)

  /** A time of day as `datetime.time` holds it. */
  datatype TimeOfDay = TimeOfDay(hour: Hour, minute: Minute)

  /** A (year, month) bucket, as the tuple `(d.year, d.month)`. */
  datatype YearMonth = YearMonth(year: int, month: Month)

  function MonthOf(d: Date): YearMonth {
    YearMonth(d.year, d.month)
  }

  // ---------------------------------------------------------------------------
  // Orders
  // ---------------------------------------------------------------------------

  /** Lexicographic order on (year, month, day): the order of ISO date strings
      with four-digit years, which is what `sorted(..., key=lambda x: x["date"])`
      compares. */
  predicate DateBefore(a: Date, b: Date) {
    a.year < b.year || (a.year == b.year && (a.month < b.month || (a.month == b.month && a.day < b.day)))
  }

  /** The date as the number YYYYMMDD, a sort key for `DateBefore`. */
  function DateKey(d: Date): int {
    d.year * 10000 + d.month * 100 + d.day
  }

  /** The key orders dates as `DateBefore` does and tells them apart. */
  lemma DateKeyOrder(a: Date, b: Date)
    ensures DateKey(a) < DateKey(b) <==> DateBefore(a, b)
    ensures DateKey(a) == DateKey(b) <==> a == b
  {
  }

  /** Lexicographic order on (year, month): Python's tuple comparison. */
  predicate MonthBefore(a: YearMonth, b: YearMonth) {
    a.year < b.year || (a.year == b.year && a.month < b.month)
  }

  /** Consecutive numbering of months: January of year 0 is month 0. */
  function MonthIndex(ym: YearMonth): (k: int)
    ensures FromIndex(k) == ym
  {
    ym.year * 12 + ym.month - 1
  }

  function FromIndex(k: int): (ym: YearMonth)
    ensures ym.year * 12 + ym.month - 1 == k
  {
    YearMonth(k / 12, k % 12 + 1)
  }

  /** Month numbers follow the tuple order. */
  lemma MonthIndexOrder(a: YearMonth, b: YearMonth)
    ensures MonthIndex(a) < MonthIndex(b) <==> MonthBefore(a, b)
    ensures MonthIndex(a) == MonthIndex(b) <==> a == b
  {
  }

  // ---------------------------------------------------------------------------
  // Month names and labels
  // ---------------------------------------------------------------------------

  const MonthNames: seq<string> := [
    "January", "February", "March", "April", "May", "June",
    "July", "August", "September", "October", "November", "December"]

  /** `strftime("%B")`. */
  function MonthName(m: Month): string {
    MonthNames[m - 1]
  }

  /** `strftime("%b")`: the first three letters of the English name. */
  function MonthAbbrev(m: Month): (s: string)
    ensures |s| == 3
  {
    MonthName(m)[..3]
  }

  /** No two months share a name. */
  lemma MonthNamesDistinct(a: Month, b: Month)
    ensures MonthName(a) == MonthName(b) <==> a == b
  {
    if a != b {
      var x, y := MonthName(a), MonthName(b);
      assert x[1] != y[1] || x[2] != y[2] by {
        if a == 1 {} else if a == 2 {} else if a == 3 {} else if a == 4 {}
        else if a == 5 {} else if a == 6 {} else if a == 7 {} else if a == 8 {}
        else if a == 9 {} else if a == 10 {} else if a == 11 {} else {}
      }
    }
  }

  /** `datetime(y, m, 1).strftime("%B %Y")`. */
  function MonthLabel(ym: YearMonth): string {
    MonthName(ym.month) + " " + IntToString(ym.year)
  }

  /** `datetime(y, m, 1).strftime("%b %Y")`. */
  function ShortMonthLabel(ym: YearMonth): string {
    MonthAbbrev(ym.month) + " " + IntToString(ym.year)
  }

  /** `strftime("%d/%m/%Y")`. */
  function DateText(d: Date): string {
    Pad2(d.day) + "/" + Pad2(d.month) + "/" + IntToString(d.year)
  }

  /** The date text reads back as its date: day and month in the two-digit
      fields before the slashes, the year after them. */
  lemma DateTextParse(d: Date)
    ensures var s := DateText(d);
      && |s| >= 7 && s[2] == '/' && s[5] == '/'
      && ParseNat(s[..2]) == Some(d.day) && ParseNat(s[3..5]) == Some(d.month) && ParseInt(s[6..]) == Some(d.year)
  {
    var s := DateText(d);
    assert s[..2] == Pad2(d.day) && s[3..5] == Pad2(d.month) && s[6..] == IntToString(d.year);
    ParsePad2(d.day);
    ParsePad2(d.month);
    ParseIntToString(d.year);
  }

  /** `strftime("%H:%M")`. */
  function ClockText(t: TimeOfDay): (s: string)
    ensures |s| == 5 && s[2] == ':'
    ensures Split(s, ':') == [Pad2(t.hour), Pad2(t.minute)]
  {
    var s := Pad2(t.hour) + ":" + Pad2(t.minute);
    assert Join([Pad2(t.hour), Pad2(t.minute)], ':') == s;
    SplitJoin([Pad2(t.hour), Pad2(t.minute)], ':');
    s
  }

  // ---------------------------------------------------------------------------
  // Day arithmetic (`date + timedelta(days=n)`)
  // ---------------------------------------------------------------------------

  predicate IsLeapYear(y: int) {
    y % 4 == 0 && (y % 100 != 0 || y % 400 == 0)
  }

  function DaysInMonth(y: int, m: Month): (n: int)
    ensures 28 <= n <= 31
  {
    if m == 2 then (if IsLeapYear(y) then 29 else 28)
    else if m == 4 || m == 6 || m == 9 || m == 11 then 30
    else 31
  }

  /** A date that exists in the proleptic Gregorian calendar. */
  predicate ValidDate(d: Date) {
    d.day <= DaysInMonth(d.year, d.month)
  }

  function NextDay(d: Date): (r: Date)
    requires ValidDate(d)
    ensures ValidDate(r) && DateBefore(d, r)
  {
    if d.day < DaysInMonth(d.year, d.month) then d.(day := d.day + 1)
    else if d.month < 12 then Date(d.year, d.month + 1, 1)
    else Date(d.year + 1, 1, 1)
  }

  function PrevDay(d: Date): (r: Date)
    requires ValidDate(d)
    ensures ValidDate(r) && DateBefore(r, d)
  {
    if d.day > 1 then d.(day := d.day - 1)
    else if d.month > 1 then Date(d.year, d.month - 1, DaysInMonth(d.year, d.month - 1))
    else Date(d.year - 1, 12, 31)
  }

  /** The two steps undo each other. */
  lemma NextPrevInverse(d: Date)
    requires ValidDate(d)
    ensures PrevDay(NextDay(d)) == d && NextDay(PrevDay(d)) == d
  {
  }

  /** `d + timedelta(days=n)`. */
  function AddDays(d: Date, n: int): (r: Date)
    requires ValidDate(d)
    ensures ValidDate(r)
    ensures n > 0 ==> DateBefore(d, r)
    ensures n < 0 ==> DateBefore(r, d)
    ensures n == 0 ==> r == d
    decreases if n >= 0 then n else -n
  {
    if n == 0 then d
    else if n > 0 then
      var r := AddDays(NextDay(d), n - 1);
      assert n - 1 > 0 ==> DateBefore(NextDay(d), r);
      r
    else
      var r := AddDays(PrevDay(d), n + 1);
      assert n + 1 < 0 ==> DateBefore(r, PrevDay(d));
      r
  }

  /** Going `n` days forward and then `n` days back returns to the start. */
  lemma {:induction false} AddDaysInverse(d: Date, n: int)
    requires ValidDate(d)
    ensures AddDays(AddDays(d, n), -n) == d
    decreases if n >= 0 then n else -n
  {
    NextPrevInverse(d);
    if n > 0 {
      AddDaysInverse(NextDay(d), n - 1);
      PrevCommutes(AddDays(d, n), n - 1);
    } else if n < 0 {
      AddDaysInverse(PrevDay(d), n + 1);
      NextCommutes(AddDays(d, n), -n - 1);
    }
  }

  /** A step back can be taken first or last. */
  lemma {:induction false} PrevCommutes(d: Date, k: nat)
    requires ValidDate(d)
    ensures AddDays(PrevDay(d), -(k as int)) == PrevDay(AddDays(d, -(k as int)))
    decreases k
  {
    if k > 0 {
      PrevCommutes(PrevDay(d), k - 1);
    }
  }

  /** A step forward can be taken first or last. */
  lemma {:induction false} NextCommutes(d: Date, k: nat)
    requires ValidDate(d)
    ensures AddDays(NextDay(d), k) == NextDay(AddDays(d, k))
    decreases k
  {
    if k > 0 {
      NextCommutes(NextDay(d), k - 1);
    }
  }
}
