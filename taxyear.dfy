/** Tax years: the year a date's tax year began (`get_tax_year`, identical in
    both front ends) and the two human-readable labels, which differ: helpers.py
    names the month the tax year ends in, app.py repeats the start month. */
module TaxYear {
  import opened Text
  import opened Calendar

  /** `get_tax_year`: the calendar year in which the tax year holding `d`
      began, for tax years starting on the first of `startMonth`. */
  function GetTaxYear(d: Date, startMonth: int): (ty: int)
    ensures ty == d.year || ty == d.year - 1
    ensures ty == d.year <==> d.month >= startMonth
    ensures 1 <= startMonth <= 12 ==>
      MonthIndex(YearMonth(ty, startMonth)) <= MonthIndex(MonthOf(d)) < MonthIndex(YearMonth(ty, startMonth)) + 12
  {
    if d.month >= startMonth then d.year else d.year - 1
  }

  /** A tax year is the twelve months from its start month on: a year whose
      window holds the date is the one `GetTaxYear` returns. */
  lemma TaxYearWindowUnique(d: Date, startMonth: Month, ty: int)
    requires MonthIndex(YearMonth(ty, startMonth)) <= MonthIndex(MonthOf(d)) < MonthIndex(YearMonth(ty, startMonth)) + 12
    ensures ty == GetTaxYear(d, startMonth)
  {
    var t := GetTaxYear(d, startMonth);
    assert ty * 12 <= t * 12 + 11 && t * 12 <= ty * 12 + 11;
  }

  /** With tax years starting in January the tax year is the calendar year. */
  lemma CalendarTaxYear(d: Date)
    ensures GetTaxYear(d, 1) == d.year
  {
  }

  /** `tax_year_start_month - 1 or 12`: the month before the start month. */
  function EndMonth(startMonth: Month): (m: Month)
    ensures m % 12 + 1 == startMonth
    ensures m != startMonth
  {
    if startMonth == 1 then 12 else startMonth - 1
  }

  /** "{ty}/{ty + 1}", the part both labels open with. */
  function TaxYearSpan(ty: int): string {
    IntToString(ty) + "/" + IntToString(ty + 1)
  }

  /** "{span} ({first} - {last})" with both months as "%B %Y". */
  function PeriodLabel(ty: int, first: YearMonth, last: YearMonth): (s: string)
    ensures TaxYearSpan(ty) + " (" <= s
  {
    TaxYearSpan(ty) + " (" + MonthLabel(first) + " - " + MonthLabel(last) + ")"
  }

  /** The first month of tax year `ty`. */
  function FirstMonth(ty: int, startMonth: Month): YearMonth {
    YearMonth(ty, startMonth)
  }

  /** The last month of tax year `ty`: eleven months after the first. Every
      date in it belongs to `ty`, and the month after it begins `ty + 1`. */
  function LastMonth(ty: int, startMonth: Month): (ym: YearMonth)
    ensures MonthIndex(ym) == MonthIndex(FirstMonth(ty, startMonth)) + 11
    ensures forall day: Day :: GetTaxYear(Date(ym.year, ym.month, day), startMonth) == ty
    ensures GetTaxYear(Date(FromIndex(MonthIndex(ym) + 1).year, FromIndex(MonthIndex(ym) + 1).month, 1), startMonth) == ty + 1
  {
    FromIndex(MonthIndex(FirstMonth(ty, startMonth)) + 11)
  }

  /** The month the helpers.py label ends with: the month before the start
      month, always in year `ty + 1`. */
  function LabelEndMonth(ty: int, startMonth: Month): YearMonth {
    YearMonth(ty + 1, EndMonth(startMonth))
  }

  /** `get_tax_year_label` in helpers.py, as written. */
  function TaxYearLabel(ty: int, startMonth: Month): (s: string)
    ensures s == PeriodLabel(ty, FirstMonth(ty, startMonth), LabelEndMonth(ty, startMonth))
  {
    TaxYearSpan(ty) + " (" + (MonthName(startMonth) + " " + IntToString(ty))
      + " - " + (MonthName(EndMonth(startMonth)) + " " + IntToString(ty + 1)) + ")"
  }

  /** For every start month but January the helpers.py label ends with the
      last month of the tax year. */
  lemma TaxYearLabelEnd(ty: int, startMonth: Month)
    requires startMonth != 1
    ensures LabelEndMonth(ty, startMonth) == LastMonth(ty, startMonth)
  {
  }

  /** For tax years starting in January the helpers.py label ends a year
      late: the month it names falls in the next tax year. */
  lemma JanuaryLabelOverruns(ty: int)
    ensures LabelEndMonth(ty, 1) != LastMonth(ty, 1)
    ensures GetTaxYear(Date(LabelEndMonth(ty, 1).year, LabelEndMonth(ty, 1).month, 1), 1) == ty + 1
  {
  }

  /** The label with the end year of the last month of the tax year, which
      differs from `TaxYearLabel` only for a January start. Its two months are
      the first and last months of tax year `ty`. */
  function CorrectedTaxYearLabel(ty: int, startMonth: Month): (s: string)
    ensures s == PeriodLabel(ty, FirstMonth(ty, startMonth), LastMonth(ty, startMonth))
    ensures startMonth != 1 ==> s == TaxYearLabel(ty, startMonth)
  {
    if startMonth != 1 then
      TaxYearLabelEnd(ty, startMonth);
      PeriodLabel(ty, FirstMonth(ty, startMonth), LastMonth(ty, startMonth))
    else PeriodLabel(ty, FirstMonth(ty, startMonth), LastMonth(ty, startMonth))
  }

  /** `get_tax_year_label` in app.py: the start month's name on both sides. */
  function AppTaxYearLabel(ty: int, startMonth: Month): (s: string)
    ensures s == PeriodLabel(ty, FirstMonth(ty, startMonth), YearMonth(ty + 1, startMonth))
  {
    TaxYearSpan(ty) + " (" + (MonthName(startMonth) + " " + IntToString(ty))
      + " - " + (MonthName(startMonth) + " " + IntToString(ty + 1)) + ")"
  }

  /** Equal texts around two middles force the middles to be equal. */
  lemma CancelAround(a: string, x: string, y: string, b: string)
    ensures a + x + b == a + y + b ==> x == y
  {
    if a + x + b == a + y + b {
      assert |x| == |y|;
      assert x == (a + x + b)[|a|..|a| + |x|];
      assert y == (a + y + b)[|a|..|a| + |y|];
    }
  }

  /** Equal texts with one ending force the beginnings to be equal. */
  lemma CancelRight(x: string, y: string, b: string)
    ensures x + b == y + b ==> x == y
  {
    if x + b == y + b {
      assert |x| == |y|;
      assert x == (x + b)[..|x|];
      assert y == (y + b)[..|y|];
    }
  }

  /** The two front ends never label a tax year the same way. */
  lemma LabelsDiffer(ty: int, startMonth: Month)
    ensures TaxYearLabel(ty, startMonth) != AppTaxYearLabel(ty, startMonth)
  {
    var a := TaxYearSpan(ty) + " (" + (MonthName(startMonth) + " " + IntToString(ty)) + " - ";
    var c := IntToString(ty + 1);
    var x, y := MonthName(EndMonth(startMonth)), MonthName(startMonth);
    MonthNamesDistinct(EndMonth(startMonth), startMonth);
    assert TaxYearLabel(ty, startMonth) == a + (x + " " + c) + ")";
    assert AppTaxYearLabel(ty, startMonth) == a + (y + " " + c) + ")";
    CancelAround(a, x + " " + c, y + " " + c, ")");
    CancelRight(x + " ", y + " ", c);
    CancelRight(x, y, " ");
  }

  lemma YearTexts()
    ensures IntToString(2024) == "2024" && IntToString(2025) == "2025"
  {
    assert NatToString(2024) == NatToString(202) + ['4'];
    assert NatToString(202) == NatToString(20) + ['2'];
    assert NatToString(20) == NatToString(2) + ['0'];
    assert NatToString(2025) == NatToString(202) + ['5'];
  }

  /** The UK tax year 2024 as helpers.py shows it. */
  lemma LabelExample()
    ensures TaxYearLabel(2024, 4) == "2024/2025 (April 2024 - March 2025)"
  {
    YearTexts();
    assert MonthName(4) == "April" && MonthName(EndMonth(4)) == "March";
    var span: string := "2024" + "/" + "2025";
    assert span == "2024/2025";
    var first: string := "April" + " " + "2024";
    assert first == "April 2024";
    var last: string := "March" + " " + "2025";
    assert last == "March 2025";
    var s: string := "2024/2025" + " (";
    assert s == "2024/2025 (";
    s := s + "April 2024";
    assert s == "2024/2025 (April 2024";
    s := s + " - ";
    assert s == "2024/2025 (April 2024 - ";
    s := s + "March 2025";
    assert s == "2024/2025 (April 2024 - March 2025";
    s := s + ")";
    assert s == "2024/2025 (April 2024 - March 2025)";
  }

  /** The same tax year as app.py shows it. */
  lemma AppLabelExample()
    ensures AppTaxYearLabel(2024, 4) == "2024/2025 (April 2024 - April 2025)"
  {
    YearTexts();
    assert MonthName(4) == "April";
    var span: string := "2024" + "/" + "2025";
    assert span == "2024/2025";
    var first: string := "April" + " " + "2024";
    assert first == "April 2024";
    var last: string := "April" + " " + "2025";
    assert last == "April 2025";
    var s: string := "2024/2025" + " (";
    assert s == "2024/2025 (";
    s := s + "April 2024";
    assert s == "2024/2025 (April 2024";
    s := s + " - ";
    assert s == "2024/2025 (April 2024 - ";
    s := s + "April 2025";
    assert s == "2024/2025 (April 2024 - April 2025";
    s := s + ")";
    assert s == "2024/2025 (April 2024 - April 2025)";
  }

  /** A calendar-year tax year as helpers.py labels it: twenty-four months. */
  lemma JanuaryLabelExample()
    ensures TaxYearLabel(2024, 1) == "2024/2025 (January 2024 - December 2025)"
  {
    YearTexts();
    assert MonthName(1) == "January" && MonthName(EndMonth(1)) == "December";
    var span: string := "2024" + "/" + "2025";
    assert span == "2024/2025";
    var first: string := "January" + " " + "2024";
    assert first == "January 2024";
    var last: string := "December" + " " + "2025";
    assert last == "December 2025";
    var s: string := "2024/2025" + " (";
    assert s == "2024/2025 (";
    s := s + "January 2024";
    assert s == "2024/2025 (January 2024";
    s := s + " - ";
    assert s == "2024/2025 (January 2024 - ";
    s := s + "December 2025";
    assert s == "2024/2025 (January 2024 - December 2025";
    s := s + ")";
    assert s == "2024/2025 (January 2024 - December 2025)";
  }
}
