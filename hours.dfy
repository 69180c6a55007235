/** Time arithmetic: the length of a session between two times of day
    (`calculate_hours` in both front ends), the conversion of a time given as
    text or as a time object to minutes since midnight (`_to_minutes`), the
    rounding applied when a session is stored, and the `"{h}h {m}m"` display
    (`format_hours`).

    `calculate_hours` returns `minutes / 60` as a float; the model returns the
    whole number of minutes, from which every hours figure is derived exactly. */
module Hours {
  import opened Wrappers
  import opened Text
  import opened Calendar
  import opened Rounding

  const MinutesPerDay: int := 24 * 60

  /** Minutes from `start` to `end`, wrapping past midnight when `end` is the
      earlier clock time: the branch shared by both `calculate_hours`. For
      clock minutes it is the one offset in [0, 1440) that leads from `start`
      to `end` round the clock. */
  function ElapsedMinutes(start: int, end: int): (r: int)
    ensures 0 <= start < MinutesPerDay && 0 <= end < MinutesPerDay ==>
      0 <= r < MinutesPerDay && (start + r) % MinutesPerDay == end && (r == 0 <==> start == end)
  {
    if end < start then (MinutesPerDay - start) + end else end - start
  }

  /** No other offset in a day leads from `start` to `end`. */
  lemma ElapsedMinutesUnique(start: int, end: int, r: int)
    requires 0 <= start < MinutesPerDay && 0 <= end < MinutesPerDay
    requires 0 <= r < MinutesPerDay && (start + r) % MinutesPerDay == end
    ensures r == ElapsedMinutes(start, end)
  {
    var k := (start + r) / MinutesPerDay;
    assert start + r == k * MinutesPerDay + end;
    assert 0 <= k <= 1;
  }

  /** 23:00 to 01:00 is a two-hour overnight session. */
  lemma OvernightExample()
    ensures ElapsedMinutes(23 * 60, 1 * 60) == 120
  {
  }

  // ---------------------------------------------------------------------------
  // `_to_minutes`
  // ---------------------------------------------------------------------------

  /** `_to_minutes` accepts an "HH:MM" text or a `datetime.time`. */
  datatype TimeValue = TimeText(text: string) | TimeObject(time: TimeOfDay)

  /** `t.hour * 60 + t.minute`. */
  function ClockMinutes(t: TimeOfDay): (m: int)
    ensures 0 <= m < MinutesPerDay
    ensures m / 60 == t.hour && m % 60 == t.minute
  {
    t.hour * 60 + t.minute
  }

  /** Distinct times of day are distinct minutes. */
  lemma ClockMinutesInjective(a: TimeOfDay, b: TimeOfDay)
    ensures ClockMinutes(a) == ClockMinutes(b) <==> a == b
  {
    var ma, mb := ClockMinutes(a), ClockMinutes(b);
    assert ma == mb ==> ma / 60 == mb / 60 && ma % 60 == mb % 60;
  }

  /** `_to_minutes`: a text is split at ':' and its first two fields are read
      with `int`; fields after the second are ignored. A text with no ':'
      (an `IndexError`) or a field that is not a numeral (a `ValueError`) is
      `None`. The fields are not range-checked. */
  function ToMinutes(t: TimeValue): (r: Option<int>)
    ensures t.TimeObject? ==> r == Some(ClockMinutes(t.time))
    ensures t.TimeText? && ':' !in t.text ==> r == None
  {
    match t
    case TimeObject(x) => Some(ClockMinutes(x))
    case TimeText(s) =>
      var parts := Split(s, ':');
      if ':' !in s then
        SplitWithoutSep(s, ':');
        None
      else if |parts| < 2 then None
      else
        match (ParseInt(parts[0]), ParseInt(parts[1]))
        case (Some(h), Some(m)) => Some(h * 60 + m)
        case _ => None
  }

  /** The "HH:MM" text of a time of day reads back as the same minutes as the
      time object itself. */
  lemma ClockTextMinutes(t: TimeOfDay)
    ensures ToMinutes(TimeText(ClockText(t))) == ToMinutes(TimeObject(t))
  {
    var s := ClockText(t);
    assert s[2] == ':';
    ParsePad2(t.hour);
    ParsePad2(t.minute);
  }

  /** "25:00" splits into its hour and minute fields. */
  lemma SplitExample()
    ensures Split("25:00", ':') == ["25", "00"]
  {
    assert Join(["25", "00"], ':') == "25:00";
    SplitJoin(["25", "00"], ':');
  }

  /** The fields "25" and "00" read as 25 and 0. */
  lemma FieldsExample()
    ensures ParseInt("25") == Some(25) && ParseInt("00") == Some(0)
  {
    ParseIntToString(25);
    assert IntToString(25) == "25";
    assert "00"[..1] == "0" && "0"[..0] == "";
  }

  /** A text is not checked against the clock: "25:00" is read as 1500
      minutes, past the end of the day. */
  lemma UncheckedTextExample()
    ensures ToMinutes(TimeText("25:00")) == Some(1500)
  {
    assert "25:00"[2] == ':';
    SplitExample();
    FieldsExample();
  }

  // ---------------------------------------------------------------------------
  // `calculate_hours`
  // ---------------------------------------------------------------------------

  /** `calculate_hours` in helpers.py, in minutes: `None` when either time
      cannot be read. */
  function CalculateMinutes(start: TimeValue, end: TimeValue): (r: Option<int>)
    ensures r.Some? <==> ToMinutes(start).Some? && ToMinutes(end).Some?
    ensures r.Some? && 0 <= ToMinutes(start).value < MinutesPerDay && 0 <= ToMinutes(end).value < MinutesPerDay ==>
      0 <= r.value < MinutesPerDay && (ToMinutes(start).value + r.value) % MinutesPerDay == ToMinutes(end).value
  {
    match (ToMinutes(start), ToMinutes(end))
    case (Some(s), Some(e)) => Some(ElapsedMinutes(s, e))
    case _ => None
  }

  /** `calculate_hours` in app.py, which takes time objects only: a day's
      worth of minutes at most, zero exactly when the times agree, and the
      same as the helpers.py version given the same times. */
  function AppCalculateMinutes(start: TimeOfDay, end: TimeOfDay): (r: int)
    ensures 0 <= r < MinutesPerDay
    ensures (ClockMinutes(start) + r) % MinutesPerDay == ClockMinutes(end)
    ensures r == 0 <==> start == end
    ensures CalculateMinutes(TimeObject(start), TimeObject(end)) == Some(r)
  {
    ClockMinutesInjective(start, end);
    ElapsedMinutes(ClockMinutes(start), ClockMinutes(end))
  }

  // ---------------------------------------------------------------------------
  // Stored hours and amounts
  // ---------------------------------------------------------------------------

  /** `round(minutes / 60, 2)`, in hundredths of an hour. */
  function StoredHours(minutes: int): (h: int)
    ensures 2 * Abs(h * 60 - minutes * 100) < 60
  {
    var h := RoundHalfEven(minutes * 100, 60);
    assert (minutes * 100) % 60 != 30 by {
      assert minutes * 100 == (minutes * 5 / 3) * 60 + (minutes * 5 % 3) * 20;
    }
    h
  }

  /** `round(minutes / 60 * rate, 2)` in pence, for a rate in pence per hour:
      the nearest penny to the exact charge, a tie going to the even penny. */
  function SessionAmount(minutes: int, rate: int): (pence: int)
    ensures 2 * Abs(pence * 60 - minutes * rate) <= 60
  {
    RoundHalfEven(minutes * rate, 60)
  }

  /** Whole hours are charged exactly `hours * rate`. */
  lemma WholeHoursAmount(hours: int, rate: int)
    ensures SessionAmount(hours * 60, rate) == hours * rate
  {
    assert hours * 60 * rate == (hours * rate) * 60;
    RoundExact(hours * rate, 60);
  }

  // ---------------------------------------------------------------------------
  // `format_hours`
  // ---------------------------------------------------------------------------

  /** Python's `int(a / b)`: the quotient truncated toward zero. */
  function TruncDiv(a: int, b: int): (q: int)
    requires b > 0
    ensures Abs(q) == Abs(a) / b
    ensures a >= 0 ==> q >= 0
    ensures a < 0 ==> q <= 0
  {
    if a >= 0 then a / b else -((-a) / b)
  }

  datatype HoursMinutes = HoursMinutes(hours: int, minutes: int)

  /** The two numbers `format_hours` prints for `num / den` hours:
      `h = int(hours)` and `m = int((hours - h) * 60)`. For a non-negative
      value, `h` is the whole hours and `h * 60 + m` the whole minutes, both
      rounded down, with `m` in [0, 59]. */
  function SplitHours(num: int, den: int): (hm: HoursMinutes)
    requires den > 0
    ensures num >= 0 ==> hm.hours * den <= num < (hm.hours + 1) * den
    ensures num >= 0 ==> 0 <= hm.minutes < 60
    ensures num >= 0 ==>
      (hm.hours * 60 + hm.minutes) * den <= num * 60 < (hm.hours * 60 + hm.minutes + 1) * den
  {
    var h := TruncDiv(num, den);
    var m := TruncDiv((num - h * den) * 60, den);
    if num >= 0 then
      MinutesBounds(num, den, h, num - h * den, m);
      HoursMinutes(h, m)
    else HoursMinutes(h, m)
  }

  lemma MinutesBounds(num: int, den: int, h: int, rest: int, m: int)
    requires den > 0 && num >= 0
    requires h == num / den && rest == num - h * den && m == (rest * 60) / den
    ensures h * den <= num < (h + 1) * den
    ensures 0 <= m < 60
    ensures (h * 60 + m) * den <= num * 60 < (h * 60 + m + 1) * den
  {
    assert 0 <= rest < den;
    assert m * den <= rest * 60 < (m + 1) * den;
    MulCancel(m, 60, den);
    assert num * 60 == h * den * 60 + rest * 60;
    assert (h * 60 + m) * den == h * den * 60 + m * den;
    assert (h * 60 + m + 1) * den == h * den * 60 + (m + 1) * den;
  }

  lemma MulCancel(a: int, b: int, c: int)
    requires c > 0
    ensures a * c < b * c ==> a < b
  {
    if a >= b {
      assert (a - b) * c >= 0;
      assert a * c - b * c == (a - b) * c;
    }
  }

  /** The display of a negative total mirrors that of its magnitude. */
  lemma SplitHoursNegative(num: int, den: int)
    requires den > 0
    ensures SplitHours(-num, den) == HoursMinutes(-SplitHours(num, den).hours, -SplitHours(num, den).minutes)
  {
    var h := TruncDiv(num, den);
    var h' := TruncDiv(-num, den);
    assert h' == -h;
    assert (-num - h' * den) == -(num - h * den);
  }

  /** The whole minutes of an exact duration in minutes split into `m div 60`
      hours and `m mod 60` minutes. */
  lemma SplitMinutes(minutes: nat)
    ensures SplitHours(minutes, 60) == HoursMinutes(minutes / 60, minutes % 60)
  {
    var hm := SplitHours(minutes, 60);
    assert (hm.hours * 60 + hm.minutes) * 60 <= minutes * 60 < (hm.hours * 60 + hm.minutes + 1) * 60;
    assert hm.hours * 60 + hm.minutes == minutes;
  }

  /** `format_hours(hours)` for `hours = num / den`. */
  function FormatHours(num: int, den: int): string
    requires den > 0
  {
    var hm := SplitHours(num, den);
    IntToString(hm.hours) + "h " + IntToString(hm.minutes) + "m"
  }

  /** 1.99 hours is 1 hour and 59.4 minutes, shown truncated as "1h 59m". */
  lemma FormatHoursExample()
    ensures FormatHours(199, 100) == "1h 59m"
  {
    assert SplitHours(199, 100) == HoursMinutes(1, 59);
    assert NatToString(59) == NatToString(5) + [DigitChar(9)];
  }
}
