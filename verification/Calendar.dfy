/** Proleptic Gregorian dates as Python's `datetime.date` handles them: leap years,
    month lengths, day arithmetic, `strftime("%Y-%m-%d")` and `strptime(s, "%Y-%m-%d")`. */
module Calendar {
  import opened Wrappers
  import opened Text

  datatype Date = Date(year: int, month: int, day: int)

  predicate IsLeapYear(y: int) {
    y % 4 == 0 && (y % 100 != 0 || y % 400 == 0)
  }

  function DaysInMonth(y: int, m: int): (n: int)
    requires 1 <= m <= 12
    ensures 28 <= n <= 31
    ensures n == 29 <==> m == 2 && IsLeapYear(y)
  {
    if m == 2 then (if IsLeapYear(y) then 29 else 28)
    else if m == 4 || m == 6 || m == 9 || m == 11 then 30
    else 31
  }

  /** A real calendar date from year 1 on (Python's `date` also stops at 9999). */
  predicate ValidDate(d: Date) {
    1 <= d.year && 1 <= d.month <= 12 && 1 <= d.day <= DaysInMonth(d.year, d.month)
  }

  /** Chronological order, `a < b` on Python dates. */
  predicate Before(a: Date, b: Date) {
    a.year < b.year
    || (a.year == b.year && (a.month < b.month || (a.month == b.month && a.day < b.day)))
  }

  /** The following day, `d + timedelta(days=1)`. */
  function NextDay(d: Date): (r: Date)
    requires ValidDate(d)
    ensures ValidDate(r) && Before(d, r)
    ensures forall x :: Before(d, x) && Before(x, r) ==> !ValidDate(x)
  {
    if d.day < DaysInMonth(d.year, d.month) then Date(d.year, d.month, d.day + 1)
    else if d.month < 12 then Date(d.year, d.month + 1, 1)
    else Date(d.year + 1, 1, 1)
  }

  /** `d + timedelta(days=n)`. */
  function AddDays(d: Date, n: nat): (r: Date)
    requires ValidDate(d)
    ensures ValidDate(r)
    ensures n == 0 ==> r == d
    ensures n > 0 ==> Before(d, r)
    decreases n
  {
    if n == 0 then d else AddDays(NextDay(d), n - 1)
  }

  /** `d.strftime("%Y-%m-%d")`: zero-padded four-digit year, two-digit month and day. */
  function Format(d: Date): string
    requires ValidDate(d)
  {
    PadLeft(NatToString(d.year), 4, '0') + "-"
    + PadLeft(NatToString(d.month), 2, '0') + "-"
    + PadLeft(NatToString(d.day), 2, '0')
  }

  /** The shape `\d{4}-\d{2}-\d{2}` in ASCII digits. */
  predicate DateShaped(s: string) {
    |s| == 10 && AllDigits(s[..4]) && s[4] == '-' && AllDigits(s[5..7]) && s[7] == '-'
    && AllDigits(s[8..])
  }

  /** The texts `strptime`'s `%m` accepts: `1[0-2]|0[1-9]|[1-9]`. */
  predicate MonthToken(t: string) {
    (|t| == 1 && '1' <= t[0] <= '9')
    || (|t| == 2 && ((t[0] == '0' && '1' <= t[1] <= '9') || (t[0] == '1' && '0' <= t[1] <= '2')))
  }

  /** The texts `strptime`'s `%d` accepts at the end of the input:
      `3[01]|[12]\d|0[1-9]|[1-9]| [1-9]`, alternatives tried in that order, so a
      lone `3`..`9` matches only when nothing follows it. */
  predicate DayToken(t: string) {
    (|t| == 1 && '1' <= t[0] <= '9')
    || (|t| == 2 && (
      (t[0] == '3' && (t[1] == '0' || t[1] == '1'))
      || ((t[0] == '1' || t[0] == '2') && IsDigit(t[1]))
      || (t[0] == '0' && '1' <= t[1] <= '9')
      || (t[0] == ' ' && '1' <= t[1] <= '9')))
  }

  /** `int(t)` for a month or day token (a leading blank is ignored). */
  function TokenValue(t: string): (v: nat)
    requires MonthToken(t) || DayToken(t)
    ensures MonthToken(t) ==> 1 <= v <= 12
    ensures DayToken(t) ==> 1 <= v <= 31
  {
    if t[0] == ' ' then DigitValue(t[1])
    else if |t| == 1 then OneDigit(t); DigitsValue(t)
    else TwoDigits(t); DigitsValue(t)
  }

  /** `datetime.strptime(s, "%Y-%m-%d")`: four digits, `-`, a month token, `-`, a day
      token that ends the input, then the calendar check (year 0 and days past the
      end of the month raise `ValueError`). `None` stands for the `ValueError`. */
  function Strptime(s: string): (r: Option<Date>)
    ensures r.Some? ==> ValidDate(r.value) && r.value.year <= 9999
  {
    if |s| < 5 || !AllDigits(s[..4]) || s[4] != '-' then None
    else match IndexOf(s[5..], '-')
      case None => None
      case Some(k) =>
        var mt := s[5..5 + k];
        var dt := s[5 + k + 1..];
        if !MonthToken(mt) || !DayToken(dt) then None
        else
          var y := DigitsValue(s[..4]);
          var m := TokenValue(mt);
          var d := TokenValue(dt);
          assert y <= 9999 by { FourDigitsBound(s[..4]); }
          if 1 <= y && d <= DaysInMonth(y, m) then Some(Date(y, m, d)) else None
  }

  function Pow10(k: nat): nat {
    if k == 0 then 1 else 10 * Pow10(k - 1)
  }

  lemma {:induction false} DigitsBound(s: string)
    requires AllDigits(s)
    ensures DigitsValue(s) < Pow10(|s|)
    decreases |s|
  {
    if |s| > 0 {
      DigitsBound(s[..|s| - 1]);
    }
  }

  lemma FourDigitsBound(s: string)
    requires |s| == 4 && AllDigits(s)
    ensures DigitsValue(s) <= 9999
  {
    DigitsBound(s);
    assert Pow10(4) == 10000;
  }

  /** `PlannerAgent.is_valid_date`: `strptime` accepts the text as a real date. */
  predicate IsValidDate(s: string) {
    Strptime(s).Some?
  }

  function ShapedYear(s: string): nat requires DateShaped(s) { DigitsValue(s[..4]) }
  function ShapedMonth(s: string): nat requires DateShaped(s) { DigitsValue(s[5..7]) }
  function ShapedDay(s: string): nat requires DateShaped(s) { DigitsValue(s[8..]) }

  lemma OneDigit(t: string)
    requires |t| == 1 && AllDigits(t)
    ensures DigitsValue(t) == DigitValue(t[0])
  {
    assert t[..0] == "";
  }

  lemma TwoDigits(t: string)
    requires |t| == 2 && AllDigits(t)
    ensures DigitsValue(t) == DigitValue(t[0]) * 10 + DigitValue(t[1])
  {
    var a := t[..1];
    OneDigit(a);
  }

  /** On a `YYYY-MM-DD`-shaped text, `is_valid_date` holds exactly for a real calendar
      date: year at least 1, month 1 to 12, day within the month (leap years included). */
  lemma ShapedDateValidity(s: string)
    requires DateShaped(s)
    ensures IsValidDate(s) <==>
      (1 <= ShapedYear(s) && 1 <= ShapedMonth(s) <= 12
       && 1 <= ShapedDay(s) <= DaysInMonth(ShapedYear(s), ShapedMonth(s)))
    ensures IsValidDate(s) ==> Strptime(s) == Some(Date(ShapedYear(s), ShapedMonth(s), ShapedDay(s)))
  {
    var rest := s[5..];
    assert s[5..7][0] == s[5] && s[5..7][1] == s[6];
    assert rest[2] == '-' && rest[0] != '-' && rest[1] != '-';
    assert IndexOf(rest, '-') == Some(2);
    var mt := s[5..7];
    var dt := s[8..];
    assert rest[..2] == mt;
    assert s[5 + 2 + 1..] == dt;
    TwoDigits(mt);
    TwoDigits(dt);
    assert MonthToken(mt) <==> 1 <= ShapedMonth(s) <= 12;
    assert DayToken(dt) <==> 1 <= ShapedDay(s) <= 31;
  }

  lemma NatToStringPadded(n: nat, width: nat)
    requires 1 <= width
    ensures AllDigits(PadLeft(NatToString(n), width, '0'))
    ensures DigitsValue(PadLeft(NatToString(n), width, '0')) == n
  {
    var s := NatToString(n);
    LeadingZeros(|PadLeft(s, width, '0')| - |s|, s);
  }

  lemma FormatFields(d: Date)
    requires ValidDate(d) && d.year <= 9999
    ensures DateShaped(Format(d))
    ensures ShapedYear(Format(d)) == d.year
    ensures ShapedMonth(Format(d)) == d.month
    ensures ShapedDay(Format(d)) == d.day
  {
    var ys := PadLeft(NatToString(d.year), 4, '0');
    var ms := PadLeft(NatToString(d.month), 2, '0');
    var ds := PadLeft(NatToString(d.day), 2, '0');
    NatToStringPadded(d.year, 4);
    NatToStringPadded(d.month, 2);
    NatToStringPadded(d.day, 2);
    assert |ys| == 4 && |ms| == 2 && |ds| == 2;
    JoinedFields(ys, ms, ds);
  }

  /** Four, two and two digits joined by dashes have the date shape, and slicing the
      shape gives the three parts back. */
  lemma JoinedFields(ys: string, ms: string, ds: string)
    requires |ys| == 4 && |ms| == 2 && |ds| == 2
    requires AllDigits(ys) && AllDigits(ms) && AllDigits(ds)
    ensures var s := ys + "-" + ms + "-" + ds;
      DateShaped(s) && s[..4] == ys && s[5..7] == ms && s[8..] == ds
  {
    var s := ys + "-" + ms + "-" + ds;
    assert s[..4] == ys;
    assert s[5..7] == ms;
    assert s[8..] == ds;
  }

  /** Formatting a date and reading it back with `strptime` gives the same date, and
      the text has the `YYYY-MM-DD` shape the plan validator looks for. */
  lemma FormatRoundTrip(d: Date)
    requires ValidDate(d) && d.year <= 9999
    ensures DateShaped(Format(d))
    ensures Strptime(Format(d)) == Some(d)
  {
    FormatFields(d);
    ShapedDateValidity(Format(d));
  }
}
