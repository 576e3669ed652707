/** The heuristic date normalisation of the scripted planner: the month named in a query
    (Chinese numerals or digits before `月`), the trip length (`N天M夜` or `N天`), the first
    day of that month not before today, and the resulting check-in and check-out texts. */
module QueryDates {
  import opened Wrappers
  import opened Text
  import opened Calendar

  // ---------------------------------------------------------------- month

  /** The characters of `[一二三四五六七八九十]`. */
  const CN_NUMERALS: set<char> := {'一', '二', '三', '四', '五', '六', '七', '八', '九', '十'}

  /** `c` belongs to the numeral class (`cn`) or to `\d` (ASCII digits only). */
  predicate InClass(c: char, cn: bool) {
    if cn then c in CN_NUMERALS else IsDigit(c)
  }

  /** `CN_MONTH_MAP.get(tok)`. */
  function CnMonth(tok: string): (r: Option<int>)
    ensures r.Some? ==> 1 <= r.value <= 12
  {
    if tok == "一" then Some(1) else if tok == "二" then Some(2)
    else if tok == "三" then Some(3) else if tok == "四" then Some(4)
    else if tok == "五" then Some(5) else if tok == "六" then Some(6)
    else if tok == "七" then Some(7) else if tok == "八" then Some(8)
    else if tok == "九" then Some(9) else if tok == "十" then Some(10)
    else if tok == "十一" then Some(11) else if tok == "十二" then Some(12)
    else None
  }

  /** The numerals the table maps to month `m`. */
  function CnName(m: int): (r: string)
    requires 1 <= m <= 12
    ensures 1 <= |r| <= 2 && forall i :: 0 <= i < |r| ==> r[i] in CN_NUMERALS
    ensures CnMonth(r) == Some(m)
  {
    ["一", "二", "三", "四", "五", "六", "七", "八", "九", "十", "十一", "十二"][m - 1]
  }

  /** The length of the run of class characters starting at `p`, at most `max`. */
  function ClassRun(s: string, p: nat, cn: bool, max: nat): (n: nat)
    requires p <= |s|
    ensures p + n <= |s| && n <= max
    ensures forall i :: p <= i < p + n ==> InClass(s[i], cn)
    ensures n < max && p + n < |s| ==> !InClass(s[p + n], cn)
    decreases max
  {
    if max == 0 || p == |s| || !InClass(s[p], cn) then 0
    else 1 + ClassRun(s, p + 1, cn, max - 1)
  }

  /** The token `([一二三四五六七八九十]{1,3}|\d{1,2})月` captures when matched at `p`.
      Greedy repetition backs off one character at a time, but a shorter run is followed
      by another numeral rather than `月`, so only the longest run can match. */
  function MonthTokenAt(s: string, p: nat): (r: Option<string>)
    ensures r.Some? ==> p + |r.value| < |s| && s[p..p + |r.value|] == r.value && s[p + |r.value|] == '月'
    ensures r.Some? ==> 1 <= |r.value| <= 3
    ensures r.Some? ==> ((forall i :: 0 <= i < |r.value| ==> InClass(r.value[i], true))
                         || (|r.value| <= 2 && AllDigits(r.value)))
    ensures p < |s| && !InClass(s[p], true) && !InClass(s[p], false) ==> r.None?
  {
    if p >= |s| then None
    else
      var cn := InClass(s[p], true);
      if !InClass(s[p], cn) then None
      else
        var n := ClassRun(s, p, cn, if cn then 3 else 2);
        if p + n < |s| && s[p + n] == '月' then Some(s[p..p + n]) else None
  }

  /** Conversely, a run of one to three numerals, or of one or two digits, followed by
      `月` matches at `p`, with the whole run as the token. */
  lemma MonthTokenFound(s: string, p: nat, n: nat, cn: bool)
    requires 1 <= n <= (if cn then 3 else 2) && p + n < |s|
    requires forall i :: p <= i < p + n ==> InClass(s[i], cn)
    requires s[p + n] == '月'
    ensures MonthTokenAt(s, p) == Some(s[p..p + n])
  {
    assert InClass(s[p], cn);
    assert InClass(s[p], true) == cn;
    assert !InClass(s[p + n], cn);
    ClassRunOf(s, p, cn, if cn then 3 else 2, n);
  }

  /** `re.search`: the token of the leftmost match at or after `from`. */
  function MonthMatch(s: string, from: nat): (r: Option<(nat, string)>)
    ensures r.Some? ==> from <= r.value.0 && MonthTokenAt(s, r.value.0) == Some(r.value.1)
    ensures r.Some? ==> forall p :: from <= p < r.value.0 ==> MonthTokenAt(s, p).None?
    ensures r.None? ==> forall p :: from <= p ==> MonthTokenAt(s, p).None?
    decreases |s| - from
  {
    if from >= |s| then None
    else match MonthTokenAt(s, from)
      case Some(t) => Some((from, t))
      case None => MonthMatch(s, from + 1)
  }

  /** `_parse_month`: the month the first `<token>月` names; a digit token counts only in
      1..12 and a numeral token only if the table lists it. */
  function ParseMonth(query: string): (r: Option<int>)
    ensures r.Some? ==> 1 <= r.value <= 12
    ensures MonthMatch(query, 0).None? ==> r.None?
  {
    match MonthMatch(query, 0)
    case None => None
    case Some((_, tok)) =>
      if AllDigits(tok) then
        var v := DigitsValue(tok);
        if 1 <= v <= 12 then Some(v) else None
      else CnMonth(tok)
  }

  /** Text with no numeral and no digit, where no match can start. */
  predicate Plain(s: string) {
    forall i :: 0 <= i < |s| ==> !InClass(s[i], true) && !InClass(s[i], false)
  }

  /** A run of exactly `n` class characters is measured as such. */
  lemma {:induction false} ClassRunOf(s: string, p: nat, cn: bool, max: nat, n: nat)
    requires p + n <= |s| && n <= max
    requires forall i :: p <= i < p + n ==> InClass(s[i], cn)
    requires n < max && p + n < |s| ==> !InClass(s[p + n], cn)
    ensures ClassRun(s, p, cn, max) == n
    decreases n
  {
    if n > 0 {
      ClassRunOf(s, p + 1, cn, max - 1, n - 1);
    }
  }

  /** A token of class `cn` followed by `月`, after plain text, is the leftmost match. */
  lemma MatchAfterPlain(prefix: string, t: string, cn: bool, rest: string)
    requires Plain(prefix) && 1 <= |t| <= 2
    requires forall i :: 0 <= i < |t| ==> InClass(t[i], cn)
    ensures MonthMatch(prefix + t + "月" + rest, 0) == Some((|prefix|, t))
  {
    var s := prefix + t + "月" + rest;
    var p := |prefix|;
    forall q | 0 <= q < p
      ensures MonthTokenAt(s, q).None?
    {
      assert s[q] == prefix[q];
    }
    forall i | 0 <= i < |t|
      ensures s[p + i] == t[i]
    {
    }
    assert s[p + |t|] == '月';
    assert InClass(s[p], true) == cn by {
      assert s[p] == t[0];
      if !cn {
        assert IsDigit(t[0]);
      }
    }
    ClassRunOf(s, p, cn, if cn then 3 else 2, |t|);
    assert s[p..p + |t|] == t;
    assert MonthTokenAt(s, p) == Some(t);
    MatchFrom(s, 0, p);
  }

  lemma {:induction false} MatchFrom(s: string, from: nat, p: nat)
    requires from <= p < |s| && MonthTokenAt(s, p).Some?
    requires forall q :: from <= q < p ==> MonthTokenAt(s, q).None?
    ensures MonthMatch(s, from) == Some((p, MonthTokenAt(s, p).value))
    decreases p - from
  {
    if from < p {
      MatchFrom(s, from + 1, p);
    }
  }

  /** A month written in digits after plain text is the month `_parse_month` reads. */
  lemma ParseDigitMonth(prefix: string, m: int, rest: string)
    requires Plain(prefix) && 1 <= m <= 12
    ensures ParseMonth(prefix + NatToString(m) + "月" + rest) == Some(m)
  {
    MatchAfterPlain(prefix, NatToString(m), false, rest);
  }

  /** A month written in the table's numerals after plain text is read the same way. */
  lemma ParseCnMonth(prefix: string, m: int, rest: string)
    requires Plain(prefix) && 1 <= m <= 12
    ensures ParseMonth(prefix + CnName(m) + "月" + rest) == Some(m)
  {
    var t := CnName(m);
    MatchAfterPlain(prefix, t, true, rest);
    assert !IsDigit(t[0]);
  }

  // ---------------------------------------------------------------- first day

  /** `_first_future_day_in_month`: walks from the 1st of the month while the day is
      still in the month and before today; if it runs off the month's end, falls back
      to the 1st. The result is the earliest day of the month not before today, or the
      1st when every day of the month is before today. */
  method FirstFutureDay(year: int, month: int, today: Date) returns (d: Date)
    requires 1 <= year && 1 <= month <= 12
    ensures ValidDate(d) && d.year == year && d.month == month
    ensures forall k :: 1 <= k < d.day ==> Before(Date(year, month, k), today)
    ensures !Before(d, today) || d.day == 1
    ensures Before(d, today) ==> forall k :: 1 <= k <= DaysInMonth(year, month) ==> Before(Date(year, month, k), today)
  {
    d := Date(year, month, 1);
    while d.month == month && Before(d, today)
      invariant ValidDate(d)
      invariant d.month == month ==> d.year == year
      invariant d.month == month ==> forall k :: 1 <= k < d.day ==> Before(Date(year, month, k), today)
      invariant d.month != month ==> forall k :: 1 <= k <= DaysInMonth(year, month) ==> Before(Date(year, month, k), today)
      invariant d.month != month ==> d == NextDay(Date(year, month, DaysInMonth(year, month)))
      decreases if d.month == month then DaysInMonth(year, month) - d.day + 1 else 0
    {
      d := NextDay(d);
    }
    if d.month != month {
      d := Date(year, month, 1);
    }
  }

  /** What `FirstFutureDay` settles on: a day of the month, every earlier day of which
      is past, that is itself not past unless the whole month is past and it is the 1st. */
  predicate IsFirstFutureDay(d: Date, year: int, month: int, today: Date) {
    && ValidDate(d) && d.year == year && d.month == month
    && (forall k :: 1 <= k < d.day ==> Before(Date(year, month, k), today))
    && (!Before(d, today) || d.day == 1)
    && (Before(d, today) ==> forall k :: 1 <= k <= DaysInMonth(year, month) ==> Before(Date(year, month, k), today))
  }

  /** The description determines the day: two days that both meet it are the same. */
  lemma FirstFutureDayUnique(d1: Date, d2: Date, year: int, month: int, today: Date)
    requires IsFirstFutureDay(d1, year, month, today) && IsFirstFutureDay(d2, year, month, today)
    ensures d1 == d2
  {
    assert d1 == Date(year, month, d1.day) && d2 == Date(year, month, d2.day);
  }

  // ---------------------------------------------------------------- length

  /** The end of the run of ASCII digits starting at `p`. */
  function RunEnd(s: string, p: nat): (q: nat)
    requires p <= |s|
    ensures p <= q <= |s| && AllDigits(s[p..q])
    ensures q < |s| ==> !IsDigit(s[q])
    decreases |s| - p
  {
    if p < |s| && IsDigit(s[p]) then
      var q := RunEnd(s, p + 1);
      assert s[p..q] == [s[p]] + s[p + 1..q];
      q
    else p
  }

  /** `(\d+)天(\d+)夜` matches at `p`. Greedy `\d+` backs off, but a shorter run is
      followed by a digit, so only the whole run can be followed by `天` or `夜`. */
  predicate DaysNightsAt(s: string, p: nat) {
    p < |s| && IsDigit(s[p])
    && var q := RunEnd(s, p);
    q + 1 < |s| && s[q] == '天' && IsDigit(s[q + 1])
    && var r := RunEnd(s, q + 1);
    r < |s| && s[r] == '夜'
  }

  /** `(\d+)天` matches at `p`. */
  predicate DaysAt(s: string, p: nat) {
    p < |s| && IsDigit(s[p]) && RunEnd(s, p) < |s| && s[RunEnd(s, p)] == '天'
  }

  function FirstDaysNights(s: string, from: nat): (r: Option<nat>)
    ensures r.Some? ==> from <= r.value && DaysNightsAt(s, r.value)
    ensures r.Some? ==> forall p :: from <= p < r.value ==> !DaysNightsAt(s, p)
    ensures r.None? ==> forall p :: from <= p ==> !DaysNightsAt(s, p)
    decreases |s| - from
  {
    if from >= |s| then None
    else if DaysNightsAt(s, from) then Some(from)
    else FirstDaysNights(s, from + 1)
  }

  function FirstDays(s: string, from: nat): (r: Option<nat>)
    ensures r.Some? ==> from <= r.value && DaysAt(s, r.value)
    ensures r.Some? ==> forall p :: from <= p < r.value ==> !DaysAt(s, p)
    ensures r.None? ==> forall p :: from <= p ==> !DaysAt(s, p)
    decreases |s| - from
  {
    if from >= |s| then None
    else if DaysAt(s, from) then Some(from)
    else FirstDays(s, from + 1)
  }

  /** `_extract_len_nights`: the nights of the first `N天M夜`; else, from the first `N天`,
      one night fewer than the days but at least one; else nothing. */
  function ExtractNights(query: string): (r: Option<int>)
    ensures r.Some? ==> r.value >= 0
    ensures FirstDaysNights(query, 0).None? && r.Some? ==> r.value >= 1
    ensures FirstDaysNights(query, 0).None? && FirstDays(query, 0).None? ==> r.None?
  {
    match FirstDaysNights(query, 0)
    case Some(p) => Some(NightsAt(query, p))
    case None =>
      match FirstDays(query, 0)
      case Some(p) => Some(NightsFromDaysAt(query, p))
      case None => None
  }

  /** `int(m.group(2))` for a `N天M夜` match at `p`. */
  function NightsAt(s: string, p: nat): nat
    requires DaysNightsAt(s, p)
  {
    var q := RunEnd(s, p);
    DigitsValue(s[q + 1..RunEnd(s, q + 1)])
  }

  /** `max(1, d - 1)` with `d = max(1, int(m2.group(1)))` for a `N天` match at `p`. */
  function NightsFromDaysAt(s: string, p: nat): int
    requires DaysAt(s, p)
  {
    var days := DigitsValue(s[p..RunEnd(s, p)]);
    var d := if days < 1 then 1 else days;
    if d - 1 < 1 then 1 else d - 1
  }

  /** A run of digits fully inside `s` ends where the digits stop. */
  lemma {:induction false} RunEndOf(s: string, p: nat, q: nat)
    requires p <= q <= |s| && forall i :: p <= i < q ==> IsDigit(s[i])
    requires q < |s| ==> !IsDigit(s[q])
    ensures RunEnd(s, p) == q
    decreases q - p
  {
    if p < q {
      RunEndOf(s, p + 1, q);
    }
  }

  /** Text with no digit, where neither pattern can start. */
  predicate NoDigits(s: string) {
    forall i :: 0 <= i < |s| ==> !IsDigit(s[i])
  }

  /** The nights come from the first `N天M夜`: when `s` has no digit before `p` and reads
      digits, `天`, digits, `夜` from `p` to `r`, the nights are the digits between `天`
      and `夜`. */
  lemma DaysNightsIn(s: string, p: nat, q: nat, r: nat)
    requires p < q && q + 1 < r < |s|
    requires forall i :: 0 <= i < p ==> !IsDigit(s[i])
    requires forall i :: p <= i < q ==> IsDigit(s[i])
    requires forall i :: q + 1 <= i < r ==> IsDigit(s[i])
    requires s[q] == '天' && s[r] == '夜'
    ensures ExtractNights(s) == Some(DigitsValue(s[q + 1..r]))
  {
    DaysNightsAtIntro(s, p, q, r);
    FirstDaysNightsAt(s, 0, p);
  }

  /** Whatever else the query holds, the first `N天M夜` decides: when it starts at `p` and
      reads digits up to `q`, `天`, digits up to `e` and `夜`, the nights are the digits
      between `天` and `夜`. */
  lemma NightsOfFirstMatch(s: string, p: nat, q: nat, e: nat)
    requires FirstDaysNights(s, 0) == Some(p)
    requires p < q && q + 1 < e < |s|
    requires forall i :: p <= i < q ==> IsDigit(s[i])
    requires forall i :: q + 1 <= i < e ==> IsDigit(s[i])
    requires s[q] == '天' && s[e] == '夜'
    ensures ExtractNights(s) == Some(DigitsValue(s[q + 1..e]))
  {
    ByFirstMatch(s, p);
    NightsBetween(s, p, q, e);
  }

  /** The nights of a `N天M夜` match are the digits between `天` and `夜`. */
  lemma NightsBetween(s: string, p: nat, q: nat, e: nat)
    requires p < q && q + 1 < e < |s|
    requires forall i :: p <= i < q ==> IsDigit(s[i])
    requires forall i :: q + 1 <= i < e ==> IsDigit(s[i])
    requires s[q] == '天' && s[e] == '夜'
    ensures DaysNightsAt(s, p) && NightsAt(s, p) == DigitsValue(s[q + 1..e])
  {
    DaysNightsAtIntro(s, p, q, e);
  }

  /** The nights of a `N天` match from the days in `p..q`. */
  lemma DaysBefore(s: string, p: nat, q: nat)
    requires p < q < |s| && s[q] == '天'
    requires forall i :: p <= i < q ==> IsDigit(s[i])
    ensures DaysAt(s, p)
    ensures NightsFromDaysAt(s, p) == if DigitsValue(s[p..q]) <= 2 then 1 else DigitsValue(s[p..q]) - 1
  {
    RunEndOf(s, p, q);
  }

  /** The nights of the first `N天M夜` match. */
  lemma ByFirstMatch(s: string, p: nat)
    requires FirstDaysNights(s, 0) == Some(p)
    ensures DaysNightsAt(s, p) && ExtractNights(s) == Some(NightsAt(s, p))
  {
  }

  /** The nights of the first `N天` match, when no `N天M夜` matches. */
  lemma ByFirstDays(s: string, p: nat)
    requires FirstDaysNights(s, 0).None? && FirstDays(s, 0) == Some(p)
    ensures DaysAt(s, p) && ExtractNights(s) == Some(NightsFromDaysAt(s, p))
  {
  }

  /** With no `N天M夜` anywhere, the first `N天` decides: when it starts at `p` and reads
      the digits of `p..q` before `天`, the nights are one fewer than those days, but at
      least one. */
  lemma NightsOfFirstDays(s: string, p: nat, q: nat)
    requires FirstDaysNights(s, 0).None? && FirstDays(s, 0) == Some(p)
    requires p < q < |s| && s[q] == '天'
    requires forall i :: p <= i < q ==> IsDigit(s[i])
    ensures ExtractNights(s) == Some(if DigitsValue(s[p..q]) <= 2 then 1 else DigitsValue(s[p..q]) - 1)
  {
    ByFirstDays(s, p);
    DaysBefore(s, p, q);
  }

  /** `N天M夜` matches at `p` when the digits of `p..q` and `q + 1..r` are separated by
      `天` and followed by `夜`. */
  lemma DaysNightsAtIntro(s: string, p: nat, q: nat, r: nat)
    requires p < q && q + 1 < r < |s|
    requires forall i :: p <= i < q ==> IsDigit(s[i])
    requires forall i :: q + 1 <= i < r ==> IsDigit(s[i])
    requires s[q] == '天' && s[r] == '夜'
    ensures DaysNightsAt(s, p) && RunEnd(s, p) == q && RunEnd(s, q + 1) == r
  {
    RunEndOf(s, p, q);
    RunEndOf(s, q + 1, r);
  }

  lemma {:induction false} FirstDaysNightsAt(s: string, from: nat, p: nat)
    requires from <= p && DaysNightsAt(s, p)
    requires forall i :: from <= i < p ==> !IsDigit(s[i])
    ensures FirstDaysNights(s, from) == Some(p)
    decreases p - from
  {
    if from < p {
      FirstDaysNightsAt(s, from + 1, p);
    }
  }

  lemma {:induction false} FirstDaysAt(s: string, from: nat, p: nat)
    requires from <= p && DaysAt(s, p)
    requires forall i :: from <= i < p ==> !IsDigit(s[i])
    ensures FirstDays(s, from) == Some(p)
    decreases p - from
  {
    if from < p {
      FirstDaysAt(s, from + 1, p);
    }
  }

  /** `N天` followed by digit-free text (so no `N天M夜` anywhere), after digit-free text,
      gives `max(1, max(1, N) - 1)` nights. */
  lemma NightsOfDays(prefix: string, n: nat, rest: string)
    requires NoDigits(prefix) && NoDigits(rest)
    ensures ExtractNights(prefix + NatToString(n) + "天" + rest)
      == Some(if n <= 2 then 1 else n - 1)
  {
    NightsOfDigits(prefix, NatToString(n), rest);
  }

  /** `NightsOfDays` for any non-empty run of digits `a`. */
  lemma NightsOfDigits(prefix: string, a: string, rest: string)
    requires NoDigits(prefix) && NoDigits(rest) && AllDigits(a) && |a| > 0
    ensures ExtractNights(prefix + a + "天" + rest)
      == Some(if DigitsValue(a) <= 2 then 1 else DigitsValue(a) - 1)
  {
    var s := prefix + a + "天" + rest;
    DaysLayout(prefix, a, rest, s, |prefix|, |prefix| + |a|);
    DaysIn(s, |prefix|, |prefix| + |a|, a);
  }

  /** `s` has digits exactly in `p..q`, followed by `天`. */
  predicate DaysShape(s: string, p: nat, q: nat) {
    && p < q < |s| && s[q] == '天'
    && (forall i :: 0 <= i < p ==> !IsDigit(s[i]))
    && (forall i :: p <= i < q ==> IsDigit(s[i]))
    && (forall i :: q < i < |s| ==> !IsDigit(s[i]))
  }

  /** The nights come from the first `N天` when no digit comes before it and none after
      its `天`, so that no `N天M夜` can match. */
  lemma DaysIn(s: string, p: nat, q: nat, a: string)
    requires DaysShape(s, p, q) && s[p..q] == a
    ensures ExtractNights(s) == Some(if DigitsValue(a) <= 2 then 1 else DigitsValue(a) - 1)
  {
    NoDaysNights(s, p, q);
    FirstDaysNoneFrom(s, 0);
    RunEndOf(s, p, q);
    FirstDaysAt(s, 0, p);
  }

  /** With digits only in `p..q`, followed by `天` and no further digit, `N天M夜`
      matches nowhere. */
  lemma NoDaysNights(s: string, p: nat, q: nat)
    requires DaysShape(s, p, q)
    ensures forall i :: 0 <= i ==> !DaysNightsAt(s, i)
  {
    forall i | 0 <= i
      ensures !DaysNightsAt(s, i)
    {
      if p <= i < q {
        RunEndOf(s, i, q);
      }
    }
  }

  /** Where the digits of `s == prefix + a + "天" + rest` are, when only `a` has any. */
  lemma DaysLayout(prefix: string, a: string, rest: string, s: string, p: nat, q: nat)
    requires NoDigits(prefix) && NoDigits(rest) && AllDigits(a)
    requires s == prefix + a + "天" + rest && p == |prefix| && q == p + |a|
    ensures q <= |s| && s[p..q] == a
    ensures |a| > 0 ==> DaysShape(s, p, q)
  {
    assert s == prefix + (a + ("天" + rest));
    forall i | 0 <= i < p
      ensures !IsDigit(s[i])
    {
      assert s[i] == prefix[i];
    }
    forall i | p <= i < q
      ensures IsDigit(s[i])
    {
      assert s[i] == a[i - p];
    }
    forall i | q < i < |s|
      ensures !IsDigit(s[i])
    {
      assert s[i] == rest[i - q - 1];
    }
    assert s[q] == '天';
    assert s[p..q] == a;
  }

  lemma FirstDaysNoneFrom(s: string, from: nat)
    requires forall i :: from <= i ==> !DaysNightsAt(s, i)
    ensures FirstDaysNights(s, from).None?
  {
  }

  // ---------------------------------------------------------------- normalisation

  /** The month the trip is in: the one the query names, else today's. */
  function RequestedMonth(query: string, today: Date): (m: int)
    requires 1 <= today.month <= 12
    ensures 1 <= m <= 12
    ensures ParseMonth(query).Some? ==> m == ParseMonth(query).value
    ensures ParseMonth(query).None? ==> m == today.month
  {
    match ParseMonth(query) case Some(m) => m case None => today.month
  }

  /** The dates `normalize_dates` returns, as `YYYY-MM-DD` texts. */
  datatype TripDates = TripDates(depart: string, ret: string, checkin: string, checkout: string)

  /** `normalize_dates(query, today)`: the month named in the query (else today's) of
      today's year, its first day not before today as check-in, and check-out the
      extracted nights later (4 when none or zero is extracted). `None` stands for the
      `OverflowError` of a check-out past the year 9999. */
  method NormalizeDates(query: string, today: Date) returns (r: Option<TripDates>)
    requires ValidDate(today) && today.year <= 9999
    ensures r.Some? ==> r.value.depart == r.value.checkin && r.value.ret == r.value.checkout
    ensures r.Some? ==> Strptime(r.value.checkin).Some? && Strptime(r.value.checkout).Some?
    ensures r.Some? ==>
      var ci := Strptime(r.value.checkin).value;
      var co := Strptime(r.value.checkout).value;
      && ci.year == today.year
      && ci.month == (if ParseMonth(query).Some? then ParseMonth(query).value else today.month)
      && (forall k :: 1 <= k < ci.day ==> Before(Date(ci.year, ci.month, k), today))
      && (!Before(ci, today) || ci.day == 1)
      && Before(ci, co)
      && co == AddDays(ci, Nights(query))
    ensures r.None? ==>
      exists d :: ValidDate(d) && d.year == today.year && AddDays(d, Nights(query)).year > 9999
    ensures r.Some? ==>
      var ci := Strptime(r.value.checkin).value;
      var co := Strptime(r.value.checkout).value;
      && (Before(ci, today) ==>
            forall k :: 1 <= k <= DaysInMonth(ci.year, ci.month) ==> Before(Date(ci.year, ci.month, k), today))
      && IsFirstFutureDay(ci, today.year, RequestedMonth(query, today), today)
      && r.value.checkin == Format(ci) && r.value.checkout == Format(co)
    ensures r.None? <==> exists d :: IsFirstFutureDay(d, today.year, RequestedMonth(query, today), today)
                                     && AddDays(d, Nights(query)).year > 9999
  {
    var month := RequestedMonth(query, today);
    var checkin := FirstFutureDay(today.year, month, today);
    var nights := Nights(query);
    var checkout := AddDays(checkin, nights);
    assert IsFirstFutureDay(checkin, today.year, month, today);
    if checkout.year > 9999 {
      return None;
    }
    forall d | IsFirstFutureDay(d, today.year, month, today)
      ensures AddDays(d, nights).year <= 9999
    {
      FirstFutureDayUnique(d, checkin, today.year, month, today);
    }
    FormatRoundTrip(checkin);
    FormatRoundTrip(checkout);
    r := Some(TripDates(Format(checkin), Format(checkout), Format(checkin), Format(checkout)));
  }

  /** `_extract_len_nights(query) or 4`: always at least one night. */
  function Nights(query: string): (n: nat)
    ensures n >= 1
    ensures ExtractNights(query).Some? && ExtractNights(query).value > 0 ==> n == ExtractNights(query).value
    ensures ExtractNights(query).None? || ExtractNights(query) == Some(0) ==> n == 4
  {
    match ExtractNights(query)
    case Some(k) => if k == 0 then 4 else k
    case None => 4
  }
}
