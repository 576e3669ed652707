/** String helpers with Python's semantics: `in`, `find`, `rfind`, `split(sep)`,
    `strip`, `isdigit`/`int()` on ASCII digits, and decimal rendering of integers. */
module Text {
  import opened Wrappers

  /** `p` occurs in `s` starting at index `i`. */
  predicate OccursAt(p: string, s: string, i: int) {
    0 <= i && i + |p| <= |s| && s[i..i + |p|] == p
  }

  /** First index at or after `from` where `p` occurs in `s` (Python's `s.find(p, from)`). */
  function FindFrom(s: string, p: string, from: nat): (r: Option<nat>)
    ensures r.Some? ==> from <= r.value && OccursAt(p, s, r.value)
    ensures r.Some? ==> forall j :: from <= j < r.value ==> !OccursAt(p, s, j)
    ensures r.None? ==> forall j :: from <= j ==> !OccursAt(p, s, j)
    decreases |s| - from
  {
    if from + |p| > |s| then None
    else if s[from..from + |p|] == p then Some(from)
    else FindFrom(s, p, from + 1)
  }

  /** First index where `p` occurs in `s`. */
  function Find(s: string, p: string): Option<nat> {
    FindFrom(s, p, 0)
  }

  /** Python's `p in s`. */
  predicate Contains(s: string, p: string) {
    Find(s, p).Some?
  }

  lemma ContainsWitness(s: string, p: string, i: int)
    requires OccursAt(p, s, i)
    ensures Contains(s, p)
  {
  }

  lemma ContainsGivesWitness(s: string, p: string) returns (i: nat)
    requires Contains(s, p)
    ensures OccursAt(p, s, i)
  {
    i := Find(s, p).value;
  }

  /** An occurrence inside a prefix of `s` is an occurrence in `s`. */
  lemma OccursInPrefix(p: string, s: string, k: nat, j: int)
    requires k <= |s|
    requires OccursAt(p, s[..k], j)
    ensures OccursAt(p, s, j)
  {
    assert s[..k][j..j + |p|] == s[j..j + |p|];
  }

  /** An occurrence inside a suffix of `s` is an occurrence in `s`, shifted. */
  lemma OccursInSuffix(p: string, s: string, k: nat, j: int)
    requires k <= |s|
    requires OccursAt(p, s[k..], j)
    ensures OccursAt(p, s, j + k)
  {
    assert s[k..][j..j + |p|] == s[j + k..j + k + |p|];
  }

  /** First index of the character `c` (Python's `s.find(c)`, with `None` for -1). */
  function IndexOf(s: string, c: char): (r: Option<nat>)
    ensures r.Some? ==> r.value < |s| && s[r.value] == c
    ensures r.Some? ==> forall j :: 0 <= j < r.value ==> s[j] != c
    ensures r.None? ==> forall j :: 0 <= j < |s| ==> s[j] != c
  {
    if |s| == 0 then None
    else if s[0] == c then Some(0)
    else match IndexOf(s[1..], c)
      case None => None
      case Some(i) => Some(i + 1)
  }

  /** Last index of the character `c` (Python's `s.rfind(c)`, with `None` for -1). */
  function LastIndexOf(s: string, c: char): (r: Option<nat>)
    ensures r.Some? ==> r.value < |s| && s[r.value] == c
    ensures r.Some? ==> forall j :: r.value < j < |s| ==> s[j] != c
    ensures r.None? ==> forall j :: 0 <= j < |s| ==> s[j] != c
  {
    if |s| == 0 then None
    else if s[|s| - 1] == c then Some(|s| - 1)
    else LastIndexOf(s[..|s| - 1], c)
  }

  /** `s` ends with `p`. */
  predicate EndsWith(s: string, p: string) {
    |p| <= |s| && s[|s| - |p|..] == p
  }

  /** `s` starts with `p`. */
  predicate StartsWith(s: string, p: string) {
    |p| <= |s| && s[..|p|] == p
  }

  /** Python's `sep.join(parts)`. */
  function Join(parts: seq<string>, sep: string): string
  {
    if |parts| == 0 then ""
    else if |parts| == 1 then parts[0]
    else parts[0] + sep + Join(parts[1..], sep)
  }

  /** An occurrence with none before it is the one `Find` reports. */
  lemma FirstOccurrence(s: string, p: string, i: nat)
    requires OccursAt(p, s, i)
    requires forall j :: 0 <= j < i ==> !OccursAt(p, s, j)
    ensures Find(s, p) == Some(i)
  {
  }

  /** A part of `s` before the first occurrence of `sep` holds no occurrence of `sep`. */
  lemma PrefixBeforeFirstOccurrence(s: string, sep: string, i: nat)
    requires |sep| > 0
    requires Find(s, sep) == Some(i)
    ensures !Contains(s[..i], sep)
  {
    forall j | 0 <= j && j + |sep| <= i
      ensures !OccursAt(sep, s[..i], j)
    {
      assert s[..i][j..j + |sep|] == s[j..j + |sep|];
      assert !OccursAt(sep, s, j);
    }
  }

  /** Python's `s.split(sep)` for a non-empty separator: the pieces between occurrences,
      found left to right without overlap. */
  function Split(s: string, sep: string): (r: seq<string>)
    requires |sep| > 0
    ensures |r| >= 1
    ensures forall i :: 0 <= i < |r| ==> !Contains(r[i], sep)
    ensures Join(r, sep) == s
    decreases |s|
  {
    match Find(s, sep)
    case None => [s]
    case Some(i) =>
      PrefixBeforeFirstOccurrence(s, sep, i);
      var rest := Split(s[i + |sep|..], sep);
      assert s == s[..i] + sep + s[i + |sep|..];
      [s[..i]] + rest
  }

  /** `p` followed by `sep` holds no occurrence of `sep` that starts inside `p`:
      such a piece is cut back out exactly where it was joined. */
  predicate SplitsCleanly(p: string, sep: string) {
    forall j :: 0 <= j < |p| ==> !OccursAt(sep, p + sep, j)
  }

  /** For the separator `", "`, a piece without `", "` always splits cleanly. */
  lemma CommaSpaceCleanly(p: string)
    requires !Contains(p, ", ")
    ensures SplitsCleanly(p, ", ")
  {
    forall j | 0 <= j < |p|
      ensures !OccursAt(", ", p + ", ", j)
    {
      if j + 2 <= |p| {
        assert (p + ", ")[j..j + 2] == p[j..j + 2];
        assert !OccursAt(", ", p, j);
      } else {
        assert (p + ", ")[j + 1] == ',';
      }
    }
  }

  lemma FindAfterCleanPiece(p: string, sep: string, rest: string)
    requires |sep| > 0
    requires !Contains(p, sep)
    requires SplitsCleanly(p, sep)
    ensures Find(p + sep + rest, sep) == Some(|p|)
  {
    var s := p + sep + rest;
    assert OccursAt(sep, s, |p|) by {
      assert s[|p|..|p| + |sep|] == sep;
    }
    forall j | 0 <= j < |p|
      ensures !OccursAt(sep, s, j)
    {
      assert !OccursAt(sep, p + sep, j);
      assert s[..|p| + |sep|] == p + sep;
      if j + |sep| <= |s| {
        assert s[j..j + |sep|] == (p + sep)[j..j + |sep|];
      }
    }
    FirstOccurrence(s, sep, |p|);
  }

  /** Splitting joined pieces gives the pieces back, when each splits cleanly. */
  lemma {:induction false} SplitJoin(parts: seq<string>, sep: string)
    requires |sep| > 0 && |parts| >= 1
    requires forall i :: 0 <= i < |parts| ==> !Contains(parts[i], sep) && SplitsCleanly(parts[i], sep)
    ensures Split(Join(parts, sep), sep) == parts
    decreases |parts|
  {
    if |parts| == 1 {
      assert Find(parts[0], sep).None?;
    } else {
      var tail := Join(parts[1..], sep);
      var s := parts[0] + sep + tail;
      assert Join(parts, sep) == s;
      FindAfterCleanPiece(parts[0], sep, tail);
      assert s[..|parts[0]|] == parts[0];
      assert s[|parts[0]| + |sep|..] == tail;
      SplitJoin(parts[1..], sep);
    }
  }

  /** Drops the leading characters that belong to `chars`. */
  function TrimStart(s: string, chars: set<char>): (r: string)
    ensures |r| <= |s| && r == s[|s| - |r|..]
    ensures |r| > 0 ==> r[0] !in chars
    ensures forall i :: 0 <= i < |s| - |r| ==> s[i] in chars
  {
    if |s| > 0 && s[0] in chars then
      var r := TrimStart(s[1..], chars);
      SuffixOfTail(s, r);
      r
    else s
  }

  /** A suffix of the tail of `s` is a suffix of `s`. */
  lemma SuffixOfTail(s: string, r: string)
    requires |s| > 0 && |r| <= |s| - 1 && r == s[1..][|s| - 1 - |r|..]
    ensures r == s[|s| - |r|..]
  {
    assert s[1..][|s| - 1 - |r|..] == s[|s| - |r|..];
  }

  /** Drops the trailing characters that belong to `chars`. */
  function TrimEnd(s: string, chars: set<char>): (r: string)
    ensures |r| <= |s| && r == s[..|r|]
    ensures |r| > 0 ==> r[|r| - 1] !in chars
    ensures forall i :: |r| <= i < |s| ==> s[i] in chars
  {
    if |s| > 0 && s[|s| - 1] in chars then TrimEnd(s[..|s| - 1], chars) else s
  }

  /** Python's `s.strip(chars)`: leading and trailing characters from `chars` removed. */
  function Strip(s: string, chars: set<char>): string {
    TrimEnd(TrimStart(s, chars), chars)
  }

  /** The characters Python's `str.isspace()` accepts. */
  const SPACES: set<char> :=
    {' ', '\t', '\n', '\U{0B}', '\U{0C}', '\r', '\U{1C}', '\U{1D}', '\U{1E}', '\U{1F}',
     '\U{85}', '\U{A0}', '\U{1680}', '\U{2000}', '\U{2001}', '\U{2002}', '\U{2003}',
     '\U{2004}', '\U{2005}', '\U{2006}', '\U{2007}', '\U{2008}', '\U{2009}', '\U{200A}',
     '\U{2028}', '\U{2029}', '\U{202F}', '\U{205F}', '\U{3000}'}

  /** Python's `s.strip()` with no argument. */
  function StripSpace(s: string): string {
    Strip(s, SPACES)
  }

  /** A string that neither starts nor ends with a character of `chars` strips to itself. */
  lemma StripUntouched(s: string, chars: set<char>)
    requires |s| > 0 ==> s[0] !in chars && s[|s| - 1] !in chars
    ensures Strip(s, chars) == s
  {
  }

  /** Stripping `c` from `s` wrapped in `c` gives back `s`, when `s` does not itself
      start or end with `c`. */
  lemma StripWrapped(s: string, c: char)
    requires |s| > 0 ==> s[0] != c && s[|s| - 1] != c
    ensures Strip([c] + s + [c], {c}) == s
  {
    var t := [c] + s + [c];
    assert t[1..] == s + [c];
    if |s| == 0 {
      assert (s + [c])[1..] == [];
      assert TrimStart(t, {c}) == [];
    } else {
      assert TrimStart(t, {c}) == s + [c];
      assert (s + [c])[..|s|] == s;
      assert TrimEnd(s + [c], {c}) == TrimEnd(s, {c});
    }
  }

  predicate IsDigit(c: char) {
    '0' <= c <= '9'
  }

  predicate AllDigits(s: string) {
    forall i :: 0 <= i < |s| ==> IsDigit(s[i])
  }

  function DigitValue(c: char): nat
    requires IsDigit(c)
  {
    (c as int) - ('0' as int)
  }

  /** Python's `int(s)` on a string of ASCII digits (leading zeros allowed). */
  function DigitsValue(s: string): nat
    requires AllDigits(s)
  {
    if |s| == 0 then 0 else DigitsValue(s[..|s| - 1]) * 10 + DigitValue(s[|s| - 1])
  }

  function DigitChar(d: nat): (c: char)
    requires d < 10
    ensures IsDigit(c) && DigitValue(c) == d
  {
    ('0' as int + d) as char
  }

  /** Decimal rendering of a natural number, without leading zeros. */
  function NatToString(n: nat): (r: string)
    ensures |r| >= 1 && AllDigits(r)
    ensures DigitsValue(r) == n
    ensures n < 10 ==> |r| == 1
    ensures 10 <= n < 100 ==> |r| == 2
    ensures 100 <= n < 1000 ==> |r| == 3
    ensures 1000 <= n < 10000 ==> |r| == 4
  {
    var last := [DigitChar(n % 10)];
    var r := if n < 10 then last else NatToString(n / 10) + last;
    assert r[..|r| - 1] == (if n < 10 then "" else NatToString(n / 10));
    r
  }

  /** Python's `str(i)` for an integer. */
  function IntToString(i: int): string {
    if i < 0 then "-" + NatToString(-i) else NatToString(i)
  }

  /** `k` copies of `c`. */
  function Repeat(c: char, k: nat): (r: string)
    ensures |r| == k && forall i :: 0 <= i < k ==> r[i] == c
  {
    if k == 0 then "" else [c] + Repeat(c, k - 1)
  }

  /** `s` left-padded with `c` to at least `width` characters. */
  function PadLeft(s: string, width: nat, c: char): (r: string)
    ensures |r| == if |s| >= width then |s| else width
    ensures r == Repeat(c, |r| - |s|) + s
  {
    if |s| >= width then s else Repeat(c, width - |s|) + s
  }

  /** A leading zero does not change the value of a digit string. */
  lemma {:induction false} LeadingZero(s: string)
    requires AllDigits(s)
    ensures AllDigits("0" + s) && DigitsValue("0" + s) == DigitsValue(s)
    decreases |s|
  {
    if |s| > 0 {
      var t := "0" + s;
      assert t[..|t| - 1] == "0" + s[..|s| - 1];
      LeadingZero(s[..|s| - 1]);
    }
  }

  /** Any number of leading zeros leaves the value of a digit string unchanged. */
  lemma {:induction false} LeadingZeros(k: nat, s: string)
    requires AllDigits(s)
    ensures AllDigits(Repeat('0', k) + s) && DigitsValue(Repeat('0', k) + s) == DigitsValue(s)
    decreases k
  {
    if k > 0 {
      var t := Repeat('0', k - 1) + s;
      LeadingZeros(k - 1, s);
      assert Repeat('0', k) == "0" + Repeat('0', k - 1);
      assert Repeat('0', k) + s == "0" + t;
      LeadingZero(t);
    } else {
      assert Repeat('0', k) + s == s;
    }
  }
}
