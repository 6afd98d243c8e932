/**
 * The Python `str` operations the core relies on: `strip`, `upper`, `find`, `rfind`,
 * `replace`, `join`, `splitlines`, `str(int)` and `int(str)`, each written out with the
 * behaviour CPython gives it.
 */
module PyText {
  import opened Wrappers

  /** The characters for which Python's `str.isspace()` holds. */
  predicate IsSpace(c: char) {
    c == ' ' || '\t' <= c <= '\r' || '\U{1C}' <= c <= '\U{1F}' || c == '\U{85}' || c == '\U{A0}'
    || c == '\U{1680}' || '\U{2000}' <= c <= '\U{200A}' || c == '\U{2028}' || c == '\U{2029}'
    || c == '\U{202F}' || c == '\U{205F}' || c == '\U{3000}'
  }

  /** The line boundaries of `str.splitlines()` (besides the pair "\r\n"). */
  const LineBreaks: set<char> :=
    {'\n', '\r', '\U{B}', '\U{C}', '\U{1C}', '\U{1D}', '\U{1E}', '\U{85}', '\U{2028}', '\U{2029}'}

  // ---------------------------------------------------------------- strip

  /** How many leading characters of `s` `drop` removes. */
  function LeadCount(s: string, drop: char -> bool): (k: nat)
    ensures k <= |s|
    ensures forall i :: 0 <= i < k ==> drop(s[i])
    ensures k < |s| ==> !drop(s[k])
  {
    if |s| > 0 && drop(s[0]) then
      var k := LeadCount(s[1..], drop);
      assert forall i :: 1 <= i < k + 1 ==> s[i] == s[1..][i - 1];
      1 + k
    else 0
  }

  /** How many characters of `s` remain once its trailing characters that `drop` removes are gone. */
  function KeepCount(s: string, drop: char -> bool): (k: nat)
    ensures k <= |s|
    ensures forall i :: k <= i < |s| ==> drop(s[i])
    ensures k > 0 ==> !drop(s[k - 1])
  {
    if |s| > 0 && drop(s[|s| - 1]) then KeepCount(s[..|s| - 1], drop) else |s|
  }

  /** The leading count is the one position where the run of removable characters ends. */
  lemma LeadCountUnique(s: string, drop: char -> bool, k: nat)
    requires k <= |s|
    requires forall i :: 0 <= i < k ==> drop(s[i])
    requires k < |s| ==> !drop(s[k])
    ensures LeadCount(s, drop) == k
  {
  }

  lemma KeepCountUnique(s: string, drop: char -> bool, k: nat)
    requires k <= |s|
    requires forall i :: k <= i < |s| ==> drop(s[i])
    requires k > 0 ==> !drop(s[k - 1])
    ensures KeepCount(s, drop) == k
  {
  }

  /** `s.lstrip(chars)`. */
  function StripLeft(s: string, drop: char -> bool): string {
    s[LeadCount(s, drop)..]
  }

  /** `s.rstrip(chars)`. */
  function StripRight(s: string, drop: char -> bool): string {
    s[..KeepCount(s, drop)]
  }

  /** `s.strip(chars)`: Python strips the left end first, then the right one. */
  function StripChars(s: string, drop: char -> bool): string {
    StripRight(StripLeft(s, drop), drop)
  }

  /** `s.strip()`. */
  function Strip(s: string): string {
    StripChars(s, IsSpace)
  }

  /** `not s.strip()`: the string is empty or all whitespace. */
  predicate IsBlank(s: string) {
    Strip(s) == []
  }

  /** A stripped string is the slice of the original between the two runs of removable characters. */
  lemma StripCharsIsSlice(s: string, drop: char -> bool) returns (lo: nat, hi: nat)
    ensures lo <= hi <= |s| && StripChars(s, drop) == s[lo..hi]
  {
    lo := LeadCount(s, drop);
    var l := StripLeft(s, drop);
    var k := KeepCount(l, drop);
    hi := lo + k;
    PrefixOfSuffix(s, lo, k);
  }

  /** A prefix of a suffix is a slice. */
  lemma PrefixOfSuffix(s: string, lo: nat, k: nat)
    requires lo <= |s| && k <= |s| - lo
    ensures s[lo..][..k] == s[lo..lo + k]
  {
  }

  /** A stripped string neither starts nor ends with a removable character. */
  lemma StripCharsEnds(s: string, drop: char -> bool)
    ensures var t := StripChars(s, drop); t == [] || (!drop(t[0]) && !drop(t[|t| - 1]))
  {
    var l := StripLeft(s, drop);
    var t := StripRight(l, drop);
    if t != [] {
      assert t[0] == l[0];
    }
  }

  /** A string with no removable character at either end is its own strip. */
  lemma StripCharsUnchanged(s: string, drop: char -> bool)
    requires s == [] || (!drop(s[0]) && !drop(s[|s| - 1]))
    ensures StripChars(s, drop) == s
  {
    if s != [] {
      LeadCountUnique(s, drop, 0);
      KeepCountUnique(s, drop, |s|);
    }
  }

  /** Stripping twice is stripping once. */
  lemma StripCharsIdempotent(s: string, drop: char -> bool)
    ensures StripChars(StripChars(s, drop), drop) == StripChars(s, drop)
  {
    StripCharsEnds(s, drop);
    StripCharsUnchanged(StripChars(s, drop), drop);
  }

  /** A string with no whitespace at either end is its own strip. */
  lemma StripUnchanged(s: string)
    requires s != [] && !IsSpace(s[0]) && !IsSpace(s[|s| - 1])
    ensures Strip(s) == s
  {
    StripCharsUnchanged(s, IsSpace);
  }

  /** A leading blank moves the left strip point one place on. */
  lemma LeadCountPadded(s: string, lo: nat)
    requires lo == LeadCount(s, IsSpace) < |s|
    ensures LeadCount([' '] + s + [' '], IsSpace) == lo + 1
  {
    var t := [' '] + s + [' '];
    forall i | 0 <= i < lo + 1 ensures IsSpace(t[i]) {
      if 0 < i { assert t[i] == s[i - 1]; }
    }
    assert t[lo + 1] == s[lo];
    LeadCountUnique(t, IsSpace, lo + 1);
  }

  /** A trailing blank does not move the right strip point of a string that has a non-blank. */
  lemma KeepCountPadded(u: string)
    requires u != [] && !IsSpace(u[0])
    ensures StripRight(u + [' '], IsSpace) == StripRight(u, IsSpace)
  {
    var k := KeepCount(u, IsSpace);
    var v := u + [' '];
    forall i | k <= i < |v| ensures IsSpace(v[i]) {
      if i < |u| { assert v[i] == u[i]; }
    }
    assert v[k - 1] == u[k - 1];
    KeepCountUnique(v, IsSpace, k);
    assert v[..k] == u[..k];
  }

  /** One blank on each side of a string does not change its strip. */
  lemma StripPadded(s: string)
    ensures Strip([' '] + s + [' ']) == Strip(s)
  {
    var t := [' '] + s + [' '];
    var lo := LeadCount(s, IsSpace);
    if lo == |s| {
      forall i | 0 <= i < |t| ensures IsSpace(t[i]) {
        if 0 < i < |t| - 1 { assert t[i] == s[i - 1]; }
      }
      LeadCountUnique(t, IsSpace, |t|);
    } else {
      LeadCountPadded(s, lo);
      var u := s[lo..];
      assert t[lo + 1..] == u + [' '];
      assert u[0] == s[lo];
      KeepCountPadded(u);
    }
  }

  /** A blank string is one made of whitespace only. */
  lemma BlankIffAllSpace(s: string)
    ensures IsBlank(s) <==> forall i :: 0 <= i < |s| ==> IsSpace(s[i])
  {
    var lo := LeadCount(s, IsSpace);
    if lo < |s| {
      var l := s[lo..];
      assert l[0] == s[lo];
      assert KeepCount(l, IsSpace) > 0;
    }
  }

  // ---------------------------------------------------------------- case

  /**
   * `c.upper()` on a–z, the Latin-1 lower-case letters, ÿ, µ, the dotless i and the long s;
   * every other character is kept as it is.
   */
  function UpperChar(c: char): char {
    if 'a' <= c <= 'z' then (c as int - 32) as char
    else if '\U{E0}' <= c <= '\U{FE}' && c != '\U{F7}' then (c as int - 32) as char
    else if c == '\U{FF}' then '\U{178}'
    else if c == '\U{B5}' then '\U{39C}'
    else if c == '\U{131}' then 'I'
    else if c == '\U{17F}' then 'S'
    else c
  }

  /** `s.upper()`, character by character. */
  function Upper(s: string): (r: string)
    ensures |r| == |s|
  {
    seq(|s|, i requires 0 <= i < |s| => UpperChar(s[i]))
  }

  /** Upper-casing never turns a blank into a letter, or a letter into a blank. */
  lemma UpperCharKeepsSpace(c: char)
    ensures IsSpace(UpperChar(c)) <==> IsSpace(c)
  {
  }

  /** Every upper-cased character is its own upper case. */
  lemma UpperCharIdempotent(c: char)
    ensures UpperChar(UpperChar(c)) == UpperChar(c)
  {
  }

  /** Upper-casing twice is upper-casing once. */
  lemma UpperIdempotent(s: string)
    ensures Upper(Upper(s)) == Upper(s)
  {
    forall i | 0 <= i < |s|
      ensures Upper(Upper(s))[i] == Upper(s)[i]
    {
      UpperCharIdempotent(s[i]);
    }
  }

  /** Upper-casing a stripped string leaves it stripped. */
  lemma UpperKeepsStripped(s: string)
    requires Strip(s) == s
    ensures Strip(Upper(s)) == Upper(s)
  {
    StripCharsEnds(s, IsSpace);
    if s != [] {
      UpperCharKeepsSpace(s[0]);
      UpperCharKeepsSpace(s[|s| - 1]);
      StripUnchanged(Upper(s));
    } else {
      StripCharsUnchanged(Upper(s), IsSpace);
    }
  }

  // ---------------------------------------------------------------- search

  /** `pat` occurs in `s` at position `i`. */
  predicate OccursAt(s: string, pat: string, i: int) {
    0 <= i && i + |pat| <= |s| && s[i..i + |pat|] == pat
  }

  /** `pat in s`. */
  predicate Contains(s: string, pat: string) {
    exists i | 0 <= i <= |s| :: OccursAt(s, pat, i)
  }

  /** `s.find(pat)` from position `from` on: the first occurrence at or after `from`, or -1. */
  function FindFrom(s: string, pat: string, from: nat): (r: int)
    decreases |s| - from
    ensures r == -1 || (from <= r && OccursAt(s, pat, r))
    ensures forall j :: from <= j && (r == -1 || j < r) ==> !OccursAt(s, pat, j)
  {
    if from + |pat| > |s| then -1
    else if s[from..from + |pat|] == pat then from
    else FindFrom(s, pat, from + 1)
  }

  /** `s.find(pat)`. */
  function Find(s: string, pat: string): (r: int)
    ensures r == -1 <==> !Contains(s, pat)
    ensures r != -1 ==> OccursAt(s, pat, r) && forall j :: 0 <= j < r ==> !OccursAt(s, pat, j)
  {
    FindFrom(s, pat, 0)
  }

  /** `s.rfind(pat)` over positions below `upto`: the last occurrence there, or -1. */
  function RFindBelow(s: string, pat: string, upto: nat): (r: int)
    ensures r == -1 || (r < upto && OccursAt(s, pat, r))
    ensures forall j :: j < upto && r < j ==> !OccursAt(s, pat, j)
  {
    if upto == 0 then -1
    else if OccursAt(s, pat, upto - 1) then upto - 1
    else RFindBelow(s, pat, upto - 1)
  }

  /** `s.rfind(pat)`. */
  function RFind(s: string, pat: string): (r: int)
    ensures r == -1 <==> !Contains(s, pat)
    ensures r != -1 ==> OccursAt(s, pat, r) && forall j :: r < j ==> !OccursAt(s, pat, j)
  {
    RFindBelow(s, pat, |s| + 1)
  }

  // ---------------------------------------------------------------- rewriting

  /** `s.replace(pat, rep)`: every non-overlapping occurrence, scanned left to right. */
  function Replace(s: string, pat: string, rep: string): string
    requires |pat| > 0
    decreases |s|
  {
    if |s| < |pat| then s
    else if pat <= s then rep + Replace(s[|pat|..], pat, rep)
    else [s[0]] + Replace(s[1..], pat, rep)
  }

  /** `sep.join(parts)`. */
  function JoinWith(sep: string, parts: seq<string>): string {
    if |parts| == 0 then ""
    else if |parts| == 1 then parts[0]
    else parts[0] + sep + JoinWith(sep, parts[1..])
  }

  /** Index of the first line boundary in `s`, or `|s|`. */
  function FirstBreak(s: string): (i: nat)
    ensures i <= |s| && (i < |s| ==> s[i] in LineBreaks)
    ensures forall j :: 0 <= j < i ==> s[j] !in LineBreaks
  {
    if s == [] || s[0] in LineBreaks then 0 else 1 + FirstBreak(s[1..])
  }

  /** `s.splitlines()`: no line holds a boundary, and a final boundary adds no empty line. */
  function SplitLines(s: string): (lines: seq<string>)
    decreases |s|
  {
    if s == [] then []
    else
      var i := FirstBreak(s);
      if i == |s| then [s]
      else
        var w := if s[i] == '\r' && i + 1 < |s| && s[i + 1] == '\n' then 2 else 1;
        [s[..i]] + SplitLines(s[i + w..])
  }

  // ---------------------------------------------------------------- integers

  predicate IsDigit(c: char) {
    '0' <= c <= '9'
  }

  predicate AllDigits(s: string) {
    forall i :: 0 <= i < |s| ==> IsDigit(s[i])
  }

  function DigitChar(d: nat): (c: char)
    requires d < 10
    ensures IsDigit(c)
  {
    ('0' as int + d) as char
  }

  /** `str(n)` for a non-negative integer. */
  function NatToStr(n: nat): (r: string)
    ensures |r| > 0 && AllDigits(r)
  {
    if n < 10 then [DigitChar(n)] else NatToStr(n / 10) + [DigitChar(n % 10)]
  }

  /** The value of a string of decimal digits. */
  function DigitsValue(s: string): nat
    requires AllDigits(s)
  {
    if s == [] then 0 else DigitsValue(s[..|s| - 1]) * 10 + (s[|s| - 1] as int - '0' as int)
  }

  /** Reading back what `str(n)` wrote gives `n`. */
  lemma {:induction false} NatToStrRoundTrip(n: nat)
    ensures DigitsValue(NatToStr(n)) == n
  {
    if n >= 10 {
      NatToStrRoundTrip(n / 10);
      var s := NatToStr(n);
      assert s[..|s| - 1] == NatToStr(n / 10);
    }
  }

  /** Distinct numbers print differently. */
  lemma NatToStrInjective(a: nat, b: nat)
    requires NatToStr(a) == NatToStr(b)
    ensures a == b
  {
    NatToStrRoundTrip(a);
    NatToStrRoundTrip(b);
  }

  /** `format(n, "0<width>d")` for a non-negative `n`: left-padded with zeros. */
  function ZeroPad(digits: string, width: nat): (r: string)
    ensures |r| >= width && |r| >= |digits|
    decreases width - |digits|
  {
    if |digits| >= width then digits else ZeroPad(['0'] + digits, width)
  }

  /** `f"{n:03d}"`: at least three characters, the sign counting as one. */
  function Format03(n: int): (r: string)
    ensures |r| >= 3
  {
    if n >= 0 then ZeroPad(NatToStr(n), 3) else "-" + ZeroPad(NatToStr(-n), 2)
  }

  /** A leading zero adds nothing to the value. */
  lemma {:induction false} LeadingZeroValue(s: string)
    requires AllDigits(s)
    ensures AllDigits(['0'] + s) && DigitsValue(['0'] + s) == DigitsValue(s)
  {
    var t := ['0'] + s;
    if s != [] {
      assert t[..|t| - 1] == ['0'] + s[..|s| - 1];
      LeadingZeroValue(s[..|s| - 1]);
    } else {
      assert t[..|t| - 1] == [];
    }
  }

  /** Zero-padding keeps the digits' value. */
  lemma {:induction false} ZeroPadValue(digits: string, width: nat)
    requires AllDigits(digits)
    ensures AllDigits(ZeroPad(digits, width)) && DigitsValue(ZeroPad(digits, width)) == DigitsValue(digits)
    decreases width - |digits|
  {
    if |digits| < width {
      LeadingZeroValue(digits);
      ZeroPadValue(['0'] + digits, width);
    }
  }

  /** `f"{n:03d}"` of a non-negative `n` is all digits and reads back as `n`. */
  lemma Format03Value(n: nat)
    ensures AllDigits(Format03(n)) && DigitsValue(Format03(n)) == n
  {
    ZeroPadValue(NatToStr(n), 3);
    NatToStrRoundTrip(n);
  }

  /**
   * `int(s)` for a string: surrounding whitespace, an optional sign, then ASCII digits.
   * `None` where Python raises ValueError.
   */
  function ParseInt(s: string): (r: Option<int>)
    ensures r.Some? ==> Strip(s) != []
  {
    var t := Strip(s);
    if t == [] then None
    else
      var neg := t[0] == '-';
      var body := if t[0] == '-' || t[0] == '+' then t[1..] else t;
      if body == [] || !AllDigits(body) then None
      else Some(if neg then -(DigitsValue(body) as int) else DigitsValue(body))
  }

  /** `int(str(n))` gives `n` back. */
  lemma ParseIntOfNat(n: nat)
    ensures ParseInt(NatToStr(n)) == Some(n)
  {
    var s := NatToStr(n);
    NatToStrRoundTrip(n);
    assert IsDigit(s[0]) && IsDigit(s[|s| - 1]);
    assert !IsSpace(s[0]);
    assert !IsSpace(s[|s| - 1]);
    StripUnchanged(s);
    assert s[0] != '-' && s[0] != '+';
    assert ParseInt(s) == Some(DigitsValue(s));
  }
}
