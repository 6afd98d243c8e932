/**
 * Recovering the JSON text from a model reply: a bare object is kept, a Markdown code fence
 * is unwrapped, and otherwise the span from the first `{` to the last `}` is cut out.
 */
module GeminiJson {
  import opened PyText

  /** `s.find(c)` for a one-character pattern. */
  function FindChar(s: string, c: char): (r: int)
    ensures -1 <= r < |s|
    ensures r != -1 ==> s[r] == c
    ensures forall j :: 0 <= j < |s| && (r == -1 || j < r) ==> s[j] != c
  {
    if s == [] then -1
    else if s[0] == c then 0
    else
      var r := FindChar(s[1..], c);
      if r == -1 then -1 else r + 1
  }

  /** `s.rfind(c)` for a one-character pattern. */
  function RFindChar(s: string, c: char): (r: int)
    ensures -1 <= r < |s|
    ensures r != -1 ==> s[r] == c
    ensures forall j :: 0 <= j < |s| && r < j ==> s[j] != c
  {
    if s == [] then -1
    else if s[|s| - 1] == c then |s| - 1
    else RFindChar(s[..|s| - 1], c)
  }

  /** `s.startswith("```")`. */
  predicate IsFenced(s: string) {
    |s| >= 3 && s[0] == '`' && s[1] == '`' && s[2] == '`'
  }

  /** `s.startswith("{") and s.endswith("}")`. */
  predicate LooksLikeObject(s: string) {
    |s| >= 1 && s[0] == '{' && s[|s| - 1] == '}'
  }

  predicate IsBacktick(c: char) {
    c == '`'
  }

  /** `s.lower().startswith("json")`: only J, S, O, N lower-case to those letters. */
  predicate JsonTagged(s: string) {
    |s| >= 4 && (s[0] == 'j' || s[0] == 'J') && (s[1] == 's' || s[1] == 'S') &&
    (s[2] == 'o' || s[2] == 'O') && (s[3] == 'n' || s[3] == 'N')
  }

  /** `s.split("\n", 1)[-1]`: what follows the first newline, or the whole string when there is none. */
  function AfterFirstNewline(s: string): (r: string)
    ensures FindChar(s, '\n') == -1 ==> r == s
    ensures FindChar(s, '\n') != -1 ==> |r| < |s| && r == s[FindChar(s, '\n') + 1..]
  {
    var i := FindChar(s, '\n');
    if i == -1 then s else s[i + 1..]
  }

  /** `s.strip("`").strip()`: the fence's contents with backticks and blanks trimmed off both ends. */
  function FenceInner(s: string): string {
    Strip(StripChars(s, IsBacktick))
  }

  /**
   * The fence step: a string starting with three backticks loses every backtick at either
   * end and the surrounding blanks, then a leading "json" line if there is one. A "json" tag
   * with no newline after it is kept, and the result of a fence is always stripped.
   */
  function Unfence(s: string): (r: string)
    ensures !IsFenced(s) ==> r == s
    ensures IsFenced(s) && !JsonTagged(FenceInner(s)) ==> r == FenceInner(s)
    ensures IsFenced(s) && JsonTagged(FenceInner(s)) && FindChar(FenceInner(s), '\n') == -1 ==> r == FenceInner(s)
    ensures IsFenced(s) && JsonTagged(FenceInner(s)) && FindChar(FenceInner(s), '\n') != -1 ==>
              r == Strip(FenceInner(s)[FindChar(FenceInner(s), '\n') + 1..])
    ensures IsFenced(s) ==> Strip(r) == r
  {
    if !IsFenced(s) then s
    else
      var t := FenceInner(s);
      StripCharsIdempotent(StripChars(s, IsBacktick), IsSpace);
      if JsonTagged(t) then
        var w := AfterFirstNewline(t);
        StripCharsIdempotent(w, IsSpace);
        Strip(w)
      else t
  }

  /** A `{` occurs and the last `}` comes after the first `{`. */
  predicate BracesInOrder(s: string) {
    FindChar(s, '{') != -1 && RFindChar(s, '}') > FindChar(s, '{')
  }

  /**
   * The last two steps of `_extract_json_text` on the cleaned text: keep it when it already
   * looks like an object; otherwise cut from its first `{` to its last `}` when they come in
   * that order; otherwise keep it as it is.
   */
  function CutObject(s: string): (r: string)
    ensures r == s || LooksLikeObject(r)
  {
    if LooksLikeObject(s) then s
    else
      var first := FindChar(s, '{');
      var last := RFindChar(s, '}');
      if first != -1 && last != -1 && last > first then s[first..last + 1] else s
  }

  /**
   * `_extract_json_text`: strip, unwrap a fence, then cut out the object. A reply that is an
   * object once stripped, or once unwrapped, comes back as that object; a `{` before a later
   * `}` always yields a brace-delimited text; with no such pair the unwrapped text is returned.
   */
  function ExtractJsonText(raw: string): (r: string)
    ensures LooksLikeObject(Strip(raw)) ==> r == Strip(raw)
    ensures LooksLikeObject(Unfence(Strip(raw))) ==> r == Unfence(Strip(raw))
    ensures BracesInOrder(Unfence(Strip(raw))) ==> LooksLikeObject(r)
    ensures !BracesInOrder(Unfence(Strip(raw))) ==> r == Unfence(Strip(raw))
  {
    CutObject(Unfence(Strip(raw)))
  }

  /**
   * Whenever the text holds a `{` before a later `}`, the result is brace-delimited; when it
   * does not and is not an object already, it comes back as it is.
   */
  lemma BracedIffPossible(s: string)
    ensures BracesInOrder(s) ==> LooksLikeObject(CutObject(s))
    ensures !BracesInOrder(s) && !LooksLikeObject(s) ==> CutObject(s) == s
  {
  }

  /** An object embedded in chatter is cut out from its first `{` to its last `}`. */
  lemma EmbeddedObjectCut(s: string)
    requires BracesInOrder(s) && !LooksLikeObject(s)
    ensures CutObject(s) == s[FindChar(s, '{')..RFindChar(s, '}') + 1]
  {
  }

  /** The object step returns a slice of its input. */
  lemma CutObjectSlice(s: string) returns (lo: nat, hi: nat)
    ensures lo <= hi <= |s| && CutObject(s) == s[lo..hi]
  {
    lo, hi := 0, |s|;
    assert s[0..|s|] == s;
    if !LooksLikeObject(s) {
      var first, last := FindChar(s, '{'), RFindChar(s, '}');
      if first != -1 && last != -1 && last > first {
        lo, hi := first, last + 1;
      }
    }
  }

  /** A slice of a slice is a slice. */
  lemma SliceTrans(s: string, t: string, r: string, lo: nat, hi: nat, lo2: nat, hi2: nat)
    requires lo <= hi <= |s| && t == s[lo..hi]
    requires lo2 <= hi2 <= |t| && r == t[lo2..hi2]
    ensures lo + hi2 <= |s| && r == s[lo + lo2..lo + hi2]
  {
    assert |r| == hi2 - lo2;
    forall i | 0 <= i < |r| ensures r[i] == s[lo + lo2 + i] {
      assert r[i] == t[lo2 + i];
    }
  }

  /** Dropping the backticks and then the blanks leaves a slice. */
  lemma TrimFenceSlice(s: string) returns (lo: nat, hi: nat)
    ensures lo <= hi <= |s| && FenceInner(s) == s[lo..hi]
  {
    var l1, h1 := StripCharsIsSlice(s, IsBacktick);
    var u := StripChars(s, IsBacktick);
    var l2, h2 := StripCharsIsSlice(u, IsSpace);
    SliceTrans(s, u, Strip(u), l1, h1, l2, h2);
    lo, hi := l1 + l2, l1 + h2;
  }

  /** What follows the first newline is a suffix. */
  lemma AfterFirstNewlineSlice(t: string) returns (a: nat)
    ensures a <= |t| && AfterFirstNewline(t) == t[a..|t|]
  {
    var i := FindChar(t, '\n');
    a := if i == -1 then 0 else i + 1;
  }

  /** Dropping the tag line and the blanks leaves a slice. */
  lemma DropTagLineSlice(t: string) returns (lo: nat, hi: nat)
    ensures lo <= hi <= |t| && Strip(AfterFirstNewline(t)) == t[lo..hi]
  {
    var a := AfterFirstNewlineSlice(t);
    lo, hi := StripOfSuffixSlice(t, AfterFirstNewline(t), a);
  }

  /** Stripping a suffix of `t` leaves a slice of `t`. */
  lemma StripOfSuffixSlice(t: string, w: string, a: nat) returns (lo: nat, hi: nat)
    requires a <= |t| && w == t[a..|t|]
    ensures lo <= hi <= |t| && Strip(w) == t[lo..hi]
  {
    var l3, h3 := StripCharsIsSlice(w, IsSpace);
    SliceTrans(t, w, Strip(w), a, |t|, l3, h3);
    lo, hi := a + l3, a + h3;
  }

  /** The backticks of a `json` code block around an object are three at each end. */
  lemma FenceBackticksTrimmed(body: string)
    requires LooksLikeObject(body)
    ensures StripChars("```json\n" + body + "\n```", IsBacktick) == "json\n" + body + "\n"
  {
    var s := "```json\n" + body + "\n```";
    assert s[3] == 'j';
    LeadCountUnique(s, IsBacktick, 3);
    var l := s[3..];
    assert l == "json\n" + body + "\n```";
    assert l[|l| - 4] == '\n';
    KeepCountUnique(l, IsBacktick, |l| - 3);
    assert l[..|l| - 3] == "json\n" + body + "\n";
  }

  /** Only the closing newline of the unwrapped block is a blank at its ends. */
  lemma FenceBlanksTrimmed(body: string)
    requires LooksLikeObject(body)
    ensures Strip("json\n" + body + "\n") == "json\n" + body
  {
    var u := "json\n" + body + "\n";
    LeadCountUnique(u, IsSpace, 0);
    assert u[|u| - 2] == '}';
    KeepCountUnique(u, IsSpace, |u| - 1);
    assert u[..|u| - 1] == "json\n" + body;
  }

  /** The tag line of the unwrapped block ends at position 4, and the object follows. */
  lemma FenceTagLineDropped(body: string)
    requires LooksLikeObject(body)
    ensures JsonTagged("json\n" + body)
    ensures Strip(AfterFirstNewline("json\n" + body)) == body
  {
    var t := "json\n" + body;
    assert t[4] == '\n';
    assert FindChar(t, '\n') == 4;
    assert t[5..] == body;
    StripUnchanged(body);
  }

  /**
   * A reply fenced as a `json` code block around an object comes back as exactly that object:
   * the backticks, the tag line and the closing newline all go.
   */
  lemma FencedObjectUnwrapped(body: string)
    requires LooksLikeObject(body)
    ensures ExtractJsonText("```json\n" + body + "\n```") == body
  {
    var s := "```json\n" + body + "\n```";
    var u := "json\n" + body + "\n";
    var t := "json\n" + body;
    assert Strip(s) == s by {
      assert s[0] == '`' && s[|s| - 1] == '`';
      StripUnchanged(s);
    }
    assert IsFenced(s);
    FenceBackticksTrimmed(body);
    FenceBlanksTrimmed(body);
    assert FenceInner(s) == t;
    FenceTagLineDropped(body);
    assert Unfence(s) == body;
  }

  /** A fenced reply without a tag line loses only its backticks and blanks, leaving a slice. */
  lemma UnfenceUntaggedSlice(s: string) returns (lo: nat, hi: nat)
    requires IsFenced(s) && !JsonTagged(FenceInner(s))
    ensures lo <= hi <= |s| && Unfence(s) == s[lo..hi]
  {
    lo, hi := TrimFenceSlice(s);
  }

  /** A fenced reply with a "json" tag loses its backticks, its blanks and its tag line, leaving a slice. */
  lemma UnfenceTaggedSlice(s: string) returns (lo: nat, hi: nat)
    requires IsFenced(s) && JsonTagged(FenceInner(s))
    ensures lo <= hi <= |s| && Unfence(s) == s[lo..hi]
  {
    var l1, h1 := TrimFenceSlice(s);
    var t := FenceInner(s);
    if FindChar(t, '\n') == -1 {
      lo, hi := l1, h1;
    } else {
      var l2, h2 := DropTagLineSlice(t);
      SliceTrans(s, t, Strip(AfterFirstNewline(t)), l1, h1, l2, h2);
      lo, hi := l1 + l2, l1 + h2;
    }
  }

  /** The fence step returns a slice of its input, fenced or not. */
  lemma UnfenceSlice(s: string) returns (lo: nat, hi: nat)
    ensures lo <= hi <= |s| && Unfence(s) == s[lo..hi]
  {
    if !IsFenced(s) {
      lo, hi := 0, |s|;
    } else if JsonTagged(FenceInner(s)) {
      lo, hi := UnfenceTaggedSlice(s);
    } else {
      lo, hi := UnfenceUntaggedSlice(s);
    }
  }

  /** Whatever the reply, the extracted text is one contiguous piece of it. */
  lemma ExtractJsonTextSlice(raw: string) returns (lo: nat, hi: nat)
    ensures lo <= hi <= |raw| && ExtractJsonText(raw) == raw[lo..hi]
  {
    var l1, h1 := StripCharsIsSlice(raw, IsSpace);
    var l2, h2 := UnfenceSlice(Strip(raw));
    var m, n := SliceOfSlice(raw, Strip(raw), Unfence(Strip(raw)), l1, h1, l2, h2);
    var l3, h3 := CutObjectSlice(Unfence(Strip(raw)));
    lo, hi := SliceOfSlice(raw, Unfence(Strip(raw)), CutObject(Unfence(Strip(raw))), m, n, l3, h3);
  }

  /** SliceTrans with the composed bounds returned. */
  lemma SliceOfSlice(s: string, t: string, r: string, lo: nat, hi: nat, lo2: nat, hi2: nat)
      returns (lo3: nat, hi3: nat)
    requires lo <= hi <= |s| && t == s[lo..hi]
    requires lo2 <= hi2 <= |t| && r == t[lo2..hi2]
    ensures lo3 <= hi3 <= |s| && r == s[lo3..hi3]
  {
    SliceTrans(s, t, r, lo, hi, lo2, hi2);
    lo3, hi3 := lo + lo2, lo + hi2;
  }
}
