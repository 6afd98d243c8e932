/**
 * Validation of the question JSON the language model returns. Every field is checked in
 * a fixed order and the first bad one is reported; a valid reply becomes a standard
 * `Question`.
 */
module ResponseParser {
  import opened Wrappers
  import opened PyText
  import opened Json
  import opened Models
  import Scoring

  /** `ResponseParseError`, carrying the key of the field that failed. */
  datatype ParseError = Invalid(field: string)

  /** `_require_str`: a string that is not blank, returned stripped. */
  function RequireStr(data: map<string, Json>, key: string): (r: Result<string, ParseError>)
    ensures r.Success? <==> key in data && data[key].JStr? && !IsBlank(data[key].s)
    ensures r.Success? ==> r.value == Strip(data[key].s) && r.value != []
    ensures r.Failure? ==> r.error == Invalid(key)
  {
    var v := Get(data, key);
    if !v.JStr? || IsBlank(v.s) then Failure(Invalid(key)) else Success(Strip(v.s))
  }

  /** `_require_enum(data, key, {"Luna", "Stella", "Maria"})`: a string naming a tutor once stripped. */
  function RequireTutor(data: map<string, Json>, key: string): (r: Result<Tutor, ParseError>)
    ensures r.Success? <==> key in data && data[key].JStr? && TutorFromName(Strip(data[key].s)).Some?
    ensures r.Success? ==> TutorName(r.value) == Strip(data[key].s)
    ensures r.Failure? ==> r.error == Invalid(key)
  {
    var v := Get(data, key);
    if !v.JStr? then Failure(Invalid(key))
    else
      var t := TutorFromName(Strip(v.s));
      if t.None? then Failure(Invalid(key)) else Success(t.value)
  }

  /** `_require_int_range`: an `int` (a `bool` counts, as `True` is 1) between `lo` and `hi`. */
  function RequireIntRange(data: map<string, Json>, key: string, lo: int, hi: int): (r: Result<int, ParseError>)
    ensures r.Success? <==> key in data && IsPyInt(data[key]) && lo <= IntValue(data[key]) <= hi
    ensures r.Success? ==> r.value == IntValue(data[key]) && lo <= r.value <= hi
    ensures r.Failure? ==> r.error == Invalid(key)
  {
    var v := Get(data, key);
    if !IsPyInt(v) then Failure(Invalid(key))
    else if !(lo <= IntValue(v) <= hi) then Failure(Invalid(key))
    else Success(IntValue(v))
  }

  /** `true` is accepted as a difficulty of 1; a float such as 2.0 is not. */
  lemma BoolIsAnInt(data: map<string, Json>)
    ensures RequireIntRange(data["difficulty" := JBool(true)], "difficulty", 1, 5) == Success(1)
    ensures RequireIntRange(data["difficulty" := JFloat(2.0)], "difficulty", 1, 5).Failure?
  {
  }

  predicate IsChoiceChar(c: char) {
    c == 'A' || c == 'B' || c == 'C' || c == 'D'
  }

  /** The four valid answer letters. */
  predicate IsChoiceLetter(s: string) {
    |s| == 1 && IsChoiceChar(s[0])
  }

  /** `_normalize_letter`: strip and upper-case; keep only the first character when it is A to D. */
  function NormalizeLetter(s: string): (r: string)
    ensures var t := Upper(Strip(s));
      if t != [] && IsChoiceChar(t[0]) then r == [t[0]] else r == t
  {
    var t := Upper(Strip(s));
    if t != [] && IsChoiceChar(t[0]) then [t[0]] else t
  }

  /** A label such as "b) text" or "C." normalises to its letter, upper-cased. */
  lemma NormalizeLetterOfLabel(c: char, rest: string)
    requires c in "abcdABCD"
    ensures NormalizeLetter([c] + rest) == [UpperChar(c)]
  {
    var s := [c] + rest;
    UpperOfChoice(c);
    LeadCountUnique(s, IsSpace, 0);
    var lo, hi := StripCharsIsSlice(s, IsSpace);
    assert lo == 0 && 0 < hi;
    var t := Strip(s);
    assert t[0] == c;
    assert Upper(t)[0] == UpperChar(c);
  }

  /** The lower- and upper-case choice letters upper-case to a choice letter. */
  lemma UpperOfChoice(c: char)
    requires c in "abcdABCD"
    ensures IsChoiceChar(UpperChar(c)) && !IsSpace(c)
  {
  }

  /** Normalising an already normalised letter changes nothing. */
  lemma NormalizeLetterIdempotent(s: string)
    ensures NormalizeLetter(NormalizeLetter(s)) == NormalizeLetter(s)
  {
    var t := Upper(Strip(s));
    StripCharsIdempotent(s, IsSpace);
    UpperKeepsStripped(Strip(s));
    UpperIdempotent(Strip(s));
    if t != [] && IsChoiceChar(t[0]) {
      var r := [t[0]];
      StripUnchanged(r);
      assert Upper(r) == r;
    }
  }

  /** `_require_choice_letter`: a non-blank string that normalises to one of A, B, C, D. */
  function RequireChoiceLetter(data: map<string, Json>, key: string): (r: Result<string, ParseError>)
    ensures r.Success? <==> key in data && data[key].JStr? && !IsBlank(data[key].s) && IsChoiceLetter(NormalizeLetter(data[key].s))
    ensures r.Success? ==> r.value == NormalizeLetter(data[key].s) && IsChoiceLetter(r.value)
    ensures r.Failure? ==> r.error == Invalid(key)
  {
    var v := Get(data, key);
    if !v.JStr? || IsBlank(v.s) then Failure(Invalid(key))
    else
      var letter := NormalizeLetter(v.s);
      if !IsChoiceLetter(letter) then Failure(Invalid(key)) else Success(letter)
  }

  /** The option keys, in the order they are checked. */
  const Letters: seq<string> := ["A", "B", "C", "D"]

  /** Option `k` is present as a string that is not blank. */
  predicate ValidOption(opts: map<string, Json>, k: string) {
    k in opts && opts[k].JStr? && !IsBlank(opts[k].s)
  }

  /** The options loop from position `j` on, with the entries collected so far. */
  function OptionsFrom(opts: map<string, Json>, keys: seq<string>, j: nat, acc: map<string, string>): Result<map<string, string>, ParseError>
    requires j <= |keys|
    decreases |keys| - j
  {
    if j == |keys| then Success(acc)
    else if !ValidOption(opts, keys[j]) then Failure(Invalid(keys[j]))
    else OptionsFrom(opts, keys, j + 1, acc[keys[j] := Strip(opts[keys[j]].s)])
  }

  /**
   * From position `j`, the loop succeeds exactly when every remaining key is valid; it then
   * adds exactly those keys, stripped; otherwise it names the first invalid one.
   */
  lemma OptionsFromMeaning(opts: map<string, Json>, keys: seq<string>, j: nat, acc: map<string, string>)
    requires j <= |keys|
    ensures var r := OptionsFrom(opts, keys, j, acc);
      (r.Success? <==> forall i :: j <= i < |keys| ==> ValidOption(opts, keys[i])) &&
      (r.Success? ==> forall k :: k in r.value <==> k in acc || k in keys[j..]) &&
      (r.Success? ==> forall i :: j <= i < |keys| ==> r.value[keys[i]] == Strip(opts[keys[i]].s)) &&
      (r.Success? ==> forall k :: k in acc && k !in keys[j..] ==> r.value[k] == acc[k]) &&
      (r.Failure? ==> exists i :: j <= i < |keys| && r.error == Invalid(keys[i]) && !ValidOption(opts, keys[i]) &&
                                  forall i' :: j <= i' < i ==> ValidOption(opts, keys[i']))
  {
    OptionsFromSucceeds(opts, keys, j, acc);
    OptionsFromFirstInvalid(opts, keys, j, acc);
    OptionsFromKeys(opts, keys, j, acc);
    OptionsFromValues(opts, keys, j, acc);
  }

  /** From position `j`, the loop succeeds exactly when no remaining key is invalid. */
  lemma {:induction false} OptionsFromSucceeds(opts: map<string, Json>, keys: seq<string>, j: nat, acc: map<string, string>)
    requires j <= |keys|
    ensures OptionsFrom(opts, keys, j, acc).Success? <==> forall i :: j <= i < |keys| ==> ValidOption(opts, keys[i])
    decreases |keys| - j
  {
    if j < |keys| && ValidOption(opts, keys[j]) {
      OptionsFromSucceeds(opts, keys, j + 1, acc[keys[j] := Strip(opts[keys[j]].s)]);
    }
  }

  /** A failing loop from `j` names the first invalid key from `j` on. */
  lemma {:induction false} OptionsFromFirstInvalid(opts: map<string, Json>, keys: seq<string>, j: nat, acc: map<string, string>)
    requires j <= |keys|
    ensures var r := OptionsFrom(opts, keys, j, acc);
      r.Failure? ==> exists i :: j <= i < |keys| && r.error == Invalid(keys[i]) && !ValidOption(opts, keys[i]) &&
                                 forall i' :: j <= i' < i ==> ValidOption(opts, keys[i'])
    decreases |keys| - j
  {
    if j < |keys| {
      if ValidOption(opts, keys[j]) {
        OptionsFromFirstInvalid(opts, keys, j + 1, acc[keys[j] := Strip(opts[keys[j]].s)]);
      } else {
        assert OptionsFrom(opts, keys, j, acc).error == Invalid(keys[j]);
      }
    }
  }

  /** A successful loop from `j` adds exactly the remaining keys to the entries so far. */
  lemma {:induction false} OptionsFromKeys(opts: map<string, Json>, keys: seq<string>, j: nat, acc: map<string, string>)
    requires j <= |keys|
    ensures var r := OptionsFrom(opts, keys, j, acc);
      r.Success? ==> forall k :: k in r.value <==> k in acc || k in keys[j..]
    decreases |keys| - j
  {
    if j < |keys| && ValidOption(opts, keys[j]) {
      OptionsFromKeys(opts, keys, j + 1, acc[keys[j] := Strip(opts[keys[j]].s)]);
      assert keys[j..] == [keys[j]] + keys[j + 1..];
    }
  }

  /** A successful loop from `j` stores each remaining key's stripped text and keeps the other entries. */
  lemma {:induction false} OptionsFromValues(opts: map<string, Json>, keys: seq<string>, j: nat, acc: map<string, string>)
    requires j <= |keys|
    ensures var r := OptionsFrom(opts, keys, j, acc);
      r.Success? ==>
        (forall i :: j <= i < |keys| && ValidOption(opts, keys[i]) ==>
           keys[i] in r.value && r.value[keys[i]] == Strip(opts[keys[i]].s)) &&
        (forall k :: k in acc && k !in keys[j..] ==> k in r.value && r.value[k] == acc[k])
    decreases |keys| - j
  {
    if j < |keys| && ValidOption(opts, keys[j]) {
      OptionsFromValues(opts, keys, j + 1, acc[keys[j] := Strip(opts[keys[j]].s)]);
      assert keys[j..] == [keys[j]] + keys[j + 1..];
    }
  }

  /** What `_require_options` returns for `data`. */
  function OptionsSpec(data: map<string, Json>): Result<map<string, string>, ParseError> {
    var v := Get(data, "opzioni");
    if !v.JObject? then Failure(Invalid("opzioni")) else OptionsFrom(v.fields, Letters, 0, map[])
  }

  /**
   * `_require_options` succeeds exactly when the options object has all of A, B, C and D as
   * non-blank strings; the result then has exactly those four keys, stripped, and drops any other.
   */
  lemma OptionsMeaning(data: map<string, Json>)
    ensures var r := OptionsSpec(data);
      (r.Success? <==> "opzioni" in data && data["opzioni"].JObject? &&
                       forall i :: 0 <= i < 4 ==> ValidOption(data["opzioni"].fields, Letters[i])) &&
      (r.Success? ==> forall k :: k in r.value <==> k in Letters) &&
      (r.Success? ==> forall i :: 0 <= i < 4 ==> r.value[Letters[i]] == Strip(data["opzioni"].fields[Letters[i]].s))
  {
    var v := Get(data, "opzioni");
    if v.JObject? {
      OptionsFromMeaning(v.fields, Letters, 0, map[]);
      assert Letters[0..] == Letters;
    }
  }

  /** `_require_options`: the loop over A, B, C, D, stopping at the first bad option. */
  method RequireOptions(data: map<string, Json>) returns (r: Result<map<string, string>, ParseError>)
    ensures r == OptionsSpec(data)
  {
    var v := Get(data, "opzioni");
    if !v.JObject? {
      return Failure(Invalid("opzioni"));
    }
    r := CollectOptions(v.fields, Letters);
  }

  /** The loop of `_require_options` over the option keys, stopping at the first bad one. */
  method CollectOptions(opts: map<string, Json>, keys: seq<string>) returns (r: Result<map<string, string>, ParseError>)
    ensures r == OptionsFrom(opts, keys, 0, map[])
  {
    ghost var goal := OptionsFrom(opts, keys, 0, map[]);
    var out: map<string, string> := map[];
    var j := 0;
    while j < |keys|
      invariant 0 <= j <= |keys|
      invariant OptionsFrom(opts, keys, j, out) == goal
    {
      var k := keys[j];
      if !ValidOption(opts, k) {
        assert OptionsFrom(opts, keys, j, out) == Failure(Invalid(k));
        return Failure(Invalid(k));
      }
      var next := out[k := Strip(opts[k].s)];
      assert OptionsFrom(opts, keys, j, out) == OptionsFrom(opts, keys, j + 1, next);
      out := next;
      j := j + 1;
    }
    assert OptionsFrom(opts, keys, j, out) == Success(out);
    return Success(out);
  }

  /** An item the list keeps: a string that is not blank. */
  predicate Keeps(item: Json) {
    item.JStr? && !IsBlank(item.s)
  }

  /** The stripped, non-blank strings of `items`, in order. */
  function KeptItems(items: seq<Json>): seq<string>
    decreases |items|
  {
    if items == [] then []
    else
      var n := |items| - 1;
      KeptItems(items[..n]) + (if Keeps(items[n]) then [Strip(items[n].s)] else [])
  }

  /** Every kept entry is a non-empty stripped string taken from a kept item, and the list never grows. */
  lemma KeptItemsMeaning(items: seq<Json>)
    ensures |KeptItems(items)| <= |items|
    ensures forall x :: x in KeptItems(items) ==> x != [] && Strip(x) == x
    ensures forall x :: x in KeptItems(items) ==> exists i :: 0 <= i < |items| && Keeps(items[i]) && x == Strip(items[i].s)
    ensures (forall i :: 0 <= i < |items| ==> Keeps(items[i])) ==> |KeptItems(items)| == |items|
    ensures forall i :: 0 <= i < |items| && Keeps(items[i]) ==> Strip(items[i].s) in KeptItems(items)
  {
    KeptItemsLength(items);
    KeptItemsStripped(items);
    KeptItemsOrigin(items);
    var idx := KeptItemsOrder(items);
    forall i | 0 <= i < |items| && Keeps(items[i])
      ensures Strip(items[i].s) in KeptItems(items)
    {
      var k :| 0 <= k < |idx| && idx[k] == i;
      assert KeptItems(items)[k] == Strip(items[i].s);
    }
  }

  /**
   * The kept entries, in order, are the stripped texts at the increasing positions `idx`,
   * and `idx` holds every position whose item is kept.
   */
  predicate KeptPositions(items: seq<Json>, idx: seq<nat>) {
    |idx| == |KeptItems(items)| &&
    (forall k :: 0 <= k < |idx| ==>
       idx[k] < |items| && Keeps(items[idx[k]]) && KeptItems(items)[k] == Strip(items[idx[k]].s)) &&
    (forall k, l :: 0 <= k < l < |idx| ==> idx[k] < idx[l]) &&
    (forall i :: 0 <= i < |items| && Keeps(items[i]) ==> i in idx)
  }

  /** The kept list is the order-preserving filter of the kept items: such positions exist. */
  lemma {:induction false} KeptItemsOrder(items: seq<Json>) returns (idx: seq<nat>)
    ensures KeptPositions(items, idx)
    decreases |items|
  {
    if items == [] {
      idx := [];
    } else {
      var n := |items| - 1;
      var prev := KeptItemsOrder(items[..n]);
      idx := if Keeps(items[n]) then prev + [n] else prev;
      KeptPositionsEntries(items, prev, idx);
      KeptPositionsIncreasing(items, prev, idx);
      KeptPositionsComplete(items, prev, idx);
    }
  }

  /** Extending the positions of the front by the last one, when kept, keeps every entry tied to its item. */
  lemma KeptPositionsEntries(items: seq<Json>, prev: seq<nat>, idx: seq<nat>)
    requires items != [] && KeptPositions(items[..|items| - 1], prev)
    requires idx == if Keeps(items[|items| - 1]) then prev + [|items| - 1] else prev
    ensures |idx| == |KeptItems(items)|
    ensures forall k :: 0 <= k < |idx| ==>
              idx[k] < |items| && Keeps(items[idx[k]]) && KeptItems(items)[k] == Strip(items[idx[k]].s)
  {
    var n := |items| - 1;
    var front := items[..n];
    var kept := KeptItems(front);
    var last := if Keeps(items[n]) then [Strip(items[n].s)] else [];
    assert KeptItems(items) == kept + last;
    forall k | 0 <= k < |idx|
      ensures idx[k] < |items| && Keeps(items[idx[k]]) && KeptItems(items)[k] == Strip(items[idx[k]].s)
    {
      if k < |prev| {
        assert idx[k] == prev[k] && items[prev[k]] == front[prev[k]];
        assert KeptItems(items)[k] == kept[k];
      } else {
        assert idx[k] == n && KeptItems(items)[k] == last[0];
      }
    }
  }

  /** Appending the last position keeps the positions increasing. */
  lemma KeptPositionsIncreasing(items: seq<Json>, prev: seq<nat>, idx: seq<nat>)
    requires items != [] && KeptPositions(items[..|items| - 1], prev)
    requires idx == if Keeps(items[|items| - 1]) then prev + [|items| - 1] else prev
    ensures forall k, l :: 0 <= k < l < |idx| ==> idx[k] < idx[l]
  {
    forall k, l | 0 <= k < l < |idx|
      ensures idx[k] < idx[l]
    {
      if l >= |prev| {
        assert prev[k] < |items| - 1;
      }
    }
  }

  /** Every kept position of the whole list, the last one included, is among the positions. */
  lemma KeptPositionsComplete(items: seq<Json>, prev: seq<nat>, idx: seq<nat>)
    requires items != [] && KeptPositions(items[..|items| - 1], prev)
    requires idx == if Keeps(items[|items| - 1]) then prev + [|items| - 1] else prev
    ensures forall i :: 0 <= i < |items| && Keeps(items[i]) ==> i in idx
  {
    var n := |items| - 1;
    forall i | 0 <= i < |items| && Keeps(items[i])
      ensures i in idx
    {
      if i < n {
        assert items[..n][i] == items[i];
        assert i in prev;
      } else {
        assert i == n && Keeps(items[n]);
        assert idx == prev + [n];
      }
    }
  }

  /** The list never grows, and keeps its length when every item is kept. */
  lemma {:induction false} KeptItemsLength(items: seq<Json>)
    ensures |KeptItems(items)| <= |items|
    ensures (forall i :: 0 <= i < |items| ==> Keeps(items[i])) ==> |KeptItems(items)| == |items|
    decreases |items|
  {
    if items != [] {
      var n := |items| - 1;
      KeptItemsLength(items[..n]);
      if forall i :: 0 <= i < |items| ==> Keeps(items[i]) {
        assert forall i :: 0 <= i < n ==> Keeps(items[..n][i]) by {
          forall i | 0 <= i < n ensures Keeps(items[..n][i]) {
            assert items[..n][i] == items[i];
          }
        }
        assert Keeps(items[n]);
      }
    }
  }

  /** Every kept entry is non-empty and already stripped. */
  lemma {:induction false} KeptItemsStripped(items: seq<Json>)
    ensures forall x :: x in KeptItems(items) ==> x != [] && Strip(x) == x
    decreases |items|
  {
    if items != [] {
      var n := |items| - 1;
      KeptItemsStripped(items[..n]);
      if Keeps(items[n]) {
        StripCharsIdempotent(items[n].s, IsSpace);
      }
    }
  }

  /** Every kept entry is the stripped text of some kept item. */
  lemma {:induction false} KeptItemsOrigin(items: seq<Json>)
    ensures forall x :: x in KeptItems(items) ==> exists i :: 0 <= i < |items| && Keeps(items[i]) && x == Strip(items[i].s)
    decreases |items|
  {
    if items != [] {
      var n := |items| - 1;
      KeptItemsOrigin(items[..n]);
      forall x | x in KeptItems(items)
        ensures exists i :: 0 <= i < |items| && Keeps(items[i]) && x == Strip(items[i].s)
      {
        if x in KeptItems(items[..n]) {
          var i :| 0 <= i < n && Keeps(items[..n][i]) && x == Strip(items[..n][i].s);
          assert items[i] == items[..n][i];
        } else {
          assert Keeps(items[n]) && x == Strip(items[n].s);
        }
      }
    }
  }

  /** What `_require_str_list` returns for `data`. */
  function StrListSpec(data: map<string, Json>, key: string, minItems: int): (r: Result<seq<string>, ParseError>)
    ensures r.Failure? ==> r.error == Invalid(key)
  {
    var v := Get(data, key);
    if !v.JArray? then Failure(Invalid(key))
    else if |KeptItems(v.items)| < minItems then Failure(Invalid(key))
    else Success(KeptItems(v.items))
  }

  /** `_require_str_list`: keeps the stripped non-blank strings, then checks there are enough. */
  method RequireStrList(data: map<string, Json>, key: string, minItems: int) returns (r: Result<seq<string>, ParseError>)
    ensures r == StrListSpec(data, key, minItems)
    ensures r.Success? <==> key in data && data[key].JArray? && |KeptItems(data[key].items)| >= minItems
  {
    var v := Get(data, key);
    if !v.JArray? {
      return Failure(Invalid(key));
    }
    var out: seq<string> := [];
    var i := 0;
    while i < |v.items|
      invariant 0 <= i <= |v.items|
      invariant out == KeptItems(v.items[..i])
    {
      assert v.items[..i + 1][..i] == v.items[..i];
      var item := v.items[i];
      if item.JStr? && !IsBlank(item.s) {
        out := out + [Strip(item.s)];
      }
      i := i + 1;
    }
    assert v.items[..|v.items|] == v.items;
    if |out| < minItems {
      return Failure(Invalid(key));
    }
    return Success(out);
  }

  /** The first failure among the field results, in checking order, or the standard question they make. */
  function Assemble(tutor: Result<Tutor, ParseError>, materia: Result<string, ParseError>,
                    difficulty: Result<int, ParseError>, questionId: Result<string, ParseError>,
                    domanda: Result<string, ParseError>, opzioni: Result<map<string, string>, ParseError>,
                    corretta: Result<string, ParseError>, spiegazione: Result<string, ParseError>,
                    tags: Result<seq<string>, ParseError>, visual: Result<string, ParseError>): (r: Result<Question, ParseError>)
    ensures r.Success? <==> tutor.Success? && materia.Success? && difficulty.Success? && questionId.Success? &&
                            domanda.Success? && opzioni.Success? && corretta.Success? && spiegazione.Success? &&
                            tags.Success? && visual.Success?
    ensures r.Success? ==>
      r.value == Question(tutor.value, materia.value, Standard, domanda.value, opzioni.value, Some(corretta.value),
                          None, difficulty.value, questionId.value, spiegazione.value, tags.value, visual.value)
  {
    if tutor.Failure? then Failure(tutor.error)
    else if materia.Failure? then Failure(materia.error)
    else if difficulty.Failure? then Failure(difficulty.error)
    else if questionId.Failure? then Failure(questionId.error)
    else if domanda.Failure? then Failure(domanda.error)
    else if opzioni.Failure? then Failure(opzioni.error)
    else if corretta.Failure? then Failure(corretta.error)
    else if spiegazione.Failure? then Failure(spiegazione.error)
    else if tags.Failure? then Failure(tags.error)
    else if visual.Failure? then Failure(visual.error)
    else Success(Question(tutor.value, materia.value, Standard, domanda.value, opzioni.value, Some(corretta.value),
                          None, difficulty.value, questionId.value, spiegazione.value, tags.value, visual.value))
  }

  /** What `parse_question_from_llm_json` returns for `data`. */
  function ParseSpec(data: map<string, Json>): Result<Question, ParseError> {
    Assemble(RequireTutor(data, "tutor"), RequireStr(data, "materia"), RequireIntRange(data, "difficulty", 1, 5),
             RequireStr(data, "question_id"), RequireStr(data, "domanda"), OptionsSpec(data),
             RequireChoiceLetter(data, "corretta"), RequireStr(data, "spiegazione_breve"),
             StrListSpec(data, "tags", 1), RequireStr(data, "visual"))
  }

  /**
   * A parsed question is always standard with no efficacy map, a single correct letter and
   * a difficulty in 1..5.
   */
  lemma ParsedQuestionShape(data: map<string, Json>)
    ensures var r := ParseSpec(data);
      r.Success? ==>
        r.value.tipo == Standard && r.value.efficacia.None? &&
        r.value.corretta.Some? && IsChoiceLetter(r.value.corretta.value) &&
        1 <= r.value.difficulty <= 5
  {
  }

  /** A parsed question has exactly the options A to D and at least one tag. */
  lemma ParsedOptionsAndTags(data: map<string, Json>)
    ensures var r := ParseSpec(data);
      r.Success? ==> (forall k :: k in r.value.opzioni <==> k in Letters) && |r.value.tags| >= 1
  {
    OptionsMeaning(data);
  }

  /** The text fields of a parsed question are never empty. */
  lemma ParsedTextsNonEmpty(data: map<string, Json>)
    ensures var r := ParseSpec(data);
      r.Success? ==>
        r.value.materia != [] && r.value.domanda != [] && r.value.questionId != [] &&
        r.value.spiegazioneBreve != [] && r.value.visual != []
  {
  }

  /** A parsed question can always be scored: its correct letter is never missing. */
  lemma ParsedQuestionIsScorable(data: map<string, Json>, choice: Option<string>, cfg: Scoring.ScoreConfig)
    requires ParseSpec(data).Success?
    ensures var q := ParseSpec(data).value;
      Scoring.EvaluateAnswer(q.tipo, choice, q.corretta, q.efficacia, cfg).Success?
  {
    ParsedQuestionShape(data);
  }

  /** `parse_question_from_llm_json`: the validators in order, the loops run as methods. */
  method ParseQuestion(data: map<string, Json>) returns (r: Result<Question, ParseError>)
    ensures r == ParseSpec(data)
  {
    var tutor :- RequireTutor(data, "tutor");
    var materia :- RequireStr(data, "materia");
    var difficulty :- RequireIntRange(data, "difficulty", 1, 5);
    var questionId :- RequireStr(data, "question_id");
    var domanda :- RequireStr(data, "domanda");
    var opzioni :- RequireOptions(data);
    var corretta :- RequireChoiceLetter(data, "corretta");
    var spiegazione :- RequireStr(data, "spiegazione_breve");
    var tags :- RequireStrList(data, "tags", 1);
    var visual :- RequireStr(data, "visual");
    return Success(Question(tutor, materia, Standard, domanda, opzioni, Some(corretta), None, difficulty,
                            questionId, spiegazione, tags, visual));
  }
}
