/**
 * Composing the image prompt: the global, tutor and stage (or punishment) texts, cut into
 * chunks and joined with commas, then the question's tags and visual description; the
 * negative prompt comes from the `NEGATIVE:` part of the global text. File contents are
 * inputs: a map from the path below the prompt directory to the file's text.
 */
module PromptCompiler {
  import opened Wrappers
  import opened PyText
  import opened Models

  const Marker: string := "NEGATIVE:"

  /**
   * `_split_negative`: nothing from an empty text; the whole text as positive when the
   * marker does not occur in any letter case; otherwise both sides of its first occurrence,
   * stripped.
   */
  function SplitNegative(text: string): (r: (string, string))
    ensures text == "" ==> r == ("", "")
    ensures text != "" && !Contains(Upper(text), Marker) ==> r == (text, "")
    ensures text != "" && Contains(Upper(text), Marker) ==>
      exists idx :: OccursAt(Upper(text), Marker, idx) &&
        (forall j :: 0 <= j < idx ==> !OccursAt(Upper(text), Marker, j)) &&
        r == (Strip(text[..idx]), Strip(text[idx + |Marker|..]))
  {
    if text == "" then ("", "")
    else
      var idx := Find(Upper(text), Marker);
      if idx < 0 then (text, "")
      else (Strip(text[..idx]), Strip(text[idx + |Marker|..]))
  }

  // ---------------------------------------------------------------- chunks

  /** A stripped line becomes a chunk unless it is blank or a `#` comment. */
  predicate KeepsChunk(s: string) {
    s != "" && s[0] != '#'
  }

  /** The chunks of a sequence of lines, in their order. */
  function KeptLines(lines: seq<string>): seq<string> {
    if lines == [] then []
    else
      var s := Strip(lines[|lines| - 1]);
      KeptLines(lines[..|lines| - 1]) + (if KeepsChunk(s) then [s] else [])
  }

  /** What `_to_chunks` returns. */
  function ChunksSpec(text: string): seq<string> {
    if text == "" then [] else KeptLines(SplitLines(text))
  }

  /**
   * Every chunk is stripped, non-blank and no comment, and every line that strips to such
   * a text contributes it; there are never more chunks than lines.
   */
  lemma {:induction false} KeptLinesMeaning(lines: seq<string>)
    ensures |KeptLines(lines)| <= |lines|
    ensures forall c :: c in KeptLines(lines) ==> KeepsChunk(c) && Strip(c) == c
    ensures forall i :: 0 <= i < |lines| && KeepsChunk(Strip(lines[i])) ==> Strip(lines[i]) in KeptLines(lines)
  {
    if lines != [] {
      var init := lines[..|lines| - 1];
      var s := Strip(lines[|lines| - 1]);
      KeptLinesMeaning(init);
      StripCharsIdempotent(lines[|lines| - 1], IsSpace);
      forall i | 0 <= i < |lines| && KeepsChunk(Strip(lines[i]))
        ensures Strip(lines[i]) in KeptLines(lines)
      {
        if i < |lines| - 1 {
          assert lines[i] == init[i];
        }
      }
    }
  }

  /** `_to_chunks`: the loop over the text's lines, appending the chunks it keeps. */
  method ToChunks(text: string) returns (out: seq<string>)
    ensures out == ChunksSpec(text)
  {
    if text == "" {
      return [];
    }
    var lines := SplitLines(text);
    out := [];
    for i := 0 to |lines|
      invariant out == KeptLines(lines[..i])
    {
      assert lines[..i + 1][..i] == lines[..i];
      var s := Strip(lines[i]);
      if KeepsChunk(s) {
        out := out + [s];
      }
    }
    assert lines[..|lines|] == lines;
  }

  // ---------------------------------------------------------------- joining

  const DoubleComma: string := ", ,"

  predicate IsComma(c: char) {
    c == ','
  }

  /** `[c.strip().strip(",") for c in chunks if c and c.strip()]`. */
  function Parts(chunks: seq<string>): (parts: seq<string>)
    ensures |parts| <= |chunks|
  {
    if chunks == [] then []
    else
      var c := chunks[|chunks| - 1];
      Parts(chunks[..|chunks| - 1]) + (if Strip(c) != "" then [StripChars(Strip(c), IsComma)] else [])
  }

  /** The text before the rewrite loop: the parts joined with ", ", stripped, outer commas removed. */
  function JoinedText(chunks: seq<string>): string {
    StripChars(Strip(JoinWith(", ", Parts(chunks))), IsComma)
  }

  /** Replacing ", ," by "," never lengthens a text, and shortens it when there was one. */
  lemma {:induction false} ReplaceShrinks(s: string)
    ensures |Replace(s, DoubleComma, ",")| <= |s|
    ensures Contains(s, DoubleComma) ==> |Replace(s, DoubleComma, ",")| < |s|
    decreases |s|
  {
    if |s| >= 3 {
      if DoubleComma <= s {
        ReplaceShrinks(s[3..]);
      } else {
        ReplaceShrinks(s[1..]);
        if Contains(s, DoubleComma) {
          var i :| 0 <= i <= |s| && OccursAt(s, DoubleComma, i);
          assert i != 0;
          assert s[1..][i - 1..i + 2] == s[i..i + 3];
          assert OccursAt(s[1..], DoubleComma, i - 1);
        }
      }
    }
  }

  /** The rewrite keeps a first character that is not a comma. */
  lemma ReplaceKeepsFirst(s: string)
    requires s != [] && s[0] != ','
    ensures var r := Replace(s, DoubleComma, ","); r != [] && r[0] == s[0]
  {
  }

  /** The rewrite keeps a last character that is not a comma. */
  lemma {:induction false} ReplaceKeepsLast(s: string)
    requires s != [] && s[|s| - 1] != ','
    ensures var r := Replace(s, DoubleComma, ","); r != [] && r[|r| - 1] == s[|s| - 1]
    decreases |s|
  {
    if |s| >= 3 {
      if DoubleComma <= s {
        assert |s| > 3;
        ReplaceKeepsLast(s[3..]);
      } else {
        ReplaceKeepsLast(s[1..]);
      }
    }
  }

  /** The rewrite loop as a function: replace until no ", ," is left. */
  function Collapse(s: string): string
    decreases |s|
  {
    if Contains(s, DoubleComma) then
      ReplaceShrinks(s);
      Collapse(Replace(s, DoubleComma, ","))
    else s
  }

  /** No commas at either end. */
  predicate CommaFreeEnds(s: string) {
    s == [] || (s[0] != ',' && s[|s| - 1] != ',')
  }

  /** The loop leaves no ", ," behind, and keeps ends that are not commas. */
  lemma {:induction false} CollapseClean(s: string)
    ensures !Contains(Collapse(s), DoubleComma)
    ensures CommaFreeEnds(s) ==> CommaFreeEnds(Collapse(s))
    decreases |s|
  {
    if Contains(s, DoubleComma) {
      ReplaceShrinks(s);
      if s != [] && CommaFreeEnds(s) {
        ReplaceKeepsFirst(s);
        ReplaceKeepsLast(s);
      }
      CollapseClean(Replace(s, DoubleComma, ","));
    }
  }

  /** The joined text before the loop has no comma at either end. */
  lemma JoinedTextEnds(chunks: seq<string>)
    ensures CommaFreeEnds(JoinedText(chunks))
  {
    StripCharsEnds(Strip(JoinWith(", ", Parts(chunks))), IsComma);
  }

  /** What `_join` returns. */
  function JoinSpec(chunks: seq<string>): string {
    Collapse(JoinedText(chunks))
  }

  /**
   * `_join`: the comma-joined parts, then the rewrite loop. The result holds no ", ,"
   * and neither starts nor ends with a comma.
   */
  method Join(chunks: seq<string>) returns (joined: string)
    ensures joined == JoinSpec(chunks)
    ensures !Contains(joined, DoubleComma) && CommaFreeEnds(joined)
  {
    var parts := Parts(chunks);
    joined := StripChars(Strip(JoinWith(", ", parts)), IsComma);
    JoinedTextEnds(chunks);
    while Contains(joined, DoubleComma)
      invariant Collapse(joined) == JoinSpec(chunks)
      invariant CommaFreeEnds(joined)
      decreases |joined|
    {
      ReplaceShrinks(joined);
      if joined != [] {
        ReplaceKeepsFirst(joined);
        ReplaceKeepsLast(joined);
      }
      joined := Replace(joined, DoubleComma, ",");
    }
  }

  // ---------------------------------------------------------------- compiling

  /** `_clamp_int` of an integer: `max(lo, min(hi, v))`. */
  function ClampInt(v: int, lo: int, hi: int): (x: int)
    ensures lo <= hi ==> lo <= x <= hi
    ensures lo <= v <= hi ==> x == v
    ensures v < lo ==> x == lo
    ensures lo <= hi && hi < v ==> x == hi
  {
    if hi <= v then (if lo >= hi then lo else hi)
    else if v <= lo then lo
    else v
  }

  /** `SDPrompt`. */
  datatype SdPrompt = SdPrompt(prompt: string, negativePrompt: string)

  /** `_read_text` raising FileNotFoundError, with the path it could not find. */
  datatype CompileError = MissingFile(path: string)

  /** `_read_text`: the stripped contents, or the missing path. */
  function ReadText(files: map<string, string>, path: string): (r: Result<string, CompileError>)
    ensures r.Failure? <==> path !in files
    ensures r.Failure? ==> r.error == MissingFile(path)
    ensures r.Success? ==> r.value == Strip(files[path])
  {
    if path in files then Success(Strip(files[path])) else Failure(MissingFile(path))
  }

  function TutorFile(tutor: Tutor): string {
    "base/" + TutorLower(tutor) + ".txt"
  }

  /** The third file: the tutor's punishment text, or the stage text for the clamped stage. */
  function StageFile(tutor: Tutor, stage: int, isPunish: bool): string {
    if isPunish then "punish/" + TutorLower(tutor) + ".txt"
    else "stages/stage" + NatToStr(ClampInt(stage, 1, 5)) + ".txt"
  }

  /** A reward turn reads one of the five stage files, the stage clamped into 1..5. */
  lemma StageFileChoice(tutor: Tutor, stage: int)
    ensures StageFile(tutor, stage, false) in
      {"stages/stage1.txt", "stages/stage2.txt", "stages/stage3.txt", "stages/stage4.txt", "stages/stage5.txt"}
    ensures stage <= 1 ==> StageFile(tutor, stage, false) == "stages/stage1.txt"
    ensures stage >= 5 ==> StageFile(tutor, stage, false) == "stages/stage5.txt"
  {
    var n := ClampInt(stage, 1, 5);
    var f := StageFile(tutor, stage, false);
    if n == 1 {
      assert f == "stages/stage1.txt";
    } else if n == 2 {
      assert f == "stages/stage2.txt";
    } else if n == 3 {
      assert f == "stages/stage3.txt";
    } else if n == 4 {
      assert f == "stages/stage4.txt";
    } else {
      assert f == "stages/stage5.txt";
    }
  }

  /** `[t.strip() for t in tags if t.strip()]`. */
  function NonBlankTags(tags: seq<string>): (r: seq<string>)
    ensures |r| <= |tags|
    ensures forall t :: t in r ==> t != ""
  {
    if tags == [] then []
    else
      var t := Strip(tags[|tags| - 1]);
      NonBlankTags(tags[..|tags| - 1]) + (if t != "" then [t] else [])
  }

  /** The question's contribution: its non-blank tags as one chunk, then its non-blank visual. */
  function QuestionChunks(question: Option<Question>): (cs: seq<string>)
    ensures question.None? ==> cs == []
    ensures |cs| <= 2 && forall c :: c in cs ==> c != ""
  {
    if question.None? then []
    else
      var tags := NonBlankTags(question.value.tags);
      var visual := Strip(question.value.visual);
      assert tags != [] ==> tags[0] in tags && |JoinWith(", ", tags)| >= |tags[0]|;
      (if tags != [] then [JoinWith(", ", tags)] else []) + (if visual != "" then [visual] else [])
  }

  /** The positive chunks in the order global, tutor, stage, tags, visual. */
  function PromptChunks(positive: string, tutorText: string, stageText: string,
                        question: Option<Question>): seq<string>
  {
    ChunksSpec(positive) + ChunksSpec(tutorText) + ChunksSpec(stageText) + QuestionChunks(question)
  }

  /** The prompt built from the three stripped file texts. */
  function PromptFromTexts(globalText: string, tutorText: string, stageText: string,
                           question: Option<Question>): SdPrompt
  {
    var split := SplitNegative(globalText);
    SdPrompt(JoinSpec(PromptChunks(split.0, tutorText, stageText, question)), JoinSpec(ChunksSpec(split.1)))
  }

  /** The prompt `compile_sd_prompt` returns, given the file contents. */
  function CompileSpec(files: map<string, string>, tutor: Tutor, stage: int, isPunish: bool,
                       question: Option<Question>): Result<SdPrompt, CompileError>
  {
    var globalText :- ReadText(files, "base/global.txt");
    var tutorText :- ReadText(files, TutorFile(tutor));
    var stageText :- ReadText(files, StageFile(tutor, stage, isPunish));
    Success(PromptFromTexts(globalText, tutorText, stageText, question))
  }

  /** The chunking loops of `compile_sd_prompt`, one text after the other, then the question's chunks. */
  method CollectChunks(positive: string, tutorText: string, stageText: string, question: Option<Question>)
    returns (chunks: seq<string>)
    ensures chunks == PromptChunks(positive, tutorText, stageText, question)
  {
    var c1 := ToChunks(positive);
    var c2 := ToChunks(tutorText);
    var c3 := ToChunks(stageText);
    chunks := c1 + c2 + c3 + QuestionChunks(question);
  }

  /**
   * The chunk and join steps of `compile_sd_prompt`: the positive prompt from the chunks
   * above, the negative prompt from the global text's negative part alone.
   */
  method AssemblePrompt(globalText: string, tutorText: string, stageText: string, question: Option<Question>)
    returns (p: SdPrompt)
    ensures p == PromptFromTexts(globalText, tutorText, stageText, question)
  {
    var split := SplitNegative(globalText);
    var chunks := CollectChunks(split.0, tutorText, stageText, question);
    var prompt := Join(chunks);
    var negChunks := ToChunks(split.1);
    var negativePrompt := Join(negChunks);
    p := SdPrompt(prompt, negativePrompt);
  }

  /**
   * `compile_sd_prompt`: reads the global, tutor and stage files in that order, so the
   * first missing one is the error, then assembles the prompt.
   */
  method CompileSdPrompt(files: map<string, string>, tutor: Tutor, stage: int, isPunish: bool,
                         question: Option<Question>) returns (r: Result<SdPrompt, CompileError>)
    ensures r == CompileSpec(files, tutor, stage, isPunish, question)
  {
    var globalText :- ReadText(files, "base/global.txt");
    var tutorText :- ReadText(files, TutorFile(tutor));
    var stageText :- ReadText(files, StageFile(tutor, stage, isPunish));
    var p := AssemblePrompt(globalText, tutorText, stageText, question);
    return Success(p);
  }

  /** The compile fails exactly when one of its three files is missing, naming the first such. */
  lemma CompileFailsOnMissingFile(files: map<string, string>, tutor: Tutor, stage: int, isPunish: bool,
                                  question: Option<Question>)
    ensures var r := CompileSpec(files, tutor, stage, isPunish, question);
      (r.Failure? <==> "base/global.txt" !in files || TutorFile(tutor) !in files ||
                       StageFile(tutor, stage, isPunish) !in files) &&
      (r.Failure? ==>
         r.error.path == if "base/global.txt" !in files then "base/global.txt"
                         else if TutorFile(tutor) !in files then TutorFile(tutor)
                         else StageFile(tutor, stage, isPunish))
  {
  }

  /** The negative prompt depends on the global text alone: tutor, stage, punishment and question change nothing. */
  lemma NegativeFromGlobalOnly(files: map<string, string>, t1: Tutor, s1: int, p1: bool, q1: Option<Question>,
                               t2: Tutor, s2: int, p2: bool, q2: Option<Question>)
    requires CompileSpec(files, t1, s1, p1, q1).Success? && CompileSpec(files, t2, s2, p2, q2).Success?
    ensures CompileSpec(files, t1, s1, p1, q1).value.negativePrompt ==
            CompileSpec(files, t2, s2, p2, q2).value.negativePrompt
  {
  }

  /** Both prompts are free of ", ," and of commas at either end. */
  lemma CompiledPromptsClean(files: map<string, string>, tutor: Tutor, stage: int, isPunish: bool,
                             question: Option<Question>)
    requires CompileSpec(files, tutor, stage, isPunish, question).Success?
    ensures var p := CompileSpec(files, tutor, stage, isPunish, question).value;
      !Contains(p.prompt, DoubleComma) && CommaFreeEnds(p.prompt) &&
      !Contains(p.negativePrompt, DoubleComma) && CommaFreeEnds(p.negativePrompt)
  {
    var globalText := ReadText(files, "base/global.txt").value;
    var tutorText := ReadText(files, TutorFile(tutor)).value;
    var stageText := ReadText(files, StageFile(tutor, stage, isPunish)).value;
    assert CompileSpec(files, tutor, stage, isPunish, question).value ==
      PromptFromTexts(globalText, tutorText, stageText, question);
    var split := SplitNegative(globalText);
    var chunks := PromptChunks(split.0, tutorText, stageText, question);
    JoinedTextEnds(chunks);
    CollapseClean(JoinedText(chunks));
    JoinedTextEnds(ChunksSpec(split.1));
    CollapseClean(JoinedText(ChunksSpec(split.1)));
  }
}
