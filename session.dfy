/**
 * The quiz turn. `StartNextQuestion` draws a subject, routes it to its tutor, asks the
 * language model and parses the reply; `ApplyAnswer` scores the answer, moves the tutor's
 * stage, remembers the outcome and optionally renders an image. The model and the image
 * renderer are opaque functions fixed at construction.
 */
module Session {
  import opened Wrappers
  import opened PyText
  import opened Json
  import opened Models
  import opened Scoring
  import opened Stages
  import opened Picker
  import opened TutorRouter
  import opened ResponseParser

  /** `round(x, 3)` on an exact value: to the nearest thousandth, halves to the even neighbour. */
  function Round3(x: real): (r: real)
    ensures -0.0005 <= r - x <= 0.0005
    ensures (r * 1000.0).Floor as real == r * 1000.0
  {
    var y := x * 1000.0;
    var f := y.Floor;
    var frac := y - f as real;
    var n := if frac < 0.5 then f
             else if frac > 0.5 then f + 1
             else if f % 2 == 0 then f else f + 1;
    n as real / 1000.0
  }

  /** A whole number of eighths: every score the default scale can produce. */
  predicate OnGrid(x: real) {
    (x * 8.0).Floor as real == x * 8.0
  }

  /** A value already on the eighths grid is a whole number of thousandths, so rounding keeps it. */
  lemma Round3OnGrid(x: real)
    requires OnGrid(x)
    ensures Round3(x) == x
  {
    var k := (x * 8.0).Floor;
    assert x * 1000.0 == (k * 125) as real;
    assert (x * 1000.0).Floor == k * 125;
  }

  /** Sums of eighths are eighths. */
  lemma OnGridAdd(x: real, y: real)
    requires OnGrid(x) && OnGrid(y)
    ensures OnGrid(x + y)
  {
    var a, b := (x * 8.0).Floor, (y * 8.0).Floor;
    assert (x + y) * 8.0 == (a + b) as real;
  }

  /** Every default delta is a whole number of eighths. */
  lemma DefaultDeltaOnGrid(d: real)
    requires IsDefaultDelta(d)
    ensures OnGrid(d)
  {
    if d == 0.75 {
      assert d * 8.0 == 6 as real;
    } else if d == -0.25 {
      assert d * 8.0 == -2 as real;
    } else if d == 0.375 {
      assert d * 8.0 == 3 as real;
    } else {
      assert d * 8.0 == 0 as real;
    }
  }

  /**
   * Under the default scale the rounded running score is exactly the old score plus the
   * delta, and it stays on the eighths grid: `round(..., 3)` never loses a point.
   */
  lemma ScoreAddsExactly(score: real, qtype: QuestionType, choice: Option<string>, correct: Option<string>,
                         efficacy: Option<map<string, Efficacy>>)
    requires OnGrid(score)
    ensures var r := EvaluateAnswer(qtype, choice, correct, efficacy, DefaultConfig);
      r.Success? ==> Round3(score + r.value.delta) == score + r.value.delta && OnGrid(score + r.value.delta)
  {
    var r := EvaluateAnswer(qtype, choice, correct, efficacy, DefaultConfig);
    if r.Success? {
      DefaultDeltas(qtype, choice, correct, efficacy);
      DefaultDeltaOnGrid(r.value.delta);
      OnGridAdd(score, r.value.delta);
      Round3OnGrid(score + r.value.delta);
    }
  }

  /** `f"{tutor.lower()}_{question_index:03d}"`, the stem of the rendered image's file name. */
  function FileStem(t: Tutor, questionIndex: int): (stem: string)
    ensures |stem| >= |TutorLower(t)| + 4
    ensures stem[..|TutorLower(t)|] == TutorLower(t) && stem[|TutorLower(t)|] == '_'
  {
    TutorLower(t) + "_" + Format03(questionIndex)
  }

  /** Two different question numbers never share a file stem for the same tutor. */
  lemma FileStemsDistinct(t: Tutor, i: nat, j: nat)
    requires i != j
    ensures FileStem(t, i) != FileStem(t, j)
  {
    var p := TutorLower(t) + "_";
    assert FileStem(t, i) == p + Format03(i) && FileStem(t, j) == p + Format03(j);
    if FileStem(t, i) == FileStem(t, j) {
      assert Format03(i) == FileStem(t, i)[|p|..];
      assert Format03(j) == FileStem(t, j)[|p|..];
      Format03Value(i);
      Format03Value(j);
    }
  }

  /**
   * Why `start_next_question` fails: the draw raised; the model gave no reply or no decodable
   * JSON (the RuntimeError of `generate_json`); or the reply did not parse (the RuntimeError
   * raised over the parser's error).
   */
  datatype TurnError = PickFailed(pick: PickError) | GenerationFailed(reason: string) | ParseFailed(parse: ParseError)

  /**
   * The question `start_next_question` returns for a parse result: a parse failure becomes
   * the turn's error, and a parsed question keeps every field but tutor and subject.
   */
  function Overridden(parsed: Result<Question, ParseError>, tutor: Tutor, subject: string): (r: Result<Question, TurnError>)
    ensures r.Failure? <==> parsed.Failure?
    ensures parsed.Failure? ==> r.error == ParseFailed(parsed.error)
    ensures parsed.Success? ==> r.value.tutor == tutor && r.value.materia == subject
    ensures parsed.Success? ==> r.value.(tutor := parsed.value.tutor, materia := parsed.value.materia) == parsed.value
  {
    if parsed.Failure? then Failure(ParseFailed(parsed.error))
    else Success(parsed.value.(tutor := tutor, materia := subject))
  }

  /**
   * `SessionEngine`. The prompt builder, the language model and the JSON decoding of its
   * reply are the opaque `ask`, keyed by what enters the prompt (subject, tutor, stage and
   * the previous outcome), which fails with a message when the reply is empty or is not
   * decodable JSON; prompt compilation and image generation are the opaque `render`,
   * which yields the image path or `None` when it raised.
   */
  class SessionEngine {
    const picker: SubjectPicker
    const stageManager: StageManager
    const enableSd: bool
    const ask: (string, Tutor, int, Outcome) -> Result<map<string, Json>, string>
    const render: (Tutor, int, bool, Question, string) -> Option<string>
    var lastOutcome: Outcome
    var lastImagePath: Option<string>

    predicate Valid() {
      stageManager.Valid()
    }

    /**
     * `SessionEngine(...)`: a picker on the given generator and a 10/1/5 stage manager
     * unless they are supplied; no outcome yet counts as `corretta`; no image yet.
     */
    constructor (picker: Option<SubjectPicker>, stream: nat -> nat, enableSd: bool,
                 stageManager: Option<StageManager>,
                 ask: (string, Tutor, int, Outcome) -> Result<map<string, Json>, string>,
                 render: (Tutor, int, bool, Question, string) -> Option<string>)
      requires stageManager.Some? ==> stageManager.value.Valid()
      ensures Valid()
      ensures picker.Some? ==> this.picker == picker.value
      ensures picker.None? ==>
        fresh(this.picker) && this.picker.cfg == DefaultPickerConfig && this.picker.stream == stream &&
        this.picker.pos == 0
      ensures stageManager.Some? ==> this.stageManager == stageManager.value
      ensures stageManager.None? ==>
        this.stageManager.step == 10 && this.stageManager.minStage == 1 && this.stageManager.maxStage == 5
      ensures this.enableSd == enableSd && this.ask == ask && this.render == render
      ensures lastOutcome == Corretta && lastImagePath == None
    {
      if picker.Some? {
        this.picker := picker.value;
      } else {
        this.picker := new SubjectPicker(None, stream);
      }
      if stageManager.Some? {
        this.stageManager := stageManager.value;
      } else {
        this.stageManager := new StageManager(10, 1, 5);
      }
      this.enableSd := enableSd;
      this.ask := ask;
      this.render := render;
      lastOutcome := Corretta;
      lastImagePath := None;
    }

    /**
     * `start_next_question`: draws a subject with nothing to avoid, so the generator's first
     * number decides it; routes it; asks the model at the tutor's stage (1 when missing) with
     * the previous outcome as a hint; parses the reply; overrides tutor and subject with the
     * drawn ones; and only then advances the question index.
     */
    method StartNextQuestion(state: SessionState) returns (r: Result<Question, TurnError>)
      modifies state, picker
      ensures var cfg := picker.cfg;
        r.Failure? && r.error.PickFailed? <==> cfg.weights == [] || Total(cfg.weights) <= 0.0
      ensures r.Failure? && r.error.PickFailed? ==> picker.pos == old(picker.pos)
      ensures r.Failure? ==> state.questionIndex == old(state.questionIndex)
      ensures r.Success? ==> state.questionIndex == old(state.questionIndex) + 1
      ensures !(picker.cfg.weights == [] || Total(picker.cfg.weights) <= 0.0) ==>
        var subject := Draw(Keys(picker.cfg.weights), picker.stream, old(picker.pos));
        var tutor := TutorForSubject(subject);
        var reply := ask(subject, tutor, GetOr(old(state.stage), tutor, 1), old(lastOutcome));
        picker.pos == old(picker.pos) + 1 &&
        (reply.Failure? ==> r == Failure(GenerationFailed(reply.error))) &&
        (reply.Success? ==> r == Overridden(ParseSpec(reply.value), tutor, subject))
      ensures unchanged(state`score, state`progress, state`stage, state`totalQuestions, state`timeLeftSec)
      ensures unchanged(state`recentFingerprints, state`recentMax)
    {
      if picker.cfg.weights != [] {
        RerollNoAvoid(Keys(picker.cfg.weights), picker.stream, picker.pos, picker.cfg.softRerollAttempts);
      }
      var picked := picker.Pick(None);
      if picked.Failure? {
        return Failure(PickFailed(picked.error));
      }
      var subject := picked.value;
      var tutor := TutorForSubject(subject);
      var stage := GetOr(state.stage, tutor, 1);
      assert stage == GetOr(old(state.stage), tutor, 1) && lastOutcome == old(lastOutcome);
      r := AskAndParse(subject, tutor, stage);
      if r.Success? {
        state.questionIndex := state.questionIndex + 1;
      }
    }

    /**
     * The prompt, the model call and `parse_question_from_llm_json`: a failed model call is the
     * turn's error; so is the parser's error, re-raised; otherwise the drawn tutor and subject
     * are written over the reply's.
     */
    method AskAndParse(subject: string, tutor: Tutor, stage: int) returns (r: Result<Question, TurnError>)
      ensures var reply := ask(subject, tutor, stage, lastOutcome);
        reply.Failure? ==> r == Failure(GenerationFailed(reply.error))
      ensures var reply := ask(subject, tutor, stage, lastOutcome);
        reply.Success? ==> r == Overridden(ParseSpec(reply.value), tutor, subject)
    {
      var generated := ask(subject, tutor, stage, lastOutcome);
      if generated.Failure? {
        return Failure(GenerationFailed(generated.error));
      }
      var reply := generated.value;
      var parsed := ParseQuestion(reply);
      if parsed.Failure? {
        return Failure(ParseFailed(parsed.error));
      }
      return Success(parsed.value.(tutor := tutor, materia := subject));
    }

    /**
     * `apply_answer`: raises before changing anything when the question cannot be scored.
     * Otherwise the score becomes the rounded sum, the stage manager updates the answering
     * tutor, the outcome is remembered, and the image path is reset, then set only when
     * rendering is enabled and succeeds; a failed render never escapes.
     */
    method ApplyAnswer(state: SessionState, question: Question, choice: Option<string>)
      returns (r: Result<TurnResult, ScoreError>)
      requires Valid()
      modifies this, state
      ensures var sr := EvaluateAnswer(question.tipo, choice, question.corretta, question.efficacia, DefaultConfig);
        (r.Failure? <==> sr.Failure?) && (r.Failure? ==> r.error == sr.error)
      ensures r.Failure? ==>
        state.score == old(state.score) && state.progress == old(state.progress) && state.stage == old(state.stage) &&
        lastOutcome == old(lastOutcome) && lastImagePath == old(lastImagePath)
      ensures r.Success? ==>
        var sr := EvaluateAnswer(question.tipo, choice, question.corretta, question.efficacia, DefaultConfig).value;
        var u := NextUpdate(old(state.progress), old(state.stage), question.tutor, sr.outcome,
                            stageManager.step, stageManager.minStage, stageManager.maxStage);
        state.score == Round3(old(state.score) + sr.delta) &&
        state.progress == old(state.progress)[question.tutor := u.newProgress] &&
        state.stage == old(state.stage)[question.tutor := u.newStage] &&
        lastOutcome == sr.outcome &&
        lastImagePath == (if enableSd then render(question.tutor, u.newStage, u.isPunish, question,
                                                  FileStem(question.tutor, state.questionIndex))
                          else None) &&
        r.value == TurnResult(question.tutor, sr.outcome, sr.delta, state.score, u.newProgress, u.newStage)
      ensures state.questionIndex == old(state.questionIndex) && state.totalQuestions == old(state.totalQuestions)
      ensures state.timeLeftSec == old(state.timeLeftSec)
      ensures state.recentFingerprints == old(state.recentFingerprints) && state.recentMax == old(state.recentMax)
    {
      var scored := EvaluateAnswer(question.tipo, choice, question.corretta, question.efficacia, DefaultConfig);
      if scored.Failure? {
        return Failure(scored.error);
      }
      var turn := RecordTurn(state, question, scored.value);
      return Success(turn);
    }

    /** What `apply_answer` does once the answer is scored `sr`. */
    method RecordTurn(state: SessionState, question: Question, sr: ScoreResult) returns (turn: TurnResult)
      requires Valid()
      modifies this, state
      ensures var u := NextUpdate(old(state.progress), old(state.stage), question.tutor, sr.outcome,
                                  stageManager.step, stageManager.minStage, stageManager.maxStage);
        state.score == Round3(old(state.score) + sr.delta) &&
        state.progress == old(state.progress)[question.tutor := u.newProgress] &&
        state.stage == old(state.stage)[question.tutor := u.newStage] &&
        lastOutcome == sr.outcome &&
        lastImagePath == (if enableSd then render(question.tutor, u.newStage, u.isPunish, question,
                                                  FileStem(question.tutor, state.questionIndex))
                          else None) &&
        turn == TurnResult(question.tutor, sr.outcome, sr.delta, state.score, u.newProgress, u.newStage)
      ensures state.questionIndex == old(state.questionIndex) && state.totalQuestions == old(state.totalQuestions)
      ensures state.timeLeftSec == old(state.timeLeftSec)
      ensures state.recentFingerprints == old(state.recentFingerprints) && state.recentMax == old(state.recentMax)
    {
      state.score := Round3(state.score + sr.delta);
      var u := stageManager.ApplyOutcome(state, question.tutor, sr.outcome);
      lastOutcome := sr.outcome;
      lastImagePath := None;
      if enableSd {
        var stem := FileStem(question.tutor, state.questionIndex);
        lastImagePath := render(question.tutor, u.newStage, u.isPunish, question, stem);
      }
      turn := TurnResult(question.tutor, sr.outcome, sr.delta, state.score, u.newProgress, u.newStage);
    }
  }
}
