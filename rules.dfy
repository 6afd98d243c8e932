/** Exam rules: time limit, pass mark on the /30 scale, clamping and the progress bar. */
module Rules {

  /** `ExamRules`, a frozen configuration. */
  datatype ExamRules = ExamRules(
    totalQuestions: int,
    timeLimitMinutes: int,
    passMark30: real,
    correctPoints: real,
    wrongPoints: real,
    omittedPoints: real,
    situationalEffective: real,
    situationalNeutral: real,
    situationalIneffective: real)

  /** `ExamRules()` with its declared defaults. */
  const DefaultRules: ExamRules :=
    ExamRules(40, 60, 21.0, 0.75, -0.25, 0.0, 0.75, 0.375, 0.0)

  function TimeLimitSeconds(rules: ExamRules): (secs: int)
    ensures rules.timeLimitMinutes >= 0 ==> secs >= 0
    ensures secs % 60 == 0 && secs / 60 == rules.timeLimitMinutes
  {
    rules.timeLimitMinutes * 60
  }

  /** The default exam lasts one hour. */
  lemma DefaultTimeLimit()
    ensures TimeLimitSeconds(DefaultRules) == 3600
  {
  }

  function IsPassed(score30: real, rules: ExamRules): (passed: bool)
    ensures passed <==> score30 >= rules.passMark30
  {
    score30 >= rules.passMark30
  }

  /** Under the default rules a score passes exactly when it reaches 21. */
  lemma DefaultPassMark(score30: real)
    ensures IsPassed(score30, DefaultRules) <==> score30 >= 21.0
  {
  }

  /** `clamp_score`: negative scores read as 0, others are untouched. */
  function ClampScore(score30: real): (r: real)
    ensures r >= 0.0 && r >= score30
    ensures score30 >= 0.0 ==> r == score30
    ensures score30 < 0.0 ==> r == 0.0
  {
    if 0.0 >= score30 then 0.0 else score30
  }

  lemma ClampScoreIdempotent(score30: real)
    ensures ClampScore(ClampScore(score30)) == ClampScore(score30)
  {
  }

  /** A product of a non-negative span and a fraction in [0, 1] stays within the span. */
  lemma ScaleWithin(span: real, f: real)
    requires span >= 0.0 && 0.0 <= f <= 1.0
    ensures 0.0 <= span * f <= span
  {
    assert span * f <= span * 1.0;
  }

  /**
   * `score_bar`: the score's position on a bar from `barMin` to `barMax`, together with
   * the position of the pass line. The score is clamped to [0, 30] first.
   */
  function ScoreBar(score30: real, rules: ExamRules, barMin: real, barMax: real): (r: (real, real))
    ensures barMin <= barMax ==> barMin <= r.0 <= barMax
    ensures barMin <= barMax && 0.0 <= rules.passMark30 <= 30.0 ==> barMin <= r.1 <= barMax
  {
    var s := ClampScore(score30);
    var progress := (if 30.0 <= s then 30.0 else s) / 30.0;
    var passLine := rules.passMark30 / 30.0;
    var span := barMax - barMin;
    var bar := (barMin + span * progress, barMin + span * passLine);
    if span < 0.0 then bar
    else
      ScaleWithin(span, progress);
      if 0.0 <= passLine <= 1.0 then ScaleWithin(span, passLine); bar else bar
  }

  /** Multiplying by a positive span keeps the order of two fractions, both ways. */
  lemma ScaleOrder(span: real, a: real, b: real)
    requires span > 0.0
    ensures span * a >= span * b <==> a >= b
  {
    if a >= b {
      assert span * a - span * b == span * (a - b);
    } else {
      assert span * b - span * a == span * (b - a);
    }
  }

  /**
   * On an upright bar with a pass mark inside (0, 30], the score's marker reaches the pass
   * line exactly when the score passes.
   */
  lemma ScoreBarShowsPass(score30: real, rules: ExamRules, barMin: real, barMax: real)
    requires barMin < barMax && 0.0 < rules.passMark30 <= 30.0
    ensures ScoreBar(score30, rules, barMin, barMax).0 >= ScoreBar(score30, rules, barMin, barMax).1
            <==> IsPassed(score30, rules)
  {
    var s := ClampScore(score30);
    var capped := if 30.0 <= s then 30.0 else s;
    var span := barMax - barMin;
    var bar := ScoreBar(score30, rules, barMin, barMax);
    assert bar.0 == barMin + span * (capped / 30.0);
    assert bar.1 == barMin + span * (rules.passMark30 / 30.0);
    ScaleOrder(span, capped / 30.0, rules.passMark30 / 30.0);
    assert capped >= rules.passMark30 <==> score30 >= rules.passMark30;
  }

  /** On the default bar the pass line sits 21/30 of the way along, whatever the score. */
  lemma DefaultPassLine(score30: real, barMin: real, barMax: real)
    ensures ScoreBar(score30, DefaultRules, barMin, barMax).1 == barMin + (barMax - barMin) * 0.7
  {
  }

  /** The bar is full from 30 upwards and empty at or below 0. */
  lemma ScoreBarEnds(score30: real, rules: ExamRules, barMin: real, barMax: real)
    ensures score30 >= 30.0 ==> ScoreBar(score30, rules, barMin, barMax).0 == barMax
    ensures score30 <= 0.0 ==> ScoreBar(score30, rules, barMin, barMax).0 == barMin
  {
  }
}
