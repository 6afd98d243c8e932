/**
 * Answer scoring under the exam's point scale. Standard questions score by letter,
 * situational ones by the efficacy of the chosen option.
 */
module Scoring {
  import opened Wrappers
  import opened PyText
  import opened Models
  import Rules

  /** `ScoreConfig`, a frozen table of point values. */
  datatype ScoreConfig = ScoreConfig(
    standardCorrect: real,
    standardWrong: real,
    standardOmitted: real,
    situationalEffective: real,
    situationalNeutral: real,
    situationalIneffective: real)

  /** `ScoreConfig()`: +0.75 / -0.25 / 0 and +0.75 / +0.375 / 0. */
  const DefaultConfig: ScoreConfig := ScoreConfig(0.75, -0.25, 0.0, 0.75, 0.375, 0.0)

  datatype ScoreResult = ScoreResult(outcome: Outcome, delta: real)

  /** Why `evaluate_answer` raises ValueError. */
  datatype ScoreError = MissingCorrectChoice | MissingEfficacyMap

  /** `not user_choice`: no choice at all, or the empty string. */
  predicate Omitted(choice: Option<string>) {
    choice.None? || choice.value == ""
  }

  /** The comparison key of a choice: `choice.strip().upper()`. */
  function Key(choice: string): string {
    Upper(Strip(choice))
  }

  /**
   * `evaluate_standard_answer`: whole-string comparison after strip and upper-case;
   * nothing strips punctuation, so "A)" does not match "A".
   */
  function EvaluateStandard(choice: Option<string>, correct: string, cfg: ScoreConfig): (r: ScoreResult)
    ensures Omitted(choice) ==> r == ScoreResult(Omessa, cfg.standardOmitted)
    ensures !Omitted(choice) && Key(choice.value) == Key(correct) ==> r == ScoreResult(Corretta, cfg.standardCorrect)
    ensures !Omitted(choice) && Key(choice.value) != Key(correct) ==> r == ScoreResult(Errata, cfg.standardWrong)
  {
    if Omitted(choice) then ScoreResult(Omessa, cfg.standardOmitted)
    else if Key(choice.value) == Key(correct) then ScoreResult(Corretta, cfg.standardCorrect)
    else ScoreResult(Errata, cfg.standardWrong)
  }

  /**
   * `evaluate_situational_answer`: the efficacy of the chosen option decides. A "neutra"
   * option is labelled `errata` although it earns points; an unmapped key earns nothing.
   * The omitted case uses the standard omitted value, as the source does.
   */
  function EvaluateSituational(choice: Option<string>, efficacy: map<string, Efficacy>, cfg: ScoreConfig): (r: ScoreResult)
    ensures Omitted(choice) ==> r == ScoreResult(Omessa, cfg.standardOmitted)
    ensures !Omitted(choice) ==>
      var k := Key(choice.value);
      if k in efficacy && efficacy[k] == Efficace then r == ScoreResult(Corretta, cfg.situationalEffective)
      else if k in efficacy && efficacy[k] == Neutra then r == ScoreResult(Errata, cfg.situationalNeutral)
      else r == ScoreResult(Errata, cfg.situationalIneffective)
  {
    if Omitted(choice) then ScoreResult(Omessa, cfg.standardOmitted)
    else
      var k := Key(choice.value);
      if k !in efficacy then ScoreResult(Errata, cfg.situationalIneffective)
      else match efficacy[k]
        case Efficace => ScoreResult(Corretta, cfg.situationalEffective)
        case Neutra => ScoreResult(Errata, cfg.situationalNeutral)
        case Inefficace => ScoreResult(Errata, cfg.situationalIneffective)
  }

  /**
   * `evaluate_answer`: the router. A standard question needs a non-empty correct choice,
   * any other question a non-empty efficacy map; otherwise ValueError.
   */
  function EvaluateAnswer(qtype: QuestionType, choice: Option<string>, correct: Option<string>,
                          efficacy: Option<map<string, Efficacy>>, cfg: ScoreConfig): (r: Result<ScoreResult, ScoreError>)
    ensures qtype == Standard ==>
      (r.Failure? <==> Omitted(correct)) &&
      (r.Success? ==> r.value == EvaluateStandard(choice, correct.value, cfg))
    ensures qtype != Standard ==>
      (r.Failure? <==> (efficacy.None? || efficacy.value == map[])) &&
      (r.Success? ==> r.value == EvaluateSituational(choice, efficacy.value, cfg))
    ensures r.Failure? ==> r.error == (if qtype == Standard then MissingCorrectChoice else MissingEfficacyMap)
  {
    if qtype == Standard then
      if Omitted(correct) then Failure(MissingCorrectChoice)
      else Success(EvaluateStandard(choice, correct.value, cfg))
    else if efficacy.None? || efficacy.value == map[] then Failure(MissingEfficacyMap)
    else Success(EvaluateSituational(choice, efficacy.value, cfg))
  }

  /** The four point values the default scale can hand out. */
  predicate IsDefaultDelta(d: real) {
    d == 0.75 || d == -0.25 || d == 0.375 || d == 0.0
  }

  /**
   * Under the default scale every delta is one of {0.75, -0.25, 0.375, 0}, and an answer
   * is `corretta` exactly when it earns the full 0.75.
   */
  lemma DefaultDeltas(qtype: QuestionType, choice: Option<string>, correct: Option<string>,
                      efficacy: Option<map<string, Efficacy>>)
    ensures var r := EvaluateAnswer(qtype, choice, correct, efficacy, DefaultConfig);
      r.Success? ==> IsDefaultDelta(r.value.delta) && (r.value.outcome == Corretta <==> r.value.delta == 0.75)
  {
    var r := EvaluateAnswer(qtype, choice, correct, efficacy, DefaultConfig);
    if r.Success? && qtype != Standard && !Omitted(choice) {
      var k := Key(choice.value);
      if k in efficacy.value {
        match efficacy.value[k]
        case Efficace =>
        case Neutra =>
        case Inefficace =>
      }
    }
  }

  /** An omitted answer scores 0 on either kind of question. */
  lemma OmittedScoresZero(qtype: QuestionType, choice: Option<string>, correct: Option<string>,
                          efficacy: Option<map<string, Efficacy>>)
    requires Omitted(choice)
    ensures var r := EvaluateAnswer(qtype, choice, correct, efficacy, DefaultConfig);
      r.Success? ==> r.value == ScoreResult(Omessa, 0.0)
  {
  }

  /** The key of a one-character, non-blank choice is that character upper-cased. */
  lemma KeyOfChar(c: char)
    requires !IsSpace(c)
    ensures Key([c]) == [UpperChar(c)]
  {
    StripUnchanged([c]);
  }

  /**
   * A letter followed by anything else is a different key from the letter alone, so a
   * trailing parenthesis makes a standard answer wrong: "A)" does not match "A".
   */
  lemma TrailingCharacterIsWrong(x: char, p: char, cfg: ScoreConfig)
    requires !IsSpace(x) && !IsSpace(p)
    ensures EvaluateStandard(Some([x, p]), [x], cfg) == ScoreResult(Errata, cfg.standardWrong)
  {
    assert Key([x, p]) != Key([x]) by {
      StripUnchanged([x, p]);
      KeyOfChar(x);
    }
  }

  /** One-letter answers match exactly when they agree ignoring case: "b" matches "B". */
  lemma SingleLetterScoring(u: char, c: char, cfg: ScoreConfig)
    requires !IsSpace(u) && !IsSpace(c)
    ensures EvaluateStandard(Some([u]), [c], cfg) ==
      if UpperChar(u) == UpperChar(c) then ScoreResult(Corretta, cfg.standardCorrect)
      else ScoreResult(Errata, cfg.standardWrong)
  {
    KeyOfChar(u);
    KeyOfChar(c);
  }

  /** Blanks around the choice do not matter. */
  lemma SurroundingBlanksIgnored(choice: string, correct: string, cfg: ScoreConfig)
    requires !Omitted(Some(choice))
    ensures EvaluateStandard(Some([' '] + choice + [' ']), correct, cfg) == EvaluateStandard(Some(choice), correct, cfg)
  {
    StripPadded(choice);
  }

  /** The point values in the exam rules agree with the scoring scale. */
  lemma RulesAgreeWithScale()
    ensures Rules.DefaultRules.correctPoints == DefaultConfig.standardCorrect
    ensures Rules.DefaultRules.wrongPoints == DefaultConfig.standardWrong
    ensures Rules.DefaultRules.omittedPoints == DefaultConfig.standardOmitted
    ensures Rules.DefaultRules.situationalEffective == DefaultConfig.situationalEffective
    ensures Rules.DefaultRules.situationalNeutral == DefaultConfig.situationalNeutral
    ensures Rules.DefaultRules.situationalIneffective == DefaultConfig.situationalIneffective
  {
  }
}
