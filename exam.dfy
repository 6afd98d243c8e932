/**
 * The timed exam: a forty-subject roadmap, questions generated on demand and cached by
 * position, answers keyed by position, and the final tally on the /30 scale.
 */
module Exam {
  import opened Wrappers
  import opened Json
  import opened Models

  /** The ten knowledge subjects the first twenty-five questions are drawn from. */
  const KnowledgePool: seq<string> := [
    "Diritto amministrativo", "Diritto penale (PA)", "Codice dell'Amministrazione Digitale (CAD)",
    "Diritto dell'Unione Europea", "Contabilità di Stato",
    "Sicurezza (D.Lgs. 81/2008)", "Marketing e comunicazione PA",
    "Beni culturali", "Struttura MIC", "Lavoro pubblico"
  ]

  /** The two reasoning subjects of questions 25 to 31. */
  const ReasoningPool: seq<string> := ["Logica", "Ragionamento critico-verbale"]

  const SituationalSubject: string := "Quesiti situazionali"

  /** Neither draw pool holds the situational subject. */
  lemma PoolsAreNotSituational()
    ensures forall i :: 0 <= i < |KnowledgePool| ==> KnowledgePool[i] != SituationalSubject
    ensures forall i :: 0 <= i < |ReasoningPool| ==> ReasoningPool[i] != SituationalSubject
  {
  }

  /** `ExamSession`: every field is updated in place by the engine or its caller. */
  class ExamSession {
    var questions: seq<Question>
    var answers: map<int, string>
    var currentIndex: nat
    var startTime: real
    var durationSeconds: int
    var subjectRoadmap: seq<string>

    /** `ExamSession(start_time=..., subject_roadmap=...)`. */
    constructor (startTime: real, roadmap: seq<string>)
      ensures questions == [] && answers == map[] && currentIndex == 0
      ensures this.startTime == startTime && durationSeconds == 3600 && subjectRoadmap == roadmap
    {
      questions := [];
      answers := map[];
      currentIndex := 0;
      this.startTime := startTime;
      durationSeconds := 3600;
      subjectRoadmap := roadmap;
    }

    /** Every cached question belongs to the roadmap subject at its own position. */
    predicate Aligned()
      reads this
    {
      |questions| <= |subjectRoadmap| &&
      forall i :: 0 <= i < |questions| ==> questions[i].materia == subjectRoadmap[i]
    }
  }

  /**
   * `start_exam`: 25 draws from the knowledge pool, 7 from the reasoning pool, then 8
   * situational questions. The `k`-th number of `draws` makes the `k`-th `random.choice`.
   */
  method StartExam(draws: nat -> nat, now: real) returns (s: ExamSession)
    ensures fresh(s)
    ensures s.questions == [] && s.answers == map[] && s.currentIndex == 0
    ensures s.startTime == now && s.durationSeconds == 3600
    ensures |s.subjectRoadmap| == 40
    ensures forall i :: 0 <= i < 25 ==> s.subjectRoadmap[i] == KnowledgePool[draws(i) % 10]
    ensures forall i :: 25 <= i < 32 ==> s.subjectRoadmap[i] == ReasoningPool[draws(i) % 2]
    ensures forall i :: 0 <= i < 40 ==> (s.subjectRoadmap[i] == SituationalSubject <==> i >= 32)
  {
    var roadmap: seq<string> := [];
    var k := 0;
    while k < 25
      invariant 0 <= k <= 25 && |roadmap| == k
      invariant forall i :: 0 <= i < k ==> roadmap[i] == KnowledgePool[draws(i) % 10]
    {
      roadmap := roadmap + [KnowledgePool[draws(k) % 10]];
      k := k + 1;
    }
    while k < 32
      invariant 25 <= k <= 32 && |roadmap| == k
      invariant forall i :: 0 <= i < 25 ==> roadmap[i] == KnowledgePool[draws(i) % 10]
      invariant forall i :: 25 <= i < k ==> roadmap[i] == ReasoningPool[draws(i) % 2]
    {
      roadmap := roadmap + [ReasoningPool[draws(k) % 2]];
      k := k + 1;
    }
    while k < 40
      invariant 32 <= k <= 40 && |roadmap| == k
      invariant forall i :: 0 <= i < 25 ==> roadmap[i] == KnowledgePool[draws(i) % 10]
      invariant forall i :: 25 <= i < 32 ==> roadmap[i] == ReasoningPool[draws(i) % 2]
      invariant forall i :: 32 <= i < k ==> roadmap[i] == SituationalSubject
    {
      roadmap := roadmap + [SituationalSubject];
      k := k + 1;
    }
    PoolsAreNotSituational();
    s := new ExamSession(now, roadmap);
  }

  /** A string field of the reply, or "" when it is missing or not a string. */
  function StrField(d: map<string, Json>, key: string): (s: string)
    ensures key in d && d[key].JStr? ==> s == d[key].s
    ensures key !in d || !d[key].JStr? ==> s == ""
  {
    var v := Get(d, key);
    if v.JStr? then v.s else ""
  }

  /** The `opzioni` object of the reply, keeping its string-valued entries. */
  function OptionsField(d: map<string, Json>): (o: map<string, string>)
    ensures "opzioni" !in d || !d["opzioni"].JObject? ==> o == map[]
    ensures "opzioni" in d && d["opzioni"].JObject? ==>
      forall k :: k in o <==> k in d["opzioni"].fields && d["opzioni"].fields[k].JStr?
  {
    var v := Get(d, "opzioni");
    if v.JObject? then map k | k in v.fields && v.fields[k].JStr? :: v.fields[k].s else map[]
  }

  /** `data.get("corretta", "A")`: "A" when absent, `None` for a null (or non-string) value. */
  function CorrectField(d: map<string, Json>): (c: Option<string>)
    ensures "corretta" !in d ==> c == Some("A")
    ensures "corretta" in d ==> (c.Some? <==> d["corretta"].JStr?)
    ensures "corretta" in d && c.Some? ==> c.value == d["corretta"].s
  {
    if "corretta" !in d then Some("A")
    else if d["corretta"].JStr? then Some(d["corretta"].s)
    else None
  }

  /** `data.get("spiegazione_breve") or data.get("spiegazione", "")`. */
  function ExplanationField(d: map<string, Json>): (s: string)
    ensures StrField(d, "spiegazione_breve") != "" ==> s == StrField(d, "spiegazione_breve")
    ensures StrField(d, "spiegazione_breve") == "" ==> s == StrField(d, "spiegazione")
  {
    var breve := StrField(d, "spiegazione_breve");
    if breve != "" then breve else StrField(d, "spiegazione")
  }

  /** The reply used when `json.loads` fails. */
  function FallbackReply(subject: string): map<string, Json> {
    map["domanda" := JStr("Errore"), "opzioni" := JObject(map[]), "corretta" := JStr("A"), "materia" := JStr(subject)]
  }

  /**
   * The question built from a decoded reply (`None` when decoding failed): always Maria's,
   * on the roadmap subject, situational exactly for the situational subject.
   */
  function GeneratedQuestion(subject: string, reply: Option<map<string, Json>>): (q: Question)
    ensures q.tutor == Maria && q.materia == subject
    ensures q.tipo == (if subject == SituationalSubject then Situational else Standard)
    ensures reply.None? ==> q.domanda == "Errore" && q.opzioni == map[] && q.corretta == Some("A")
  {
    var d := if reply.None? then FallbackReply(subject) else reply.value;
    var spieg := ExplanationField(d);
    Question(Maria, subject, if subject == SituationalSubject then Situational else Standard,
             StrField(d, "domanda"), OptionsField(d), CorrectField(d), None, 1, "", spieg, [], "")
  }

  /**
   * `get_next_question`: `None` past the roadmap; the cached question when one exists at
   * the current index; otherwise a question generated for the roadmap subject, appended.
   */
  method GetNextQuestion(session: ExamSession, reply: Option<map<string, Json>>) returns (q: Option<Question>)
    modifies session
    ensures old(session.currentIndex) >= |old(session.subjectRoadmap)| ==> q.None? && session.questions == old(session.questions)
    ensures old(session.currentIndex) < |old(session.subjectRoadmap)| && old(session.currentIndex) < |old(session.questions)| ==>
      q == Some(old(session.questions)[old(session.currentIndex)]) && session.questions == old(session.questions)
    ensures old(session.currentIndex) < |old(session.subjectRoadmap)| && old(session.currentIndex) >= |old(session.questions)| ==>
      q == Some(GeneratedQuestion(old(session.subjectRoadmap)[old(session.currentIndex)], reply)) &&
      session.questions == old(session.questions) + [q.value]
    ensures session.answers == old(session.answers) && session.currentIndex == old(session.currentIndex)
    ensures session.subjectRoadmap == old(session.subjectRoadmap) && session.startTime == old(session.startTime)
    ensures session.durationSeconds == old(session.durationSeconds)
    ensures old(session.Aligned()) && old(session.currentIndex) <= |old(session.questions)| ==> session.Aligned()
  {
    if session.currentIndex >= |session.subjectRoadmap| {
      return None;
    }
    if session.currentIndex < |session.questions| {
      return Some(session.questions[session.currentIndex]);
    }
    var subject := session.subjectRoadmap[session.currentIndex];
    var question := GeneratedQuestion(subject, reply);
    session.questions := session.questions + [question];
    return Some(question);
  }

  /** `submit_answer`: records the answer at the current index and changes nothing else. */
  method SubmitAnswer(session: ExamSession, answer: string)
    modifies session
    ensures session.answers == old(session.answers)[session.currentIndex := answer]
    ensures session.questions == old(session.questions) && session.currentIndex == old(session.currentIndex)
    ensures session.subjectRoadmap == old(session.subjectRoadmap) && session.startTime == old(session.startTime)
    ensures session.durationSeconds == old(session.durationSeconds)
  {
    session.answers := session.answers[session.currentIndex := answer];
  }

  /** The running total and the three counters of `calculate_result`. */
  datatype Tally = Tally(total: real, corr: nat, wrong: nat, omit: nat)

  const NoTally: Tally := Tally(0.0, 0, 0, 0)

  /** `answers.get(i)`. */
  function AnswerAt(answers: map<int, string>, i: int): Option<string> {
    if i in answers then Some(answers[i]) else None
  }

  /** `elif ans:`: an answer was given and is not the empty string. */
  predicate Given(ans: Option<string>) {
    ans.Some? && ans.value != ""
  }

  /** `ans == q.corretta` as written: two missing values are equal. */
  predicate MatchesAsWritten(ans: Option<string>, corretta: Option<string>) {
    ans == corretta
  }

  /** The intended match: an answer was given and equals the recorded correct one. */
  predicate Matches(ans: Option<string>, corretta: Option<string>) {
    Given(ans) && ans == corretta
  }

  /** One loop iteration, under a given match test. */
  function Step(t: Tally, q: Question, ans: Option<string>, matched: bool): (r: Tally)
    ensures q.tipo.Situational? ==> r.corr == t.corr && r.wrong == t.wrong && r.omit == t.omit
    ensures q.tipo.Standard? && matched ==> r.corr == t.corr + 1 && r.wrong == t.wrong && r.omit == t.omit
    ensures q.tipo.Standard? && !matched && Given(ans) ==> r.wrong == t.wrong + 1 && r.corr == t.corr && r.omit == t.omit
    ensures q.tipo.Standard? && !matched && !Given(ans) ==> r.omit == t.omit + 1 && r.corr == t.corr && r.wrong == t.wrong
    ensures matched ==> r.total == t.total + 0.75
    ensures !matched && Given(ans) ==> r.total == t.total + (if q.tipo.Standard? then -0.25 else 0.375)
    ensures !matched && !Given(ans) ==> r.total == t.total
  {
    if q.tipo.Situational? then
      if matched then t.(total := t.total + 0.75)
      else if Given(ans) then t.(total := t.total + 0.375)
      else t
    else
      if matched then t.(total := t.total + 0.75, corr := t.corr + 1)
      else if Given(ans) then t.(total := t.total - 0.25, wrong := t.wrong + 1)
      else t.(omit := t.omit + 1)
  }

  /** The tally over the questions, each read against the answer stored at its own position. */
  function TallyOf(qs: seq<Question>, answers: map<int, string>): Tally
    decreases |qs|
  {
    if qs == [] then NoTally
    else
      var n := |qs| - 1;
      var ans := AnswerAt(answers, n);
      Step(TallyOf(qs[..n], answers), qs[n], ans, Matches(ans, qs[n].corretta))
  }

  /** How many questions are standard ones. */
  function StandardCount(qs: seq<Question>): nat {
    if qs == [] then 0 else StandardCount(qs[..|qs| - 1]) + (if qs[|qs| - 1].tipo.Standard? then 1 else 0)
  }

  /** Situational questions never touch the counters, so they add up to the standard questions. */
  lemma {:induction false} CountersCoverStandard(qs: seq<Question>, answers: map<int, string>)
    ensures var t := TallyOf(qs, answers); t.corr + t.wrong + t.omit == StandardCount(qs)
  {
    if qs != [] {
      CountersCoverStandard(qs[..|qs| - 1], answers);
    }
  }

  /** Each question moves the total by at most +0.75 and at least -0.25. */
  lemma {:induction false} TotalBounds(qs: seq<Question>, answers: map<int, string>)
    ensures -0.25 * |qs| as real <= TallyOf(qs, answers).total <= 0.75 * |qs| as real
  {
    if qs != [] {
      TotalBounds(qs[..|qs| - 1], answers);
    }
  }

  /** Answers stored at positions with no question are ignored. */
  lemma {:induction false} OnlyQuestionPositionsCount(qs: seq<Question>, a1: map<int, string>, a2: map<int, string>)
    requires forall i :: 0 <= i < |qs| ==> AnswerAt(a1, i) == AnswerAt(a2, i)
    ensures TallyOf(qs, a1) == TallyOf(qs, a2)
  {
    if qs != [] {
      OnlyQuestionPositionsCount(qs[..|qs| - 1], a1, a2);
    }
  }

  /** An exam left blank scores nothing and counts every standard question as omitted. */
  lemma {:induction false} BlankExamScoresZero(qs: seq<Question>)
    ensures TallyOf(qs, map[]) == Tally(0.0, 0, 0, StandardCount(qs))
  {
    if qs != [] {
      BlankExamScoresZero(qs[..|qs| - 1]);
    }
  }

  /** As written, an unanswered standard question whose correct choice is null earns full marks. */
  lemma NullCorrectRewardsSilenceAsWritten(q: Question)
    requires q.tipo.Standard? && q.corretta.None?
    ensures MatchesAsWritten(None, q.corretta)
    ensures Step(NoTally, q, None, MatchesAsWritten(None, q.corretta)) == Tally(0.75, 1, 0, 0)
    ensures Step(NoTally, q, None, Matches(None, q.corretta)) == Tally(0.0, 0, 0, 1)
  {
  }

  /** With the intended match an unanswered question is never scored as correct. */
  lemma UnansweredNeverMatches(ans: Option<string>, corretta: Option<string>)
    requires !Given(ans)
    ensures !Matches(ans, corretta)
    ensures corretta.Some? && corretta.value != "" ==> (Matches(ans, corretta) <==> MatchesAsWritten(ans, corretta))
  {
  }

  /** `final = max(0, total)` and the pass verdict against 21. */
  function Verdict(total: real): (r: (real, bool))
    ensures r.0 >= 0.0 && r.0 >= total
    ensures total >= 0.0 ==> r.0 == total
    ensures r.1 <==> r.0 >= 21.0
  {
    var final := if total >= 0.0 then total else 0.0;
    (final, final >= 21.0)
  }

  /** A full forty-question exam can reach at most 30 points. */
  lemma ExamAtMostThirty(qs: seq<Question>, answers: map<int, string>)
    requires |qs| <= 40
    ensures Verdict(TallyOf(qs, answers).total).0 <= 30.0
  {
    TotalBounds(qs, answers);
  }

  /**
   * `calculate_result`: walks the questions, reading the answer at each position, and returns
   * the clamped score, the verdict and the counters of the report line.
   */
  method CalculateResult(session: ExamSession) returns (final: real, passed: bool, t: Tally)
    ensures t == TallyOf(session.questions, session.answers)
    ensures (final, passed) == Verdict(t.total)
  {
    var qs := session.questions;
    t := NoTally;
    var i := 0;
    while i < |qs|
      invariant 0 <= i <= |qs|
      invariant t == TallyOf(qs[..i], session.answers)
    {
      assert qs[..i + 1][..i] == qs[..i];
      var ans := AnswerAt(session.answers, i);
      var q := qs[i];
      if q.tipo.Situational? {
        if Matches(ans, q.corretta) {
          t := t.(total := t.total + 0.75);
        } else if Given(ans) {
          t := t.(total := t.total + 0.375);
        }
      } else {
        if Matches(ans, q.corretta) {
          t := t.(total := t.total + 0.75, corr := t.corr + 1);
        } else if Given(ans) {
          t := t.(total := t.total - 0.25, wrong := t.wrong + 1);
        } else {
          t := t.(omit := t.omit + 1);
        }
      }
      i := i + 1;
    }
    assert qs[..|qs|] == qs;
    final := if t.total >= 0.0 then t.total else 0.0;
    passed := final >= 21.0;
  }
}
