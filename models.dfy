/**
 * Domain records of the quiz: the three tutors, the literal enums, the immutable
 * `Question` and `TurnResult` records, and the mutable per-player `SessionState`.
 */
module Models {
  import opened Wrappers

  /** `TutorName`: one of "Luna", "Stella", "Maria". */
  datatype Tutor = Luna | Stella | Maria

  /** `QuestionType`: "standard" or "situazionale". */
  datatype QuestionType = Standard | Situational

  /** `Outcome`: "corretta", "errata" or "omessa". */
  datatype Outcome = Corretta | Errata | Omessa

  /** `Efficacy`: "efficace", "neutra" or "inefficace". */
  datatype Efficacy = Efficace | Neutra | Inefficace

  /** The tutor's name as the Python literal spells it. */
  function TutorName(t: Tutor): string {
    match t
    case Luna => "Luna"
    case Stella => "Stella"
    case Maria => "Maria"
  }

  /** The tutor a string names exactly, if any. */
  function TutorFromName(s: string): (r: Option<Tutor>)
    ensures r.Some? ==> TutorName(r.value) == s
  {
    if s == "Luna" then Some(Luna)
    else if s == "Stella" then Some(Stella)
    else if s == "Maria" then Some(Maria)
    else None
  }

  /** Every tutor is found again from its own name. */
  lemma TutorNameRoundTrip(t: Tutor)
    ensures TutorFromName(TutorName(t)) == Some(t)
  {
  }

  /** `tutor.lower()`, used for file names. */
  function TutorLower(t: Tutor): string {
    match t
    case Luna => "luna"
    case Stella => "stella"
    case Maria => "maria"
  }

  /** A frozen question record. */
  datatype Question = Question(
    tutor: Tutor,
    materia: string,
    tipo: QuestionType,
    domanda: string,
    opzioni: map<string, string>,
    corretta: Option<string>,
    efficacia: Option<map<string, Efficacy>>,
    difficulty: int,
    questionId: string,
    spiegazioneBreve: string,
    tags: seq<string>,
    visual: string)

  /** `Question(tutor=..., materia=..., tipo=..., domanda=..., opzioni=...)` with every default. */
  function DefaultQuestion(tutor: Tutor, materia: string, tipo: QuestionType, domanda: string,
                           opzioni: map<string, string>): (q: Question)
    ensures q.tutor == tutor && q.materia == materia && q.tipo == tipo
    ensures q.domanda == domanda && q.opzioni == opzioni
    ensures q.corretta.None? && q.efficacia.None? && q.difficulty == 1
    ensures q.questionId == "" && q.spiegazioneBreve == "" && q.tags == [] && q.visual == ""
  {
    Question(tutor, materia, tipo, domanda, opzioni, None, None, 1, "", "", [], "")
  }

  /** A frozen turn result. */
  datatype TurnResult = TurnResult(
    tutor: Tutor,
    outcome: Outcome,
    deltaScore: real,
    newScore: real,
    newProgress: int,
    newStage: int)

  /** Default per-tutor maps of a fresh session. */
  const InitialProgress: map<Tutor, int> := map[Luna := 0, Stella := 0, Maria := 0]
  const InitialStage: map<Tutor, int> := map[Luna := 1, Stella := 1, Maria := 1]

  /** Every tutor starts with progress 0 at stage 1. */
  lemma InitialMapsCoverTutors()
    ensures forall t: Tutor :: t in InitialProgress && InitialProgress[t] == 0
    ensures forall t: Tutor :: t in InitialStage && InitialStage[t] == 1
  {
    forall t: Tutor
      ensures t in InitialProgress && InitialProgress[t] == 0 && t in InitialStage && InitialStage[t] == 1
    {
      match t
      case Luna =>
      case Stella =>
      case Maria =>
    }
  }

  /** The mutable per-player state; the engines update its fields in place. */
  class SessionState {
    var questionIndex: int
    var totalQuestions: int
    var timeLeftSec: int
    var score: real
    var progress: map<Tutor, int>
    var stage: map<Tutor, int>
    var recentFingerprints: seq<string>
    var recentMax: int

    /** `SessionState()`: question 0 of 40, sixty minutes, no score, every tutor at stage 1. */
    constructor ()
      ensures questionIndex == 0 && totalQuestions == 40 && timeLeftSec == 3600 && score == 0.0
      ensures progress == InitialProgress && stage == InitialStage
      ensures recentFingerprints == [] && recentMax == 30
    {
      questionIndex := 0;
      totalQuestions := 40;
      timeLeftSec := 60 * 60;
      score := 0.0;
      progress := InitialProgress;
      stage := InitialStage;
      recentFingerprints := [];
      recentMax := 30;
    }
  }
}
