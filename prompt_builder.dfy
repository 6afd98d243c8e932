/**
 * What the question prompt is made of: the subject's instruction and seed files, a sample
 * of seed rows as style examples, and an optional strict-JSON block. The wording of the
 * template itself is not part of the model.
 */
module PromptBuilder {
  import opened Wrappers
  import opened PyText
  import TutorRouter

  /** `PromptBuildConfig`. */
  datatype PromptBuildConfig = PromptBuildConfig(seedPerPrompt: int, strictJsonOnly: bool)

  /** `PromptBuildConfig()`: four examples, strict output on. */
  const DefaultPromptConfig: PromptBuildConfig := PromptBuildConfig(4, true)

  /** The instruction file of each subject. */
  const InstructionFiles: map<string, string> := map[
    "Diritto amministrativo" := "amministrativo.txt",
    "Logica" := "logica.txt",
    "Quesiti situazionali" := "situazionali.txt",
    "Informatica (TIC)" := "informatica.txt",
    "Inglese A2" := "inglese_a2.txt",
    "Codice dell'Amministrazione Digitale (CAD)" := "cad.txt",
    "Diritto dell'Unione Europea" := "diritto_ue.txt",
    "Contabilità di Stato" := "contabilita_stato.txt",
    "Diritto penale (PA)" := "penale_pa.txt",
    "Lavoro pubblico" := "lavoro_pubblico.txt",
    "Responsabilità del dipendente pubblico" := "responsabilita_dp.txt",
    "Beni culturali" := "beni_culturali.txt",
    "Struttura MIC" := "mic_struttura.txt",
    "Marketing e comunicazione PA" := "marketing_comunicazione.txt",
    "Sicurezza (D.Lgs. 81/2008)" := "sicurezza81.txt",
    "Contratti pubblici" := "contratti_pubblici.txt"
  ]

  /** The seed question bank of each subject. */
  const SeedFiles: map<string, string> := map[
    "Diritto amministrativo" := "seed_amministrativo.jsonl",
    "Logica" := "seed_logica.jsonl",
    "Quesiti situazionali" := "seed_situazionali.jsonl",
    "Informatica (TIC)" := "seed_informatica.jsonl",
    "Inglese A2" := "seed_inglese_a2.jsonl",
    "Codice dell'Amministrazione Digitale (CAD)" := "seed_cad.jsonl",
    "Diritto dell'Unione Europea" := "seed_diritto_ue.jsonl",
    "Contabilità di Stato" := "seed_contabilita_stato.jsonl",
    "Diritto penale (PA)" := "seed_penale_pa.jsonl",
    "Lavoro pubblico" := "seed_lavoro_pubblico.jsonl",
    "Responsabilità del dipendente pubblico" := "seed_responsabilita_dp.jsonl",
    "Beni culturali" := "seed_beni_culturali.jsonl",
    "Struttura MIC" := "seed_mic_struttura.jsonl",
    "Marketing e comunicazione PA" := "seed_marketing_comunicazione.jsonl",
    "Sicurezza (D.Lgs. 81/2008)" := "seed_sicurezza81.jsonl",
    "Contratti pubblici" := "seed_contratti_pubblici.jsonl"
  ]

  /** `subject_to_instruction_filename`: the subject's file, or the logic instructions. */
  function InstructionFilename(subject: string): (name: string)
    ensures subject in InstructionFiles ==> name == InstructionFiles[subject]
    ensures subject !in InstructionFiles ==> name == "logica.txt"
  {
    if subject in InstructionFiles then InstructionFiles[subject] else "logica.txt"
  }

  /** `subject_to_seed_filename`: the subject's bank, or the logic bank. */
  function SeedFilename(subject: string): (name: string)
    ensures subject in SeedFiles ==> name == SeedFiles[subject]
    ensures subject !in SeedFiles ==> name == "seed_logica.jsonl"
  {
    if subject in SeedFiles then SeedFiles[subject] else "seed_logica.jsonl"
  }

  /** The two tables list the same subjects, and those are exactly the subjects the tutor table routes. */
  lemma TablesAgree()
    ensures InstructionFiles.Keys == SeedFiles.Keys
    ensures InstructionFiles.Keys == TutorRouter.TutorBySubject.Keys
  {
  }

  /** An unknown subject gets the logic instructions and the logic bank, a matching pair. */
  lemma UnknownSubjectFallsBackToLogic(subject: string)
    requires subject !in InstructionFiles
    ensures InstructionFilename(subject) == InstructionFilename("Logica")
    ensures SeedFilename(subject) == SeedFilename("Logica")
  {
    TablesAgree();
  }

  /** Why `rng.sample` raises: a negative sample size. */
  datatype SampleError = NegativeSampleSize

  /**
   * The pool draw `random.sample` performs: the generator's `k`-th number picks a slot of
   * the remaining pool, whose element is taken and replaced by the pool's last element.
   */
  function PoolDraw(pool: seq<nat>, k: nat, draw: nat -> nat, step: nat): (picked: seq<nat>)
    requires k <= |pool|
    ensures |picked| == k
    decreases k
  {
    if k == 0 then []
    else
      var j := draw(step) % |pool|;
      var rest := pool[j := pool[|pool| - 1]][..|pool| - 1];
      [pool[j]] + PoolDraw(rest, k - 1, draw, step + 1)
  }

  predicate Distinct(xs: seq<nat>) {
    forall i, j :: 0 <= i < j < |xs| ==> xs[i] != xs[j]
  }

  /** Taking a slot out of a pool of distinct elements leaves exactly the others. */
  lemma RemoveSlot(pool: seq<nat>, j: nat)
    requires Distinct(pool) && j < |pool|
    ensures var rest := pool[j := pool[|pool| - 1]][..|pool| - 1];
      Distinct(rest) && forall x :: x in rest <==> x in pool && x != pool[j]
  {
    var rest := pool[j := pool[|pool| - 1]][..|pool| - 1];
    forall x | x in pool && x != pool[j]
      ensures x in rest
    {
      var i :| 0 <= i < |pool| && pool[i] == x;
      if i == |pool| - 1 {
        assert rest[j] == x;
      } else {
        assert rest[i] == x;
      }
    }
  }

  /** The pool draw takes distinct elements of the pool. */
  lemma {:induction false} PoolDrawDistinct(pool: seq<nat>, k: nat, draw: nat -> nat, step: nat)
    requires k <= |pool| && Distinct(pool)
    ensures Distinct(PoolDraw(pool, k, draw, step))
    ensures forall x :: x in PoolDraw(pool, k, draw, step) ==> x in pool
    decreases k
  {
    if k > 0 {
      var j := draw(step) % |pool|;
      var rest := pool[j := pool[|pool| - 1]][..|pool| - 1];
      RemoveSlot(pool, j);
      PoolDrawDistinct(rest, k - 1, draw, step + 1);
      var tail := PoolDraw(rest, k - 1, draw, step + 1);
      assert PoolDraw(pool, k, draw, step) == [pool[j]] + tail;
      assert pool[j] !in tail;
    }
  }

  /** The positions 0, 1, ..., n - 1. */
  function Positions(n: nat): (ps: seq<nat>)
    ensures |ps| == n && forall i :: 0 <= i < n ==> ps[i] == i
  {
    seq(n, i requires 0 <= i => i as nat)
  }

  /** Where `rng.sample(rows, k)` takes its rows from. */
  function SamplePositions(n: nat, k: nat, draw: nat -> nat): (ps: seq<nat>)
    requires k <= n
    ensures |ps| == k
  {
    PoolDraw(Positions(n), k, draw, 0)
  }

  /** `k` different positions of the rows, all in range. */
  lemma SamplePositionsDistinct(n: nat, k: nat, draw: nat -> nat)
    requires k <= n
    ensures Distinct(SamplePositions(n, k, draw))
    ensures forall i :: 0 <= i < k ==> SamplePositions(n, k, draw)[i] < n
  {
    PoolDrawDistinct(Positions(n), k, draw, 0);
    forall i | 0 <= i < k
      ensures SamplePositions(n, k, draw)[i] < n
    {
      assert SamplePositions(n, k, draw)[i] in Positions(n);
    }
  }

  /**
   * `_sample`: nothing from no rows; every row when there are at most `k`; otherwise the
   * rows at the drawn positions, and `rng.sample` raises for a negative `k`.
   */
  function Sample<T>(rows: seq<T>, k: int, draw: nat -> nat): (r: Result<seq<T>, SampleError>)
    ensures r.Failure? <==> rows != [] && k < 0
    ensures rows == [] ==> r == Success([])
    ensures rows != [] && |rows| <= k ==> r == Success(rows)
    ensures rows != [] && 0 <= k < |rows| ==> r.Success? && |r.value| == k
  {
    if rows == [] then Success([])
    else if |rows| <= k then Success(rows)
    else if k < 0 then Failure(NegativeSampleSize)
    else
      var ps := SamplePositions(|rows|, k, draw);
      SamplePositionsDistinct(|rows|, k, draw);
      Success(seq(k, i requires 0 <= i < k => rows[ps[i]]))
  }

  /** A proper sample takes `k` rows from `k` different positions. */
  lemma SampleFromDistinctPositions<T>(rows: seq<T>, k: int, draw: nat -> nat)
    requires 0 <= k < |rows|
    ensures var ps := SamplePositions(|rows|, k, draw);
      Distinct(ps) && forall i :: 0 <= i < k ==> ps[i] < |rows| && Sample(rows, k, draw).value[i] == rows[ps[i]]
  {
    SamplePositionsDistinct(|rows|, k, draw);
  }

  const FewShotHeader: string := "ESEMPI (solo stile, NON copiare e NON ripetere):\n"

  /** The style-example block from the sampled rows, each already rendered as one JSON line. */
  function FewShotBlock(examples: seq<string>): (block: string)
    ensures block == "" <==> examples == []
    ensures examples != [] ==> block == FewShotHeader + JoinWith("\n", examples)
  {
    if examples == [] then "" else FewShotHeader + JoinWith("\n", examples)
  }

  const StrictText: string :=
    "VINCOLO FORTISSIMO:\n" +
    "- Rispondi SOLO con JSON valido.\n" +
    "- Vietato testo extra, vietati backticks, vietati commenti.\n" +
    "- Nessuna spiegazione fuori dal JSON.\n"

  /** The strict-output block: present exactly when the configuration asks for it. */
  function StrictBlock(cfg: PromptBuildConfig): (block: string)
    ensures block != "" <==> cfg.strictJsonOnly
  {
    if cfg.strictJsonOnly then StrictText else ""
  }

  /** The variable parts of a question prompt. */
  datatype PromptParts = PromptParts(instructionFile: string, seedFile: string, strict: string, fewShot: string)

  /**
   * The selections `build_question_prompt` makes: the subject's two files, the strict block,
   * and the style examples drawn from the bank's rows (given already rendered).
   */
  function QuestionPromptParts(subject: string, cfg: PromptBuildConfig, seedRows: seq<string>, draw: nat -> nat)
    : (r: Result<PromptParts, SampleError>)
    ensures r.Failure? <==> seedRows != [] && cfg.seedPerPrompt < 0
    ensures r.Success? ==>
      r.value.instructionFile == InstructionFilename(subject) && r.value.seedFile == SeedFilename(subject) &&
      (r.value.strict != "" <==> cfg.strictJsonOnly) &&
      (r.value.fewShot == "" <==> seedRows == [] || cfg.seedPerPrompt == 0)
  {
    var fewShot :- Sample(seedRows, cfg.seedPerPrompt, draw);
    Success(PromptParts(InstructionFilename(subject), SeedFilename(subject), StrictBlock(cfg), FewShotBlock(fewShot)))
  }
}
