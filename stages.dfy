/**
 * Per-tutor progression. A correct answer adds one to the tutor's progress and recomputes
 * the stage from the progress band; any other outcome keeps progress and lowers the stage
 * by one, never below the floor.
 */
module Stages {
  import opened Wrappers
  import opened Models

  /** `StageUpdate`, the frozen record `apply_outcome` returns. */
  datatype StageUpdate = StageUpdate(
    tutor: Tutor,
    oldProgress: int,
    oldStage: int,
    newProgress: int,
    newStage: int,
    isPunish: bool)

  /** Why the constructor raises ValueError. */
  datatype StageError = NonPositiveStep

  function Max(a: int, b: int): int { if a >= b then a else b }
  function Min(a: int, b: int): int { if a <= b then a else b }

  /**
   * `_stage_from_progress`: one stage per `step` correct answers above the floor, clamped
   * to [minStage, maxStage]; the floor wins when the bounds are inverted.
   */
  function StageFromProgress(progress: int, step: int, minStage: int, maxStage: int): (s: int)
    requires step > 0
    ensures s >= minStage
    ensures minStage <= maxStage ==> s <= maxStage
    ensures progress <= 0 ==> s == minStage
  {
    var raw := minStage + Max(0, progress) / step;
    Max(minStage, Min(maxStage, raw))
  }

  /** Dividing by a positive step keeps the order of non-negative numerators. */
  lemma DivMonotone(a: nat, b: nat, step: int)
    requires step > 0 && a <= b
    ensures a / step <= b / step
  {
    var qa, qb := a / step, b / step;
    assert qa * step <= a;
    assert b < (qb + 1) * step;
    MulCancel(qa, qb + 1, step);
  }

  /** A positive factor can be cancelled from a strict inequality between products. */
  lemma MulCancel(x: int, y: int, step: int)
    requires step > 0 && x * step < y * step
    ensures x < y
  {
  }

  /** More progress never means a lower stage. */
  lemma StageMonotone(p1: int, p2: int, step: int, minStage: int, maxStage: int)
    requires step > 0 && p1 <= p2
    ensures StageFromProgress(p1, step, minStage, maxStage) <= StageFromProgress(p2, step, minStage, maxStage)
  {
    DivMonotone(Max(0, p1), Max(0, p2), step);
  }

  /** Under the defaults (step 10, stages 1 to 5) every ten correct answers raise the stage by one, up to 5. */
  lemma DefaultBands(p: nat)
    ensures StageFromProgress(p, 10, 1, 5) == if p >= 40 then 5 else 1 + p / 10
  {
    if p >= 40 {
      DivMonotone(40, p, 10);
    }
  }

  /** The value `d.get(tutor, default)` yields. */
  function GetOr(d: map<Tutor, int>, t: Tutor, default: int): int {
    if t in d then d[t] else default
  }

  /** The update `apply_outcome` computes from the current maps. */
  function NextUpdate(progress: map<Tutor, int>, stage: map<Tutor, int>, tutor: Tutor, outcome: Outcome,
                      step: int, minStage: int, maxStage: int): (u: StageUpdate)
    requires step > 0
    ensures u.tutor == tutor
    ensures u.oldProgress == GetOr(progress, tutor, 0) && u.oldStage == GetOr(stage, tutor, minStage)
    ensures u.isPunish <==> outcome != Corretta
    ensures outcome == Corretta ==> u.newProgress == u.oldProgress + 1
    ensures outcome != Corretta ==> u.newProgress == u.oldProgress
    ensures outcome != Corretta ==> u.newStage == Max(minStage, u.oldStage - 1)
  {
    var oldProgress := GetOr(progress, tutor, 0);
    var oldStage := GetOr(stage, tutor, minStage);
    if outcome == Corretta then
      StageUpdate(tutor, oldProgress, oldStage, oldProgress + 1,
                  StageFromProgress(oldProgress + 1, step, minStage, maxStage), false)
    else
      StageUpdate(tutor, oldProgress, oldStage, oldProgress, Max(minStage, oldStage - 1), true)
  }

  /** A correct answer recomputes the stage from progress alone, so an earlier punishment is forgotten. */
  lemma CorrectRecomputesStage(progress: map<Tutor, int>, stage: map<Tutor, int>, tutor: Tutor,
                               step: int, minStage: int, maxStage: int)
    requires step > 0
    ensures var u := NextUpdate(progress, stage, tutor, Corretta, step, minStage, maxStage);
      u.newStage == StageFromProgress(u.newProgress, step, minStage, maxStage) &&
      u.newStage >= StageFromProgress(u.oldProgress, step, minStage, maxStage)
  {
    var p := GetOr(progress, tutor, 0);
    StageMonotone(p, p + 1, step, minStage, maxStage);
  }

  /** A stage within [minStage, maxStage] stays within it, whatever the outcome. */
  lemma StageRangePreserved(progress: map<Tutor, int>, stage: map<Tutor, int>, tutor: Tutor, outcome: Outcome,
                            step: int, minStage: int, maxStage: int)
    requires step > 0 && minStage <= maxStage
    requires minStage <= GetOr(stage, tutor, minStage) <= maxStage
    ensures var u := NextUpdate(progress, stage, tutor, outcome, step, minStage, maxStage);
      minStage <= u.newStage <= maxStage
  {
  }

  /** A wrong or omitted answer never raises the stage, and lowers it by one above the floor. */
  lemma PunishLowersStage(progress: map<Tutor, int>, stage: map<Tutor, int>, tutor: Tutor, outcome: Outcome,
                          step: int, minStage: int, maxStage: int)
    requires step > 0 && outcome != Corretta
    ensures var u := NextUpdate(progress, stage, tutor, outcome, step, minStage, maxStage);
      u.newStage <= Max(minStage, u.oldStage) &&
      (u.oldStage > minStage ==> u.newStage == u.oldStage - 1)
  {
  }

  /** `StageManager`: the band width and the stage bounds, fixed at construction. */
  class StageManager {
    const step: int
    const minStage: int
    const maxStage: int

    /** Every manager the constructor admits has a positive step. */
    predicate Valid() {
      step > 0
    }

    constructor (step: int, minStage: int, maxStage: int)
      requires step > 0
      ensures this.step == step && this.minStage == minStage && this.maxStage == maxStage
      ensures Valid()
    {
      this.step := step;
      this.minStage := minStage;
      this.maxStage := maxStage;
    }

    /**
     * `apply_outcome`: reads the tutor's entries (0 and minStage when missing), writes the
     * two new values back into the state's maps, and touches no other field or tutor.
     */
    method ApplyOutcome(state: SessionState, tutor: Tutor, outcome: Outcome) returns (u: StageUpdate)
      requires Valid()
      modifies state
      ensures u == NextUpdate(old(state.progress), old(state.stage), tutor, outcome, step, minStage, maxStage)
      ensures state.progress == old(state.progress)[tutor := u.newProgress]
      ensures state.stage == old(state.stage)[tutor := u.newStage]
      ensures (state.progress, state.stage) == Replay(old(state.progress), old(state.stage), tutor, [outcome], step, minStage, maxStage)
      ensures state.questionIndex == old(state.questionIndex) && state.totalQuestions == old(state.totalQuestions)
      ensures state.timeLeftSec == old(state.timeLeftSec) && state.score == old(state.score)
      ensures state.recentFingerprints == old(state.recentFingerprints) && state.recentMax == old(state.recentMax)
    {
      var oldProgress := GetOr(state.progress, tutor, 0);
      var oldStage := GetOr(state.stage, tutor, minStage);
      var isPunish := outcome != Corretta;
      var newProgress, newStage;
      if outcome == Corretta {
        newProgress := oldProgress + 1;
        newStage := StageFromProgress(newProgress, step, minStage, maxStage);
      } else {
        newProgress := oldProgress;
        newStage := Max(minStage, oldStage - 1);
      }
      state.progress := state.progress[tutor := newProgress];
      state.stage := state.stage[tutor := newStage];
      u := StageUpdate(tutor, oldProgress, oldStage, newProgress, newStage, isPunish);
    }
  }

  /** `StageManager(step, min_stage, max_stage)`: ValueError unless the step is positive. */
  method NewStageManager(step: int, minStage: int, maxStage: int) returns (r: Result<StageManager, StageError>)
    ensures r.Failure? <==> step <= 0
    ensures r.Success? ==> fresh(r.value) && r.value.Valid()
    ensures r.Success? ==> r.value.step == step && r.value.minStage == minStage && r.value.maxStage == maxStage
  {
    if step <= 0 {
      return Failure(NonPositiveStep);
    }
    var m := new StageManager(step, minStage, maxStage);
    return Success(m);
  }

  /** The two maps after `apply_outcome` has run for one tutor on each outcome in turn. */
  function Replay(progress: map<Tutor, int>, stage: map<Tutor, int>, tutor: Tutor, outcomes: seq<Outcome>,
                  step: int, minStage: int, maxStage: int): (map<Tutor, int>, map<Tutor, int>)
    requires step > 0
    decreases |outcomes|
  {
    if outcomes == [] then (progress, stage)
    else
      var u := NextUpdate(progress, stage, tutor, outcomes[0], step, minStage, maxStage);
      Replay(progress[tutor := u.newProgress], stage[tutor := u.newStage], tutor, outcomes[1..],
             step, minStage, maxStage)
  }

  /** How many of the outcomes are `corretta`. */
  function CorrectCount(outcomes: seq<Outcome>): nat {
    if outcomes == [] then 0 else (if outcomes[0] == Corretta then 1 else 0) + CorrectCount(outcomes[1..])
  }

  /**
   * Over any run of outcomes, the tutor's progress grows by exactly the number of correct
   * answers, and every other tutor's progress and stage read as before.
   */
  lemma {:induction false} ReplayCountsCorrect(progress: map<Tutor, int>, stage: map<Tutor, int>, tutor: Tutor,
                                               outcomes: seq<Outcome>, step: int, minStage: int, maxStage: int)
    requires step > 0
    ensures var after := Replay(progress, stage, tutor, outcomes, step, minStage, maxStage);
      GetOr(after.0, tutor, 0) == GetOr(progress, tutor, 0) + CorrectCount(outcomes) &&
      forall other :: other != tutor ==>
        GetOr(after.0, other, 0) == GetOr(progress, other, 0) && GetOr(after.1, other, minStage) == GetOr(stage, other, minStage)
    decreases |outcomes|
  {
    if outcomes != [] {
      var u := NextUpdate(progress, stage, tutor, outcomes[0], step, minStage, maxStage);
      ReplayCountsCorrect(progress[tutor := u.newProgress], stage[tutor := u.newStage], tutor, outcomes[1..],
                          step, minStage, maxStage);
    }
  }

  /** Over any run of outcomes, a stage that starts within [minStage, maxStage] stays within it. */
  lemma {:induction false} ReplayStageInRange(progress: map<Tutor, int>, stage: map<Tutor, int>, tutor: Tutor,
                                              outcomes: seq<Outcome>, step: int, minStage: int, maxStage: int)
    requires step > 0 && minStage <= maxStage
    requires minStage <= GetOr(stage, tutor, minStage) <= maxStage
    ensures minStage <= GetOr(Replay(progress, stage, tutor, outcomes, step, minStage, maxStage).1, tutor, minStage) <= maxStage
    decreases |outcomes|
  {
    if outcomes != [] {
      var u := NextUpdate(progress, stage, tutor, outcomes[0], step, minStage, maxStage);
      StageRangePreserved(progress, stage, tutor, outcomes[0], step, minStage, maxStage);
      ReplayStageInRange(progress[tutor := u.newProgress], stage[tutor := u.newStage], tutor, outcomes[1..],
                         step, minStage, maxStage);
    }
  }
}
