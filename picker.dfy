/**
 * The weighted subject draw with a soft reroll against recent repeats. The seeded
 * generator is an oracle: an infinite stream of numbers, each one picking a subject
 * index; which indices are likely is not modelled.
 */
module Picker {
  import opened Wrappers

  /** `SubjectPickerConfig`: weights in insertion order, the repeat window and the reroll budget. */
  datatype PickerConfig = PickerConfig(weights: seq<(string, real)>, avoidRepeatWindow: int, softRerollAttempts: int)

  /** Why `random.choices` raises: no subjects at all, or weights that do not add up to anything. */
  datatype PickError = EmptyPopulation | NonPositiveTotal

  /** `list(weights.keys())`. */
  function Keys(weights: seq<(string, real)>): (ks: seq<string>)
    ensures |ks| == |weights|
    ensures forall i :: 0 <= i < |ks| ==> ks[i] == weights[i].0
  {
    seq(|weights|, i requires 0 <= i < |weights| => weights[i].0)
  }

  function Total(weights: seq<(string, real)>): real {
    if weights == [] then 0.0 else weights[0].1 + Total(weights[1..])
  }

  /** Every weight is positive, so the total is too. */
  lemma PositiveTotal(weights: seq<(string, real)>)
    requires weights != [] && forall i :: 0 <= i < |weights| ==> weights[i].1 > 0.0
    ensures Total(weights) > 0.0
  {
    if |weights| > 1 {
      PositiveTotal(weights[1..]);
    }
  }

  /** `DEFAULT_WEIGHTS`, in the order the dictionary literal lists them. */
  const DefaultWeights: seq<(string, real)> := [
    ("Logica", 7.0),
    ("Quesiti situazionali", 8.0),
    ("Informatica (TIC)", 2.0),
    ("Inglese A2", 2.0),
    ("Diritto amministrativo", 6.0),
    ("Contratti pubblici", 3.0),
    ("Sicurezza (D.Lgs. 81/2008)", 4.0),
    ("Diritto penale (PA)", 3.0),
    ("Lavoro pubblico", 3.0),
    ("Responsabilità del dipendente pubblico", 2.0),
    ("Beni culturali", 4.0),
    ("Struttura MIC", 2.0),
    ("Diritto dell'Unione Europea", 2.0),
    ("Marketing e comunicazione PA", 2.0),
    ("Codice dell'Amministrazione Digitale (CAD)", 2.0),
    ("Contabilità di Stato", 2.0)
  ]

  /** `SubjectPickerConfig(weights=dict(DEFAULT_WEIGHTS))`. */
  const DefaultPickerConfig: PickerConfig := PickerConfig(DefaultWeights, 2, 3)

  /** The default table has sixteen subjects, all with a positive weight, so the draw never raises. */
  lemma DefaultConfigShape()
    ensures |DefaultPickerConfig.weights| == 16
    ensures forall i :: 0 <= i < 16 ==> DefaultPickerConfig.weights[i].1 > 0.0
    ensures Total(DefaultPickerConfig.weights) > 0.0
    ensures DefaultPickerConfig.avoidRepeatWindow == 2 && DefaultPickerConfig.softRerollAttempts == 3
  {
    PositiveTotal(DefaultWeights);
  }

  /**
   * `recent[-w:]`: the last `w` entries for positive `w`; `-0` is `0`, so the whole list
   * for `w == 0`; and for negative `w` everything from index `-w` on.
   */
  function LastWindow(recent: seq<string>, w: int): (r: seq<string>)
    ensures |r| <= |recent| && r == recent[|recent| - |r|..]
    ensures w > 0 ==> |r| == (if w <= |recent| then w else |recent|)
    ensures w == 0 ==> r == recent
    ensures w < 0 ==> |r| == (if -w <= |recent| then |recent| + w else 0)
  {
    if w > 0 then (if w <= |recent| then recent[|recent| - w..] else recent)
    else if w == 0 then recent
    else if -w <= |recent| then recent[-w..]
    else []
  }

  /** `set(recent[-window:])`, with `None` read as the empty list. */
  function AvoidSet(recent: Option<seq<string>>, window: int): (avoid: set<string>)
    ensures recent.None? || recent.value == [] ==> avoid == {}
    ensures recent.Some? ==> forall s :: s in avoid ==> s in recent.value
  {
    var r := if recent.None? then [] else recent.value;
    set i | 0 <= i < |LastWindow(r, window)| :: LastWindow(r, window)[i]
  }

  /** The subject the generator's `k`-th number selects. */
  function Draw(keys: seq<string>, stream: nat -> nat, k: nat): (s: string)
    requires keys != []
    ensures s in keys
  {
    keys[stream(k) % |keys|]
  }

  /**
   * The soft reroll: draws until one lands outside `avoid`, at most `attempts` times, then
   * takes one more draw unchecked. Returns the subject and the next stream position.
   */
  function Reroll(keys: seq<string>, avoid: set<string>, stream: nat -> nat, pos: nat, attempts: int): (r: (string, nat))
    requires keys != []
    decreases if attempts > 0 then attempts else 0
  {
    var c := Draw(keys, stream, pos);
    if attempts <= 0 || c !in avoid then (c, pos + 1)
    else Reroll(keys, avoid, stream, pos + 1, attempts - 1)
  }

  /**
   * What the reroll returns: a subject of the table, after at least one and at most
   * `attempts + 1` draws; every draw before the returned one collided with `avoid`; and
   * a colliding subject is returned only once the attempts are spent.
   */
  lemma {:induction false} RerollSpec(keys: seq<string>, avoid: set<string>, stream: nat -> nat, pos: nat, attempts: int)
    requires keys != []
    ensures var (c, next) := Reroll(keys, avoid, stream, pos, attempts);
      var budget := if attempts > 0 then attempts else 0;
      c in keys && pos < next <= pos + budget + 1 &&
      c == Draw(keys, stream, next - 1) &&
      (forall k :: pos <= k < next - 1 ==> Draw(keys, stream, k) in avoid) &&
      (c in avoid ==> next == pos + budget + 1)
    decreases if attempts > 0 then attempts else 0
  {
    var c := Draw(keys, stream, pos);
    if attempts > 0 && c in avoid {
      RerollSpec(keys, avoid, stream, pos + 1, attempts - 1);
    }
  }

  /** With nothing to avoid the very first draw is returned. */
  lemma RerollNoAvoid(keys: seq<string>, stream: nat -> nat, pos: nat, attempts: int)
    requires keys != []
    ensures Reroll(keys, {}, stream, pos, attempts) == (Draw(keys, stream, pos), pos + 1)
  {
  }

  /** `SubjectPicker`: a configuration and a seeded generator whose position advances with every draw. */
  class SubjectPicker {
    const cfg: PickerConfig
    /** The seeded generator, as the stream of numbers it will produce. */
    const stream: nat -> nat
    var pos: nat

    /** `SubjectPicker(cfg, seed)`: the default table when no configuration is given. */
    constructor (cfg: Option<PickerConfig>, stream: nat -> nat)
      ensures this.cfg == (if cfg.None? then DefaultPickerConfig else cfg.value)
      ensures this.stream == stream && pos == 0
    {
      this.cfg := if cfg.None? then DefaultPickerConfig else cfg.value;
      this.stream := stream;
      pos := 0;
    }

    /**
     * `pick`: raises, consuming nothing, when the table is empty or its total weight is not
     * positive; otherwise the reroll above, advancing the generator by the draws it made.
     */
    method Pick(recent: Option<seq<string>>) returns (r: Result<string, PickError>)
      modifies this
      ensures r.Failure? <==> cfg.weights == [] || Total(cfg.weights) <= 0.0
      ensures r.Failure? ==> pos == old(pos)
      ensures r.Success? ==>
        (r.value, pos) == Reroll(Keys(cfg.weights), AvoidSet(recent, cfg.avoidRepeatWindow), stream, old(pos),
                                 cfg.softRerollAttempts)
    {
      if cfg.weights == [] {
        return Failure(EmptyPopulation);
      }
      if Total(cfg.weights) <= 0.0 {
        return Failure(NonPositiveTotal);
      }
      var avoid := AvoidSet(recent, cfg.avoidRepeatWindow);
      var keys := Keys(cfg.weights);
      var attempts := cfg.softRerollAttempts;
      var k := 0;
      while k < attempts
        invariant 0 <= k <= (if attempts > 0 then attempts else 0)
        invariant Reroll(keys, avoid, stream, old(pos), attempts) == Reroll(keys, avoid, stream, pos, attempts - k)
      {
        var chosen := Draw(keys, stream, pos);
        pos := pos + 1;
        if chosen !in avoid {
          return Success(chosen);
        }
        k := k + 1;
      }
      var last := Draw(keys, stream, pos);
      pos := pos + 1;
      return Success(last);
    }
  }

  /** Whatever the recent list, a successful pick is a subject of the table, after at most `attempts + 1` draws. */
  lemma PickInTable(cfg: PickerConfig, recent: Option<seq<string>>, stream: nat -> nat, pos: nat)
    requires cfg.weights != []
    ensures var (c, next) := Reroll(Keys(cfg.weights), AvoidSet(recent, cfg.avoidRepeatWindow), stream, pos,
                                    cfg.softRerollAttempts);
      (exists i :: 0 <= i < |cfg.weights| && cfg.weights[i].0 == c) &&
      next <= pos + (if cfg.softRerollAttempts > 0 then cfg.softRerollAttempts else 0) + 1
  {
    var keys := Keys(cfg.weights);
    RerollSpec(keys, AvoidSet(recent, cfg.avoidRepeatWindow), stream, pos, cfg.softRerollAttempts);
    var c := Reroll(keys, AvoidSet(recent, cfg.avoidRepeatWindow), stream, pos, cfg.softRerollAttempts).0;
    var i :| 0 <= i < |keys| && keys[i] == c;
    assert cfg.weights[i].0 == c;
  }
}
