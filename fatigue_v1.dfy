/**
 * The v1.0 aesthetic-fatigue engine (`aesthetic_fatigue_system.py` at the
 * repository root): five dimensions fused into one index, with a bounded,
 * time-pruned history of casts as its only state.
 */
module FatigueV1 {
  import opened Wrappers
  import opened Numerics
  import FatigueMath
  import opened FatigueCore

  datatype FatigueConfig = FatigueConfig(
    windowDuration: real,
    maxHistorySize: nat,
    decayHalfLife: real,
    weightPitch: real, weightTransition: real, weightRhythm: real, weightRecurrence: real, weightChord: real,
    thresholds: Thresholds,
    penalty: PenaltyConfig,
    ngramSizes: seq<nat>,
    rhythmQuantizeBins: int,
    rhythmMaxInterval: real)

  /** The dataclass defaults. */
  const DefaultConfig := FatigueConfig(15.0, 64, 5.0, 0.30, 0.25, 0.20, 0.15, 0.10,
                                       DefaultThresholds, DefaultPenalty, [2, 3, 4], 8, 2.0)

  /** The two divisors the engine uses (half-life and maximum interval) are non-zero. */
  predicate ValidConfig(cfg: FatigueConfig)
  {
    cfg.decayHalfLife != 0.0 && cfg.rhythmMaxInterval != 0.0
  }

  datatype FatigueComponents = FatigueComponents(
    pitchEntropy: real, pitchFatigue: real,
    transitionEntropy: real, transitionFatigue: real,
    rhythmEntropy: real, rhythmFatigue: real,
    recurrenceRate: real,
    chordDiversity: real, chordFatigue: real)

  /** `FatigueComponents()`. */
  const DefaultComponents := FatigueComponents(1.0, 0.0, 1.0, 0.0, 1.0, 0.0, 0.0, 1.0, 0.0)

  datatype FatigueResult = FatigueResult(
    fatigueIndex: real,
    level: FatigueLevel,
    components: FatigueComponents,
    penalty: PenaltyEffect,
    noteSpecificFatigue: real,
    suggestions: seq<Suggestion>)

  /** The answer for a history of fewer than three casts. */
  const IdleResult := FatigueResult(0.0, NoFatigue, DefaultComponents, NoPenalty, 0.0, [])

  /** The five per-dimension values of a history. */
  function Components(cfg: FatigueConfig, h: seq<SpellEvent>, now: real, log2: real -> real,
                      exp2: real -> real): (c: FatigueComponents)
    requires ValidConfig(cfg)
    ensures c.pitchFatigue == 1.0 - c.pitchEntropy
    ensures c.transitionFatigue == 1.0 - c.transitionEntropy
    ensures c.rhythmEntropy == 1.0 - c.rhythmFatigue
    ensures c.chordDiversity == 1.0 - c.chordFatigue
    ensures 0.0 <= c.recurrenceRate < 1.0
  {
    var decay := Decay(cfg.decayHalfLife, exp2);
    var pitchEntropy := FatigueMath.WeightedShannonEntropy(PitchEvents(h), decay, now, log2);
    var transEntropy := FatigueMath.TransitionEntropy(NoteSequence(h), 12, log2);
    var rhythmF := RhythmFatigue(h, cfg.rhythmQuantizeBins, cfg.rhythmMaxInterval, decay, now, log2);
    var recurrence := Recurrence(NoteSequence(h), cfg.ngramSizes);
    var chordF := ChordFatigue(h, decay, now, log2);
    FatigueComponents(pitchEntropy, 1.0 - pitchEntropy, transEntropy, 1.0 - transEntropy,
                      1.0 - rhythmF, rhythmF, recurrence, 1.0 - chordF, chordF)
  }

  /** The weights of the five dimensions are non-negative. */
  predicate WeightsNonneg(cfg: FatigueConfig)
  {
    && cfg.weightPitch >= 0.0 && cfg.weightTransition >= 0.0 && cfg.weightRhythm >= 0.0
    && cfg.weightRecurrence >= 0.0 && cfg.weightChord >= 0.0
  }

  /** The five fatigue values of a component record lie in [0, 1]. */
  predicate FatiguesInUnit(c: FatigueComponents)
  {
    && 0.0 <= c.pitchFatigue <= 1.0 && 0.0 <= c.transitionFatigue <= 1.0 && 0.0 <= c.rhythmFatigue <= 1.0
    && 0.0 <= c.recurrenceRate <= 1.0 && 0.0 <= c.chordFatigue <= 1.0
  }

  /**
   * The AFI formula before clamping: the weighted sum of the five fatigues. With
   * non-negative weights and fatigues in [0, 1] it lies between 0 and the weight
   * total, so with the default weights, which add up to 1, the clamp changes nothing.
   */
  function Fuse(cfg: FatigueConfig, c: FatigueComponents): (r: real)
    ensures WeightsNonneg(cfg) && FatiguesInUnit(c) ==>
              0.0 <= r <= cfg.weightPitch + cfg.weightTransition + cfg.weightRhythm + cfg.weightRecurrence
                          + cfg.weightChord
  {
    Weighted(cfg.weightPitch, c.pitchFatigue) + Weighted(cfg.weightTransition, c.transitionFatigue)
    + Weighted(cfg.weightRhythm, c.rhythmFatigue) + Weighted(cfg.weightRecurrence, c.recurrenceRate)
    + Weighted(cfg.weightChord, c.chordFatigue)
  }

  /** `_generate_recovery_suggestions`: pitch, transition, rhythm, recurrence, chord, each above 0.5. */
  function Suggestions(c: FatigueComponents, h: seq<SpellEvent>, decay: real -> real, now: real): (s: seq<Suggestion>)
    ensures InFixedOrder(s)
    ensures Slots(s) == SlotIf(c.pitchFatigue > 0.5, 3) + (SlotIf(c.transitionFatigue > 0.5, 4)
                        + (SlotIf(c.rhythmFatigue > 0.5, 5) + (SlotIf(c.recurrenceRate > 0.5, 6)
                        + SlotIf(c.chordFatigue > 0.5, 7))))
    ensures s == [] <==> c.pitchFatigue <= 0.5 && c.transitionFatigue <= 0.5 && c.rhythmFatigue <= 0.5
                         && c.recurrenceRate <= 0.5 && c.chordFatigue <= 0.5
    ensures |s| <= 5
  {
    var items := CoreHintItems(c.pitchFatigue, c.transitionFatigue, c.rhythmFatigue, c.recurrenceRate,
                               c.chordFatigue, PitchHint(h, decay, now));
    CoreHintItemsFacts(c.pitchFatigue, c.transitionFatigue, c.rhythmFatigue, c.recurrenceRate,
                       c.chordFatigue, PitchHint(h, decay, now));
    HintsFacts(items);
    Hints(items)
  }

  /** `_compute_fatigue`. */
  function ComputeFatigue(cfg: FatigueConfig, h: seq<SpellEvent>, now: real, target: Option<Note>,
                          log2: real -> real, exp2: real -> real): (r: FatigueResult)
    requires ValidConfig(cfg)
    ensures |h| < 3 ==> r == IdleResult
    ensures |h| >= 3 ==> r.components == Components(cfg, h, now, log2, exp2)
    ensures |h| >= 3 ==> r.fatigueIndex == Clamp01(Fuse(cfg, r.components))
    ensures 0.0 <= r.fatigueIndex <= 1.0
    ensures |h| >= 3 ==> r.level == IndexToLevel(cfg.thresholds, r.fatigueIndex)
    ensures r.penalty == ComputePenalty(cfg.penalty, r.fatigueIndex, r.level)
    ensures |h| >= 3 ==> r.suggestions == Suggestions(r.components, h, Decay(cfg.decayHalfLife, exp2), now)
    ensures target.None? ==> r.noteSpecificFatigue == 0.0
    ensures target.Some? && |h| >= 3 ==>
              r.noteSpecificFatigue == NoteSpecificFatigue(h, target.value, Decay(cfg.decayHalfLife, exp2), now)
  {
    if |h| < 3 then IdleResult
    else
      var decay := Decay(cfg.decayHalfLife, exp2);
      var c := Components(cfg, h, now, log2, exp2);
      var afi := Clamp01(Fuse(cfg, c));
      var level := IndexToLevel(cfg.thresholds, afi);
      var noteFatigue := if target.Some? then NoteSpecificFatigue(h, target.value, decay, now) else 0.0;
      FatigueResult(afi, level, c, ComputePenalty(cfg.penalty, afi, level), noteFatigue,
                    Suggestions(c, h, decay, now))
  }

  /**
   * With a positive half-life and the laws of log2 and exp2, every fatigue the
   * engine reports is at most 1, recurrence is in [0, 1) and per-note fatigue in [0, 1].
   */
  lemma ComputeFatigueRanges(cfg: FatigueConfig, h: seq<SpellEvent>, now: real, target: Option<Note>,
                             log2: real -> real, exp2: real -> real)
    requires ValidConfig(cfg) && cfg.decayHalfLife > 0.0
    requires Log2Law(log2) && Exp2Law(exp2)
    ensures var r := ComputeFatigue(cfg, h, now, target, log2, exp2);
      && r.components.pitchFatigue <= 1.0
      && r.components.transitionFatigue <= 1.0
      && r.components.rhythmFatigue <= 1.0
      && r.components.chordFatigue <= 1.0
      && 0.0 <= r.components.recurrenceRate < 1.0
      && 0.0 <= r.noteSpecificFatigue <= 1.0
  {
    var decay := Decay(cfg.decayHalfLife, exp2);
    DecayIsInUnit(cfg.decayHalfLife, exp2);
    EntropyFatiguesAtMostOne(h, cfg.rhythmQuantizeBins, cfg.rhythmMaxInterval, decay, now, log2);
    if target.Some? {
      NoteSpecificFatigueRange(h, target.value, decay, now);
    }
  }

  /**
   * A run of at least three casts of one note, none of them a chord, is fully
   * monotonous in pitch, transition and chord, and all three of those hints fire.
   */
  lemma OneNoteRunIsMonotonous(cfg: FatigueConfig, h: seq<SpellEvent>, now: real, target: Option<Note>,
                               log2: real -> real, exp2: real -> real, n: Note)
    requires ValidConfig(cfg) && Log2Law(log2)
    requires |h| >= 3
    requires forall i :: 0 <= i < |h| ==> h[i].note == n && h[i].chordType.None?
    ensures ComputeFatigue(cfg, h, now, target, log2, exp2).components.pitchFatigue == 1.0
    ensures ComputeFatigue(cfg, h, now, target, log2, exp2).components.transitionFatigue == 1.0
    ensures ComputeFatigue(cfg, h, now, target, log2, exp2).components.chordFatigue == 1.0
    ensures {3, 4, 7} <= Slots(ComputeFatigue(cfg, h, now, target, log2, exp2).suggestions)
  {
    var decay := Decay(cfg.decayHalfLife, exp2);
    PitchFatigueSingleNote(h, decay, now, log2, n);
    TransitionFatigueSingleNote(h, log2, n);
    ChordFatigueSingleType(h, decay, now, log2, "none");
    var c := Components(cfg, h, now, log2, exp2);
    assert c.pitchFatigue == 1.0 && c.transitionFatigue == 1.0 && c.chordFatigue == 1.0;
    var r := ComputeFatigue(cfg, h, now, target, log2, exp2);
    assert r.components == c;
    var slots := Slots(r.suggestions);
    assert slots == {3} + ({4} + (SlotIf(c.rhythmFatigue > 0.5, 5) + (SlotIf(c.recurrenceRate > 0.5, 6) + {7})));
    assert 3 in slots && 4 in slots && 7 in slots;
  }

  // ---------------------------------------------------------------------------
  // The engine

  class Engine {
    const config: FatigueConfig
    /** `math.log2` and `x => math.pow(2.0, x)`. */
    const log2: real -> real
    const exp2: real -> real

    /** `_history`: the retained casts, oldest first. */
    var history: seq<SpellEvent>
    /** `_per_note_fatigue` and `_last_diversity_notes`: declared and cleared, never read. */
    var perNoteFatigue: map<Note, real>
    var lastDiversityNotes: set<Note>

    /** The history is in time order and within the deque's capacity. */
    ghost predicate Valid()
      reads this
    {
      ValidConfig(config) && Sorted(history) && |history| <= config.maxHistorySize
    }

    constructor(config: FatigueConfig, log2: real -> real, exp2: real -> real)
      requires ValidConfig(config)
      ensures Valid()
      ensures this.config == config && this.log2 == log2 && this.exp2 == exp2
      ensures history == [] && perNoteFatigue == map[] && lastDiversityNotes == {}
    {
      this.config := config;
      this.log2 := log2;
      this.exp2 := exp2;
      history := [];
      perNoteFatigue := map[];
      lastDiversityNotes := {};
    }

    /** `record_spell`: append (evicting past capacity), prune at the cast's time, compute. */
    method RecordSpell(event: SpellEvent) returns (r: FatigueResult)
      requires Valid()
      requires NotAfter(history, event.timestamp)
      modifies this`history
      ensures Valid()
      ensures history == Pruned(BoundedAppend(old(history), event, config.maxHistorySize),
                                event.timestamp - config.windowDuration)
      ensures r == ComputeFatigue(config, history, event.timestamp, Some(event.note), log2, exp2)
    {
      Admit(event);
      r := ComputeFatigue(config, history, event.timestamp, Some(event.note), log2, exp2);
    }

    /** The state change of `record_spell`: the append, then the prune at the cast's time. */
    method Admit(event: SpellEvent)
      requires Valid()
      requires NotAfter(history, event.timestamp)
      modifies this`history
      ensures Valid()
      ensures history == Pruned(BoundedAppend(old(history), event, config.maxHistorySize),
                                event.timestamp - config.windowDuration)
    {
      AppendEvent(event);
      PruneOldEvents(event.timestamp);
    }

    /** `query_fatigue`: prune at the given time, then compute without recording. */
    method QueryFatigue(now: real, target: Option<Note>) returns (r: FatigueResult)
      requires Valid()
      modifies this`history
      ensures Valid()
      ensures history == Pruned(old(history), now - config.windowDuration)
      ensures r == ComputeFatigue(config, history, now, target, log2, exp2)
    {
      PruneOldEvents(now);
      r := ComputeFatigue(config, history, now, target, log2, exp2);
    }

    /** `get_note_fatigue_map`: prune, then the per-note fatigue of every note. */
    method GetNoteFatigueMap(now: real) returns (m: map<Note, real>)
      requires Valid()
      modifies this`history
      ensures Valid()
      ensures history == Pruned(old(history), now - config.windowDuration)
      ensures forall n: Note :: n in m && m[n] == NoteSpecificFatigue(history, n, Decay(config.decayHalfLife, exp2), now)
    {
      PruneOldEvents(now);
      m := NoteFatigueTable(history, Decay(config.decayHalfLife, exp2), now);
    }

    /** `reset`: empty the history and the two unused containers. */
    method Reset()
      requires Valid()
      modifies this
      ensures Valid()
      ensures history == [] && perNoteFatigue == map[] && lastDiversityNotes == {}
    {
      history := [];
      perNoteFatigue := map[];
      lastDiversityNotes := {};
    }

    /** `self._history.append(event)` on a deque with `maxlen`: the oldest cast falls out when full. */
    method AppendEvent(event: SpellEvent)
      requires Valid()
      requires NotAfter(history, event.timestamp)
      modifies this`history
      ensures Valid()
      ensures history == BoundedAppend(old(history), event, config.maxHistorySize)
    {
      BoundedAppendSorted(history, event, config.maxHistorySize);
      history := BoundedAppend(history, event, config.maxHistorySize);
    }

    /** `_prune_old_events`: pop from the front while the oldest cast is before the cutoff. */
    method PruneOldEvents(now: real)
      requires Valid()
      modifies this`history
      ensures Valid()
      ensures history == Pruned(old(history), now - config.windowDuration)
      ensures forall i :: 0 <= i < |history| ==> history[i].timestamp >= now - config.windowDuration
    {
      var cutoff := now - config.windowDuration;
      PrunedRecent(history, cutoff);
      var kept := PopStale(history, cutoff);
      assert |kept| <= |history| <= config.maxHistorySize;
      history := kept;
    }
  }
}
