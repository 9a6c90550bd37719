/**
 * The v2.0 aesthetic-fatigue engine (`Scripts/aesthetic_fatigue_system.py`): the
 * five original dimensions plus event density, rest deficit and sustained-casting
 * pressure, fused into one index. Beside the bounded history the engine keeps a
 * small sustained-casting state: when the current unbroken run of casts began,
 * when the last cast was, and an accumulated rest time.
 */
module FatigueV2 {
  import opened Wrappers
  import opened Numerics
  import FatigueMath
  import opened FatigueCore

  datatype FatigueConfig = FatigueConfig(
    windowDuration: real,
    maxHistorySize: nat,
    decayHalfLife: real,
    weightPitch: real, weightTransition: real, weightRhythm: real, weightRecurrence: real, weightChord: real,
    weightDensity: real, weightRestDeficit: real, weightSustained: real,
    densityOptimalRate: real, densityMaxRate: real, densityWindow: real,
    restThreshold: real, restIdealRatio: real,
    sustainedOnset: real, sustainedMax: real, sustainedRestReset: real,
    thresholds: Thresholds,
    penalty: PenaltyConfig,
    ngramSizes: seq<nat>,
    rhythmQuantizeBins: int,
    rhythmMaxInterval: real)

  /** The dataclass defaults. */
  const DefaultConfig := FatigueConfig(15.0, 64, 5.0, 0.20, 0.15, 0.10, 0.10, 0.05, 0.20, 0.10, 0.10,
                                       2.0, 6.0, 3.0, 1.5, 0.20, 8.0, 20.0, 1.0,
                                       DefaultThresholds, DefaultPenalty, [2, 3, 4], 8, 2.0)

  /**
   * Every divisor the engine always reaches is non-zero. The ideal rest ratio is
   * divided by only when the rest ratio falls below it, so it is covered by
   * `RestDivisionSafe` instead.
   */
  predicate ValidConfig(cfg: FatigueConfig)
  {
    && cfg.decayHalfLife != 0.0
    && cfg.rhythmMaxInterval != 0.0
    && cfg.densityMaxRate != cfg.densityOptimalRate
    && cfg.sustainedMax != cfg.sustainedOnset
  }

  /**
   * The rest-deficit division is by a non-zero ideal ratio, or is never reached:
   * on a time-ordered history the rest ratio is non-negative (`RestRatioNonneg`),
   * so a zero ideal takes the early `return 0.0`.
   */
  ghost predicate RestDivisionSafe(cfg: FatigueConfig, h: seq<SpellEvent>)
  {
    cfg.restIdealRatio != 0.0 || Sorted(h)
  }

  // ---------------------------------------------------------------------------
  // The linear ramps

  /** `max(0, min(1, (x - lo) / (hi - lo)))` above lo, and 0 at or below it. */
  function Ramp(x: real, lo: real, hi: real): (r: real)
    requires hi != lo
    ensures 0.0 <= r <= 1.0
    ensures x <= lo ==> r == 0.0
  {
    if x <= lo then 0.0 else Clamp01((x - lo) / (hi - lo))
  }

  /** On a rising ramp the value is the linear ratio strictly between the ends and full at or past hi. */
  lemma RampShape(x: real, lo: real, hi: real)
    requires lo < hi
    ensures lo < x < hi ==> Ramp(x, lo, hi) == (x - lo) / (hi - lo) && 0.0 < Ramp(x, lo, hi) < 1.0
    ensures hi <= x ==> Ramp(x, lo, hi) == 1.0
    ensures Ramp(x, lo, hi) > 0.0 <==> lo < x
  {
    RatioBounds(x - lo, hi - lo);
  }

  /** A rising ramp never decreases. */
  lemma RampMonotone(x: real, y: real, lo: real, hi: real)
    requires lo < hi && x <= y
    ensures Ramp(x, lo, hi) <= Ramp(y, lo, hi)
  {
    if lo < x {
      FatigueMath.DivMonotone(x - lo, y - lo, hi - lo);
    }
  }

  // ---------------------------------------------------------------------------
  // Event density

  /** `[e for e in events if e.timestamp >= cutoff]`. */
  function Recent(h: seq<SpellEvent>, cutoff: real): (r: seq<SpellEvent>)
    ensures |r| <= |h|
    ensures forall i :: 0 <= i < |r| ==> r[i].timestamp >= cutoff
  {
    if h == [] then []
    else (if h[0].timestamp >= cutoff then [h[0]] else []) + Recent(h[1..], cutoff)
  }

  /** On a time-ordered history the density filter keeps the same casts as the prune. */
  lemma {:induction false} RecentIsPruned(h: seq<SpellEvent>, cutoff: real)
    requires Sorted(h)
    ensures Recent(h, cutoff) == Pruned(h, cutoff)
  {
    if h != [] {
      SuffixKeeps(h, 1, cutoff);
      if h[0].timestamp >= cutoff {
        RecentKeepsAll(h, cutoff);
      } else {
        RecentIsPruned(h[1..], cutoff);
      }
    }
  }

  lemma {:induction false} RecentKeepsAll(h: seq<SpellEvent>, cutoff: real)
    requires Sorted(h) && (h != [] ==> h[0].timestamp >= cutoff)
    ensures Recent(h, cutoff) == h
  {
    if h != [] {
      SuffixKeeps(h, 1, cutoff);
      if |h| > 1 {
        assert h[0].timestamp <= h[1].timestamp;
      }
      RecentKeepsAll(h[1..], cutoff);
    }
  }

  /** `_get_current_density`: casts per second over the short window, 0 with fewer than two. */
  function CurrentDensity(h: seq<SpellEvent>, now: real, window: real): (d: real)
    ensures d >= 0.0
    ensures |Recent(h, now - window)| < 2 ==> d == 0.0
  {
    var recent := Recent(h, now - window);
    if |recent| < 2 then 0.0
    else
      var span := now - recent[0].timestamp;
      if span <= 0.0 then 0.0 else |recent| as real / span
  }

  /** A non-zero density is at least two casts per measurement window. */
  lemma DensityFloor(h: seq<SpellEvent>, now: real, window: real)
    requires window > 0.0
    ensures CurrentDensity(h, now, window) == 0.0 || CurrentDensity(h, now, window) >= 2.0 / window
  {
    var recent := Recent(h, now - window);
    if |recent| >= 2 {
      var span := now - recent[0].timestamp;
      if span > 0.0 {
        CountOverSpan(|recent| as real, span, window);
      }
    }
  }

  lemma CountOverSpan(count: real, span: real, window: real)
    requires count >= 2.0 && 0.0 < span <= window
    ensures count / span >= 2.0 / window
  {
    assert count / span >= 2.0 / span;
    assert 2.0 / span >= 2.0 / window by {
      assert 2.0 / span * span == 2.0;
      assert 2.0 / window * window == 2.0;
      assert 2.0 / window * span <= 2.0 / window * window;
    }
  }

  /** `_compute_density_fatigue`. */
  function DensityFatigue(cfg: FatigueConfig, h: seq<SpellEvent>, now: real): (r: real)
    requires ValidConfig(cfg)
    ensures 0.0 <= r <= 1.0
    ensures CurrentDensity(h, now, cfg.densityWindow) <= cfg.densityOptimalRate ==> r == 0.0
  {
    Ramp(CurrentDensity(h, now, cfg.densityWindow), cfg.densityOptimalRate, cfg.densityMaxRate)
  }

  // ---------------------------------------------------------------------------
  // Rest deficit

  /** The sum of the gaps between consecutive casts that are at least the rest threshold. */
  function RestGaps(h: seq<SpellEvent>, threshold: real): (r: real)
    ensures threshold >= 0.0 ==> r >= 0.0
    ensures |h| < 2 ==> r == 0.0
  {
    if |h| < 2 then 0.0
    else
      var gap := h[1].timestamp - h[0].timestamp;
      (if gap >= threshold then gap else 0.0) + RestGaps(h[1..], threshold)
  }

  lemma {:induction false} RestGapsNonneg(h: seq<SpellEvent>, threshold: real)
    requires Sorted(h)
    ensures RestGaps(h, threshold) >= 0.0
  {
    if |h| >= 2 {
      SuffixKeeps(h, 1, threshold);
      RestGapsNonneg(h[1..], threshold);
    }
  }

  /** With every gap below the threshold no rest is counted. */
  lemma {:induction false} RestGapsNone(h: seq<SpellEvent>, threshold: real)
    requires forall i :: 0 <= i < |h| - 1 ==> h[i + 1].timestamp - h[i].timestamp < threshold
    ensures RestGaps(h, threshold) == 0.0
  {
    if |h| >= 2 {
      var rest := h[1..];
      forall i | 0 <= i < |rest| - 1 ensures rest[i + 1].timestamp - rest[i].timestamp < threshold {
        assert rest[i + 1] == h[i + 2] && rest[i] == h[i + 1];
      }
      RestGapsNone(rest, threshold);
    }
  }

  /**
   * `_get_rest_ratio`: the rest time (long gaps, and the time since the last cast
   * when it is long) over the part of the window since the first retained cast,
   * capped at 1; 1 with fewer than two casts or an empty window.
   */
  function RestRatio(h: seq<SpellEvent>, now: real, window: real, threshold: real): (r: real)
    ensures r <= 1.0
    ensures |h| < 2 ==> r == 1.0
  {
    if |h| < 2 then 1.0
    else
      var windowStart := Max(h[0].timestamp, now - window);
      var windowDuration := now - windowStart;
      if windowDuration <= 0.0 then 1.0
      else
        var lastGap := now - h[|h| - 1].timestamp;
        var totalRest := RestGaps(h, threshold) + (if lastGap >= threshold then lastGap else 0.0);
        Min(1.0, totalRest / windowDuration)
  }

  /** On a time-ordered history that ends no later than now, the rest ratio is in [0, 1]. */
  lemma RestRatioRange(h: seq<SpellEvent>, now: real, window: real, threshold: real)
    requires Sorted(h) && NotAfter(h, now)
    ensures 0.0 <= RestRatio(h, now, window, threshold) <= 1.0
  {
    if |h| >= 2 {
      var windowDuration := now - Max(h[0].timestamp, now - window);
      var lastGap := now - h[|h| - 1].timestamp;
      RestGapsNonneg(h, threshold);
      assert lastGap >= 0.0;
      if windowDuration > 0.0 {
        RatioBounds(RestGaps(h, threshold) + (if lastGap >= threshold then lastGap else 0.0), windowDuration);
      }
    }
  }

  /** With a threshold of at most 0 every gap of an ordered history counts, so the gaps add up to its span. */
  lemma {:induction false} RestGapsAllCounted(h: seq<SpellEvent>, threshold: real)
    requires Sorted(h) && |h| >= 1 && threshold <= 0.0
    ensures RestGaps(h, threshold) == h[|h| - 1].timestamp - h[0].timestamp
  {
    if |h| >= 2 {
      SuffixKeeps(h, 1, threshold);
      RestGapsAllCounted(h[1..], threshold);
    }
  }

  /**
   * On a time-ordered history the rest ratio is never negative, whatever the time
   * of the query and the threshold: either every gap counts and the rest is the
   * whole span up to now, or only non-negative gaps count.
   */
  lemma RestRatioNonneg(h: seq<SpellEvent>, now: real, window: real, threshold: real)
    requires Sorted(h)
    ensures RestRatio(h, now, window, threshold) >= 0.0
  {
    if |h| >= 2 {
      var windowDuration := now - Max(h[0].timestamp, now - window);
      var lastGap := now - h[|h| - 1].timestamp;
      var totalRest := RestGaps(h, threshold) + (if lastGap >= threshold then lastGap else 0.0);
      RestGapsNonneg(h, threshold);
      if windowDuration > 0.0 {
        if lastGap < 0.0 && lastGap >= threshold {
          RestGapsAllCounted(h, threshold);
          assert totalRest == now - h[0].timestamp;
        }
        assert totalRest >= 0.0;
        RatioBounds(totalRest, windowDuration);
      }
    }
  }

  /** Casting without a single gap as long as the threshold, up to now, leaves no rest at all. */
  lemma RestRatioNoPauses(h: seq<SpellEvent>, now: real, window: real, threshold: real)
    requires |h| >= 2 && window > 0.0 && h[0].timestamp < now
    requires forall i :: 0 <= i < |h| - 1 ==> h[i + 1].timestamp - h[i].timestamp < threshold
    requires now - h[|h| - 1].timestamp < threshold
    ensures RestRatio(h, now, window, threshold) == 0.0
  {
    RestGapsNone(h, threshold);
  }

  /** `_compute_rest_deficit_fatigue`'s formula: the shortfall below the ideal ratio, relative to it. */
  function RestDeficit(ratio: real, ideal: real): (r: real)
    requires ratio >= ideal || ideal != 0.0
    ensures 0.0 <= r <= 1.0
    ensures ratio >= ideal ==> r == 0.0
  {
    if ratio >= ideal then 0.0 else Clamp01((ideal - ratio) / ideal)
  }

  /** With a positive ideal, a ratio in [0, ideal) gives `1 - ratio/ideal`, and no rest gives full fatigue. */
  lemma RestDeficitShape(ratio: real, ideal: real)
    requires ideal > 0.0
    ensures 0.0 <= ratio < ideal ==> RestDeficit(ratio, ideal) == 1.0 - ratio / ideal > 0.0
    ensures ratio <= 0.0 ==> RestDeficit(ratio, ideal) == 1.0
  {
    RatioBounds(ideal - ratio, ideal);
    DivSub(ideal, ratio, ideal);
    DivSelf(ideal);
    RatioBounds(ratio, ideal);
  }

  /** Less rest never means less fatigue. */
  lemma RestDeficitAntitone(a: real, b: real, ideal: real)
    requires ideal > 0.0 && a <= b
    ensures RestDeficit(b, ideal) <= RestDeficit(a, ideal)
  {
    if b < ideal {
      FatigueMath.DivMonotone(ideal - b, ideal - a, ideal);
    }
  }

  /** `_compute_rest_deficit_fatigue`. */
  function RestDeficitFatigue(cfg: FatigueConfig, h: seq<SpellEvent>, now: real): (r: real)
    requires RestDivisionSafe(cfg, h)
    ensures 0.0 <= r <= 1.0
    ensures RestRatio(h, now, cfg.windowDuration, cfg.restThreshold) >= cfg.restIdealRatio ==> r == 0.0
  {
    var ratio := RestRatio(h, now, cfg.windowDuration, cfg.restThreshold);
    if cfg.restIdealRatio == 0.0 then RestRatioNonneg(h, now, cfg.windowDuration, cfg.restThreshold); RestDeficit(ratio, 0.0)
    else RestDeficit(ratio, cfg.restIdealRatio)
  }

  /** With an ideal rest ratio of 0 an ordered history never shows a rest deficit. */
  lemma ZeroIdealNoDeficit(cfg: FatigueConfig, h: seq<SpellEvent>, now: real)
    requires cfg.restIdealRatio == 0.0 && Sorted(h)
    ensures RestDeficitFatigue(cfg, h, now) == 0.0
  {
    RestRatioNonneg(h, now, cfg.windowDuration, cfg.restThreshold);
  }

  // ---------------------------------------------------------------------------
  // Sustained casting

  /** `_sustained_casting_start`, `_last_event_time` and `_accumulated_rest_time`. */
  datatype Tracking = Tracking(start: Option<real>, last: Option<real>, rest: real)

  /** The state after `__init__` and `reset`. */
  const NoTracking := Tracking(None, None, 0.0)

  /** A run starts no later than the last cast, both are set together, and rest is never negative. */
  predicate TrackingValid(t: Tracking)
  {
    && t.rest >= 0.0
    && (t.start.Some? <==> t.last.Some?)
    && (t.start.Some? ==> t.start.value <= t.last.value)
  }

  /**
   * `_update_sustained_tracking` at a cast at time now: the first cast starts a run,
   * a gap of at least the reset length starts a new run, a gap of at least the rest
   * threshold is added to the rest time, and the cast becomes the last one.
   */
  function Track(cfg: FatigueConfig, t: Tracking, now: real): (r: Tracking)
    ensures r.last == Some(now)
    ensures t.last.None? ==> r.start == Some(now) && r.rest == t.rest
    ensures t.last.Some? && now - t.last.value >= cfg.sustainedRestReset ==> r.start == Some(now)
    ensures t.last.Some? && now - t.last.value < cfg.sustainedRestReset ==> r.start == t.start
    ensures t.last.Some? && now - t.last.value >= cfg.restThreshold ==> r.rest == t.rest + (now - t.last.value)
    ensures t.last.Some? && now - t.last.value < cfg.restThreshold ==> r.rest == t.rest
  {
    match t.last
    case None => Tracking(Some(now), Some(now), t.rest)
    case Some(last) =>
      var gap := now - last;
      var start := if gap >= cfg.sustainedRestReset then Some(now) else t.start;
      var rest := if gap >= cfg.restThreshold then t.rest + gap else t.rest;
      Tracking(start, Some(now), rest)
  }

  /** With casts in time order the tracking state stays valid and the rest time never shrinks. */
  lemma TrackKeepsValid(cfg: FatigueConfig, t: Tracking, now: real)
    requires TrackingValid(t) && (t.last.None? || t.last.value <= now)
    ensures TrackingValid(Track(cfg, t, now))
    ensures Track(cfg, t, now).rest >= t.rest
  {
  }

  /** Without a long enough pause the run keeps growing: its length gains exactly the gap. */
  lemma TrackAccumulates(cfg: FatigueConfig, t: Tracking, now: real)
    requires TrackingValid(t) && t.last.Some? && now - t.last.value < cfg.sustainedRestReset
    ensures SustainedDuration(Track(cfg, t, now).start, now)
            == SustainedDuration(t.start, t.last.value) + (now - t.last.value)
  {
  }

  /** A pause of at least the reset length restarts the run: its length at that cast is 0. */
  lemma TrackResets(cfg: FatigueConfig, t: Tracking, now: real)
    requires t.last.None? || now - t.last.value >= cfg.sustainedRestReset
    ensures SustainedDuration(Track(cfg, t, now).start, now) == 0.0
  {
  }

  /** The prune's "simplified" decay of the rest time: a hundredth of the window per prune, floored at 0. */
  function DecayedRest(rest: real, window: real): (r: real)
    ensures rest >= 0.0 ==> r >= 0.0
    ensures window >= 0.0 ==> r <= rest
    ensures rest <= 0.0 ==> r == rest
  {
    if rest > 0.0 then Max(0.0, rest - window * 0.01) else rest
  }

  /** `_get_sustained_duration`: time since the run started, 0 when none has. */
  function SustainedDuration(start: Option<real>, now: real): (d: real)
    ensures start.None? ==> d == 0.0
    ensures start.Some? && start.value <= now ==> d >= 0.0
  {
    match start
    case None => 0.0
    case Some(s) => now - s
  }

  /** `_compute_sustained_pressure`. */
  function SustainedFatigue(cfg: FatigueConfig, start: Option<real>, now: real): (r: real)
    requires ValidConfig(cfg)
    ensures 0.0 <= r <= 1.0
    ensures SustainedDuration(start, now) <= cfg.sustainedOnset ==> r == 0.0
  {
    Ramp(SustainedDuration(start, now), cfg.sustainedOnset, cfg.sustainedMax)
  }

  // ---------------------------------------------------------------------------
  // Fusion

  datatype FatigueComponents = FatigueComponents(
    pitchEntropy: real, pitchFatigue: real,
    transitionEntropy: real, transitionFatigue: real,
    rhythmEntropy: real, rhythmFatigue: real,
    recurrenceRate: real,
    chordDiversity: real, chordFatigue: real,
    densityRate: real, densityFatigue: real,
    restRatio: real, restDeficitFatigue: real,
    sustainedDuration: real, sustainedFatigue: real)

  /** `FatigueComponents()`. */
  const DefaultComponents := FatigueComponents(1.0, 0.0, 1.0, 0.0, 1.0, 0.0, 0.0, 1.0, 0.0,
                                               0.0, 0.0, 1.0, 0.0, 0.0, 0.0)

  datatype FatigueResult = FatigueResult(
    fatigueIndex: real,
    level: FatigueLevel,
    components: FatigueComponents,
    penalty: PenaltyEffect,
    noteSpecificFatigue: real,
    suggestions: seq<Suggestion>)

  /** The answer for a history of fewer than three casts. */
  const IdleResult := FatigueResult(0.0, NoFatigue, DefaultComponents, NoPenalty, 0.0, [])

  /** The eight per-dimension values, and the raw rate, ratio and duration behind the new three. */
  function Components(cfg: FatigueConfig, h: seq<SpellEvent>, now: real, start: Option<real>,
                      log2: real -> real, exp2: real -> real): (c: FatigueComponents)
    requires ValidConfig(cfg) && RestDivisionSafe(cfg, h)
    ensures c.pitchFatigue == 1.0 - c.pitchEntropy
    ensures c.transitionFatigue == 1.0 - c.transitionEntropy
    ensures c.rhythmEntropy == 1.0 - c.rhythmFatigue
    ensures c.chordDiversity == 1.0 - c.chordFatigue
    ensures 0.0 <= c.recurrenceRate < 1.0
    ensures c.densityRate >= 0.0 && c.restRatio <= 1.0
    ensures 0.0 <= c.densityFatigue <= 1.0 && (c.densityRate <= cfg.densityOptimalRate ==> c.densityFatigue == 0.0)
    ensures 0.0 <= c.restDeficitFatigue <= 1.0 && (c.restRatio >= cfg.restIdealRatio ==> c.restDeficitFatigue == 0.0)
    ensures 0.0 <= c.sustainedFatigue <= 1.0 && (c.sustainedDuration <= cfg.sustainedOnset ==> c.sustainedFatigue == 0.0)
    ensures c.sustainedDuration == SustainedDuration(start, now)
  {
    var decay := Decay(cfg.decayHalfLife, exp2);
    var pitchEntropy := FatigueMath.WeightedShannonEntropy(PitchEvents(h), decay, now, log2);
    var transEntropy := FatigueMath.TransitionEntropy(NoteSequence(h), 12, log2);
    var rhythmF := RhythmFatigue(h, cfg.rhythmQuantizeBins, cfg.rhythmMaxInterval, decay, now, log2);
    var recurrence := Recurrence(NoteSequence(h), cfg.ngramSizes);
    var chordF := ChordFatigue(h, decay, now, log2);
    FatigueComponents(pitchEntropy, 1.0 - pitchEntropy, transEntropy, 1.0 - transEntropy,
                      1.0 - rhythmF, rhythmF, recurrence, 1.0 - chordF, chordF,
                      CurrentDensity(h, now, cfg.densityWindow), DensityFatigue(cfg, h, now),
                      RestRatio(h, now, cfg.windowDuration, cfg.restThreshold), RestDeficitFatigue(cfg, h, now),
                      SustainedDuration(start, now), SustainedFatigue(cfg, start, now))
  }

  /** The weights of the eight dimensions are non-negative. */
  predicate WeightsNonneg(cfg: FatigueConfig)
  {
    && cfg.weightPitch >= 0.0 && cfg.weightTransition >= 0.0 && cfg.weightRhythm >= 0.0
    && cfg.weightRecurrence >= 0.0 && cfg.weightChord >= 0.0
    && cfg.weightDensity >= 0.0 && cfg.weightRestDeficit >= 0.0 && cfg.weightSustained >= 0.0
  }

  /** The eight fatigue values of a component record lie in [0, 1]. */
  predicate FatiguesInUnit(c: FatigueComponents)
  {
    && 0.0 <= c.pitchFatigue <= 1.0 && 0.0 <= c.transitionFatigue <= 1.0 && 0.0 <= c.rhythmFatigue <= 1.0
    && 0.0 <= c.recurrenceRate <= 1.0 && 0.0 <= c.chordFatigue <= 1.0
    && 0.0 <= c.densityFatigue <= 1.0 && 0.0 <= c.restDeficitFatigue <= 1.0 && 0.0 <= c.sustainedFatigue <= 1.0
  }

  /**
   * The eight-dimension AFI formula before clamping. With non-negative weights and
   * fatigues in [0, 1] it lies between 0 and the weight total, so with the default
   * weights, which add up to 1, the clamp changes nothing.
   */
  function Fuse(cfg: FatigueConfig, c: FatigueComponents): (r: real)
    ensures WeightsNonneg(cfg) && FatiguesInUnit(c) ==>
              0.0 <= r <= cfg.weightPitch + cfg.weightTransition + cfg.weightRhythm + cfg.weightRecurrence
                          + cfg.weightChord + cfg.weightDensity + cfg.weightRestDeficit + cfg.weightSustained
  {
    Weighted(cfg.weightPitch, c.pitchFatigue) + Weighted(cfg.weightTransition, c.transitionFatigue)
    + Weighted(cfg.weightRhythm, c.rhythmFatigue) + Weighted(cfg.weightRecurrence, c.recurrenceRate)
    + Weighted(cfg.weightChord, c.chordFatigue) + Weighted(cfg.weightDensity, c.densityFatigue)
    + Weighted(cfg.weightRestDeficit, c.restDeficitFatigue) + Weighted(cfg.weightSustained, c.sustainedFatigue)
  }

  /** The three pressure hints, which come first: sustained, density, rest. */
  function PressureHintItems(sustainedF: real, densityF: real, restF: real): seq<(bool, Suggestion)>
  {
    [(sustainedF > 0.5, PauseCasting), (densityF > 0.5, SlowDown), (restF > 0.5, LeaveGaps)]
  }

  lemma PressureHintItemsFacts(sustainedF: real, densityF: real, restF: real)
    ensures IncreasingSlots(PressureHintItems(sustainedF, densityF, restF))
    ensures FiringSlots(PressureHintItems(sustainedF, densityF, restF))
            == SlotIf(sustainedF > 0.5, 0) + (SlotIf(densityF > 0.5, 1) + SlotIf(restF > 0.5, 2))
    ensures (forall j :: 0 <= j < 3 ==> !PressureHintItems(sustainedF, densityF, restF)[j].0)
            <==> sustainedF <= 0.5 && densityF <= 0.5 && restF <= 0.5
    ensures forall x :: x in FiringSlots(PressureHintItems(sustainedF, densityF, restF)) ==> x < 3
  {
    var items := PressureHintItems(sustainedF, densityF, restF);
    assert items[2..][1..] == [];
    assert items[1..][1..] == items[2..];
    assert FiringSlots(items[2..]) == SlotIf(restF > 0.5, 2);
    assert FiringSlots(items[1..]) == SlotIf(densityF > 0.5, 1) + FiringSlots(items[2..]);
    assert items[0].0 == (sustainedF > 0.5) && items[1].0 == (densityF > 0.5) && items[2].0 == (restF > 0.5);
  }

  /**
   * `_generate_recovery_suggestions` (v2.0): sustained, density, rest, then pitch,
   * transition, rhythm, recurrence and chord, each only above 0.5.
   */
  function Suggestions(c: FatigueComponents, h: seq<SpellEvent>, decay: real -> real, now: real): (s: seq<Suggestion>)
    ensures InFixedOrder(s)
    ensures Slots(s) == SlotIf(c.sustainedFatigue > 0.5, 0) + (SlotIf(c.densityFatigue > 0.5, 1)
                        + SlotIf(c.restDeficitFatigue > 0.5, 2))
                        + (SlotIf(c.pitchFatigue > 0.5, 3) + (SlotIf(c.transitionFatigue > 0.5, 4)
                           + (SlotIf(c.rhythmFatigue > 0.5, 5) + (SlotIf(c.recurrenceRate > 0.5, 6)
                           + SlotIf(c.chordFatigue > 0.5, 7)))))
    ensures s == [] <==> c.sustainedFatigue <= 0.5 && c.densityFatigue <= 0.5 && c.restDeficitFatigue <= 0.5
                         && c.pitchFatigue <= 0.5 && c.transitionFatigue <= 0.5 && c.rhythmFatigue <= 0.5
                         && c.recurrenceRate <= 0.5 && c.chordFatigue <= 0.5
    ensures |s| <= 8
  {
    var pressure := PressureHintItems(c.sustainedFatigue, c.densityFatigue, c.restDeficitFatigue);
    var core := CoreHintItems(c.pitchFatigue, c.transitionFatigue, c.rhythmFatigue, c.recurrenceRate,
                              c.chordFatigue, PitchHint(h, decay, now));
    SuggestionsFacts(c, pressure, core, PitchHint(h, decay, now));
    Hints(pressure + core)
  }

  lemma SuggestionsFacts(c: FatigueComponents, pressure: seq<(bool, Suggestion)>, core: seq<(bool, Suggestion)>,
                         pitchHint: Suggestion)
    requires Slot(pitchHint) == 3
    requires pressure == PressureHintItems(c.sustainedFatigue, c.densityFatigue, c.restDeficitFatigue)
    requires core == CoreHintItems(c.pitchFatigue, c.transitionFatigue, c.rhythmFatigue, c.recurrenceRate,
                                   c.chordFatigue, pitchHint)
    ensures InFixedOrder(Hints(pressure + core))
    ensures Slots(Hints(pressure + core))
            == SlotIf(c.sustainedFatigue > 0.5, 0) + (SlotIf(c.densityFatigue > 0.5, 1)
               + SlotIf(c.restDeficitFatigue > 0.5, 2))
               + (SlotIf(c.pitchFatigue > 0.5, 3) + (SlotIf(c.transitionFatigue > 0.5, 4)
                  + (SlotIf(c.rhythmFatigue > 0.5, 5) + (SlotIf(c.recurrenceRate > 0.5, 6)
                  + SlotIf(c.chordFatigue > 0.5, 7)))))
    ensures Hints(pressure + core) == [] <==>
              c.sustainedFatigue <= 0.5 && c.densityFatigue <= 0.5 && c.restDeficitFatigue <= 0.5
              && c.pitchFatigue <= 0.5 && c.transitionFatigue <= 0.5 && c.rhythmFatigue <= 0.5
              && c.recurrenceRate <= 0.5 && c.chordFatigue <= 0.5
  {
    PressureHintItemsFacts(c.sustainedFatigue, c.densityFatigue, c.restDeficitFatigue);
    CoreHintItemsFacts(c.pitchFatigue, c.transitionFatigue, c.rhythmFatigue, c.recurrenceRate,
                       c.chordFatigue, pitchHint);
    ConcatHints(pressure, core, 3);
    assert |pressure| == 3 && |core| == 5;
  }

  /**
   * Two increasing chains, the first firing only in slots below `split` and the
   * second only in slots from it on, give one list in the fixed order, empty iff neither fires.
   */
  lemma ConcatHints(a: seq<(bool, Suggestion)>, b: seq<(bool, Suggestion)>, split: nat)
    requires IncreasingSlots(a) && IncreasingSlots(b)
    requires forall x :: x in FiringSlots(a) ==> x < split
    requires forall y :: y in FiringSlots(b) ==> split <= y
    ensures InFixedOrder(Hints(a + b))
    ensures Slots(Hints(a + b)) == FiringSlots(a) + FiringSlots(b)
    ensures Hints(a + b) == [] <==> (forall j :: 0 <= j < |a| ==> !a[j].0) && (forall j :: 0 <= j < |b| ==> !b[j].0)
  {
    HintsFacts(a);
    HintsFacts(b);
    HintsAppend(a, b);
    OrderedConcat(Hints(a), Hints(b));
  }

  /** `_compute_fatigue` (v2.0), given the start of the current run of casts. */
  function ComputeFatigue(cfg: FatigueConfig, h: seq<SpellEvent>, now: real, start: Option<real>,
                          target: Option<Note>, log2: real -> real, exp2: real -> real): (r: FatigueResult)
    requires ValidConfig(cfg) && RestDivisionSafe(cfg, h)
    ensures |h| < 3 ==> r == IdleResult
    ensures |h| >= 3 ==> r.components == Components(cfg, h, now, start, log2, exp2)
    ensures |h| >= 3 ==> r.fatigueIndex == Clamp01(Fuse(cfg, r.components))
    ensures 0.0 <= r.fatigueIndex <= 1.0
    ensures |h| >= 3 ==> r.level == IndexToLevel(cfg.thresholds, r.fatigueIndex)
    ensures r.penalty == ComputePenalty(cfg.penalty, r.fatigueIndex, r.level)
    ensures |h| >= 3 ==> r.suggestions == Suggestions(r.components, h, Decay(cfg.decayHalfLife, exp2), now)
    ensures target.None? ==> r.noteSpecificFatigue == 0.0
    ensures target.Some? && |h| >= 3 ==>
              r.noteSpecificFatigue == NoteSpecificFatigue(h, target.value, Decay(cfg.decayHalfLife, exp2), now)
  {
    if |h| < 3 then IdleResult
    else
      var decay := Decay(cfg.decayHalfLife, exp2);
      var c := Components(cfg, h, now, start, log2, exp2);
      var afi := Clamp01(Fuse(cfg, c));
      var level := IndexToLevel(cfg.thresholds, afi);
      var noteFatigue := if target.Some? then NoteSpecificFatigue(h, target.value, decay, now) else 0.0;
      FatigueResult(afi, level, c, ComputePenalty(cfg.penalty, afi, level), noteFatigue,
                    Suggestions(c, h, decay, now))
  }

  /**
   * With a positive half-life and the laws of log2 and exp2, the four entropy-based
   * fatigues are at most 1; the other ranges are part of the contract of `Components`,
   * and per-note fatigue lies in [0, 1] by `NoteSpecificFatigueRange`.
   */
  lemma ComponentsRanges(cfg: FatigueConfig, h: seq<SpellEvent>, now: real, start: Option<real>,
                         log2: real -> real, exp2: real -> real)
    requires ValidConfig(cfg) && RestDivisionSafe(cfg, h) && cfg.decayHalfLife > 0.0
    requires Log2Law(log2) && Exp2Law(exp2)
    ensures var c := Components(cfg, h, now, start, log2, exp2);
      c.pitchFatigue <= 1.0 && c.transitionFatigue <= 1.0 && c.rhythmFatigue <= 1.0 && c.chordFatigue <= 1.0
  {
    var decay := Decay(cfg.decayHalfLife, exp2);
    DecayIsInUnit(cfg.decayHalfLife, exp2);
    EntropyFatiguesAtMostOne(h, cfg.rhythmQuantizeBins, cfg.rhythmMaxInterval, decay, now, log2);
  }

  /**
   * Once the current run has lasted the full sustained-pressure length, sustained
   * fatigue is 1 and the advice to pause comes first.
   */
  lemma LongRunAsksForPause(cfg: FatigueConfig, h: seq<SpellEvent>, now: real, start: Option<real>,
                            target: Option<Note>, log2: real -> real, exp2: real -> real)
    requires ValidConfig(cfg) && RestDivisionSafe(cfg, h) && cfg.sustainedOnset < cfg.sustainedMax
    requires |h| >= 3 && start.Some? && now - start.value >= cfg.sustainedMax
    ensures ComputeFatigue(cfg, h, now, start, target, log2, exp2).components.sustainedFatigue == 1.0
    ensures ComputeFatigue(cfg, h, now, start, target, log2, exp2).suggestions[0] == PauseCasting
  {
    RampShape(SustainedDuration(start, now), cfg.sustainedOnset, cfg.sustainedMax);
    var r := ComputeFatigue(cfg, h, now, start, target, log2, exp2);
    assert 0 in Slots(r.suggestions);
    var i :| 0 <= i < |r.suggestions| && Slot(r.suggestions[i]) == 0;
    if i > 0 {
      assert Slot(r.suggestions[0]) < Slot(r.suggestions[i]);
    }
  }

  // ---------------------------------------------------------------------------
  // The engine

  class Engine {
    const config: FatigueConfig
    /** `math.log2` and `x => math.pow(2.0, x)`. */
    const log2: real -> real
    const exp2: real -> real

    /** `_history`: the retained casts, oldest first. */
    var history: seq<SpellEvent>
    /** `_per_note_fatigue` and `_last_diversity_notes`: declared and cleared, never read. */
    var perNoteFatigue: map<Note, real>
    var lastDiversityNotes: set<Note>
    /** `_sustained_casting_start`, `_last_event_time`, `_accumulated_rest_time`. */
    var sustainedStart: Option<real>
    var lastEventTime: Option<real>
    var accumulatedRest: real

    /** The sustained-casting fields as one value. */
    function State(): Tracking
      reads this
    {
      Tracking(sustainedStart, lastEventTime, accumulatedRest)
    }

    /**
     * The history is in time order, within the deque's capacity and no later than
     * the last recorded cast, and the tracking state is consistent.
     */
    ghost predicate Valid()
      reads this
    {
      && ValidConfig(config)
      && Sorted(history)
      && |history| <= config.maxHistorySize
      && TrackingValid(State())
      && (history != [] ==> lastEventTime.Some? && NotAfter(history, lastEventTime.value))
    }

    constructor(config: FatigueConfig, log2: real -> real, exp2: real -> real)
      requires ValidConfig(config)
      ensures Valid()
      ensures this.config == config && this.log2 == log2 && this.exp2 == exp2
      ensures history == [] && perNoteFatigue == map[] && lastDiversityNotes == {}
      ensures State() == NoTracking
    {
      this.config := config;
      this.log2 := log2;
      this.exp2 := exp2;
      history := [];
      perNoteFatigue := map[];
      lastDiversityNotes := {};
      sustainedStart := None;
      lastEventTime := None;
      accumulatedRest := 0.0;
    }

    /** `record_spell`: update the tracking, append (evicting past capacity), prune, compute. */
    method RecordSpell(event: SpellEvent) returns (r: FatigueResult)
      requires Valid()
      requires lastEventTime.None? || lastEventTime.value <= event.timestamp
      modifies this`history, this`sustainedStart, this`lastEventTime, this`accumulatedRest
      ensures Valid()
      ensures history == Pruned(BoundedAppend(old(history), event, config.maxHistorySize),
                                event.timestamp - config.windowDuration)
      ensures sustainedStart == Track(config, old(State()), event.timestamp).start
      ensures lastEventTime == Some(event.timestamp)
      ensures accumulatedRest == DecayedRest(Track(config, old(State()), event.timestamp).rest, config.windowDuration)
      ensures r == ComputeFatigue(config, history, event.timestamp, sustainedStart, Some(event.note), log2, exp2)
    {
      Admit(event);
      r := ComputeFatigue(config, history, event.timestamp, sustainedStart, Some(event.note), log2, exp2);
    }

    /** The state change of `record_spell`. */
    method Admit(event: SpellEvent)
      requires Valid()
      requires lastEventTime.None? || lastEventTime.value <= event.timestamp
      modifies this`history, this`sustainedStart, this`lastEventTime, this`accumulatedRest
      ensures Valid()
      ensures history == Pruned(BoundedAppend(old(history), event, config.maxHistorySize),
                                event.timestamp - config.windowDuration)
      ensures sustainedStart == Track(config, old(State()), event.timestamp).start
      ensures lastEventTime == Some(event.timestamp)
      ensures accumulatedRest == DecayedRest(Track(config, old(State()), event.timestamp).rest, config.windowDuration)
    {
      UpdateSustainedTracking(event.timestamp);
      AppendEvent(event);
      PruneOldEvents(event.timestamp);
    }

    /** `query_fatigue`: prune at the given time, then compute without recording. */
    method QueryFatigue(now: real, target: Option<Note>) returns (r: FatigueResult)
      requires Valid()
      modifies this`history, this`accumulatedRest
      ensures Valid()
      ensures history == Pruned(old(history), now - config.windowDuration)
      ensures accumulatedRest == DecayedRest(old(accumulatedRest), config.windowDuration)
      ensures r == ComputeFatigue(config, history, now, sustainedStart, target, log2, exp2)
    {
      PruneOldEvents(now);
      r := ComputeFatigue(config, history, now, sustainedStart, target, log2, exp2);
    }

    /** `get_note_fatigue_map`: prune, then the per-note fatigue of every note. */
    method GetNoteFatigueMap(now: real) returns (m: map<Note, real>)
      requires Valid()
      modifies this`history, this`accumulatedRest
      ensures Valid()
      ensures history == Pruned(old(history), now - config.windowDuration)
      ensures accumulatedRest == DecayedRest(old(accumulatedRest), config.windowDuration)
      ensures forall n: Note :: n in m && m[n] == NoteSpecificFatigue(history, n, Decay(config.decayHalfLife, exp2), now)
    {
      PruneOldEvents(now);
      m := NoteFatigueTable(history, Decay(config.decayHalfLife, exp2), now);
    }

    /** `reset`: empty the history and the unused containers, and forget the current run. */
    method Reset()
      requires Valid()
      modifies this
      ensures Valid()
      ensures history == [] && perNoteFatigue == map[] && lastDiversityNotes == {}
      ensures State() == NoTracking
    {
      history := [];
      perNoteFatigue := map[];
      lastDiversityNotes := {};
      sustainedStart := None;
      lastEventTime := None;
      accumulatedRest := 0.0;
    }

    /** `_update_sustained_tracking`. */
    method UpdateSustainedTracking(now: real)
      requires Valid()
      requires lastEventTime.None? || lastEventTime.value <= now
      modifies this`sustainedStart, this`lastEventTime, this`accumulatedRest
      ensures Valid()
      ensures State() == Track(config, old(State()), now)
      ensures NotAfter(history, now)
    {
      TrackKeepsValid(config, State(), now);
      if lastEventTime.Some? {
        var gap := now - lastEventTime.value;
        if gap >= config.sustainedRestReset {
          sustainedStart := Some(now);
        }
        if gap >= config.restThreshold {
          accumulatedRest := accumulatedRest + gap;
        }
      } else {
        sustainedStart := Some(now);
      }
      lastEventTime := Some(now);
    }

    /** `self._history.append(event)` on a deque with `maxlen`. */
    method AppendEvent(event: SpellEvent)
      requires Valid()
      requires lastEventTime == Some(event.timestamp) && NotAfter(history, event.timestamp)
      modifies this`history
      ensures Valid()
      ensures history == BoundedAppend(old(history), event, config.maxHistorySize)
    {
      BoundedAppendSorted(history, event, config.maxHistorySize);
      history := BoundedAppend(history, event, config.maxHistorySize);
    }

    /** `_prune_old_events`: pop stale casts from the front, then decay the rest time. */
    method PruneOldEvents(now: real)
      requires Valid()
      modifies this`history, this`accumulatedRest
      ensures Valid()
      ensures history == Pruned(old(history), now - config.windowDuration)
      ensures forall i :: 0 <= i < |history| ==> history[i].timestamp >= now - config.windowDuration
      ensures accumulatedRest == DecayedRest(old(accumulatedRest), config.windowDuration)
    {
      var cutoff := now - config.windowDuration;
      PrunedRecent(history, cutoff);
      if lastEventTime.Some? {
        PrunedNotAfter(history, cutoff, lastEventTime.value);
      }
      var kept := PopStale(history, cutoff);
      assert |kept| <= |history| <= config.maxHistorySize;
      history := kept;
      if accumulatedRest > 0.0 {
        var decay := config.windowDuration * 0.01;
        accumulatedRest := Max(0.0, accumulatedRest - decay);
      }
    }
  }
}
