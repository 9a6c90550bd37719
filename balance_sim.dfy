/**
 * The strategy simulator of the balance scorer (`BalanceKit/balance_scorer.py`):
 * one pass over a strategy's actions that tracks a per-note monotony gauge, a
 * density gauge and a dissonance gauge, turns them into damage multipliers and
 * health loss, logs every beat, and condenses the run into scores.
 *
 * `Run` is the specification: the state after the first `n` actions, one `Step`
 * at a time. `StrategySimulator.Simulate` is the source's loop over local
 * variables and is proved to end in the state `Run` describes.
 */
module BalanceSim {
  import opened Wrappers
  import opened Numerics
  import opened BalanceBuild

  // ---------------------------------------------------------------------------
  // Inputs

  /** A chord type of the registry; only the fields the simulator reads affect the run. */
  datatype ChordType = ChordType(
    name: string, noteCount: int, baseDissonance: real, spellForm: string,
    dmgMultiplier: real, fatigueDissonance: real,
    dotTotalRatio: real, explosionRadiusMult: real, explosionDmgRatio: real, aoeRadiusMult: real,
    delayBeats: real, healRatio: real, shieldRatio: real,
    summonDurationMult: real, summonDpsRatio: real, zoneDurationMult: real, zoneTickRatio: real,
    isExtended: bool, extraEffect: string)

  /** One beat of a strategy: a rest, or a cast of `note`, possibly a chord, possibly with a black-key modifier. */
  datatype StrategyAction = StrategyAction(
    beat: int, note: string, isChord: bool, chordType: string, isRest: bool, modifier: string)

  datatype StrategyDefinition = StrategyDefinition(
    name: string, description: string, actions: seq<StrategyAction>, rhythmPattern: string)

  /** The weights of the composite score. */
  datatype Weights = Weights(dps: real, survival: real, risk: real)

  const DefaultWeights: Weights := Weights(0.50, 0.25, 0.25)

  // ---------------------------------------------------------------------------
  // Outputs

  /** One `beat_log` entry, with the values unrounded. */
  datatype BeatEntry = BeatEntry(
    beat: int, time: real, action: string,
    rawDmg: real, effDmg: real, monotony: real, density: real, dissonance: real)

  datatype SimulationResult = SimulationResult(
    strategyName: string,
    rawDps: real, effectiveDps: real, burstDps: real, sustainedDps: real,
    totalHealing: real, totalShielding: real, dodgeValue: real, survivalScore: real,
    dissonanceDamage: real, lockoutBeats: int, densityPenaltyBeats: int, riskScore: real,
    peakMonotony: real, peakDensity: real, peakDissonance: real, avgAfi: real,
    compositeScore: real,
    beatLog: seq<BeatEntry>)

  // ---------------------------------------------------------------------------
  // Constants of the simulator

  const MonotonyPerRepeat: real := 15.0
  const DensityPerCast: real := 8.0
  const MonotonySwitchReduction: real := 20.0
  const DissonanceHarmonyReduction: real := 15.0
  /** How much a dissonant chord lowers every note's monotony. */
  const DissonanceMonotonyEase: real := 10.0

  const MonotonyWarn: real := 40.0
  const MonotonySilence: real := 70.0
  const MonotonyLock: real := 90.0
  const DensityMild: real := 50.0
  const DensityOverload: real := 75.0
  const DensityCrash: real := 95.0
  const DissonancePain: real := 30.0
  const DissonanceCorrode: real := 60.0
  const DissonanceDanger: real := 85.0

  /** `AFI_AMPLIFIERS.get(level, 1.0)`. */
  function AfiAmplifier(level: int): real
  {
    if level == 1 then 1.1
    else if level == 2 then 1.3
    else if level == 3 then 1.6
    else if level == 4 then 2.0
    else 1.0
  }

  /** `MODIFIER_MULTIPLIERS`: the damage factor of each black-key modifier. */
  const ModifierMultipliers: map<string, real> :=
    map["C#" := 2.31, "D#" := 1.0, "F#" := 2.2, "G#" := 2.2, "A#" := 1.75]

  // ---------------------------------------------------------------------------
  // One beat's arithmetic

  /** The fatigue amplifier after the build's reduction, never below 1. */
  function AfiAmp(b: BuildStats, afiLevel: int): (r: real)
    ensures r >= 1.0
    ensures r >= AfiAmplifier(afiLevel) - b.afiAmplifyReduction
  {
    Max(1.0, AfiAmplifier(afiLevel) - b.afiAmplifyReduction)
  }

  /** The simplified fatigue-index estimate from the number of distinct notes cast so far. */
  function AfiLevel(uniqueCount: nat): (r: int)
    ensures 0 <= r <= 4
    ensures uniqueCount >= 1 ==> r <= 3
    ensures uniqueCount >= 7 ==> r == 0
  {
    var x := Trunc(4.0 * (1.0 - uniqueCount as real / 7.0));
    if x > 0 then x else 0
  }

  /** The modifier's damage factor; no modifier or an unknown one gives 1. */
  function ModifierMult(modifier: string): real
  {
    if modifier != "" && modifier in ModifierMultipliers then ModifierMultipliers[modifier] else 1.0
  }

  /** What a chord adds to a cast: its damage factor, its dissonance, and the heal and shield it grants. */
  datatype ChordOutcome = ChordOutcome(mult: real, dissonanceAdd: real, heal: real, shield: real)

  const PlainCast: ChordOutcome := ChordOutcome(1.0, 0.0, 0.0, 0.0)

  /**
   * The chord branch of a cast. A chord type outside the registry, or an extended
   * chord the build has not unlocked, acts as a plain cast. Otherwise the factor is
   * the chord's multiplier plus the build's chord bonus, replaced in turn by the DOT
   * ratio, the zone damage, and the summon damage (only when there is no zone).
   */
  function ChordOf(b: BuildStats, chords: map<string, ChordType>, a: StrategyAction, note: NoteStats): (r: ChordOutcome)
    ensures r.dissonanceAdd != 0.0 || r.heal != 0.0 || r.shield != 0.0 ==>
              a.isChord && a.chordType in chords && (!chords[a.chordType].isExtended || b.extendedChordEnabled)
    ensures note.TotalDmg() + b.globalDmgBonus >= 0.0 ==> r.heal >= 0.0 && r.shield >= 0.0
  {
    if !(a.isChord && a.chordType in chords) then PlainCast
    else
      var c := chords[a.chordType];
      if c.isExtended && !b.extendedChordEnabled then PlainCast
      else
        var power := note.TotalDmg() + b.globalDmgBonus;
        var m0 := c.dmgMultiplier + b.chordDmgBonus;
        var m1 := if c.dotTotalRatio > 0.0 then c.dotTotalRatio else m0;
        var m2 := if c.zoneTickRatio > 0.0 then c.zoneTickRatio * (c.zoneDurationMult * note.TotalDur() / 0.5) else m1;
        var m3 := if c.summonDpsRatio > 0.0 && c.zoneTickRatio == 0.0
                  then c.summonDpsRatio * (c.summonDurationMult * note.TotalDur() * DurPerPoint)
                  else m2;
        assert power >= 0.0 ==> (c.healRatio > 0.0 ==> power * c.healRatio >= 0.0)
                                && (c.shieldRatio > 0.0 ==> power * c.shieldRatio >= 0.0) by {
          if power >= 0.0 && c.healRatio > 0.0 {
            MulNonneg(power, c.healRatio);
          }
          if power >= 0.0 && c.shieldRatio > 0.0 {
            MulNonneg(power, c.shieldRatio);
          }
        }
        ChordOutcome(m3, c.fatigueDissonance * b.chordDissonanceMult,
                     if c.healRatio > 0.0 then power * c.healRatio else 0.0,
                     if c.shieldRatio > 0.0 then power * c.shieldRatio else 0.0)
  }

  /** The charge from the rests earlier in the same measure. */
  function RestDamageBonus(b: BuildStats, restCount: int): real
  {
    restCount as real * (0.5 + b.restChargeBonus) * DmgPerPoint
  }

  function RawDamage(base: real, restBonus: real, chordMult: real, modMult: real): real
  {
    (base + restBonus) * chordMult * modMult
  }

  /** The natural decay of a gauge over one beat. */
  function Decay(rate: real, interval: real): real
  {
    rate * interval
  }

  function RepeatGain(b: BuildStats, amp: real): real
  {
    MonotonyPerRepeat * b.monotonyRateMult * amp
  }

  function DensityGain(b: BuildStats, amp: real): real
  {
    DensityPerCast * b.densityRateMult * amp
  }

  function DissonanceGain(add: real, b: BuildStats, amp: real): real
  {
    add * 100.0 * b.dissonanceRateMult * amp
  }

  /** `monotony_per_note.get(note, 0.0)`. */
  function Monotony(m: map<string, real>, note: string): real
  {
    if note in m then m[note] else 0.0
  }

  /** Switching away from a (non-empty) last note lowers that note's monotony by 20, floored at 0. */
  function AfterSwitch(m: map<string, real>, note: string, lastNote: string): (r: map<string, real>)
    ensures note == lastNote || lastNote == "" ==> r == m
    ensures forall k :: k in m && k != lastNote ==> k in r && r[k] == m[k]
    ensures note != lastNote && lastNote != "" ==>
              lastNote in r && 0.0 <= r[lastNote] <= Max(0.0, Monotony(m, lastNote))
  {
    if note == lastNote || lastNote == "" then m
    else m[lastNote := Max(0.0, Monotony(m, lastNote) - MonotonySwitchReduction)]
  }

  /** The cast note's monotony after the cast: grown on a repeat, decayed, clamped to [0, 100]. */
  function CastMonotony(m: map<string, real>, note: string, lastNote: string, b: BuildStats, amp: real,
                        interval: real): (r: real)
    ensures 0.0 <= r <= 100.0
  {
    var grown := if note == lastNote then Monotony(m, note) + RepeatGain(b, amp) else Monotony(m, note);
    Min(100.0, Max(0.0, grown - Decay(b.monotonyDecayRate, interval)))
  }

  /** Density after a cast: raised, decayed, clamped to [0, 100]. */
  function DensityAfterCast(d: real, b: BuildStats, amp: real, interval: real): (r: real)
    ensures 0.0 <= r <= 100.0
  {
    Min(100.0, Max(0.0, d + DensityGain(b, amp) - Decay(b.densityDecayRate, interval)))
  }

  /** Density after a rest: lowered by the build's rest reduction, floored at 0. */
  function DensityAfterRest(d: real, b: BuildStats): (r: real)
    ensures r >= 0.0
    ensures b.restDensityReduction >= 0.0 ==> r <= Max(0.0, d)
  {
    Max(0.0, d - b.restDensityReduction)
  }

  /** Dissonance after a cast: raised by a dissonant chord, else eased by 15; then decayed and clamped to [0, 100]. */
  function DissonanceAfterCast(d: real, add: real, b: BuildStats, amp: real, interval: real): (r: real)
    ensures 0.0 <= r <= 100.0
  {
    var raised := if add > 0.0 then d + DissonanceGain(add, b, amp) else Max(0.0, d - DissonanceHarmonyReduction);
    Min(100.0, Max(0.0, raised - Decay(b.dissonanceDecayRate, interval)))
  }

  /** Every note's monotony lowered by 10, floored at 0, after a dissonant cast. */
  function Eased(m: map<string, real>): (r: map<string, real>)
    ensures r.Keys == m.Keys
    ensures forall k :: k in m ==> 0.0 <= r[k] && (m[k] >= 0.0 ==> r[k] <= m[k])
  {
    map k | k in m :: Max(0.0, m[k] - DissonanceMonotonyEase)
  }

  /** The monotony damage ladder. */
  function MonoMult(monotony: real): (r: real)
    ensures 0.0 <= r <= 1.0
    ensures r == 0.0 <==> monotony >= MonotonyLock
    ensures r == 1.0 <==> monotony < MonotonyWarn
  {
    if monotony >= MonotonyLock then 0.0
    else if monotony >= MonotonySilence then 0.5
    else if monotony >= MonotonyWarn then 0.85
    else 1.0
  }

  /** The density damage ladder. */
  function DensityMult(density: real): (r: real)
    ensures 0.6 <= r <= 1.0
    ensures r <= 0.7 <==> density >= DensityOverload
    ensures r == 1.0 <==> density < DensityMild
  {
    if density >= DensityCrash then 0.6
    else if density >= DensityOverload then 0.7
    else if density >= DensityMild then 0.9
    else 1.0
  }

  function EffectiveDamage(raw: real, monotony: real, density: real): real
  {
    raw * MonoMult(monotony) * DensityMult(density)
  }

  /** Health lost to dissonance in one beat, half again as much under density overload. */
  function HpLoss(dissonance: real, density: real, interval: real): (r: real)
    ensures interval > 0.0 ==> 0.0 <= r <= 9.0 * interval
    ensures dissonance < DissonancePain ==> r == 0.0
  {
    var amplifier := if density >= DensityOverload then 1.5 else 1.0;
    if dissonance >= DissonanceDanger then 6.0 * interval * amplifier
    else if dissonance >= DissonanceCorrode then 3.0 * interval * amplifier
    else if dissonance >= DissonancePain then 1.0 * interval * amplifier
    else 0.0
  }

  function BeatTime(i: int, interval: real): real
  {
    i as real * interval
  }

  /** The log's action text: the note, then `[chord]` for a chord, then `+modifier`. */
  function ActionLabel(a: StrategyAction): string
  {
    a.note + (if a.isChord then "[" + a.chordType + "]" else "") + (if a.modifier != "" then "+" + a.modifier else "")
  }

  // ---------------------------------------------------------------------------
  // The run, beat by beat

  /** The simulator's local variables and the result fields it accumulates. */
  datatype SimState = SimState(
    mono: map<string, real>, density: real, dissonance: real, lastNote: string,
    restCount: int, unique: set<string>, afiLevel: int,
    totalDamage: real, totalRaw: real, healing: real, shielding: real, hpDamage: real,
    lockouts: int, penalties: int, peakMono: real, peakDensity: real, peakDissonance: real,
    log: seq<BeatEntry>)

  const Start: SimState :=
    SimState(map[], 0.0, 0.0, "", 0, {}, 0, 0.0, 0.0, 0.0, 0.0, 0.0, 0, 0, 0.0, 0.0, 0.0, [])

  /** The rest count at beat `i`: cleared at the first beat of every four-beat measure. */
  function MeasureRests(restCount: int, i: int): int
  {
    if i % 4 == 0 then 0 else restCount
  }

  /** A rest beat: only the rest count, the density and the log change; the new entry is a damage-free "REST". */
  function RestStep(b: BuildStats, st: SimState, i: nat, rc: int): (r: SimState)
    requires b.bpm != 0
    ensures r == st.(restCount := rc + 1, density := r.density, log := r.log)
    ensures r.density >= 0.0
    ensures |r.log| == |st.log| + 1 && r.log[..|st.log|] == st.log
    ensures r.log[|st.log|].action == "REST" && r.log[|st.log|].rawDmg == 0.0 && r.log[|st.log|].effDmg == 0.0
  {
    var density := DensityAfterRest(st.density, b);
    st.(restCount := rc + 1, density := density,
        log := st.log + [BeatEntry(i, BeatTime(i, BeatInterval(b)), "REST", 0.0, 0.0, 0.0, density, st.dissonance)])
  }

  /**
   * A cast beat: the note becomes the last and a used one, the gauges stay in
   * range, each counter rises by at most one, and one entry is logged.
   */
  function CastStep(b: BuildStats, chords: map<string, ChordType>, st: SimState, i: nat, a: StrategyAction, rc: int)
    : (r: SimState)
    requires b.bpm != 0 && a.note in b.notes
    ensures r.lastNote == a.note && r.unique == st.unique + {a.note} && r.restCount == rc
    ensures 0.0 <= r.density <= 100.0 && 0.0 <= r.dissonance <= 100.0 && 0 <= r.afiLevel <= 4
    ensures st.lockouts <= r.lockouts <= st.lockouts + 1 && st.penalties <= r.penalties <= st.penalties + 1
    ensures |r.log| == |st.log| + 1 && r.log[..|st.log|] == st.log
  {
    var interval := BeatInterval(b);
    var unique := st.unique + {a.note};
    var ch := ChordOf(b, chords, a, b.notes[a.note]);
    var raw := RawDamage(NoteDamage(b, a.note).value, RestDamageBonus(b, rc), ch.mult, ModifierMult(a.modifier));
    var amp := AfiAmp(b, st.afiLevel);
    var noteMono := CastMonotony(st.mono, a.note, st.lastNote, b, amp, interval);
    var mono := AfterSwitch(st.mono, a.note, st.lastNote)[a.note := noteMono];
    var density := DensityAfterCast(st.density, b, amp, interval);
    var dissonance := DissonanceAfterCast(st.dissonance, ch.dissonanceAdd, b, amp, interval);
    var eff := EffectiveDamage(raw, noteMono, density);
    SimState(
      if ch.dissonanceAdd > 0.0 then Eased(mono) else mono,
      density, dissonance, a.note, rc, unique, AfiLevel(|unique|),
      st.totalDamage + eff, st.totalRaw + raw, st.healing + ch.heal, st.shielding + ch.shield,
      st.hpDamage + HpLoss(dissonance, density, interval),
      if noteMono >= MonotonyLock then st.lockouts + 1 else st.lockouts,
      if density >= DensityOverload then st.penalties + 1 else st.penalties,
      Max(st.peakMono, noteMono), Max(st.peakDensity, density), Max(st.peakDissonance, dissonance),
      st.log + [BeatEntry(i, BeatTime(i, interval), ActionLabel(a), raw, eff, noteMono, density, dissonance)])
  }

  /** Beat `i`; `None` is the `KeyError` of a cast whose note the build does not have. */
  function Step(b: BuildStats, chords: map<string, ChordType>, st: SimState, i: nat, a: StrategyAction)
    : (r: Option<SimState>)
    requires b.bpm != 0
    ensures r.None? <==> !a.isRest && a.note !in b.notes
    ensures r.Some? ==> |r.value.log| == |st.log| + 1 && r.value.log[..|st.log|] == st.log
  {
    var rc := MeasureRests(st.restCount, i);
    if a.isRest then Some(RestStep(b, st, i, rc))
    else if a.note in b.notes then Some(CastStep(b, chords, st, i, a, rc))
    else None
  }

  /** The state after the first `n` actions. */
  function Run(b: BuildStats, chords: map<string, ChordType>, actions: seq<StrategyAction>, n: nat): (r: Option<SimState>)
    requires b.bpm != 0 && n <= |actions|
    ensures r.Some? ==> |r.value.log| == n
  {
    if n == 0 then Some(Start)
    else match Run(b, chords, actions, n - 1)
         case None => None
         case Some(st) => Step(b, chords, st, n - 1, actions[n - 1])
  }

  lemma RunStep(b: BuildStats, chords: map<string, ChordType>, actions: seq<StrategyAction>, n: nat)
    requires b.bpm != 0 && n < |actions|
    ensures Run(b, chords, actions, n + 1)
            == match Run(b, chords, actions, n)
               case None => None
               case Some(st) => Step(b, chords, st, n, actions[n])
  {
  }

  /** Once a beat has raised, the run stays failed. */
  lemma {:induction false} RunHalts(b: BuildStats, chords: map<string, ChordType>, actions: seq<StrategyAction>,
                                    j: nat, n: nat)
    requires b.bpm != 0 && j <= n <= |actions|
    requires Run(b, chords, actions, j).None?
    ensures Run(b, chords, actions, n).None?
    decreases n - j
  {
    if j < n {
      RunHalts(b, chords, actions, j, n - 1);
    }
  }

  // ---------------------------------------------------------------------------
  // What the log records

  /**
   * Entry `j` of a log: its beat and time; a rest records "REST", no damage, the
   * previous density lowered by the rest reduction and the previous dissonance; a
   * cast records its label, gauges inside [0, 100] and the raw damage scaled by the
   * two ladders.
   */
  predicate EntryFacts(b: BuildStats, actions: seq<StrategyAction>, log: seq<BeatEntry>, j: nat)
    requires b.bpm != 0 && j < |log| <= |actions|
  {
    var e := log[j];
    var prevDensity := if j == 0 then 0.0 else log[j - 1].density;
    var prevDissonance := if j == 0 then 0.0 else log[j - 1].dissonance;
    && e.beat == j && e.time == BeatTime(j, BeatInterval(b))
    && (actions[j].isRest ==>
          && e.action == "REST" && e.rawDmg == 0.0 && e.effDmg == 0.0 && e.monotony == 0.0
          && e.density == DensityAfterRest(prevDensity, b) && e.dissonance == prevDissonance)
    && (!actions[j].isRest ==>
          && e.action == ActionLabel(actions[j])
          && 0.0 <= e.monotony <= 100.0 && 0.0 <= e.density <= 100.0 && 0.0 <= e.dissonance <= 100.0
          && e.effDmg == EffectiveDamage(e.rawDmg, e.monotony, e.density))
  }

  /** Cast beats whose monotony reached the lockout threshold. */
  function LockoutCount(actions: seq<StrategyAction>, log: seq<BeatEntry>): nat
    requires |log| <= |actions|
  {
    if log == [] then 0
    else LockoutCount(actions, log[..|log| - 1])
         + (if !actions[|log| - 1].isRest && log[|log| - 1].monotony >= MonotonyLock then 1 else 0)
  }

  /** Cast beats whose density reached the overload threshold. */
  function OverloadCount(actions: seq<StrategyAction>, log: seq<BeatEntry>): nat
    requires |log| <= |actions|
  {
    if log == [] then 0
    else OverloadCount(actions, log[..|log| - 1])
         + (if !actions[|log| - 1].isRest && log[|log| - 1].density >= DensityOverload then 1 else 0)
  }

  /** Health lost to dissonance, beat by beat, from each cast's logged gauges. */
  function HpTotal(interval: real, actions: seq<StrategyAction>, log: seq<BeatEntry>): real
    requires |log| <= |actions|
  {
    if log == [] then 0.0
    else HpTotal(interval, actions, log[..|log| - 1])
         + (if actions[|log| - 1].isRest then 0.0
            else HpLoss(log[|log| - 1].dissonance, log[|log| - 1].density, interval))
  }

  function EffTotal(log: seq<BeatEntry>): real
  {
    if log == [] then 0.0 else EffTotal(log[..|log| - 1]) + log[|log| - 1].effDmg
  }

  function RawTotal(log: seq<BeatEntry>): real
  {
    if log == [] then 0.0 else RawTotal(log[..|log| - 1]) + log[|log| - 1].rawDmg
  }

  /** The largest logged value of a gauge over the cast beats, 0 before any. */
  function PeakMonotony(actions: seq<StrategyAction>, log: seq<BeatEntry>): real
    requires |log| <= |actions|
  {
    if log == [] then 0.0
    else if actions[|log| - 1].isRest then PeakMonotony(actions, log[..|log| - 1])
    else Max(PeakMonotony(actions, log[..|log| - 1]), log[|log| - 1].monotony)
  }

  function PeakDensity(actions: seq<StrategyAction>, log: seq<BeatEntry>): real
    requires |log| <= |actions|
  {
    if log == [] then 0.0
    else if actions[|log| - 1].isRest then PeakDensity(actions, log[..|log| - 1])
    else Max(PeakDensity(actions, log[..|log| - 1]), log[|log| - 1].density)
  }

  function PeakDissonance(actions: seq<StrategyAction>, log: seq<BeatEntry>): real
    requires |log| <= |actions|
  {
    if log == [] then 0.0
    else if actions[|log| - 1].isRest then PeakDissonance(actions, log[..|log| - 1])
    else Max(PeakDissonance(actions, log[..|log| - 1]), log[|log| - 1].dissonance)
  }

  /** The log of the first `n` beats, entry by entry, and the gauges equal to the last entry's. */
  predicate LogInv(b: BuildStats, actions: seq<StrategyAction>, n: nat, st: SimState)
    requires b.bpm != 0 && n <= |actions|
  {
    && |st.log| == n
    && (forall j :: 0 <= j < n ==> EntryFacts(b, actions, st.log, j))
    && st.density == (if n == 0 then 0.0 else st.log[n - 1].density)
    && st.dissonance == (if n == 0 then 0.0 else st.log[n - 1].dissonance)
  }

  /** Every gauge inside its range. */
  predicate GaugeInv(st: SimState)
  {
    && (forall k :: k in st.mono ==> 0.0 <= st.mono[k] <= 100.0)
    && st.density >= 0.0 && 0.0 <= st.dissonance <= 100.0
    && 0 <= st.afiLevel <= 4
  }

  /** The accumulated result fields, each a function of the log. */
  predicate TotalsInv(b: BuildStats, actions: seq<StrategyAction>, st: SimState)
    requires b.bpm != 0 && |st.log| <= |actions|
  {
    && st.lockouts == LockoutCount(actions, st.log)
    && st.penalties == OverloadCount(actions, st.log)
    && st.hpDamage == HpTotal(BeatInterval(b), actions, st.log)
    && st.totalDamage == EffTotal(st.log)
    && st.totalRaw == RawTotal(st.log)
    && st.peakMono == PeakMonotony(actions, st.log)
    && st.peakDensity == PeakDensity(actions, st.log)
    && st.peakDissonance == PeakDissonance(actions, st.log)
  }

  predicate SimInv(b: BuildStats, actions: seq<StrategyAction>, n: nat, st: SimState)
    requires b.bpm != 0 && n <= |actions|
  {
    LogInv(b, actions, n, st) && GaugeInv(st) && TotalsInv(b, actions, st)
  }

  lemma AfterSwitchRange(m: map<string, real>, note: string, lastNote: string)
    requires forall k :: k in m ==> 0.0 <= m[k] <= 100.0
    ensures var r := AfterSwitch(m, note, lastNote); forall k :: k in r ==> 0.0 <= r[k] <= 100.0
  {
  }

  lemma EasedRange(m: map<string, real>)
    requires forall k :: k in m ==> 0.0 <= m[k] <= 100.0
    ensures Eased(m).Keys == m.Keys
    ensures forall k :: k in m ==> 0.0 <= Eased(m)[k] <= m[k]
  {
  }

  /** A rest keeps every gauge in range; so does a cast. */
  lemma StepGauges(b: BuildStats, chords: map<string, ChordType>, st: SimState, i: nat, a: StrategyAction)
    requires b.bpm != 0 && GaugeInv(st)
    requires Step(b, chords, st, i, a).Some?
    ensures GaugeInv(Step(b, chords, st, i, a).value)
  {
    if !a.isRest {
      var interval := BeatInterval(b);
      var ch := ChordOf(b, chords, a, b.notes[a.note]);
      var noteMono := CastMonotony(st.mono, a.note, st.lastNote, b, AfiAmp(b, st.afiLevel), interval);
      AfterSwitchRange(st.mono, a.note, st.lastNote);
      var mono := AfterSwitch(st.mono, a.note, st.lastNote)[a.note := noteMono];
      if ch.dissonanceAdd > 0.0 {
        EasedRange(mono);
      }
    }
  }

  /** The new entry of a step satisfies its facts, and the older entries keep theirs. */
  lemma StepLog(b: BuildStats, chords: map<string, ChordType>, actions: seq<StrategyAction>, n: nat, st: SimState)
    requires b.bpm != 0 && n < |actions| && LogInv(b, actions, n, st)
    requires Step(b, chords, st, n, actions[n]).Some?
    ensures LogInv(b, actions, n + 1, Step(b, chords, st, n, actions[n]).value)
  {
    var next := Step(b, chords, st, n, actions[n]).value;
    assert next.log[..n] == st.log;
    forall j | 0 <= j < n + 1
      ensures EntryFacts(b, actions, next.log, j)
    {
      if j < n {
        assert EntryFacts(b, actions, st.log, j);
      }
    }
  }

  lemma StepTotals(b: BuildStats, chords: map<string, ChordType>, actions: seq<StrategyAction>, n: nat, st: SimState)
    requires b.bpm != 0 && n < |actions| && |st.log| == n && TotalsInv(b, actions, st)
    requires Step(b, chords, st, n, actions[n]).Some?
    ensures TotalsInv(b, actions, Step(b, chords, st, n, actions[n]).value)
  {
    var next := Step(b, chords, st, n, actions[n]).value;
    assert next.log[..|next.log| - 1] == st.log;
  }

  /** Every state the run reaches satisfies the invariant. */
  lemma {:induction false} RunInvariant(b: BuildStats, chords: map<string, ChordType>, actions: seq<StrategyAction>,
                                        n: nat)
    requires b.bpm != 0 && n <= |actions|
    requires Run(b, chords, actions, n).Some?
    ensures SimInv(b, actions, n, Run(b, chords, actions, n).value)
  {
    if n > 0 {
      RunInvariant(b, chords, actions, n - 1);
      var st := Run(b, chords, actions, n - 1).value;
      StepInvariant(b, chords, actions, n - 1, st);
      var next := Step(b, chords, st, n - 1, actions[n - 1]);
      assert Run(b, chords, actions, n) == next;
    }
  }

  /** One step from a state satisfying the invariant reaches one that satisfies it one beat later. */
  lemma StepInvariant(b: BuildStats, chords: map<string, ChordType>, actions: seq<StrategyAction>, n: nat,
                      st: SimState)
    requires b.bpm != 0 && n < |actions| && SimInv(b, actions, n, st)
    requires Step(b, chords, st, n, actions[n]).Some?
    ensures SimInv(b, actions, n + 1, Step(b, chords, st, n, actions[n]).value)
  {
    StepGauges(b, chords, st, n, actions[n]);
    StepLog(b, chords, actions, n, st);
    StepTotals(b, chords, actions, n, st);
  }

  /** The run fails exactly when some cast names a note the build does not have. */
  lemma {:induction false} RunFails(b: BuildStats, chords: map<string, ChordType>, actions: seq<StrategyAction>, n: nat)
    requires b.bpm != 0 && n <= |actions|
    ensures Run(b, chords, actions, n).None?
            <==> exists j :: 0 <= j < n && !actions[j].isRest && actions[j].note !in b.notes
  {
    if n > 0 {
      RunFails(b, chords, actions, n - 1);
      if Run(b, chords, actions, n - 1).Some? {
        var st := Run(b, chords, actions, n - 1).value;
        assert Run(b, chords, actions, n) == Step(b, chords, st, n - 1, actions[n - 1]);
      }
    }
  }

  // ---------------------------------------------------------------------------
  // The scores

  /** The largest positive effective damage in the log, 0 when there is none. */
  function BurstPeak(log: seq<BeatEntry>): (r: real)
    ensures r >= 0.0
    ensures forall j :: 0 <= j < |log| ==> log[j].effDmg <= r
  {
    if log == [] then 0.0
    else
      assert forall j :: 0 <= j < |log| - 1 ==> log[..|log| - 1][j] == log[j];
      Max(BurstPeak(log[..|log| - 1]), log[|log| - 1].effDmg)
  }

  /** `x / total_time` when the run lasted a positive time, else 0. */
  function PerSecond(x: real, totalTime: real): real
  {
    if totalTime > 0.0 then x / totalTime else 0.0
  }

  /** Healing and shielding relative to maximum health, plus dodge, capped at 100. */
  function SurvivalScore(b: BuildStats, healing: real, shielding: real): (r: real)
    requires b.maxHp != 0.0
    ensures r <= 100.0
    ensures b.maxHp > 0.0 && healing >= 0.0 && shielding >= 0.0 && b.dodgeChance >= 0.0 ==> r >= 0.0
  {
    var healScore := Min(100.0, healing / b.maxHp * 50.0);
    var shieldScore := Min(100.0, shielding / b.maxHp * 50.0);
    assert b.maxHp > 0.0 && healing >= 0.0 && shielding >= 0.0 ==> healScore >= 0.0 && shieldScore >= 0.0 by {
      if b.maxHp > 0.0 {
        RatioBounds(healing, b.maxHp);
        RatioBounds(shielding, b.maxHp);
      }
    }
    Min(100.0, healScore + shieldScore + b.dodgeChance * 200.0)
  }

  /** Health lost relative to maximum health, and lockout and overload beats per beat, capped at 100. */
  function RiskScore(b: BuildStats, hpDamage: real, lockouts: int, penalties: int, beats: nat): (r: real)
    requires b.maxHp != 0.0
    ensures r <= 100.0
    ensures b.maxHp > 0.0 && hpDamage >= 0.0 && lockouts >= 0 && penalties >= 0 ==> r >= 0.0
  {
    var perBeat := if beats > 1 then beats as real else 1.0;
    assert b.maxHp > 0.0 && hpDamage >= 0.0 && lockouts >= 0 && penalties >= 0 ==>
             hpDamage / b.maxHp >= 0.0 && lockouts as real / perBeat >= 0.0 && penalties as real / perBeat >= 0.0 by {
      RatioBounds(lockouts as real, perBeat);
      RatioBounds(penalties as real, perBeat);
      if b.maxHp > 0.0 {
        RatioBounds(hpDamage, b.maxHp);
      }
    }
    Min(100.0, (hpDamage / b.maxHp * 40.0 + lockouts as real / perBeat * 40.0 + penalties as real / perBeat * 20.0) * 100.0)
  }

  /** The weighted score: risk only ever lowers it, and with non-negative weights it is at most 100 per unit of the positive weights. */
  function Composite(w: Weights, dpsScore: real, survival: real, risk: real): (r: real)
    ensures w.risk >= 0.0 && risk >= 0.0 ==> r <= w.dps * dpsScore + w.survival * survival
    ensures (w.dps >= 0.0 && w.survival >= 0.0 && w.risk >= 0.0 && dpsScore <= 100.0 && survival <= 100.0
             && risk >= 0.0) ==> r <= 100.0 * (w.dps + w.survival)
  {
    assert w.risk >= 0.0 && risk >= 0.0 ==> w.risk * risk >= 0.0 by {
      if w.risk >= 0.0 && risk >= 0.0 {
        MulNonneg(w.risk, risk);
      }
    }
    assert w.dps >= 0.0 && w.survival >= 0.0 && dpsScore <= 100.0 && survival <= 100.0
           ==> w.dps * dpsScore <= 100.0 * w.dps && w.survival * survival <= 100.0 * w.survival by {
      if w.dps >= 0.0 && w.survival >= 0.0 && dpsScore <= 100.0 && survival <= 100.0 {
        MulNonneg(w.dps, 100.0 - dpsScore);
        MulNonneg(w.survival, 100.0 - survival);
      }
    }
    w.dps * dpsScore + w.survival * survival - w.risk * risk
  }

  /** The result fields computed after the last beat. */
  function Finish(b: BuildStats, w: Weights, name: string, st: SimState, beats: nat): (r: SimulationResult)
    requires b.bpm != 0 && b.maxHp != 0.0
    ensures r.strategyName == name && r.beatLog == st.log
    ensures r.survivalScore <= 100.0 && r.riskScore <= 100.0
    ensures r.compositeScore == Composite(w, Min(100.0, r.effectiveDps / 100.0 * 50.0), r.survivalScore, r.riskScore)
    ensures r.sustainedDps == r.effectiveDps && r.totalHealing == st.healing && r.totalShielding == st.shielding
  {
    var interval := BeatInterval(b);
    var totalTime := beats as real * interval;
    var effective := PerSecond(st.totalDamage, totalTime);
    var survival := SurvivalScore(b, st.healing, st.shielding);
    var risk := RiskScore(b, st.hpDamage, st.lockouts, st.penalties, beats);
    var dpsScore := Min(100.0, effective / 100.0 * 50.0);
    SimulationResult(
      name, PerSecond(st.totalRaw, totalTime), effective, BurstPeak(st.log) / interval, effective,
      st.healing, st.shielding, 0.0, survival,
      st.hpDamage, st.lockouts, st.penalties, risk,
      st.peakMono, st.peakDensity, st.peakDissonance, 0.0,
      Composite(w, dpsScore, survival, risk),
      st.log)
  }

  /** `simulate` as a function of the build, the chord registry, the weights and the strategy. */
  function Simulation(b: BuildStats, chords: map<string, ChordType>, w: Weights, s: StrategyDefinition)
    : (r: Option<SimulationResult>)
    requires b.bpm != 0 && b.maxHp != 0.0
    ensures r.Some? ==> r.value.strategyName == s.name && |r.value.beatLog| == |s.actions|
  {
    match Run(b, chords, s.actions, |s.actions|)
    case None => None
    case Some(st) => Some(Finish(b, w, s.name, st, |s.actions|))
  }

  // ---------------------------------------------------------------------------
  // Properties of the beat arithmetic and of the whole simulation

  /** The monotony ladder: zero exactly at lockout, never above 1, and lower for a higher gauge. */
  lemma MonoMultLadder(x: real, y: real)
    ensures MonoMult(x) == 0.0 <==> x >= MonotonyLock
    ensures 0.0 <= MonoMult(x) <= 1.0
    ensures x < MonotonyWarn <==> MonoMult(x) == 1.0
    ensures x <= y ==> MonoMult(y) <= MonoMult(x)
  {
  }

  /** The density ladder: at most 0.7 exactly from the overload threshold, and lower for a higher gauge. */
  lemma DensityMultLadder(x: real, y: real)
    ensures DensityMult(x) <= 0.7 <==> x >= DensityOverload
    ensures 0.6 <= DensityMult(x) <= 1.0
    ensures x < DensityMild <==> DensityMult(x) == 1.0
    ensures x <= y ==> DensityMult(y) <= DensityMult(x)
  {
  }

  /** Fatigue only ever removes damage. */
  lemma EffectiveDamageBounds(raw: real, monotony: real, density: real)
    requires raw >= 0.0
    ensures 0.0 <= EffectiveDamage(raw, monotony, density) <= raw
  {
    var f := MonoMult(monotony) * DensityMult(density);
    MulNonneg(MonoMult(monotony), DensityMult(density));
    MulNonneg(MonoMult(monotony), 1.0 - DensityMult(density));
    MulNonneg(raw, f);
    MulNonneg(raw, 1.0 - f);
  }

  /** Health loss is zero below the pain threshold and at most nine intervals' worth. */
  lemma HpLossBounds(dissonance: real, density: real, interval: real)
    requires interval > 0.0
    ensures 0.0 <= HpLoss(dissonance, density, interval) <= 9.0 * interval
    ensures HpLoss(dissonance, density, interval) == 0.0 <==> dissonance < DissonancePain
  {
  }

  /** A modifier never lowers damage, and an unknown one leaves it as it is. */
  lemma ModifierMultRange(modifier: string)
    ensures ModifierMult(modifier) >= 1.0
    ensures modifier !in ModifierMultipliers ==> ModifierMult(modifier) == 1.0
  {
  }

  /** An unknown or locked chord acts as a plain cast. */
  lemma ChordOfPlain(b: BuildStats, chords: map<string, ChordType>, a: StrategyAction, note: NoteStats)
    requires !a.isChord || a.chordType !in chords
             || (chords[a.chordType].isExtended && !b.extendedChordEnabled)
    ensures ChordOf(b, chords, a, note) == PlainCast
  {
  }

  /** Which of the chord's damage forms decides the factor: a zone, else a summon (which needs no zone), else a DOT, else the plain multiplier. */
  lemma ChordOfPriority(b: BuildStats, chords: map<string, ChordType>, a: StrategyAction, note: NoteStats)
    requires a.isChord && a.chordType in chords
    requires !chords[a.chordType].isExtended || b.extendedChordEnabled
    ensures var c := chords[a.chordType]; var r := ChordOf(b, chords, a, note);
            && r.dissonanceAdd == c.fatigueDissonance * b.chordDissonanceMult
            && (c.summonDpsRatio > 0.0 && c.zoneTickRatio == 0.0 ==>
                  r.mult == c.summonDpsRatio * (c.summonDurationMult * note.TotalDur() * DurPerPoint))
            && (c.zoneTickRatio > 0.0 ==> r.mult == c.zoneTickRatio * (c.zoneDurationMult * note.TotalDur() / 0.5))
            && (c.zoneTickRatio <= 0.0 && c.dotTotalRatio > 0.0 && !(c.summonDpsRatio > 0.0 && c.zoneTickRatio == 0.0)
                ==> r.mult == c.dotTotalRatio)
            && (c.zoneTickRatio <= 0.0 && c.dotTotalRatio <= 0.0 && !(c.summonDpsRatio > 0.0 && c.zoneTickRatio == 0.0)
                ==> r.mult == c.dmgMultiplier + b.chordDmgBonus)
  {
  }

  /** A rest changes nothing but the measure's rest count, the density and the log. */
  lemma RestStepFrame(b: BuildStats, chords: map<string, ChordType>, st: SimState, i: nat, a: StrategyAction)
    requires b.bpm != 0 && a.isRest
    ensures var next := Step(b, chords, st, i, a).value;
            && next.density == DensityAfterRest(st.density, b)
            && next.restCount == MeasureRests(st.restCount, i) + 1
            && |next.log| == |st.log| + 1
            && next.(restCount := st.restCount, density := st.density, log := st.log) == st
  {
  }

  /** Repeating the last note raises its monotony before decay; switching eases the last note and leaves the rest. */
  lemma CastMonotonyShape(m: map<string, real>, note: string, lastNote: string, b: BuildStats, amp: real,
                          interval: real)
    ensures note == lastNote ==> AfterSwitch(m, note, lastNote) == m
    ensures note != lastNote && lastNote != "" ==>
              var r := AfterSwitch(m, note, lastNote);
              && r.Keys == m.Keys + {lastNote}
              && r[lastNote] == Max(0.0, Monotony(m, lastNote) - MonotonySwitchReduction)
              && forall k :: k in m && k != lastNote ==> r[k] == m[k]
    ensures note == lastNote && RepeatGain(b, amp) > Decay(b.monotonyDecayRate, interval) && Monotony(m, note) < 100.0
            ==> CastMonotony(m, note, lastNote, b, amp, interval) > Monotony(m, note)
  {
  }

  /** The largest positive effective damage of a log, or 0. */
  lemma {:induction false} BurstPeakIsMax(log: seq<BeatEntry>)
    ensures BurstPeak(log) >= 0.0
    ensures forall j :: 0 <= j < |log| ==> log[j].effDmg <= BurstPeak(log)
    ensures BurstPeak(log) == 0.0 || exists j :: 0 <= j < |log| && log[j].effDmg == BurstPeak(log)
  {
    if log != [] {
      var init := log[..|log| - 1];
      BurstPeakIsMax(init);
      assert forall j :: 0 <= j < |init| ==> init[j] == log[j];
    }
  }

  lemma {:induction false} HpTotalNonneg(interval: real, actions: seq<StrategyAction>, log: seq<BeatEntry>)
    requires interval > 0.0 && |log| <= |actions|
    ensures HpTotal(interval, actions, log) >= 0.0
  {
    if log != [] {
      HpTotalNonneg(interval, actions, log[..|log| - 1]);
      HpLossBounds(log[|log| - 1].dissonance, log[|log| - 1].density, interval);
    }
  }

  /**
   * What `simulate` promises: it fails exactly on a cast of a missing note;
   * otherwise the log has one entry per action with the facts of `EntryFacts`,
   * the counters, totals and peaks are those of the log, and both the survival
   * and the risk score are at most 100.
   */
  lemma SimulationFacts(b: BuildStats, chords: map<string, ChordType>, w: Weights, s: StrategyDefinition)
    requires b.bpm != 0 && b.maxHp != 0.0
    ensures Simulation(b, chords, w, s).None?
            <==> exists j :: 0 <= j < |s.actions| && !s.actions[j].isRest && s.actions[j].note !in b.notes
    ensures Simulation(b, chords, w, s).Some? ==>
              var r := Simulation(b, chords, w, s).value;
              && r.strategyName == s.name
              && |r.beatLog| == |s.actions|
              && (forall j :: 0 <= j < |s.actions| ==> EntryFacts(b, s.actions, r.beatLog, j))
              && r.lockoutBeats == LockoutCount(s.actions, r.beatLog)
              && r.densityPenaltyBeats == OverloadCount(s.actions, r.beatLog)
              && r.dissonanceDamage == HpTotal(BeatInterval(b), s.actions, r.beatLog)
              && r.peakMonotony == PeakMonotony(s.actions, r.beatLog)
              && r.peakDensity == PeakDensity(s.actions, r.beatLog)
              && r.peakDissonance == PeakDissonance(s.actions, r.beatLog)
              && r.survivalScore <= 100.0 && r.riskScore <= 100.0
  {
    RunFails(b, chords, s.actions, |s.actions|);
    if Run(b, chords, s.actions, |s.actions|).Some? {
      RunInvariant(b, chords, s.actions, |s.actions|);
    }
  }

  /**
   * With a positive tempo and maximum health: the risk score is in [0, 100], and
   * under the default weights the composite score is at most 75.
   */
  lemma {:induction false} ScoreBounds(b: BuildStats, chords: map<string, ChordType>, s: StrategyDefinition)
    requires b.bpm > 0 && b.maxHp > 0.0
    requires Simulation(b, chords, DefaultWeights, s).Some?
    ensures var r := Simulation(b, chords, DefaultWeights, s).value;
            && 0.0 <= r.riskScore <= 100.0 && r.burstDps >= 0.0
            && r.compositeScore <= 75.0
  {
    var st := Run(b, chords, s.actions, |s.actions|).value;
    RunInvariant(b, chords, s.actions, |s.actions|);
    var interval := BeatInterval(b);
    HpTotalNonneg(interval, s.actions, st.log);
    RatioBounds(st.hpDamage, b.maxHp);
    var perBeat := if |s.actions| > 1 then |s.actions| as real else 1.0;
    RatioBounds(st.lockouts as real, perBeat);
    RatioBounds(st.penalties as real, perBeat);
    BurstPeakIsMax(st.log);
    RatioBounds(BurstPeak(st.log), interval);
  }

  // ---------------------------------------------------------------------------
  // The simulator

  /** Every note's monotony lowered by 10 in place, as the loop over `monotony_per_note` does. */
  method EaseAll(m: map<string, real>) returns (r: map<string, real>)
    ensures r == Eased(m)
  {
    r := m;
    var pending := m.Keys;
    while pending != {}
      invariant pending <= m.Keys && r.Keys == m.Keys
      invariant forall k :: k in m ==> r[k] == if k in pending then m[k] else Max(0.0, m[k] - DissonanceMonotonyEase)
      decreases |pending|
    {
      var k :| k in pending;
      r := r[k := Max(0.0, r[k] - DissonanceMonotonyEase)];
      pending := pending - {k};
    }
  }

  /** The monotony update of a cast, on the map in place: `noteMono` is the cast note's new value. */
  method UpdateMonotony(m: map<string, real>, note: string, lastNote: string, b: BuildStats, amp: real, interval: real)
    returns (mono: map<string, real>, noteMono: real)
    ensures noteMono == CastMonotony(m, note, lastNote, b, amp, interval)
    ensures mono == AfterSwitch(m, note, lastNote)[note := noteMono]
  {
    mono := m;
    noteMono := Monotony(mono, note);
    if note == lastNote {
      noteMono := noteMono + RepeatGain(b, amp);
    } else if lastNote != "" {
      mono := mono[lastNote := Max(0.0, Monotony(mono, lastNote) - MonotonySwitchReduction)];
    }
    noteMono := Max(0.0, noteMono - Decay(b.monotonyDecayRate, interval));
    noteMono := Min(100.0, noteMono);
    mono := mono[note := noteMono];
  }

  /** Density after a cast: raised by the cast, lowered by the decay, kept in [0, 100]. */
  method UpdateDensity(d: real, b: BuildStats, amp: real, interval: real) returns (density: real)
    ensures density == DensityAfterCast(d, b, amp, interval)
  {
    density := d + DensityGain(b, amp);
    density := Max(0.0, density - Decay(b.densityDecayRate, interval));
    density := Min(100.0, density);
  }

  /** The dissonance update of a cast; a dissonant chord also eases every note's monotony. */
  method UpdateDissonance(d: real, add: real, b: BuildStats, amp: real, interval: real, m: map<string, real>)
    returns (dissonance: real, mono: map<string, real>)
    ensures dissonance == DissonanceAfterCast(d, add, b, amp, interval)
    ensures mono == if add > 0.0 then Eased(m) else m
  {
    dissonance := d;
    mono := m;
    if add > 0.0 {
      dissonance := dissonance + DissonanceGain(add, b, amp);
      mono := EaseAll(mono);
    } else {
      dissonance := Max(0.0, dissonance - DissonanceHarmonyReduction);
    }
    dissonance := Max(0.0, dissonance - Decay(b.dissonanceDecayRate, interval));
    dissonance := Min(100.0, dissonance);
  }

  /**
   * The cast half of the loop body: the chord, the damage, the three gauges with
   * their penalties, the running totals and the log entry, in the source's order.
   */
  method CastBeat(b: BuildStats, chords: map<string, ChordType>, st: SimState, i: nat, a: StrategyAction,
                  baseDmg: real)
    returns (next: SimState)
    requires b.bpm != 0 && a.note in b.notes && baseDmg == NoteDamage(b, a.note).value
    ensures next == CastStep(b, chords, st, i, a, MeasureRests(st.restCount, i))
  {
    var interval := BeatInterval(b);
    var restCount := MeasureRests(st.restCount, i);
    var unique := st.unique + {a.note};
    var ch := ChordOf(b, chords, a, b.notes[a.note]);
    var healing := st.healing + ch.heal;
    var shielding := st.shielding + ch.shield;
    var raw := RawDamage(baseDmg, RestDamageBonus(b, restCount), ch.mult, ModifierMult(a.modifier));
    var totalRaw := st.totalRaw + raw;

    var amp := AfiAmp(b, st.afiLevel);
    var mono, noteMono := UpdateMonotony(st.mono, a.note, st.lastNote, b, amp, interval);
    var lockouts := if noteMono >= MonotonyLock then st.lockouts + 1 else st.lockouts;

    var density := UpdateDensity(st.density, b, amp, interval);
    var penalties := if density >= DensityOverload then st.penalties + 1 else st.penalties;

    var dissonance;
    dissonance, mono := UpdateDissonance(st.dissonance, ch.dissonanceAdd, b, amp, interval, mono);
    var hpDamage := st.hpDamage + HpLoss(dissonance, density, interval);

    var eff := EffectiveDamage(raw, noteMono, density);
    next := SimState(mono, density, dissonance, a.note, restCount, unique, AfiLevel(|unique|),
                     st.totalDamage + eff, totalRaw, healing, shielding, hpDamage,
                     lockouts, penalties, Max(st.peakMono, noteMono), Max(st.peakDensity, density),
                     Max(st.peakDissonance, dissonance),
                     st.log + [BeatEntry(i, BeatTime(i, interval), ActionLabel(a), raw, eff, noteMono, density, dissonance)]);
  }

  class StrategySimulator {
    const build: PlayerBuild
    const chords: map<string, ChordType>
    const weights: Weights

    constructor(build: PlayerBuild, chords: map<string, ChordType>)
      ensures this.build == build && this.chords == chords && weights == DefaultWeights
    {
      this.build := build;
      this.chords := chords;
      weights := DefaultWeights;
    }

    /**
     * `simulate`: one strategy against the current build. `None` is the `KeyError`
     * of a cast whose note the build lacks; a zero BPM or maximum health would
     * divide by zero in the source, so the build must have neither.
     */
    method Simulate(strategy: StrategyDefinition) returns (r: Option<SimulationResult>)
      requires build.bpm != 0 && build.maxHp != 0.0
      ensures r == Simulation(build.Stats(), chords, weights, strategy)
    {
      var b := build.Stats();
      var actions := strategy.actions;
      var st := Start;
      var i := 0;
      while i < |actions|
        invariant 0 <= i <= |actions|
        invariant Run(b, chords, actions, i) == Some(st)
      {
        var a := actions[i];
        RunStep(b, chords, actions, i);
        if a.isRest {
          ghost var prev := st;
          var restCount := MeasureRests(st.restCount, i) + 1;
          var density := Max(0.0, st.density - b.restDensityReduction);
          st := st.(restCount := restCount, density := density,
                    log := st.log + [BeatEntry(i, BeatTime(i, BeatInterval(b)), "REST", 0.0, 0.0, 0.0, density, st.dissonance)]);
          assert st == RestStep(b, prev, i, MeasureRests(prev.restCount, i));
        } else {
          var baseDmg := build.GetNoteDamage(a.note);
          if baseDmg.None? {
            RunHalts(b, chords, actions, i + 1, |actions|);
            return None;
          }
          st := CastBeat(b, chords, st, i, a, baseDmg.value);
        }
        i := i + 1;
      }
      r := Some(Finish(b, weights, strategy.name, st, |actions|));
    }
  }
}
