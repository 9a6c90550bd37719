/**
 * The player-build half of the balance scorer (`BalanceKit/balance_scorer.py`):
 * the four-parameter note statistics with their roguelike growth bonuses, the
 * upgrade records, and the mutable build that upgrades are applied to.
 */
module BalanceBuild {
  import opened Wrappers
  import opened Numerics

  /** Conversion from one parameter point to game units. */
  const DmgPerPoint: real := 10.0
  const SpdPerPoint: real := 200.0
  const DurPerPoint: real := 0.5
  const SizePerPoint: real := 8.0

  /** 60 / 120 BPM. */
  const DefaultBeatInterval: real := 0.5

  // ---------------------------------------------------------------------------
  // Note statistics

  /** One white key's base parameters and the bonuses upgrades have added to them. */
  datatype NoteStats = NoteStats(
    name: string,
    baseDmg: int, baseSpd: int, baseDur: int, baseSize: int,
    bonusDmg: real, bonusSpd: real, bonusDur: real, bonusSize: real)
  {
    /** A parameter with its growth bonus: the base value when there is no bonus, never below it for a non-negative one. */
    function TotalDmg(): (r: real)
      ensures bonusDmg == 0.0 ==> r == baseDmg as real
      ensures bonusDmg >= 0.0 ==> r >= baseDmg as real
    {
      baseDmg as real + bonusDmg
    }

    function TotalSpd(): (r: real)
      ensures bonusSpd == 0.0 ==> r == baseSpd as real
      ensures bonusSpd >= 0.0 ==> r >= baseSpd as real
    {
      baseSpd as real + bonusSpd
    }

    function TotalDur(): (r: real)
      ensures bonusDur == 0.0 ==> r == baseDur as real
      ensures bonusDur >= 0.0 ==> r >= baseDur as real
    {
      baseDur as real + bonusDur
    }

    function TotalSize(): (r: real)
      ensures bonusSize == 0.0 ==> r == baseSize as real
      ensures bonusSize >= 0.0 ==> r >= baseSize as real
    {
      baseSize as real + bonusSize
    }

    /** A parameter in game units: converting back by the unit recovers the points, and the sign is kept. */
    function ActualDamage(): (r: real)
      ensures r / DmgPerPoint == TotalDmg()
      ensures TotalDmg() >= 0.0 ==> r >= 0.0
    {
      TotalDmg() * DmgPerPoint
    }

    function ActualSpeed(): (r: real)
      ensures r / SpdPerPoint == TotalSpd()
      ensures TotalSpd() >= 0.0 ==> r >= 0.0
    {
      TotalSpd() * SpdPerPoint
    }

    function ActualDuration(): (r: real)
      ensures r / DurPerPoint == TotalDur()
      ensures TotalDur() >= 0.0 ==> r >= 0.0
    {
      TotalDur() * DurPerPoint
    }

    function ActualRadius(): (r: real)
      ensures r / SizePerPoint == TotalSize()
      ensures TotalSize() >= 0.0 ==> r >= 0.0
    {
      TotalSize() * SizePerPoint
    }

    /** The hit estimate from size times speed, capped at a certain hit. */
    function HitFactor(): (r: real)
      ensures r <= 1.0
      ensures TotalSize() * TotalSpd() >= 0.0 ==> r >= 0.0
      ensures TotalSize() * TotalSpd() <= 12.0 ==> r == TotalSize() * TotalSpd() / 12.0
    {
      Min(1.0, TotalSize() * TotalSpd() / 12.0)
    }

    /** Damage per beat-length second before any fatigue penalty. */
    function EffectiveDps(): (r: real)
      ensures TotalDmg() >= 0.0 ==> r <= 2.0 * ActualDamage()
    {
      ActualDamagePerHit(ActualDamage(), HitFactor());
      ActualDamage() * HitFactor() / DefaultBeatInterval
    }

    /** `pi * r^2`; `math.pi` is the parameter `pi`. */
    function CoverageArea(pi: real): (r: real)
      ensures pi >= 0.0 ==> r >= 0.0
    {
      var area := pi * (ActualRadius() * ActualRadius());
      assert pi >= 0.0 ==> area >= 0.0 by {
        SquareNonneg(ActualRadius());
        if pi >= 0.0 {
          MulNonneg(pi, ActualRadius() * ActualRadius());
        }
      }
      area
    }
  }

  lemma ActualDamagePerHit(damage: real, hit: real)
    requires hit <= 1.0
    ensures damage >= 0.0 ==> damage * hit / DefaultBeatInterval <= 2.0 * damage
  {
    if damage >= 0.0 {
      MulNonneg(damage, 1.0 - hit);
      assert damage * hit <= damage;
    }
  }

  /** A note with no bonuses. */
  function BaseNote(name: string, dmg: int, spd: int, dur: int, size: int): NoteStats
  {
    NoteStats(name, dmg, spd, dur, size, 0.0, 0.0, 0.0, 0.0)
  }

  /** The seven white keys. */
  const WhiteKeys: set<string> := {"C", "D", "E", "F", "G", "A", "B"}

  /** `create_base_notes`: the seven white keys with their base parameters and no bonuses. */
  function BaseNotes(): (m: map<string, NoteStats>)
    ensures m.Keys == WhiteKeys
    ensures forall k :: k in m ==> m[k].name == k
    ensures forall k :: k in m ==> m[k].bonusDmg == m[k].bonusSpd == m[k].bonusDur == m[k].bonusSize == 0.0
    ensures forall k :: k in m ==> m[k].baseDmg + m[k].baseSpd + m[k].baseDur + m[k].baseSize == 12
  {
    map["C" := BaseNote("C", 3, 3, 3, 3), "D" := BaseNote("D", 2, 5, 3, 2),
        "E" := BaseNote("E", 2, 2, 4, 4), "F" := BaseNote("F", 2, 1, 5, 4),
        "G" := BaseNote("G", 5, 3, 2, 2), "A" := BaseNote("A", 4, 2, 4, 2),
        "B" := BaseNote("B", 4, 4, 2, 2)]
  }

  /** A bonus of `d` on a note's damage parameter raises its actual damage by `10 * d`. */
  lemma DamageBonusScales(n: NoteStats, d: real)
    ensures n.(bonusDmg := n.bonusDmg + d).ActualDamage() == n.ActualDamage() + d * DmgPerPoint
  {
  }

  // ---------------------------------------------------------------------------
  // Upgrades

  datatype UpgradeCategory = NoteStat | FatigueTolerance | RhythmMastery | ChordMastery | Survival

  /** One upgrade; its effects are linear per level, in the dictionary's order. */
  datatype Upgrade = Upgrade(
    id: string,
    name: string,
    category: UpgradeCategory,
    description: string,
    maxLevel: int,
    effectPerLevel: seq<(EffectKey, real)>,
    rarity: int)

  // ---------------------------------------------------------------------------
  // The build

  /** Every field of a player build, as one value. */
  datatype BuildStats = BuildStats(
    notes: map<string, NoteStats>,
    globalDmgBonus: real,
    chordDmgBonus: real,
    chordDissonanceMult: real,
    progressionBonus: real,
    monotonyRateMult: real,
    densityRateMult: real,
    dissonanceRateMult: real,
    monotonyDecayRate: real,
    densityDecayRate: real,
    dissonanceDecayRate: real,
    afiAmplifyReduction: real,
    bpm: int,
    restDensityReduction: real,
    restChargeBonus: real,
    maxHp: real,
    hpRegen: real,
    dodgeChance: real,
    extendedChordEnabled: bool,
    resolutionReduction: real)

  /** The dataclass defaults. */
  const DefaultBuild: BuildStats := BuildStats(BaseNotes(), 0.0, 0.0, 1.0, 0.0, 1.0, 1.0, 1.0, 5.0, 3.0, 2.0, 0.0,
                                               120, 25.0, 0.0, 200.0, 1.0, 0.0, false, 30.0)

  /** `beat_interval`: seconds per beat. */
  function BeatInterval(b: BuildStats): (r: real)
    requires b.bpm != 0
    ensures b.bpm > 0 ==> r > 0.0
  {
    var r := 60.0 / b.bpm as real;
    assert b.bpm > 0 ==> r > 0.0 by {
      if b.bpm > 0 {
        RatioBounds(60.0, b.bpm as real);
      }
    }
    r
  }

  /** `get_note_damage`: the note's damage with the global bonus; `None` where the dictionary lookup fails. */
  function NoteDamage(b: BuildStats, noteName: string): (r: Option<real>)
    ensures r.Some? <==> noteName in b.notes
    ensures noteName in b.notes && b.notes[noteName].TotalDmg() + b.globalDmgBonus >= 0.0 ==> r.value >= 0.0
  {
    if noteName in b.notes then Some((b.notes[noteName].TotalDmg() + b.globalDmgBonus) * DmgPerPoint) else None
  }

  /** Python's truth value of an optional note name: present and non-empty. */
  predicate HasTarget(target: Option<string>)
  {
    target.Some? && target.value != ""
  }

  /**
   * The keys `apply_upgrade` dispatches on, one constructor per string its
   * `elif` chain compares against; `OtherKey` is any other key.
   */
  datatype EffectKey =
    | Dmg | Spd | Dur | Size
    | GlobalDmg | MonotonyRateMult | DensityRateMult | DissonanceRateMult
    | MonotonyDecayBonus | DensityDecayBonus | DissonanceDecayBonus | AfiAmplifyReduction
    | BpmBonus | RestDensityReductionBonus | RestChargeBonus | ChordDmgBonus | ChordDissonanceMult
    | ExtendedChordEnabled | ProgressionBonus | ResolutionReductionBonus
    | MaxHpBonus | HpRegenBonus | DodgeChance
    | OtherKey(name: string)

  /** The keys that act on the target note rather than on the build. */
  predicate IsNoteKey(k: EffectKey)
  {
    k == Dmg || k == Spd || k == Dur || k == Size
  }

  /** The note-parameter half of the dispatch: adds `total` to one bonus of the target note. */
  function NoteEffect(n: NoteStats, k: EffectKey, total: real): NoteStats
    requires IsNoteKey(k)
  {
    match k
    case Dmg => n.(bonusDmg := n.bonusDmg + total)
    case Spd => n.(bonusSpd := n.bonusSpd + total)
    case Dur => n.(bonusDur := n.bonusDur + total)
    case Size => n.(bonusSize := n.bonusSize + total)
  }

  /** Which branch group of the dispatch a key belongs to; the groups follow the build's fields. */
  datatype KeyGroup =
    NoteGroup | RateGroup | DecayGroup | TempoGroup | RestGroup | ChordDamageGroup | ChordShapeGroup | SurvivalGroup
    | UnknownGroup

  function GroupOf(k: EffectKey): (g: KeyGroup)
    ensures g == NoteGroup <==> IsNoteKey(k)
    ensures g == UnknownGroup <==> k.OtherKey?
  {
    match k
    case Dmg | Spd | Dur | Size => NoteGroup
    case GlobalDmg | MonotonyRateMult | DensityRateMult | DissonanceRateMult => RateGroup
    case MonotonyDecayBonus | DensityDecayBonus | DissonanceDecayBonus | AfiAmplifyReduction => DecayGroup
    case BpmBonus | ResolutionReductionBonus => TempoGroup
    case RestDensityReductionBonus | RestChargeBonus => RestGroup
    case ChordDmgBonus | ProgressionBonus => ChordDamageGroup
    case ChordDissonanceMult | ExtendedChordEnabled => ChordShapeGroup
    case MaxHpBonus | HpRegenBonus | DodgeChance => SurvivalGroup
    case OtherKey(_) => UnknownGroup
  }

  /**
   * One key of `apply_upgrade` with its already multiplied amount. A note key
   * without a target falls through the chain and changes nothing; `None` is the
   * `KeyError` of a note key whose target note is not in the build.
   */
  function ApplyEffect(b: BuildStats, k: EffectKey, total: real, target: Option<string>): (r: Option<BuildStats>)
    ensures r.None? <==> IsNoteKey(k) && HasTarget(target) && target.value !in b.notes
    ensures r.Some? ==> r.value.notes.Keys == b.notes.Keys
    ensures r.Some? && !IsNoteKey(k) ==> r.value.notes == b.notes
  {
    match GroupOf(k)
    case NoteGroup =>
      if !HasTarget(target) then Some(b)
      else if target.value in b.notes then
        Some(b.(notes := b.notes[target.value := NoteEffect(b.notes[target.value], k, total)]))
      else None
    case RateGroup => Some(RateEffect(b, k, total))
    case DecayGroup => Some(DecayEffect(b, k, total))
    case TempoGroup => Some(TempoEffect(b, k, total))
    case RestGroup => Some(RestEffect(b, k, total))
    case ChordDamageGroup => Some(ChordDamageEffect(b, k, total))
    case ChordShapeGroup => Some(ChordShapeEffect(b, k, total))
    case SurvivalGroup => Some(SurvivalEffect(b, k, total))
    case UnknownGroup => Some(b)
  }

  /** The global-damage and rate-multiplier branches; the multipliers are floored at 0.2. */
  function RateEffect(b: BuildStats, k: EffectKey, total: real): BuildStats
    requires k.GlobalDmg? || k.MonotonyRateMult? || k.DensityRateMult? || k.DissonanceRateMult?
  {
    match k
    case GlobalDmg => b.(globalDmgBonus := b.globalDmgBonus + total)
    case MonotonyRateMult => b.(monotonyRateMult := Max(0.2, b.monotonyRateMult + total))
    case DensityRateMult => b.(densityRateMult := Max(0.2, b.densityRateMult + total))
    case DissonanceRateMult => b.(dissonanceRateMult := Max(0.2, b.dissonanceRateMult + total))
  }

  /** The decay-rate and amplifier-reduction branches. */
  function DecayEffect(b: BuildStats, k: EffectKey, total: real): BuildStats
    requires k.MonotonyDecayBonus? || k.DensityDecayBonus? || k.DissonanceDecayBonus? || k.AfiAmplifyReduction?
  {
    match k
    case MonotonyDecayBonus => b.(monotonyDecayRate := b.monotonyDecayRate + total)
    case DensityDecayBonus => b.(densityDecayRate := b.densityDecayRate + total)
    case DissonanceDecayBonus => b.(dissonanceDecayRate := b.dissonanceDecayRate + total)
    case AfiAmplifyReduction => b.(afiAmplifyReduction := b.afiAmplifyReduction + total)
  }

  /** The tempo branch, which adds `int(total)`, and the resolution-reduction branch. */
  function TempoEffect(b: BuildStats, k: EffectKey, total: real): BuildStats
    requires k.BpmBonus? || k.ResolutionReductionBonus?
  {
    match k
    case BpmBonus => b.(bpm := b.bpm + Trunc(total))
    case ResolutionReductionBonus => b.(resolutionReduction := b.resolutionReduction + total)
  }

  /** The rest branches. */
  function RestEffect(b: BuildStats, k: EffectKey, total: real): BuildStats
    requires k.RestDensityReductionBonus? || k.RestChargeBonus?
  {
    match k
    case RestDensityReductionBonus => b.(restDensityReduction := b.restDensityReduction + total)
    case RestChargeBonus => b.(restChargeBonus := b.restChargeBonus + total)
  }

  /** The chord-damage and progression branches. */
  function ChordDamageEffect(b: BuildStats, k: EffectKey, total: real): BuildStats
    requires k.ChordDmgBonus? || k.ProgressionBonus?
  {
    match k
    case ChordDmgBonus => b.(chordDmgBonus := b.chordDmgBonus + total)
    case ProgressionBonus => b.(progressionBonus := b.progressionBonus + total)
  }

  /** The chord-dissonance branch, floored at 0.2, and the extended-chord branch. */
  function ChordShapeEffect(b: BuildStats, k: EffectKey, total: real): BuildStats
    requires k.ChordDissonanceMult? || k.ExtendedChordEnabled?
  {
    match k
    case ChordDissonanceMult => b.(chordDissonanceMult := Max(0.2, b.chordDissonanceMult + total))
    case ExtendedChordEnabled => b.(extendedChordEnabled := true)
  }

  /** The health and regeneration branches, and the dodge branch, capped at 0.5. */
  function SurvivalEffect(b: BuildStats, k: EffectKey, total: real): BuildStats
    requires k.MaxHpBonus? || k.HpRegenBonus? || k.DodgeChance?
  {
    match k
    case MaxHpBonus => b.(maxHp := b.maxHp + total)
    case HpRegenBonus => b.(hpRegen := b.hpRegen + total)
    case DodgeChance => b.(dodgeChance := Min(0.5, b.dodgeChance + total))
  }

  /** `value * level`, the amount an effect has at an upgrade level. */
  function Scaled(value: real, level: int): real
  {
    value * level as real
  }

  /** The run so far extended by one more effect: nothing after a `KeyError`. */
  function Extend(prev: (BuildStats, bool), k: EffectKey, total: real, target: Option<string>): (BuildStats, bool)
  {
    if !prev.1 then prev
    else match ApplyEffect(prev.0, k, total, target)
         case Some(next) => (next, true)
         case None => (prev.0, false)
  }

  /**
   * `apply_upgrade`: the effects in order, each multiplied by the level. On a
   * `KeyError` the effects before the failing key stay applied and the flag is false.
   */
  function ApplyEffects(b: BuildStats, effects: seq<(EffectKey, real)>, level: int, target: Option<string>)
    : (r: (BuildStats, bool))
    ensures r.0.notes.Keys == b.notes.Keys
    ensures !r.1 <==> HasTarget(target) && target.value !in b.notes
                      && exists j :: 0 <= j < |effects| && IsNoteKey(effects[j].0)
  {
    ApplyFirst(b, effects, |effects|, level, target)
  }

  /** The first `n` effects of an upgrade. */
  function ApplyFirst(b: BuildStats, effects: seq<(EffectKey, real)>, n: nat, level: int, target: Option<string>)
    : (r: (BuildStats, bool))
    requires n <= |effects|
    ensures r.0.notes.Keys == b.notes.Keys
    ensures !r.1 <==> HasTarget(target) && target.value !in b.notes
                      && exists j :: 0 <= j < n && IsNoteKey(effects[j].0)
  {
    if n == 0 then (b, true)
    else Extend(ApplyFirst(b, effects, n - 1, level, target), effects[n - 1].0, Scaled(effects[n - 1].1, level), target)
  }

  /** The first `n + 1` effects are the first `n` extended by effect `n`. */
  lemma ApplyFirstStep(b: BuildStats, effects: seq<(EffectKey, real)>, n: nat, level: int, target: Option<string>)
    requires n < |effects|
    ensures ApplyFirst(b, effects, n + 1, level, target)
            == Extend(ApplyFirst(b, effects, n, level, target), effects[n].0, Scaled(effects[n].1, level), target)
  {
  }

  /** The clamped fields of a build: the four rate multipliers at least 0.2, dodge at most one half. */
  predicate ClampsHold(b: BuildStats)
  {
    && b.monotonyRateMult >= 0.2 && b.densityRateMult >= 0.2 && b.dissonanceRateMult >= 0.2
    && b.chordDissonanceMult >= 0.2 && b.dodgeChance <= 0.5
  }

  /** Every single effect keeps the clamps. */
  lemma ApplyEffectKeepsClamps(b: BuildStats, k: EffectKey, total: real, target: Option<string>)
    requires ClampsHold(b)
    ensures ApplyEffect(b, k, total, target).Some? ==> ClampsHold(ApplyEffect(b, k, total, target).value)
  {
    match GroupOf(k)
    case NoteGroup =>
    case RateGroup =>
    case DecayGroup =>
    case TempoGroup =>
    case RestGroup =>
    case ChordDamageGroup =>
    case ChordShapeGroup =>
    case SurvivalGroup =>
    case UnknownGroup =>
  }

  /** So does every upgrade, whether or not it ends in a `KeyError`. */
  lemma ApplyEffectsKeepsClamps(b: BuildStats, effects: seq<(EffectKey, real)>, level: int, target: Option<string>)
    requires ClampsHold(b)
    ensures ClampsHold(ApplyEffects(b, effects, level, target).0)
  {
    ApplyFirstKeepsClamps(b, effects, |effects|, level, target);
  }

  lemma {:induction false} ApplyFirstKeepsClamps(b: BuildStats, effects: seq<(EffectKey, real)>, n: nat, level: int,
                                                 target: Option<string>)
    requires n <= |effects| && ClampsHold(b)
    ensures ClampsHold(ApplyFirst(b, effects, n, level, target).0)
  {
    if n > 0 {
      ApplyFirstKeepsClamps(b, effects, n - 1, level, target);
      ApplyEffectKeepsClamps(ApplyFirst(b, effects, n - 1, level, target).0, effects[n - 1].0,
                             Scaled(effects[n - 1].1, level), target);
    }
  }

  /** A clamped multiplier never ends below 0.2, nor dodge above one half, whatever they started at. */
  lemma RateMultFloor(b: BuildStats, total: real, target: Option<string>)
    ensures ApplyEffect(b, MonotonyRateMult, total, target).value.monotonyRateMult >= 0.2
    ensures ApplyEffect(b, DensityRateMult, total, target).value.densityRateMult >= 0.2
    ensures ApplyEffect(b, DissonanceRateMult, total, target).value.dissonanceRateMult >= 0.2
    ensures ApplyEffect(b, ChordDissonanceMult, total, target).value.chordDissonanceMult >= 0.2
    ensures ApplyEffect(b, DodgeChance, total, target).value.dodgeChance <= 0.5
  {
  }

  /** Unknown keys, and note keys without a target note, leave the build as it is. */
  lemma IgnoredKeys(b: BuildStats, k: EffectKey, total: real, target: Option<string>)
    requires k.OtherKey? || (IsNoteKey(k) && !HasTarget(target))
    ensures ApplyEffect(b, k, total, target) == Some(b)
  {
  }

  /** A note key with a known target changes that one note's one bonus, by exactly the amount. */
  lemma NoteKeyEffect(b: BuildStats, k: EffectKey, total: real, target: Option<string>)
    requires IsNoteKey(k) && HasTarget(target) && target.value in b.notes
    ensures ApplyEffect(b, k, total, target).Some?
    ensures var r := ApplyEffect(b, k, total, target).value;
            && r == b.(notes := r.notes)
            && r.notes.Keys == b.notes.Keys
            && (forall name :: name in b.notes && name != target.value ==> r.notes[name] == b.notes[name])
            && var n, m := b.notes[target.value], r.notes[target.value];
               && m.name == n.name && m.baseDmg == n.baseDmg && m.baseSpd == n.baseSpd
               && m.baseDur == n.baseDur && m.baseSize == n.baseSize
               && m.bonusDmg + m.bonusSpd + m.bonusDur + m.bonusSize
                  == n.bonusDmg + n.bonusSpd + n.bonusDur + n.bonusSize + total
               && (k == Dmg ==> m.bonusDmg == n.bonusDmg + total)
               && (k == Spd ==> m.bonusSpd == n.bonusSpd + total)
               && (k == Dur ==> m.bonusDur == n.bonusDur + total)
               && (k == Size ==> m.bonusSize == n.bonusSize + total)
  {
  }

  /** A note key whose target note is missing raises, and the upgrade stops with the build unchanged by it. */
  lemma MissingTargetFails(b: BuildStats, key: EffectKey, val: real, level: int, target: Option<string>)
    requires IsNoteKey(key) && HasTarget(target) && target.value !in b.notes
    ensures ApplyEffect(b, key, Scaled(val, level), target) == None
    ensures ApplyEffects(b, [(key, val)], level, target) == (b, false)
  {
    ApplyFirstStep(b, [(key, val)], 0, level, target);
  }

  // Each build-level key changes only its own field of the build, whatever the
  // target: by the amount, floored at 0.2 for the multipliers, capped at 0.5 for
  // dodge, by `int(total)` for the tempo; the extended-chord key sets its flag.

  lemma GlobalDmgEffect(b: BuildStats, total: real, target: Option<string>)
    ensures ApplyEffect(b, GlobalDmg, total, target) == Some(b.(globalDmgBonus := b.globalDmgBonus + total))
  {
  }

  lemma MonotonyRateMultEffect(b: BuildStats, total: real, target: Option<string>)
    ensures ApplyEffect(b, MonotonyRateMult, total, target)
            == Some(b.(monotonyRateMult := Max(0.2, b.monotonyRateMult + total)))
  {
  }

  lemma DensityRateMultEffect(b: BuildStats, total: real, target: Option<string>)
    ensures ApplyEffect(b, DensityRateMult, total, target)
            == Some(b.(densityRateMult := Max(0.2, b.densityRateMult + total)))
  {
  }

  lemma DissonanceRateMultEffect(b: BuildStats, total: real, target: Option<string>)
    ensures ApplyEffect(b, DissonanceRateMult, total, target)
            == Some(b.(dissonanceRateMult := Max(0.2, b.dissonanceRateMult + total)))
  {
  }

  lemma MonotonyDecayBonusEffect(b: BuildStats, total: real, target: Option<string>)
    ensures ApplyEffect(b, MonotonyDecayBonus, total, target)
            == Some(b.(monotonyDecayRate := b.monotonyDecayRate + total))
  {
  }

  lemma DensityDecayBonusEffect(b: BuildStats, total: real, target: Option<string>)
    ensures ApplyEffect(b, DensityDecayBonus, total, target) == Some(b.(densityDecayRate := b.densityDecayRate + total))
  {
  }

  lemma DissonanceDecayBonusEffect(b: BuildStats, total: real, target: Option<string>)
    ensures ApplyEffect(b, DissonanceDecayBonus, total, target)
            == Some(b.(dissonanceDecayRate := b.dissonanceDecayRate + total))
  {
  }

  lemma AfiAmplifyReductionEffect(b: BuildStats, total: real, target: Option<string>)
    ensures ApplyEffect(b, AfiAmplifyReduction, total, target)
            == Some(b.(afiAmplifyReduction := b.afiAmplifyReduction + total))
  {
  }

  lemma BpmBonusEffect(b: BuildStats, total: real, target: Option<string>)
    ensures ApplyEffect(b, BpmBonus, total, target) == Some(b.(bpm := b.bpm + Trunc(total)))
  {
  }

  lemma RestDensityReductionBonusEffect(b: BuildStats, total: real, target: Option<string>)
    ensures ApplyEffect(b, RestDensityReductionBonus, total, target)
            == Some(b.(restDensityReduction := b.restDensityReduction + total))
  {
  }

  lemma RestChargeBonusEffect(b: BuildStats, total: real, target: Option<string>)
    ensures ApplyEffect(b, RestChargeBonus, total, target) == Some(b.(restChargeBonus := b.restChargeBonus + total))
  {
  }

  lemma ChordDmgBonusEffect(b: BuildStats, total: real, target: Option<string>)
    ensures ApplyEffect(b, ChordDmgBonus, total, target) == Some(b.(chordDmgBonus := b.chordDmgBonus + total))
  {
  }

  lemma ChordDissonanceMultEffect(b: BuildStats, total: real, target: Option<string>)
    ensures ApplyEffect(b, ChordDissonanceMult, total, target)
            == Some(b.(chordDissonanceMult := Max(0.2, b.chordDissonanceMult + total)))
  {
  }

  lemma ExtendedChordEnabledEffect(b: BuildStats, total: real, target: Option<string>)
    ensures ApplyEffect(b, ExtendedChordEnabled, total, target) == Some(b.(extendedChordEnabled := true))
  {
  }

  lemma ProgressionBonusEffect(b: BuildStats, total: real, target: Option<string>)
    ensures ApplyEffect(b, ProgressionBonus, total, target) == Some(b.(progressionBonus := b.progressionBonus + total))
  {
  }

  lemma ResolutionReductionBonusEffect(b: BuildStats, total: real, target: Option<string>)
    ensures ApplyEffect(b, ResolutionReductionBonus, total, target)
            == Some(b.(resolutionReduction := b.resolutionReduction + total))
  {
  }

  lemma MaxHpBonusEffect(b: BuildStats, total: real, target: Option<string>)
    ensures ApplyEffect(b, MaxHpBonus, total, target) == Some(b.(maxHp := b.maxHp + total))
  {
  }

  lemma HpRegenBonusEffect(b: BuildStats, total: real, target: Option<string>)
    ensures ApplyEffect(b, HpRegenBonus, total, target) == Some(b.(hpRegen := b.hpRegen + total))
  {
  }

  lemma DodgeChanceEffect(b: BuildStats, total: real, target: Option<string>)
    ensures ApplyEffect(b, DodgeChance, total, target) == Some(b.(dodgeChance := Min(0.5, b.dodgeChance + total)))
  {
  }

  /** A one-key upgrade at a level is that key's effect once, with the amount times the level. */
  lemma SingleEffectUpgrade(b: BuildStats, key: EffectKey, val: real, level: int, target: Option<string>)
    ensures ApplyEffects(b, [(key, val)], level, target) == Extend((b, true), key, Scaled(val, level), target)
  {
    var s := [(key, val)];
    ApplyFirstStep(b, s, 0, level, target);
    assert ApplyEffects(b, s, level, target) == ApplyFirst(b, s, 0 + 1, level, target);
    assert ApplyFirst(b, s, 0, level, target) == (b, true);
    assert s[0].0 == key && s[0].1 == val;
  }

  /** Only the per-note keys look at the target note, and only they can fail. */
  lemma TargetOnlyForNoteKeys(b: BuildStats, k: EffectKey, total: real, target: Option<string>)
    ensures !IsNoteKey(k) ==> ApplyEffect(b, k, total, target) == ApplyEffect(b, k, total, None)
    ensures !IsNoteKey(k) ==> ApplyEffect(b, k, total, target).Some?
  {
  }

  /** Once an effect has raised, the later effects are never applied. */
  lemma {:induction false} ApplyFirstHalts(b: BuildStats, effects: seq<(EffectKey, real)>, j: nat, n: nat, level: int,
                                           target: Option<string>)
    requires j <= n <= |effects|
    requires !ApplyFirst(b, effects, j, level, target).1
    ensures ApplyFirst(b, effects, n, level, target) == ApplyFirst(b, effects, j, level, target)
    decreases n - j
  {
    if j < n {
      ApplyFirstHalts(b, effects, j, n - 1, level, target);
    }
  }

  /** `PlayerBuild`: a build whose fields upgrades change in place. */
  class PlayerBuild {
    var notes: map<string, NoteStats>
    var globalDmgBonus: real
    var chordDmgBonus: real
    var chordDissonanceMult: real
    var progressionBonus: real
    var monotonyRateMult: real
    var densityRateMult: real
    var dissonanceRateMult: real
    var monotonyDecayRate: real
    var densityDecayRate: real
    var dissonanceDecayRate: real
    var afiAmplifyReduction: real
    var bpm: int
    var restDensityReduction: real
    var restChargeBonus: real
    var maxHp: real
    var hpRegen: real
    var dodgeChance: real
    var extendedChordEnabled: bool
    var resolutionReduction: real

    /** The build's fields as one value. */
    function Stats(): BuildStats
      reads this
    {
      BuildStats(notes, globalDmgBonus, chordDmgBonus, chordDissonanceMult, progressionBonus,
                 monotonyRateMult, densityRateMult, dissonanceRateMult,
                 monotonyDecayRate, densityDecayRate, dissonanceDecayRate, afiAmplifyReduction,
                 bpm, restDensityReduction, restChargeBonus, maxHp, hpRegen, dodgeChance,
                 extendedChordEnabled, resolutionReduction)
    }

    /** The dataclass constructor with every field given (`DefaultBuild` holds the defaults). */
    constructor(s: BuildStats)
      ensures Stats() == s
    {
      notes := s.notes;
      globalDmgBonus := s.globalDmgBonus;
      chordDmgBonus := s.chordDmgBonus;
      chordDissonanceMult := s.chordDissonanceMult;
      progressionBonus := s.progressionBonus;
      monotonyRateMult := s.monotonyRateMult;
      densityRateMult := s.densityRateMult;
      dissonanceRateMult := s.dissonanceRateMult;
      monotonyDecayRate := s.monotonyDecayRate;
      densityDecayRate := s.densityDecayRate;
      dissonanceDecayRate := s.dissonanceDecayRate;
      afiAmplifyReduction := s.afiAmplifyReduction;
      bpm := s.bpm;
      restDensityReduction := s.restDensityReduction;
      restChargeBonus := s.restChargeBonus;
      maxHp := s.maxHp;
      hpRegen := s.hpRegen;
      dodgeChance := s.dodgeChance;
      extendedChordEnabled := s.extendedChordEnabled;
      resolutionReduction := s.resolutionReduction;
    }

    /** `get_note_damage`, read from the live build. */
    method GetNoteDamage(noteName: string) returns (r: Option<real>)
      ensures r == NoteDamage(Stats(), noteName)
    {
      if noteName in notes {
        r := Some((notes[noteName].TotalDmg() + globalDmgBonus) * DmgPerPoint);
      } else {
        r := None;
      }
    }

    /**
     * `apply_upgrade`: every effect of the upgrade, in order, times the level.
     * `ok` is false where a note key names a target note the build does not have.
     */
    method ApplyUpgrade(upgrade: Upgrade, level: int, target: Option<string>) returns (ok: bool)
      modifies this
      ensures (Stats(), ok) == ApplyEffects(old(Stats()), upgrade.effectPerLevel, level, target)
    {
      var effects := upgrade.effectPerLevel;
      var i := 0;
      while i < |effects|
        invariant 0 <= i <= |effects|
        invariant (Stats(), true) == ApplyFirst(old(Stats()), effects, i, level, target)
      {
        var key := effects[i].0;
        var total := Scaled(effects[i].1, level);
        ghost var before := Stats();
        ApplyFirstStep(old(Stats()), effects, i, level, target);
        var applied := ApplyKey(key, total, target);
        assert (Stats(), applied) == Extend((before, true), key, total, target);
        if !applied {
          ApplyFirstHalts(old(Stats()), effects, i + 1, |effects|, level, target);
          ok := false;
          return;
        }
        i := i + 1;
      }
      ok := true;
    }

    /** One key of the dispatch, on the fields. */
    method ApplyKey(k: EffectKey, total: real, target: Option<string>) returns (applied: bool)
      modifies this
      ensures applied <==> ApplyEffect(old(Stats()), k, total, target).Some?
      ensures Stats() == if applied then ApplyEffect(old(Stats()), k, total, target).value else old(Stats())
    {
      applied := true;
      match GroupOf(k)
      case NoteGroup => applied := ApplyNoteKey(k, total, target);
      case RateGroup => ApplyRateKey(k, total);
      case DecayGroup => ApplyDecayKey(k, total);
      case TempoGroup => ApplyTempoKey(k, total);
      case RestGroup => ApplyRestKey(k, total);
      case ChordDamageGroup => ApplyChordDamageKey(k, total);
      case ChordShapeGroup => ApplyChordShapeKey(k, total);
      case SurvivalGroup => ApplySurvivalKey(k, total);
      case UnknownGroup =>
    }

    method ApplyNoteKey(k: EffectKey, total: real, target: Option<string>) returns (applied: bool)
      requires IsNoteKey(k)
      modifies this`notes
      ensures applied <==> ApplyEffect(old(Stats()), k, total, target).Some?
      ensures Stats() == if applied then ApplyEffect(old(Stats()), k, total, target).value else old(Stats())
    {
      applied := true;
      if HasTarget(target) {
        if target.value in notes {
          notes := notes[target.value := NoteEffect(notes[target.value], k, total)];
        } else {
          applied := false;
        }
      }
    }

    method ApplyRateKey(k: EffectKey, total: real)
      requires k.GlobalDmg? || k.MonotonyRateMult? || k.DensityRateMult? || k.DissonanceRateMult?
      modifies this`globalDmgBonus, this`monotonyRateMult, this`densityRateMult, this`dissonanceRateMult
      ensures Stats() == RateEffect(old(Stats()), k, total)
    {
      match k
      case GlobalDmg => globalDmgBonus := globalDmgBonus + total;
      case MonotonyRateMult => monotonyRateMult := Max(0.2, monotonyRateMult + total);
      case DensityRateMult => densityRateMult := Max(0.2, densityRateMult + total);
      case DissonanceRateMult => dissonanceRateMult := Max(0.2, dissonanceRateMult + total);
    }

    method ApplyDecayKey(k: EffectKey, total: real)
      requires k.MonotonyDecayBonus? || k.DensityDecayBonus? || k.DissonanceDecayBonus? || k.AfiAmplifyReduction?
      modifies this`monotonyDecayRate, this`densityDecayRate, this`dissonanceDecayRate, this`afiAmplifyReduction
      ensures Stats() == DecayEffect(old(Stats()), k, total)
    {
      match k
      case MonotonyDecayBonus => monotonyDecayRate := monotonyDecayRate + total;
      case DensityDecayBonus => densityDecayRate := densityDecayRate + total;
      case DissonanceDecayBonus => dissonanceDecayRate := dissonanceDecayRate + total;
      case AfiAmplifyReduction => afiAmplifyReduction := afiAmplifyReduction + total;
    }

    method ApplyTempoKey(k: EffectKey, total: real)
      requires k.BpmBonus? || k.ResolutionReductionBonus?
      modifies this`bpm, this`resolutionReduction
      ensures Stats() == TempoEffect(old(Stats()), k, total)
    {
      match k
      case BpmBonus => bpm := bpm + Trunc(total);
      case ResolutionReductionBonus => resolutionReduction := resolutionReduction + total;
    }

    method ApplyRestKey(k: EffectKey, total: real)
      requires k.RestDensityReductionBonus? || k.RestChargeBonus?
      modifies this`restDensityReduction, this`restChargeBonus
      ensures Stats() == RestEffect(old(Stats()), k, total)
    {
      match k
      case RestDensityReductionBonus => restDensityReduction := restDensityReduction + total;
      case RestChargeBonus => restChargeBonus := restChargeBonus + total;
    }

    method ApplyChordDamageKey(k: EffectKey, total: real)
      requires k.ChordDmgBonus? || k.ProgressionBonus?
      modifies this`chordDmgBonus, this`progressionBonus
      ensures Stats() == ChordDamageEffect(old(Stats()), k, total)
    {
      match k
      case ChordDmgBonus => chordDmgBonus := chordDmgBonus + total;
      case ProgressionBonus => progressionBonus := progressionBonus + total;
    }

    method ApplyChordShapeKey(k: EffectKey, total: real)
      requires k.ChordDissonanceMult? || k.ExtendedChordEnabled?
      modifies this`chordDissonanceMult, this`extendedChordEnabled
      ensures Stats() == ChordShapeEffect(old(Stats()), k, total)
    {
      match k
      case ChordDissonanceMult => chordDissonanceMult := Max(0.2, chordDissonanceMult + total);
      case ExtendedChordEnabled => extendedChordEnabled := true;
    }

    method ApplySurvivalKey(k: EffectKey, total: real)
      requires k == MaxHpBonus || k == HpRegenBonus || k == DodgeChance
      modifies this`maxHp, this`hpRegen, this`dodgeChance
      ensures Stats() == SurvivalEffect(old(Stats()), k, total)
    {
      match k
      case MaxHpBonus => maxHp := maxHp + total;
      case HpRegenBonus => hpRegen := hpRegen + total;
      case DodgeChance => dodgeChance := Min(0.5, dodgeChance + total);
    }
  }
}
