# Aesthetic fatigue and balance scoring, in Dafny

This project models three parts of the Project Harmony game code:

- **The v2.0 aesthetic-fatigue engine** (`Scripts/aesthetic_fatigue_system.py`).
  It keeps a bounded, time-ordered history of spell casts and a small record of the current run of casting.
  It scores the history on eight dimensions: pitch, transition, rhythm, n-gram recurrence, chord, density, rest deficit and sustained pressure.
  The weighted sum, clamped to [0, 1], is the aesthetic fatigue index (AFI).
  The AFI is mapped onto a five-level ladder and then to a penalty in one of three modes.
  The engine also produces recovery hints in a fixed order.
- **The v1.0 engine** (`aesthetic_fatigue_system.py`): the same design with five dimensions and no sustained-casting state.
- **The balance scorer** (`BalanceKit/balance_scorer.py`):
  - the derived properties of the note statistics;
  - `PlayerBuild.apply_upgrade`, a key-dispatched field update with clamps;
  - `StrategySimulator.simulate`, a per-beat state machine over three fatigue gauges that ends in normalised scores;
  - `run_full_benchmark`, which ranks the strategies by composite score.

Modules:

| module | file | contents |
|---|---|---|
| `Wrappers`, `Numerics` | `numerics.dfy` | `Option`, min/max/clamp, Python's `int()` of a real, and small lemmas about real arithmetic |
| `Tally` | `tally.dfy` | a Python `defaultdict` accumulator, as an association list in insertion order |
| `FatigueMath` | `fatigue_math.dfy` | the five math utilities shared by both engines, and `_decay_weight` |
| `FatigueCore` | `fatigue_core.dfy` | notes and casts, and the history append and prune. Also the five original dimensions, per-note fatigue, the level ladder, the penalty and the hint chain. Both engines use it. |
| `FatigueV1` | `fatigue_v1.dfy` | the v1.0 components, result and engine class |
| `FatigueV2` | `fatigue_v2.dfy` | the three v2.0 dimensions, sustained tracking, and the v2.0 components, result and engine class |
| `BalanceBuild` | `balance_build.dfy` | `NoteStats`, the upgrade effects and the `PlayerBuild` class |
| `BalanceSim` | `balance_sim.dfy` | the simulator as a beat-by-beat specification, the imperative `Simulate` loop proved against it, and the score facts |
| `BalanceBenchmark` | `balance_benchmark.dfy` | `run_full_benchmark` and its sort |

Modelling decisions:

- Python floats are modelled as `real`.
- `math.log2` and `math.pow(2, ·)` are passed in as function values `log2` and `exp2`. The laws the proofs use are the predicates `Log2Law` and `Exp2Law`:
  - `log2` is zero at 1, non-positive on (0, 1], and positive above 1;
  - `exp2` lies strictly between 0 and 1 for negative arguments, and nothing is assumed of it elsewhere.
- A `defaultdict` iterates in insertion order, so each tally is a list in order of first appearance.
- The engines' mutable state lives in classes:
  - the history `deque` is a `seq` field;
  - the sustained-casting variables are fields;
  - the prune loop is a `while` loop and the per-note loop a `for` loop, proved against the functions `Pruned` and `NoteSpecificFatigue`.
- The simulator's `for` loop is a method (`StrategySimulator.Simulate`, with `CastBeat` for the cast half of the body). It is proved equal to the function `Simulation`, which runs `Step` beat by beat. The properties of the run are lemmas about `Run` and `Simulation`.
- Where the source raises `KeyError` (a per-note upgrade key naming a note the build lacks, or a cast of such a note), the model returns `None`, or a `false` flag for `apply_upgrade`, which keeps the effects applied before the failing key.
- A division by zero in the source is a precondition:
  - a zero `bpm` or `max_hp` in the simulator;
  - a zero half-life, maximum interval, or ramp span of the engine configuration (`ValidConfig`).
- The ideal rest ratio is divided by only when the rest ratio falls below it. A zero ideal ratio is therefore allowed: on a time-ordered history the rest ratio is never negative (`RestRatioNonneg`), so a zero ideal gives no deficit and no division (`RestDivisionSafe`, `ZeroIdealNoDeficit`).

## Model

| member | source | states |
|---|---|---|
| `FatigueMath.Values` | Scripts/aesthetic_fatigue_system.py:296-299 | the values of a tally are its entries' weights, one per entry, in iteration order |
| `FatigueMath.EntropyTermsNonneg` | Scripts/aesthetic_fatigue_system.py:295-299 | with a positive total and no count above it, the sum of the terms −p·log2(p) over the positive counts is non-negative |
| `FatigueMath.EntropyTermNonneg` | Scripts/aesthetic_fatigue_system.py:297-299 | one term −p·log2(p) with p in (0, 1] is non-negative |
| `FatigueMath.ShannonEntropy` | Scripts/aesthetic_fatigue_system.py:282-302 | the normalised entropy is 0 when total ≤ 1 or there is at most one category |
| `FatigueMath.ShannonEntropyNonneg` | Scripts/aesthetic_fatigue_system.py:282-302 | when no count exceeds the total, the entropy is never negative |
| `FatigueMath.WeightedEntries` | Scripts/aesthetic_fatigue_system.py:321-324 | one (category, weight) pair per event, in order, with weight decay(now − timestamp) |
| `FatigueMath.WeightedShannonEntropy` | Scripts/aesthetic_fatigue_system.py:305-336 | the weighted entropy is 0 for at most one event |
| `FatigueMath.WeightedEntropySingleCategory` | Scripts/aesthetic_fatigue_system.py:326-327 | events of a single category, however many, have weighted entropy 0 |
| `FatigueMath.WeightedEntropyNonneg` | Scripts/aesthetic_fatigue_system.py:305-336 | with positive decay weights the weighted entropy is non-negative |
| `FatigueMath.TallyTermsNonneg` | Scripts/aesthetic_fatigue_system.py:329-333 | the entropy terms of a tally of positive weights, over its positive total, sum to a non-negative value |
| `FatigueMath.TransitionPairs` | Scripts/aesthetic_fatigue_system.py:355-357 | one ((s[i], s[i+1]), 1) pair per consecutive position, in order |
| `FatigueMath.TransitionSources` | Scripts/aesthetic_fatigue_system.py:355-358 | one (s[i], 1) pair per position except the last, in order |
| `FatigueMath.PairWeightBound` | Scripts/aesthetic_fatigue_system.py:355-358 | a pair's count never exceeds the count of its source symbol |
| `FatigueMath.WeightOfOccurring` | Scripts/aesthetic_fatigue_system.py:355-358 | a symbol counted at least once has count at least 1 |
| `FatigueMath.TransitionSupport` | Scripts/aesthetic_fatigue_system.py:355-370 | every counted transition has a source count of at least 1, and at least its own count, so p_cond lies in (0, 1] |
| `FatigueMath.TransitionKeySupport` | Scripts/aesthetic_fatigue_system.py:355-358 | the same for one transition that occurs |
| `FatigueMath.TransitionEntropy` | Scripts/aesthetic_fatigue_system.py:339-373 | the transition entropy is 0 for sequences shorter than 2 |
| `FatigueMath.CondEntropyTermsNonneg` | Scripts/aesthetic_fatigue_system.py:366-370 | with every p_cond in (0, 1] the conditional-entropy sum is non-negative |
| `FatigueMath.TransitionEntropyNonneg` | Scripts/aesthetic_fatigue_system.py:339-373 | the transition entropy is never negative |
| `FatigueMath.OneKeyTally` | Scripts/aesthetic_fatigue_system.py:355-358 | a tally of entries that all carry one key is that key with the total weight |
| `FatigueMath.TransitionEntropyConstant` | Scripts/aesthetic_fatigue_system.py:339-373 | a sequence that repeats one symbol has transition entropy 0 |
| `FatigueMath.ConstantTallies` | Scripts/aesthetic_fatigue_system.py:355-358 | a constant sequence has one transition kind and one source, each counted \|s\| − 1 times |
| `FatigueMath.OneTransitionTerm` | Scripts/aesthetic_fatigue_system.py:366-370 | a single transition kind whose source occurs only in it gives p_cond = 1 and a zero term |
| `FatigueMath.NGrams` | Scripts/aesthetic_fatigue_system.py:388-390 | the \|s\| − n + 1 contiguous windows of length n, in order |
| `FatigueMath.DistinctCount` | Scripts/aesthetic_fatigue_system.py:392-393 | the number of unique windows is at most the number of windows, with equality exactly when none repeats |
| `FatigueMath.NGramRecurrenceRate` | Scripts/aesthetic_fatigue_system.py:376-398 | 0 when the sequence has at most n symbols, and always in [0, 1) |
| `FatigueMath.NGramRecurrenceZeroIffDistinct` | Scripts/aesthetic_fatigue_system.py:376-398 | the rate is 0 exactly when no window repeats |
| `FatigueMath.QuantizeInterval` | Scripts/aesthetic_fatigue_system.py:401-405 | the bin never exceeds num_bins − 1 |
| `FatigueMath.QuantizeRange` | Scripts/aesthetic_fatigue_system.py:401-405 | a non-negative interval lands in a bin in 0 .. num_bins − 1, and one at or past max_val lands in the last bin |
| `FatigueMath.QuantizeMonotone` | Scripts/aesthetic_fatigue_system.py:401-405 | a longer interval never lands in a lower bin |
| `FatigueMath.DecayWeight` | Scripts/aesthetic_fatigue_system.py:524-528 | the weight is exactly 1 for dt ≤ 0 |
| `FatigueMath.DecayWeightRange` | aesthetic_fatigue_system.py:501-518 | with a positive half-life the weight lies in (0, 1], and below 1 for dt > 0, as the doc comment promises |
| `Numerics.Trunc` | BalanceKit/balance_scorer.py:469 | Python's `int()` of a float: for x ≥ 0 the greatest integer at most x, for x < 0 the least integer at least x, so it rounds toward zero |
| `Numerics.Weighted` | Scripts/aesthetic_fatigue_system.py:583-593 | one weighted term of the AFI formula: a non-negative weight times a fatigue in [0, 1] lies between 0 and the weight |
| `Tally.Add` | Scripts/aesthetic_fatigue_system.py:321-323 | one `+=` keeps the tally's length or adds one entry |
| `Tally.AddValues` | Scripts/aesthetic_fatigue_system.py:321-323 | one `+=` adds w to key k and to the total, and changes no other key |
| `Tally.FromEntriesFacts` | Scripts/aesthetic_fatigue_system.py:321-323 | the tally a loop builds has distinct keys, one entry per distinct key, each key's summed weight and the same total |
| `FatigueCore.NoteValue` | Scripts/aesthetic_fatigue_system.py:45-58 | a note's value lies in 0 .. 11 |
| `FatigueCore.NoteValueInjective` | Scripts/aesthetic_fatigue_system.py:45-58 | distinct notes have distinct values, so counting values counts notes |
| `FatigueCore.AllNotesComplete` | Scripts/aesthetic_fatigue_system.py:469-470 | the iteration over `Note` visits every note |
| `FatigueCore.BoundedAppend` | Scripts/aesthetic_fatigue_system.py:435 | the deque never holds more than max_history_size casts |
| `FatigueCore.BoundedAppendShape` | Scripts/aesthetic_fatigue_system.py:455 | after an append the deque holds the last min(\|h\| + 1, cap) casts of h + [e], ending with e |
| `FatigueCore.BoundedAppendSorted` | Scripts/aesthetic_fatigue_system.py:455 | appending a cast no earlier than any retained one keeps the history in time order |
| `FatigueCore.Pruned` | Scripts/aesthetic_fatigue_system.py:512-516 | the prune never lengthens the history |
| `FatigueCore.PrunedShape` | Scripts/aesthetic_fatigue_system.py:512-516 | the prune keeps a suffix, drops only casts before the cutoff, and stops at the first cast that is not |
| `FatigueCore.PrunedRecent` | Scripts/aesthetic_fatigue_system.py:512-516 | on a time-ordered history every kept cast is at or after the cutoff, every such cast is kept, and the order is kept |
| `FatigueCore.PrunedIdempotent` | Scripts/aesthetic_fatigue_system.py:512-516 | pruning twice at the same cutoff is pruning once |
| `FatigueCore.PopStale` | Scripts/aesthetic_fatigue_system.py:514-516 | the popleft loop leaves exactly `Pruned(h, cutoff)` |
| `FatigueCore.PrunedNotAfter` | Scripts/aesthetic_fatigue_system.py:512-516 | pruning keeps an upper bound on the history's times |
| `FatigueCore.SuffixKeeps` | Scripts/aesthetic_fatigue_system.py:515-516 | a suffix of a time-ordered history is time-ordered and has the same upper time bound |
| `FatigueCore.DecayIsInUnit` | Scripts/aesthetic_fatigue_system.py:524-528 | with a positive half-life `_decay_weight` gives every event a weight in (0, 1] |
| `FatigueCore.PitchEvents` | Scripts/aesthetic_fatigue_system.py:552 | one (timestamp, note value) pair per cast, in order |
| `FatigueCore.NoteSequence` | Scripts/aesthetic_fatigue_system.py:559 | one note value per cast, in order |
| `FatigueCore.ChordKey` | Scripts/aesthetic_fatigue_system.py:687 | a missing or empty chord type counts as "none", and any other chord type counts as itself |
| `FatigueCore.ChordEvents` | Scripts/aesthetic_fatigue_system.py:687 | one (timestamp, chord key) pair per cast, in order |
| `FatigueCore.RhythmIntervals` | Scripts/aesthetic_fatigue_system.py:654-660 | one (timestamp, bin) pair per gap between consecutive casts, binned by `quantize_interval` |
| `FatigueCore.PitchFatigue` | Scripts/aesthetic_fatigue_system.py:551-556 | at most one cast gives full pitch fatigue 1; under the log law, with decay weights in (0, 1], it is at most 1 |
| `FatigueCore.TransitionFatigue` | Scripts/aesthetic_fatigue_system.py:558-561 | fewer than two casts give full transition fatigue 1; under the log law it is at most 1 |
| `FatigueCore.RhythmFatigue` | Scripts/aesthetic_fatigue_system.py:647-663 | rhythm fatigue is 0 for fewer than three casts |
| `FatigueCore.ChordFatigue` | Scripts/aesthetic_fatigue_system.py:684-690 | at most one cast gives full chord fatigue 1; under the log law, with decay weights in (0, 1], it is at most 1 |
| `FatigueCore.ChordFatigueSingleType` | Scripts/aesthetic_fatigue_system.py:684-691 | a history with a single chord key has chord fatigue 1 |
| `FatigueCore.PitchFatigueSingleNote` | Scripts/aesthetic_fatigue_system.py:551-556 | a history of one note has pitch fatigue 1 |
| `FatigueCore.TransitionFatigueSingleNote` | Scripts/aesthetic_fatigue_system.py:558-561 | a run of one note has transition fatigue 1 |
| `FatigueCore.EntropyFatiguesAtMostOne` | Scripts/aesthetic_fatigue_system.py:551-570 | pitch, transition, rhythm and chord fatigue are at most 1 for every history |
| `FatigueCore.NGramWeight` | Scripts/aesthetic_fatigue_system.py:673-679 | every n-gram size has a positive weight, so each configured size that fits the sequence adds to the divisor |
| `FatigueCore.RecurrenceSums` | Scripts/aesthetic_fatigue_system.py:675-680 | the loop's weighted rate sum is non-negative and at most its weight sum; with no sizes both are 0 |
| `FatigueCore.RecurrenceSumsBound` | Scripts/aesthetic_fatigue_system.py:673-682 | the weighted rate sum is non-negative and below the weight sum, which is positive exactly when some configured size fits the sequence |
| `FatigueCore.Recurrence` | Scripts/aesthetic_fatigue_system.py:666-682 | multi-scale recurrence is 0 below two symbols and always in [0, 1) |
| `FatigueCore.RecurrenceSumsZero` | Scripts/aesthetic_fatigue_system.py:676-682 | the rate sum is 0 exactly when no window of any fitting size repeats |
| `FatigueCore.NoRepeatedWindowsCons` | Scripts/aesthetic_fatigue_system.py:676-680 | the condition splits over the first configured size (when it fits) and the rest |
| `FatigueCore.WeightedRateZero` | Scripts/aesthetic_fatigue_system.py:678-680 | one size's weighted term is non-negative, and 0 exactly when its windows are distinct |
| `FatigueCore.RecurrenceZeroIffNoRepeats` | Scripts/aesthetic_fatigue_system.py:666-682 | recurrence is 0 exactly when no window of any configured size repeats |
| `FatigueCore.EventsOf` | Scripts/aesthetic_fatigue_system.py:823 | the casts of one note, none of another, and empty exactly when the note was not cast |
| `FatigueCore.TotalDecay` | Scripts/aesthetic_fatigue_system.py:828-830 | when every cast's decay weight is non-negative, the summed weight is non-negative |
| `FatigueCore.TotalDecayBounds` | Scripts/aesthetic_fatigue_system.py:827-830 | the summed decay of n casts lies in [0, n], and is positive when n > 0 |
| `FatigueCore.NoteSpecificFatigue` | Scripts/aesthetic_fatigue_system.py:820-833 | 0 for a note not cast, and never above 1 |
| `FatigueCore.NoteSpecificFatigueRange` | Scripts/aesthetic_fatigue_system.py:820-833 | per-note fatigue lies in [0, 1], is positive exactly when the note was cast, and is at most its cast count / 6 |
| `FatigueCore.NoteFatigueTable` | Scripts/aesthetic_fatigue_system.py:468-471 | the loop over `Note` gives every note an entry equal to its per-note fatigue |
| `FatigueCore.Rank` | Scripts/aesthetic_fatigue_system.py:67-77 | the level's enum value is in 0 .. 4 |
| `FatigueCore.IndexToLevel` | Scripts/aesthetic_fatigue_system.py:835-847 | the level is NONE exactly when the index is below every threshold, and CRITICAL once it reaches the critical one |
| `FatigueCore.IndexToLevelMonotone` | Scripts/aesthetic_fatigue_system.py:835-847 | a higher index never maps to a lower level, whatever the thresholds |
| `FatigueCore.ThresholdsMet` | Scripts/aesthetic_fatigue_system.py:835-847 | at most four thresholds are reached |
| `FatigueCore.IndexToLevelCountsThresholds` | Scripts/aesthetic_fatigue_system.py:835-847 | with increasing thresholds the level's rank is the number of thresholds reached |
| `FatigueCore.IndexToLevelTies` | Scripts/aesthetic_fatigue_system.py:838-845 | an index exactly on a threshold gets the level that threshold opens |
| `FatigueCore.WeakenMultiplier` | Scripts/aesthetic_fatigue_system.py:857-866 | level NONE gives 1; with multipliers ordered inside [0, 1] the factor lies in [0, 1], and for a fatigued level it is at most the MILD one |
| `FatigueCore.ComputePenalty` | Scripts/aesthetic_fatigue_system.py:849-890 | NONE gives the default penalty; WEAKEN gives the level's multiplier; LOCKOUT locks exactly at or above the lockout threshold, with multiplier 0 or 1; GLOBAL_DEBUFF gives dissonance index·scale and multiplier 1 − dissonance/2; only LOCKOUT locks and only GLOBAL_DEBUFF adds dissonance |
| `FatigueCore.PenaltyBounds` | Scripts/aesthetic_fatigue_system.py:849-890 | for an index in [0, 1] and multipliers in [0, 1], the penalty never raises damage and the dissonance stays in [0, 1]; a global debuff removes at most half the damage |
| `FatigueCore.WeakenMonotone` | Scripts/aesthetic_fatigue_system.py:857-869 | in WEAKEN mode, with multipliers in [0, 1], a higher level never gives a higher multiplier |
| `FatigueCore.Slot` | Scripts/aesthetic_fatigue_system.py:903-939 | each hint has one of eight positions in the order the engine appends in |
| `FatigueCore.Hint` | Scripts/aesthetic_fatigue_system.py:903-939 | a firing condition appends its one hint, and a silent one appends nothing |
| `FatigueCore.UnusedWhiteKeys` | Scripts/aesthetic_fatigue_system.py:916-920 | the rarely used notes are white keys |
| `FatigueCore.PitchHint` | Scripts/aesthetic_fatigue_system.py:915-925 | the pitch hint names a non-empty set of white keys, and asks for variety exactly when no white key is below the 0.5 count |
| `FatigueCore.PitchHintNamesUncast` | Scripts/aesthetic_fatigue_system.py:916-923 | a white key never cast is among the keys the hint offers |
| `FatigueCore.Hints` | Scripts/aesthetic_fatigue_system.py:903-939 | an if-append chain yields at most one hint per condition |
| `FatigueCore.HintsFacts` | Scripts/aesthetic_fatigue_system.py:903-939 | a chain in slot order yields hints in the fixed order, exactly the slots whose condition fired, and an empty list exactly when none fired |
| `FatigueCore.HintsOrder` | Scripts/aesthetic_fatigue_system.py:903-939 | a chain in slot order yields hints in the fixed order, none before the first slot |
| `FatigueCore.PrependHint` | Scripts/aesthetic_fatigue_system.py:903-939 | a hint put before later-slot hints keeps the fixed order |
| `FatigueCore.HintsSlots` | Scripts/aesthetic_fatigue_system.py:903-939 | the chain's hints occupy exactly the slots whose condition fired |
| `FatigueCore.PrependSlots` | Scripts/aesthetic_fatigue_system.py:903-939 | a hint put in front adds its slot when it fires |
| `FatigueCore.HintsEmpty` | Scripts/aesthetic_fatigue_system.py:902-939 | the list is empty exactly when no condition fired |
| `FatigueCore.CoreHintItemsFacts` | Scripts/aesthetic_fatigue_system.py:914-939 | the five original hints are in slot order, fire exactly for the dimensions above 0.5, and all sit from slot 3 on |
| `FatigueCore.CoreHintItemsFiring` | Scripts/aesthetic_fatigue_system.py:914-939 | the firing slots of the five original hints are exactly those of the dimensions above 0.5 |
| `FatigueCore.HintsAppend` | Scripts/aesthetic_fatigue_system.py:903-939 | two chains run one after the other append their hints one after the other |
| `FatigueCore.OrderedConcat` | Scripts/aesthetic_fatigue_system.py:903-939 | two ordered lists, the first wholly in earlier slots, concatenate into an ordered list |
| `FatigueV2.Ramp` | Scripts/aesthetic_fatigue_system.py:712-719 | the ramp lies in [0, 1] and is 0 at or below its start |
| `FatigueV2.RampShape` | Scripts/aesthetic_fatigue_system.py:712-719 | strictly inside the span the ramp is the linear ratio, at or past the end it is 1, and it is positive exactly past the start |
| `FatigueV2.RampMonotone` | Scripts/aesthetic_fatigue_system.py:712-719 | a rising ramp never decreases |
| `FatigueV2.Recent` | Scripts/aesthetic_fatigue_system.py:776-777 | the density filter keeps only casts at or after the cutoff |
| `FatigueV2.RecentIsPruned` | Scripts/aesthetic_fatigue_system.py:776-777 | on a time-ordered history the filter keeps the same casts as the prune |
| `FatigueV2.RecentKeepsAll` | Scripts/aesthetic_fatigue_system.py:776-777 | a history already inside the window is kept whole |
| `FatigueV2.CurrentDensity` | Scripts/aesthetic_fatigue_system.py:772-783 | density is never negative, and 0 with fewer than two recent casts |
| `FatigueV2.DensityFloor` | Scripts/aesthetic_fatigue_system.py:772-783 | a non-zero density is at least two casts per measurement window |
| `FatigueV2.DensityFatigue` | Scripts/aesthetic_fatigue_system.py:695-719 | density fatigue lies in [0, 1], and is 0 at or below the optimal rate |
| `FatigueV2.RestGapsNonneg` | Scripts/aesthetic_fatigue_system.py:802-805 | on a time-ordered history the counted rest is non-negative |
| `FatigueV2.RestGapsNone` | Scripts/aesthetic_fatigue_system.py:802-805 | with every gap below the threshold no rest is counted |
| `FatigueV2.RestGaps` | Scripts/aesthetic_fatigue_system.py:802-805 | with a non-negative threshold the counted rest is non-negative, and fewer than two casts count none |
| `FatigueV2.RestGapsAllCounted` | Scripts/aesthetic_fatigue_system.py:802-805 | with a threshold of at most 0, every gap of an ordered history counts, so the gaps add up to its span |
| `FatigueV2.RestRatio` | Scripts/aesthetic_fatigue_system.py:785-812 | the ratio is at most 1, and 1 with fewer than two casts |
| `FatigueV2.RestRatioRange` | Scripts/aesthetic_fatigue_system.py:785-812 | on a time-ordered history that ends no later than now, the ratio lies in [0, 1] |
| `FatigueV2.RestRatioNoPauses` | Scripts/aesthetic_fatigue_system.py:785-812 | casting up to now without a gap as long as the threshold gives ratio 0 |
| `FatigueV2.RestRatioNonneg` | Scripts/aesthetic_fatigue_system.py:785-812 | on a time-ordered history the rest ratio is never negative, whatever the query time and the threshold |
| `FatigueV2.RestDeficit` | Scripts/aesthetic_fatigue_system.py:738-744 | defined whenever the ratio reaches the ideal or the ideal is non-zero, since the division is reached only below the ideal; the deficit lies in [0, 1], and is 0 at or above the ideal ratio |
| `FatigueV2.RestDeficitShape` | Scripts/aesthetic_fatigue_system.py:738-744 | below the ideal ratio the deficit is 1 − ratio/ideal and positive; no rest gives 1 |
| `FatigueV2.RestDeficitAntitone` | Scripts/aesthetic_fatigue_system.py:738-744 | less rest never means less fatigue |
| `FatigueV2.RestDeficitFatigue` | Scripts/aesthetic_fatigue_system.py:721-744 | defined for a non-zero ideal ratio, or for any ideal on a time-ordered history; rest-deficit fatigue lies in [0, 1], and is 0 when the rest ratio reaches the ideal |
| `FatigueV2.ZeroIdealNoDeficit` | Scripts/aesthetic_fatigue_system.py:738-741 | with an ideal rest ratio of 0, a time-ordered history has rest-deficit fatigue 0, and the division is never reached |
| `FatigueV2.Track` | Scripts/aesthetic_fatigue_system.py:484-508 | the first cast starts the run; a gap of at least the reset length restarts it, a shorter one keeps it; a gap of at least the rest threshold is added to the rest time, a shorter one adds nothing; the cast becomes the last one |
| `FatigueV2.TrackKeepsValid` | Scripts/aesthetic_fatigue_system.py:484-508 | with casts in time order the run starts no later than the last cast, and the rest time stays non-negative and never shrinks |
| `FatigueV2.TrackAccumulates` | Scripts/aesthetic_fatigue_system.py:494-508 | without a long enough pause the run's length grows by exactly the gap |
| `FatigueV2.TrackResets` | Scripts/aesthetic_fatigue_system.py:494-506 | the first cast, or a pause of at least the reset length, gives a run of length 0 |
| `FatigueV2.DecayedRest` | Scripts/aesthetic_fatigue_system.py:518-522 | the prune's rest decay keeps a non-negative rest time non-negative, never raises it, and leaves it alone when it is not positive |
| `FatigueV2.SustainedDuration` | Scripts/aesthetic_fatigue_system.py:814-818 | 0 when no run has started, and non-negative once one has, up to now |
| `FatigueV2.SustainedFatigue` | Scripts/aesthetic_fatigue_system.py:746-768 | sustained fatigue lies in [0, 1], and is 0 up to the onset |
| `FatigueV2.Components` | Scripts/aesthetic_fatigue_system.py:618-634 | each entropy and its fatigue sum to 1; recurrence lies in [0, 1); the density rate is non-negative and the rest ratio at most 1; each ramp dimension lies in [0, 1] and is 0 on its quiet side; the duration is the current run's |
| `FatigueV2.Fuse` | Scripts/aesthetic_fatigue_system.py:583-593 | with non-negative weights and the eight fatigues in [0, 1], the weighted sum lies between 0 and the total weight |
| `FatigueV2.PressureHintItemsFacts` | Scripts/aesthetic_fatigue_system.py:904-912 | the three pressure hints are in slot order, fire exactly above 0.5, and all sit before slot 3 |
| `FatigueV2.Suggestions` | Scripts/aesthetic_fatigue_system.py:892-939 | sustained, density, rest, pitch, transition, rhythm, recurrence and chord hints, in that order, each exactly when its value is above 0.5; empty exactly when none is |
| `FatigueV2.SuggestionsFacts` | Scripts/aesthetic_fatigue_system.py:892-939 | the pressure chain followed by the original chain gives the fixed order and exactly the firing slots |
| `FatigueV2.ConcatHints` | Scripts/aesthetic_fatigue_system.py:892-939 | two chains firing in disjoint, ordered slot ranges give one ordered list of both, empty exactly when neither fires |
| `FatigueV2.ComputeFatigue` | Scripts/aesthetic_fatigue_system.py:530-643 | fewer than three casts give index 0, level NONE, the default penalty and no hints. Otherwise the index is the clamped eight-term weighted sum, whatever the weights. The level comes from the ladder, the penalty from the mode, the hints from the components, and the per-note fatigue is that of the target note. |
| `FatigueV2.ComponentsRanges` | Scripts/aesthetic_fatigue_system.py:551-570 | with a positive half-life, the four entropy-based fatigues are at most 1 |
| `FatigueV2.LongRunAsksForPause` | Scripts/aesthetic_fatigue_system.py:746-768 | once the current run has lasted the full sustained length, sustained fatigue is 1 and the first hint asks for a pause |
| `FatigueV2.Engine.constructor` | Scripts/aesthetic_fatigue_system.py:433-442 | an empty history, empty per-note containers and no run |
| `FatigueV2.Engine.RecordSpell` | Scripts/aesthetic_fatigue_system.py:446-457 | the tracking update, then the bounded append, then the prune at the cast's time; the result is computed at that time for the cast note |
| `FatigueV2.Engine.Admit` | Scripts/aesthetic_fatigue_system.py:452-456 | the state change of `record_spell`, keeping the history ordered and within capacity |
| `FatigueV2.Engine.QueryFatigue` | Scripts/aesthetic_fatigue_system.py:459-463 | prune at the given time, then compute without recording |
| `FatigueV2.Engine.GetNoteFatigueMap` | Scripts/aesthetic_fatigue_system.py:465-471 | prune, then give every note its per-note fatigue |
| `FatigueV2.Engine.Reset` | Scripts/aesthetic_fatigue_system.py:473-480 | the history and both containers are empty and there is no run |
| `FatigueV2.Engine.UpdateSustainedTracking` | Scripts/aesthetic_fatigue_system.py:484-508 | the three tracking fields become `Track` of their old values |
| `FatigueV2.Engine.AppendEvent` | Scripts/aesthetic_fatigue_system.py:455 | the deque append with eviction of the oldest cast |
| `FatigueV2.Engine.PruneOldEvents` | Scripts/aesthetic_fatigue_system.py:512-522 | the history is pruned at now − window, every kept cast is inside the window, and the rest time decays |
| `FatigueV1.Components` | aesthetic_fatigue_system.py:596-606 | each entropy and its fatigue sum to 1, and recurrence lies in [0, 1) |
| `FatigueV1.Fuse` | aesthetic_fatigue_system.py:566-572 | with non-negative weights and the five fatigues in [0, 1], the weighted sum lies between 0 and the total weight |
| `FatigueV1.Suggestions` | aesthetic_fatigue_system.py:759-795 | pitch, transition, rhythm, recurrence and chord hints, in that order, each exactly when its value is above 0.5; at most five; empty exactly when none is |
| `FatigueV1.ComputeFatigue` | aesthetic_fatigue_system.py:520-615 | fewer than three casts give index 0, level NONE, default penalty and no hints. Otherwise the index is the clamped five-term weighted sum, whatever the weights, and the level, penalty, hints and per-note fatigue follow from it. |
| `FatigueV1.ComputeFatigueRanges` | aesthetic_fatigue_system.py:520-615 | with a positive half-life: every fatigue is at most 1, recurrence lies in [0, 1), and per-note fatigue lies in [0, 1] |
| `FatigueV1.OneNoteRunIsMonotonous` | aesthetic_fatigue_system.py:542-562 | three or more plain casts of one note give full pitch, transition and chord fatigue, and those three hints |
| `FatigueV1.Engine.constructor` | aesthetic_fatigue_system.py:421-431 | an empty history and empty per-note containers |
| `FatigueV1.Engine.RecordSpell` | aesthetic_fatigue_system.py:435-450 | the append with eviction, then the prune at the cast's time; the result is computed at that time for the cast note |
| `FatigueV1.Engine.Admit` | aesthetic_fatigue_system.py:448-449 | the state change of `record_spell`, keeping the history ordered and within capacity |
| `FatigueV1.Engine.QueryFatigue` | aesthetic_fatigue_system.py:452-467 | prune at the given time, then compute without recording |
| `FatigueV1.Engine.GetNoteFatigueMap` | aesthetic_fatigue_system.py:469-485 | prune, then give every note its per-note fatigue |
| `FatigueV1.Engine.Reset` | aesthetic_fatigue_system.py:487-491 | the history, the per-note map and the diversity set are empty |
| `FatigueV1.Engine.AppendEvent` | aesthetic_fatigue_system.py:448 | the deque append with eviction of the oldest cast |
| `FatigueV1.Engine.PruneOldEvents` | aesthetic_fatigue_system.py:495-499 | the history is pruned at now − window, and every kept cast is inside the window |
| `BalanceBuild.NoteStats.HitFactor` | BalanceKit/balance_scorer.py:104-107 | the hit factor is at most 1, non-negative for a non-negative size·speed, and size·speed/12 up to a sure hit |
| `BalanceBuild.NoteStats.EffectiveDps` | BalanceKit/balance_scorer.py:109-112 | for non-negative damage, the DPS per default beat is at most twice the actual damage |
| `BalanceBuild.NoteStats.CoverageArea` | BalanceKit/balance_scorer.py:114-117 | with a non-negative π the area is non-negative |
| `BalanceBuild.NoteStats.TotalDmg` | BalanceKit/balance_scorer.py:73-74 | without a damage bonus the total is the base damage, and a non-negative bonus never lowers it |
| `BalanceBuild.NoteStats.TotalSpd` | BalanceKit/balance_scorer.py:77-78 | the same for speed |
| `BalanceBuild.NoteStats.TotalDur` | BalanceKit/balance_scorer.py:81-82 | the same for duration |
| `BalanceBuild.NoteStats.TotalSize` | BalanceKit/balance_scorer.py:85-86 | the same for size |
| `BalanceBuild.NoteStats.ActualDamage` | BalanceKit/balance_scorer.py:89-90 | dividing by the 10-per-point unit gives back the total points, and non-negative points give non-negative damage |
| `BalanceBuild.NoteStats.ActualSpeed` | BalanceKit/balance_scorer.py:93-94 | the same for speed, at 200 per point |
| `BalanceBuild.NoteStats.ActualDuration` | BalanceKit/balance_scorer.py:97-98 | the same for duration, at 0.5 per point |
| `BalanceBuild.NoteStats.ActualRadius` | BalanceKit/balance_scorer.py:101-102 | the same for the radius, at 8 per point |
| `BalanceBuild.ActualDamagePerHit` | BalanceKit/balance_scorer.py:109-112 | a hit factor of at most 1 over the 0.5 s default beat gives at most twice the damage |
| `BalanceBuild.BaseNotes` | BalanceKit/balance_scorer.py:120-130 | the seven white keys, each under its own name, without bonuses, with parameters summing to 12 |
| `BalanceBuild.DamageBonusScales` | BalanceKit/balance_scorer.py:72-90 | a damage bonus of d raises actual damage by 10·d |
| `BalanceBuild.BeatInterval` | BalanceKit/balance_scorer.py:430-432 | a positive tempo gives a positive beat |
| `BalanceBuild.NoteDamage` | BalanceKit/balance_scorer.py:434-437 | defined exactly for notes the build has, and non-negative when the note's damage plus the global bonus is |
| `BalanceBuild.ApplyEffect` | BalanceKit/balance_scorer.py:442-489 | one key of the dispatch raises exactly when it is a per-note key whose given target is not in the build; otherwise the build keeps its set of notes, and a build-level key leaves every note as it was |
| `BalanceBuild.GroupOf` | BalanceKit/balance_scorer.py:442-489 | the branch group of a key: the note group exactly for the four per-note keys, the unknown group exactly for keys the chain does not name |
| `BalanceBuild.ApplyEffects` | BalanceKit/balance_scorer.py:439-489 | an upgrade keeps the build's set of notes, and stops on a `KeyError` exactly when a target is given, is not in the build, and some key is a per-note key |
| `BalanceBuild.ApplyFirst` | BalanceKit/balance_scorer.py:441-489 | the same for the first n effects, by induction over n |
| `BalanceBuild.ApplyFirstStep` | BalanceKit/balance_scorer.py:441-442 | each further effect extends the run by one step at val·level |
| `BalanceBuild.ApplyEffectKeepsClamps` | BalanceKit/balance_scorer.py:454-489 | one effect keeps the four rate multipliers at least 0.2 and dodge at most 0.5 |
| `BalanceBuild.ApplyEffectsKeepsClamps` | BalanceKit/balance_scorer.py:439-489 | so does a whole upgrade, even one that stops on a `KeyError` |
| `BalanceBuild.ApplyFirstKeepsClamps` | BalanceKit/balance_scorer.py:441-489 | so does every prefix of an upgrade's effects |
| `BalanceBuild.RateMultFloor` | BalanceKit/balance_scorer.py:454-489 | a clamped key leaves its multiplier at least 0.2, or dodge at most 0.5, from any starting value |
| `BalanceBuild.IgnoredKeys` | BalanceKit/balance_scorer.py:442-453 | unknown keys, and per-note keys without a target, leave the build unchanged |
| `BalanceBuild.NoteKeyEffect` | BalanceKit/balance_scorer.py:444-451 | a per-note key with a known target changes only that note's matching bonus, by exactly val·level |
| `BalanceBuild.MissingTargetFails` | BalanceKit/balance_scorer.py:444-451 | a per-note key naming a missing note raises, and the build is left as it was |
| `BalanceBuild.GlobalDmgEffect` | BalanceKit/balance_scorer.py:452-453 | `global_dmg` changes only the global damage bonus, by the amount |
| `BalanceBuild.MonotonyRateMultEffect` | BalanceKit/balance_scorer.py:454-455 | `monotony_rate_mult` changes only that multiplier, to the sum floored at 0.2 |
| `BalanceBuild.DensityRateMultEffect` | BalanceKit/balance_scorer.py:456-457 | `density_rate_mult` changes only that multiplier, to the sum floored at 0.2 |
| `BalanceBuild.DissonanceRateMultEffect` | BalanceKit/balance_scorer.py:458-459 | `dissonance_rate_mult` changes only that multiplier, to the sum floored at 0.2 |
| `BalanceBuild.MonotonyDecayBonusEffect` | BalanceKit/balance_scorer.py:460-461 | `monotony_decay_bonus` changes only the monotony decay rate, by the amount |
| `BalanceBuild.DensityDecayBonusEffect` | BalanceKit/balance_scorer.py:462-463 | `density_decay_bonus` changes only the density decay rate, by the amount |
| `BalanceBuild.DissonanceDecayBonusEffect` | BalanceKit/balance_scorer.py:464-465 | `dissonance_decay_bonus` changes only the dissonance decay rate, by the amount |
| `BalanceBuild.AfiAmplifyReductionEffect` | BalanceKit/balance_scorer.py:466-467 | `afi_amplify_reduction` changes only that reduction, by the amount |
| `BalanceBuild.BpmBonusEffect` | BalanceKit/balance_scorer.py:468-469 | `bpm_bonus` changes only the tempo, by `int(total)` |
| `BalanceBuild.RestDensityReductionBonusEffect` | BalanceKit/balance_scorer.py:470-471 | `rest_density_reduction_bonus` changes only the rest density reduction, by the amount |
| `BalanceBuild.RestChargeBonusEffect` | BalanceKit/balance_scorer.py:472-473 | `rest_charge_bonus` changes only the rest charge bonus, by the amount |
| `BalanceBuild.ChordDmgBonusEffect` | BalanceKit/balance_scorer.py:474-475 | `chord_dmg_bonus` changes only the chord damage bonus, by the amount |
| `BalanceBuild.ChordDissonanceMultEffect` | BalanceKit/balance_scorer.py:476-477 | `chord_dissonance_mult` changes only that multiplier, to the sum floored at 0.2 |
| `BalanceBuild.ExtendedChordEnabledEffect` | BalanceKit/balance_scorer.py:478-479 | `extended_chord_enabled` only sets its flag |
| `BalanceBuild.ProgressionBonusEffect` | BalanceKit/balance_scorer.py:480-481 | `progression_bonus` changes only the progression bonus, by the amount |
| `BalanceBuild.ResolutionReductionBonusEffect` | BalanceKit/balance_scorer.py:482-483 | `resolution_reduction_bonus` changes only the resolution reduction, by the amount |
| `BalanceBuild.MaxHpBonusEffect` | BalanceKit/balance_scorer.py:484-485 | `max_hp_bonus` changes only the maximum health, by the amount |
| `BalanceBuild.HpRegenBonusEffect` | BalanceKit/balance_scorer.py:486-487 | `hp_regen_bonus` changes only the health regeneration, by the amount |
| `BalanceBuild.DodgeChanceEffect` | BalanceKit/balance_scorer.py:488-489 | `dodge_chance` changes only the dodge chance, to the sum capped at 0.5 |
| `BalanceBuild.SingleEffectUpgrade` | BalanceKit/balance_scorer.py:441-443 | a one-key upgrade applies that key once, with val·level |
| `BalanceBuild.TargetOnlyForNoteKeys` | BalanceKit/balance_scorer.py:442-489 | only per-note keys look at the target, and only they can fail |
| `BalanceBuild.ApplyFirstHalts` | BalanceKit/balance_scorer.py:441-453 | after an effect raises, no later effect is applied |
| `BalanceBuild.PlayerBuild.constructor` | BalanceKit/balance_scorer.py:396-429 | the build holds exactly the given field values |
| `BalanceBuild.PlayerBuild.GetNoteDamage` | BalanceKit/balance_scorer.py:434-437 | the live build's note damage, `None` for a missing note |
| `BalanceBuild.PlayerBuild.ApplyUpgrade` | BalanceKit/balance_scorer.py:439-489 | the fields after the loop are the effects applied in order; `ok` is false exactly when a per-note key named a missing note |
| `BalanceBuild.PlayerBuild.ApplyKey` | BalanceKit/balance_scorer.py:442-489 | one key of the dispatch changes the fields as `ApplyEffect` says, or nothing when it raises |
| `BalanceBuild.PlayerBuild.ApplyNoteKey` | BalanceKit/balance_scorer.py:444-451 | the per-note branch |
| `BalanceBuild.PlayerBuild.ApplyRateKey` | BalanceKit/balance_scorer.py:452-459 | the global-damage and rate-multiplier branches |
| `BalanceBuild.PlayerBuild.ApplyDecayKey` | BalanceKit/balance_scorer.py:460-467 | the decay-rate and amplifier-reduction branches |
| `BalanceBuild.PlayerBuild.ApplyTempoKey` | BalanceKit/balance_scorer.py:468-483 | the tempo and resolution-reduction branches |
| `BalanceBuild.PlayerBuild.ApplyRestKey` | BalanceKit/balance_scorer.py:470-473 | the rest branches |
| `BalanceBuild.PlayerBuild.ApplyChordDamageKey` | BalanceKit/balance_scorer.py:474-481 | the chord-damage and progression branches |
| `BalanceBuild.PlayerBuild.ApplyChordShapeKey` | BalanceKit/balance_scorer.py:476-479 | the chord-dissonance and extended-chord branches |
| `BalanceBuild.PlayerBuild.ApplySurvivalKey` | BalanceKit/balance_scorer.py:484-489 | the health, regeneration and dodge branches |
| `BalanceSim.AfiAmp` | BalanceKit/balance_scorer.py:692 | the amplifier is at least 1, and at least the table's value minus the reduction |
| `BalanceSim.AfiLevel` | BalanceKit/balance_scorer.py:772-774 | the fatigue estimate is an integer in 0 .. 4, at most 3 once a note is used, and 0 with seven distinct notes |
| `BalanceSim.CastMonotony` | BalanceKit/balance_scorer.py:691-703 | the cast note's monotony lies in [0, 100] |
| `BalanceSim.DensityAfterCast` | BalanceKit/balance_scorer.py:715-718 | density after a cast lies in [0, 100] |
| `BalanceSim.DensityAfterRest` | BalanceKit/balance_scorer.py:629 | after a rest the density is non-negative, and with a non-negative reduction no higher than before |
| `BalanceSim.DissonanceAfterCast` | BalanceKit/balance_scorer.py:730-740 | dissonance after a cast lies in [0, 100] |
| `BalanceSim.ChordOf` | BalanceKit/balance_scorer.py:643-675 | only a registered chord that is unlocked adds dissonance, healing or shielding, and for non-negative note power the healing and shielding are non-negative |
| `BalanceSim.AfterSwitch` | BalanceKit/balance_scorer.py:698-700 | a repeat, or a first cast, leaves the map unchanged; a switch changes only the last note's value, to something in [0, max(0, old)] |
| `BalanceSim.Eased` | BalanceKit/balance_scorer.py:734-735 | the same notes, each non-negative, and none higher than a non-negative old value |
| `BalanceSim.MonoMult` | BalanceKit/balance_scorer.py:706-713 | the monotony factor lies in [0, 1], is 0 exactly from lockout on, and 1 exactly below the warning level |
| `BalanceSim.DensityMult` | BalanceKit/balance_scorer.py:720-728 | the density factor lies in [0.6, 1], is at most 0.7 exactly from overload on, and 1 exactly below the mild level |
| `BalanceSim.HpLoss` | BalanceKit/balance_scorer.py:742-751 | for a positive beat, health loss lies between 0 and nine beat intervals; below the pain threshold it is 0 |
| `BalanceSim.RestStep` | BalanceKit/balance_scorer.py:626-633 | a rest changes only the rest count (to one more), the density (kept non-negative) and the log, which gains one damage-free REST entry |
| `BalanceSim.CastStep` | BalanceKit/balance_scorer.py:635-774 | a cast makes its note the last one and a used one, keeps density and dissonance in [0, 100] and the level in 0 .. 4, raises each counter by at most one, and adds one log entry |
| `BalanceSim.Step` | BalanceKit/balance_scorer.py:609-774 | a beat fails exactly on a cast of a note the build lacks; otherwise it adds exactly one log entry and keeps the older ones |
| `BalanceSim.Run` | BalanceKit/balance_scorer.py:608-774 | a run of n actions that does not fail has a log of exactly n entries |
| `BalanceSim.RunStep` | BalanceKit/balance_scorer.py:609 | the run of n + 1 actions is the run of n followed by one beat |
| `BalanceSim.RunHalts` | BalanceKit/balance_scorer.py:641 | once a beat has raised, the run stays failed |
| `BalanceSim.AfterSwitchRange` | BalanceKit/balance_scorer.py:698-700 | switching keeps every note's monotony in [0, 100] |
| `BalanceSim.EasedRange` | BalanceKit/balance_scorer.py:734-735 | the easing loop keeps the notes and lowers each monotony, staying at least 0 |
| `BalanceSim.StepGauges` | BalanceKit/balance_scorer.py:626-740 | a beat keeps every gauge in [0, 100] |
| `BalanceSim.StepLog` | BalanceKit/balance_scorer.py:626-770 | a beat adds exactly one log entry with its facts, and keeps the older entries |
| `BalanceSim.StepTotals` | BalanceKit/balance_scorer.py:687-760 | a beat keeps the counters, totals and peaks equal to those of the log |
| `BalanceSim.RunInvariant` | BalanceKit/balance_scorer.py:609-774 | every state the run reaches keeps the gauges in range, one log entry per beat, and totals that match the log |
| `BalanceSim.StepInvariant` | BalanceKit/balance_scorer.py:609-774 | one beat from a state with the invariant reaches a state with it one beat later |
| `BalanceSim.RunFails` | BalanceKit/balance_scorer.py:637-641 | the run fails exactly when some cast names a note the build does not have |
| `BalanceSim.MonoMultLadder` | BalanceKit/balance_scorer.py:706-713 | the monotony multiplier is 0 exactly at lockout, lies in [0, 1], is 1 exactly below the warning level, and never rises with the gauge |
| `BalanceSim.DensityMultLadder` | BalanceKit/balance_scorer.py:720-728 | the density multiplier is at most 0.7 exactly from overload on, lies in [0.6, 1], is 1 exactly below the mild level, and never rises with the gauge |
| `BalanceSim.EffectiveDamageBounds` | BalanceKit/balance_scorer.py:754 | fatigue only ever removes damage |
| `BalanceSim.HpLossBounds` | BalanceKit/balance_scorer.py:742-751 | health loss per beat lies between 0 and nine beat intervals, and is 0 exactly below the pain threshold |
| `BalanceSim.ModifierMultRange` | BalanceKit/balance_scorer.py:577-579 | a modifier never lowers damage, and an unknown one leaves it as it is |
| `BalanceSim.ChordOfPlain` | BalanceKit/balance_scorer.py:643-650 | an unknown chord, or an extended one that is locked, casts as a plain note |
| `BalanceSim.ChordOfPriority` | BalanceKit/balance_scorer.py:651-675 | the dissonance is the chord's times the build's multiplier. A zone chord takes the zone multiplier. A summon chord without a zone takes the summon multiplier. Otherwise a positive DOT ratio replaces the chord multiplier plus bonus. |
| `BalanceSim.RestStepFrame` | BalanceKit/balance_scorer.py:626-633 | a rest changes only the measure's rest count, the density and the log |
| `BalanceSim.CastMonotonyShape` | BalanceKit/balance_scorer.py:694-700 | a repeat skips the switch easing and, when the gain beats the decay and the note is below 100, raises its monotony; a switch lowers the last note's monotony by 20, floored at 0, and changes no other note |
| `BalanceSim.BurstPeakIsMax` | BalanceKit/balance_scorer.py:781 | the burst peak is the largest effective damage in the log, or 0 |
| `BalanceSim.BurstPeak` | BalanceKit/balance_scorer.py:781 | the peak is non-negative and at least every logged effective damage |
| `BalanceSim.SurvivalScore` | BalanceKit/balance_scorer.py:784-787 | the survival score is at most 100, and non-negative for non-negative healing, shielding and dodge under positive maximum health |
| `BalanceSim.RiskScore` | BalanceKit/balance_scorer.py:790-793 | the risk score is at most 100, and non-negative for non-negative health loss and counts under positive maximum health |
| `BalanceSim.Composite` | BalanceKit/balance_scorer.py:799-803 | risk only lowers the composite; with non-negative weights and scores at most 100 it is at most 100 times the DPS and survival weights |
| `BalanceSim.Finish` | BalanceKit/balance_scorer.py:776-805 | the result carries the strategy's name and the run's log, survival and risk at most 100, sustained DPS equal to effective DPS, and the composite computed from the reported scores |
| `BalanceSim.Simulation` | BalanceKit/balance_scorer.py:589-805 | a result that exists carries the strategy's name and one log entry per action |
| `BalanceSim.HpTotalNonneg` | BalanceKit/balance_scorer.py:751 | the total health lost is never negative |
| `BalanceSim.SimulationFacts` | BalanceKit/balance_scorer.py:589-803 | the result exists exactly when every cast's note is in the build. It then has one log entry per action, each with its facts. The lockout and overload counts, the dissonance damage and the three peaks are those of the log, and the survival and risk scores are at most 100. |
| `BalanceSim.ScoreBounds` | BalanceKit/balance_scorer.py:776-803 | with a positive tempo and health, the risk score lies in [0, 100], the burst DPS is non-negative, and under the default weights the composite is at most 75 |
| `BalanceSim.EaseAll` | BalanceKit/balance_scorer.py:734-735 | the in-place loop lowers every note's monotony by 10, floored at 0 |
| `BalanceSim.UpdateMonotony` | BalanceKit/balance_scorer.py:691-703 | the map and the cast note's value after the monotony update |
| `BalanceSim.UpdateDensity` | BalanceKit/balance_scorer.py:716-718 | the density after the cast's update |
| `BalanceSim.UpdateDissonance` | BalanceKit/balance_scorer.py:731-740 | the dissonance update, and the easing of every note after a dissonant chord |
| `BalanceSim.CastBeat` | BalanceKit/balance_scorer.py:635-774 | the cast half of the loop body is one `CastStep` of the specification |
| `BalanceSim.StrategySimulator.constructor` | BalanceKit/balance_scorer.py:581-587 | the simulator holds the build, the chord registry and the weights 0.5/0.25/0.25 |
| `BalanceSim.StrategySimulator.Simulate` | BalanceKit/balance_scorer.py:589-803 | the loop's result is `Simulation` of the build, registry, weights and strategy, or `None` on a `KeyError` |
| `BalanceBenchmark.InsertByScorePerm` | BalanceKit/balance_scorer.py:982 | inserting adds exactly the new result |
| `BalanceBenchmark.InsertByScoreSorted` | BalanceKit/balance_scorer.py:982 | inserting into a list in descending score order keeps it in that order |
| `BalanceBenchmark.InsertByScore` | BalanceKit/balance_scorer.py:982 | inserting gives one more element, and the new result is among them |
| `BalanceBenchmark.SortByScore` | BalanceKit/balance_scorer.py:982 | sorting keeps the number of results |
| `BalanceBenchmark.SortByScoreSorted` | BalanceKit/balance_scorer.py:982 | the sorted results are in non-increasing composite score |
| `BalanceBenchmark.SortByScorePerm` | BalanceKit/balance_scorer.py:982 | the sorted results are a permutation of the input |
| `BalanceBenchmark.CollectAllFacts` | BalanceKit/balance_scorer.py:977-980 | the collection exists exactly when every call succeeds, and then holds one value per element, in order |
| `BalanceBenchmark.CollectAllHalts` | BalanceKit/balance_scorer.py:977-980 | once a prefix fails, the whole collection fails |
| `BalanceBenchmark.CollectAll` | BalanceKit/balance_scorer.py:977-979 | a collection that exists has one value per element, and a failure on the last element fails it |
| `BalanceBenchmark.CollectAllStep` | BalanceKit/balance_scorer.py:977-979 | one more successful simulation appends its result to the list collected so far |
| `BalanceBenchmark.Results` | BalanceKit/balance_scorer.py:974-979 | results that exist are one per strategy; a zero tempo or maximum health fails any non-empty benchmark |
| `BalanceBenchmark.ResultsFacts` | BalanceKit/balance_scorer.py:974-980 | the results exist exactly when every strategy simulates, and then are one per strategy, in order |
| `BalanceBenchmark.RunFullBenchmark` | BalanceKit/balance_scorer.py:952-983 | the result exists exactly when every strategy simulates; it is then ordered by non-increasing composite score and is a permutation of the per-strategy results |

## Left out

- Console output and presentation: the `demo_*` functions, `print_benchmark_report`, `FatigueResult.__repr__`, the penalty `description` strings and the hint texts. Hints are modelled by meaning, and the pitch hint carries the set of rarely used white keys.
- `FatigueCore.PitchHint`: the source names at most three of the rarely used keys, in the iteration order of a Python set. The model carries the whole set, so `PitchHintNamesUncast` says the key is offered, not that it is among the three names shown.
- The exact values of `math.log2` and `math.pow`. They are parameters, and only their sign laws are used.
- `FatigueCore.EntropyFatiguesAtMostOne`, `FatigueV2.ComponentsRanges`, `FatigueV1.ComputeFatigueRanges`, `FatigueMath.ShannonEntropy`, `FatigueMath.WeightedShannonEntropy`, `FatigueMath.TransitionEntropy`, `FatigueCore.PitchFatigue`, `FatigueCore.TransitionFatigue`, `FatigueCore.ChordFatigue`: the doc comments promise entropies in [0, 1]. The model proves the entropies non-negative, so each fatigue is at most 1. It does not prove the upper bound entropy ≤ 1 (Gibbs' inequality), so a fatigue is not shown to be non-negative.
- `FatigueV2.ComponentsRanges` states the upper bounds of the four entropy-based fatigues only. The ranges of recurrence, density, rest deficit and sustained pressure are in the contract of `FatigueV2.Components`, and per-note fatigue is covered by `FatigueCore.NoteSpecificFatigueRange`.
- `FatigueV2.Engine.RecordSpell`, `FatigueV1.Engine.RecordSpell`: the source does not reject a cast earlier than the last one. The model requires casts in time order.
- The presets and tables: `create_*_config`, `create_chord_registry`, `create_upgrade_pool` and `create_strategy_library`. The configuration defaults are constants (`DefaultConfig`, `DefaultBuild`). The chord registry and the strategy list are parameters.
- `BalanceBenchmark.RunFullBenchmark`: the source's `None` defaults for the build, the strategies and the registry are not modelled; all three are given. The stability of Python's sort among equal scores is not stated either: the contract says ordered and a permutation.
- Rounding of logged values (`round(x, 1)`, `round(beat_time, 2)`). The log stores the values unrounded, and the burst peak is taken over unrounded damage.
- The simulator's `cast_count_in_measure`, `measure_idx` and the result fields `avg_afi` and `dodge_value`: nothing reads them, or nothing sets them.
- Aliasing: the source's `NoteStats` objects are shared mutable records. The model treats them as values inside the build's `notes` map.
- The engine containers `_per_note_fatigue` and `_last_diversity_notes`, and the configuration fields `diversity_recovery_bonus`, `chord_recovery_bonus` and `rest_recovery_per_second`, plus the event fields `beat_position` and `chord_notes`. Nothing reads them. The two containers are fields that only `reset` touches; the other fields are not modelled.
- `_accumulated_rest_time` never reaches the index. The model tracks it only for what `Track` and `DecayedRest` state: it is non-negative, grows by each long gap, and decays per prune.
- A zero BPM, a zero maximum health, a zero half-life, a zero maximum interval or an empty ramp span would raise `ZeroDivisionError` in the source. These are preconditions in the model. A zero ideal rest ratio is not excluded on a time-ordered history, where the source never divides by it; on a history out of time order it is, because the source's division can be reached there.
- The `config or FatigueConfig()` default of both engine constructors. The configuration is always given.
