/**
 * The parts of the aesthetic-fatigue engine that v1.0 and v2.0 share word for
 * word: notes and spell events, the bounded time-ordered history and its prune,
 * the five original dimensions (pitch, transition, rhythm, recurrence, chord),
 * per-note fatigue, the five-level threshold ladder, the penalty derivation and
 * the recovery hints of the original five dimensions.
 */
module FatigueCore {
  import opened Wrappers
  import opened Numerics
  import FatigueMath

  // ---------------------------------------------------------------------------
  // Notes and events

  /** The twelve equal-temperament notes, in the enum's declaration order. */
  datatype Note = C | Cs | D | Ds | E | F | Fs | G | Gs | A | As | B

  /** `note.value`. */
  function NoteValue(n: Note): (v: int)
    ensures 0 <= v < 12
  {
    match n
    case C => 0 case Cs => 1 case D => 2 case Ds => 3 case E => 4 case F => 5
    case Fs => 6 case G => 7 case Gs => 8 case A => 9 case As => 10 case B => 11
  }

  /** Distinct notes have distinct values, so counting values is counting notes. */
  lemma NoteValueInjective(a: Note, b: Note)
    requires NoteValue(a) == NoteValue(b)
    ensures a == b
  {
  }

  /** `for note in Note`: every note once, in declaration order. */
  const AllNotes: seq<Note> := [C, Cs, D, Ds, E, F, Fs, G, Gs, A, As, B]

  /** Every note is in `AllNotes`. */
  lemma AllNotesComplete(n: Note)
    ensures exists j :: 0 <= j < |AllNotes| && AllNotes[j] == n
  {
    match n
    case C => assert AllNotes[0] == n; case Cs => assert AllNotes[1] == n;
    case D => assert AllNotes[2] == n; case Ds => assert AllNotes[3] == n;
    case E => assert AllNotes[4] == n; case F => assert AllNotes[5] == n;
    case Fs => assert AllNotes[6] == n; case G => assert AllNotes[7] == n;
    case Gs => assert AllNotes[8] == n; case A => assert AllNotes[9] == n;
    case As => assert AllNotes[10] == n; case B => assert AllNotes[11] == n;
  }

  const WhiteKeys: set<Note> := {C, D, E, F, G, A, B}

  /** One cast: time, note and the chord it belonged to (if any). */
  datatype SpellEvent = SpellEvent(timestamp: real, note: Note, isChord: bool, chordType: Option<string>)

  // ---------------------------------------------------------------------------
  // The history: a `deque(maxlen=...)` of events in time order

  ghost predicate Sorted(h: seq<SpellEvent>)
  {
    forall i, j :: 0 <= i < j < |h| ==> h[i].timestamp <= h[j].timestamp
  }

  /** No event of h is later than t. */
  ghost predicate NotAfter(h: seq<SpellEvent>, t: real)
  {
    forall i :: 0 <= i < |h| ==> h[i].timestamp <= t
  }

  /** `deque.append` on a deque with `maxlen = cap`: the oldest entries fall off the front. */
  function BoundedAppend(h: seq<SpellEvent>, e: SpellEvent, cap: nat): (r: seq<SpellEvent>)
    ensures |r| <= cap
  {
    var s := h + [e];
    if |s| <= cap then s else s[|s| - cap..]
  }

  /** The appended deque holds the last `min(|h| + 1, cap)` casts of `h + [e]`, ending with e. */
  lemma BoundedAppendShape(h: seq<SpellEvent>, e: SpellEvent, cap: nat)
    ensures |BoundedAppend(h, e, cap)| == if |h| + 1 <= cap then |h| + 1 else cap
    ensures BoundedAppend(h, e, cap) == (h + [e])[|h| + 1 - |BoundedAppend(h, e, cap)|..]
    ensures cap >= 1 ==> BoundedAppend(h, e, cap)[|BoundedAppend(h, e, cap)| - 1] == e
  {
  }

  /** Appending a cast no earlier than any retained one keeps the history in time order. */
  lemma BoundedAppendSorted(h: seq<SpellEvent>, e: SpellEvent, cap: nat)
    requires Sorted(h) && NotAfter(h, e.timestamp)
    ensures Sorted(BoundedAppend(h, e, cap))
    ensures NotAfter(BoundedAppend(h, e, cap), e.timestamp)
  {
    var s := h + [e];
    assert Sorted(s);
    assert NotAfter(s, e.timestamp);
  }

  /** The history left by `while h and h[0].timestamp < cutoff: h.popleft()`. */
  function Pruned(h: seq<SpellEvent>, cutoff: real): (r: seq<SpellEvent>)
    ensures |r| <= |h|
  {
    if h != [] && h[0].timestamp < cutoff then Pruned(h[1..], cutoff) else h
  }

  /** The prune drops a prefix of casts before the cutoff and stops at the first one that is not. */
  lemma {:induction false} PrunedShape(h: seq<SpellEvent>, cutoff: real)
    ensures Pruned(h, cutoff) == h[|h| - |Pruned(h, cutoff)|..]
    ensures Pruned(h, cutoff) != [] ==> Pruned(h, cutoff)[0].timestamp >= cutoff
    ensures forall i :: 0 <= i < |h| - |Pruned(h, cutoff)| ==> h[i].timestamp < cutoff
  {
    if h != [] && h[0].timestamp < cutoff {
      PrunedShape(h[1..], cutoff);
      var r := Pruned(h, cutoff);
      assert h[1..][|h| - 1 - |r|..] == h[|h| - |r|..];
      forall i | 0 <= i < |h| - |r| ensures h[i].timestamp < cutoff {
        if i > 0 { assert h[i] == h[1..][i - 1]; }
      }
    }
  }

  /** On a time-ordered history the prune keeps exactly the events at or after the cutoff, in order. */
  lemma PrunedRecent(h: seq<SpellEvent>, cutoff: real)
    requires Sorted(h)
    ensures Sorted(Pruned(h, cutoff))
    ensures forall i :: 0 <= i < |Pruned(h, cutoff)| ==> Pruned(h, cutoff)[i].timestamp >= cutoff
    ensures forall i :: 0 <= i < |h| && h[i].timestamp >= cutoff ==> h[i] in Pruned(h, cutoff)
  {
    var r := Pruned(h, cutoff);
    var k := |h| - |r|;
    PrunedShape(h, cutoff);
    SuffixKeeps(h, k, cutoff);
    PrunedAtOrAfter(r, cutoff);
    PrunedKeepsRecent(h, cutoff);
  }

  lemma PrunedAtOrAfter(r: seq<SpellEvent>, cutoff: real)
    requires Sorted(r) && (r != [] ==> r[0].timestamp >= cutoff)
    ensures forall i :: 0 <= i < |r| ==> r[i].timestamp >= cutoff
  {
    forall i | 0 <= i < |r| ensures r[i].timestamp >= cutoff {
      assert r[0].timestamp <= r[i].timestamp;
    }
  }

  lemma PrunedKeepsRecent(h: seq<SpellEvent>, cutoff: real)
    ensures forall i :: 0 <= i < |h| && h[i].timestamp >= cutoff ==> h[i] in Pruned(h, cutoff)
  {
    var r := Pruned(h, cutoff);
    var k := |h| - |r|;
    PrunedShape(h, cutoff);
    forall i | 0 <= i < |h| && h[i].timestamp >= cutoff ensures h[i] in r {
      assert r[i - k] == h[i];
    }
  }

  /** Pruning twice with the same cutoff is pruning once. */
  lemma {:induction false} PrunedIdempotent(h: seq<SpellEvent>, cutoff: real)
    ensures Pruned(Pruned(h, cutoff), cutoff) == Pruned(h, cutoff)
  {
    if h != [] && h[0].timestamp < cutoff {
      PrunedIdempotent(h[1..], cutoff);
    }
  }

  /** The `while history and history[0].timestamp < cutoff: popleft()` loop of both engines. */
  method PopStale(h: seq<SpellEvent>, cutoff: real) returns (r: seq<SpellEvent>)
    ensures r == Pruned(h, cutoff)
  {
    r := h;
    while r != [] && r[0].timestamp < cutoff
      invariant Pruned(r, cutoff) == Pruned(h, cutoff)
      decreases |r|
    {
      r := r[1..];
    }
  }

  /** Pruning keeps a history's upper time bound. */
  lemma PrunedNotAfter(h: seq<SpellEvent>, cutoff: real, t: real)
    requires NotAfter(h, t)
    ensures NotAfter(Pruned(h, cutoff), t)
  {
    PrunedShape(h, cutoff);
    SuffixKeeps(h, |h| - |Pruned(h, cutoff)|, t);
  }

  /** A suffix of a time-ordered history stays time-ordered and bounded by the same time. */
  lemma SuffixKeeps(h: seq<SpellEvent>, k: int, t: real)
    requires 0 <= k <= |h|
    ensures Sorted(h) ==> Sorted(h[k..])
    ensures NotAfter(h, t) ==> NotAfter(h[k..], t)
  {
    if Sorted(h) {
      forall i, j | 0 <= i < j < |h[k..]| ensures h[k..][i].timestamp <= h[k..][j].timestamp {
        assert h[k..][i] == h[k + i] && h[k..][j] == h[k + j];
      }
    }
    if NotAfter(h, t) {
      forall i | 0 <= i < |h[k..]| ensures h[k..][i].timestamp <= t {
        assert h[k..][i] == h[k + i];
      }
    }
  }

  // ---------------------------------------------------------------------------
  // Time decay

  /** The engine's `_decay_weight`, as the function value handed to the entropy utilities. */
  function Decay(halfLife: real, exp2: real -> real): real -> real
    requires halfLife != 0.0
  {
    dt => FatigueMath.DecayWeight(halfLife, exp2, dt)
  }

  /** What the dimension proofs need of a decay function: every weight lies in (0, 1]. */
  ghost predicate DecayInUnit(decay: real -> real)
  {
    forall dt: real :: 0.0 < decay(dt) <= 1.0
  }

  /** With a positive half-life `_decay_weight` keeps that promise. */
  lemma DecayIsInUnit(halfLife: real, exp2: real -> real)
    requires Exp2Law(exp2) && halfLife > 0.0
    ensures DecayInUnit(Decay(halfLife, exp2))
  {
    forall dt: real ensures 0.0 < Decay(halfLife, exp2)(dt) <= 1.0 {
      FatigueMath.DecayWeightRange(halfLife, exp2, dt);
    }
  }

  // ---------------------------------------------------------------------------
  // The original five dimensions

  /** `[(e.timestamp, e.note.value) for e in events]`. */
  function PitchEvents(h: seq<SpellEvent>): (p: seq<(real, int)>)
    ensures |p| == |h| && forall i :: 0 <= i < |h| ==> p[i] == (h[i].timestamp, NoteValue(h[i].note))
  {
    seq(|h|, i requires 0 <= i < |h| => (h[i].timestamp, NoteValue(h[i].note)))
  }

  /** `[e.note.value for e in events]`. */
  function NoteSequence(h: seq<SpellEvent>): (s: seq<int>)
    ensures |s| == |h| && forall i :: 0 <= i < |h| ==> s[i] == NoteValue(h[i].note)
  {
    seq(|h|, i requires 0 <= i < |h| => NoteValue(h[i].note))
  }

  /** `e.chord_type or "none"`: a missing or empty chord name counts as "none". */
  function ChordKey(e: SpellEvent): (k: string)
    ensures k != ""
    ensures e.chordType.Some? && e.chordType.value != "" ==> k == e.chordType.value
  {
    match e.chordType
    case None => "none"
    case Some(name) => if name == "" then "none" else name
  }

  function ChordEvents(h: seq<SpellEvent>): (c: seq<(real, string)>)
    ensures |c| == |h| && forall i :: 0 <= i < |h| ==> c[i] == (h[i].timestamp, ChordKey(h[i]))
  {
    seq(|h|, i requires 0 <= i < |h| => (h[i].timestamp, ChordKey(h[i])))
  }

  /** One (timestamp, bin) pair per gap between consecutive events. */
  function RhythmIntervals(h: seq<SpellEvent>, bins: int, maxInterval: real): (r: seq<(real, int)>)
    requires maxInterval != 0.0
    ensures |h| == 0 ==> r == []
    ensures |h| >= 1 ==> |r| == |h| - 1
    ensures forall i :: 0 <= i < |r| ==>
              r[i] == (h[i + 1].timestamp,
                       FatigueMath.QuantizeInterval(h[i + 1].timestamp - h[i].timestamp, bins, maxInterval))
  {
    if |h| < 1 then []
    else seq(|h| - 1, i requires 0 <= i < |h| - 1 =>
           (h[i + 1].timestamp, FatigueMath.QuantizeInterval(h[i + 1].timestamp - h[i].timestamp, bins, maxInterval)))
  }

  /** Pitch fatigue: one minus the decay-weighted entropy of the note values. */
  function PitchFatigue(h: seq<SpellEvent>, decay: real -> real, now: real, log2: real -> real): (r: real)
    ensures |h| <= 1 ==> r == 1.0
    ensures Log2Law(log2) && DecayInUnit(decay) ==> r <= 1.0
  {
    assert Log2Law(log2) && DecayInUnit(decay) ==>
             FatigueMath.WeightedShannonEntropy(PitchEvents(h), decay, now, log2) >= 0.0 by {
      if Log2Law(log2) && DecayInUnit(decay) {
        FatigueMath.WeightedEntropyNonneg(PitchEvents(h), decay, now, log2);
      }
    }
    1.0 - FatigueMath.WeightedShannonEntropy(PitchEvents(h), decay, now, log2)
  }

  /** Transition fatigue: one minus the conditional entropy of the note sequence over 12 notes. */
  function TransitionFatigue(h: seq<SpellEvent>, log2: real -> real): (r: real)
    ensures |h| < 2 ==> r == 1.0
    ensures Log2Law(log2) ==> r <= 1.0
  {
    assert Log2Law(log2) ==> FatigueMath.TransitionEntropy(NoteSequence(h), 12, log2) >= 0.0 by {
      if Log2Law(log2) {
        FatigueMath.TransitionEntropyNonneg(NoteSequence(h), 12, log2);
      }
    }
    1.0 - FatigueMath.TransitionEntropy(NoteSequence(h), 12, log2)
  }

  /** `_compute_rhythm_fatigue`: one minus the decay-weighted entropy of the quantised gaps. */
  function RhythmFatigue(h: seq<SpellEvent>, bins: int, maxInterval: real, decay: real -> real,
                         now: real, log2: real -> real): (r: real)
    requires maxInterval != 0.0
    ensures |h| < 3 ==> r == 0.0
  {
    if |h| < 3 then 0.0
    else 1.0 - FatigueMath.WeightedShannonEntropy(RhythmIntervals(h, bins, maxInterval), decay, now, log2)
  }

  /** `_compute_chord_fatigue`: one minus the decay-weighted entropy of the chord names. */
  function ChordFatigue(h: seq<SpellEvent>, decay: real -> real, now: real, log2: real -> real): (r: real)
    ensures |h| <= 1 ==> r == 1.0
    ensures Log2Law(log2) && DecayInUnit(decay) ==> r <= 1.0
  {
    assert Log2Law(log2) && DecayInUnit(decay) ==>
             FatigueMath.WeightedShannonEntropy(ChordEvents(h), decay, now, log2) >= 0.0 by {
      if Log2Law(log2) && DecayInUnit(decay) {
        FatigueMath.WeightedEntropyNonneg(ChordEvents(h), decay, now, log2);
      }
    }
    1.0 - FatigueMath.WeightedShannonEntropy(ChordEvents(h), decay, now, log2)
  }

  /** A history that only ever casts one chord type (or none) has full chord fatigue. */
  lemma ChordFatigueSingleType(h: seq<SpellEvent>, decay: real -> real, now: real, log2: real -> real, key: string)
    requires forall i :: 0 <= i < |h| ==> ChordKey(h[i]) == key
    ensures ChordFatigue(h, decay, now, log2) == 1.0
  {
    var c := ChordEvents(h);
    assert FatigueMath.Categories(c) <= {key};
    SubsetCard(FatigueMath.Categories(c), {key});
    FatigueMath.WeightedEntropySingleCategory(c, decay, now, log2);
  }

  /** A history that casts one note only has full pitch fatigue. */
  lemma PitchFatigueSingleNote(h: seq<SpellEvent>, decay: real -> real, now: real, log2: real -> real, n: Note)
    requires forall i :: 0 <= i < |h| ==> h[i].note == n
    ensures PitchFatigue(h, decay, now, log2) == 1.0
  {
    var p := PitchEvents(h);
    assert FatigueMath.Categories(p) <= {NoteValue(n)};
    SubsetCard(FatigueMath.Categories(p), {NoteValue(n)});
    FatigueMath.WeightedEntropySingleCategory(p, decay, now, log2);
  }

  lemma SubsetCard<T>(a: set<T>, b: set<T>)
    requires a <= b
    ensures |a| <= |b|
  {
    if a != {} {
      var x :| x in a;
      SubsetCard(a - {x}, b - {x});
    }
  }

  /** A run of one note has full transition fatigue. */
  lemma TransitionFatigueSingleNote(h: seq<SpellEvent>, log2: real -> real, n: Note)
    requires log2(1.0) == 0.0
    requires |h| >= 2 && forall i :: 0 <= i < |h| ==> h[i].note == n
    ensures TransitionFatigue(h, log2) == 1.0
  {
    FatigueMath.TransitionEntropyConstant(NoteSequence(h), 12, log2);
  }

  /** Whatever the history, the four entropy-based fatigues are at most 1. */
  lemma EntropyFatiguesAtMostOne(h: seq<SpellEvent>, bins: int, maxInterval: real, decay: real -> real,
                                 now: real, log2: real -> real)
    requires Log2Law(log2) && DecayInUnit(decay) && maxInterval != 0.0
    ensures PitchFatigue(h, decay, now, log2) <= 1.0
    ensures TransitionFatigue(h, log2) <= 1.0
    ensures RhythmFatigue(h, bins, maxInterval, decay, now, log2) <= 1.0
    ensures ChordFatigue(h, decay, now, log2) <= 1.0
  {
    FatigueMath.WeightedEntropyNonneg(PitchEvents(h), decay, now, log2);
    FatigueMath.TransitionEntropyNonneg(NoteSequence(h), 12, log2);
    FatigueMath.WeightedEntropyNonneg(RhythmIntervals(h, bins, maxInterval), decay, now, log2);
    FatigueMath.WeightedEntropyNonneg(ChordEvents(h), decay, now, log2);
  }

  // ---------------------------------------------------------------------------
  // Multi-scale recurrence

  /** `weights.get(n, 0.3)` with `weights = {2: 0.3, 3: 0.4, 4: 0.3}`. */
  function NGramWeight(n: nat): (w: real)
    ensures w > 0.0
  {
    if n == 2 then 0.3 else if n == 3 then 0.4 else if n == 4 then 0.3 else 0.3
  }

  /** The loop's (total_rr, total_w) over the configured n-gram sizes that fit the sequence. */
  function RecurrenceSums<K(==)>(s: seq<K>, sizes: seq<nat>): (r: (real, real))
    ensures 0.0 <= r.0 <= r.1
    ensures sizes == [] ==> r == (0.0, 0.0)
  {
    if sizes == [] then (0.0, 0.0)
    else
      var rest := RecurrenceSums(s, sizes[1..]);
      if |s| >= sizes[0] then
        (FatigueMath.NGramRecurrenceRate(s, sizes[0]) * NGramWeight(sizes[0]) + rest.0,
         NGramWeight(sizes[0]) + rest.1)
      else rest
  }

  /** The weighted rate sum is non-negative and stays strictly below the weight sum it is divided by. */
  lemma {:induction false} RecurrenceSumsBound<K>(s: seq<K>, sizes: seq<nat>)
    ensures 0.0 <= RecurrenceSums(s, sizes).0 <= RecurrenceSums(s, sizes).1
    ensures RecurrenceSums(s, sizes).1 > 0.0 ==> RecurrenceSums(s, sizes).0 < RecurrenceSums(s, sizes).1
    ensures RecurrenceSums(s, sizes).1 > 0.0 <==> exists i :: 0 <= i < |sizes| && sizes[i] <= |s|
  {
    if sizes != [] {
      RecurrenceSumsBound(s, sizes[1..]);
      var n := sizes[0];
      if |s| >= n {
        var rate := FatigueMath.NGramRecurrenceRate(s, n);
        assert rate * NGramWeight(n) < NGramWeight(n);
        assert 0.0 <= rate * NGramWeight(n);
      }
      if exists i :: 0 <= i < |sizes[1..]| && sizes[1..][i] <= |s| {
        var i :| 0 <= i < |sizes[1..]| && sizes[1..][i] <= |s|;
        assert sizes[i + 1] <= |s|;
      }
      if exists i :: 0 <= i < |sizes| && sizes[i] <= |s| {
        var i :| 0 <= i < |sizes| && sizes[i] <= |s|;
        if i > 0 { assert sizes[1..][i - 1] <= |s|; }
      }
    }
  }

  /** `_compute_recurrence`: the weight-averaged n-gram recurrence rate over the sizes that fit. */
  function Recurrence<K(==)>(s: seq<K>, sizes: seq<nat>): (r: real)
    ensures |s| < 2 ==> r == 0.0
    ensures 0.0 <= r < 1.0
  {
    if |s| < 2 then 0.0
    else
      var sums := RecurrenceSums(s, sizes);
      RecurrenceSumsBound(s, sizes);
      if sums.1 > 0.0 then DivBelowOne(sums.0, sums.1); sums.0 / sums.1 else 0.0
  }

  lemma DivBelowOne(a: real, b: real)
    requires 0.0 <= a < b
    ensures 0.0 <= a / b < 1.0
  {
  }

  /** Every length-n window of s is distinct, for each configured n that fits. */
  ghost predicate NoRepeatedWindows<K>(s: seq<K>, sizes: seq<nat>)
  {
    forall i :: 0 <= i < |sizes| && sizes[i] <= |s| ==> FatigueMath.AllDistinct(FatigueMath.NGrams(s, sizes[i]))
  }

  /** The rate sum is zero exactly when no window of any fitting size repeats. */
  lemma {:induction false} RecurrenceSumsZero<K>(s: seq<K>, sizes: seq<nat>)
    ensures RecurrenceSums(s, sizes).0 == 0.0 <==> NoRepeatedWindows(s, sizes)
  {
    if sizes != [] {
      RecurrenceSumsZero(s, sizes[1..]);
      RecurrenceSumsBound(s, sizes[1..]);
      NoRepeatedWindowsCons(s, sizes);
      if |s| >= sizes[0] {
        WeightedRateZero(s, sizes[0]);
      }
    }
  }

  /** No repeated windows for a list of sizes: none for its first size (when it fits) and none for the rest. */
  lemma NoRepeatedWindowsCons<K>(s: seq<K>, sizes: seq<nat>)
    requires sizes != []
    ensures NoRepeatedWindows(s, sizes) <==>
            (sizes[0] <= |s| ==> FatigueMath.AllDistinct(FatigueMath.NGrams(s, sizes[0])))
            && NoRepeatedWindows(s, sizes[1..])
  {
    if NoRepeatedWindows(s, sizes) {
      forall i | 0 <= i < |sizes[1..]| && sizes[1..][i] <= |s|
        ensures FatigueMath.AllDistinct(FatigueMath.NGrams(s, sizes[1..][i]))
      {
        assert sizes[1..][i] == sizes[i + 1];
      }
    }
    if (sizes[0] <= |s| ==> FatigueMath.AllDistinct(FatigueMath.NGrams(s, sizes[0])))
       && NoRepeatedWindows(s, sizes[1..]) {
      forall i | 0 <= i < |sizes| && sizes[i] <= |s|
        ensures FatigueMath.AllDistinct(FatigueMath.NGrams(s, sizes[i]))
      {
        if i > 0 {
          assert sizes[i] == sizes[1..][i - 1];
        }
      }
    }
  }

  /** One size's weighted term is non-negative, and zero exactly when its windows are distinct. */
  lemma WeightedRateZero<K>(s: seq<K>, n: nat)
    requires n <= |s|
    ensures FatigueMath.NGramRecurrenceRate(s, n) * NGramWeight(n) >= 0.0
    ensures FatigueMath.NGramRecurrenceRate(s, n) * NGramWeight(n) == 0.0
            <==> FatigueMath.AllDistinct(FatigueMath.NGrams(s, n))
  {
    FatigueMath.NGramRecurrenceZeroIffDistinct(s, n);
    var rate := FatigueMath.NGramRecurrenceRate(s, n);
    assert rate * NGramWeight(n) >= 0.0;
    assert rate * NGramWeight(n) == 0.0 <==> rate == 0.0;
  }

  /** Multi-scale recurrence is 0 exactly when no window of any configured size repeats. */
  lemma RecurrenceZeroIffNoRepeats<K>(s: seq<K>, sizes: seq<nat>)
    requires |s| >= 2
    ensures Recurrence(s, sizes) == 0.0 <==> NoRepeatedWindows(s, sizes)
  {
    RecurrenceSumsZero(s, sizes);
    RecurrenceSumsBound(s, sizes);
    var sums := RecurrenceSums(s, sizes);
    if sums.1 > 0.0 {
      assert sums.0 / sums.1 == 0.0 <==> sums.0 == 0.0 by {
        if sums.0 / sums.1 == 0.0 {
          assert sums.0 == (sums.0 / sums.1) * sums.1;
        }
      }
    } else {
      assert sums.0 == 0.0;
    }
  }

  // ---------------------------------------------------------------------------
  // Per-note fatigue

  /** `[e for e in history if e.note == note]`. */
  function EventsOf(h: seq<SpellEvent>, n: Note): (r: seq<SpellEvent>)
    ensures |r| <= |h|
    ensures forall i :: 0 <= i < |r| ==> r[i].note == n
    ensures r == [] <==> forall i :: 0 <= i < |h| ==> h[i].note != n
  {
    if h == [] then []
    else if h[0].note == n then [h[0]] + EventsOf(h[1..], n)
    else
      assert forall i :: 1 <= i < |h| ==> h[i] == h[1..][i - 1];
      EventsOf(h[1..], n)
  }

  /** The loop `total_weight += decay(current_time - e.timestamp)` over some events. */
  function TotalDecay(h: seq<SpellEvent>, decay: real -> real, now: real): (r: real)
    ensures (forall i :: 0 <= i < |h| ==> decay(now - h[i].timestamp) >= 0.0) ==> r >= 0.0
  {
    if h == [] then 0.0 else decay(now - h[0].timestamp) + TotalDecay(h[1..], decay, now)
  }

  /** Each retained cast contributes a weight in (0, 1]: the total is positive and at most the count. */
  lemma {:induction false} TotalDecayBounds(h: seq<SpellEvent>, decay: real -> real, now: real)
    requires DecayInUnit(decay)
    ensures 0.0 <= TotalDecay(h, decay, now) <= |h| as real
    ensures h != [] ==> TotalDecay(h, decay, now) > 0.0
  {
    if h != [] {
      TotalDecayBounds(h[1..], decay, now);
    }
  }

  /** `_compute_note_specific_fatigue`: 0 for an unused note, else `min(1, Σ decay / 6)`. */
  function NoteSpecificFatigue(h: seq<SpellEvent>, n: Note, decay: real -> real, now: real): (r: real)
    ensures (forall i :: 0 <= i < |h| ==> h[i].note != n) ==> r == 0.0
    ensures r <= 1.0
  {
    var events := EventsOf(h, n);
    if events == [] then 0.0 else Min(1.0, TotalDecay(events, decay, now) / 6.0)
  }

  /** With decay weights in (0, 1], per-note fatigue is in [0, 1], positive iff the note was cast,
      and at most a sixth of the number of its casts. */
  lemma NoteSpecificFatigueRange(h: seq<SpellEvent>, n: Note, decay: real -> real, now: real)
    requires DecayInUnit(decay)
    ensures 0.0 <= NoteSpecificFatigue(h, n, decay, now) <= 1.0
    ensures NoteSpecificFatigue(h, n, decay, now) > 0.0 <==> exists i :: 0 <= i < |h| && h[i].note == n
    ensures NoteSpecificFatigue(h, n, decay, now) <= |EventsOf(h, n)| as real / 6.0
  {
    TotalDecayBounds(EventsOf(h, n), decay, now);
  }

  /** The loop of `get_note_fatigue_map`: one entry per note, in `Note` order. */
  method NoteFatigueTable(h: seq<SpellEvent>, decay: real -> real, now: real) returns (m: map<Note, real>)
    ensures forall n: Note :: n in m && m[n] == NoteSpecificFatigue(h, n, decay, now)
  {
    m := map[];
    for i := 0 to |AllNotes|
      invariant forall j :: 0 <= j < i ==> AllNotes[j] in m && m[AllNotes[j]] == NoteSpecificFatigue(h, AllNotes[j], decay, now)
    {
      m := m[AllNotes[i] := NoteSpecificFatigue(h, AllNotes[i], decay, now)];
    }
    forall n: Note ensures n in m && m[n] == NoteSpecificFatigue(h, n, decay, now) {
      AllNotesComplete(n);
    }
  }

  // ---------------------------------------------------------------------------
  // The five-level ladder

  datatype FatigueLevel = NoFatigue | Mild | Moderate | Severe | Critical

  /** The enum value of a level (0 for NONE up to 4 for CRITICAL). */
  function Rank(l: FatigueLevel): (r: nat)
    ensures r <= 4
  {
    match l
    case NoFatigue => 0 case Mild => 1 case Moderate => 2 case Severe => 3 case Critical => 4
  }

  datatype Thresholds = Thresholds(mild: real, moderate: real, severe: real, critical: real)

  /** The defaults 0.30 / 0.55 / 0.75 / 0.90. */
  const DefaultThresholds := Thresholds(0.30, 0.55, 0.75, 0.90)

  predicate Increasing(t: Thresholds)
  {
    t.mild <= t.moderate <= t.severe <= t.critical
  }

  /** `_index_to_level`: the thresholds are compared from critical down, each with `>=`. */
  function IndexToLevel(t: Thresholds, afi: real): (l: FatigueLevel)
    ensures l == NoFatigue <==> afi < t.mild && afi < t.moderate && afi < t.severe && afi < t.critical
    ensures afi >= t.critical ==> l == Critical
  {
    if afi >= t.critical then Critical
    else if afi >= t.severe then Severe
    else if afi >= t.moderate then Moderate
    else if afi >= t.mild then Mild
    else NoFatigue
  }

  /** A higher index never maps to a lower level, whatever the thresholds. */
  lemma IndexToLevelMonotone(t: Thresholds, a: real, b: real)
    requires a <= b
    ensures Rank(IndexToLevel(t, a)) <= Rank(IndexToLevel(t, b))
  {
  }

  /** How many of the four thresholds the index reaches. */
  function ThresholdsMet(t: Thresholds, afi: real): (k: nat)
    ensures k <= 4
  {
    (if afi >= t.mild then 1 else 0) + (if afi >= t.moderate then 1 else 0)
    + (if afi >= t.severe then 1 else 0) + (if afi >= t.critical then 1 else 0)
  }

  /** With increasing thresholds the level's rank is the number of thresholds reached. */
  lemma IndexToLevelCountsThresholds(t: Thresholds, afi: real)
    requires Increasing(t)
    ensures Rank(IndexToLevel(t, afi)) == ThresholdsMet(t, afi)
  {
  }

  /** A value exactly on a threshold gets the level that threshold opens (ties go up). */
  lemma IndexToLevelTies(t: Thresholds)
    requires t.mild < t.moderate < t.severe < t.critical
    ensures IndexToLevel(t, t.mild) == Mild
    ensures IndexToLevel(t, t.moderate) == Moderate
    ensures IndexToLevel(t, t.severe) == Severe
    ensures IndexToLevel(t, t.critical) == Critical
  {
  }

  // ---------------------------------------------------------------------------
  // Penalty

  datatype PenaltyMode = Weaken | Lockout | GlobalDebuff

  datatype PenaltyConfig = PenaltyConfig(
    mode: PenaltyMode,
    weakenMild: real, weakenModerate: real, weakenSevere: real, weakenCritical: real,
    lockoutThreshold: real,
    globalDebuffScale: real)

  /** WEAKEN, multipliers 0.85 / 0.55 / 0.25 / 0.05, lockout at 0.90, debuff scale 0.5. */
  const DefaultPenalty := PenaltyConfig(Weaken, 0.85, 0.55, 0.25, 0.05, 0.90, 0.5)

  /** The numeric fields of `PenaltyEffect`; the description string is not modelled. */
  datatype PenaltyEffect = PenaltyEffect(damageMultiplier: real, isLocked: bool, globalDissonance: real)

  /** `PenaltyEffect()`: full damage, not locked, no dissonance. */
  const NoPenalty := PenaltyEffect(1.0, false, 0.0)

  /** `multipliers.get(level, 1.0)` in WEAKEN mode. */
  function WeakenMultiplier(cfg: PenaltyConfig, l: FatigueLevel): (r: real)
    ensures l == NoFatigue ==> r == 1.0
    ensures SanePenalty(cfg) ==> 0.0 <= r <= 1.0
    ensures SanePenalty(cfg) && l != NoFatigue ==> r <= cfg.weakenMild
  {
    match l
    case NoFatigue => 1.0
    case Mild => cfg.weakenMild
    case Moderate => cfg.weakenModerate
    case Severe => cfg.weakenSevere
    case Critical => cfg.weakenCritical
  }

  /** `_compute_penalty`. */
  function ComputePenalty(cfg: PenaltyConfig, afi: real, l: FatigueLevel): (p: PenaltyEffect)
    ensures l == NoFatigue ==> p == NoPenalty
    ensures p.isLocked ==> cfg.mode == Lockout
    ensures p.globalDissonance != 0.0 ==> cfg.mode == GlobalDebuff
    ensures l != NoFatigue && cfg.mode == Weaken ==> p.damageMultiplier == WeakenMultiplier(cfg, l)
    ensures l != NoFatigue && cfg.mode == Lockout ==>
              (p.isLocked <==> afi >= cfg.lockoutThreshold)
              && p.damageMultiplier == (if p.isLocked then 0.0 else 1.0)
    ensures l != NoFatigue && cfg.mode == GlobalDebuff ==>
              p.globalDissonance == afi * cfg.globalDebuffScale
              && p.damageMultiplier == 1.0 - p.globalDissonance * 0.5
  {
    if l == NoFatigue then NoPenalty
    else
      match cfg.mode
      case Weaken => PenaltyEffect(WeakenMultiplier(cfg, l), false, 0.0)
      case Lockout =>
        var locked := afi >= cfg.lockoutThreshold;
        PenaltyEffect(if locked then 0.0 else 1.0, locked, 0.0)
      case GlobalDebuff =>
        var dissonance := afi * cfg.globalDebuffScale;
        PenaltyEffect(1.0 - dissonance * 0.5, false, dissonance)
  }

  /** Multipliers in [0, 1]: the class of configurations whose penalties never raise damage. */
  predicate SanePenalty(cfg: PenaltyConfig)
  {
    && 0.0 <= cfg.weakenCritical <= cfg.weakenSevere <= cfg.weakenModerate <= cfg.weakenMild <= 1.0
    && 0.0 <= cfg.globalDebuffScale <= 1.0
  }

  /**
   * For an index in [0, 1] and a sane configuration, the penalty never raises damage
   * and the dissonance stays in [0, 1]; a global debuff takes at most half the damage away.
   */
  lemma PenaltyBounds(cfg: PenaltyConfig, afi: real, l: FatigueLevel)
    requires SanePenalty(cfg) && 0.0 <= afi <= 1.0
    ensures 0.0 <= ComputePenalty(cfg, afi, l).damageMultiplier <= 1.0
    ensures 0.0 <= ComputePenalty(cfg, afi, l).globalDissonance <= 1.0
    ensures cfg.mode == GlobalDebuff && l != NoFatigue ==> 0.5 <= ComputePenalty(cfg, afi, l).damageMultiplier
  {
    if l != NoFatigue {
      match cfg.mode
      case Weaken => assert ComputePenalty(cfg, afi, l).damageMultiplier == WeakenMultiplier(cfg, l);
      case Lockout =>
      case GlobalDebuff =>
        MulUnit(afi, cfg.globalDebuffScale);
    }
  }

  /** In WEAKEN mode a higher fatigue level never hits softer. */
  lemma WeakenMonotone(cfg: PenaltyConfig, afi: real, l: FatigueLevel, l': FatigueLevel)
    requires SanePenalty(cfg) && cfg.mode == Weaken && Rank(l) <= Rank(l')
    ensures ComputePenalty(cfg, afi, l').damageMultiplier <= ComputePenalty(cfg, afi, l).damageMultiplier
  {
    assert ComputePenalty(cfg, afi, l).damageMultiplier == WeakenMultiplier(cfg, l);
    assert ComputePenalty(cfg, afi, l').damageMultiplier == WeakenMultiplier(cfg, l');
  }

  lemma MulUnit(a: real, b: real)
    requires 0.0 <= a <= 1.0 && 0.0 <= b <= 1.0
    ensures 0.0 <= a * b <= 1.0
  {
    FatigueMath.MulMonotone(a, 1.0, b);
    assert a * b <= 1.0 * b;
    assert 1.0 * b == b;
    assert b <= 1.0;
  }

  // ---------------------------------------------------------------------------
  // Recovery suggestions

  /**
   * The advice strings, by meaning. `TryNewNotes` carries the white keys whose
   * decayed count is below 0.5 (the display picks up to three names from them).
   */
  datatype Suggestion =
    | PauseCasting | SlowDown | LeaveGaps
    | TryNewNotes(unused: set<Note>) | Diversify
    | BreakPattern | VaryRhythm | AvoidRepeats | VaryChords

  /** Where a suggestion sits in the fixed order the engine appends in. */
  function Slot(s: Suggestion): (k: nat)
    ensures k < 8
  {
    match s
    case PauseCasting => 0 case SlowDown => 1 case LeaveGaps => 2
    case TryNewNotes(_) => 3 case Diversify => 3
    case BreakPattern => 4 case VaryRhythm => 5 case AvoidRepeats => 6 case VaryChords => 7
  }

  /** Strictly increasing slots: the fixed order, with at most one hint per dimension. */
  ghost predicate InFixedOrder(s: seq<Suggestion>)
  {
    forall i, j :: 0 <= i < j < |s| ==> Slot(s[i]) < Slot(s[j])
  }

  /** The slots a list of suggestions occupies. */
  ghost function Slots(s: seq<Suggestion>): set<nat>
  {
    set i | 0 <= i < |s| :: Slot(s[i])
  }

  /** `{k}` when the hint fires, else nothing. */
  function SlotIf(fires: bool, k: nat): set<nat>
  {
    if fires then {k} else {}
  }

  /** `[suggestion] if fires else []`. */
  function Hint(fires: bool, s: Suggestion): (r: seq<Suggestion>)
    ensures fires ==> r == [s]
    ensures !fires ==> r == []
  {
    if fires then [s] else []
  }

  /** The white keys whose decayed count in the history is below 0.5. */
  function UnusedWhiteKeys(h: seq<SpellEvent>, decay: real -> real, now: real): (u: set<Note>)
    ensures u <= WhiteKeys
  {
    set n | n in WhiteKeys && TotalDecay(EventsOf(h, n), decay, now) < 0.5
  }

  /** The pitch hint: name the rarely used white keys, or ask for more variety when there are none. */
  function PitchHint(h: seq<SpellEvent>, decay: real -> real, now: real): (s: Suggestion)
    ensures Slot(s) == 3
    ensures s.TryNewNotes? ==> s.unused != {} && s.unused <= WhiteKeys
    ensures s == Diversify <==> UnusedWhiteKeys(h, decay, now) == {}
  {
    var unused := UnusedWhiteKeys(h, decay, now);
    if unused != {} then TryNewNotes(unused) else Diversify
  }

  /** A white key never cast in the history is always among the suggested new notes. */
  lemma PitchHintNamesUncast(h: seq<SpellEvent>, decay: real -> real, now: real, n: Note)
    requires n in WhiteKeys && forall i :: 0 <= i < |h| ==> h[i].note != n
    ensures PitchHint(h, decay, now).TryNewNotes? && n in PitchHint(h, decay, now).unused
  {
    assert EventsOf(h, n) == [];
    assert n in UnusedWhiteKeys(h, decay, now);
  }

  /** The if-append chain: each (fires, hint) pair appends its hint when it fires, in list order. */
  function Hints(items: seq<(bool, Suggestion)>): (r: seq<Suggestion>)
    ensures |r| <= |items|
  {
    if items == [] then [] else Hint(items[0].0, items[0].1) + Hints(items[1..])
  }

  /** The slots of the hints whose condition holds. */
  ghost function FiringSlots(items: seq<(bool, Suggestion)>): set<nat>
  {
    if items == [] then {} else SlotIf(items[0].0, Slot(items[0].1)) + FiringSlots(items[1..])
  }

  ghost predicate IncreasingSlots(items: seq<(bool, Suggestion)>)
  {
    forall i, j :: 0 <= i < j < |items| ==> Slot(items[i].1) < Slot(items[j].1)
  }

  /**
   * A chain whose hints have increasing slots yields a list in the fixed order that
   * holds exactly the slots whose condition fired, and is empty iff none fired.
   */
  lemma HintsFacts(items: seq<(bool, Suggestion)>)
    requires IncreasingSlots(items)
    ensures InFixedOrder(Hints(items))
    ensures Slots(Hints(items)) == FiringSlots(items)
    ensures Hints(items) == [] <==> forall j :: 0 <= j < |items| ==> !items[j].0
  {
    HintsOrder(items);
    HintsSlots(items);
    HintsEmpty(items);
  }

  lemma IncreasingSlotsTail(items: seq<(bool, Suggestion)>)
    requires items != [] && IncreasingSlots(items)
    ensures IncreasingSlots(items[1..])
    ensures forall j :: 0 <= j < |items[1..]| ==> Slot(items[0].1) < Slot(items[1..][j].1)
  {
    var rest := items[1..];
    forall i, j | 0 <= i < j < |rest| ensures Slot(rest[i].1) < Slot(rest[j].1) {
      assert rest[i] == items[i + 1] && rest[j] == items[j + 1];
    }
    forall j | 0 <= j < |rest| ensures Slot(items[0].1) < Slot(rest[j].1) {
      assert rest[j] == items[j + 1];
    }
  }

  lemma {:induction false} HintsOrder(items: seq<(bool, Suggestion)>)
    requires IncreasingSlots(items)
    ensures InFixedOrder(Hints(items))
    ensures items != [] ==> forall i :: 0 <= i < |Hints(items)| ==> Slot(items[0].1) <= Slot(Hints(items)[i])
  {
    if items != [] {
      var rest := items[1..];
      IncreasingSlotsTail(items);
      HintsOrder(rest);
      var tail := Hints(rest);
      assert forall i :: 0 <= i < |tail| ==> Slot(items[0].1) < Slot(tail[i]) by {
        if rest != [] {
          assert forall i :: 0 <= i < |tail| ==> Slot(rest[0].1) <= Slot(tail[i]);
        } else {
          assert tail == [];
        }
      }
      PrependHint(items[0].0, items[0].1, tail);
      assert Hints(items) == Hint(items[0].0, items[0].1) + tail;
    }
  }

  /** A hint put in front of later-slot hints in the fixed order keeps the order, and nothing comes before its slot. */
  lemma PrependHint(fires: bool, x: Suggestion, tail: seq<Suggestion>)
    requires InFixedOrder(tail)
    requires forall i :: 0 <= i < |tail| ==> Slot(x) < Slot(tail[i])
    ensures InFixedOrder(Hint(fires, x) + tail)
    ensures forall i :: 0 <= i < |Hint(fires, x) + tail| ==> Slot(x) <= Slot((Hint(fires, x) + tail)[i])
  {
    var head := Hint(fires, x);
    var r := head + tail;
    forall i | 0 <= i < |r| ensures Slot(x) <= Slot(r[i]) {
      if i >= |head| { assert r[i] == tail[i - |head|]; }
    }
    forall i, j | 0 <= i < j < |r| ensures Slot(r[i]) < Slot(r[j]) {
      if i < |head| {
        assert r[j] == tail[j - |head|];
      } else {
        assert r[i] == tail[i - |head|] && r[j] == tail[j - |head|];
      }
    }
  }

  lemma {:induction false} HintsSlots(items: seq<(bool, Suggestion)>)
    ensures Slots(Hints(items)) == FiringSlots(items)
  {
    if items == [] {
      assert Slots(Hints(items)) == {};
    } else {
      HintsSlots(items[1..]);
      PrependSlots(items[0].0, items[0].1, Hints(items[1..]));
      assert Hints(items) == Hint(items[0].0, items[0].1) + Hints(items[1..]);
    }
  }

  /** The slots of a hint put in front of a list: its own slot when it fires, and the list's. */
  lemma PrependSlots(fires: bool, x: Suggestion, tail: seq<Suggestion>)
    ensures Slots(Hint(fires, x) + tail) == SlotIf(fires, Slot(x)) + Slots(tail)
  {
    var head := Hint(fires, x);
    var r := head + tail;
    forall k | k in Slots(r) ensures k in SlotIf(fires, Slot(x)) + Slots(tail) {
      var i :| 0 <= i < |r| && Slot(r[i]) == k;
      if i >= |head| { assert r[i] == tail[i - |head|]; }
    }
    forall k | k in Slots(tail) ensures k in Slots(r) {
      var i :| 0 <= i < |tail| && Slot(tail[i]) == k;
      assert r[i + |head|] == tail[i];
    }
    if fires { assert r[0] == x; }
  }

  lemma {:induction false} HintsEmpty(items: seq<(bool, Suggestion)>)
    ensures Hints(items) == [] <==> forall j :: 0 <= j < |items| ==> !items[j].0
  {
    if items != [] {
      var rest := items[1..];
      HintsEmpty(rest);
      if Hints(items) == [] {
        forall j | 0 <= j < |items| ensures !items[j].0 {
          if j > 0 { assert rest[j - 1] == items[j]; }
        }
      }
      if forall j :: 0 <= j < |items| ==> !items[j].0 {
        forall j | 0 <= j < |rest| ensures !rest[j].0 {
          assert rest[j] == items[j + 1];
        }
      }
    }
  }

  /** The (fires, hint) chain of the original five dimensions: pitch, transition, rhythm, recurrence, chord. */
  function CoreHintItems(pitchF: real, transF: real, rhythmF: real, recurrence: real, chordF: real,
                         pitchHint: Suggestion): seq<(bool, Suggestion)>
  {
    [(pitchF > 0.5, pitchHint), (transF > 0.5, BreakPattern), (rhythmF > 0.5, VaryRhythm),
     (recurrence > 0.5, AvoidRepeats), (chordF > 0.5, VaryChords)]
  }

  /** The five-dimension chain has increasing slots and fires exactly the dimensions above 0.5. */
  lemma CoreHintItemsFacts(pitchF: real, transF: real, rhythmF: real, recurrence: real, chordF: real,
                           pitchHint: Suggestion)
    requires Slot(pitchHint) == 3
    ensures IncreasingSlots(CoreHintItems(pitchF, transF, rhythmF, recurrence, chordF, pitchHint))
    ensures FiringSlots(CoreHintItems(pitchF, transF, rhythmF, recurrence, chordF, pitchHint))
            == SlotIf(pitchF > 0.5, 3) + (SlotIf(transF > 0.5, 4) + (SlotIf(rhythmF > 0.5, 5)
               + (SlotIf(recurrence > 0.5, 6) + SlotIf(chordF > 0.5, 7))))
    ensures (forall j :: 0 <= j < 5 ==> !CoreHintItems(pitchF, transF, rhythmF, recurrence, chordF, pitchHint)[j].0)
            <==> pitchF <= 0.5 && transF <= 0.5 && rhythmF <= 0.5 && recurrence <= 0.5 && chordF <= 0.5
    ensures forall y :: y in FiringSlots(CoreHintItems(pitchF, transF, rhythmF, recurrence, chordF, pitchHint)) ==> 3 <= y
  {
    var items := CoreHintItems(pitchF, transF, rhythmF, recurrence, chordF, pitchHint);
    CoreHintItemsFiring(pitchF, transF, rhythmF, recurrence, chordF, pitchHint);
    assert IncreasingSlots(items) by {
      forall i, j | 0 <= i < j < 5 ensures Slot(items[i].1) < Slot(items[j].1) {
        assert Slot(items[i].1) == i + 3 && Slot(items[j].1) == j + 3;
      }
    }
    assert items[0].0 == (pitchF > 0.5) && items[1].0 == (transF > 0.5) && items[2].0 == (rhythmF > 0.5)
           && items[3].0 == (recurrence > 0.5) && items[4].0 == (chordF > 0.5);
  }

  lemma CoreHintItemsFiring(pitchF: real, transF: real, rhythmF: real, recurrence: real, chordF: real,
                            pitchHint: Suggestion)
    requires Slot(pitchHint) == 3
    ensures FiringSlots(CoreHintItems(pitchF, transF, rhythmF, recurrence, chordF, pitchHint))
            == SlotIf(pitchF > 0.5, 3) + (SlotIf(transF > 0.5, 4) + (SlotIf(rhythmF > 0.5, 5)
               + (SlotIf(recurrence > 0.5, 6) + SlotIf(chordF > 0.5, 7))))
  {
    var e3, e4, e5, e6, e7 := (pitchF > 0.5, pitchHint), (transF > 0.5, BreakPattern), (rhythmF > 0.5, VaryRhythm),
                              (recurrence > 0.5, AvoidRepeats), (chordF > 0.5, VaryChords);
    assert FiringSlots([e7]) == SlotIf(chordF > 0.5, 7) by {
      assert [e7][1..] == [];
    }
    assert FiringSlots([e6, e7]) == SlotIf(recurrence > 0.5, 6) + FiringSlots([e7]) by {
      assert [e6, e7][1..] == [e7];
    }
    assert FiringSlots([e5, e6, e7]) == SlotIf(rhythmF > 0.5, 5) + FiringSlots([e6, e7]) by {
      assert [e5, e6, e7][1..] == [e6, e7];
    }
    assert FiringSlots([e4, e5, e6, e7]) == SlotIf(transF > 0.5, 4) + FiringSlots([e5, e6, e7]) by {
      assert [e4, e5, e6, e7][1..] == [e5, e6, e7];
    }
    assert FiringSlots([e3, e4, e5, e6, e7]) == SlotIf(pitchF > 0.5, 3) + FiringSlots([e4, e5, e6, e7]) by {
      assert [e3, e4, e5, e6, e7][1..] == [e4, e5, e6, e7];
    }
  }


  /** Two chains run one after the other append their hints one after the other. */
  lemma {:induction false} HintsAppend(a: seq<(bool, Suggestion)>, b: seq<(bool, Suggestion)>)
    ensures Hints(a + b) == Hints(a) + Hints(b)
  {
    if a != [] {
      assert (a + b)[0] == a[0] && (a + b)[1..] == a[1..] + b;
      HintsAppend(a[1..], b);
      assert Hints(a + b) == Hint(a[0].0, a[0].1) + Hints(a[1..] + b);
    } else {
      assert a + b == b;
    }
  }

  /** Two lists in the fixed order, the first wholly in earlier slots, concatenate in the fixed order. */
  lemma OrderedConcat(x: seq<Suggestion>, y: seq<Suggestion>)
    requires InFixedOrder(x) && InFixedOrder(y)
    requires forall a, b :: a in Slots(x) && b in Slots(y) ==> a < b
    ensures InFixedOrder(x + y)
    ensures Slots(x + y) == Slots(x) + Slots(y)
  {
    var r := x + y;
    forall i, j | 0 <= i < j < |r| ensures Slot(r[i]) < Slot(r[j]) {
      if j < |x| {
        assert r[i] == x[i] && r[j] == x[j];
      } else if i >= |x| {
        assert r[i] == y[i - |x|] && r[j] == y[j - |x|];
      } else {
        assert r[i] == x[i] && Slot(x[i]) in Slots(x);
        assert r[j] == y[j - |x|] && Slot(y[j - |x|]) in Slots(y);
      }
    }
    forall k | k in Slots(r) ensures k in Slots(x) + Slots(y) {
      var i :| 0 <= i < |r| && Slot(r[i]) == k;
      if i < |x| { assert r[i] == x[i]; } else { assert r[i] == y[i - |x|]; }
    }
    forall k | k in Slots(x) + Slots(y) ensures k in Slots(r) {
      if k in Slots(x) {
        var i :| 0 <= i < |x| && Slot(x[i]) == k;
        assert r[i] == x[i];
      } else {
        var i :| 0 <= i < |y| && Slot(y[i]) == k;
        assert r[i + |x|] == y[i];
      }
    }
  }
}
