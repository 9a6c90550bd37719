/**
 * The math utilities both engine versions share: normalised Shannon entropy,
 * time-decay-weighted Shannon entropy, transition (conditional) entropy,
 * n-gram recurrence rate, interval quantisation and the exponential decay
 * weight. Both source files carry the same text of these functions.
 *
 * `log2` stands for `math.log2` and `exp2` for `x => math.pow(2.0, x)`; see
 * `Numerics.Log2Law` and `Numerics.Exp2Law` for what the proofs assume of them.
 */
module FatigueMath {
  import opened Numerics
  import Tally

  /** The values of a tally, in its iteration order (`counts.values()`). */
  function Values<K>(t: seq<(K, real)>): (vs: seq<real>)
    ensures |vs| == |t| && forall i :: 0 <= i < |t| ==> vs[i] == t[i].1
  {
    seq(|t|, i requires 0 <= i < |t| => t[i].1)
  }

  /** `for c in values: if c > 0: p = c / total; entropy -= p * log2(p)`. */
  function EntropyTerms(vs: seq<real>, total: real, log2: real -> real): real
    requires total != 0.0
  {
    if vs == [] then 0.0
    else (if vs[0] > 0.0 then -(vs[0] / total) * log2(vs[0] / total) else 0.0)
         + EntropyTerms(vs[1..], total, log2)
  }

  /** With every probability in (0, 1], each term -p·log2(p) is non-negative, and so is the sum. */
  lemma {:induction false} EntropyTermsNonneg(vs: seq<real>, total: real, log2: real -> real)
    requires Log2Law(log2)
    requires total > 0.0
    requires forall i :: 0 <= i < |vs| ==> vs[i] <= total
    ensures EntropyTerms(vs, total, log2) >= 0.0
  {
    if vs != [] {
      EntropyTermsNonneg(vs[1..], total, log2);
      if vs[0] > 0.0 {
        EntropyTermNonneg(vs[0], total, log2);
      }
    }
  }

  /** One term -p·log2(p) with p = v / total in (0, 1]. */
  lemma EntropyTermNonneg(v: real, total: real, log2: real -> real)
    requires Log2Law(log2)
    requires 0.0 < v <= total
    ensures -(v / total) * log2(v / total) >= 0.0
  {
    var p := v / total;
    assert 0.0 < p <= 1.0;
    assert log2(p) <= 0.0;
    MulPosNonpos(p, log2(p));
  }

  // ---------------------------------------------------------------------------
  // shannon_entropy

  /** Normalised Shannon entropy of a table of counts (given as its values) over `total` events. */
  function ShannonEntropy(counts: seq<int>, total: int, log2: real -> real): (r: real)
    ensures total <= 1 || |counts| <= 1 ==> r == 0.0
  {
    if total <= 1 || |counts| <= 1 then 0.0
    else
      var h := EntropyTerms(seq(|counts|, i requires 0 <= i < |counts| => counts[i] as real), total as real, log2);
      var maxEntropy := log2(|counts| as real);
      if maxEntropy > 0.0 then h / maxEntropy else 0.0
  }

  /** Entropy is never negative when no count exceeds the total. */
  lemma ShannonEntropyNonneg(counts: seq<int>, total: int, log2: real -> real)
    requires Log2Law(log2)
    requires forall i :: 0 <= i < |counts| ==> counts[i] <= total
    ensures ShannonEntropy(counts, total, log2) >= 0.0
  {
    if total > 1 && |counts| > 1 {
      var vs := seq(|counts|, i requires 0 <= i < |counts| => counts[i] as real);
      EntropyTermsNonneg(vs, total as real, log2);
      var maxEntropy := log2(|counts| as real);
      if maxEntropy > 0.0 {
        assert EntropyTerms(vs, total as real, log2) / maxEntropy >= 0.0;
      }
    }
  }

  // ---------------------------------------------------------------------------
  // weighted_shannon_entropy

  /** The (category, weight) pairs the accumulation loop adds: one per event, weight `decay(now - ts)`. */
  function WeightedEntries<K>(events: seq<(real, K)>, decay: real -> real, now: real): (e: seq<(K, real)>)
    ensures |e| == |events|
    ensures forall i :: 0 <= i < |events| ==> e[i] == (events[i].1, decay(now - events[i].0))
  {
    seq(|events|, i requires 0 <= i < |events| => (events[i].1, decay(now - events[i].0)))
  }

  /** The distinct categories among the events. */
  ghost function Categories<K>(events: seq<(real, K)>): set<K>
  {
    set i | 0 <= i < |events| :: events[i].1
  }

  /**
   * Decay-weighted normalised entropy of the events' categories, weighing each
   * event by `decay(now - timestamp)`.
   */
  function WeightedShannonEntropy<K(==)>(events: seq<(real, K)>, decay: real -> real, now: real,
                                         log2: real -> real): (r: real)
    ensures |events| <= 1 ==> r == 0.0
  {
    if |events| <= 1 then 0.0
    else
      var entries := WeightedEntries(events, decay, now);
      var weighted := Tally.FromEntries(entries);
      var totalWeight := Tally.Total(entries);
      if totalWeight <= 0.0 || |weighted| <= 1 then 0.0
      else
        var h := EntropyTerms(Values(weighted), totalWeight, log2);
        var maxEntropy := log2(|weighted| as real);
        if maxEntropy > 0.0 then h / maxEntropy else 0.0
  }

  /** A single category (however many events) carries no information: the weighted entropy is 0. */
  lemma WeightedEntropySingleCategory<K>(events: seq<(real, K)>, decay: real -> real, now: real,
                                         log2: real -> real)
    requires |Categories(events)| <= 1
    ensures WeightedShannonEntropy(events, decay, now, log2) == 0.0
  {
    var entries := WeightedEntries(events, decay, now);
    Tally.FromEntriesFacts(entries);
    assert Tally.KeySet(entries) == Categories(events) by {
      forall c | c in Categories(events) ensures c in Tally.KeySet(entries) {
        var i :| 0 <= i < |events| && events[i].1 == c;
        assert entries[i].0 == c;
      }
    }
  }

  /** With positive weights the weighted entropy is non-negative. */
  lemma WeightedEntropyNonneg<K>(events: seq<(real, K)>, decay: real -> real, now: real,
                                 log2: real -> real)
    requires Log2Law(log2)
    requires forall i :: 0 <= i < |events| ==> decay(now - events[i].0) > 0.0
    ensures WeightedShannonEntropy(events, decay, now, log2) >= 0.0
  {
    if |events| > 1 {
      var entries := WeightedEntries(events, decay, now);
      var weighted := Tally.FromEntries(entries);
      var totalWeight := Tally.Total(entries);
      if totalWeight > 0.0 && |weighted| > 1 {
        TallyTermsNonneg(entries, log2);
        var maxEntropy := log2(|weighted| as real);
        if maxEntropy > 0.0 {
          RatioBounds(EntropyTerms(Values(weighted), totalWeight, log2), maxEntropy);
        }
      }
    }
  }

  /** The entropy terms of a tally of positive weights, over their positive total, are non-negative. */
  lemma TallyTermsNonneg<K>(entries: seq<(K, real)>, log2: real -> real)
    requires Log2Law(log2)
    requires forall i :: 0 <= i < |entries| ==> entries[i].1 > 0.0
    requires Tally.Total(entries) > 0.0
    ensures EntropyTerms(Values(Tally.FromEntries(entries)), Tally.Total(entries), log2) >= 0.0
  {
    var weighted := Tally.FromEntries(entries);
    var vs := Values(weighted);
    Tally.FromEntriesFacts(entries);
    forall i | 0 <= i < |vs| ensures vs[i] <= Tally.Total(entries) {
      Tally.WeightLeTotal(weighted, i);
    }
    EntropyTermsNonneg(vs, Tally.Total(entries), log2);
  }

  // ---------------------------------------------------------------------------
  // transition_entropy

  /** The ((current, next), 1) pairs counted into `trans_counts`. */
  function TransitionPairs<K>(s: seq<K>): (e: seq<((K, K), real)>)
    requires |s| >= 1
    ensures |e| == |s| - 1
    ensures forall i :: 0 <= i < |s| - 1 ==> e[i] == ((s[i], s[i + 1]), 1.0)
  {
    seq(|s| - 1, i requires 0 <= i < |s| - 1 => ((s[i], s[i + 1]), 1.0))
  }

  /** The (current, 1) pairs counted into `from_counts`. */
  function TransitionSources<K>(s: seq<K>): (e: seq<(K, real)>)
    requires |s| >= 1
    ensures |e| == |s| - 1
    ensures forall i :: 0 <= i < |s| - 1 ==> e[i] == (s[i], 1.0)
  {
    seq(|s| - 1, i requires 0 <= i < |s| - 1 => (s[i], 1.0))
  }

  /** `for (src, dst), count in trans_counts.items(): ... cond_entropy -= p_joint * log2(p_cond)`. */
  function CondEntropyTerms<K(==)>(trans: seq<((K, K), real)>, from: seq<(K, real)>, total: real,
                                   log2: real -> real): real
    requires total != 0.0
    requires forall i :: 0 <= i < |trans| ==> Tally.Get(from, trans[i].0.0) != 0.0
  {
    if trans == [] then 0.0
    else
      var count := trans[0].1;
      var pJoint := count / total;
      var pCond := count / Tally.Get(from, trans[0].0.0);
      (if pCond > 0.0 then -pJoint * log2(pCond) else 0.0)
      + CondEntropyTerms(trans[1..], from, total, log2)
  }

  /** Each pair's count is at most the count of its source symbol. */
  lemma {:induction false} PairWeightBound<K>(pairs: seq<((K, K), real)>, sources: seq<(K, real)>, a: K, b: K)
    requires |pairs| == |sources|
    requires forall i :: 0 <= i < |pairs| ==> pairs[i].0.0 == sources[i].0 && pairs[i].1 == sources[i].1 >= 0.0
    ensures Tally.WeightOf(pairs, (a, b)) <= Tally.WeightOf(sources, a)
  {
    if pairs != [] {
      PairWeightBound(pairs[1..], sources[1..], a, b);
    }
  }

  /** A key that occurs with weight at least 1 among non-negative weights has total weight at least 1. */
  lemma {:induction false} WeightOfOccurring<K>(e: seq<(K, real)>, k: K, i: int)
    requires 0 <= i < |e| && e[i].0 == k && e[i].1 >= 1.0
    requires forall j :: 0 <= j < |e| ==> e[j].1 >= 0.0
    ensures Tally.WeightOf(e, k) >= 1.0
  {
    if i == 0 {
      WeightOfNonneg(e[1..], k);
    } else {
      WeightOfOccurring(e[1..], k, i - 1);
    }
  }

  lemma {:induction false} WeightOfNonneg<K>(e: seq<(K, real)>, k: K)
    requires forall j :: 0 <= j < |e| ==> e[j].1 >= 0.0
    ensures Tally.WeightOf(e, k) >= 0.0
  {
    if e != [] {
      WeightOfNonneg(e[1..], k);
    }
  }

  /**
   * Every transition counted starts at a symbol that was counted as a source,
   * so `from_counts[src]` is at least 1 and at least the transition's count.
   */
  lemma TransitionSupport<K>(s: seq<K>)
    requires |s| >= 2
    ensures forall i :: 0 <= i < |Tally.FromEntries(TransitionPairs(s))| ==>
              1.0 <= Tally.Get(Tally.FromEntries(TransitionSources(s)), Tally.FromEntries(TransitionPairs(s))[i].0.0)
    ensures forall i :: 0 <= i < |Tally.FromEntries(TransitionPairs(s))| ==>
              Tally.FromEntries(TransitionPairs(s))[i].1
              <= Tally.Get(Tally.FromEntries(TransitionSources(s)), Tally.FromEntries(TransitionPairs(s))[i].0.0)
  {
    var pairs := TransitionPairs(s);
    var sources := TransitionSources(s);
    var trans := Tally.FromEntries(pairs);
    var from := Tally.FromEntries(sources);
    Tally.FromEntriesFacts(pairs);
    Tally.FromEntriesFacts(sources);
    forall i | 0 <= i < |trans|
      ensures 1.0 <= Tally.Get(from, trans[i].0.0)
      ensures trans[i].1 <= Tally.Get(from, trans[i].0.0)
    {
      var key := trans[i].0;
      assert key in Tally.KeySet(trans);
      GetDistinct(trans, i);
      TransitionKeySupport(s, key);
    }
  }

  /** A transition that occurs has a source counted at least once, and at least as often as the transition. */
  lemma TransitionKeySupport<K>(s: seq<K>, key: (K, K))
    requires |s| >= 2 && key in Tally.KeySet(TransitionPairs(s))
    ensures 1.0 <= Tally.WeightOf(TransitionSources(s), key.0)
    ensures Tally.WeightOf(TransitionPairs(s), key) <= Tally.WeightOf(TransitionSources(s), key.0)
  {
    var pairs := TransitionPairs(s);
    var sources := TransitionSources(s);
    var j :| 0 <= j < |pairs| && pairs[j].0 == key;
    assert sources[j] == (key.0, 1.0);
    forall i | 0 <= i < |sources| ensures sources[i].1 >= 0.0 {
      assert sources[i] == (s[i], 1.0);
    }
    WeightOfOccurring(sources, key.0, j);
    forall i | 0 <= i < |pairs| ensures pairs[i].0.0 == sources[i].0 && pairs[i].1 == sources[i].1 >= 0.0 {
      assert pairs[i] == ((s[i], s[i + 1]), 1.0) && sources[i] == (s[i], 1.0);
    }
    PairWeightBound(pairs, sources, key.0, key.1);
  }

  /** In a tally with distinct keys, `Get` of an entry's key is that entry's value. */
  lemma {:induction false} GetDistinct<K>(t: seq<(K, real)>, i: int)
    requires Tally.DistinctKeys(t)
    requires 0 <= i < |t|
    ensures Tally.Get(t, t[i].0) == t[i].1
  {
    if i > 0 {
      assert Tally.DistinctKeys(t[1..]);
      GetDistinct(t[1..], i - 1);
    }
  }

  /** Normalised conditional entropy H(next | current) of a symbol sequence over a vocabulary. */
  function TransitionEntropy<K(==)>(s: seq<K>, vocabSize: int, log2: real -> real): (r: real)
    ensures |s| < 2 ==> r == 0.0
  {
    if |s| < 2 then 0.0
    else
      var trans := Tally.FromEntries(TransitionPairs(s));
      var from := Tally.FromEntries(TransitionSources(s));
      if from == [] then 0.0
      else
        var total := (|s| - 1) as real;
        TransitionSupport(s);
        var condEntropy := CondEntropyTerms(trans, from, total, log2);
        var maxEntropy := if vocabSize > 1 then log2(vocabSize as real) else 1.0;
        if maxEntropy > 0.0 then condEntropy / maxEntropy else 0.0
  }

  lemma {:induction false} CondEntropyTermsNonneg<K>(trans: seq<((K, K), real)>, from: seq<(K, real)>,
                                                    total: real, log2: real -> real)
    requires Log2Law(log2)
    requires total > 0.0
    requires forall i :: 0 <= i < |trans| ==> 1.0 <= Tally.Get(from, trans[i].0.0)
    requires forall i :: 0 <= i < |trans| ==> trans[i].1 <= Tally.Get(from, trans[i].0.0)
    ensures CondEntropyTerms(trans, from, total, log2) >= 0.0
  {
    if trans != [] {
      CondEntropyTermsNonneg(trans[1..], from, total, log2);
      var count := trans[0].1;
      var pCond := count / Tally.Get(from, trans[0].0.0);
      if pCond > 0.0 {
        assert count > 0.0;
        assert pCond <= 1.0;
        assert log2(pCond) <= 0.0;
        MulPosNonpos(count / total, log2(pCond));
      }
    }
  }

  /** The transition entropy is never negative. */
  lemma TransitionEntropyNonneg<K>(s: seq<K>, vocabSize: int, log2: real -> real)
    requires Log2Law(log2)
    ensures TransitionEntropy(s, vocabSize, log2) >= 0.0
  {
    if |s| >= 2 {
      var trans := Tally.FromEntries(TransitionPairs(s));
      var from := Tally.FromEntries(TransitionSources(s));
      if from != [] {
        var total := (|s| - 1) as real;
        TransitionSupport(s);
        CondEntropyTermsNonneg(trans, from, total, log2);
        var maxEntropy := if vocabSize > 1 then log2(vocabSize as real) else 1.0;
        if maxEntropy > 0.0 {
          assert CondEntropyTerms(trans, from, total, log2) / maxEntropy >= 0.0;
        }
      }
    }
  }

  /** When every entry carries key k, the weight of k is the whole total. */
  lemma {:induction false} WeightOfAll<K>(e: seq<(K, real)>, k: K)
    requires forall i :: 0 <= i < |e| ==> e[i].0 == k
    ensures Tally.WeightOf(e, k) == Tally.Total(e)
  {
    if e != [] {
      WeightOfAll(e[1..], k);
    }
  }

  /** A tally of entries that all carry one key is that key with the total weight. */
  lemma OneKeyTally<K>(e: seq<(K, real)>, k: K)
    requires e != [] && forall i :: 0 <= i < |e| ==> e[i].0 == k
    ensures Tally.FromEntries(e) == [(k, Tally.Total(e))]
  {
    var t := Tally.FromEntries(e);
    Tally.FromEntriesFacts(e);
    assert Tally.KeySet(e) == {k} by {
      assert e[0].0 == k;
    }
    assert |t| == 1;
    assert t[0].0 in Tally.KeySet(t);
    GetDistinct(t, 0);
    WeightOfAll(e, k);
  }

  /** A sequence that repeats one symbol is perfectly predictable: its transition entropy is 0. */
  lemma TransitionEntropyConstant<K>(s: seq<K>, vocabSize: int, log2: real -> real)
    requires |s| >= 2 && forall i :: 0 <= i < |s| ==> s[i] == s[0]
    requires log2(1.0) == 0.0
    ensures TransitionEntropy(s, vocabSize, log2) == 0.0
  {
    var m := (|s| - 1) as real;
    ConstantTallies(s);
    OneTransitionTerm(s[0], m, log2);
    assert CondEntropyTerms(Tally.FromEntries(TransitionPairs(s)), Tally.FromEntries(TransitionSources(s)), m, log2)
           == 0.0;
  }

  /** The transition tallies of a constant sequence: one kind, seen `|s| - 1` times. */
  lemma ConstantTallies<K>(s: seq<K>)
    requires |s| >= 2 && forall i :: 0 <= i < |s| ==> s[i] == s[0]
    ensures Tally.FromEntries(TransitionPairs(s)) == [((s[0], s[0]), (|s| - 1) as real)]
    ensures Tally.FromEntries(TransitionSources(s)) == [(s[0], (|s| - 1) as real)]
  {
    var a := s[0];
    var pairs := TransitionPairs(s);
    var sources := TransitionSources(s);
    assert forall i :: 0 <= i < |pairs| ==> pairs[i].0 == (a, a) && pairs[i].1 == 1.0;
    assert forall i :: 0 <= i < |sources| ==> sources[i].0 == a && sources[i].1 == 1.0;
    OneKeyTally(pairs, (a, a));
    OneKeyTally(sources, a);
    TotalOnes(pairs);
    TotalOnes(sources);
  }

  /** One transition kind that is also the only source: p_cond is 1 and the term vanishes. */
  lemma OneTransitionTerm<K>(a: K, m: real, log2: real -> real)
    requires m > 0.0 && log2(1.0) == 0.0
    ensures Tally.Get([(a, m)], a) == m
    ensures CondEntropyTerms([((a, a), m)], [(a, m)], m, log2) == 0.0
  {
    var trans := [((a, a), m)];
    assert trans[1..] == [];
    DivSelf(m);
  }

  /** A tally of unit weights totals its length. */
  lemma {:induction false} TotalOnes<K>(e: seq<(K, real)>)
    requires forall i :: 0 <= i < |e| ==> e[i].1 == 1.0
    ensures Tally.Total(e) == |e| as real
  {
    if e != [] {
      TotalOnes(e[1..]);
    }
  }

  // ---------------------------------------------------------------------------
  // ngram_recurrence_rate

  /** The contiguous length-n windows of s, in order. */
  function NGrams<K>(s: seq<K>, n: nat): (g: seq<seq<K>>)
    requires n <= |s|
    ensures |g| == |s| - n + 1
    ensures forall i :: 0 <= i < |g| ==> g[i] == s[i..i + n]
  {
    seq(|s| - n + 1, i requires 0 <= i < |s| - n + 1 => s[i..i + n])
  }

  /** No element of g occurs twice. */
  ghost predicate AllDistinct<T>(g: seq<T>)
  {
    forall i, j :: 0 <= i < j < |g| ==> g[i] != g[j]
  }

  /** A list has at most as many distinct elements as entries, and exactly as many when no entry repeats. */
  lemma {:induction false} DistinctCount<T>(g: seq<T>)
    ensures |set x | x in g| <= |g|
    ensures |set x | x in g| == |g| <==> AllDistinct(g)
  {
    if g != [] {
      DistinctCount(g[1..]);
      var rest := set x | x in g[1..];
      assert (set x | x in g) == {g[0]} + rest;
      if g[0] in rest {
        assert (set x | x in g) == rest;
        var j :| 0 <= j < |g[1..]| && g[1..][j] == g[0];
        assert g[0] == g[j + 1];
      } else {
        assert |set x | x in g| == |rest| + 1;
        if AllDistinct(g) {
          assert AllDistinct(g[1..]) by {
            forall i, j | 0 <= i < j < |g[1..]| ensures g[1..][i] != g[1..][j] {
              assert g[i + 1] != g[j + 1];
            }
          }
        }
        if AllDistinct(g[1..]) {
          forall i, j | 0 <= i < j < |g| ensures g[i] != g[j] {
            if i == 0 {
              assert g[j] in rest by { assert g[1..][j - 1] == g[j]; }
            } else {
              assert g[1..][i - 1] != g[1..][j - 1];
            }
          }
        }
      }
    }
  }

  /** A non-empty list has between 1 and |g| distinct elements. */
  lemma UniqueBounds<T>(g: seq<T>)
    requires g != []
    ensures 1 <= |set x | x in g| <= |g|
  {
    DistinctCount(g);
    var distinct := set x | x in g;
    assert g[0] in distinct;
    assert distinct != {};
  }

  /** `1 - unique / total` over the length-n windows of the sequence; 0 when there are fewer than two. */
  function NGramRecurrenceRate<K(==)>(s: seq<K>, n: nat): (r: real)
    ensures |s| <= n ==> r == 0.0
    ensures 0.0 <= r < 1.0
  {
    if |s| < n then 0.0
    else
      var ngrams := NGrams(s, n);
      if |ngrams| <= 1 then 0.0
      else
        UniqueBounds(ngrams);
        RateRange(|set g | g in ngrams|, |ngrams|);
        1.0 - |set g | g in ngrams| as real / |ngrams| as real
  }

  lemma RateRange(unique: int, total: int)
    requires 1 <= unique <= total
    ensures 0.0 <= 1.0 - unique as real / total as real < 1.0
    ensures 1.0 - unique as real / total as real == 0.0 <==> unique == total
  {
    RatioBounds(unique as real, total as real);
    if unique == total {
      DivSelf(total as real);
    }
  }

  /** The rate is 0 exactly when no window repeats. */
  lemma NGramRecurrenceZeroIffDistinct<K>(s: seq<K>, n: nat)
    requires n <= |s|
    ensures NGramRecurrenceRate(s, n) == 0.0 <==> AllDistinct(NGrams(s, n))
  {
    var ngrams := NGrams(s, n);
    if |ngrams| <= 1 {
      return;
    }
    DistinctCount(ngrams);
    UniqueBounds(ngrams);
    RateRange(|set g | g in ngrams|, |ngrams|);
  }

  // ---------------------------------------------------------------------------
  // quantize_interval

  /** `min(int(min(interval, max_val) / max_val * num_bins), num_bins - 1)`. */
  function QuantizeInterval(interval: real, numBins: int, maxVal: real): (r: int)
    requires maxVal != 0.0
    ensures r <= numBins - 1
  {
    LastBin(Trunc(Scaled(interval, numBins, maxVal)), numBins)
  }

  /** `min(interval, max_val) / max_val * num_bins`, the bin position before truncation. */
  function Scaled(interval: real, numBins: int, maxVal: real): real
    requires maxVal != 0.0
  {
    Min(interval, maxVal) / maxVal * numBins as real
  }

  /** `min(b, num_bins - 1)`. */
  function LastBin(b: int, numBins: int): (r: int)
    ensures r <= numBins - 1 && r <= b
    ensures r == b || r == numBins - 1
  {
    if b <= numBins - 1 then b else numBins - 1
  }

  /** A non-negative interval lands in one of the bins 0 .. numBins - 1; at or past maxVal, in the last. */
  lemma QuantizeRange(interval: real, numBins: int, maxVal: real)
    requires maxVal > 0.0 && numBins >= 1 && interval >= 0.0
    ensures 0 <= QuantizeInterval(interval, numBins, maxVal) <= numBins - 1
    ensures interval >= maxVal ==> QuantizeInterval(interval, numBins, maxVal) == numBins - 1
  {
    var c := Min(interval, maxVal);
    DivMonotone(c, maxVal, maxVal);
    MulMonotone(c / maxVal, 1.0, numBins as real);
    if interval >= maxVal {
      assert c / maxVal == 1.0;
      assert Trunc(c / maxVal * numBins as real) == numBins;
    }
  }

  /** Longer intervals never land in a lower bin. */
  lemma QuantizeMonotone(i1: real, i2: real, numBins: int, maxVal: real)
    requires maxVal > 0.0 && numBins >= 1
    requires 0.0 <= i1 <= i2
    ensures QuantizeInterval(i1, numBins, maxVal) <= QuantizeInterval(i2, numBins, maxVal)
  {
    var x1, x2 := Scaled(i1, numBins, maxVal), Scaled(i2, numBins, maxVal);
    assert 0.0 <= x1 <= x2 by {
      DivMonotone(Min(i1, maxVal), Min(i2, maxVal), maxVal);
      MulMonotone(Min(i1, maxVal) / maxVal, Min(i2, maxVal) / maxVal, numBins as real);
    }
    TruncMonotone(x1, x2);
  }

  lemma DivMonotone(a: real, b: real, c: real)
    requires 0.0 <= a <= b && c > 0.0
    ensures 0.0 <= a / c <= b / c
  {
  }

  lemma MulMonotone(a: real, b: real, c: real)
    requires 0.0 <= a <= b && c >= 0.0
    ensures 0.0 <= a * c <= b * c
  {
  }

  lemma TruncMonotone(x: real, y: real)
    requires 0.0 <= x <= y
    ensures Trunc(x) <= Trunc(y)
  {
  }

  // ---------------------------------------------------------------------------
  // _decay_weight

  /** `w(dt) = 2^(-dt / half_life)`, and exactly 1 for dt <= 0. */
  function DecayWeight(halfLife: real, exp2: real -> real, dt: real): (w: real)
    requires dt <= 0.0 || halfLife != 0.0
    ensures dt <= 0.0 ==> w == 1.0
  {
    if dt <= 0.0 then 1.0 else exp2(-dt / halfLife)
  }

  /** With a positive half-life the weight lies in (0, 1], and below 1 once dt > 0. */
  lemma DecayWeightRange(halfLife: real, exp2: real -> real, dt: real)
    requires Exp2Law(exp2)
    requires halfLife > 0.0
    ensures 0.0 < DecayWeight(halfLife, exp2, dt) <= 1.0
    ensures dt > 0.0 ==> DecayWeight(halfLife, exp2, dt) < 1.0
  {
    if dt > 0.0 {
      assert -dt / halfLife < 0.0;
    }
  }
}
