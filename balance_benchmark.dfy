/**
 * `run_full_benchmark` of the balance scorer: every strategy simulated against
 * one build, the results ordered by composite score, highest first.
 */
module BalanceBenchmark {
  import opened Wrappers
  import opened BalanceBuild
  import opened BalanceSim

  /** Every pair of results in order of non-increasing composite score. */
  predicate NonIncreasing(s: seq<SimulationResult>)
  {
    forall i, j :: 0 <= i < j < |s| ==> s[i].compositeScore >= s[j].compositeScore
  }

  /** `x` placed after every result of `sorted` that scores at least as much. */
  function InsertByScore(sorted: seq<SimulationResult>, x: SimulationResult): (r: seq<SimulationResult>)
    ensures |r| == |sorted| + 1 && x in r
  {
    if sorted == [] then [x]
    else if sorted[|sorted| - 1].compositeScore >= x.compositeScore then sorted + [x]
    else InsertByScore(sorted[..|sorted| - 1], x) + [sorted[|sorted| - 1]]
  }

  /** `sort(key=composite_score, reverse=True)`, as an insertion sort. */
  function SortByScore(s: seq<SimulationResult>): (r: seq<SimulationResult>)
    ensures |r| == |s|
  {
    if s == [] then [] else InsertByScore(SortByScore(s[..|s| - 1]), s[|s| - 1])
  }

  /** Inserting adds exactly `x`. */
  lemma {:induction false} InsertByScorePerm(sorted: seq<SimulationResult>, x: SimulationResult)
    ensures multiset(InsertByScore(sorted, x)) == multiset(sorted) + multiset{x}
  {
    if sorted != [] && sorted[|sorted| - 1].compositeScore < x.compositeScore {
      var init := sorted[..|sorted| - 1];
      var last := sorted[|sorted| - 1];
      InsertByScorePerm(init, x);
      assert sorted == init + [last];
    }
  }

  /** Inserting into a sorted list keeps it sorted. */
  lemma {:induction false} InsertByScoreSorted(sorted: seq<SimulationResult>, x: SimulationResult)
    requires NonIncreasing(sorted)
    ensures NonIncreasing(InsertByScore(sorted, x))
  {
    if sorted == [] {
    } else if sorted[|sorted| - 1].compositeScore >= x.compositeScore {
    } else {
      var init := sorted[..|sorted| - 1];
      var last := sorted[|sorted| - 1];
      InsertByScoreSorted(init, x);
      InsertByScorePerm(init, x);
      var mid := InsertByScore(init, x);
      forall k | 0 <= k < |mid|
        ensures mid[k].compositeScore >= last.compositeScore
      {
        assert mid[k] in multiset(mid);
        if mid[k] != x {
          assert mid[k] in multiset(init);
        }
      }
      assert InsertByScore(sorted, x) == mid + [last];
    }
  }

  /** The sorted results are in non-increasing score order. */
  lemma {:induction false} SortByScoreSorted(s: seq<SimulationResult>)
    ensures NonIncreasing(SortByScore(s))
  {
    if s != [] {
      SortByScoreSorted(s[..|s| - 1]);
      InsertByScoreSorted(SortByScore(s[..|s| - 1]), s[|s| - 1]);
    }
  }

  /** The sorted results are a permutation of the input. */
  lemma {:induction false} SortByScorePerm(s: seq<SimulationResult>)
    ensures multiset(SortByScore(s)) == multiset(s)
  {
    if s != [] {
      var init := s[..|s| - 1];
      SortByScorePerm(init);
      InsertByScorePerm(SortByScore(init), s[|s| - 1]);
      assert s == init + [s[|s| - 1]];
    }
  }

  /** `f` of every element in order, or `None` at the first element where `f` fails. */
  function CollectAll<A, B>(f: A -> Option<B>, xs: seq<A>): (r: Option<seq<B>>)
    ensures r.Some? ==> |r.value| == |xs|
    ensures xs != [] && f(xs[|xs| - 1]).None? ==> r.None?
  {
    if xs == [] then Some([])
    else match CollectAll(f, xs[..|xs| - 1])
         case None => None
         case Some(ys) =>
           match f(xs[|xs| - 1])
           case None => None
           case Some(y) => Some(ys + [y])
  }

  /** The outcome exists exactly when `f` succeeds everywhere; then it has one `f` value per element, in order. */
  lemma {:induction false} CollectAllFacts<A, B>(f: A -> Option<B>, xs: seq<A>)
    ensures CollectAll(f, xs).Some? <==> forall i :: 0 <= i < |xs| ==> f(xs[i]).Some?
    ensures CollectAll(f, xs).Some? ==>
              && |CollectAll(f, xs).value| == |xs|
              && forall i :: 0 <= i < |xs| ==> Some(CollectAll(f, xs).value[i]) == f(xs[i])
  {
    if xs != [] {
      var init := xs[..|xs| - 1];
      CollectAllFacts(f, init);
      assert forall i :: 0 <= i < |init| ==> init[i] == xs[i];
    }
  }

  /** Once a prefix fails, the whole sequence fails. */
  lemma {:induction false} CollectAllHalts<A, B>(f: A -> Option<B>, xs: seq<A>, n: nat)
    requires n <= |xs| && CollectAll(f, xs[..n]).None?
    ensures CollectAll(f, xs).None?
    decreases |xs| - n
  {
    if n < |xs| {
      assert xs[..n + 1][..n] == xs[..n];
      CollectAllHalts(f, xs, n + 1);
    } else {
      assert xs[..n] == xs;
    }
  }

  /** A prefix that succeeded, extended by one more success, succeeds with that value appended. */
  lemma CollectAllStep<A, B>(f: A -> Option<B>, xs: seq<A>, n: nat, ys: seq<B>, y: B)
    requires n < |xs| && CollectAll(f, xs[..n]) == Some(ys) && f(xs[n]) == Some(y)
    ensures CollectAll(f, xs[..n + 1]) == Some(ys + [y])
  {
    var prefix := xs[..n + 1];
    assert prefix[..n] == xs[..n] && prefix[n] == xs[n];
  }

  /** `simulate` of one strategy under the benchmark's build and registry. */
  function SimulateWith(b: BuildStats, chords: map<string, ChordType>): StrategyDefinition -> Option<SimulationResult>
  {
    s => if b.bpm != 0 && b.maxHp != 0.0 then Simulation(b, chords, DefaultWeights, s) else None
  }

  /** The simulations of the strategies in order, or `None` once one of them fails. */
  function Results(b: BuildStats, chords: map<string, ChordType>, strategies: seq<StrategyDefinition>)
    : (r: Option<seq<SimulationResult>>)
    ensures r.Some? ==> |r.value| == |strategies|
    ensures (b.bpm == 0 || b.maxHp == 0.0) && strategies != [] ==> r.None?
  {
    CollectAll(SimulateWith(b, chords), strategies)
  }

  /** The results exist exactly when every strategy simulates; then they are one per strategy and in order. */
  lemma ResultsFacts(b: BuildStats, chords: map<string, ChordType>, strategies: seq<StrategyDefinition>)
    requires b.bpm != 0 && b.maxHp != 0.0
    ensures Results(b, chords, strategies).Some?
            <==> forall i :: 0 <= i < |strategies| ==> Simulation(b, chords, DefaultWeights, strategies[i]).Some?
    ensures Results(b, chords, strategies).Some? ==>
              && |Results(b, chords, strategies).value| == |strategies|
              && forall i :: 0 <= i < |strategies| ==>
                   Some(Results(b, chords, strategies).value[i]) == Simulation(b, chords, DefaultWeights, strategies[i])
  {
    CollectAllFacts(SimulateWith(b, chords), strategies);
  }

  /**
   * `run_full_benchmark` for a given build, strategy list and chord registry.
   * `None` is an exception from one of the simulations.
   */
  method RunFullBenchmark(build: PlayerBuild, strategies: seq<StrategyDefinition>, chords: map<string, ChordType>)
    returns (r: Option<seq<SimulationResult>>)
    requires build.bpm != 0 && build.maxHp != 0.0
    ensures r.Some? <==> Results(build.Stats(), chords, strategies).Some?
    ensures r.Some? ==> NonIncreasing(r.value)
    ensures r.Some? ==> multiset(r.value) == multiset(Results(build.Stats(), chords, strategies).value)
  {
    var b := build.Stats();
    var simulator := new StrategySimulator(build, chords);
    ghost var f := SimulateWith(b, chords);
    var results: seq<SimulationResult> := [];
    var i := 0;
    while i < |strategies|
      invariant 0 <= i <= |strategies|
      invariant CollectAll(f, strategies[..i]) == Some(results)
    {
      var result := simulator.Simulate(strategies[i]);
      assert f(strategies[i]) == result by {
        assert simulator.build == build && simulator.weights == DefaultWeights && build.Stats() == b;
      }
      if result.None? {
        CollectAllHalts(f, strategies, i + 1);
        return None;
      }
      CollectAllStep(f, strategies, i, results, result.value);
      results := results + [result.value];
      i := i + 1;
    }
    assert strategies[..i] == strategies;
    assert Results(build.Stats(), chords, strategies) == Some(results);
    SortByScoreSorted(results);
    SortByScorePerm(results);
    r := Some(SortByScore(results));
  }
}
