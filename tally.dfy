/**
 * A model of the `defaultdict(float)` / `defaultdict(int)` accumulators the
 * entropy utilities build with `counts[key] += w`. A Python dict iterates in
 * insertion order, so a tally is an association list in order of first
 * appearance: `Add` bumps an existing entry or appends a new one, `Get` reads a
 * key with the default 0, and `FromEntries` replays a whole loop of `+=`.
 */
module Tally {

  /** The set of keys of a list of (key, weight) pairs. */
  ghost function KeySet<K>(e: seq<(K, real)>): set<K>
  {
    set i | 0 <= i < |e| :: e[i].0
  }

  ghost predicate DistinctKeys<K>(t: seq<(K, real)>)
  {
    forall i, j :: 0 <= i < j < |t| ==> t[i].0 != t[j].0
  }

  /** The sum of all weights, in list order. */
  function Total<K>(e: seq<(K, real)>): real
  {
    if e == [] then 0.0 else e[0].1 + Total(e[1..])
  }

  /** The sum of the weights paired with key k. */
  function WeightOf<K(==)>(e: seq<(K, real)>, k: K): real
  {
    if e == [] then 0.0 else (if e[0].0 == k then e[0].1 else 0.0) + WeightOf(e[1..], k)
  }

  /** `counts[k]` on a defaultdict: the entry's value, or 0 when the key is absent. */
  function Get<K(==)>(t: seq<(K, real)>, k: K): real
  {
    if t == [] then 0.0 else if t[0].0 == k then t[0].1 else Get(t[1..], k)
  }

  /** `counts[k] += w` on a defaultdict. */
  function Add<K(==)>(t: seq<(K, real)>, k: K, w: real): (r: seq<(K, real)>)
    ensures |r| == |t| || |r| == |t| + 1
  {
    if t == [] then [(k, w)]
    else if t[0].0 == k then [(k, t[0].1 + w)] + t[1..]
    else [t[0]] + Add(t[1..], k, w)
  }

  /** The tally left by `for (k, w) in e: counts[k] += w` on an empty defaultdict. */
  function FromEntries<K(==)>(e: seq<(K, real)>): seq<(K, real)>
    decreases |e|
  {
    if e == [] then [] else Add(FromEntries(e[..|e| - 1]), e[|e| - 1].0, e[|e| - 1].1)
  }

  lemma {:induction false} TotalAppend<K>(e: seq<(K, real)>, x: (K, real))
    ensures Total(e + [x]) == Total(e) + x.1
  {
    if e != [] {
      assert (e + [x])[1..] == e[1..] + [x];
      TotalAppend(e[1..], x);
    }
  }

  lemma {:induction false} WeightOfAppend<K>(e: seq<(K, real)>, x: (K, real), k: K)
    ensures WeightOf(e + [x], k) == WeightOf(e, k) + (if x.0 == k then x.1 else 0.0)
  {
    if e != [] {
      assert (e + [x])[1..] == e[1..] + [x];
      WeightOfAppend(e[1..], x, k);
    }
  }

  /** What one `+=` does to the keys and the size of a tally. */
  lemma {:induction false} AddKeys<K>(t: seq<(K, real)>, k: K, w: real)
    ensures KeySet(Add(t, k, w)) == KeySet(t) + {k}
    ensures |Add(t, k, w)| == |t| + (if k in KeySet(t) then 0 else 1)
  {
    var r := Add(t, k, w);
    if t == [] {
      assert r[0].0 == k;
      assert KeySet(r) == {k};
    } else if t[0].0 == k {
      assert KeySet(r) == KeySet(t) by {
        forall x | x in KeySet(t) ensures x in KeySet(r) {
          var i :| 0 <= i < |t| && t[i].0 == x;
          assert r[i].0 == x;
        }
      }
    } else {
      AddKeys(t[1..], k, w);
      var r' := Add(t[1..], k, w);
      KeySetCons(t);
      KeySetCons(r);
      assert r[1..] == r';
    }
  }

  lemma KeySetCons<K>(t: seq<(K, real)>)
    requires t != []
    ensures KeySet(t) == {t[0].0} + KeySet(t[1..])
  {
    forall x | x in KeySet(t) ensures x in {t[0].0} + KeySet(t[1..]) {
      var i :| 0 <= i < |t| && t[i].0 == x;
      if i > 0 { assert t[1..][i - 1].0 == x; }
    }
    forall x | x in KeySet(t[1..]) ensures x in KeySet(t) {
      var i :| 0 <= i < |t[1..]| && t[1..][i].0 == x;
      assert t[i + 1].0 == x;
    }
  }

  /** One `+=` keeps the keys distinct. */
  lemma {:induction false} AddDistinct<K>(t: seq<(K, real)>, k: K, w: real)
    requires DistinctKeys(t)
    ensures DistinctKeys(Add(t, k, w))
  {
    if t != [] && t[0].0 != k {
      var r := Add(t, k, w);
      var r' := Add(t[1..], k, w);
      AddDistinct(t[1..], k, w);
      AddKeys(t[1..], k, w);
      KeySetCons(t);
      assert r[1..] == r';
      forall j | 0 < j < |r| ensures r[0].0 != r[j].0 {
        assert r[j].0 == r'[j - 1].0 && r'[j - 1].0 in KeySet(r');
      }
    }
  }

  /** One `+=` adds w to key k and to the total, and to nothing else. */
  lemma {:induction false} AddValues<K>(t: seq<(K, real)>, k: K, w: real)
    ensures forall k' :: Get(Add(t, k, w), k') == Get(t, k') + (if k' == k then w else 0.0)
    ensures Total(Add(t, k, w)) == Total(t) + w
    ensures (forall i :: 0 <= i < |t| ==> t[i].1 > 0.0) && w > 0.0 ==>
              forall i :: 0 <= i < |Add(t, k, w)| ==> Add(t, k, w)[i].1 > 0.0
  {
    if t != [] && t[0].0 != k {
      AddValues(t[1..], k, w);
      assert Add(t, k, w)[1..] == Add(t[1..], k, w);
    } else if t != [] {
      assert Add(t, k, w)[1..] == t[1..];
    }
  }

  /** A replayed accumulation: distinct keys, one entry per distinct key, per-key sums, same total. */
  lemma FromEntriesFacts<K>(e: seq<(K, real)>)
    ensures DistinctKeys(FromEntries(e))
    ensures KeySet(FromEntries(e)) == KeySet(e)
    ensures |FromEntries(e)| == |KeySet(e)|
    ensures forall k :: Get(FromEntries(e), k) == WeightOf(e, k)
    ensures Total(FromEntries(e)) == Total(e)
    ensures (forall i :: 0 <= i < |e| ==> e[i].1 > 0.0) ==>
              forall i :: 0 <= i < |FromEntries(e)| ==> FromEntries(e)[i].1 > 0.0
  {
    FromEntriesKeys(e);
    FromEntriesValues(e);
  }

  lemma {:induction false} FromEntriesKeys<K>(e: seq<(K, real)>)
    ensures DistinctKeys(FromEntries(e))
    ensures KeySet(FromEntries(e)) == KeySet(e)
    ensures |FromEntries(e)| == |KeySet(e)|
    decreases |e|
  {
    if e == [] {
      assert KeySet(e) == {};
    } else {
      var p := e[..|e| - 1];
      var x := e[|e| - 1];
      FromEntriesKeys(p);
      AddKeys(FromEntries(p), x.0, x.1);
      AddDistinct(FromEntries(p), x.0, x.1);
      KeySetSnoc(p, x);
      assert e == p + [x];
    }
  }

  lemma KeySetSnoc<K>(p: seq<(K, real)>, x: (K, real))
    ensures KeySet(p + [x]) == KeySet(p) + {x.0}
  {
    var e := p + [x];
    forall y | y in KeySet(e) ensures y in KeySet(p) + {x.0} {
      var i :| 0 <= i < |e| && e[i].0 == y;
      if i < |p| { assert p[i].0 == y; }
    }
    forall y | y in KeySet(p) ensures y in KeySet(e) {
      var i :| 0 <= i < |p| && p[i].0 == y;
      assert e[i].0 == y;
    }
    assert e[|p|].0 == x.0;
  }

  lemma {:induction false} FromEntriesValues<K>(e: seq<(K, real)>)
    ensures forall k :: Get(FromEntries(e), k) == WeightOf(e, k)
    ensures Total(FromEntries(e)) == Total(e)
    ensures (forall i :: 0 <= i < |e| ==> e[i].1 > 0.0) ==>
              forall i :: 0 <= i < |FromEntries(e)| ==> FromEntries(e)[i].1 > 0.0
    decreases |e|
  {
    if e != [] {
      var p := e[..|e| - 1];
      var x := e[|e| - 1];
      assert e == p + [x];
      FromEntriesValues(p);
      AddValues(FromEntries(p), x.0, x.1);
      TotalAppend(p, x);
      forall k ensures WeightOf(e, k) == WeightOf(p, k) + (if x.0 == k then x.1 else 0.0) {
        WeightOfAppend(p, x, k);
      }
    }
  }

  /** With non-negative weights, no single weight exceeds the total. */
  lemma {:induction false} WeightLeTotal<K>(t: seq<(K, real)>, i: int)
    requires 0 <= i < |t|
    requires forall j :: 0 <= j < |t| ==> t[j].1 >= 0.0
    ensures 0.0 <= t[i].1 <= Total(t)
  {
    if i > 0 {
      WeightLeTotal(t[1..], i - 1);
    } else {
      TotalNonneg(t[1..]);
    }
  }

  lemma {:induction false} TotalNonneg<K>(t: seq<(K, real)>)
    requires forall j :: 0 <= j < |t| ==> t[j].1 >= 0.0
    ensures Total(t) >= 0.0
  {
    if t != [] {
      TotalNonneg(t[1..]);
    }
  }
}
