/**
  Counting the keys of a map by the bucket their value falls into, and the
  fact that a list of distinct buckets covering every value splits the keys
  into parts whose sizes add up to the number of keys. Both `get_stats`
  functions are tallies of this kind.
 */
module Tally {

  /** The number of keys among `ks` that `m` sends to bucket `b`. */
  function Count<K, B(==)>(m: map<K, B>, ks: set<K>, b: B): nat {
    |set k | k in ks && k in m && m[k] == b|
  }

  /** The counts of the buckets `bs`, added up. */
  function SumCounts<K, B(==)>(m: map<K, B>, ks: set<K>, bs: seq<B>): nat {
    if bs == [] then 0 else Count(m, ks, bs[0]) + SumCounts(m, ks, bs[1..])
  }

  predicate Distinct<B(==)>(bs: seq<B>) {
    forall i, j :: 0 <= i < j < |bs| ==> bs[i] != bs[j]
  }

  lemma CountNone<K, B>(m: map<K, B>, b: B)
    ensures Count(m, {}, b) == 0
  {
  }

  /** Adding one key to the counted keys adds one to the count of its own bucket only. */
  lemma CountAdd<K, B>(m: map<K, B>, ks: set<K>, x: K, b: B)
    requires x !in ks && x in m
    ensures Count(m, ks + {x}, b) == Count(m, ks, b) + (if m[x] == b then 1 else 0)
  {
    var before := set k | k in ks && k in m && m[k] == b;
    var after := set k | k in ks + {x} && k in m && m[k] == b;
    if m[x] == b {
      assert after == before + {x};
    } else {
      assert after == before;
    }
  }

  /** Two maps that agree on the counted keys have the same counts. */
  lemma CountAgree<K, B>(m1: map<K, B>, m2: map<K, B>, ks: set<K>, b: B)
    requires forall k :: k in ks ==> k in m1 && k in m2 && m1[k] == m2[k]
    ensures Count(m1, ks, b) == Count(m2, ks, b)
  {
    assert (set k | k in ks && k in m1 && m1[k] == b) == (set k | k in ks && k in m2 && m2[k] == b);
  }

  /** Two bucket maps that select the same keys count the same. */
  lemma CountMatch<K, B, C>(m1: map<K, B>, b1: B, m2: map<K, C>, b2: C, ks: set<K>)
    requires forall k :: k in ks ==> k in m1 && k in m2 && (m1[k] == b1 <==> m2[k] == b2)
    ensures Count(m1, ks, b1) == Count(m2, ks, b2)
  {
    assert (set k | k in ks && k in m1 && m1[k] == b1) == (set k | k in ks && k in m2 && m2[k] == b2);
  }

  lemma {:induction false} SumCountsNone<K, B>(m: map<K, B>, bs: seq<B>)
    ensures SumCounts(m, {}, bs) == 0
  {
    if bs != [] {
      CountNone(m, bs[0]);
      SumCountsNone(m, bs[1..]);
    }
  }

  lemma {:induction false} SumCountsAdd<K, B>(m: map<K, B>, ks: set<K>, x: K, bs: seq<B>)
    requires x !in ks && x in m
    requires Distinct(bs)
    ensures SumCounts(m, ks + {x}, bs) == SumCounts(m, ks, bs) + (if m[x] in bs then 1 else 0)
  {
    if bs != [] {
      CountAdd(m, ks, x, bs[0]);
      SumCountsAdd(m, ks, x, bs[1..]);
      assert m[x] in bs <==> m[x] == bs[0] || m[x] in bs[1..];
      assert m[x] == bs[0] ==> m[x] !in bs[1..];
    }
  }

  /** Distinct buckets that cover every value partition the keys: their counts add up to the number of keys. */
  lemma {:induction false} CountsPartition<K, B>(m: map<K, B>, ks: set<K>, bs: seq<B>)
    requires ks <= m.Keys
    requires forall k :: k in ks ==> m[k] in bs
    requires Distinct(bs)
    ensures SumCounts(m, ks, bs) == |ks|
    decreases |ks|
  {
    if ks == {} {
      SumCountsNone(m, bs);
    } else {
      var x :| x in ks;
      var rest := ks - {x};
      CountsPartition(m, rest, bs);
      SumCountsAdd(m, rest, x, bs);
      assert rest + {x} == ks;
    }
  }

  /** Counting every key of a map after inserting a fresh key adds one to the count of its bucket only. */
  lemma CountInsert<K, B>(m: map<K, B>, x: K, v: B, b: B)
    requires x !in m
    ensures Count(m[x := v], m.Keys + {x}, b) == Count(m, m.Keys, b) + (if v == b then 1 else 0)
  {
    CountAdd(m[x := v], m.Keys, x, b);
    CountAgree(m[x := v], m, m.Keys, b);
  }
}
