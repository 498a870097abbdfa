/**
 * pandas `groupby(key)[column].sum()` (and `.size()`, with weight one) as a
 * sequence of (key, aggregate) entries. Rows whose key is missing (NaN) are
 * dropped, as pandas does by default. Entries are kept in first-occurrence
 * order; pandas sorts them by key, which matters only where ties are broken,
 * and that is modelled where it happens (see Ranking.TopGroup).
 */
module Grouping {
  import opened Options

  /** Some entry of `g` has key `k`. */
  predicate HasKey<K(==)>(g: seq<(K, nat)>, k: K)
  {
    exists i :: 0 <= i < |g| && g[i].0 == k
  }

  /** No key occurs in two entries. */
  predicate DistinctKeys<K(==)>(g: seq<(K, nat)>)
  {
    forall i, j :: 0 <= i < j < |g| ==> g[i].0 != g[j].0
  }

  /** Every aggregate is positive. */
  predicate AllPositive<K>(g: seq<(K, nat)>)
  {
    forall i :: 0 <= i < |g| ==> g[i].1 > 0
  }

  /** The aggregate stored under `k`, or 0 when there is no entry for `k`. */
  function Lookup<K(==)>(g: seq<(K, nat)>, k: K): nat
  {
    if g == [] then 0 else if g[0].0 == k then g[0].1 else Lookup(g[1..], k)
  }

  /** The sum of all aggregates. */
  function Total<K>(g: seq<(K, nat)>): nat
  {
    if g == [] then 0 else g[0].1 + Total(g[1..])
  }

  /** Adds `w` to the entry for `k`, appending a new entry when there is none. */
  function Accumulate<K(==)>(g: seq<(K, nat)>, k: K, w: nat): (r: seq<(K, nat)>)
    ensures |g| <= |r| <= |g| + 1
  {
    if g == [] then [(k, w)]
    else if g[0].0 == k then [(k, g[0].1 + w)] + g[1..]
    else [g[0]] + Accumulate(g[1..], k, w)
  }

  /** Sum of `w` over the rows whose key is `k`. */
  function SumWhere<R, K(==)>(rows: seq<R>, key: R -> Option<K>, k: K, w: R -> nat): nat
  {
    if rows == [] then 0
    else (if key(rows[0]) == Some(k) then w(rows[0]) else 0) + SumWhere(rows[1..], key, k, w)
  }

  /** Sum of `w` over the rows whose key is present. */
  function SumKeyed<R, K>(rows: seq<R>, key: R -> Option<K>, w: R -> nat): nat
  {
    if rows == [] then 0
    else (if key(rows[0]).Some? then w(rows[0]) else 0) + SumKeyed(rows[1..], key, w)
  }

  /** Sum of `w` over all rows. */
  function SumOf<R>(rows: seq<R>, w: R -> nat): nat
  {
    if rows == [] then 0 else w(rows[0]) + SumOf(rows[1..], w)
  }

  /** Weight one: `groupby(...).size()` is `GroupSum` with this weight. */
  function One<R>(r: R): nat
  {
    1
  }

  /** `groupby(key)` followed by a sum of `w` per group. */
  function GroupSum<R, K(==)>(rows: seq<R>, key: R -> Option<K>, w: R -> nat): (g: seq<(K, nat)>)
    ensures |g| <= |rows|
    decreases |rows|
  {
    if rows == [] then []
    else
      var g := GroupSum(rows[..|rows| - 1], key, w);
      var last := rows[|rows| - 1];
      match key(last)
      case None => g
      case Some(k) => Accumulate(g, k, w(last))
  }

  // ---------------------------------------------------------------------------
  // One accumulation step

  lemma {:induction false} LookupAccumulate<K>(g: seq<(K, nat)>, k: K, w: nat, k': K)
    ensures Lookup(Accumulate(g, k, w), k') == Lookup(g, k') + (if k' == k then w else 0)
  {
    if g != [] && g[0].0 != k {
      LookupAccumulate(g[1..], k, w, k');
    }
  }

  lemma {:induction false} TotalAccumulate<K>(g: seq<(K, nat)>, k: K, w: nat)
    ensures Total(Accumulate(g, k, w)) == Total(g) + w
  {
    if g != [] && g[0].0 != k {
      TotalAccumulate(g[1..], k, w);
    }
  }

  lemma {:induction false} HasKeyAccumulate<K>(g: seq<(K, nat)>, k: K, w: nat, k': K)
    ensures HasKey(Accumulate(g, k, w), k') <==> HasKey(g, k') || k' == k
  {
    var r := Accumulate(g, k, w);
    if g == [] {
      assert r[0].0 == k;
    } else if g[0].0 == k {
      assert r[0].0 == k && r[1..] == g[1..];
      if HasKey(g, k') {
        var i :| 0 <= i < |g| && g[i].0 == k';
        assert r[i].0 == k';
      }
      if HasKey(r, k') {
        var i :| 0 <= i < |r| && r[i].0 == k';
        assert g[i].0 == k';
      }
    } else {
      HasKeyAccumulate(g[1..], k, w, k');
      assert r == [g[0]] + Accumulate(g[1..], k, w);
      if HasKey(g, k') {
        var i :| 0 <= i < |g| && g[i].0 == k';
        if i > 0 {
          assert g[1..][i - 1].0 == k';
          var j :| 0 <= j < |Accumulate(g[1..], k, w)| && Accumulate(g[1..], k, w)[j].0 == k';
          assert r[j + 1].0 == k';
        } else {
          assert r[0].0 == k';
        }
      }
      if k' == k {
        var j :| 0 <= j < |Accumulate(g[1..], k, w)| && Accumulate(g[1..], k, w)[j].0 == k';
        assert r[j + 1].0 == k';
      }
      if HasKey(r, k') {
        var i :| 0 <= i < |r| && r[i].0 == k';
        if i > 0 {
          assert Accumulate(g[1..], k, w)[i - 1].0 == k';
          if HasKey(g[1..], k') {
            var j :| 0 <= j < |g[1..]| && g[1..][j].0 == k';
            assert g[j + 1].0 == k';
          }
        } else {
          assert g[0].0 == k';
        }
      }
    }
  }

  lemma {:induction false} DistinctAccumulate<K>(g: seq<(K, nat)>, k: K, w: nat)
    requires DistinctKeys(g)
    ensures DistinctKeys(Accumulate(g, k, w))
  {
    var r := Accumulate(g, k, w);
    if g != [] && g[0].0 != k {
      DistinctAccumulate(g[1..], k, w);
      var rest := Accumulate(g[1..], k, w);
      assert r == [g[0]] + rest;
      forall j | 0 < j < |r|
        ensures r[0].0 != r[j].0
      {
        forall i | 0 <= i < |g[1..]|
          ensures g[1..][i].0 != g[0].0
        {
          assert g[1..][i] == g[i + 1];
        }
        HasKeyAccumulate(g[1..], k, w, g[0].0);
        assert rest[j - 1].0 == r[j].0;
      }
    } else if g != [] {
      assert r[1..] == g[1..];
    }
  }

  lemma {:induction false} PositiveAccumulate<K>(g: seq<(K, nat)>, k: K, w: nat)
    requires AllPositive(g) && w > 0
    ensures AllPositive(Accumulate(g, k, w))
  {
    if g != [] && g[0].0 != k {
      PositiveAccumulate(g[1..], k, w);
      assert Accumulate(g, k, w) == [g[0]] + Accumulate(g[1..], k, w);
    }
  }

  /** In a table with distinct keys every entry is what `Lookup` finds for its key. */
  lemma {:induction false} LookupEntry<K>(g: seq<(K, nat)>, i: nat)
    requires DistinctKeys(g) && i < |g|
    ensures Lookup(g, g[i].0) == g[i].1
  {
    if i > 0 {
      assert g[0].0 != g[i].0;
      LookupEntry(g[1..], i - 1);
    }
  }

  /** Entry `i` is the first one with key `k`. */
  predicate FirstEntry<K(==)>(g: seq<(K, nat)>, k: K, i: int)
  {
    0 <= i < |g| && g[i].0 == k && forall j :: 0 <= j < i ==> g[j].0 != k
  }

  /** A key that has an entry looks up as the value of its first entry (`.values[0]` of the matching rows). */
  lemma {:induction false} LookupFirst<K>(g: seq<(K, nat)>, k: K)
    requires HasKey(g, k)
    ensures exists i :: FirstEntry(g, k, i) && g[i].1 == Lookup(g, k)
  {
    if g[0].0 == k {
      assert FirstEntry(g, k, 0);
    } else {
      var p :| 0 <= p < |g| && g[p].0 == k;
      assert g[1..][p - 1] == g[p];
      LookupFirst(g[1..], k);
      var i :| FirstEntry(g[1..], k, i) && g[1..][i].1 == Lookup(g[1..], k);
      forall j | 0 <= j < i + 1 ensures g[j].0 != k {
        if j > 0 {
          assert g[j] == g[1..][j - 1];
        }
      }
      assert FirstEntry(g, k, i + 1);
    }
  }

  /** A key with no entry looks up as 0. */
  lemma {:induction false} LookupMissing<K>(g: seq<(K, nat)>, k: K)
    requires !HasKey(g, k)
    ensures Lookup(g, k) == 0
  {
    if g != [] {
      assert g[0].0 != k;
      forall i | 0 <= i < |g[1..]|
        ensures g[1..][i].0 != k
      {
        assert g[1..][i] == g[i + 1];
      }
      LookupMissing(g[1..], k);
    }
  }

  // ---------------------------------------------------------------------------
  // Sums over an appended row

  lemma {:induction false} SumWhereSnoc<R, K>(rows: seq<R>, x: R, key: R -> Option<K>, k: K, w: R -> nat)
    ensures SumWhere(rows + [x], key, k, w)
         == SumWhere(rows, key, k, w) + (if key(x) == Some(k) then w(x) else 0)
  {
    if rows != [] {
      assert (rows + [x])[1..] == rows[1..] + [x];
      SumWhereSnoc(rows[1..], x, key, k, w);
    }
  }

  lemma {:induction false} SumKeyedSnoc<R, K>(rows: seq<R>, x: R, key: R -> Option<K>, w: R -> nat)
    ensures SumKeyed(rows + [x], key, w) == SumKeyed(rows, key, w) + (if key(x).Some? then w(x) else 0)
  {
    if rows != [] {
      assert (rows + [x])[1..] == rows[1..] + [x];
      SumKeyedSnoc(rows[1..], x, key, w);
    }
  }

  lemma {:induction false} SumOfAppend<R>(a: seq<R>, b: seq<R>, w: R -> nat)
    ensures SumOf(a + b, w) == SumOf(a, w) + SumOf(b, w)
  {
    if a != [] {
      assert (a + b)[1..] == a[1..] + b;
      SumOfAppend(a[1..], b, w);
    } else {
      assert a + b == b;
    }
  }

  // ---------------------------------------------------------------------------
  // What a groupby computes

  /** Each group's aggregate is the sum of `w` over exactly the rows with that key. */
  lemma {:induction false} GroupSumLookup<R, K>(rows: seq<R>, key: R -> Option<K>, w: R -> nat, k: K)
    ensures Lookup(GroupSum(rows, key, w), k) == SumWhere(rows, key, k, w)
    decreases |rows|
  {
    if rows != [] {
      var init, last := rows[..|rows| - 1], rows[|rows| - 1];
      assert rows == init + [last];
      GroupSumLookup(init, key, w, k);
      SumWhereSnoc(init, last, key, k, w);
      if key(last).Some? {
        LookupAccumulate(GroupSum(init, key, w), key(last).value, w(last), k);
      }
    }
  }

  /** A group exists exactly for the keys that occur in some row. */
  lemma {:induction false} GroupSumHasKey<R, K>(rows: seq<R>, key: R -> Option<K>, w: R -> nat, k: K)
    ensures HasKey(GroupSum(rows, key, w), k) <==> exists i :: 0 <= i < |rows| && key(rows[i]) == Some(k)
    decreases |rows|
  {
    if rows != [] {
      var init, last := rows[..|rows| - 1], rows[|rows| - 1];
      GroupSumHasKey(init, key, w, k);
      if key(last).Some? {
        HasKeyAccumulate(GroupSum(init, key, w), key(last).value, w(last), k);
      }
      if exists i :: 0 <= i < |rows| && key(rows[i]) == Some(k) {
        var i :| 0 <= i < |rows| && key(rows[i]) == Some(k);
        if i < |rows| - 1 {
          assert init[i] == rows[i];
        }
      }
      if exists i :: 0 <= i < |init| && key(init[i]) == Some(k) {
        var i :| 0 <= i < |init| && key(init[i]) == Some(k);
        assert rows[i] == init[i];
      }
    }
  }

  /** Every key has exactly one group. */
  lemma {:induction false} GroupSumDistinct<R, K>(rows: seq<R>, key: R -> Option<K>, w: R -> nat)
    ensures DistinctKeys(GroupSum(rows, key, w))
    decreases |rows|
  {
    if rows != [] {
      var init, last := rows[..|rows| - 1], rows[|rows| - 1];
      GroupSumDistinct(init, key, w);
      if key(last).Some? {
        DistinctAccumulate(GroupSum(init, key, w), key(last).value, w(last));
      }
    }
  }

  /** Grouping preserves the sum: the aggregates add up to the sum over the rows that have a key. */
  lemma {:induction false} GroupSumTotal<R, K>(rows: seq<R>, key: R -> Option<K>, w: R -> nat)
    ensures Total(GroupSum(rows, key, w)) == SumKeyed(rows, key, w)
    decreases |rows|
  {
    if rows != [] {
      var init, last := rows[..|rows| - 1], rows[|rows| - 1];
      assert rows == init + [last];
      GroupSumTotal(init, key, w);
      SumKeyedSnoc(init, last, key, w);
      if key(last).Some? {
        TotalAccumulate(GroupSum(init, key, w), key(last).value, w(last));
      }
    }
  }

  /** With positive weights (counts, for instance) every group's aggregate is positive. */
  lemma {:induction false} GroupSumPositive<R, K>(rows: seq<R>, key: R -> Option<K>, w: R -> nat)
    requires forall i :: 0 <= i < |rows| ==> w(rows[i]) > 0
    ensures AllPositive(GroupSum(rows, key, w))
    decreases |rows|
  {
    if rows != [] {
      var init, last := rows[..|rows| - 1], rows[|rows| - 1];
      assert forall i :: 0 <= i < |init| ==> init[i] == rows[i];
      GroupSumPositive(init, key, w);
      if key(last).Some? {
        PositiveAccumulate(GroupSum(init, key, w), key(last).value, w(last));
      }
    }
  }

  /** The facts above for every key at once. */
  lemma {:induction false} GroupSumFacts<R, K>(rows: seq<R>, key: R -> Option<K>, w: R -> nat)
    ensures DistinctKeys(GroupSum(rows, key, w))
    ensures Total(GroupSum(rows, key, w)) == SumKeyed(rows, key, w)
    ensures forall k :: Lookup(GroupSum(rows, key, w), k) == SumWhere(rows, key, k, w)
    ensures forall k :: HasKey(GroupSum(rows, key, w), k) <==> exists i :: 0 <= i < |rows| && key(rows[i]) == Some(k)
  {
    GroupSumDistinct(rows, key, w);
    GroupSumTotal(rows, key, w);
    forall k
      ensures Lookup(GroupSum(rows, key, w), k) == SumWhere(rows, key, k, w)
      ensures HasKey(GroupSum(rows, key, w), k) <==> exists i :: 0 <= i < |rows| && key(rows[i]) == Some(k)
    {
      GroupSumLookup(rows, key, w, k);
      GroupSumHasKey(rows, key, w, k);
    }
  }

  /** Rows that agree on key and weight group identically. */
  lemma {:induction false} GroupSumSameColumns<R, K>(a: seq<R>, b: seq<R>, key: R -> Option<K>, w: R -> nat)
    requires |a| == |b|
    requires forall i :: 0 <= i < |a| ==> key(a[i]) == key(b[i]) && w(a[i]) == w(b[i])
    ensures GroupSum(a, key, w) == GroupSum(b, key, w)
    decreases |a|
  {
    if a != [] {
      GroupSumSameColumns(a[..|a| - 1], b[..|b| - 1], key, w);
    }
  }

  // ---------------------------------------------------------------------------
  // Grouping a grouped table again by the first part of its key

  /** The first component of a pair key. */
  function First<A, B>(e: ((A, B), nat)): Option<A>
  {
    Some(e.0.0)
  }

  /** The aggregate of an entry, used as the weight when a grouped table is grouped again. */
  function Value<K>(e: (K, nat)): nat
  {
    e.1
  }

  /** Sum of `w` over the rows whose pair key has first component `a`. */
  function SumWhereFirst<R, A(==), B>(rows: seq<R>, key: R -> Option<(A, B)>, a: A, w: R -> nat): nat
  {
    if rows == [] then 0
    else (if key(rows[0]).Some? && key(rows[0]).value.0 == a then w(rows[0]) else 0)
         + SumWhereFirst(rows[1..], key, a, w)
  }

  lemma {:induction false} SumWhereFirstSnoc<R, A, B>(rows: seq<R>, x: R, key: R -> Option<(A, B)>, a: A, w: R -> nat)
    ensures SumWhereFirst(rows + [x], key, a, w)
         == SumWhereFirst(rows, key, a, w) + (if key(x).Some? && key(x).value.0 == a then w(x) else 0)
  {
    if rows != [] {
      assert (rows + [x])[1..] == rows[1..] + [x];
      SumWhereFirstSnoc(rows[1..], x, key, a, w);
    }
  }

  lemma {:induction false} AccumulateSumFirst<A, B>(g: seq<((A, B), nat)>, p: (A, B), x: nat, a: A)
    ensures SumWhere(Accumulate(g, p, x), First, a, Value)
         == SumWhere(g, First, a, Value) + (if p.0 == a then x else 0)
  {
    if g != [] && g[0].0 != p {
      AccumulateSumFirst(g[1..], p, x, a);
    }
  }

  /** The entries with first component `a` add up to the rows' sum for `a`. */
  lemma {:induction false} GroupSumSumFirst<R, A, B>(rows: seq<R>, key: R -> Option<(A, B)>, w: R -> nat, a: A)
    ensures SumWhere(GroupSum(rows, key, w), First, a, Value) == SumWhereFirst(rows, key, a, w)
    decreases |rows|
  {
    if rows != [] {
      var init, last := rows[..|rows| - 1], rows[|rows| - 1];
      assert rows == init + [last];
      GroupSumSumFirst(init, key, w, a);
      SumWhereFirstSnoc(init, last, key, a, w);
      if key(last).Some? {
        AccumulateSumFirst(GroupSum(init, key, w), key(last).value, w(last), a);
      }
    }
  }

  /**
   * Grouping by (a, b) and then grouping the result by a gives, for every a,
   * the sum over the rows whose key has first component a: the two-step
   * aggregation loses nothing.
   */
  lemma {:induction false} RegroupLookup<R, A, B>(rows: seq<R>, key: R -> Option<(A, B)>, w: R -> nat, a: A)
    ensures Lookup(GroupSum(GroupSum(rows, key, w), First, Value), a) == SumWhereFirst(rows, key, a, w)
  {
    GroupSumLookup(GroupSum(rows, key, w), First, Value, a);
    GroupSumSumFirst(rows, key, w, a);
  }

  /** The second half of an entry's pair key, used to regroup by the second column. */
  function Second<A, B>(e: ((A, B), nat)): Option<B>
  {
    Some(e.0.1)
  }

  /** Sum of `w` over the rows whose pair key has second component `b`. */
  function SumWhereSecond<R, A, B(==)>(rows: seq<R>, key: R -> Option<(A, B)>, b: B, w: R -> nat): nat
  {
    if rows == [] then 0
    else (if key(rows[0]).Some? && key(rows[0]).value.1 == b then w(rows[0]) else 0)
         + SumWhereSecond(rows[1..], key, b, w)
  }

  lemma {:induction false} SumWhereSecondSnoc<R, A, B>(rows: seq<R>, x: R, key: R -> Option<(A, B)>, b: B, w: R -> nat)
    ensures SumWhereSecond(rows + [x], key, b, w)
         == SumWhereSecond(rows, key, b, w) + (if key(x).Some? && key(x).value.1 == b then w(x) else 0)
  {
    if rows != [] {
      assert (rows + [x])[1..] == rows[1..] + [x];
      SumWhereSecondSnoc(rows[1..], x, key, b, w);
    }
  }

  lemma {:induction false} AccumulateSumSecond<A, B>(g: seq<((A, B), nat)>, p: (A, B), x: nat, b: B)
    ensures SumWhere(Accumulate(g, p, x), Second, b, Value)
         == SumWhere(g, Second, b, Value) + (if p.1 == b then x else 0)
  {
    if g != [] && g[0].0 != p {
      AccumulateSumSecond(g[1..], p, x, b);
    }
  }

  /** The entries with second component `b` add up to the rows' sum for `b`. */
  lemma {:induction false} GroupSumSumSecond<R, A, B>(rows: seq<R>, key: R -> Option<(A, B)>, w: R -> nat, b: B)
    ensures SumWhere(GroupSum(rows, key, w), Second, b, Value) == SumWhereSecond(rows, key, b, w)
    decreases |rows|
  {
    if rows != [] {
      var init, last := rows[..|rows| - 1], rows[|rows| - 1];
      assert rows == init + [last];
      GroupSumSumSecond(init, key, w, b);
      SumWhereSecondSnoc(init, last, key, b, w);
      if key(last).Some? {
        AccumulateSumSecond(GroupSum(init, key, w), key(last).value, w(last), b);
      }
    }
  }
}
