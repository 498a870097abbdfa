/**
 * Orderings over rows and grouped tables: pandas `idxmax`/`idxmin` on a
 * column, `idxmax` on a grouped sum, `sort_values(ascending=False).head(n)`
 * and percentage shares.
 */
module Ranking {
  import opened Options
  import opened Grouping

  // ---------------------------------------------------------------------------
  // idxmax / idxmin on a column with missing values

  /**
   * `Series.idxmax()`: the position of the first row whose score is largest,
   * skipping rows with no score; None when no row has one (pandas raises).
   */
  function ArgMax<T>(s: seq<T>, f: T -> Option<int>): (r: Option<nat>)
    ensures r.None? <==> forall i :: 0 <= i < |s| ==> f(s[i]).None?
    ensures r.Some? ==> r.value < |s| && f(s[r.value]).Some?
    ensures r.Some? ==> forall j :: 0 <= j < |s| && f(s[j]).Some? ==> f(s[j]).value <= f(s[r.value]).value
    ensures r.Some? ==> forall j :: 0 <= j < r.value && f(s[j]).Some? ==> f(s[j]).value < f(s[r.value]).value
  {
    if s == [] then None
    else
      var rest := ArgMax(s[1..], f);
      match f(s[0])
      case None => if rest.None? then None else Some(rest.value + 1)
      case Some(v) =>
        if rest.None? || v >= f(s[rest.value + 1]).value then Some(0) else Some(rest.value + 1)
  }

  /** `Series.idxmin()`: the position of the first row whose score is smallest, skipping missing scores. */
  function ArgMin<T>(s: seq<T>, f: T -> Option<int>): (r: Option<nat>)
    ensures r.None? <==> forall i :: 0 <= i < |s| ==> f(s[i]).None?
    ensures r.Some? ==> r.value < |s| && f(s[r.value]).Some?
    ensures r.Some? ==> forall j :: 0 <= j < |s| && f(s[j]).Some? ==> f(s[j]).value >= f(s[r.value]).value
    ensures r.Some? ==> forall j :: 0 <= j < r.value && f(s[j]).Some? ==> f(s[j]).value > f(s[r.value]).value
  {
    if s == [] then None
    else
      var rest := ArgMin(s[1..], f);
      match f(s[0])
      case None => if rest.None? then None else Some(rest.value + 1)
      case Some(v) =>
        if rest.None? || v <= f(s[rest.value + 1]).value then Some(0) else Some(rest.value + 1)
  }

  // ---------------------------------------------------------------------------
  // Python's string order, which is the order of a groupby's index

  /** `a < b` on Python strings: lexicographic by code point. */
  predicate StrLt(a: string, b: string)
  {
    if a == [] then b != []
    else if b == [] then false
    else a[0] < b[0] || (a[0] == b[0] && StrLt(a[1..], b[1..]))
  }

  predicate StrLe(a: string, b: string)
  {
    a == b || StrLt(a, b)
  }

  lemma {:induction false} StrLtTrans(a: string, b: string, c: string)
    requires StrLt(a, b) && StrLt(b, c)
    ensures StrLt(a, c)
  {
    if a != [] && a[0] == b[0] && b[0] == c[0] {
      StrLtTrans(a[1..], b[1..], c[1..]);
    }
  }

  lemma {:induction false} StrLtTotal(a: string, b: string)
    ensures a == b || StrLt(a, b) || StrLt(b, a)
  {
    if a != [] && b != [] && a[0] == b[0] {
      StrLtTotal(a[1..], b[1..]);
      if a[1..] == b[1..] {
        assert a == [a[0]] + a[1..] && b == [b[0]] + b[1..];
      }
    }
  }

  lemma {:induction false} StrLeTrans(a: string, b: string, c: string)
    requires StrLe(a, b) && StrLe(b, c)
    ensures StrLe(a, c)
  {
    if StrLt(a, b) && StrLt(b, c) {
      StrLtTrans(a, b, c);
    }
  }

  /**
   * `groupby(key)[col].sum().idxmax()`: the group with the largest sum. pandas
   * orders a groupby's index by key, so among equal sums the smallest key wins.
   * None when there is no group (pandas raises).
   */
  function TopGroup(g: seq<(string, nat)>): (r: Option<(string, nat)>)
    ensures r.None? <==> g == []
    ensures r.Some? ==> r.value in g
    ensures r.Some? ==> forall i :: 0 <= i < |g| ==> g[i].1 <= r.value.1
    ensures r.Some? ==> forall i :: 0 <= i < |g| && g[i].1 == r.value.1 ==> StrLe(r.value.0, g[i].0)
  {
    if g == [] then None
    else if |g| == 1 then Some(g[0])
    else
      var b := TopGroup(g[1..]).value;
      if g[0].1 > b.1 || (g[0].1 == b.1 && StrLe(g[0].0, b.0)) then
        assert forall i :: 1 <= i < |g| ==> g[i] == g[1..][i - 1];
        TopGroupHeadWins(g, b);
        Some(g[0])
      else
        StrLtTotal(g[0].0, b.0);
        assert forall i :: 1 <= i < |g| ==> g[i] == g[1..][i - 1];
        Some(b)
  }

  /** When the head beats the best of the tail, it beats every entry, ties included. */
  lemma {:induction false} TopGroupHeadWins(g: seq<(string, nat)>, b: (string, nat))
    requires |g| > 1
    requires forall i :: 1 <= i < |g| ==> g[i].1 <= b.1
    requires forall i :: 1 <= i < |g| && g[i].1 == b.1 ==> StrLe(b.0, g[i].0)
    requires g[0].1 > b.1 || (g[0].1 == b.1 && StrLe(g[0].0, b.0))
    ensures forall i :: 0 <= i < |g| && g[i].1 == g[0].1 ==> StrLe(g[0].0, g[i].0)
  {
    forall i | 1 <= i < |g| && g[i].1 == g[0].1
      ensures StrLe(g[0].0, g[i].0)
    {
      StrLeTrans(g[0].0, b.0, g[i].0);
    }
  }

  // ---------------------------------------------------------------------------
  // sort_values(by=aggregate, ascending=False) and head(n)

  /** Aggregates never increase along the sequence. */
  predicate SortedDesc<K>(g: seq<(K, nat)>)
  {
    forall i, j :: 0 <= i < j < |g| ==> g[i].1 >= g[j].1
  }

  /** Inserts `e` before the first entry that is not larger (so equal entries keep their order). */
  function InsertDesc<K(==)>(e: (K, nat), g: seq<(K, nat)>): (r: seq<(K, nat)>)
    requires SortedDesc(g)
    ensures SortedDesc(r)
    ensures multiset(r) == multiset(g) + multiset{e}
    ensures |r| == |g| + 1
  {
    if g == [] || g[0].1 <= e.1 then [e] + g
    else
      var rest := InsertDesc(e, g[1..]);
      assert g == [g[0]] + g[1..];
      InsertBelowHead(e, g, rest);
      [g[0]] + rest
  }

  /** What is inserted below a larger head stays below it. */
  lemma {:induction false} InsertBelowHead<K>(e: (K, nat), g: seq<(K, nat)>, rest: seq<(K, nat)>)
    requires g != [] && SortedDesc(g) && e.1 < g[0].1
    requires multiset(rest) == multiset(g[1..]) + multiset{e}
    ensures forall i :: 0 <= i < |rest| ==> rest[i].1 <= g[0].1
  {
    forall i | 0 <= i < |rest|
      ensures rest[i].1 <= g[0].1
    {
      assert rest[i] in multiset(rest);
      if rest[i] != e {
        assert rest[i] in g[1..];
        var p :| 0 <= p < |g[1..]| && g[1..][p] == rest[i];
        assert g[p + 1] == rest[i];
      }
    }
  }

  /**
   * Descending sort by aggregate. pandas' default sort is not stable, so the
   * order among equal aggregates is not something the dashboard relies on;
   * this one keeps the input order.
   */
  function SortDesc<K(==)>(g: seq<(K, nat)>): (r: seq<(K, nat)>)
    ensures SortedDesc(r)
    ensures multiset(r) == multiset(g)
    ensures |r| == |g|
  {
    if g == [] then []
    else
      assert g == [g[0]] + g[1..];
      InsertDesc(g[0], SortDesc(g[1..]))
  }

  lemma {:induction false} TotalInsertDesc<K>(e: (K, nat), g: seq<(K, nat)>)
    requires SortedDesc(g)
    ensures Total(InsertDesc(e, g)) == e.1 + Total(g)
  {
    if g != [] && g[0].1 > e.1 {
      TotalInsertDesc(e, g[1..]);
    }
  }

  /** Sorting keeps the sum of the aggregates. */
  lemma {:induction false} TotalSortDesc<K>(g: seq<(K, nat)>)
    ensures Total(SortDesc(g)) == Total(g)
  {
    if g != [] {
      TotalSortDesc(g[1..]);
      TotalInsertDesc(g[0], SortDesc(g[1..]));
    }
  }

  /** A permutation has the same keys. */
  lemma {:induction false} HasKeyPermutation<K>(a: seq<(K, nat)>, b: seq<(K, nat)>, k: K)
    requires multiset(a) == multiset(b)
    ensures HasKey(a, k) <==> HasKey(b, k)
  {
    if HasKey(a, k) {
      var i :| 0 <= i < |a| && a[i].0 == k;
      assert a[i] in multiset(b);
      var j :| 0 <= j < |b| && b[j] == a[i];
    }
    if HasKey(b, k) {
      var i :| 0 <= i < |b| && b[i].0 == k;
      assert b[i] in multiset(a);
      var j :| 0 <= j < |a| && a[j] == b[i];
    }
  }

  lemma {:induction false} InsertDistinct<K>(e: (K, nat), g: seq<(K, nat)>)
    requires SortedDesc(g) && DistinctKeys(g) && !HasKey(g, e.0)
    ensures DistinctKeys(InsertDesc(e, g))
  {
    var r := InsertDesc(e, g);
    if g == [] || g[0].1 <= e.1 {
      assert r == [e] + g;
      forall j | 0 < j < |r|
        ensures r[0].0 != r[j].0
      {
        assert r[j] == g[j - 1];
      }
    } else {
      var rest := InsertDesc(e, g[1..]);
      assert r == [g[0]] + rest;
      forall i | 0 <= i < |g[1..]|
        ensures g[1..][i].0 != e.0
      {
        assert g[1..][i] == g[i + 1];
      }
      InsertDistinct(e, g[1..]);
      var b := g[1..] + [e];
      assert multiset(b) == multiset(g[1..]) + multiset{e};
      HasKeyPermutation(rest, b, g[0].0);
      assert !HasKey(b, g[0].0) by {
        forall i | 0 <= i < |b| ensures b[i].0 != g[0].0 {
          if i < |g[1..]| {
            assert b[i] == g[i + 1];
          }
        }
      }
      forall j | 0 < j < |r|
        ensures r[0].0 != r[j].0
      {
        assert r[j] == rest[j - 1];
      }
    }
  }

  /** Sorting keeps the keys distinct. */
  lemma {:induction false} SortDistinct<K>(g: seq<(K, nat)>)
    requires DistinctKeys(g)
    ensures DistinctKeys(SortDesc(g))
  {
    if g != [] {
      var rest := SortDesc(g[1..]);
      SortDistinct(g[1..]);
      forall i | 0 <= i < |g[1..]|
        ensures g[1..][i].0 != g[0].0
      {
        assert g[1..][i] == g[i + 1];
      }
      HasKeyPermutation(rest, g[1..], g[0].0);
      InsertDistinct(g[0], rest);
    }
  }

  /** One entry of a sorted groupby is the sum over the rows of its key, and that key occurs in some row. */
  lemma {:induction false} SortedGroupEntry<R, K>(rows: seq<R>, key: R -> Option<K>, w: R -> nat, s: seq<(K, nat)>, i: nat)
    requires s == SortDesc(GroupSum(rows, key, w)) && i < |s|
    ensures s[i].1 == SumWhere(rows, key, s[i].0, w)
    ensures exists j :: 0 <= j < |rows| && key(rows[j]) == Some(s[i].0)
  {
    var g := GroupSum(rows, key, w);
    assert s[i] in multiset(g);
    var p :| 0 <= p < |g| && g[p] == s[i];
    GroupSumDistinct(rows, key, w);
    LookupEntry(g, p);
    GroupSumLookup(rows, key, w, s[i].0);
    assert HasKey(g, s[i].0);
    GroupSumHasKey(rows, key, w, s[i].0);
  }

  /** Every key that occurs in a row has an entry in the sorted groupby. */
  lemma {:induction false} SortedGroupHasKey<R, K>(rows: seq<R>, key: R -> Option<K>, w: R -> nat, s: seq<(K, nat)>, j: nat)
    requires s == SortDesc(GroupSum(rows, key, w)) && j < |rows| && key(rows[j]).Some?
    ensures HasKey(s, key(rows[j]).value)
  {
    GroupSumHasKey(rows, key, w, key(rows[j]).value);
    HasKeyPermutation(s, GroupSum(rows, key, w), key(rows[j]).value);
  }

  /** The entries of a sorted groupby are the groups: each is the sum over its key's rows, and every key is there. */
  lemma {:induction false} SortedGroupsFacts<R, K>(rows: seq<R>, key: R -> Option<K>, w: R -> nat, s: seq<(K, nat)>)
    requires s == SortDesc(GroupSum(rows, key, w))
    ensures DistinctKeys(s)
    ensures forall i :: 0 <= i < |s| ==> s[i].1 == SumWhere(rows, key, s[i].0, w)
    ensures forall i :: 0 <= i < |s| ==> exists j :: 0 <= j < |rows| && key(rows[j]) == Some(s[i].0)
    ensures forall j :: 0 <= j < |rows| && key(rows[j]).Some? ==> HasKey(s, key(rows[j]).value)
    ensures Total(s) == SumKeyed(rows, key, w)
  {
    GroupSumDistinct(rows, key, w);
    SortDistinct(GroupSum(rows, key, w));
    TotalSortDesc(GroupSum(rows, key, w));
    GroupSumTotal(rows, key, w);
    forall i | 0 <= i < |s|
      ensures s[i].1 == SumWhere(rows, key, s[i].0, w)
      ensures exists j :: 0 <= j < |rows| && key(rows[j]) == Some(s[i].0)
    {
      SortedGroupEntry(rows, key, w, s, i);
    }
    forall j | 0 <= j < |rows| && key(rows[j]).Some?
      ensures HasKey(s, key(rows[j]).value)
    {
      SortedGroupHasKey(rows, key, w, s, j);
    }
  }

  function Min(a: nat, b: nat): nat
  {
    if a <= b then a else b
  }

  /** `sort_values(ascending=False).head(n)`. */
  function TopN<K(==)>(g: seq<(K, nat)>, n: nat): (top: seq<(K, nat)>)
    ensures |top| <= n && |top| <= |g|
  {
    SortDesc(g)[..Min(n, |g|)]
  }

  /** The top n are at most n entries of the table, in descending order, with distinct keys when the table has them. */
  lemma {:induction false} TopNShape<K>(g: seq<(K, nat)>, n: nat)
    ensures |TopN(g, n)| == Min(n, |g|) <= n
    ensures SortedDesc(TopN(g, n))
    ensures forall i :: 0 <= i < |TopN(g, n)| ==> TopN(g, n)[i] in g
    ensures DistinctKeys(g) ==> DistinctKeys(TopN(g, n))
  {
    var s := SortDesc(g);
    forall i | 0 <= i < |TopN(g, n)|
      ensures TopN(g, n)[i] in g
    {
      assert s[i] in multiset(g);
    }
    if DistinctKeys(g) {
      SortDistinct(g);
    }
  }

  /** Every kept entry's aggregate is at least that of every entry whose key was dropped. */
  lemma {:induction false} TopNDominates<K>(g: seq<(K, nat)>, n: nat, e: (K, nat))
    requires e in g && !HasKey(TopN(g, n), e.0)
    ensures forall i :: 0 <= i < |TopN(g, n)| ==> TopN(g, n)[i].1 >= e.1
  {
    var s := SortDesc(g);
    var m := Min(n, |g|);
    assert e in multiset(s);
    var j :| 0 <= j < |s| && s[j] == e;
    assert forall i :: 0 <= i < m ==> s[i] == TopN(g, n)[i];
    assert j >= m;
  }

  /** When the table has at most n entries, nothing is dropped. */
  lemma {:induction false} TopNKeepsAll<K>(g: seq<(K, nat)>, n: nat, k: K)
    requires |g| <= n
    ensures HasKey(TopN(g, n), k) <==> HasKey(g, k)
  {
    assert TopN(g, n) == SortDesc(g);
    HasKeyPermutation(SortDesc(g), g, k);
  }

  // ---------------------------------------------------------------------------
  // Percentage shares

  /** `part / whole * 100`; None stands for the NaN that pandas yields for 0 / 0. */
  function Percent(part: nat, whole: nat): (r: Option<real>)
    ensures r.None? <==> whole == 0
    ensures r.Some? ==> r.value * (whole as real) == (part as real) * 100.0
    ensures r.Some? ==> 0.0 <= r.value && (part <= whole ==> r.value <= 100.0)
  {
    if whole == 0 then None else Some((part as real) / (whole as real) * 100.0)
  }

  /** Sum of the shares of all entries of `g` in `whole`. */
  function SharesSum<K>(g: seq<(K, nat)>, whole: nat): real
    requires whole > 0
  {
    if g == [] then 0.0 else Percent(g[0].1, whole).value + SharesSum(g[1..], whole)
  }

  lemma {:induction false} SharesSumScaled<K>(g: seq<(K, nat)>, whole: nat)
    requires whole > 0
    ensures SharesSum(g, whole) == (Total(g) as real) / (whole as real) * 100.0
  {
    if g != [] {
      SharesSumScaled(g[1..], whole);
      ShareOfSum(g[0].1 as real, Total(g[1..]) as real, whole as real);
    }
  }

  /** Shares of two parts of the same whole add up to the share of their sum. */
  lemma {:induction false} ShareOfSum(a: real, b: real, t: real)
    requires t > 0.0
    ensures a / t * 100.0 + b / t * 100.0 == (a + b) / t * 100.0
  {
  }

  /** When the entries add up to the whole, their percentages add up to 100. */
  lemma {:induction false} SharesSumTo100<K>(g: seq<(K, nat)>, whole: nat)
    requires whole > 0 && Total(g) == whole
    ensures SharesSum(g, whole) == 100.0
  {
    SharesSumScaled(g, whole);
    ShareOfWhole(whole as real);
  }

  /** The whole is 100 percent of itself. */
  lemma {:induction false} ShareOfWhole(t: real)
    requires t > 0.0
    ensures t / t * 100.0 == 100.0
  {
  }
}
