/** The query shapes the analytics code builds with the ORM, over rows held
    in a sequence: filter(...), count(), values(key).annotate(count=Count('id')),
    order_by('-count') and [:limit]. Groups appear in the order their key is
    first met and order_by is stable, which fixes the order SQL leaves open. */
module Grouping {
  import opened Base

  predicate NoDup<T(==)>(s: seq<T>) {
    forall i, j :: 0 <= i < j < |s| ==> s[i] != s[j]
  }

  /** queryset.filter(p). */
  function Filter<T>(xs: seq<T>, p: T -> bool): (r: seq<T>)
    ensures |r| <= |xs|
    ensures forall i :: 0 <= i < |r| ==> r[i] in xs && p(r[i])
    ensures forall i :: 0 <= i < |xs| && p(xs[i]) ==> xs[i] in r
  {
    if xs == [] then []
    else
      assert forall i :: 1 <= i < |xs| ==> xs[i] == xs[1..][i - 1];
      (if p(xs[0]) then [xs[0]] else []) + Filter(xs[1..], p)
  }

  /** Filtering keeps every row that passes as many times as it occurs,
      and nothing else. */
  lemma {:induction false} FilterMultiset<T>(xs: seq<T>, p: T -> bool)
    ensures multiset(Filter(xs, p)) <= multiset(xs)
    ensures forall x :: x in xs && p(x) ==> multiset(Filter(xs, p))[x] == multiset(xs)[x]
  {
    if xs != [] {
      var tail := xs[1..];
      FilterMultiset(tail, p);
      assert xs == [xs[0]] + tail;
      assert multiset(Filter(xs, p)) == (if p(xs[0]) then multiset{xs[0]} else multiset{}) + multiset(Filter(tail, p));
    }
  }

  /** Filtering keeps the rows' order: it distributes over concatenation. */
  lemma {:induction false} FilterAppend<T>(xs: seq<T>, ys: seq<T>, p: T -> bool)
    ensures Filter(xs + ys, p) == Filter(xs, p) + Filter(ys, p)
  {
    if xs != [] {
      assert (xs + ys)[1..] == xs[1..] + ys;
      FilterAppend(xs[1..], ys, p);
    } else {
      assert xs + ys == ys;
    }
  }

  /** A filter every row passes returns the rows unchanged. */
  lemma {:induction false} FilterKeepsAll<T>(xs: seq<T>, p: T -> bool)
    requires forall i :: 0 <= i < |xs| ==> p(xs[i])
    ensures Filter(xs, p) == xs
  {
    if xs != [] {
      FilterKeepsAll(xs[1..], p);
      assert xs == [xs[0]] + xs[1..];
    }
  }

  /** queryset.filter(p).count() computed without building the filtered rows. */
  function CountWhere<T>(xs: seq<T>, p: T -> bool): (n: nat)
    ensures n <= |xs|
  {
    if xs == [] then 0 else (if p(xs[0]) then 1 else 0) + CountWhere(xs[1..], p)
  }

  /** Predicates that agree on every row count the same rows. */
  lemma {:induction false} CountWhereSame<T>(xs: seq<T>, p: T -> bool, q: T -> bool)
    requires forall i :: 0 <= i < |xs| ==> p(xs[i]) == q(xs[i])
    ensures CountWhere(xs, p) == CountWhere(xs, q)
  {
    if xs != [] {
      assert forall i :: 0 <= i < |xs[1..]| ==> xs[1..][i] == xs[i + 1];
      CountWhereSame(xs[1..], p, q);
    }
  }

  lemma {:induction false} FilterLength<T>(xs: seq<T>, p: T -> bool)
    ensures |Filter(xs, p)| == CountWhere(xs, p)
  {
    if xs != [] {
      FilterLength(xs[1..], p);
    }
  }

  /** Filtering twice is filtering by both conditions. */
  lemma {:induction false} FilterFilter<T>(xs: seq<T>, p: T -> bool, q: T -> bool)
    ensures Filter(Filter(xs, p), q) == Filter(xs, x => p(x) && q(x))
  {
    if xs != [] {
      FilterFilter(xs[1..], p, q);
      var f := Filter(xs[1..], p);
      if p(xs[0]) {
        assert Filter(xs, p) == [xs[0]] + f;
        assert ([xs[0]] + f)[1..] == f;
      } else {
        assert Filter(xs, p) == f;
      }
    }
  }

  /** values(key): the key of every row, in order. */
  function Project<T, K>(xs: seq<T>, f: T -> K): (r: seq<K>)
    ensures |r| == |xs|
    ensures forall i :: 0 <= i < |xs| ==> r[i] == f(xs[i])
  {
    seq(|xs|, i requires 0 <= i < |xs| => f(xs[i]))
  }

  /** How many times k occurs. */
  function Count<K(==)>(xs: seq<K>, k: K): (n: nat)
    ensures n <= |xs|
    ensures n > 0 <==> k in xs
  {
    if xs == [] then 0
    else
      assert k in xs <==> xs[0] == k || k in xs[1..];
      (if xs[0] == k then 1 else 0) + Count(xs[1..], k)
  }

  /** The distinct keys, in the order they first occur. */
  function Keys<K(==)>(xs: seq<K>): (r: seq<K>)
    ensures NoDup(r)
    ensures forall i :: 0 <= i < |r| ==> r[i] in xs
    ensures forall i :: 0 <= i < |xs| ==> xs[i] in r
  {
    if xs == [] then []
    else
      var init := Keys(xs[..|xs| - 1]);
      assert xs == xs[..|xs| - 1] + [xs[|xs| - 1]];
      if xs[|xs| - 1] in init then init else init + [xs[|xs| - 1]]
  }

  predicate KeysDistinct<K(==)>(g: seq<(K, nat)>) {
    forall i, j :: 0 <= i < j < |g| ==> g[i].0 != g[j].0
  }

  /** Every entry carries a key of xs with its number of occurrences. */
  predicate CountsOf<K(==)>(xs: seq<K>, g: seq<(K, nat)>) {
    forall i :: 0 <= i < |g| ==> g[i].0 in xs && g[i].1 == Count(xs, g[i].0)
  }

  /** The grouping with every key renamed by f: the counts and their
      order are kept. */
  function Relabel<K, L>(g: seq<(K, nat)>, f: K -> L): (r: seq<(L, nat)>)
    ensures |r| == |g| && forall i :: 0 <= i < |g| ==> r[i] == (f(g[i].0), g[i].1)
    ensures SortedByCount(g) ==> SortedByCount(r)
  {
    seq(|g|, i requires 0 <= i < |g| => (f(g[i].0), g[i].1))
  }

  /** Entries of a grouping inherit whatever holds of every key of xs. */
  lemma KeysInherit<K>(xs: seq<K>, g: seq<(K, nat)>, p: K -> bool)
    requires CountsOf(xs, g)
    requires forall j :: 0 <= j < |xs| ==> p(xs[j])
    ensures forall i :: 0 <= i < |g| ==> p(g[i].0)
  {
    forall i | 0 <= i < |g| ensures p(g[i].0) {
      var j :| 0 <= j < |xs| && xs[j] == g[i].0;
    }
  }

  /** g is a GROUP BY of xs: one entry per distinct key, with its count. */
  predicate IsGrouping<K(==)>(xs: seq<K>, g: seq<(K, nat)>) {
    CountsOf(xs, g)
    && KeysDistinct(g)
    && (forall k :: k in xs ==> (k, Count(xs, k)) in g)
  }

  /** values(key).annotate(count=Count('id')). */
  function Group<K(==)>(xs: seq<K>): (g: seq<(K, nat)>)
    ensures IsGrouping(xs, g)
  {
    var ks := Keys(xs);
    var g := seq(|ks|, i requires 0 <= i < |ks| => (ks[i], Count(xs, ks[i])));
    assert forall k :: k in xs ==> (k, Count(xs, k)) in g by {
      forall k | k in xs ensures (k, Count(xs, k)) in g {
        var i :| 0 <= i < |ks| && ks[i] == k;
        assert g[i] == (k, Count(xs, k));
      }
    }
    g
  }

  /** Sum of the counts of a grouping. */
  function Total<K>(g: seq<(K, nat)>): nat {
    if g == [] then 0 else g[0].1 + Total(g[1..])
  }

  /** Sum over ks of the occurrences of each key in xs. */
  function SumCounts<K(==)>(xs: seq<K>, ks: seq<K>): nat {
    if ks == [] then 0 else Count(xs, ks[0]) + SumCounts(xs, ks[1..])
  }

  function KeysOf<K>(g: seq<(K, nat)>): (ks: seq<K>)
    ensures |ks| == |g|
    ensures forall i :: 0 <= i < |g| ==> ks[i] == g[i].0
  {
    seq(|g|, i requires 0 <= i < |g| => g[i].0)
  }

  lemma {:induction false} TotalIsSumCounts<K>(xs: seq<K>, g: seq<(K, nat)>)
    requires CountsOf(xs, g)
    ensures Total(g) == SumCounts(xs, KeysOf(g))
  {
    if g != [] {
      TotalIsSumCounts(xs, g[1..]);
      assert KeysOf(g)[1..] == KeysOf(g[1..]);
    }
  }

  lemma {:induction false} SumCountsStep<K>(xs: seq<K>, ks: seq<K>)
    requires xs != []
    ensures SumCounts(xs, ks) == Count(ks, xs[0]) + SumCounts(xs[1..], ks)
  {
    if ks != [] {
      SumCountsStep(xs, ks[1..]);
    }
  }

  lemma {:induction false} NoDupCountAtMostOne<K>(ks: seq<K>, x: K)
    requires NoDup(ks)
    ensures Count(ks, x) <= 1
  {
    if ks != [] {
      assert NoDup(ks[1..]) by {
        forall i, j | 0 <= i < j < |ks[1..]| ensures ks[1..][i] != ks[1..][j] {
          assert ks[1..][i] == ks[i + 1] && ks[1..][j] == ks[j + 1];
        }
      }
      NoDupCountAtMostOne(ks[1..], x);
      if ks[0] == x {
        assert x !in ks[1..] by {
          forall j | 0 <= j < |ks[1..]| ensures ks[1..][j] != x {
            assert ks[1..][j] == ks[j + 1];
          }
        }
      }
    }
  }

  lemma {:induction false} SumCountsCoversAll<K>(xs: seq<K>, ks: seq<K>)
    requires NoDup(ks)
    requires forall x :: x in xs ==> x in ks
    ensures SumCounts(xs, ks) == |xs|
  {
    if xs == [] {
      assert forall i :: 0 <= i < |ks| ==> Count(xs, ks[i]) == 0;
      ZeroSumCounts(xs, ks);
    } else {
      SumCountsStep(xs, ks);
      NoDupCountAtMostOne(ks, xs[0]);
      SumCountsCoversAll(xs[1..], ks);
    }
  }

  lemma {:induction false} ZeroSumCounts<K>(xs: seq<K>, ks: seq<K>)
    requires forall i :: 0 <= i < |ks| ==> Count(xs, ks[i]) == 0
    ensures SumCounts(xs, ks) == 0
  {
    if ks != [] {
      assert forall i :: 0 <= i < |ks[1..]| ==> ks[1..][i] == ks[i + 1];
      ZeroSumCounts(xs, ks[1..]);
    }
  }

  /** The counts of a grouping add up to the number of rows. */
  lemma GroupingTotal<K>(xs: seq<K>, g: seq<(K, nat)>)
    requires IsGrouping(xs, g)
    ensures Total(g) == |xs|
  {
    TotalIsSumCounts(xs, g);
    var ks := KeysOf(g);
    forall x | x in xs ensures x in ks {
      var i :| 0 <= i < |g| && g[i] == (x, Count(xs, x));
      assert ks[i] == x;
    }
    SumCountsCoversAll(xs, ks);
  }

  // ---------------------------------------------------------------------
  // order_by('-count') and [:limit]
  // ---------------------------------------------------------------------

  predicate SortedByCount<K>(g: seq<(K, nat)>) {
    forall i, j :: 0 <= i < j < |g| ==> g[i].1 >= g[j].1
  }

  function Insert<K(==)>(e: (K, nat), s: seq<(K, nat)>): (r: seq<(K, nat)>)
    requires SortedByCount(s)
    ensures |r| == |s| + 1
    ensures r[0] == e || (s != [] && r[0] == s[0])
    ensures SortedByCount(r)
    ensures multiset(r) == multiset(s) + multiset{e}
  {
    if s == [] || e.1 >= s[0].1 then [e] + s
    else
      var t := Insert(e, s[1..]);
      assert s == [s[0]] + s[1..];
      [s[0]] + t
  }

  lemma {:induction false} InsertNoDup<K>(e: (K, nat), s: seq<(K, nat)>)
    requires SortedByCount(s) && NoDup(s) && e !in s
    ensures NoDup(Insert(e, s))
  {
    if s != [] && e.1 < s[0].1 {
      NoDupTail(s);
      InsertNoDup(e, s[1..]);
      var t := Insert(e, s[1..]);
      assert s[0] !in multiset(t);
      assert Insert(e, s) == [s[0]] + t;
    }
  }

  lemma NoDupTail<T>(s: seq<T>)
    requires s != []
    ensures NoDup(s) ==> NoDup(s[1..]) && s[0] !in s[1..]
  {
    if NoDup(s) {
      forall i, j | 0 <= i < j < |s[1..]| ensures s[1..][i] != s[1..][j] {
        assert s[1..][i] == s[i + 1] && s[1..][j] == s[j + 1];
      }
      forall j | 0 <= j < |s[1..]| ensures s[1..][j] != s[0] {
        assert s[1..][j] == s[j + 1];
      }
    }
  }

  /** A stable sort by descending count: order_by('-count'). */
  function SortByCount<K(==)>(g: seq<(K, nat)>): (r: seq<(K, nat)>)
    ensures |r| == |g|
    ensures SortedByCount(r)
    ensures multiset(r) == multiset(g)
  {
    if g == [] then []
    else
      assert g == [g[0]] + g[1..];
      Insert(g[0], SortByCount(g[1..]))
  }

  lemma {:induction false} SortByCountNoDup<K>(g: seq<(K, nat)>)
    requires NoDup(g)
    ensures NoDup(SortByCount(g))
  {
    if g != [] {
      NoDupTail(g);
      SortByCountNoDup(g[1..]);
      assert g[0] !in multiset(SortByCount(g[1..]));
      InsertNoDup(g[0], SortByCount(g[1..]));
    }
  }

  function KeySet<K>(g: seq<(K, nat)>): set<K> {
    set i | 0 <= i < |g| :: g[i].0
  }

  /** Distinct keys: as many keys as entries. */
  lemma {:induction false} KeySetSize<K>(g: seq<(K, nat)>)
    requires KeysDistinct(g)
    ensures |KeySet(g)| == |g|
  {
    if g != [] {
      var t := g[1..];
      assert KeysDistinct(t) by {
        forall i, j | 0 <= i < j < |t| ensures t[i].0 != t[j].0 {
          assert t[i] == g[i + 1] && t[j] == g[j + 1];
        }
      }
      KeySetSize(t);
      assert KeySet(g) == KeySet(t) + {g[0].0} by {
        forall k | k in KeySet(g) ensures k in KeySet(t) + {g[0].0} {
          var i :| 0 <= i < |g| && g[i].0 == k;
          if i > 0 { assert t[i - 1] == g[i]; }
        }
        forall k | k in KeySet(t) ensures k in KeySet(g) {
          var i :| 0 <= i < |t| && t[i].0 == k;
          assert g[i + 1] == t[i];
        }
      }
      assert g[0].0 !in KeySet(t) by {
        forall i | 0 <= i < |t| ensures t[i].0 != g[0].0 {
          assert t[i] == g[i + 1];
        }
      }
    }
  }

  /** Distinct keys make distinct entries. */
  lemma DistinctKeysNoDup<K>(g: seq<(K, nat)>)
    requires KeysDistinct(g)
    ensures NoDup(g)
  {
  }

  /** Entries that carry their own key's count and are distinct have distinct keys. */
  lemma NoDupCountsKeysDistinct<K>(xs: seq<K>, g: seq<(K, nat)>)
    requires CountsOf(xs, g) && NoDup(g)
    ensures KeysDistinct(g)
  {
  }

  /** Reordering a grouping leaves a grouping. */
  lemma PermutedGrouping<K>(xs: seq<K>, g: seq<(K, nat)>, h: seq<(K, nat)>)
    requires IsGrouping(xs, g) && multiset(h) == multiset(g) && NoDup(h)
    ensures IsGrouping(xs, h)
  {
    forall i | 0 <= i < |h| ensures h[i].0 in xs && h[i].1 == Count(xs, h[i].0) {
      assert h[i] in multiset(g);
      var j :| 0 <= j < |g| && g[j] == h[i];
    }
    NoDupCountsKeysDistinct(xs, h);
    forall k | k in xs ensures (k, Count(xs, k)) in h {
      assert (k, Count(xs, k)) in multiset(g);
    }
  }

  /** The grouping of xs ordered by descending count: order_by('-count'). */
  function Ranked<K(==)>(xs: seq<K>): (r: seq<(K, nat)>)
    ensures |r| == |Keys(xs)|
    ensures IsGrouping(xs, r) && SortedByCount(r)
  {
    var g := Group(xs);
    DistinctKeysNoDup(g);
    var r := SortByCount(g);
    SortByCountNoDup(g);
    PermutedGrouping(xs, g, r);
    r
  }

  /** r is a top-`limit` ranking of xs: at most `limit` exact, distinct
      entries by descending count, and a key is left out only when r is
      full of keys counted at least as often. */
  predicate IsTop<K(==)>(xs: seq<K>, r: seq<(K, nat)>, limit: nat) {
    |r| <= limit
    && CountsOf(xs, r) && KeysDistinct(r) && SortedByCount(r)
    && forall k :: k in xs && (k, Count(xs, k)) !in r ==>
         |r| == limit && forall i :: 0 <= i < |r| ==> r[i].1 >= Count(xs, k)
  }

  /** values(key).annotate(count=Count('id')).order_by('-count')[:limit]. */
  function Top<K(==)>(xs: seq<K>, limit: nat): (r: seq<(K, nat)>)
    ensures IsTop(xs, r, limit)
  {
    var s := Ranked(xs);
    RankedPrefix(xs, s, limit);
    Take(s, limit)
  }

  /** A prefix of a ranked grouping keeps the entries it holds exact, and
      every entry it drops counts no more than any entry it keeps. */
  lemma RankedPrefix<K>(xs: seq<K>, s: seq<(K, nat)>, limit: nat)
    requires IsGrouping(xs, s) && SortedByCount(s)
    ensures CountsOf(xs, Take(s, limit)) && KeysDistinct(Take(s, limit))
    ensures SortedByCount(Take(s, limit))
    ensures forall k :: k in xs && (k, Count(xs, k)) !in Take(s, limit) ==>
              |Take(s, limit)| == limit
              && forall i :: 0 <= i < |Take(s, limit)| ==> Take(s, limit)[i].1 >= Count(xs, k)
  {
    var r := Take(s, limit);
    assert forall i :: 0 <= i < |r| ==> r[i] == s[i];
    forall k | k in xs && (k, Count(xs, k)) !in r
      ensures |r| == limit && forall i :: 0 <= i < |r| ==> r[i].1 >= Count(xs, k)
    {
      var j :| 0 <= j < |s| && s[j] == (k, Count(xs, k));
      assert j >= |r|;
    }
  }

  /** Once the limit admits every key, no count is lost. */
  lemma TopWithinLimit<K>(xs: seq<K>, limit: nat)
    requires |Keys(xs)| <= limit
    ensures Total(Top(xs, limit)) == |xs|
  {
    var s := Ranked(xs);
    assert Top(xs, limit) == s;
    GroupingTotal(xs, s);
  }
}
