/** Sequence operations shared by the history queries, the top-liked ranking and
    the client's image list: filtering (`Array.prototype.filter`, a `where`
    clause), capping (`take`, `slice(0, n)`) and ordering by a numeric key,
    largest first (`orderBy ... desc`, `sort((a, b) => b.k - a.k)`). */
module Sequences {
  import opened Common

  // ---------------------------------------------------------------- filter

  function Filter<T>(s: seq<T>, p: T -> bool): (r: seq<T>)
    ensures |r| <= |s|
    ensures forall i :: 0 <= i < |r| ==> r[i] in s && p(r[i])
    ensures forall i :: 0 <= i < |s| && p(s[i]) ==> s[i] in r
  {
    if s == [] then []
    else if p(s[0]) then [s[0]] + Filter(s[1..], p)
    else Filter(s[1..], p)
  }

  /** Filtering distributes over concatenation: it keeps the survivors in the
      order they had, which together with Filter's own contract determines it. */
  lemma {:induction false} FilterConcat<T>(a: seq<T>, b: seq<T>, p: T -> bool)
    ensures Filter(a + b, p) == Filter(a, p) + Filter(b, p)
  {
    if a == [] {
      assert a + b == b;
    } else {
      var ab := a + b;
      assert ab != [] && ab[0] == a[0] && ab[1..] == a[1..] + b;
      FilterConcat(a[1..], b, p);
    }
  }

  /** Filtering keeps every occurrence of a surviving element and none of the others. */
  lemma {:induction false} FilterMultiset<T>(s: seq<T>, p: T -> bool, x: T)
    ensures multiset(Filter(s, p))[x] == if p(x) then multiset(s)[x] else 0
  {
    if s != [] {
      FilterMultiset(s[1..], p, x);
      assert s == [s[0]] + s[1..];
    }
  }

  /** Filtering by a stricter test after a looser one is filtering by the
      stricter test alone. */
  lemma {:induction false} FilterFilter<T>(s: seq<T>, p: T -> bool, q: T -> bool)
    requires forall x :: q(x) ==> p(x)
    ensures Filter(Filter(s, p), q) == Filter(s, q)
  {
    if s != [] {
      FilterFilter(s[1..], p, q);
    }
  }

  /** A sequence whose elements all pass the test is left as it is. */
  lemma {:induction false} FilterAll<T>(s: seq<T>, p: T -> bool)
    requires forall i :: 0 <= i < |s| ==> p(s[i])
    ensures Filter(s, p) == s
  {
    if s != [] {
      FilterAll(s[1..], p);
    }
  }

  // ------------------------------------------------------------------ take

  function Min(a: nat, b: nat): nat
  {
    if a <= b then a else b
  }

  /** The first `limit` elements, or all of them when no limit is given. */
  function Take<T>(s: seq<T>, limit: Option<nat>): (r: seq<T>)
    ensures limit.None? ==> r == s
    ensures limit.Some? ==> |r| == Min(limit.value, |s|)
    ensures r <= s
    ensures multiset(r) <= multiset(s)
  {
    assert limit.Some? && limit.value < |s| ==> s == s[..limit.value] + s[limit.value..];
    match limit
    case None => s
    case Some(n) => if n < |s| then s[..n] else s
  }

  // ------------------------------------------------------------------- map

  function MapSeq<T, U>(s: seq<T>, f: T -> U): (r: seq<U>)
    ensures |r| == |s|
    ensures forall i :: 0 <= i < |s| ==> r[i] == f(s[i])
  {
    if s == [] then [] else [f(s[0])] + MapSeq(s[1..], f)
  }

  lemma AppendAssoc<T>(a: seq<T>, b: seq<T>, c: seq<T>)
    ensures a + b + c == a + (b + c)
  {
  }

  lemma {:induction false} MapSeqConcat<T, U>(a: seq<T>, b: seq<T>, f: T -> U)
    ensures MapSeq(a + b, f) == MapSeq(a, f) + MapSeq(b, f)
  {
    if a != [] {
      MapSeqConcat(a[1..], b, f);
      assert (a + b)[1..] == a[1..] + b;
    }
  }

  function SumNat(s: seq<nat>): nat
  {
    if s == [] then 0 else s[0] + SumNat(s[1..])
  }

  /** Every element of a sub-multiset occurs in the larger sequence. */
  lemma SubMultisetMembers<T>(r: seq<T>, s: seq<T>)
    requires multiset(r) <= multiset(s)
    ensures forall i :: 0 <= i < |r| ==> r[i] in s
  {
    forall i | 0 <= i < |r| ensures r[i] in s {
      assert r[i] in multiset(r);
    }
  }

  // --------------------------------------------------------------- sorting

  /** Ordered by `key`, largest first. */
  ghost predicate NonIncreasing<T>(s: seq<T>, key: T -> int)
  {
    forall i, j :: 0 <= i < j < |s| ==> key(s[i]) >= key(s[j])
  }

  /** The head of a sequence sorted largest first bounds every element. */
  lemma HeadDominates<T>(s: seq<T>, key: T -> int, y: T)
    requires NonIncreasing(s, key)
    requires y in s
    ensures key(y) <= key(s[0])
  {
    var k :| 0 <= k < |s| && s[k] == y;
    if k > 0 {
      assert key(s[0]) >= key(s[k]);
    }
  }

  /** Inserts `x` before the first element whose key does not exceed its own. */
  function Insert<T>(x: T, s: seq<T>, key: T -> int): (r: seq<T>)
    requires NonIncreasing(s, key)
    ensures |r| == |s| + 1
    ensures multiset(r) == multiset(s) + multiset{x}
    ensures NonIncreasing(r, key)
  {
    if s == [] || key(s[0]) <= key(x) then
      ConsSorted(x, s, key);
      [x] + s
    else
      var rest := Insert(x, s[1..], key);
      assert key(rest[0]) <= key(s[0]) by {
        assert rest[0] in multiset(s[1..]) + multiset{x};
        if rest[0] != x {
          HeadDominates(s, key, rest[0]);
        }
      }
      ConsSorted(s[0], rest, key);
      assert s == [s[0]] + s[1..];
      [s[0]] + rest
  }

  /** A head no smaller than the first element keeps a sorted tail sorted. */
  lemma ConsSorted<T>(h: T, t: seq<T>, key: T -> int)
    requires NonIncreasing(t, key)
    requires t == [] || key(t[0]) <= key(h)
    ensures NonIncreasing([h] + t, key)
  {
    var r := [h] + t;
    forall i, j | 0 <= i < j < |r| ensures key(r[i]) >= key(r[j]) {
      if i == 0 && j > 1 {
        assert key(t[0]) >= key(t[j - 1]);
      }
    }
  }

  /** A stable insertion sort, largest key first: the order a `desc` query or a
      descending comparator produces. */
  function SortDesc<T>(s: seq<T>, key: T -> int): (r: seq<T>)
    ensures |r| == |s|
    ensures multiset(r) == multiset(s)
    ensures NonIncreasing(r, key)
  {
    if s == [] then []
    else
      assert s == [s[0]] + s[1..];
      Insert(s[0], SortDesc(s[1..], key), key)
  }

  /** The first `n` of a sequence sorted largest first dominate every element
      left out: this is what "top n" means. */
  lemma TopPrefixDominates<T>(sorted: seq<T>, key: T -> int, n: nat, x: T, y: T)
    requires NonIncreasing(sorted, key)
    requires n <= |sorted|
    requires x in sorted[..n]
    requires y in multiset(sorted) - multiset(sorted[..n])
    ensures key(x) >= key(y)
  {
    assert sorted == sorted[..n] + sorted[n..];
    assert multiset(sorted) == multiset(sorted[..n]) + multiset(sorted[n..]);
    assert y in multiset(sorted[n..]);
    var i :| 0 <= i < n && sorted[i] == x;
    var j :| 0 <= j < |sorted[n..]| && sorted[n..][j] == y;
    assert sorted[n + j] == y;
  }

  /** Capping a sequence sorted largest first keeps its largest elements: every
      element kept is at least every element cut off. */
  lemma TakeKeepsTop<T>(sorted: seq<T>, key: T -> int, limit: Option<nat>)
    requires NonIncreasing(sorted, key)
    ensures forall x, y :: x in Take(sorted, limit) && y in multiset(sorted) - multiset(Take(sorted, limit))
              ==> key(x) >= key(y)
  {
    var r := Take(sorted, limit);
    forall x, y | x in r && y in multiset(sorted) - multiset(r)
      ensures key(x) >= key(y)
    {
      if limit.Some? && limit.value < |sorted| {
        TopPrefixDominates(sorted, key, limit.value, x, y);
      }
    }
  }

  /** The `n` elements with the largest keys, largest first, or all of them when
      no limit is given: what `orderBy: { key: "desc" }, take: n` returns. */
  function TopBy<T>(s: seq<T>, key: T -> int, limit: Option<nat>): (r: seq<T>)
    ensures NonIncreasing(r, key)
    ensures multiset(r) <= multiset(s)
    ensures limit.None? ==> multiset(r) == multiset(s)
    ensures limit.Some? ==> |r| == Min(limit.value, |s|)
    ensures forall x, y :: x in r && y in multiset(s) - multiset(r) ==> key(x) >= key(y)
  {
    var sorted := SortDesc(s, key);
    TakeKeepsTop(sorted, key, limit);
    Take(sorted, limit)
  }
}
