/** Sequence helpers shared by the aggregators: mask selection, column projection,
    first-appearance de-duplication (pandas `unique()`, dict insertion order) and
    grouping by a key. */
module Seqs {

  /** The elements of `s` that satisfy `p`, in their original order
      (a boolean-mask selection `df[mask]`, or a filtering list comprehension). */
  function Filter<T(!new)>(s: seq<T>, p: T -> bool): (r: seq<T>)
    ensures |r| <= |s|
    ensures forall x :: x in r <==> x in s && p(x)
  {
    if s == [] then [] else (if p(s[0]) then [s[0]] else []) + Filter(s[1..], p)
  }

  /** Filtering distributes over concatenation, so it keeps the original order. */
  lemma {:induction false} FilterAppend<T(!new)>(a: seq<T>, b: seq<T>, p: T -> bool)
    ensures Filter(a + b, p) == Filter(a, p) + Filter(b, p)
  {
    if a == [] {
      assert a + b == b;
    } else {
      assert (a + b)[1..] == a[1..] + b;
      FilterAppend(a[1..], b, p);
    }
  }

  /** Selecting by `p` and then by a stronger `q` is selecting by `q` alone. */
  lemma {:induction false} FilterFilter<T(!new)>(s: seq<T>, p: T -> bool, q: T -> bool)
    requires forall x :: x in s && q(x) ==> p(x)
    ensures Filter(Filter(s, p), q) == Filter(s, q)
  {
    if s != [] {
      FilterFilter(s[1..], p, q);
      var head := if p(s[0]) then [s[0]] else [];
      FilterAppend(head, Filter(s[1..], p), q);
    }
  }

  /** A mask that every element passes keeps the whole sequence. */
  lemma {:induction false} FilterAll<T(!new)>(s: seq<T>, p: T -> bool)
    requires forall x :: x in s ==> p(x)
    ensures Filter(s, p) == s
  {
    if s != [] {
      FilterAll(s[1..], p);
    }
  }

  /** A mask keeps every element exactly when every element passes it. */
  lemma {:induction false} FilterKeepsAll<T(!new)>(s: seq<T>, p: T -> bool)
    ensures |Filter(s, p)| == |s| <==> forall x :: x in s ==> p(x)
  {
    if s != [] {
      FilterKeepsAll(s[1..], p);
      assert forall x :: x in s <==> x == s[0] || x in s[1..];
    }
  }

  /** A mask and its complement split a sequence: selected plus rejected is everything. */
  lemma {:induction false} FilterPartitionLength<T(!new)>(s: seq<T>, p: T -> bool, q: T -> bool)
    requires forall x :: x in s ==> (q(x) <==> !p(x))
    ensures |Filter(s, p)| + |Filter(s, q)| == |s|
  {
    if s != [] {
      FilterPartitionLength(s[1..], p, q);
    }
  }

  /** The column `f` of a table: one value per row, in row order. */
  function Project<T(!new), K>(s: seq<T>, f: T -> K): (r: seq<K>)
    ensures |r| == |s|
    ensures forall i :: 0 <= i < |s| ==> r[i] == f(s[i])
  {
    if s == [] then [] else [f(s[0])] + Project(s[1..], f)
  }

  lemma ProjectAppend<T(!new), K>(a: seq<T>, b: seq<T>, f: T -> K)
    ensures Project(a + b, f) == Project(a, f) + Project(b, f)
  {
    assert forall i :: 0 <= i < |a + b| ==> Project(a + b, f)[i] == (Project(a, f) + Project(b, f))[i];
  }

  /** `head`, `a`, `mid`, `b` and `tail` one after the other: a text template
      with two holes, filled with `a` and `b`. */
  function Splice<T>(head: seq<T>, a: seq<T>, mid: seq<T>, b: seq<T>, tail: seq<T>): (r: seq<T>)
    ensures |r| == |head| + |a| + |mid| + |b| + |tail|
    ensures r[..|head|] == head
    ensures r[|head|..|head| + |a|] == a
    ensures r[|head| + |a|..|head| + |a| + |mid|] == mid
    ensures r[|head| + |a| + |mid|..|r| - |tail|] == b
    ensures r[|r| - |tail|..] == tail
  {
    head + a + mid + b + tail
  }

  /** No value occurs twice. */
  ghost predicate NoDups<T>(s: seq<T>) {
    forall i, j :: 0 <= i < j < |s| ==> s[i] != s[j]
  }

  /** The position of the first occurrence of `x` in `s`. */
  function FirstIndex<T(==,!new)>(s: seq<T>, x: T): (i: nat)
    requires x in s
    ensures i < |s| && s[i] == x
    ensures forall j :: 0 <= j < i ==> s[j] != x
  {
    if s[0] == x then 0 else 1 + FirstIndex(s[1..], x)
  }

  /** The distinct values of `s`, each once, in order of first appearance
      (pandas `Series.unique()`, or the keys of a dict filled in a loop). */
  function Distinct<T(==,!new)>(s: seq<T>): (r: seq<T>)
    ensures NoDups(r)
    ensures forall x :: x in r <==> x in s
  {
    if s == [] then []
    else
      var d := Distinct(s[..|s| - 1]);
      assert forall x :: x in s <==> x in s[..|s| - 1] || x == s[|s| - 1];
      if s[|s| - 1] in d then d else d + [s[|s| - 1]]
  }

  /** `Distinct` lists values in the order in which they first occur. */
  lemma {:induction false} DistinctFirstAppearanceOrder<T(!new)>(s: seq<T>)
    ensures forall i, j :: 0 <= i < j < |Distinct(s)| ==>
              FirstIndex(s, Distinct(s)[i]) < FirstIndex(s, Distinct(s)[j])
  {
    if s != [] {
      var init := s[..|s| - 1];
      DistinctFirstAppearanceOrder(init);
      var d := Distinct(init);
      forall y | y in init
        ensures FirstIndex(s, y) == FirstIndex(init, y) < |init|
      {
        var k := FirstIndex(init, y);
        assert s[k] == y;
        var m := FirstIndex(s, y);
        assert m <= k;
      }
      if s[|s| - 1] !in d {
        forall y | y in init
          ensures FirstIndex(s, y) < FirstIndex(s, s[|s| - 1])
        {
          assert s[|s| - 1] !in init;
        }
      }
    }
  }

  /** The number of occurrences of `x` in `s`. */
  function CountOf<T(==,!new)>(s: seq<T>, x: T): (n: nat)
    ensures n <= |s|
    ensures n == 0 <==> x !in s
  {
    if s == [] then 0 else (if s[0] == x then 1 else 0) + CountOf(s[1..], x)
  }

  lemma {:induction false} NoDupsCountOne<T(!new)>(s: seq<T>, x: T)
    requires NoDups(s) && x in s
    ensures CountOf(s, x) == 1
  {
    if s[0] == x {
      assert x !in s[1..];
    } else {
      NoDupsCountOne(s[1..], x);
    }
  }

  /** The rows whose key is `k` (`df[df[key] == k]`), in row order. */
  function Group<T(!new), K(==,!new)>(s: seq<T>, key: T -> K, k: K): (r: seq<T>)
    ensures forall x :: x in r <==> x in s && key(x) == k
  {
    Filter(s, x => key(x) == k)
  }

  /** Appending a row extends the group of its own key by that row and leaves the other groups alone. */
  lemma GroupAppend<T(!new), K(!new)>(s: seq<T>, x: T, key: T -> K, k: K)
    ensures Group(s + [x], key, k) == Group(s, key, k) + (if key(x) == k then [x] else [])
  {
    FilterAppend(s, [x], y => key(y) == k);
    assert Filter([x], y => key(y) == k) == (if key(x) == k then [x] else []) + Filter([], y => key(y) == k);
  }

  /** Appending does not move the first occurrence of a value already present,
      and puts that of a new value at the end. */
  lemma FirstIndexAppend<T(!new)>(s: seq<T>, y: T, x: T)
    requires x in s + [y]
    ensures x in s ==> FirstIndex(s + [y], x) == FirstIndex(s, x)
    ensures x !in s ==> FirstIndex(s + [y], x) == |s|
  {
    if x in s {
      assert (s + [y])[FirstIndex(s, x)] == x;
    }
  }

  /** The total size of the groups of the keys `ks`. */
  function GroupSizes<T(!new), K(==,!new)>(s: seq<T>, key: T -> K, ks: seq<K>): nat
  {
    if ks == [] then 0 else |Group(s, key, ks[0])| + GroupSizes(s, key, ks[1..])
  }

  lemma {:induction false} GroupSizesAppend<T(!new), K(!new)>(s: seq<T>, x: T, key: T -> K, ks: seq<K>)
    ensures GroupSizes(s + [x], key, ks) == GroupSizes(s, key, ks) + CountOf(ks, key(x))
  {
    if ks != [] {
      FilterAppend(s, [x], y => key(y) == ks[0]);
      GroupSizesAppend(s, x, key, ks[1..]);
    }
  }

  /** Groups over a duplicate-free list of keys that covers every row
      hold every row exactly once. */
  lemma {:induction false} GroupsCoverAll<T(!new), K(!new)>(s: seq<T>, key: T -> K, ks: seq<K>)
    requires NoDups(ks)
    requires forall x :: x in s ==> key(x) in ks
    ensures GroupSizes(s, key, ks) == |s|
  {
    if s == [] {
      GroupSizesEmpty(key, ks);
    } else {
      var init, last := s[..|s| - 1], s[|s| - 1];
      assert s == init + [last];
      GroupsCoverAll(init, key, ks);
      GroupSizesAppend(init, last, key, ks);
      NoDupsCountOne(ks, key(last));
    }
  }

  lemma {:induction false} GroupSizesEmpty<T(!new), K(!new)>(key: T -> K, ks: seq<K>)
    ensures GroupSizes([], key, ks) == 0
  {
    if ks != [] {
      GroupSizesEmpty(key, ks[1..]);
    }
  }

  /** Grouping by the distinct keys of the rows themselves accounts for every row once. */
  lemma DistinctGroupsCoverAll<T(!new), K(!new)>(s: seq<T>, key: T -> K)
    ensures GroupSizes(s, key, Distinct(Project(s, key))) == |s|
  {
    var ks := Project(s, key);
    forall x | x in s ensures key(x) in Distinct(ks) {
      var i :| 0 <= i < |s| && s[i] == x;
      assert ks[i] == key(x);
    }
    GroupsCoverAll(s, key, Distinct(ks));
  }
}
