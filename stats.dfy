/** Column aggregates as pandas computes them on a table of rows: sum, mean,
    minimum and maximum of a projected column. A column is given as a
    function from a row to its value. Floating-point rounding is not
    modelled: values are mathematical reals. */
module Stats {
  import opened Optional
  import opened Seqs

  /** The sum of column `f` (`Series.sum()`; 0 on an empty table). */
  function SumOf<T>(s: seq<T>, f: T -> real): real
  {
    if s == [] then 0.0 else f(s[0]) + SumOf(s[1..], f)
  }

  lemma {:induction false} SumAppend<T>(a: seq<T>, b: seq<T>, f: T -> real)
    ensures SumOf(a + b, f) == SumOf(a, f) + SumOf(b, f)
  {
    if a == [] {
      assert a + b == b;
    } else {
      assert (a + b)[1..] == a[1..] + b;
      SumAppend(a[1..], b, f);
    }
  }

  /** Summing a column that is the sum of two others adds their sums. */
  lemma {:induction false} SumAdd<T>(s: seq<T>, f: T -> real, g: T -> real, h: T -> real)
    requires forall i :: 0 <= i < |s| ==> h(s[i]) == f(s[i]) + g(s[i])
    ensures SumOf(s, h) == SumOf(s, f) + SumOf(s, g)
  {
    if s != [] {
      SumAdd(s[1..], f, g, h);
    }
  }

  lemma {:induction false} SumNonNegative<T>(s: seq<T>, f: T -> real)
    requires forall i :: 0 <= i < |s| ==> f(s[i]) >= 0.0
    ensures SumOf(s, f) >= 0.0
  {
    if s != [] {
      SumNonNegative(s[1..], f);
    }
  }

  /** A mask and its complement split a column sum. */
  lemma {:induction false} SumFilterSplit<T(!new)>(s: seq<T>, f: T -> real, p: T -> bool, q: T -> bool)
    requires forall x :: x in s ==> (q(x) <==> !p(x))
    ensures SumOf(s, f) == SumOf(Filter(s, p), f) + SumOf(Filter(s, q), f)
  {
    if s != [] {
      SumFilterSplit(s[1..], f, p, q);
      var hp := if p(s[0]) then [s[0]] else [];
      var hq := if q(s[0]) then [s[0]] else [];
      SumAppend(hp, Filter(s[1..], p), f);
      SumAppend(hq, Filter(s[1..], q), f);
    }
  }

  /** With a non-negative column, a selection never sums to more than the whole. */
  lemma SumFilterAtMost<T(!new)>(s: seq<T>, f: T -> real, p: T -> bool)
    requires forall i :: 0 <= i < |s| ==> f(s[i]) >= 0.0
    ensures SumOf(Filter(s, p), f) <= SumOf(s, f)
  {
    var rest := Filter(s, x => !p(x));
    SumFilterSplit(s, f, p, x => !p(x));
    forall i | 0 <= i < |rest| ensures f(rest[i]) >= 0.0 {
      assert rest[i] in s;
    }
    SumNonNegative(rest, f);
  }

  /** The sum of a whole-number column (an integer `Series.sum()`). */
  function NatSumOf<T>(s: seq<T>, f: T -> nat): nat
  {
    if s == [] then 0 else f(s[0]) + NatSumOf(s[1..], f)
  }

  lemma {:induction false} NatSumAppend<T>(a: seq<T>, b: seq<T>, f: T -> nat)
    ensures NatSumOf(a + b, f) == NatSumOf(a, f) + NatSumOf(b, f)
  {
    if a == [] {
      assert a + b == b;
    } else {
      assert (a + b)[1..] == a[1..] + b;
      NatSumAppend(a[1..], b, f);
    }
  }

  /** Summing a column that is the sum of two others adds their sums. */
  lemma {:induction false} NatSumAdd<T>(s: seq<T>, f: T -> nat, g: T -> nat, h: T -> nat)
    requires forall i :: 0 <= i < |s| ==> h(s[i]) == f(s[i]) + g(s[i])
    ensures NatSumOf(s, h) == NatSumOf(s, f) + NatSumOf(s, g)
  {
    if s != [] {
      NatSumAdd(s[1..], f, g, h);
    }
  }

  /** The smallest value of column `f` (`Series.min()`). */
  function MinOf<T>(s: seq<T>, f: T -> real): (m: real)
    requires s != []
    ensures forall i :: 0 <= i < |s| ==> m <= f(s[i])
    ensures exists i :: 0 <= i < |s| && f(s[i]) == m
  {
    if |s| == 1 then f(s[0])
    else
      var rest := MinOf(s[1..], f);
      assert forall i :: 1 <= i < |s| ==> s[i] == s[1..][i - 1];
      if f(s[0]) <= rest then f(s[0]) else rest
  }

  /** The largest value of column `f` (`Series.max()`). */
  function MaxOf<T>(s: seq<T>, f: T -> real): (m: real)
    requires s != []
    ensures forall i :: 0 <= i < |s| ==> f(s[i]) <= m
    ensures exists i :: 0 <= i < |s| && f(s[i]) == m
  {
    if |s| == 1 then f(s[0])
    else
      var rest := MaxOf(s[1..], f);
      assert forall i :: 1 <= i < |s| ==> s[i] == s[1..][i - 1];
      if f(s[0]) >= rest then f(s[0]) else rest
  }

  /** `n` copies of `x` added up: `n * x` written as repeated addition, so that
      the bounds on sums and means below stay within linear arithmetic. */
  function Scale(n: nat, x: real): (r: real)
    ensures n == 0 ==> r == 0.0
  {
    if n == 0 then 0.0 else x + Scale(n - 1, x)
  }

  lemma {:induction false} ScaleMonotone(n: nat, x: real, y: real)
    requires x <= y
    ensures Scale(n, x) <= Scale(n, y)
  {
    if n > 0 {
      ScaleMonotone(n - 1, x, y);
    }
  }

  /** On a positive count, scaling is strictly monotone, so it can be cancelled. */
  lemma {:induction false} ScaleCancel(n: nat, x: real, y: real)
    requires n > 0 && Scale(n, x) <= Scale(n, y)
    ensures x <= y
  {
    if x > y {
      ScaleStrict(n, y, x);
    }
  }

  lemma {:induction false} ScaleStrict(n: nat, x: real, y: real)
    requires n > 0 && x < y
    ensures Scale(n, x) < Scale(n, y)
  {
    if n > 1 {
      ScaleStrict(n - 1, x, y);
    }
  }

  /** Repeated addition is multiplication. */
  lemma {:induction false} ScaleIsProduct(n: nat, x: real)
    ensures Scale(n, x) == n as real * x
  {
    if n > 0 {
      ScaleIsProduct(n - 1, x);
      assert n as real * x == (n - 1) as real * x + x;
    }
  }

  /** Dividing a total into `n` equal shares and adding them up gives the total back. */
  lemma ScaleShare(n: nat, total: real)
    requires n > 0
    ensures Scale(n, total / n as real) == total
  {
    ScaleIsProduct(n, total / n as real);
  }

  /** The sum of a column lies between its row count times its minimum and
      its row count times its maximum. */
  lemma {:induction false} SumBounds<T>(s: seq<T>, f: T -> real)
    requires s != []
    ensures Scale(|s|, MinOf(s, f)) <= SumOf(s, f) <= Scale(|s|, MaxOf(s, f))
  {
    if |s| > 1 {
      SumBounds(s[1..], f);
      ScaleMonotone(|s| - 1, MinOf(s, f), MinOf(s[1..], f));
      ScaleMonotone(|s| - 1, MaxOf(s[1..], f), MaxOf(s, f));
    }
  }

  /** The mean of column `f` (`Series.mean()`), defined on a non-empty table:
      it lies between the column's minimum and maximum, and one row count's
      worth of it adds up to the column's sum. */
  function MeanOf<T>(s: seq<T>, f: T -> real): (m: real)
    requires s != []
    ensures MinOf(s, f) <= m <= MaxOf(s, f)
    ensures Scale(|s|, m) == SumOf(s, f)
  {
    var m := SumOf(s, f) / |s| as real;
    SumBounds(s, f);
    ScaleShare(|s|, SumOf(s, f));
    ScaleCancel(|s|, MinOf(s, f), m);
    ScaleCancel(|s|, m, MaxOf(s, f));
    m
  }

  /** The mean as pandas reports it: undefined (NaN, here `None`) on an empty table. */
  function MaybeMean<T>(s: seq<T>, f: T -> real): (m: Option<real>)
    ensures m.None? <==> s == []
    ensures m.Some? ==> MinOf(s, f) <= m.value <= MaxOf(s, f)
    ensures m.Some? ==> Scale(|s|, m.value) == SumOf(s, f)
  {
    if s == [] then None else Some(MeanOf(s, f))
  }

  /** The mean, minimum and maximum of one column. */
  datatype Spread = Spread(mean: real, min: real, max: real)

  /** The spread of column `f` over a non-empty table: min <= mean <= max,
      one row count's worth of the mean is the column's sum, and both
      extremes are values of the column. */
  function SpreadOf<T>(s: seq<T>, f: T -> real): (r: Spread)
    requires s != []
    ensures r.min <= r.mean <= r.max
    ensures Scale(|s|, r.mean) == SumOf(s, f)
    ensures forall i :: 0 <= i < |s| ==> r.min <= f(s[i]) <= r.max
    ensures exists i :: 0 <= i < |s| && f(s[i]) == r.min
    ensures exists i :: 0 <= i < |s| && f(s[i]) == r.max
  {
    Spread(MeanOf(s, f), MinOf(s, f), MaxOf(s, f))
  }

  /** The latest value of an integer column such as a timestamp (`Series.max()`). */
  function LatestOf<T>(s: seq<T>, f: T -> int): (m: int)
    requires s != []
    ensures forall i :: 0 <= i < |s| ==> f(s[i]) <= m
    ensures exists i :: 0 <= i < |s| && f(s[i]) == m
  {
    if |s| == 1 then f(s[0])
    else
      var rest := LatestOf(s[1..], f);
      assert forall i :: 1 <= i < |s| ==> s[i] == s[1..][i - 1];
      if f(s[0]) >= rest then f(s[0]) else rest
  }

  /** The earliest value of an integer column (`Series.min()`). */
  function EarliestOf<T>(s: seq<T>, f: T -> int): (m: int)
    requires s != []
    ensures forall i :: 0 <= i < |s| ==> m <= f(s[i])
    ensures exists i :: 0 <= i < |s| && f(s[i]) == m
  {
    if |s| == 1 then f(s[0])
    else
      var rest := EarliestOf(s[1..], f);
      assert forall i :: 1 <= i < |s| ==> s[i] == s[1..][i - 1];
      if f(s[0]) <= rest then f(s[0]) else rest
  }

  /** A total shared over `count` items (`total / count`), undefined (NaN,
      here `None`) when there are no items. */
  function PerItem(total: real, count: nat): (r: Option<real>)
    ensures r.None? <==> count == 0
    ensures r.Some? ==> Scale(count, r.value) == total
  {
    if count == 0 then None
    else
      ScaleShare(count, total);
      Some(total / count as real)
  }

  /** A percentage `part / whole * 100`, and 0 when there is no whole
      (the `... if total > 0 else 0` guards of the dashboard). */
  function Percent(part: real, whole: real): (r: real)
    ensures whole > 0.0 ==> r * whole == part * 100.0
    ensures whole <= 0.0 ==> r == 0.0
  {
    if whole > 0.0 then part / whole * 100.0 else 0.0
  }
}
