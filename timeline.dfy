/** Time-based selections over timestamped rows: calendar-day buckets (pandas
    `resample('D')`) and recency windows (`df[df['timestamp'] > now - delta]`).
    A timestamp is a whole number of seconds; day `d` covers the seconds
    `[d * 86400, (d + 1) * 86400)`. */
module Timeline {
  import opened Seqs
  import opened Stats

  const SecondsPerHour := 3600
  const SecondsPerDay := 86400

  /** The calendar day a timestamp falls in (flooring, as `resample('D')` bins). */
  function DayOf(ts: int): (d: int)
    ensures SecondsPerDay * d <= ts < SecondsPerDay * (d + 1)
  {
    ts / SecondsPerDay
  }

  lemma DayOfMonotone(a: int, b: int)
    requires a <= b
    ensures DayOf(a) <= DayOf(b)
  {
  }

  /** The rows whose timestamp falls on day `d`, in row order. */
  function InDay<T(!new)>(rows: seq<T>, stamp: T -> int, d: int): (r: seq<T>)
    ensures forall x :: x in r <==> x in rows && DayOf(stamp(x)) == d
  {
    Filter(rows, x => DayOf(stamp(x)) == d)
  }

  /** The first day of the table (the first bin of `resample('D')`). */
  function FirstDay<T>(rows: seq<T>, stamp: T -> int): int
    requires rows != []
  {
    DayOf(EarliestOf(rows, stamp))
  }

  /** The last day of the table (the last bin of `resample('D')`). */
  function LastDay<T>(rows: seq<T>, stamp: T -> int): int
    requires rows != []
  {
    DayOf(LatestOf(rows, stamp))
  }

  /** Every row falls on a day between the first and the last day, and both
      of those days hold a row. */
  lemma DaySpan<T>(rows: seq<T>, stamp: T -> int)
    requires rows != []
    ensures FirstDay(rows, stamp) <= LastDay(rows, stamp)
    ensures forall i :: 0 <= i < |rows| ==>
              FirstDay(rows, stamp) <= DayOf(stamp(rows[i])) <= LastDay(rows, stamp)
    ensures exists i :: 0 <= i < |rows| && DayOf(stamp(rows[i])) == FirstDay(rows, stamp)
    ensures exists i :: 0 <= i < |rows| && DayOf(stamp(rows[i])) == LastDay(rows, stamp)
  {
    forall i | 0 <= i < |rows|
      ensures FirstDay(rows, stamp) <= DayOf(stamp(rows[i])) <= LastDay(rows, stamp)
    {
      DayOfMonotone(EarliestOf(rows, stamp), stamp(rows[i]));
      DayOfMonotone(stamp(rows[i]), LatestOf(rows, stamp));
    }
    assert FirstDay(rows, stamp) <= DayOf(stamp(rows[0])) <= LastDay(rows, stamp);
  }

  /** The total of column `f` over the days `lo` to `hi` inclusive, one day
      at a time (0 over an empty range of days). */
  function DaysTotal<T(!new)>(rows: seq<T>, stamp: T -> int, f: T -> real, lo: int, hi: int): real
    decreases hi - lo
  {
    if hi < lo then 0.0
    else DaysTotal(rows, stamp, f, lo, hi - 1) + SumOf(InDay(rows, stamp, hi), f)
  }

  lemma {:induction false} DaysTotalSingle<T(!new)>(x: T, stamp: T -> int, f: T -> real, lo: int, hi: int)
    ensures DaysTotal([x], stamp, f, lo, hi) == if lo <= DayOf(stamp(x)) <= hi then f(x) else 0.0
    decreases hi - lo
  {
    if lo <= hi {
      DaysTotalSingle(x, stamp, f, lo, hi - 1);
      assert [x][1..] == [];
      assert SumOf([x], f) == f(x);
      assert InDay([x], stamp, hi) == if DayOf(stamp(x)) == hi then [x] else [];
    }
  }

  lemma {:induction false} DaysTotalCons<T(!new)>(x: T, rest: seq<T>, stamp: T -> int, f: T -> real, lo: int, hi: int)
    ensures DaysTotal([x] + rest, stamp, f, lo, hi)
         == DaysTotal([x], stamp, f, lo, hi) + DaysTotal(rest, stamp, f, lo, hi)
    decreases hi - lo
  {
    if lo <= hi {
      DaysTotalCons(x, rest, stamp, f, lo, hi - 1);
      FilterAppend([x], rest, y => DayOf(stamp(y)) == hi);
      SumAppend(InDay([x], stamp, hi), InDay(rest, stamp, hi), f);
    }
  }

  /** The days `lo..hi` partition any table whose rows all fall in that range:
      the per-day totals add up to the column's overall total. */
  lemma {:induction false} DaysPartition<T(!new)>(rows: seq<T>, stamp: T -> int, f: T -> real, lo: int, hi: int)
    requires forall i :: 0 <= i < |rows| ==> lo <= DayOf(stamp(rows[i])) <= hi
    ensures DaysTotal(rows, stamp, f, lo, hi) == SumOf(rows, f)
  {
    if rows == [] {
      DaysTotalEmpty(stamp, f, lo, hi);
    } else {
      assert rows == [rows[0]] + rows[1..];
      DaysPartition(rows[1..], stamp, f, lo, hi);
      DaysTotalCons(rows[0], rows[1..], stamp, f, lo, hi);
      DaysTotalSingle(rows[0], stamp, f, lo, hi);
    }
  }

  lemma {:induction false} DaysTotalEmpty<T(!new)>(stamp: T -> int, f: T -> real, lo: int, hi: int)
    ensures DaysTotal([], stamp, f, lo, hi) == 0.0
    decreases hi - lo
  {
    if lo <= hi {
      DaysTotalEmpty(stamp, f, lo, hi - 1);
    }
  }

  /** With a non-negative column, the running total never decreases from one day to a later one. */
  lemma {:induction false} DaysTotalMonotone<T(!new)>(rows: seq<T>, stamp: T -> int, f: T -> real, lo: int, d1: int, d2: int)
    requires forall i :: 0 <= i < |rows| ==> f(rows[i]) >= 0.0
    requires d1 <= d2
    ensures DaysTotal(rows, stamp, f, lo, d1) <= DaysTotal(rows, stamp, f, lo, d2)
    decreases d2 - d1
  {
    if d1 < d2 {
      DaysTotalMonotone(rows, stamp, f, lo, d1, d2 - 1);
      var day := InDay(rows, stamp, d2);
      forall i | 0 <= i < |day| ensures f(day[i]) >= 0.0 {
        assert day[i] in rows;
      }
      SumNonNegative(day, f);
    }
  }

  /** The rows stamped strictly after `cutoff`, in row order
      (`df[df['timestamp'] > now - delta]`). */
  function Since<T(!new)>(rows: seq<T>, stamp: T -> int, cutoff: int): (r: seq<T>)
    ensures forall x :: x in r <==> x in rows && stamp(x) > cutoff
  {
    Filter(rows, x => stamp(x) > cutoff)
  }

  /** A narrower window is a selection from a wider one. */
  lemma SinceNested<T(!new)>(rows: seq<T>, stamp: T -> int, wide: int, narrow: int)
    requires wide <= narrow
    ensures Since(Since(rows, stamp, wide), stamp, narrow) == Since(rows, stamp, narrow)
  {
    FilterFilter(rows, x => stamp(x) > wide, x => stamp(x) > narrow);
  }

  /** With a non-negative column, a window never sums to more than the whole table. */
  lemma SinceSumAtMost<T(!new)>(rows: seq<T>, stamp: T -> int, f: T -> real, cutoff: int)
    requires forall i :: 0 <= i < |rows| ==> f(rows[i]) >= 0.0
    ensures SumOf(Since(rows, stamp, cutoff), f) <= SumOf(rows, f)
  {
    SumFilterAtMost(rows, f, x => stamp(x) > cutoff);
  }

  /** With a non-negative column, a narrower window never sums to more than a wider one. */
  lemma SinceSumMonotone<T(!new)>(rows: seq<T>, stamp: T -> int, f: T -> real, wide: int, narrow: int)
    requires forall i :: 0 <= i < |rows| ==> f(rows[i]) >= 0.0
    requires wide <= narrow
    ensures SumOf(Since(rows, stamp, narrow), f) <= SumOf(Since(rows, stamp, wide), f)
  {
    var w := Since(rows, stamp, wide);
    forall i | 0 <= i < |w| ensures f(w[i]) >= 0.0 {
      assert w[i] in rows;
    }
    SinceNested(rows, stamp, wide, narrow);
    SumFilterAtMost(w, f, x => stamp(x) > narrow);
  }
}
