/** The dashboard's data loaders: flattening the chat's metrics history into
    table rows, the recent-data window, the export file, and the per-day
    aggregation of one column. */
module DataLoaders {
  import opened Optional
  import opened Seqs
  import opened Stats
  import opened Timeline

  /** A value of a history entry (a JSON-like Python value). */
  datatype Value = Null | Text(s: string) | Number(x: real) | Record(fields: map<string, Value>)

  /** Python truthiness: `None`, `""`, `0` and `{}` are false. */
  predicate Truthy(v: Value) {
    match v
    case Null => false
    case Text(s) => s != ""
    case Number(x) => x != 0.0
    case Record(fields) => fields != map[]
  }

  /** One history entry, or one table row: column name to value. */
  type Entry = map<string, Value>

  /** `d.get(k, default)`. */
  function Get(d: map<string, Value>, k: string, default: Value): (v: Value)
    ensures k in d ==> v == d[k]
    ensures k !in d ==> v == default
  {
    if k in d then d[k] else default
  }

  /** The entry has metadata worth flattening. */
  predicate HasMetadata(m: Entry) {
    "metadata" in m && Truthy(m["metadata"])
  }

  /** One row of the metrics table: every key of the entry except `metadata`;
      when the metadata is present and non-empty, `question` and `answer` are
      its `query` and `response`, or "N/A" where those are missing. Metadata
      that is truthy but not a dictionary has no `get`, and loading fails. */
  function Flatten(m: Entry): (r: Result<Entry, string>)
    ensures r.Failure? <==> HasMetadata(m) && !m["metadata"].Record?
    ensures r.Success? ==> "metadata" !in r.value
    ensures r.Success? && !HasMetadata(m) ==> r.value.Keys == m.Keys - {"metadata"}
    ensures r.Success? && HasMetadata(m) ==> r.value.Keys == m.Keys - {"metadata"} + {"question", "answer"}
    ensures r.Success? ==> forall k :: k in m && k != "metadata" && (!HasMetadata(m) || k !in {"question", "answer"}) ==>
              r.value[k] == m[k]
    ensures r.Success? && HasMetadata(m) ==>
              && r.value["question"] == Get(m["metadata"].fields, "query", Text("N/A"))
              && r.value["answer"] == Get(m["metadata"].fields, "response", Text("N/A"))
  {
    var entry := map k | k in m.Keys && k != "metadata" :: m[k];
    if !HasMetadata(m) then Success(entry)
    else
      match m["metadata"]
      case Record(meta) =>
        Success(entry["question" := Get(meta, "query", Text("N/A"))]["answer" := Get(meta, "response", Text("N/A"))])
      case _ => Failure("metadata has no attribute 'get'")
  }

  /** Some entry of the table has key `k`, so the table has a column `k`. */
  predicate HasColumn(rows: seq<Entry>, k: string) {
    exists j :: 0 <= j < |rows| && k in rows[j]
  }

  /** The error raised when the table has no `timestamp` column to convert. */
  const MissingTimestamp := "KeyError: 'timestamp'"

  /** Loads the metrics table from the session's history, one row per entry
      in order: empty when there is no history or it is empty; the first entry
      that cannot be flattened makes the load fail, and so does a history in
      which no entry has a `timestamp`, since the conversion of that column
      then finds no column to convert. */
  method LoadMetricsData(history: Option<seq<Entry>>) returns (r: Result<seq<Entry>, string>)
    ensures history.None? || history.value == [] ==> r == Success([])
    ensures history.Some? && history.value != [] ==>
              (r.Success? <==> (forall j :: 0 <= j < |history.value| ==> Flatten(history.value[j]).Success?)
                               && HasColumn(history.value, "timestamp"))
    ensures history.Some? && r.Success? ==>
              |r.value| == |history.value|
              && forall j :: 0 <= j < |history.value| ==> r.value[j] == Flatten(history.value[j]).value
    ensures r.Failure? ==>
              history.Some?
              && ((exists j :: (0 <= j < |history.value|
                    && Flatten(history.value[j]) == Failure(r.error)
                    && forall k :: 0 <= k < j ==> Flatten(history.value[k]).Success?))
                  || ((forall j :: 0 <= j < |history.value| ==> Flatten(history.value[j]).Success?)
                      && !HasColumn(history.value, "timestamp") && r.error == MissingTimestamp))
  {
    if history.None? || history.value == [] {
      return Success([]);
    }
    var entries := history.value;
    var rows: seq<Entry> := [];
    var stamped := false;
    var i := 0;
    while i < |entries|
      invariant 0 <= i <= |entries|
      invariant |rows| == i
      invariant forall j :: 0 <= j < i ==> Flatten(entries[j]).Success? && rows[j] == Flatten(entries[j]).value
      invariant stamped <==> HasColumn(entries[..i], "timestamp")
    {
      var row := Flatten(entries[i]);
      if row.Failure? {
        return Failure(row.error);
      }
      assert entries[..i + 1] == entries[..i] + [entries[i]];
      stamped := stamped || "timestamp" in entries[i];
      rows := rows + [row.value];
      i := i + 1;
    }
    assert entries[..i] == entries;
    if !stamped {
      return Failure(MissingTimestamp);
    }
    return Success(rows);
  }

  /** The rows of the last `hours` hours before `now`; an empty table is returned as it is. */
  function GetRecentData<T(!new)>(rows: seq<T>, stamp: T -> int, now: int, hours: int): (r: seq<T>)
    ensures rows == [] ==> r == rows
    ensures forall x :: x in r <==> x in rows && stamp(x) > now - hours * SecondsPerHour
    ensures |r| <= |rows|
  {
    if rows == [] then rows else Since(rows, stamp, now - hours * SecondsPerHour)
  }

  /** The empty-table guard changes nothing: the recent data is always the window. */
  lemma RecentDataIsWindow<T(!new)>(rows: seq<T>, stamp: T -> int, now: int, hours: int)
    ensures GetRecentData(rows, stamp, now, hours) == Since(rows, stamp, now - hours * SecondsPerHour)
  {
  }

  /** A table entirely within the window is kept whole, in order. */
  lemma RecentDataKeepsAllRecent<T(!new)>(rows: seq<T>, stamp: T -> int, now: int, hours: int)
    requires forall i :: 0 <= i < |rows| ==> stamp(rows[i]) > now - hours * SecondsPerHour
    ensures GetRecentData(rows, stamp, now, hours) == rows
  {
    if rows != [] {
      FilterAll(rows, x => stamp(x) > now - hours * SecondsPerHour);
    }
  }

  /** `10^n`. */
  function Pow10(n: nat): (r: nat)
    ensures r >= 1
  {
    if n == 0 then 1 else 10 * Pow10(n - 1)
  }

  predicate IsDigits(s: string) {
    forall i :: 0 <= i < |s| ==> '0' <= s[i] <= '9'
  }

  /** `n` in decimal, zero-padded to `width` digits (`%02d`, `%04d`). */
  function Digits(n: nat, width: nat): (r: string)
    requires n < Pow10(width)
    ensures |r| == width
    ensures IsDigits(r)
  {
    if width == 0 then ""
    else Digits(n / 10, width - 1) + [('0' as int + n % 10) as char]
  }

  /** The number a string of decimal digits denotes. */
  function DigitsValue(s: string): nat
    requires IsDigits(s)
  {
    if s == [] then 0 else 10 * DigitsValue(s[..|s| - 1]) + (s[|s| - 1] as int - '0' as int)
  }

  /** Reading the padded digits back gives the number. */
  lemma {:induction false} DigitsRoundTrip(n: nat, width: nat)
    requires n < Pow10(width)
    ensures DigitsValue(Digits(n, width)) == n
  {
    if width > 0 {
      DigitsRoundTrip(n / 10, width - 1);
      var s := Digits(n, width);
      assert s[..|s| - 1] == Digits(n / 10, width - 1);
    }
  }

  /** A wall-clock time, as `datetime.now()` returns it. */
  datatype DateTime = DateTime(year: nat, month: nat, day: nat, hour: nat, minute: nat, second: nat)
  {
    predicate Valid() {
      1000 <= year <= 9999 && 1 <= month <= 12 && 1 <= day <= 31 && hour < 24 && minute < 60 && second < 60
    }
  }

  /** `strftime("%Y%m%d_%H%M%S")`. */
  function Stamp(t: DateTime): (r: string)
    requires t.Valid()
    ensures |r| == 15 && r[8] == '_'
  {
    Digits(t.year, 4) + Digits(t.month, 2) + Digits(t.day, 2) + "_"
      + Digits(t.hour, 2) + Digits(t.minute, 2) + Digits(t.second, 2)
  }

  /** A slice inside the first of two joined texts is a slice of that text. */
  lemma SliceOfFirst(a: string, b: string, i: nat, j: nat)
    requires i <= j <= |a|
    ensures (a + b)[i..j] == a[i..j]
  {
  }

  /** A slice inside the second of two joined texts is a slice of that text. */
  lemma SliceOfSecond(a: string, b: string, i: nat, j: nat)
    requires |a| <= i <= j <= |a| + |b|
    ensures (a + b)[i..j] == b[i - |a|..j - |a|]
  {
    assert forall k :: i <= k < j ==> (a + b)[k] == b[k - |a|];
  }

  /** The stamp can be read back field by field. */
  lemma StampRoundTrip(t: DateTime)
    requires t.Valid()
    ensures var s := Stamp(t);
      && IsDigits(s[..4]) && DigitsValue(s[..4]) == t.year
      && IsDigits(s[4..6]) && DigitsValue(s[4..6]) == t.month
      && IsDigits(s[6..8]) && DigitsValue(s[6..8]) == t.day
      && IsDigits(s[9..11]) && DigitsValue(s[9..11]) == t.hour
      && IsDigits(s[11..13]) && DigitsValue(s[11..13]) == t.minute
      && IsDigits(s[13..15]) && DigitsValue(s[13..15]) == t.second
  {
    var y, mo, d := Digits(t.year, 4), Digits(t.month, 2), Digits(t.day, 2);
    var h, mi, se := Digits(t.hour, 2), Digits(t.minute, 2), Digits(t.second, 2);
    // the stamp, joined from the left one field at a time
    var s1 := y + mo;
    var s2 := s1 + d;
    var s3 := s2 + "_";
    var s4 := s3 + h;
    var s5 := s4 + mi;
    var s := s5 + se;
    assert s == Stamp(t);
    // the seconds
    SliceOfSecond(s5, se, 13, 15);
    assert se[0..2] == se;
    // the minutes
    SliceOfFirst(s5, se, 11, 13);
    SliceOfSecond(s4, mi, 11, 13);
    assert mi[0..2] == mi;
    // the hour
    SliceOfFirst(s5, se, 9, 11);
    SliceOfFirst(s4, mi, 9, 11);
    SliceOfSecond(s3, h, 9, 11);
    assert h[0..2] == h;
    // the day
    SliceOfFirst(s5, se, 6, 8);
    SliceOfFirst(s4, mi, 6, 8);
    SliceOfFirst(s3, h, 6, 8);
    SliceOfFirst(s2, "_", 6, 8);
    SliceOfSecond(s1, d, 6, 8);
    assert d[0..2] == d;
    // the month
    SliceOfFirst(s5, se, 4, 6);
    SliceOfFirst(s4, mi, 4, 6);
    SliceOfFirst(s3, h, 4, 6);
    SliceOfFirst(s2, "_", 4, 6);
    SliceOfFirst(s1, d, 4, 6);
    SliceOfSecond(y, mo, 4, 6);
    assert mo[0..2] == mo;
    // the year
    SliceOfFirst(s5, se, 0, 4);
    SliceOfFirst(s4, mi, 0, 4);
    SliceOfFirst(s3, h, 0, 4);
    SliceOfFirst(s2, "_", 0, 4);
    SliceOfFirst(s1, d, 0, 4);
    SliceOfFirst(y, mo, 0, 4);
    assert y[0..4] == y;
    DigitsRoundTrip(t.year, 4);
    DigitsRoundTrip(t.month, 2);
    DigitsRoundTrip(t.day, 2);
    DigitsRoundTrip(t.hour, 2);
    DigitsRoundTrip(t.minute, 2);
    DigitsRoundTrip(t.second, 2);
  }

  /** `f"{name}_metrics_{timestamp}.csv"`. */
  function ExportFilename(name: string, t: DateTime): (f: string)
    requires t.Valid()
    ensures |f| == |name| + 28
    ensures f[..|name|] == name
    ensures f[|name|..|name| + 9] == "_metrics_"
    ensures f[|name| + 9..|name| + 24] == Stamp(t)
    ensures f[|name| + 24..] == ".csv"
  {
    name + "_metrics_" + Stamp(t) + ".csv"
  }

  /** An export: the encoded CSV text and the file name. */
  datatype Export = Export(data: seq<bv8>, filename: string)

  /** The export of a table at time `now`: nothing for an empty table;
      otherwise the table as encoded CSV (`csv`, the pandas writer and the
      UTF-8 encoder) under a file name made of the table's name and the time. */
  function PrepareExportData<T>(rows: seq<T>, name: string, now: DateTime, csv: seq<T> -> seq<bv8>): (r: Option<Export>)
    requires now.Valid()
    ensures r.None? <==> rows == []
    ensures r.Some? ==> r.value.data == csv(rows) && r.value.filename == ExportFilename(name, now)
  {
    if rows == [] then None else Some(Export(csv(rows), ExportFilename(name, now)))
  }

  /** The aggregate of one day of one column. */
  datatype DailyAggregate = DailyAggregate(day: int, mean: Option<real>, min: Option<real>, max: Option<real>, count: nat)

  /** The aggregate of day `d`: the number of its rows, and (when it has any)
      the mean, smallest and largest value of the column over them: the mean
      once per row adds up to the day's sum, and both extremes occur that
      day. All three are undefined for an empty day. */
  function DayAggregate<T(!new)>(rows: seq<T>, stamp: T -> int, value: T -> real, d: int): (r: DailyAggregate)
    ensures r.day == d && r.count == |InDay(rows, stamp, d)|
    ensures r.mean.None? <==> r.count == 0
    ensures r.min.None? <==> r.count == 0
    ensures r.max.None? <==> r.count == 0
    ensures r.count > 0 ==> r.min.value <= r.mean.value <= r.max.value
    ensures r.count > 0 ==> Scale(r.count, r.mean.value) == SumOf(InDay(rows, stamp, d), value)
    ensures r.count > 0 ==> forall x :: x in InDay(rows, stamp, d) ==> r.min.value <= value(x) <= r.max.value
    ensures r.count > 0 ==> exists x :: x in InDay(rows, stamp, d) && value(x) == r.min.value
    ensures r.count > 0 ==> exists x :: x in InDay(rows, stamp, d) && value(x) == r.max.value
  {
    var day := InDay(rows, stamp, d);
    if day == [] then DailyAggregate(d, None, None, None, 0)
    else
      var s := SpreadOf(day, value);
      DailyAggregate(d, Some(s.mean), Some(s.min), Some(s.max), |day|)
  }

  /** The aggregates of days `lo` up to `hi`, in ascending order. */
  function DaysUp<T(!new)>(rows: seq<T>, stamp: T -> int, value: T -> real, lo: int, hi: int): (r: seq<DailyAggregate>)
    ensures |r| == if hi < lo then 0 else hi - lo + 1
    ensures forall i :: 0 <= i < |r| ==> r[i].day == lo + i
    decreases hi - lo
  {
    if hi < lo then [] else DaysUp(rows, stamp, value, lo, hi - 1) + [DayAggregate(rows, stamp, value, hi)]
  }

  /** The daily aggregation of column `value` (`resample('D')` with mean,
      min, max and count): an empty table is returned as it is; otherwise one
      row per calendar day from the first to the last, in ascending order,
      including days without rows. */
  function AggregateDailyMetrics<T(!new)>(rows: seq<T>, stamp: T -> int, value: T -> real): (r: seq<DailyAggregate>)
    ensures rows == [] ==> r == []
    ensures rows != [] ==> |r| == LastDay(rows, stamp) - FirstDay(rows, stamp) + 1
    ensures rows != [] ==> forall i :: 0 <= i < |r| ==> r[i].day == FirstDay(rows, stamp) + i
    ensures forall i :: 0 <= i < |r| ==> r[i] == DayAggregate(rows, stamp, value, r[i].day)
  {
    if rows == [] then []
    else
      DaySpan(rows, stamp);
      DaysUpRows(rows, stamp, value, FirstDay(rows, stamp), LastDay(rows, stamp));
      DaysUp(rows, stamp, value, FirstDay(rows, stamp), LastDay(rows, stamp))
  }

  /** Each row of the list is the aggregate of its own day. */
  lemma {:induction false} DaysUpRows<T(!new)>(rows: seq<T>, stamp: T -> int, value: T -> real, lo: int, hi: int)
    ensures forall i :: 0 <= i < |DaysUp(rows, stamp, value, lo, hi)| ==>
              DaysUp(rows, stamp, value, lo, hi)[i] == DayAggregate(rows, stamp, value, DaysUp(rows, stamp, value, lo, hi)[i].day)
    decreases hi - lo
  {
    if lo <= hi {
      DaysUpRows(rows, stamp, value, lo, hi - 1);
      var r, init := DaysUp(rows, stamp, value, lo, hi), DaysUp(rows, stamp, value, lo, hi - 1);
      var last := DayAggregate(rows, stamp, value, hi);
      assert r == init + [last];
      assert last.day == hi;
      forall i | 0 <= i < |r| ensures r[i] == DayAggregate(rows, stamp, value, r[i].day) {
        if i < |init| {
          assert r[i] == init[i];
        } else {
          assert r[i] == last;
        }
      }
    }
  }

  function CountOfDay(a: DailyAggregate): nat { a.count }

  /** Every row counts once, in the column of ones. */
  function Unit<T>(x: T): real { 1.0 }

  lemma {:induction false} SumOfUnits<T>(s: seq<T>)
    ensures SumOf(s, Unit) == |s| as real
  {
    if s != [] {
      SumOfUnits(s[1..]);
    }
  }

  lemma {:induction false} DaysUpCount<T(!new)>(rows: seq<T>, stamp: T -> int, value: T -> real, lo: int, hi: int)
    ensures NatSumOf(DaysUp(rows, stamp, value, lo, hi), CountOfDay) as real == DaysTotal(rows, stamp, Unit, lo, hi)
    decreases hi - lo
  {
    if lo <= hi {
      DaysUpCount(rows, stamp, value, lo, hi - 1);
      var last := DayAggregate(rows, stamp, value, hi);
      NatSumAppend(DaysUp(rows, stamp, value, lo, hi - 1), [last], CountOfDay);
      SumOfUnits(InDay(rows, stamp, hi));
    }
  }

  /** The daily counts add up to the number of rows. */
  lemma DailyCountsAddUp<T(!new)>(rows: seq<T>, stamp: T -> int, value: T -> real)
    ensures NatSumOf(AggregateDailyMetrics(rows, stamp, value), CountOfDay) == |rows|
  {
    if rows != [] {
      var lo, hi := FirstDay(rows, stamp), LastDay(rows, stamp);
      DaySpan(rows, stamp);
      DaysUpCount(rows, stamp, value, lo, hi);
      DaysPartition(rows, stamp, Unit, lo, hi);
      SumOfUnits(rows);
    }
  }
}
