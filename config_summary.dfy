/** Per-configuration summaries of an evaluation table: for every distinct
    configuration name, in order of first appearance, the mean, minimum and
    maximum of each score column over that configuration's rows, the latest
    timestamp among them and their number. Both evaluation panels build their
    summary dictionaries this way. */
module ConfigSummary {
  import opened Seqs
  import opened Stats

  /** A named score column of the table. */
  datatype Column<!T> = Column(name: string, value: T -> real)

  /** The statistics of one column. */
  datatype MetricEntry = MetricEntry(metric: string, stats: Spread)

  /** The summary of one configuration. */
  datatype ConfigReport = ConfigReport(metrics: seq<MetricEntry>, timestamp: int, total: nat)

  /** One entry of the summary dictionary. */
  datatype ConfigEntry = ConfigEntry(config: string, report: ConfigReport)

  function ConfigOf(e: ConfigEntry): string { e.config }
  function TotalOf(e: ConfigEntry): nat { e.report.total }

  /** Some row of the table carries configuration name `c`. */
  ghost predicate Occurs<T>(rows: seq<T>, key: T -> string, c: string) {
    exists i :: 0 <= i < |rows| && key(rows[i]) == c
  }

  /** The statistics of every column over a non-empty selection of rows, in column order. */
  function Spreads<T>(rows: seq<T>, cols: seq<Column<T>>): (r: seq<MetricEntry>)
    requires rows != []
    ensures |r| == |cols|
    ensures forall i :: 0 <= i < |r| ==> r[i].metric == cols[i].name
    ensures forall i :: 0 <= i < |r| ==>
              r[i].stats.min <= r[i].stats.mean <= r[i].stats.max
    ensures forall i :: 0 <= i < |r| ==> r[i].stats == SpreadOf(rows, cols[i].value)
    ensures forall i, k :: 0 <= i < |r| && 0 <= k < |rows| ==>
              r[i].stats.min <= cols[i].value(rows[k]) <= r[i].stats.max
  {
    if cols == [] then []
    else [MetricEntry(cols[0].name, SpreadOf(rows, cols[0].value))] + Spreads(rows, cols[1..])
  }

  /** The report of configuration `c`, which has at least one row. */
  function ReportOf<T(!new)>(rows: seq<T>, key: T -> string, stamp: T -> int, cols: seq<Column<T>>, c: string): (r: ConfigReport)
    requires Occurs(rows, key, c)
    ensures r.total == |Group(rows, key, c)| && r.total > 0
    ensures r.metrics == Spreads(Group(rows, key, c), cols)
    ensures forall i :: 0 <= i < |rows| && key(rows[i]) == c ==> stamp(rows[i]) <= r.timestamp
    ensures exists i :: 0 <= i < |rows| && key(rows[i]) == c && stamp(rows[i]) == r.timestamp
  {
    var group := Group(rows, key, c);
    var k :| 0 <= k < |rows| && key(rows[k]) == c;
    assert rows[k] in group;
    var latest := LatestOf(group, stamp);
    forall i | 0 <= i < |rows| && key(rows[i]) == c ensures stamp(rows[i]) <= latest {
      assert rows[i] in group;
    }
    var j :| 0 <= j < |group| && stamp(group[j]) == latest;
    assert group[j] in rows;
    ConfigReport(Spreads(group, cols), latest, |group|)
  }

  /** The reports of the configurations `ks`, in that order. */
  function Reports<T(!new)>(rows: seq<T>, key: T -> string, stamp: T -> int, cols: seq<Column<T>>, ks: seq<string>): (r: seq<ConfigEntry>)
    requires forall j :: 0 <= j < |ks| ==> Occurs(rows, key, ks[j])
    ensures |r| == |ks|
    ensures forall i :: 0 <= i < |r| ==> r[i].config == ks[i] && r[i].report == ReportOf(rows, key, stamp, cols, ks[i])
  {
    seq(|ks|, i requires 0 <= i < |ks| => ConfigEntry(ks[i], ReportOf(rows, key, stamp, cols, ks[i])))
  }

  /** The summary dictionary: one entry per distinct configuration of the
      table, in order of first appearance, each holding that configuration's
      report (nothing for an empty table). */
  function SummaryByConfig<T(!new)>(rows: seq<T>, key: T -> string, stamp: T -> int, cols: seq<Column<T>>): (r: seq<ConfigEntry>)
    ensures rows == [] ==> r == []
    ensures Project(r, ConfigOf) == Distinct(Project(rows, key))
    ensures forall i :: 0 <= i < |r| ==> Occurs(rows, key, r[i].config) && r[i].report == ReportOf(rows, key, stamp, cols, r[i].config)
  {
    var ks := Distinct(Project(rows, key));
    forall j | 0 <= j < |ks| ensures Occurs(rows, key, ks[j]) {
      assert ks[j] in ks;
      var i :| 0 <= i < |rows| && Project(rows, key)[i] == ks[j];
    }
    var r := Reports(rows, key, stamp, cols, ks);
    assert Project(r, ConfigOf) == ks;
    r
  }

  lemma {:induction false} ReportsTotal<T(!new)>(rows: seq<T>, key: T -> string, stamp: T -> int, cols: seq<Column<T>>, ks: seq<string>)
    requires forall j :: 0 <= j < |ks| ==> Occurs(rows, key, ks[j])
    ensures NatSumOf(Reports(rows, key, stamp, cols, ks), TotalOf) == GroupSizes(rows, key, ks)
  {
    if ks != [] {
      ReportsTotal(rows, key, stamp, cols, ks[1..]);
      assert Reports(rows, key, stamp, cols, ks)[1..] == Reports(rows, key, stamp, cols, ks[1..]);
    }
  }

  /** Every row is counted under exactly one configuration: the totals of
      the summary add up to the number of rows. */
  lemma TotalsAddUp<T(!new)>(rows: seq<T>, key: T -> string, stamp: T -> int, cols: seq<Column<T>>)
    ensures NatSumOf(SummaryByConfig(rows, key, stamp, cols), TotalOf) == |rows|
  {
    var ks := Distinct(Project(rows, key));
    forall j | 0 <= j < |ks| ensures Occurs(rows, key, ks[j]) {
      assert ks[j] in ks;
      var i :| 0 <= i < |rows| && Project(rows, key)[i] == ks[j];
    }
    ReportsTotal(rows, key, stamp, cols, ks);
    DistinctGroupsCoverAll(rows, key);
  }

  /** The configuration names of the summary are unique, and a name has an
      entry exactly when some row carries it. */
  lemma OneEntryPerConfig<T(!new)>(rows: seq<T>, key: T -> string, stamp: T -> int, cols: seq<Column<T>>)
    ensures NoDups(Project(SummaryByConfig(rows, key, stamp, cols), ConfigOf))
    ensures forall c :: c in Project(SummaryByConfig(rows, key, stamp, cols), ConfigOf) <==> Occurs(rows, key, c)
  {
    var ks := Project(rows, key);
    forall c ensures c in ks <==> Occurs(rows, key, c) {
      if c in ks {
        var i :| 0 <= i < |rows| && ks[i] == c;
      }
    }
  }
}
