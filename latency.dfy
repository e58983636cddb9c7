/** The latency panel of the dashboard: the response-time distribution over
    four threshold categories, and the latency summary of the RAG pipeline
    (total time, and retrieval and generation time when recorded). */
module Latency {
  import opened Optional
  import opened Seqs
  import opened Stats

  /** A threshold in milliseconds, or no threshold at all (`float('inf')`). */
  datatype Bound = Finite(ms: real) | Infinite

  /** `x > b`: nothing lies above infinity. */
  predicate Above(x: real, b: Bound) {
    match b
    case Finite(ms) => x > ms
    case Infinite => false
  }

  /** `x <= b`: everything lies below infinity. */
  predicate AtMost(x: real, b: Bound) {
    match b
    case Finite(ms) => x <= ms
    case Infinite => true
  }

  /** The categories and their upper thresholds, in dictionary order. */
  const Categories: seq<string> := ["Excellent", "Good", "Fair", "Poor"]
  const Thresholds: seq<Bound> := [Finite(1000.0), Finite(2000.0), Finite(3000.0), Infinite]

  /** The lower end of category `i`: 0 for the first, and the previous
      category's threshold after that. */
  function Lower(i: nat): Bound
    requires i < |Thresholds|
  {
    if i == 0 then Finite(0.0) else Thresholds[i - 1]
  }

  /** Category `i` covers the latencies in `(Lower(i), Thresholds[i]]`. */
  predicate InCategory(x: real, i: nat)
    requires i < |Thresholds|
  {
    Above(x, Lower(i)) && AtMost(x, Thresholds[i])
  }

  /** The latencies in the half-open band `(lower, upper]`. */
  function InBand(latencies: seq<real>, lower: Bound, upper: Bound): (r: seq<real>)
    ensures forall x :: x in r <==> x in latencies && Above(x, lower) && AtMost(x, upper)
  {
    Filter(latencies, x => Above(x, lower) && AtMost(x, upper))
  }

  /** The number of latencies in category `i`. */
  function CategoryCount(latencies: seq<real>, i: nat): nat
    requires i < |Thresholds|
  {
    |InBand(latencies, Lower(i), Thresholds[i])|
  }

  /** No latency falls in two categories. */
  lemma CategoriesDisjoint(x: real, i: nat, j: nat)
    requires i < j < |Thresholds|
    ensures !(InCategory(x, i) && InCategory(x, j))
  {
  }

  /** A latency falls in some category exactly when it is positive. */
  lemma CategoriesCoverPositive(x: real)
    ensures (exists i :: 0 <= i < |Thresholds| && InCategory(x, i)) <==> x > 0.0
  {
    if x > 0.0 {
      if x <= 1000.0 {
        assert InCategory(x, 0);
      } else if x <= 2000.0 {
        assert InCategory(x, 1);
      } else if x <= 3000.0 {
        assert InCategory(x, 2);
      } else {
        assert InCategory(x, 3);
      }
    }
  }

  /** A latency on a threshold belongs to the lower category: one second
      exactly is still "Excellent". */
  lemma BoundaryGoesDown()
    ensures InCategory(1000.0, 0) && !InCategory(1000.0, 1)
    ensures InCategory(2000.0, 1) && !InCategory(2000.0, 2)
    ensures InCategory(3000.0, 2) && !InCategory(3000.0, 3)
  {
  }

  function Positive(latencies: seq<real>): seq<real>
  {
    Filter(latencies, x => x > 0.0)
  }

  /** The four category counts add up to the number of positive latencies. */
  lemma {:induction false} CategoryCountsAddUp(latencies: seq<real>)
    ensures CategoryCount(latencies, 0) + CategoryCount(latencies, 1)
          + CategoryCount(latencies, 2) + CategoryCount(latencies, 3) == |Positive(latencies)|
  {
    if latencies != [] {
      CategoryCountsAddUp(latencies[1..]);
    }
  }

  /** One entry of the distribution: a category and the percentage of requests in it. */
  datatype CategoryShare = CategoryShare(category: string, percentage: real)

  /** The distribution the panel shows: for each category, in order, the
      percentage of requests that fall in it (0 when there are no requests). */
  function Distribution(latencies: seq<real>): (r: seq<CategoryShare>)
    ensures |r| == |Categories|
  {
    seq(|Thresholds|, i requires 0 <= i < |Thresholds| =>
      CategoryShare(Categories[i], Percent(CategoryCount(latencies, i) as real, |latencies| as real)))
  }

  /** The loop that fills the distribution, carrying the previous category's
      threshold as the lower end of the next one. */
  method ThresholdDistribution(latencies: seq<real>) returns (dist: seq<CategoryShare>)
    ensures dist == Distribution(latencies)
  {
    var total := |latencies|;
    var prev := Finite(0.0);
    dist := [];
    var i := 0;
    while i < |Thresholds|
      invariant 0 <= i <= |Thresholds|
      invariant dist == Distribution(latencies)[..i]
      invariant i < |Thresholds| ==> prev == Lower(i)
    {
      var count := |InBand(latencies, prev, Thresholds[i])|;
      var share := if total > 0 then count as real / total as real * 100.0 else 0.0;
      dist := dist + [CategoryShare(Categories[i], share)];
      prev := Thresholds[i];
      i := i + 1;
    }
  }

  function PercentageOf(entry: CategoryShare): real { entry.percentage }

  lemma PercentAdds(a: real, b: real, whole: real)
    ensures Percent(a, whole) + Percent(b, whole) == Percent(a + b, whole)
  {
  }

  /** The percentages of the distribution add up to the percentage of
      positive latencies: 100 exactly when there is a request and every
      latency is positive. */
  lemma DistributionTotal(latencies: seq<real>)
    ensures SumOf(Distribution(latencies), PercentageOf) == Percent(|Positive(latencies)| as real, |latencies| as real)
    ensures SumOf(Distribution(latencies), PercentageOf) == 100.0 <==>
              latencies != [] && forall x :: x in latencies ==> x > 0.0
  {
    var dist := Distribution(latencies);
    var n := |latencies| as real;
    var c0, c1 := CategoryCount(latencies, 0) as real, CategoryCount(latencies, 1) as real;
    var c2, c3 := CategoryCount(latencies, 2) as real, CategoryCount(latencies, 3) as real;
    SumOfFour(dist, PercentageOf);
    PercentAdds(c2, c3, n);
    PercentAdds(c1, c2 + c3, n);
    PercentAdds(c0, c1 + c2 + c3, n);
    CategoryCountsAddUp(latencies);
    FilterKeepsAll(latencies, x => x > 0.0);
    PercentFull(|Positive(latencies)| as real, n);
  }

  lemma SumOfFour<T>(s: seq<T>, f: T -> real)
    requires |s| == 4
    ensures SumOf(s, f) == f(s[0]) + f(s[1]) + f(s[2]) + f(s[3])
  {
    var s1, s2, s3 := s[1..], s[2..], s[3..];
    assert s1[1..] == s2 && s2[1..] == s3 && s3[1..] == [];
    assert SumOf(s3, f) == f(s[3]);
    assert SumOf(s2, f) == f(s[2]) + SumOf(s3, f);
    assert SumOf(s1, f) == f(s[1]) + SumOf(s2, f);
  }

  /** A part is 100 percent of a positive whole exactly when it is the whole. */
  lemma PercentFull(part: real, whole: real)
    requires whole >= 0.0
    ensures Percent(part, whole) == 100.0 <==> whole > 0.0 && part == whole
  {
  }

  /** One row of the latency table: the total time and, when the pipeline
      recorded them, the retrieval and generation times. */
  datatype LatencyRow = LatencyRow(totalMs: real, retrievalMs: real, generationMs: real)

  /** The latency table; a component column may be absent altogether. */
  datatype LatencyFrame = LatencyFrame(rows: seq<LatencyRow>, hasRetrieval: bool, hasGeneration: bool)

  function TotalMsOf(r: LatencyRow): real { r.totalMs }
  function RetrievalMsOf(r: LatencyRow): real { r.retrievalMs }
  function GenerationMsOf(r: LatencyRow): real { r.generationMs }

  /** Summary of the total latency. */
  datatype TotalStats = TotalStats(average: real, min: real, max: real)

  /** Summary of one pipeline component. */
  datatype ComponentStats = ComponentStats(average: real, percentage: real)

  /** The dictionary returned by `get_latency_summary` for a non-empty table. */
  datatype LatencyReport = LatencyReport(
    total: TotalStats,
    retrieval: Option<ComponentStats>,
    generation: Option<ComponentStats>)

  /** A component's share of the total time as a percentage: times the total
      time it is 100 times the component's time, and it is 0 when the total
      time is not positive. */
  function ShareOf(rows: seq<LatencyRow>, column: LatencyRow -> real): (p: real)
    ensures SumOf(rows, TotalMsOf) > 0.0 ==> p * SumOf(rows, TotalMsOf) == SumOf(rows, column) * 100.0
    ensures SumOf(rows, TotalMsOf) <= 0.0 ==> p == 0.0
  {
    Percent(SumOf(rows, column), SumOf(rows, TotalMsOf))
  }

  /** A component's entry: its mean, which lies between the component's
      extremes and once per row adds up to the component's total time, and
      its share of the total time. */
  function ComponentOf(rows: seq<LatencyRow>, column: LatencyRow -> real): (r: ComponentStats)
    requires rows != []
    ensures MinOf(rows, column) <= r.average <= MaxOf(rows, column)
    ensures Scale(|rows|, r.average) == SumOf(rows, column)
    ensures r.percentage == ShareOf(rows, column)
  {
    ComponentStats(MeanOf(rows, column), ShareOf(rows, column))
  }

  /** The latency summary: nothing (`{}`) for an empty table; otherwise
      the mean, smallest and largest total latency (the mean once per row
      adds up to the total time, and both extremes occur in the table), and
      an entry for each component exactly when its column is present. */
  function LatencySummary(frame: LatencyFrame): (r: Option<LatencyReport>)
    ensures r.None? <==> frame.rows == []
    ensures r.Some? ==> r.value.total.min <= r.value.total.average <= r.value.total.max
    ensures r.Some? ==> Scale(|frame.rows|, r.value.total.average) == SumOf(frame.rows, TotalMsOf)
    ensures r.Some? ==> forall i :: 0 <= i < |frame.rows| ==>
              r.value.total.min <= frame.rows[i].totalMs <= r.value.total.max
    ensures r.Some? ==> exists i :: 0 <= i < |frame.rows| && frame.rows[i].totalMs == r.value.total.min
    ensures r.Some? ==> exists i :: 0 <= i < |frame.rows| && frame.rows[i].totalMs == r.value.total.max
    ensures r.Some? ==> (r.value.retrieval.Some? <==> frame.hasRetrieval)
    ensures r.Some? ==> (r.value.generation.Some? <==> frame.hasGeneration)
    ensures r.Some? && r.value.retrieval.Some? ==>
              r.value.retrieval.value == ComponentOf(frame.rows, RetrievalMsOf)
    ensures r.Some? && r.value.generation.Some? ==>
              r.value.generation.value == ComponentOf(frame.rows, GenerationMsOf)
  {
    if frame.rows == [] then None
    else
      var rows := frame.rows;
      var spread := SpreadOf(rows, TotalMsOf);
      Some(LatencyReport(
        TotalStats(spread.mean, spread.min, spread.max),
        if frame.hasRetrieval then Some(ComponentOf(rows, RetrievalMsOf)) else None,
        if frame.hasGeneration then Some(ComponentOf(rows, GenerationMsOf)) else None))
  }
}
