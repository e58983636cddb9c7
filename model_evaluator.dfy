/** The guardrails analysis of the evaluator dashboard: how a context-relevance
    threshold would filter the evaluated interactions and what that does to
    answer quality, and the per-configuration summary of the three quality
    scores. */
module ModelEvaluator {
  import opened Optional
  import opened Seqs
  import opened Stats
  import opened ConfigSummary

  /** One evaluated interaction. */
  datatype EvalRecord = EvalRecord(
    configName: string,
    timestamp: int,
    groundedness: real,
    contextRelevance: real,
    answerRelevance: real)

  function ConfigNameOf(r: EvalRecord): string { r.configName }
  function StampOf(r: EvalRecord): int { r.timestamp }
  function GroundednessOf(r: EvalRecord): real { r.groundedness }
  function AnswerRelevanceOf(r: EvalRecord): real { r.answerRelevance }

  /** The rows a threshold filters out: context relevance below it. */
  function FilteredOut(rows: seq<EvalRecord>, threshold: real): (r: seq<EvalRecord>)
    ensures forall x :: x in r <==> x in rows && x.contextRelevance < threshold
  {
    Filter(rows, (x: EvalRecord) => x.contextRelevance < threshold)
  }

  /** The rows a threshold keeps: context relevance at or above it. */
  function Kept(rows: seq<EvalRecord>, threshold: real): (r: seq<EvalRecord>)
    ensures forall x :: x in r <==> x in rows && x.contextRelevance >= threshold
  {
    Filter(rows, (x: EvalRecord) => x.contextRelevance >= threshold)
  }

  /** Every row is either filtered out or kept, never both. */
  lemma FilterPartition(rows: seq<EvalRecord>, threshold: real)
    ensures |FilteredOut(rows, threshold)| + |Kept(rows, threshold)| == |rows|
  {
    FilterPartitionLength(rows, (x: EvalRecord) => x.contextRelevance < threshold, (x: EvalRecord) => x.contextRelevance >= threshold);
  }

  /** A stricter threshold keeps a selection of what a laxer one keeps. */
  lemma StricterKeepsFewer(rows: seq<EvalRecord>, lax: real, strict: real)
    requires lax <= strict
    ensures Kept(Kept(rows, lax), strict) == Kept(rows, strict)
    ensures |Kept(rows, strict)| <= |Kept(rows, lax)|
  {
    FilterFilter(rows, (x: EvalRecord) => x.contextRelevance >= lax, (x: EvalRecord) => x.contextRelevance >= strict);
  }

  /** The two quality figures before or after filtering; undefined (NaN) over no rows. */
  datatype Quality = Quality(relevance: Option<real>, groundedness: Option<real>)

  /** The dictionary returned by `analyze_filtering_impact`. */
  datatype FilterImpact = FilterImpact(
    filteredChunks: nat,
    qualityImprovement: real,
    threshold: real,
    before: Quality,
    after: Quality)

  /** The mean answer relevance and the mean groundedness of a table: each
      lies between its column's extremes and once per row adds up to the
      column's sum; both are undefined (NaN) on an empty table. */
  function QualityOf(rows: seq<EvalRecord>): (q: Quality)
    ensures q.relevance.None? <==> rows == []
    ensures q.groundedness.None? <==> rows == []
    ensures q.relevance.Some? ==> MinOf(rows, AnswerRelevanceOf) <= q.relevance.value <= MaxOf(rows, AnswerRelevanceOf)
    ensures q.groundedness.Some? ==> MinOf(rows, GroundednessOf) <= q.groundedness.value <= MaxOf(rows, GroundednessOf)
    ensures q.relevance.Some? ==> Scale(|rows|, q.relevance.value) == SumOf(rows, AnswerRelevanceOf)
    ensures q.groundedness.Some? ==> Scale(|rows|, q.groundedness.value) == SumOf(rows, GroundednessOf)
  {
    Quality(MaybeMean(rows, AnswerRelevanceOf), MaybeMean(rows, GroundednessOf))
  }

  /** The filtering impact of `threshold`: the number of rows it filters out,
      the quality over all rows and over the kept rows, the change in answer
      relevance (0 when nothing is kept, so that the mean after filtering is
      undefined), and the threshold itself. */
  function AnalyzeFilteringImpact(rows: seq<EvalRecord>, threshold: real): (r: FilterImpact)
    ensures r.filteredChunks == |FilteredOut(rows, threshold)|
    ensures r.threshold == threshold
    ensures r.before == QualityOf(rows)
    ensures r.after == QualityOf(Kept(rows, threshold))
    ensures Kept(rows, threshold) == [] ==> r.qualityImprovement == 0.0
    ensures Kept(rows, threshold) != [] ==>
              r.before.relevance.Some? && r.after.relevance.Some?
              && r.qualityImprovement == r.after.relevance.value - r.before.relevance.value
  {
    var kept := Kept(rows, threshold);
    var before, after := QualityOf(rows), QualityOf(kept);
    var improvement :=
      if kept == [] then 0.0
      else
        assert kept[0] in rows;
        after.relevance.value - before.relevance.value;
    FilterImpact(|FilteredOut(rows, threshold)|, improvement, threshold, before, after)
  }

  /** A threshold that every row meets filters nothing and changes nothing. */
  lemma NothingFilteredNoImprovement(rows: seq<EvalRecord>, threshold: real)
    requires forall i :: 0 <= i < |rows| ==> rows[i].contextRelevance >= threshold
    ensures AnalyzeFilteringImpact(rows, threshold).filteredChunks == 0
    ensures AnalyzeFilteringImpact(rows, threshold).qualityImprovement == 0.0
    ensures AnalyzeFilteringImpact(rows, threshold).after == AnalyzeFilteringImpact(rows, threshold).before
  {
    FilterAll(rows, (x: EvalRecord) => x.contextRelevance >= threshold);
    FilterPartition(rows, threshold);
  }

  /** The three scores summarised, in dictionary order. */
  const ScoreColumns: seq<Column<EvalRecord>> := [
    Column("Groundedness", GroundednessOf),
    Column("Context Relevance", (r: EvalRecord) => r.contextRelevance),
    Column("Answer Relevance", AnswerRelevanceOf)]

  /** The evaluation summary: one entry per distinct configuration, in order
      of first appearance, holding that configuration's report over the three
      scores (nothing for an empty table, as the loop runs over no names). */
  function GetEvaluationSummary(rows: seq<EvalRecord>): (r: seq<ConfigEntry>)
    ensures rows == [] ==> r == []
    ensures Project(r, ConfigOf) == Distinct(Project(rows, ConfigNameOf))
    ensures forall i :: 0 <= i < |r| ==>
              && Occurs(rows, ConfigNameOf, r[i].config)
              && r[i].report == ReportOf(rows, ConfigNameOf, StampOf, ScoreColumns, r[i].config)
  {
    SummaryByConfig(rows, ConfigNameOf, StampOf, ScoreColumns)
  }

  /** Every evaluated interaction is counted once: the `total_queries` of the
      configurations add up to the number of rows. */
  lemma QueryTotalsAddUp(rows: seq<EvalRecord>)
    ensures NatSumOf(GetEvaluationSummary(rows), TotalOf) == |rows|
  {
    TotalsAddUp(rows, ConfigNameOf, StampOf, ScoreColumns);
  }

  /** The guardrails section: the summary and the filtering impact are shown
      only for a non-empty table. */
  datatype GuardrailsView = GuardrailsView(summary: Option<seq<ConfigEntry>>, impact: Option<FilterImpact>)

  function DisplayGuardrails(rows: seq<EvalRecord>, threshold: real): (r: GuardrailsView)
    ensures r.summary.None? <==> rows == []
    ensures r.impact.None? <==> rows == []
    ensures r.impact.Some? ==> r.impact.value.threshold == threshold
  {
    if rows == [] then GuardrailsView(None, None)
    else GuardrailsView(Some(GetEvaluationSummary(rows)), Some(AnalyzeFilteringImpact(rows, threshold)))
  }
}
