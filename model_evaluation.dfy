/** The model-configuration panel of the evaluation dashboard: the summary of
    evaluation results per configuration, the settings shown for a selected
    configuration, and the guards in front of a new evaluation run. */
module ModelEvaluation {
  import opened Optional
  import opened Seqs
  import opened Stats
  import opened ConfigSummary

  /** One evaluation result: the configuration it ran under, when, its five
      scores, and the configuration's other columns (its settings) as text. */
  datatype EvalRow = EvalRow(
    configName: string,
    timestamp: int,
    answerSimilarity: real,
    factualAccuracy: real,
    contextRelevance: real,
    responseRelevance: real,
    completionQuality: real,
    settings: map<string, string>)

  function ConfigNameOf(r: EvalRow): string { r.configName }
  function StampOf(r: EvalRow): int { r.timestamp }

  /** The five scores summarised, in dictionary order. */
  const MetricColumns: seq<Column<EvalRow>> := [
    Column("answer_similarity", (r: EvalRow) => r.answerSimilarity),
    Column("factual_accuracy", (r: EvalRow) => r.factualAccuracy),
    Column("context_relevance", (r: EvalRow) => r.contextRelevance),
    Column("response_relevance", (r: EvalRow) => r.responseRelevance),
    Column("completion_quality", (r: EvalRow) => r.completionQuality)]

  /** The evaluation summary: nothing (`{}`) for an empty table; otherwise one
      entry per distinct configuration, in order of first appearance, holding
      that configuration's report over the five scores. */
  function GetEvaluationSummary(rows: seq<EvalRow>): (r: seq<ConfigEntry>)
    ensures rows == [] ==> r == []
    ensures Project(r, ConfigOf) == Distinct(Project(rows, ConfigNameOf))
    ensures forall i :: 0 <= i < |r| ==>
              && Occurs(rows, ConfigNameOf, r[i].config)
              && r[i].report == ReportOf(rows, ConfigNameOf, StampOf, MetricColumns, r[i].config)
  {
    SummaryByConfig(rows, ConfigNameOf, StampOf, MetricColumns)
  }

  /** The entry of a configuration counts its evaluations, carries its latest
      timestamp, and lists the five scores in order. Over the configuration's
      rows each score has min <= mean <= max, its mean once per row adds up
      to the score's sum, and both extremes occur among those rows. */
  lemma EvaluationEntry(rows: seq<EvalRow>, i: nat)
    requires i < |GetEvaluationSummary(rows)|
    ensures var e := GetEvaluationSummary(rows)[i];
      var g := Group(rows, ConfigNameOf, e.config);
      && e.report.total == |g| > 0
      && (forall k :: 0 <= k < |rows| && rows[k].configName == e.config ==> rows[k].timestamp <= e.report.timestamp)
      && (exists k :: 0 <= k < |rows| && rows[k].configName == e.config && rows[k].timestamp == e.report.timestamp)
      && |e.report.metrics| == 5
      && forall j :: 0 <= j < 5 ==>
           && e.report.metrics[j].metric == MetricColumns[j].name
           && e.report.metrics[j].stats.min <= e.report.metrics[j].stats.mean <= e.report.metrics[j].stats.max
           && Scale(|g|, e.report.metrics[j].stats.mean) == SumOf(g, MetricColumns[j].value)
           && (exists k :: 0 <= k < |g| && MetricColumns[j].value(g[k]) == e.report.metrics[j].stats.min)
           && (exists k :: 0 <= k < |g| && MetricColumns[j].value(g[k]) == e.report.metrics[j].stats.max)
  {
  }

  /** Every evaluation is counted once: the totals add up to the number of rows. */
  lemma EvaluationTotalsAddUp(rows: seq<EvalRow>)
    ensures NatSumOf(GetEvaluationSummary(rows), TotalOf) == |rows|
  {
    TotalsAddUp(rows, ConfigNameOf, StampOf, MetricColumns);
  }

  /** Each configuration has exactly one entry. */
  lemma EvaluationEntriesUnique(rows: seq<EvalRow>)
    ensures NoDups(Project(GetEvaluationSummary(rows), ConfigOf))
    ensures forall c :: c in Project(GetEvaluationSummary(rows), ConfigOf) <==> c in Project(rows, ConfigNameOf)
  {
  }

  /** The settings shown for a configuration. */
  const SettingKeys: set<string> := {"context_window", "temperature", "top_p", "max_tokens"}

  /** A row's columns restricted to the four settings. */
  function ConfigSettings(columns: map<string, string>): (r: map<string, string>)
    ensures r.Keys == columns.Keys * SettingKeys
    ensures forall k :: k in r ==> r[k] == columns[k]
  {
    map k | k in columns.Keys && k in SettingKeys :: columns[k]
  }

  /** The settings shown for the selected configuration, taken from its first
      row (the configuration is one of the table's own). */
  function DisplayedSettings(rows: seq<EvalRow>, config: string): (r: map<string, string>)
    requires config in Project(rows, ConfigNameOf)
    ensures exists i :: 0 <= i < |rows| && rows[i].configName == config
              && (forall j :: 0 <= j < i ==> rows[j].configName != config)
              && r.Keys == rows[i].settings.Keys * SettingKeys
              && forall k :: k in r ==> r[k] == rows[i].settings[k]
  {
    var i := FirstIndex(Project(rows, ConfigNameOf), config);
    ConfigSettings(rows[i].settings)
  }

  /** The settings of a new evaluation run, stamped with the time of the run. */
  datatype RunSettings = RunSettings(contextWindow: int, temperature: real, topP: real, maxTokens: int, timestamp: string)

  /** What pressing (or not pressing) "Run Evaluation" leads to. */
  datatype RunOutcome = Idle | MissingName | MissingChatbot | Completed | Failed(error: string)

  /** The outcome, and how many evaluations were started. */
  datatype Run = Run(outcome: RunOutcome, evaluations: nat)

  /** The guards of a new evaluation run, in order: nothing happens unless the
      button is pressed; an empty configuration name is rejected first, a
      missing chatbot second, and only then is the evaluation started, once;
      an error it raises is reported. `evaluate` is the evaluator, returning
      the error it raised, if any. */
  function RunNewEvaluation(pressed: bool, configName: string, hasChatbot: bool, settings: RunSettings,
                            evaluate: (string, RunSettings) -> Option<string>): (r: Run)
    ensures !pressed ==> r == Run(Idle, 0)
    ensures pressed && configName == "" ==> r == Run(MissingName, 0)
    ensures pressed && configName != "" && !hasChatbot ==> r == Run(MissingChatbot, 0)
    ensures r.evaluations == 1 <==> pressed && configName != "" && hasChatbot
    ensures r.evaluations <= 1
    ensures r.outcome == Completed <==> r.evaluations == 1 && evaluate(configName, settings).None?
    ensures r.outcome.Failed? ==> r.evaluations == 1 && evaluate(configName, settings) == Some(r.outcome.error)
  {
    if !pressed then Run(Idle, 0)
    else if configName == "" then Run(MissingName, 0)
    else if !hasChatbot then Run(MissingChatbot, 0)
    else
      match evaluate(configName, settings)
      case None => Run(Completed, 1)
      case Some(error) => Run(Failed(error), 1)
  }
}
