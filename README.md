# CivicSense in Dafny

CivicSense is a retrieval-augmented chatbot for government policy documents,
with an evaluation dashboard around it. This project models the parts of it
that hold logic of their own. Those parts fall into three groups.

- **The RAG response path.**
  - The policy chatbot (`PolicyChatbot`, in `chatbot.dfy`) retrieves chunks, shapes them into references with signed download links, and answers from them. It falls back to fixed messages when nothing is found or the model fails.
  - The conversational predictor (`Predictor`, in `llm_rag.dfy`) rewrites a follow-up question into a standalone one, retrieves with it, and answers the original question.
  - The chat page (`references.dfy`) groups an answer's references by source document and offers each linked document for download.
- **The interaction tracker** (`EnhancedMetrics`, in `metrics.dfy`). This is a class holding three append-only logs: token usage, latency and cost. One record is appended to each log per interaction, and summary dictionaries are read back from the logs.
- **The dashboard aggregators.** These are pure summaries over tables of metric records:
  - the token summary and the daily token table (`token_usage.dfy`);
  - the latency threshold distribution and summary (`latency.dfy`);
  - the daily cost table with its running total, and the cost windows (`cost.dfy`);
  - the quality-score summary (`performance.dfy`);
  - the per-configuration evaluation summaries (`model_evaluation.dfy`, `model_evaluator.dfy` and `config_summary.dfy`);
  - the relevance-threshold filtering impact (`model_evaluator.dfy`);
  - the data loaders (`data_loaders.dfy`).

Shared definitions live in `seqs.dfy` (filtering, projection, distinct values, grouping), `stats.dfy` (sums, means, extremes and percentages over a column) and `timeline.dfy` (calendar days, per-day sums, recency windows). `optional.dfy` holds `Option` and `Result`.

Modelling choices:

- Tables are sequences of record datatypes, and a dictionary with a fixed set of keys is a record. The summary dictionaries keyed by configuration or document are ordered sequences of entries. Python dictionaries keep insertion order, and that order is part of what is proved.
- Token counts are `nat`. Costs, latencies and scores are `real`. Timestamps are integer seconds, and a calendar day is `timestamp / 86400`.
- A mean over no rows, which is NaN in pandas, is `None` where the source lets it through. Examples are the daily averages of days without queries and the token panel's completion percentage when no tokens were used.
- The outside services are parameters, as are the clock and the pure helpers of the Python library that the model does not re-implement:
  - the search service, the language model and the signed-link query;
  - `now`;
  - `mimetypes.guess_type`, the CSV writer, and `str()` of a context list or a chat history.

  A call to a service that can raise returns a `Result`, so the error paths are modelled: the chatbot catches each of these errors and falls back, and the predictor lets every one of them escape.
- In `backup/src/chatbot.py`:
  - `retrieve` is a method with the source's loop. It counts the signed-link requests it makes, and it is proved against the function `RetrieveSpec`.
  - `get_response` and `query` are branch-and-call code. They are a function and a method that delegate to it.
- In `backup/app.py`, the grouping loop of `display_message_with_references` is a method with that loop. It is proved equal to a declarative definition `Grouped`. The properties the page relies on are proved about `Grouped`: first-appearance order, one entry per document, chunks in reference order, and the link of the first reference.

The code is followed where its prose description differs:

- `retrieve` requests a signed link once per hit that has a path, not once per distinct document.
- The predictor's `sources` is an ordered list that keeps duplicates, not a set.
- Nothing in the code bounds the number of hits by the retrieval limit, so the model does not assume it.
- The chatbot stores an empty source (`relative_path` defaulting to `""`) for a hit without a path, so on the chat page such references group under the empty name. `Unknown Source` is reached only by a reference that has no `source` key at all.

## Model

| member | source | states |
|---|---|---|
| Tracker.EnhancedMetrics.constructor | src/evaluator/metrics.py:7-14 | a log already in the session is kept, and a missing one starts empty |
| Tracker.EnhancedMetrics.TrackInteraction | src/evaluator/metrics.py:16-45 | exactly one record is appended to each of the three logs, and earlier records are unchanged; the three records carry the same timestamp, so logs in lockstep stay in lockstep; the token, completion and cost totals grow by this interaction's figures, and the request count grows by one |
| Tracker.TokenEntry | src/evaluator/metrics.py:22-28 | the total is prompt plus completion tokens; the ratio times `max(1, prompt)` is the completion count, so it is defined (and equal to the completion count) with no prompt tokens |
| Tracker.LatencyEntry | src/evaluator/metrics.py:32-36 | the seconds field times 1000 is the millisecond latency |
| Tracker.CostEntry | src/evaluator/metrics.py:40-44 | the cost per token times `max(1, prompt + completion)` is the cost, so it is defined with no tokens |
| Tracker.AtLeastOne | src/evaluator/metrics.py:27 | `max(1, n)` is at least 1, and is `n` when `n` is positive |
| Tracker.TokenTotalsAdd | src/evaluator/metrics.py:59-62 | over consistent records, the sum of the totals is the prompt sum plus the completion sum |
| Tracker.EnhancedMetrics.GetTokenMetrics | src/evaluator/metrics.py:47-63 | all zero on an empty log; the total, prompt and completion figures are the sums of their columns, and total = prompt + completion over consistent records; the mean ratio lies between the smallest and largest ratio, and taken once per record it adds up to the sum of the ratios |
| Tracker.EnhancedMetrics.GetLatencyMetrics | src/evaluator/metrics.py:65-81 | all zero on an empty log; the request count is the number of records; the average taken once per record adds up to the sum of the latencies; min <= average <= max, every recorded latency lies between min and max, and both min and max are recorded latencies |
| Tracker.EnhancedMetrics.GetCostMetrics | src/evaluator/metrics.py:83-97 | all zero on an empty log; the total is the sum of costs; the average per request times the number of records is the total; the mean cost per token lies between its extremes and, taken once per record, adds up to the sum of the per-token costs |
| Tracker.EnhancedMetrics.GetAllMetrics | src/evaluator/metrics.py:99-105 | the three summaries together; with logs in lockstep the request count equals the length of every log |
| TokenUsage.EstimatedCostAdditive | src/dashboard/components/token_usage.py:156 | the price formula is linear: pricing two batches apart or together gives the same total |
| TokenUsage.EstimatedCostMonotone | src/dashboard/components/token_usage.py:156 | more prompt or completion tokens never cost less, and the price is 0 exactly when there are no tokens |
| TokenUsage.CostOfTotals | src/dashboard/components/token_usage.py:27-28 | pricing the column totals equals the sum of the per-row prices |
| TokenUsage.Share | src/dashboard/components/token_usage.py:155 | `part/whole` times `whole` is `part`; 0 when `whole` is 0; within [0, 1] when `part <= whole` |
| TokenUsage.TokenUsageSummary | src/dashboard/components/token_usage.py:133-157 | empty exactly for an empty table; the total, prompt and completion figures are the sums of their columns, and total = prompt + completion over consistent rows; the completion ratio is 0 with no tokens, lies in [0, 1], and times the total gives the completion count; the mean per query lies between its extremes and, taken once per row, adds up to the total; the estimated cost is the sum of the per-row prices |
| TokenUsage.TokenDisplayFigures | src/dashboard/components/token_usage.py:19-61 | shown only for a non-empty table; the unguarded completion percentage is undefined exactly when no tokens were used |
| TokenUsage.FiguresAgreeWithSummary | src/dashboard/components/token_usage.py:26-49 | the header and the summary agree on total tokens, price and mean per query, and the percentage is the summary's ratio times 100 |
| TokenUsage.DayRow | src/dashboard/components/token_usage.py:96-128 | a day's total, prompt and completion figures are the sums of those columns over the day's rows; its query count is its number of rows; the average per query times the count is the day's total, and is undefined for a day without rows; the day's price is the sum of its rows' prices |
| TokenUsage.DailyTokenStats | src/dashboard/components/token_usage.py:86-130 | one row for every calendar day from the last down to the first, each row being the statistics of its own day |
| TokenUsage.DailyStatsOrderAndCover | src/dashboard/components/token_usage.py:130 | the days are strictly descending, and every input row's day has a row in the table |
| TokenUsage.DailyCostsAddUp | src/dashboard/components/token_usage.py:125-128 | the daily prices add up to the price of the whole table |
| TokenUsage.DaysDownRows | src/dashboard/components/token_usage.py:96-130 | each row of the day list is the statistics of its own day |
| TokenUsage.DaysDownCost | src/dashboard/components/token_usage.py:125-128 | the prices of a run of days add up to the per-day totals over those days |
| Latency.InBand | src/dashboard/components/latency.py:154-157 | the latencies kept are exactly those above the lower threshold and at most the upper one |
| Latency.CategoriesDisjoint | src/dashboard/components/latency.py:152-159 | no latency falls into two categories |
| Latency.CategoriesCoverPositive | src/dashboard/components/latency.py:142-159 | a latency falls into some category exactly when it is positive |
| Latency.BoundaryGoesDown | src/dashboard/components/latency.py:154-157 | a latency on a threshold goes to the lower category (1000 ms is Excellent) |
| Latency.CategoryCountsAddUp | src/dashboard/components/latency.py:152-159 | the four category counts add up to the number of positive latencies |
| Latency.Distribution | src/dashboard/components/latency.py:142-159 | one entry per category, in dictionary order |
| Latency.ThresholdDistribution | src/dashboard/components/latency.py:149-159 | the loop carrying the previous threshold computes exactly the distribution of count/total*100 per category (0 when there are no requests) |
| Latency.DistributionTotal | src/dashboard/components/latency.py:150-159 | the percentages add up to the percentage of positive latencies, and to 100 exactly when there is a request and every latency is positive |
| Latency.PercentAdds | src/dashboard/components/latency.py:158 | the percentage of a sum is the sum of the percentages |
| Latency.PercentFull | src/dashboard/components/latency.py:158 | a part is 100 percent of a whole exactly when the whole is positive and the part is the whole |
| Latency.ShareOf | src/dashboard/components/latency.py:208-209 | a component's percentage times the total-latency sum is 100 times the component's sum, and it is 0 when that sum is not positive |
| Latency.ComponentOf | src/dashboard/components/latency.py:204-210 | a component's mean lies between its extremes and, taken once per row, adds up to the component's total time; its percentage is its ShareOf |
| Latency.LatencySummary | src/dashboard/components/latency.py:173-212 | empty exactly for an empty table; the average of the total latency, taken once per row, adds up to the total time; min <= average <= max, bounding every row, and both min and max occur in the table; a component entry appears exactly when its column is present |
| Cost.DayCost | src/dashboard/components/cost.py:132-142 | a day's total is the sum of its costs and its query count the number of its rows; the average times the count is the total, and is undefined for a day without rows; the running total is the sum over the days up to this one |
| Cost.AnalyzeDailyCosts | src/dashboard/components/cost.py:119-144 | empty for an empty table; otherwise one row per calendar day, latest first, each the cost row of its day with the running total counted from the first day |
| Cost.CostDaysDownRows | src/dashboard/components/cost.py:132-144 | each row of the day list is the cost row of its own day |
| Cost.LatestCumulativeIsTotal | src/dashboard/components/cost.py:142-144 | the running total on the latest day is the total cost |
| Cost.CumulativeMonotone | src/dashboard/components/cost.py:142 | with non-negative costs, the running total never grows towards earlier days |
| Cost.DailyCostsAddUp | src/dashboard/components/cost.py:132-142 | the per-day totals add up to the total cost |
| Cost.WindowsNested | src/dashboard/components/cost.py:161-163 | the 24-hour window is a selection from the 7-day window, which is one from the 30-day window |
| Cost.WindowSumsOrdered | src/dashboard/components/cost.py:161-170 | with non-negative costs, last 24h <= last 7d <= last 30d <= total |
| Cost.WindowDailyAverage | src/dashboard/components/cost.py:171 | 0 for an empty window; otherwise the average times the number of days is the window's sum |
| Cost.CostTrend | src/dashboard/components/cost.py:173-174 | 0 when the week is empty; undefined exactly when the week's costs sum to 0; otherwise the trend times the week's sum is 7 times the last day's sum |
| Cost.TrendIdentity | src/dashboard/components/cost.py:173-174 | dividing by a seventh of the week's sum is multiplying by 7 over it |
| Cost.GetCostSummary | src/dashboard/components/cost.py:147-175 | empty exactly for an empty table; total; mean per query between the extremes and times the count equal to the total; the three window sums; the 30-day daily average; the query count; the trend |
| Cost.AllTimeDays | src/dashboard/components/cost.py:96-98 | the all-time divisor is at least 1 |
| Cost.AllTimeDaysAgainstCalendar | src/dashboard/components/cost.py:96-98 | the divisor counts elapsed whole days: it is the number of calendar days in the daily table, or one fewer |
| Cost.CostDisplayFigures | src/dashboard/components/cost.py:20-102 | shown only for a non-empty table; the daily average is the month's; the 24-hour delta is against it; the all-time average times its divisor is the total; the weekly average is the 7-day window's |
| Cost.FiguresAgreeWithSummary | src/dashboard/components/cost.py:36-62 | the panel and the summary agree on the total, the daily average, the last 24 hours and the average per query |
| Performance.LowerChar | src/dashboard/components/performance.py:149 | an upper-case letter becomes its lower-case letter (32 code points on), and any other character is unchanged |
| Performance.KeyChar | src/dashboard/components/performance.py:149 | a space becomes `_`, and any other character is lowered; the result is neither a space nor an upper-case letter |
| Performance.SnakeKey | src/dashboard/components/performance.py:149 | same length as the name, each character the key character of the name's character at that place, so no space and no upper-case letter remains |
| Performance.SnakeKeys | src/dashboard/components/performance.py:142-149 | the keys are exactly `groundedness`, `context_relevance`, `answer_relevance`, the snake-case column names |
| Performance.Tail | src/dashboard/components/performance.py:147 | the last `k` rows in order, or the whole table when it has `k` rows or fewer |
| Performance.TailWithinRange | src/dashboard/components/performance.py:147-154 | the extremes of the whole column bound those of any tail |
| Performance.SummaryOfBounds | src/dashboard/components/performance.py:145-156 | min <= current <= max and min <= recent <= max; current and recent are the means of all rows and of the last five; current + trend = recent; trend is 0 with five rows or fewer |
| Performance.PerformanceSummary | src/dashboard/components/performance.py:129-158 | empty for an empty table; otherwise exactly the three score keys |
| Performance.SummaryMapLookup | src/dashboard/components/performance.py:149 | the three keys are distinct, so each looks up its own score's summary |
| Performance.PerformanceSummaryEntries | src/dashboard/components/performance.py:145-156 | each score's summary sits under that score's key |
| ConfigSummary.Spreads | src/dashboard/components/model_evaluation.py:237-244 | one entry per score column, in order, each the spread of its column: min <= mean <= max bounding every row, the mean taken once per row adding up to the column's sum, and both extremes occurring in the column |
| ConfigSummary.ReportOf | src/dashboard/components/model_evaluation.py:235-247 | a configuration's count is its number of rows, positive; its timestamp is the latest of its rows' |
| ConfigSummary.Reports | src/dashboard/components/model_evaluation.py:234-247 | one report per configuration, in the given order |
| ConfigSummary.SummaryByConfig | src/dashboard/components/model_evaluation.py:233-249 | nothing for an empty table; the configurations are the distinct names in order of first appearance, each with its report |
| ConfigSummary.TotalsAddUp | src/dashboard/components/model_evaluation.py:246 | the counts of the configurations add up to the number of rows |
| ConfigSummary.OneEntryPerConfig | src/dashboard/components/model_evaluation.py:234-236 | the names are unique, and a name has an entry exactly when some row carries it |
| ModelEvaluation.GetEvaluationSummary | src/dashboard/components/model_evaluation.py:215-249 | `{}` for an empty table; one entry per distinct configuration in first-appearance order, each its report over the five scores |
| ModelEvaluation.EvaluationEntry | src/dashboard/components/model_evaluation.py:236-247 | an entry counts its configuration's rows (at least one), carries their latest timestamp, and lists the five scores in order; over the configuration's rows each score has min <= mean <= max, its mean taken once per row adds up to the score's sum, and both extremes occur among those rows |
| ModelEvaluation.EvaluationTotalsAddUp | src/dashboard/components/model_evaluation.py:246 | the `total_evaluations` add up to the number of rows |
| ModelEvaluation.EvaluationEntriesUnique | src/dashboard/components/model_evaluation.py:234-236 | exactly one entry per configuration present in the table |
| ModelEvaluation.ConfigSettings | src/dashboard/components/model_evaluation.py:150-151 | only the keys `context_window`, `temperature`, `top_p` and `max_tokens` that the row has are kept, with their values |
| ModelEvaluation.DisplayedSettings | src/dashboard/components/model_evaluation.py:146-151 | the settings shown are those of the configuration's first row |
| ModelEvaluation.RunNewEvaluation | src/dashboard/components/model_evaluation.py:89-100 | nothing happens unless pressed; an empty name is rejected before a missing chatbot; one evaluation runs exactly when both checks pass, and its error is reported |
| ModelEvaluator.FilteredOut | src/evaluator/model_evaluator.py:140 | exactly the rows whose context relevance is below the threshold |
| ModelEvaluator.Kept | src/evaluator/model_evaluator.py:144 | exactly the rows whose context relevance is at or above the threshold |
| ModelEvaluator.FilterPartition | src/evaluator/model_evaluator.py:140-144 | filtered plus kept is the number of rows |
| ModelEvaluator.StricterKeepsFewer | src/evaluator/model_evaluator.py:144 | a stricter threshold keeps a selection of what a laxer one keeps |
| ModelEvaluator.QualityOf | src/evaluator/model_evaluator.py:143-157 | the means are undefined exactly over no rows; otherwise each lies between its extremes and, taken once per row, adds up to its column's sum |
| ModelEvaluator.AnalyzeFilteringImpact | src/evaluator/model_evaluator.py:137-158 | the filtered count; before and after quality over all rows and over the kept rows; the improvement is after − before, and 0 when nothing is kept; the threshold is returned unchanged |
| ModelEvaluator.NothingFilteredNoImprovement | src/evaluator/model_evaluator.py:140-148 | a threshold every row meets filters nothing and changes nothing |
| ModelEvaluator.GetEvaluationSummary | src/evaluator/model_evaluator.py:182-203 | one entry per distinct configuration in first-appearance order, each its report over the three scores |
| ModelEvaluator.QueryTotalsAddUp | src/evaluator/model_evaluator.py:199 | the `total_queries` add up to the number of rows |
| ModelEvaluator.DisplayGuardrails | src/evaluator/model_evaluator.py:89-116 | the summary and the filtering impact are computed exactly when the table is non-empty, with the threshold passed on |
| DataLoaders.Get | src/dashboard/data_loaders.py:25-26 | the value under the key, or the default when it is missing |
| DataLoaders.Flatten | src/dashboard/data_loaders.py:22-26 | every key but `metadata` is copied; with non-empty metadata, `question` and `answer` come from `query` and `response`, defaulting to "N/A"; truthy metadata that is not a dictionary fails |
| DataLoaders.LoadMetricsData | src/dashboard/data_loaders.py:12-32 | empty for a missing or empty history; otherwise one row per entry in order, each the entry flattened; a non-empty history fails exactly when some entry cannot be flattened (with the first such error) or no entry has a `timestamp` (the conversion of line 30 finds no column) |
| DataLoaders.GetRecentData | src/dashboard/data_loaders.py:87-101 | an empty table is returned as it is; otherwise exactly the rows strictly after `now - hours` |
| DataLoaders.RecentDataIsWindow | src/dashboard/data_loaders.py:98-101 | the empty-table guard does not change the result |
| DataLoaders.RecentDataKeepsAllRecent | src/dashboard/data_loaders.py:100-101 | a table wholly inside the window is kept whole, in order |
| DataLoaders.Digits | src/dashboard/data_loaders.py:133 | zero-padded decimal digits of exactly the given width |
| DataLoaders.DigitsRoundTrip | src/dashboard/data_loaders.py:133 | reading the padded digits back gives the number |
| DataLoaders.Stamp | src/dashboard/data_loaders.py:133 | `%Y%m%d_%H%M%S` is 15 characters with `_` at position 8 |
| DataLoaders.StampRoundTrip | src/dashboard/data_loaders.py:133 | each field of the time can be read back from its place in the stamp |
| DataLoaders.ExportFilename | src/dashboard/data_loaders.py:134 | the file name is the name, `_metrics_`, the stamp and `.csv`, each in its place |
| DataLoaders.PrepareExportData | src/dashboard/data_loaders.py:121-136 | nothing for an empty table; otherwise the encoded CSV under that file name |
| DataLoaders.DayAggregate | src/dashboard/data_loaders.py:152-155 | a day's count is its number of rows; mean, min and max are undefined exactly for a day without rows; otherwise the mean taken once per row adds up to the day's sum, min <= mean <= max bounds every value of the day, and both extremes occur that day |
| DataLoaders.DaysUp | src/dashboard/data_loaders.py:152-155 | one row per day of the range, in ascending order |
| DataLoaders.AggregateDailyMetrics | src/dashboard/data_loaders.py:139-155 | an empty table is returned as it is; otherwise one row per calendar day from the first to the last, ascending, each the aggregate of its day |
| DataLoaders.DaysUpRows | src/dashboard/data_loaders.py:152-155 | each row of the day list is the aggregate of its own day |
| DataLoaders.DailyCountsAddUp | src/dashboard/data_loaders.py:154 | the daily counts add up to the number of rows |
| PolicyChat.JoinSpacesSeparator | backup/src/chatbot.py:41 | right after each part but the last stands a single space, so with JoinSpacesLength and JoinSpacesContains the joined text is fully determined |
| PolicyChat.JoinSpacesLength | backup/src/chatbot.py:41 | the joined text is the parts' total length plus one space between each neighbouring pair |
| PolicyChat.JoinSpacesContains | backup/src/chatbot.py:35-41 | every chunk appears in the joined text, in retrieval order, at the offset of the chunks and spaces before it |
| PolicyChat.Prompt | backup/src/chatbot.py:37-49 | the context text and the question each appear whole, in their places between the fixed texts |
| PolicyChat.PolicyChatbot.constructor | backup/src/chatbot.py:11-13 | the retrieval limit and the services are those given |
| PolicyChat.PolicyChatbot.GetResponse | backup/src/chatbot.py:20-60 | with no context: the fixed no-information message, no references and no model call; otherwise one call with the joined chunks, returning its answer with the context unchanged, or the fixed apology and no references when it fails |
| PolicyChat.PolicyChatbot.SignedUrl | backup/src/chatbot.py:62-72 | the first value returned, or "" when the query fails or returns no rows |
| PolicyChat.PolicyChatbot.PathOf | backup/src/chatbot.py:97 | the hit's `relative_path`, or "" when it has none |
| PolicyChat.PolicyChatbot.Shape | backup/src/chatbot.py:97-108 | the hit's chunk and source; a signed link is requested only for a non-empty source, and is "" otherwise |
| PolicyChat.PolicyChatbot.ShapeAll | backup/src/chatbot.py:95-109 | one reference per hit |
| PolicyChat.PolicyChatbot.ShapeAllPointwise | backup/src/chatbot.py:96-108 | each reference is made of the hit at its own position |
| PolicyChat.PolicyChatbot.RetrieveSpec | backup/src/chatbot.py:74-113 | nothing when the search fails, returns nothing, or returns a hit without a chunk; otherwise one reference per hit |
| PolicyChat.PolicyChatbot.RetrieveShapesEveryHit | backup/src/chatbot.py:94-109 | when every hit has a chunk, each reference is made of the hit at its position, in order |
| PolicyChat.PolicyChatbot.RetrieveStep | backup/src/chatbot.py:96-108 | one more hit adds its reference, and one signed-link request when it has a source |
| PolicyChat.PolicyChatbot.Retrieve | backup/src/chatbot.py:74-113 | the loop yields exactly `RetrieveSpec`; a failed link never fails retrieval; no link is requested when the search fails; the links requested are one per returned reference with a source, and at most one per hit |
| PolicyChat.PolicyChatbot.Query | backup/src/chatbot.py:15-18 | answering is replying over what retrieval yields |
| References.SourceName | backup/app.py:152 | a reference without a source is grouped under "Unknown Source" |
| References.GroupsOf | backup/app.py:150-158 | one entry per given document, in order, each that document's entry |
| References.Sources | backup/app.py:150-157 | the documents, each once, exactly those of the references |
| References.ChunksOfGroup | backup/app.py:158 | a document's chunks are those of its references, in reference order |
| References.FirstUrlAppend | backup/app.py:153-157 | one more reference leaves a seen document's link alone and gives a new document the link of that reference |
| References.FirstUrlIsFirst | backup/app.py:153-157 | a document's link is that of its first reference |
| References.GroupedEntries | backup/app.py:150-158 | the documents appear once each in order of first appearance; each entry holds its references' chunks in order and the link of its first reference |
| References.ChunkCounts | backup/app.py:158 | a document's chunk count is its number of references, and positive |
| References.ChunksAddUp | backup/app.py:150-158 | the chunk counts add up to the number of references |
| References.SourcesAppend | backup/app.py:153 | one more reference leaves the documents unchanged if its document was seen, and appends its document otherwise |
| References.GroupedAt | backup/app.py:153-158 | one more reference leaves earlier entries in place and only adds its chunk to its own document's entry |
| References.GroupOfAppend | backup/app.py:158 | one more reference changes only its own document's entry, by its chunk |
| References.GroupedLast | backup/app.py:153-157 | a reference to a new document adds that document's entry last, with its chunk and link |
| References.GroupedStepSeen | backup/app.py:153-158 | a reference to a seen document appends its chunk to that entry and changes nothing else |
| References.GroupedStepNew | backup/app.py:153-158 | a reference to a new document appends an entry with its chunk and link |
| References.AddReference | backup/app.py:152-158 | one turn of the loop takes the dictionary of the references so far to that of one reference more: a new document gets an entry with this reference's link, and the chunk goes to its document's entry |
| References.GroupReferences | backup/app.py:150-158 | the grouping loop computes exactly the per-document dictionary `Grouped` |
| References.LastSegmentSuffix | backup/app.py:169 | `split("/")[-1]` is the longest suffix without `/`: it has none and is the whole path or follows a `/` |
| References.DownloadsOffered | backup/app.py:161-169 | every download has a link, and every document with a link is offered under the last segment of its path |
| References.DownloadsAppend | backup/app.py:168-169 | one more document adds a download exactly when it has a link |
| References.OfferDownloads | backup/app.py:161-169 | the loop offers exactly the downloads of the documents with a link, in dictionary order |
| References.GroupedNonEmpty | backup/app.py:145-158 | a non-empty list of references groups into at least one document |
| References.DisplayMessage | backup/app.py:136-169 | nothing is grouped or offered unless the message is the assistant's and has a non-empty list of references; otherwise the dictionary is `Grouped` and non-empty, and the downloads are those of its linked documents |
| References.MimeType | backup/app.py:25-28 | the guessed type, or "application/octet-stream" when nothing (or an empty type) is guessed; never empty |
| LlmRag.SourcesOf | src/classes/snowflake/llm_rag.py:40-44 | at most one source per context entry |
| LlmRag.SourcesArePaths | src/classes/snowflake/llm_rag.py:40-44 | the sources are the paths of exactly the entries that have one, in order, duplicates kept |
| LlmRag.SourcesAppend | src/classes/snowflake/llm_rag.py:40-44 | the sources of two contexts in a row are the sources of each, in that order |
| LlmRag.SourcesAllKeyed | src/classes/snowflake/llm_rag.py:40-44 | when every entry has a path, the sources are the paths, one per entry |
| LlmRag.SourcesNoneKeyed | src/classes/snowflake/llm_rag.py:43 | entries without a path contribute nothing |
| LlmRag.CompletionPrompt | src/classes/snowflake/llm_rag.py:28-36 | the printed context and the question each appear whole, in their places |
| LlmRag.StandalonePrompt | src/classes/snowflake/llm_rag.py:51-57 | the printed history and the question each appear whole, in their places |
| LlmRag.GenerateCompletion | src/classes/snowflake/llm_rag.py:21-46 | exactly one model call, even for an empty context; an error of that call escapes as the result; otherwise the answer is its output and the sources are the paths of the entries that have one |
| LlmRag.GenerateStandaloneQuestion | src/classes/snowflake/llm_rag.py:48-58 | one model call, whose output, unchecked, is the standalone question, and whose error escapes as the result |
| LlmRag.Query | src/classes/snowflake/llm_rag.py:60-64 | the rewriting call comes first; its error, or the retriever's, ends the query after that one call; otherwise a second call answers over the context retrieved with the rewritten question, its prompt carrying the original question; its error escapes, and otherwise the sources are those of the retrieved context |

## Left out

- Floating point: costs, latencies and scores are exact reals. IEEE rounding, NaN propagation beyond "undefined when there are no rows", and the display formatting (`:.2f`, `:.1%`) are not modelled.
- The 95th percentiles (`quantile(0.95)`) and standard deviations (`std`) of the latency, performance and evaluation summaries are not modelled. The other fields of those dictionaries are.
- Timestamps are integer seconds. Parsing ISO strings (`isoformat`, `pd.to_datetime`) is not modelled, and days are UTC days counted from the epoch.
- The clock (`pd.Timestamp.now()`, `datetime.now()`) is the parameter `now`.
- DataLoaders.Stamp: covers four-digit years only (1000 to 9999), as `%Y` pads to four digits only there.
- Rendering is not modelled: Streamlit widgets, Plotly charts, `st.error` messages, the `print` of the standalone question, and the first `display_message_with_references` in `backup/app.py`. Python defines that function twice, and the second definition replaces the first.
- The network and the warehouse are outside the model:
  - the search service, the completion service and the signed-link SQL query are parameters;
  - the text of that SQL statement is not modelled;
  - fetching a file's content (`fetch_file_content`) and the download button are reduced to the downloads offered (`Download`).
- Python's printing of a context list or a chat history (`str(list)`), the CSV writer and `mimetypes.guess_type` are parameters.
- The model name that the predictor defaults to is a parameter. The default it names is not part of this model.
- The tracker's session state (`st.session_state`) is the tracker object's three fields. Sharing those fields between tracker objects is not modelled.
- Performance.SnakeKey: lowers ASCII letters only; Python's `str.lower()` also lowers other alphabets, which the three fixed column names do not use.
- PolicyChat.PolicyChatbot.Retrieve: does not model a hit whose chunk value is not text, or an error raised while reading the search response other than a missing `chunk` column.
- References.OfferDownloads: does not model the widget keys of the download buttons. They are the documents' file names, so two documents whose paths end in the same file name would give the second button a key already in use; the page catches the error this raises, and that second document is then not offered.
- Pandas `resample('D')` inserts days without rows between the first and the last day. The model keeps those days and marks their averages undefined, instead of producing 0/0.
