/** The token-usage panel of the dashboard: the overall token summary, the
    figures shown in its header and the per-day statistics table, priced at
    0.7 per 1000 prompt tokens and 2.0 per 1000 completion tokens. */
module TokenUsage {
  import opened Optional
  import opened Seqs
  import opened Stats
  import opened Timeline
  import opened Tracker

  /** The estimated price of a number of prompt and completion tokens. */
  function EstimatedCost(prompt: nat, completion: nat): real
  {
    (prompt as real * 0.7 + completion as real * 2.0) / 1000.0
  }

  /** The price is linear: pricing two batches separately or together gives the same total. */
  lemma EstimatedCostAdditive(p1: nat, c1: nat, p2: nat, c2: nat)
    ensures EstimatedCost(p1 + p2, c1 + c2) == EstimatedCost(p1, c1) + EstimatedCost(p2, c2)
  {
  }

  /** More tokens never cost less, and only no tokens at all cost nothing. */
  lemma EstimatedCostMonotone(p1: nat, c1: nat, p2: nat, c2: nat)
    requires p1 <= p2 && c1 <= c2
    ensures EstimatedCost(p1, c1) <= EstimatedCost(p2, c2)
    ensures EstimatedCost(p1, c1) == 0.0 <==> p1 == 0 && c1 == 0
  {
  }

  /** The price of one row's tokens. */
  function RowCost(r: TokenRecord): real
  {
    EstimatedCost(r.promptTokens, r.completionTokens)
  }

  /** Pricing the column totals is pricing every row and adding the prices up. */
  lemma {:induction false} CostOfTotals(rows: seq<TokenRecord>)
    ensures EstimatedCost(NatSumOf(rows, PromptOf), NatSumOf(rows, CompletionOf)) == SumOf(rows, RowCost)
  {
    if rows != [] {
      CostOfTotals(rows[1..]);
      EstimatedCostAdditive(rows[0].promptTokens, rows[0].completionTokens,
                            NatSumOf(rows[1..], PromptOf), NatSumOf(rows[1..], CompletionOf));
    }
  }

  function TotalAsReal(r: TokenRecord): real { r.totalTokens as real }

  /** The dictionary returned by `get_token_usage_summary` for a non-empty table. */
  datatype TokenSummary = TokenSummary(
    totalTokens: nat,
    promptTokens: nat,
    completionTokens: nat,
    avgPerQuery: real,
    completionRatio: real,
    estimatedCost: real)

  /** The share `part / whole`, and 0 when there is no whole. */
  function Share(part: nat, whole: nat): (r: real)
    ensures whole > 0 ==> Scale(whole, r) == part as real
    ensures whole == 0 ==> r == 0.0
    ensures part <= whole ==> 0.0 <= r <= 1.0
  {
    if whole > 0 then
      ScaleShare(whole, part as real);
      ShareAtMostOne(part, whole);
      part as real / whole as real
    else 0.0
  }

  lemma ShareAtMostOne(part: nat, whole: nat)
    requires 0 < whole
    ensures part <= whole ==> 0.0 <= part as real / whole as real <= 1.0
  {
  }

  /** The token summary: nothing (`{}`) for an empty table; otherwise the
      column totals, the mean tokens per query (between the smallest and the
      largest query, and once per query adding up to the total), the completion share of all tokens (0 when no tokens
      were used, at most 1 when the totals are consistent), and the price of
      the totals. */
  function TokenUsageSummary(rows: seq<TokenRecord>): (r: Option<TokenSummary>)
    ensures r.None? <==> rows == []
    ensures r.Some? ==> r.value.totalTokens == NatSumOf(rows, TotalOf)
    ensures r.Some? ==> r.value.promptTokens == NatSumOf(rows, PromptOf)
    ensures r.Some? ==> r.value.completionTokens == NatSumOf(rows, CompletionOf)
    ensures r.Some? && (forall i :: 0 <= i < |rows| ==> rows[i].Consistent()) ==>
              r.value.totalTokens == r.value.promptTokens + r.value.completionTokens
              && 0.0 <= r.value.completionRatio <= 1.0
    ensures r.Some? && r.value.totalTokens == 0 ==> r.value.completionRatio == 0.0
    ensures r.Some? && r.value.totalTokens > 0 ==>
              Scale(r.value.totalTokens, r.value.completionRatio) == r.value.completionTokens as real
    ensures r.Some? ==> MinOf(rows, TotalAsReal) <= r.value.avgPerQuery <= MaxOf(rows, TotalAsReal)
    ensures r.Some? ==> Scale(|rows|, r.value.avgPerQuery) == SumOf(rows, TotalAsReal)
    ensures r.Some? ==> r.value.estimatedCost == SumOf(rows, RowCost)
  {
    if rows == [] then None
    else
      var total := NatSumOf(rows, TotalOf);
      var prompt := NatSumOf(rows, PromptOf);
      var completion := NatSumOf(rows, CompletionOf);
      TokenTotalsAdd(rows);
      CostOfTotals(rows);
      Some(TokenSummary(total, prompt, completion, MeanOf(rows, TotalAsReal),
                        Share(completion, total), EstimatedCost(prompt, completion)))
  }

  /** The four figures in the header of the token panel. */
  datatype TokenFigures = TokenFigures(
    totalTokens: nat,
    avgPerQuery: real,
    completionPercent: Option<real>,
    estimatedCost: real)

  /** The header figures, shown only for a non-empty table. The completion
      percentage has no guard here: with no tokens at all it is undefined. */
  function TokenDisplayFigures(rows: seq<TokenRecord>): (r: Option<TokenFigures>)
    ensures r.None? <==> rows == []
    ensures r.Some? ==> (r.value.completionPercent.None? <==> r.value.totalTokens == 0)
  {
    if rows == [] then None
    else
      var total := NatSumOf(rows, TotalOf);
      var completion := NatSumOf(rows, CompletionOf);
      var percent := if total == 0 then None else Some(completion as real / total as real * 100.0);
      Some(TokenFigures(total, MeanOf(rows, TotalAsReal), percent,
                        EstimatedCost(NatSumOf(rows, PromptOf), completion)))
  }

  /** The header and the summary agree: same totals, same price, and where
      the header's percentage is defined it is the summary's share times 100. */
  lemma FiguresAgreeWithSummary(rows: seq<TokenRecord>)
    requires rows != []
    ensures TokenDisplayFigures(rows).value.totalTokens == TokenUsageSummary(rows).value.totalTokens
    ensures TokenDisplayFigures(rows).value.estimatedCost == TokenUsageSummary(rows).value.estimatedCost
    ensures TokenDisplayFigures(rows).value.avgPerQuery == TokenUsageSummary(rows).value.avgPerQuery
    ensures TokenUsageSummary(rows).value.totalTokens > 0 ==>
              TokenDisplayFigures(rows).value.completionPercent
                == Some(TokenUsageSummary(rows).value.completionRatio * 100.0)
  {
  }

  /** One row of the daily statistics table. */
  datatype DailyTokenRow = DailyTokenRow(
    day: int,
    totalTokens: nat,
    promptTokens: nat,
    completionTokens: nat,
    queries: nat,
    avgTokensPerQuery: Option<real>,
    estimatedCost: real)

  /** The statistics of day `d`. */
  function DayRow(rows: seq<TokenRecord>, d: int): (r: DailyTokenRow)
    ensures r.day == d
    ensures r.queries == |InDay(rows, TokenStampOf, d)|
    ensures r.totalTokens == NatSumOf(InDay(rows, TokenStampOf, d), TotalOf)
    ensures r.promptTokens == NatSumOf(InDay(rows, TokenStampOf, d), PromptOf)
    ensures r.completionTokens == NatSumOf(InDay(rows, TokenStampOf, d), CompletionOf)
    ensures r.avgTokensPerQuery.None? <==> r.queries == 0
    ensures r.avgTokensPerQuery.Some? ==> Scale(r.queries, r.avgTokensPerQuery.value) == r.totalTokens as real
    ensures r.estimatedCost == SumOf(InDay(rows, TokenStampOf, d), RowCost)
  {
    var day := InDay(rows, TokenStampOf, d);
    var total := NatSumOf(day, TotalOf);
    var prompt := NatSumOf(day, PromptOf);
    var completion := NatSumOf(day, CompletionOf);
    CostOfTotals(day);
    DailyTokenRow(d, total, prompt, completion, |day|,
                  PerItem(total as real, |day|), EstimatedCost(prompt, completion))
  }

  /** The rows of days `hi` down to `lo`. */
  function DaysDown(rows: seq<TokenRecord>, hi: int, lo: int): (r: seq<DailyTokenRow>)
    ensures |r| == if hi < lo then 0 else hi - lo + 1
    ensures forall i :: 0 <= i < |r| ==> r[i].day == hi - i
    decreases hi - lo
  {
    if hi < lo then [] else [DayRow(rows, hi)] + DaysDown(rows, hi - 1, lo)
  }

  /** Each row of the list is the statistics of its own day. */
  lemma {:induction false} DaysDownRows(rows: seq<TokenRecord>, hi: int, lo: int)
    ensures forall i :: 0 <= i < |DaysDown(rows, hi, lo)| ==>
              DaysDown(rows, hi, lo)[i] == DayRow(rows, DaysDown(rows, hi, lo)[i].day)
    decreases hi - lo
  {
    if lo <= hi {
      DaysDownRows(rows, hi - 1, lo);
      var r, rest := DaysDown(rows, hi, lo), DaysDown(rows, hi - 1, lo);
      assert r == [DayRow(rows, hi)] + rest;
      forall i | 1 <= i < |r| ensures r[i] == DayRow(rows, r[i].day) {
        assert r[i] == rest[i - 1];
      }
    }
  }

  function RowCostOfDay(r: DailyTokenRow): real { r.estimatedCost }

  lemma {:induction false} DaysDownCost(rows: seq<TokenRecord>, hi: int, lo: int)
    ensures SumOf(DaysDown(rows, hi, lo), RowCostOfDay) == DaysTotal(rows, TokenStampOf, RowCost, lo, hi)
    decreases hi - lo
  {
    if lo <= hi {
      DaysDownCost(rows, hi - 1, lo);
      assert DaysDown(rows, hi, lo)[1..] == DaysDown(rows, hi - 1, lo);
    }
  }

  /** The daily statistics table (`resample('D')` and sorted by day, latest
      first): one row for every calendar day from the last down to the
      first, including days without any query, whose average is undefined. */
  function DailyTokenStats(rows: seq<TokenRecord>): (r: seq<DailyTokenRow>)
    ensures rows == [] ==> r == []
    ensures rows != [] ==> |r| == LastDay(rows, TokenStampOf) - FirstDay(rows, TokenStampOf) + 1
    ensures rows != [] ==> forall i :: 0 <= i < |r| ==> r[i].day == LastDay(rows, TokenStampOf) - i
    ensures forall i :: 0 <= i < |r| ==> r[i] == DayRow(rows, r[i].day)
  {
    if rows == [] then []
    else
      var lo, hi := FirstDay(rows, TokenStampOf), LastDay(rows, TokenStampOf);
      DaySpan(rows, TokenStampOf);
      DaysDownRows(rows, hi, lo);
      DaysDown(rows, hi, lo)
  }

  /** The table is in strictly descending day order, and every row of the
      input is counted on a row of the table. */
  lemma DailyStatsOrderAndCover(rows: seq<TokenRecord>)
    ensures forall i, j :: 0 <= i < j < |DailyTokenStats(rows)| ==>
              DailyTokenStats(rows)[i].day > DailyTokenStats(rows)[j].day
    ensures forall k :: 0 <= k < |rows| ==>
              exists i :: 0 <= i < |DailyTokenStats(rows)| && DailyTokenStats(rows)[i].day == DayOf(rows[k].timestamp)
  {
    var r := DailyTokenStats(rows);
    if rows != [] {
      var hi := LastDay(rows, TokenStampOf);
      DaySpan(rows, TokenStampOf);
      forall k | 0 <= k < |rows|
        ensures exists i :: 0 <= i < |r| && r[i].day == DayOf(rows[k].timestamp)
      {
        var i := hi - DayOf(TokenStampOf(rows[k]));
        assert r[i].day == DayOf(rows[k].timestamp);
      }
    }
  }

  /** The daily prices add up to the price of the whole table. */
  lemma DailyCostsAddUp(rows: seq<TokenRecord>)
    ensures SumOf(DailyTokenStats(rows), RowCostOfDay) == SumOf(rows, RowCost)
  {
    if rows != [] {
      var lo, hi := FirstDay(rows, TokenStampOf), LastDay(rows, TokenStampOf);
      DaySpan(rows, TokenStampOf);
      DaysDownCost(rows, hi, lo);
      DaysPartition(rows, TokenStampOf, RowCost, lo, hi);
    }
  }
}
