/** The interaction tracker of the evaluator (`EnhancedMetrics`): three
    append-only logs of token usage, latency and cost, one record of each per
    chat interaction, and the summary dictionaries read back from them. */
module Tracker {
  import opened Optional
  import opened Stats

  /** Python's `max(1, n)`: a divisor that is never zero. */
  function AtLeastOne(n: nat): (r: nat)
    ensures r >= 1
    ensures n >= 1 ==> r == n
  {
    if n >= 1 then n else 1
  }

  /** One entry of the token log. */
  datatype TokenRecord = TokenRecord(
    timestamp: int,
    promptTokens: nat,
    completionTokens: nat,
    totalTokens: nat,
    tokenRatio: real)
  {
    /** The derived fields agree with the counts they were computed from. */
    predicate Consistent() {
      && totalTokens == promptTokens + completionTokens
      && tokenRatio * AtLeastOne(promptTokens) as real == completionTokens as real
    }
  }

  /** One entry of the latency log. */
  datatype LatencyRecord = LatencyRecord(timestamp: int, latencyMs: real, latencySeconds: real)

  /** One entry of the cost log. */
  datatype CostRecord = CostRecord(timestamp: int, cost: real, costPerToken: real)

  /** The token record of one interaction: the total is the sum of both
      counts, and the ratio of completion to prompt tokens is defined even
      when there were no prompt tokens. */
  function TokenEntry(now: int, prompt: nat, completion: nat): (r: TokenRecord)
    ensures r.timestamp == now
    ensures r.promptTokens == prompt && r.completionTokens == completion
    ensures r.Consistent()
    ensures prompt == 0 ==> r.tokenRatio == completion as real
  {
    var ratio := completion as real / AtLeastOne(prompt) as real;
    TokenRecord(now, prompt, completion, prompt + completion, ratio)
  }

  /** The latency record of one interaction, in milliseconds and in seconds. */
  function LatencyEntry(now: int, latencyMs: real): (r: LatencyRecord)
    ensures r.timestamp == now && r.latencyMs == latencyMs
    ensures r.latencySeconds * 1000.0 == latencyMs
  {
    LatencyRecord(now, latencyMs, latencyMs / 1000.0)
  }

  /** The cost record of one interaction: the cost per token is defined even
      when no token was used. */
  function CostEntry(now: int, prompt: nat, completion: nat, cost: real): (r: CostRecord)
    ensures r.timestamp == now && r.cost == cost
    ensures r.costPerToken * AtLeastOne(prompt + completion) as real == cost
    ensures prompt + completion == 0 ==> r.costPerToken == cost
  {
    CostRecord(now, cost, cost / AtLeastOne(prompt + completion) as real)
  }

  // Columns of the logs, as used by the getters.
  function PromptOf(r: TokenRecord): nat { r.promptTokens }
  function CompletionOf(r: TokenRecord): nat { r.completionTokens }
  function TotalOf(r: TokenRecord): nat { r.totalTokens }
  function RatioOf(r: TokenRecord): real { r.tokenRatio }
  function LatencyMsOf(r: LatencyRecord): real { r.latencyMs }
  function CostOf(r: CostRecord): real { r.cost }
  function CostPerTokenOf(r: CostRecord): real { r.costPerToken }
  function TokenStampOf(r: TokenRecord): int { r.timestamp }
  function LatencyStampOf(r: LatencyRecord): int { r.timestamp }
  function CostStampOf(r: CostRecord): int { r.timestamp }

  /** The dictionary returned by `get_token_metrics`. */
  datatype TokenMetrics = TokenMetrics(
    totalTokens: nat,
    avgTokenRatio: real,
    totalPromptTokens: nat,
    totalCompletionTokens: nat)

  /** The dictionary returned by `get_latency_metrics`. */
  datatype LatencyMetrics = LatencyMetrics(
    avgLatencyMs: real,
    maxLatencyMs: real,
    minLatencyMs: real,
    totalRequests: nat)

  /** The dictionary returned by `get_cost_metrics`. */
  datatype CostMetrics = CostMetrics(
    totalCost: real,
    avgCostPerRequest: real,
    avgCostPerToken: real)

  /** The dictionary returned by `get_all_metrics`. */
  datatype AllMetrics = AllMetrics(
    tokenMetrics: TokenMetrics,
    latencyMetrics: LatencyMetrics,
    costMetrics: CostMetrics)

  /** The per-token totals of a log whose records are consistent add up:
      the total of the totals is the prompt total plus the completion total. */
  lemma TokenTotalsAdd(log: seq<TokenRecord>)
    ensures (forall i :: 0 <= i < |log| ==> log[i].Consistent()) ==>
              NatSumOf(log, TotalOf) == NatSumOf(log, PromptOf) + NatSumOf(log, CompletionOf)
  {
    if forall i :: 0 <= i < |log| ==> log[i].Consistent() {
      NatSumAdd(log, PromptOf, CompletionOf, TotalOf);
    }
  }

  /** The tracker. Its three logs live in the session, so they may already
      hold records when a tracker is created. */
  class EnhancedMetrics {
    var tokenUsage: seq<TokenRecord>
    var latencyTracking: seq<LatencyRecord>
    var costTracking: seq<CostRecord>

    /** The logs hold one record each per interaction, and the three records
        of an interaction carry the same timestamp. */
    ghost predicate InLockstep()
      reads this
    {
      && |tokenUsage| == |latencyTracking| == |costTracking|
      && forall i :: 0 <= i < |tokenUsage| ==>
           tokenUsage[i].timestamp == latencyTracking[i].timestamp == costTracking[i].timestamp
    }

    /** Every token record's derived fields agree with its counts. */
    ghost predicate Consistent()
      reads this
    {
      forall i :: 0 <= i < |tokenUsage| ==> tokenUsage[i].Consistent()
    }

    /** Creating a tracker keeps the logs the session already holds and
        starts a missing one empty. */
    constructor (tokens: Option<seq<TokenRecord>>, latencies: Option<seq<LatencyRecord>>, costs: Option<seq<CostRecord>>)
      ensures tokenUsage == tokens.GetOr([])
      ensures latencyTracking == latencies.GetOr([])
      ensures costTracking == costs.GetOr([])
    {
      tokenUsage := tokens.GetOr([]);
      latencyTracking := latencies.GetOr([]);
      costTracking := costs.GetOr([]);
    }

    /** Records one interaction at time `now`: one record appended to each
        log, earlier records unchanged; the token and cost totals grow by
        exactly this interaction's figures and the request count by one. */
    method TrackInteraction(prompt: nat, completion: nat, latencyMs: real, cost: real, now: int)
      modifies this
      ensures tokenUsage == old(tokenUsage) + [TokenEntry(now, prompt, completion)]
      ensures latencyTracking == old(latencyTracking) + [LatencyEntry(now, latencyMs)]
      ensures costTracking == old(costTracking) + [CostEntry(now, prompt, completion, cost)]
      ensures old(InLockstep()) ==> InLockstep()
      ensures old(Consistent()) ==> Consistent()
      ensures GetTokenMetrics().totalPromptTokens == old(GetTokenMetrics().totalPromptTokens) + prompt
      ensures GetTokenMetrics().totalCompletionTokens == old(GetTokenMetrics().totalCompletionTokens) + completion
      ensures GetTokenMetrics().totalTokens == old(GetTokenMetrics().totalTokens) + prompt + completion
      ensures GetLatencyMetrics().totalRequests == old(GetLatencyMetrics().totalRequests) + 1
      ensures GetCostMetrics().totalCost == old(GetCostMetrics().totalCost) + cost
    {
      var token := TokenEntry(now, prompt, completion);
      var latency := LatencyEntry(now, latencyMs);
      var charge := CostEntry(now, prompt, completion, cost);
      NatSumAppend(tokenUsage, [token], PromptOf);
      NatSumAppend(tokenUsage, [token], CompletionOf);
      NatSumAppend(tokenUsage, [token], TotalOf);
      SumAppend(costTracking, [charge], CostOf);
      assert SumOf([charge], CostOf) == cost;
      tokenUsage := tokenUsage + [token];
      latencyTracking := latencyTracking + [latency];
      costTracking := costTracking + [charge];
    }

    /** The token figures: all zero on an empty log; otherwise the totals of
        the log's columns and the mean token ratio, which lies between the
        smallest and the largest recorded ratio and, taken once per record,
        adds up to the sum of the ratios. */
    function GetTokenMetrics(): (r: TokenMetrics)
      reads this
      ensures tokenUsage == [] ==> r == TokenMetrics(0, 0.0, 0, 0)
      ensures r.totalTokens == NatSumOf(tokenUsage, TotalOf)
      ensures r.totalPromptTokens == NatSumOf(tokenUsage, PromptOf)
      ensures r.totalCompletionTokens == NatSumOf(tokenUsage, CompletionOf)
      ensures Consistent() ==> r.totalTokens == r.totalPromptTokens + r.totalCompletionTokens
      ensures tokenUsage != [] ==>
                MinOf(tokenUsage, RatioOf) <= r.avgTokenRatio <= MaxOf(tokenUsage, RatioOf)
      ensures tokenUsage != [] ==> Scale(|tokenUsage|, r.avgTokenRatio) == SumOf(tokenUsage, RatioOf)
    {
      if tokenUsage == [] then TokenMetrics(0, 0.0, 0, 0)
      else
        TokenTotalsAdd(tokenUsage);
        TokenMetrics(
          NatSumOf(tokenUsage, TotalOf),
          MeanOf(tokenUsage, RatioOf),
          NatSumOf(tokenUsage, PromptOf),
          NatSumOf(tokenUsage, CompletionOf))
    }

    /** The latency figures: all zero on an empty log; otherwise the number
        of requests, the mean latency (once per request it adds up to the
        sum of the latencies) and the smallest and largest recorded latency,
        both of which occur in the log. */
    function GetLatencyMetrics(): (r: LatencyMetrics)
      reads this
      ensures latencyTracking == [] ==> r == LatencyMetrics(0.0, 0.0, 0.0, 0)
      ensures r.totalRequests == |latencyTracking|
      ensures latencyTracking != [] ==> r.minLatencyMs <= r.avgLatencyMs <= r.maxLatencyMs
      ensures latencyTracking != [] ==>
                Scale(|latencyTracking|, r.avgLatencyMs) == SumOf(latencyTracking, LatencyMsOf)
      ensures forall i :: 0 <= i < |latencyTracking| ==>
                r.minLatencyMs <= latencyTracking[i].latencyMs <= r.maxLatencyMs
      ensures latencyTracking != [] ==>
                exists i :: 0 <= i < |latencyTracking| && latencyTracking[i].latencyMs == r.minLatencyMs
      ensures latencyTracking != [] ==>
                exists i :: 0 <= i < |latencyTracking| && latencyTracking[i].latencyMs == r.maxLatencyMs
    {
      if latencyTracking == [] then LatencyMetrics(0.0, 0.0, 0.0, 0)
      else
        var s := SpreadOf(latencyTracking, LatencyMsOf);
        LatencyMetrics(s.mean, s.max, s.min, |latencyTracking|)
    }

    /** The cost figures: all zero on an empty log; otherwise the total cost
        and the average cost per request, which is that total shared equally
        over the records, and the mean cost per token, which lies between its
        extremes and once per record adds up to the sum of the per-token costs. */
    function GetCostMetrics(): (r: CostMetrics)
      reads this
      ensures costTracking == [] ==> r == CostMetrics(0.0, 0.0, 0.0)
      ensures r.totalCost == SumOf(costTracking, CostOf)
      ensures costTracking != [] ==> Scale(|costTracking|, r.avgCostPerRequest) == r.totalCost
      ensures costTracking != [] ==>
                MinOf(costTracking, CostPerTokenOf) <= r.avgCostPerToken <= MaxOf(costTracking, CostPerTokenOf)
      ensures costTracking != [] ==>
                Scale(|costTracking|, r.avgCostPerToken) == SumOf(costTracking, CostPerTokenOf)
    {
      if costTracking == [] then CostMetrics(0.0, 0.0, 0.0)
      else
        CostMetrics(
          SumOf(costTracking, CostOf),
          MeanOf(costTracking, CostOf),
          MeanOf(costTracking, CostPerTokenOf))
    }

    /** The three summaries together; when the logs are in lockstep the
        request count is the number of tracked interactions in every log. */
    function GetAllMetrics(): (r: AllMetrics)
      reads this
      ensures r.tokenMetrics == GetTokenMetrics()
      ensures r.latencyMetrics == GetLatencyMetrics()
      ensures r.costMetrics == GetCostMetrics()
      ensures InLockstep() ==>
                r.latencyMetrics.totalRequests == |tokenUsage| == |costTracking|
    {
      AllMetrics(GetTokenMetrics(), GetLatencyMetrics(), GetCostMetrics())
    }
  }
}
