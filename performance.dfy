/** The performance panel's summary of the three RAG quality scores
    (groundedness, context relevance, answer relevance): for each score its
    overall mean, the mean of the five latest rows, the trend between the two,
    and its extremes. */
module Performance {
  import opened Stats

  /** One row of the quality-score table. */
  datatype ScoreRow = ScoreRow(timestamp: int, groundedness: real, contextRelevance: real, answerRelevance: real)

  /** The three scores, in the order the summary lists them. */
  datatype Metric = Groundedness | ContextRelevance | AnswerRelevance

  const Metrics: seq<Metric> := [Groundedness, ContextRelevance, AnswerRelevance]

  /** The column name of a score in the table. */
  function ColumnName(m: Metric): string
  {
    match m
    case Groundedness => "Groundedness"
    case ContextRelevance => "Context Relevance"
    case AnswerRelevance => "Answer Relevance"
  }

  /** The column of a score. */
  function ScoreOf(m: Metric): ScoreRow -> real
  {
    match m
    case Groundedness => (r: ScoreRow) => r.groundedness
    case ContextRelevance => (r: ScoreRow) => r.contextRelevance
    case AnswerRelevance => (r: ScoreRow) => r.answerRelevance
  }

  /** ASCII lower case of one character. */
  function LowerChar(c: char): (r: char)
    ensures !('A' <= r <= 'Z')
    ensures 'A' <= c <= 'Z' ==> r as int == c as int + 32 && 'a' <= r <= 'z'
    ensures !('A' <= c <= 'Z') ==> r == c
  {
    if 'A' <= c <= 'Z' then (c as int - 'A' as int + 'a' as int) as char else c
  }

  /** One character of a dictionary key: lower case, and `_` for a space. */
  function KeyChar(c: char): (r: char)
    ensures r != ' ' && !('A' <= r <= 'Z')
    ensures c == ' ' ==> r == '_'
    ensures c != ' ' ==> r == LowerChar(c)
    ensures c != ' ' && !('A' <= c <= 'Z') ==> r == c
  {
    if c == ' ' then '_' else LowerChar(c)
  }

  /** The dictionary key of a column name (`name.lower().replace(" ", "_")`). */
  function SnakeKey(name: string): (key: string)
    ensures |key| == |name|
    ensures forall i :: 0 <= i < |key| ==> key[i] == KeyChar(name[i])
    ensures forall i :: 0 <= i < |key| ==> key[i] != ' ' && !('A' <= key[i] <= 'Z')
  {
    seq(|name|, i requires 0 <= i < |name| => KeyChar(name[i]))
  }

  /** The dictionary key of a score. */
  function KeyOf(m: Metric): string
  {
    match m
    case Groundedness => "groundedness"
    case ContextRelevance => "context_relevance"
    case AnswerRelevance => "answer_relevance"
  }

  /** The key of each score is the snake-case form of its column name. */
  lemma SnakeKeys(m: Metric)
    ensures SnakeKey(ColumnName(m)) == KeyOf(m)
  {
    match m
    case Groundedness => assert SnakeKey("Groundedness") == "groundedness";
    case ContextRelevance => assert SnakeKey("Context Relevance") == "context_relevance";
    case AnswerRelevance => assert SnakeKey("Answer Relevance") == "answer_relevance";
  }

  /** The last `k` rows of the table (`tail(k)`): all of it when it has `k` rows or fewer. */
  function Tail<T>(s: seq<T>, k: nat): (r: seq<T>)
    ensures |r| == if |s| <= k then |s| else k
    ensures |s| <= k ==> r == s
    ensures forall i :: 0 <= i < |r| ==> r[i] == s[|s| - |r| + i]
  {
    if |s| <= k then s else s[|s| - k..]
  }

  /** The summary of one score. */
  datatype MetricSummary = MetricSummary(current: real, recent: real, trend: real, min: real, max: real)

  /** A column's extremes over the whole table bound its extremes over any tail. */
  lemma TailWithinRange<T>(s: seq<T>, f: T -> real, k: nat)
    requires s != [] && k > 0
    ensures MinOf(s, f) <= MinOf(Tail(s, k), f)
    ensures MaxOf(Tail(s, k), f) <= MaxOf(s, f)
  {
    var t := Tail(s, k);
    var i :| 0 <= i < |t| && f(t[i]) == MinOf(t, f);
    var si := |s| - |t| + i;
    assert t[i] == s[si];
    assert MinOf(s, f) <= f(s[si]);
    var j :| 0 <= j < |t| && f(t[j]) == MaxOf(t, f);
    var sj := |s| - |t| + j;
    assert t[j] == s[sj];
    assert f(s[sj]) <= MaxOf(s, f);
  }

  /** The summary of column `f` over a non-empty table: the overall mean, the
      mean of the five latest rows, the trend from the first to the second, and
      the extremes. */
  function SummaryOf(rows: seq<ScoreRow>, f: ScoreRow -> real): MetricSummary
    requires rows != []
  {
    var current := MeanOf(rows, f);
    var recent := MeanOf(Tail(rows, 5), f);
    MetricSummary(current, recent, recent - current, MinOf(rows, f), MaxOf(rows, f))
  }

  /** The overall mean lies between the extremes, and so does the mean of the
      five latest rows; the trend leads from the overall mean to the recent
      one, and is 0 when the table has five rows or fewer. */
  lemma SummaryOfBounds(rows: seq<ScoreRow>, f: ScoreRow -> real)
    requires rows != []
    ensures var r := SummaryOf(rows, f);
      && r.min <= r.current <= r.max
      && r.min <= r.recent <= r.max
      && (forall i :: 0 <= i < |rows| ==> r.min <= f(rows[i]) <= r.max)
      && Scale(|rows|, r.current) == SumOf(rows, f)
      && Scale(|Tail(rows, 5)|, r.recent) == SumOf(Tail(rows, 5), f)
      && r.current + r.trend == r.recent
      && (|rows| <= 5 ==> r.trend == 0.0)
  {
    TailWithinRange(rows, f, 5);
  }

  /** The summary dictionary over the three score keys. */
  function SummaryMap(g: MetricSummary, c: MetricSummary, a: MetricSummary): map<string, MetricSummary>
  {
    map[KeyOf(Groundedness) := g, KeyOf(ContextRelevance) := c, KeyOf(AnswerRelevance) := a]
  }

  /** The performance summary: empty (`{}`) for an empty table; otherwise
      exactly the three score keys, each mapped to that score's summary. */
  function PerformanceSummary(rows: seq<ScoreRow>): (r: map<string, MetricSummary>)
    ensures rows == [] ==> r == map[]
    ensures rows != [] ==> r.Keys == {KeyOf(Groundedness), KeyOf(ContextRelevance), KeyOf(AnswerRelevance)}
  {
    if rows == [] then map[]
    else
      SummaryMap(SummaryOf(rows, ScoreOf(Groundedness)),
                 SummaryOf(rows, ScoreOf(ContextRelevance)),
                 SummaryOf(rows, ScoreOf(AnswerRelevance)))
  }

  lemma SummaryMapLookup(g: MetricSummary, c: MetricSummary, a: MetricSummary, m: Metric)
    ensures KeyOf(m) in SummaryMap(g, c, a)
    ensures SummaryMap(g, c, a)[KeyOf(m)] == match m case Groundedness => g case ContextRelevance => c case AnswerRelevance => a
  {
    assert |KeyOf(Groundedness)| == 12 && |KeyOf(ContextRelevance)| == 17 && |KeyOf(AnswerRelevance)| == 16;
  }

  /** Each score's summary sits under that score's key. */
  lemma PerformanceSummaryEntries(rows: seq<ScoreRow>, m: Metric)
    requires rows != []
    ensures KeyOf(m) in PerformanceSummary(rows)
    ensures PerformanceSummary(rows)[KeyOf(m)] == SummaryOf(rows, ScoreOf(m))
  {
    SummaryMapLookup(SummaryOf(rows, ScoreOf(Groundedness)), SummaryOf(rows, ScoreOf(ContextRelevance)),
                     SummaryOf(rows, ScoreOf(AnswerRelevance)), m);
  }
}
