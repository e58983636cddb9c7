/** The conversational predictor: it rewrites a follow-up question into a
    standalone one with the help of the chat history, retrieves context with
    the rewritten question, and answers the original question from that
    context, listing the source documents of the context. The language model,
    the retriever and the rendering of Python values as text are services of
    the platform; they are parameters here, as is the model name. */
module LlmRag {
  import opened Optional
  import opened Seqs

  /** One retrieved context entry: its columns by name. */
  type Entry = map<string, string>

  /** The outside services the predictor calls. The predictor catches none
      of their errors: an error raised by the model or the search service
      ends the call with that error. */
  datatype Services = Services(
    /** The completion of a prompt by a model, or the error it raised. */
    complete: (string, string) -> Result<string, string>,
    /** The context entries retrieved for a question, or the error the search raised. */
    retrieve: string -> Result<seq<Entry>, string>,
    /** The text of a context list as Python prints it. */
    showContext: seq<Entry> -> string,
    /** The text of a chat history as Python prints it. */
    showHistory: seq<Entry> -> string)

  /** One call to the language model. */
  datatype Call = Call(model: string, prompt: string)

  /** A value computed together with the calls made to the language model, in order. */
  datatype Traced<T> = Traced(value: T, calls: seq<Call>)

  /** The answer and the source documents of its context. */
  datatype Completion = Completion(answer: string, sources: seq<string>)

  const PathKey := "relative_path"

  predicate HasPath(e: Entry) { PathKey in e }
  function PathOf(e: Entry): string { if PathKey in e then e[PathKey] else "" }

  /** The source documents of a context: the path of every entry that has
      one, in context order, duplicates kept. */
  function SourcesOf(context: seq<Entry>): (r: seq<string>)
    ensures |r| <= |context|
  {
    if context == [] then []
    else (if HasPath(context[0]) then [context[0][PathKey]] else []) + SourcesOf(context[1..])
  }

  /** The sources are the paths of exactly the entries that have one. */
  lemma {:induction false} SourcesArePaths(context: seq<Entry>)
    ensures SourcesOf(context) == Project(Filter(context, HasPath), PathOf)
  {
    if context != [] {
      SourcesArePaths(context[1..]);
      var head := if HasPath(context[0]) then [context[0]] else [];
      ProjectAppend(head, Filter(context[1..], HasPath), PathOf);
    }
  }

  /** The sources of a context followed by more are the sources of each, in that order. */
  lemma {:induction false} SourcesAppend(a: seq<Entry>, b: seq<Entry>)
    ensures SourcesOf(a + b) == SourcesOf(a) + SourcesOf(b)
  {
    if a == [] {
      assert a + b == b;
    } else {
      var head := if HasPath(a[0]) then [a[0][PathKey]] else [];
      assert (a + b)[0] == a[0];
      assert (a + b)[1..] == a[1..] + b;
      SourcesAppend(a[1..], b);
      assert SourcesOf(a + b) == head + SourcesOf(a[1..] + b);
      assert SourcesOf(a) == head + SourcesOf(a[1..]);
    }
  }

  /** When every entry has a path, the sources are the paths, one per entry. */
  lemma {:induction false} SourcesAllKeyed(context: seq<Entry>)
    requires forall i :: 0 <= i < |context| ==> HasPath(context[i])
    ensures |SourcesOf(context)| == |context|
    ensures forall i :: 0 <= i < |context| ==> SourcesOf(context)[i] == PathOf(context[i])
  {
    if context != [] {
      SourcesAllKeyed(context[1..]);
    }
  }

  /** Entries without a path contribute nothing. */
  lemma {:induction false} SourcesNoneKeyed(context: seq<Entry>)
    requires forall i :: 0 <= i < |context| ==> !HasPath(context[i])
    ensures SourcesOf(context) == []
  {
    if context != [] {
      SourcesNoneKeyed(context[1..]);
    }
  }

  /** The fixed text of the answer prompt around the context and the question. */
  const CompletionHead := "\n            You are an expert assistant extracting information from context provided.\n            Answer the question based on the context. Be concise and do not hallucinate.\n            If you don\U{00B4}t have the information just say so.\n            Context: "
  const CompletionMiddle := "\n            Question:\n            "
  const CompletionTail := "\n            Answer:\n        "

  /** The answer prompt for a question over the printed context. */
  function CompletionPrompt(context: string, query: string): (p: string)
    ensures |p| == |CompletionHead| + |context| + |CompletionMiddle| + |query| + |CompletionTail|
    ensures p[|CompletionHead|..|CompletionHead| + |context|] == context
    ensures p[|CompletionHead| + |context| + |CompletionMiddle|..|p| - |CompletionTail|] == query
  {
    Splice(CompletionHead, context, CompletionMiddle, query, CompletionTail)
  }

  /** The fixed text of the rewriting prompt around the history and the question. */
  const StandaloneHead := "\n            Given the following chat history and a user question,\n            rephrase the follow up input question to be a standalone question.\n            Chat History: "
  const StandaloneMiddle := "\n            User Question: "
  const StandaloneTail := "\n            Standalone question:\n        "

  /** The rewriting prompt for a question after the printed history. */
  function StandalonePrompt(history: string, query: string): (p: string)
    ensures |p| == |StandaloneHead| + |history| + |StandaloneMiddle| + |query| + |StandaloneTail|
    ensures p[|StandaloneHead|..|StandaloneHead| + |history|] == history
    ensures p[|StandaloneHead| + |history| + |StandaloneMiddle|..|p| - |StandaloneTail|] == query
  {
    Splice(StandaloneHead, history, StandaloneMiddle, query, StandaloneTail)
  }

  /** Answering from a context: exactly one call to the model, whatever the
      context (an empty one included), with the prompt over the printed
      context. When the model answers, the answer is its output and the
      sources are those of the context; when it raises, the error escapes. */
  function GenerateCompletion(s: Services, query: string, context: seq<Entry>, model: string): (r: Traced<Result<Completion, string>>)
    ensures r.calls == [Call(model, CompletionPrompt(s.showContext(context), query))]
    ensures var outcome := s.complete(model, r.calls[0].prompt);
      && (outcome.Failure? ==> r.value == Failure(outcome.error))
      && (outcome.Success? ==> r.value.Success? && r.value.value.answer == outcome.value)
    ensures r.value.Success? ==> r.value.value.sources == Project(Filter(context, HasPath), PathOf)
  {
    SourcesArePaths(context);
    var prompt := CompletionPrompt(s.showContext(context), query);
    match s.complete(model, prompt)
    case Success(answer) => Traced(Success(Completion(answer, SourcesOf(context))), [Call(model, prompt)])
    case Failure(e) => Traced(Failure(e), [Call(model, prompt)])
  }

  /** Rewriting a question: one call to the model with the history and the
      question; its output, unchecked, is the standalone question, and its
      error, if it raises, escapes. */
  function GenerateStandaloneQuestion(s: Services, query: string, history: seq<Entry>, model: string): (r: Traced<Result<string, string>>)
    ensures r.calls == [Call(model, StandalonePrompt(s.showHistory(history), query))]
    ensures r.value == s.complete(model, r.calls[0].prompt)
  {
    var prompt := StandalonePrompt(s.showHistory(history), query);
    Traced(s.complete(model, prompt), [Call(model, prompt)])
  }

  /** Answering a follow-up question. The rewriting call comes first; an
      error from it, or from the retrieval with the rewritten question, ends
      the query after that one call. Otherwise a second call answers the
      original question over the retrieved context, and the sources are
      those of that context. */
  function Query(s: Services, query: string, history: seq<Entry>, model: string): (r: Traced<Result<Completion, string>>)
    ensures 1 <= |r.calls| <= 2
    ensures r.calls[0] == Call(model, StandalonePrompt(s.showHistory(history), query))
    ensures var rewritten := s.complete(model, r.calls[0].prompt);
      rewritten.Failure? ==> |r.calls| == 1 && r.value == Failure(rewritten.error)
    ensures var rewritten := s.complete(model, r.calls[0].prompt);
      rewritten.Success? && s.retrieve(rewritten.value).Failure? ==>
        |r.calls| == 1 && r.value == Failure(s.retrieve(rewritten.value).error)
    ensures var rewritten := s.complete(model, r.calls[0].prompt);
      rewritten.Success? && s.retrieve(rewritten.value).Success? ==>
        var context := s.retrieve(rewritten.value).value;
        && |r.calls| == 2
        && r.calls[1] == Call(model, CompletionPrompt(s.showContext(context), query))
        && (s.complete(model, r.calls[1].prompt).Failure? ==>
              r.value == Failure(s.complete(model, r.calls[1].prompt).error))
        && (s.complete(model, r.calls[1].prompt).Success? ==>
              && r.value.Success?
              && r.value.value.answer == s.complete(model, r.calls[1].prompt).value
              && r.value.value.sources == Project(Filter(context, HasPath), PathOf))
  {
    var standalone := GenerateStandaloneQuestion(s, query, history, model);
    match standalone.value
    case Failure(e) => Traced(Failure(e), standalone.calls)
    case Success(rewritten) =>
      match s.retrieve(rewritten)
      case Failure(e) => Traced(Failure(e), standalone.calls)
      case Success(context) =>
        var completion := GenerateCompletion(s, query, context, model);
        Traced(completion.value, standalone.calls + completion.calls)
  }
}
