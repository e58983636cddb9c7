/** The policy chatbot: it retrieves the chunks of the policy documents that
    match a question from a search service, attaches to each the document it
    came from and a signed download link, and asks a language model to answer
    from those chunks alone. The search service, the language model and the
    signed-link query are services of the data platform; they are parameters
    of the chatbot. */
module PolicyChat {
  import opened Optional
  import opened Seqs

  /** One search hit: the requested columns by name; a column the hit lacks is absent. */
  type Hit = map<string, string>

  /** A retrieved chunk with its source document and signed download link. */
  datatype Reference = Reference(chunk: string, source: string, signedUrl: string)

  function ChunkOf(r: Reference): string { r.chunk }
  predicate HasSource(r: Reference) { r.source != "" }

  /** The reply to a question: the answer text, the references it rests on,
      and the number of calls made to the language model. */
  datatype Reply = Reply(answer: string, references: seq<Reference>, completions: nat)

  /** The model the answer is asked of. */
  const AnswerModel := "mistral-large2"

  const NoInformation := "I'm sorry, but I couldn't find relevant information to answer your question."
  const Apology := "I apologize, but I'm having trouble generating a response right now."

  /** The fixed text of the prompt around the context and the question. */
  const PromptHead := "\n        You are a helpful government policy assistant. Using only the provided context,\n        answer questions about government policies and benefits.\n\n        Context: "
  const PromptMiddle := "\n\n        Question: "
  const PromptTail := "\n\n        Provide a clear, concise answer based only on the context provided.\n        If you're unsure or the information isn't in the context, say so.\n\n        Response should be formatted in markdown for better readability.\n        "

  /** The parts joined with single spaces (`' '.join(parts)`); the lemmas
      below characterize it: its length, where each part sits, and the
      space between neighbouring parts. */
  function JoinSpaces(parts: seq<string>): string
  {
    if parts == [] then ""
    else if |parts| == 1 then parts[0]
    else JoinSpaces(parts[..|parts| - 1]) + " " + parts[|parts| - 1]
  }

  /** The total length of the parts. */
  function TotalLength(parts: seq<string>): nat {
    if parts == [] then 0 else TotalLength(parts[..|parts| - 1]) + |parts[|parts| - 1]|
  }

  /** Joining adds exactly one separator between neighbouring parts and nothing else. */
  lemma {:induction false} JoinSpacesLength(parts: seq<string>)
    requires parts != []
    ensures |JoinSpaces(parts)| == TotalLength(parts) + |parts| - 1
  {
    if |parts| > 1 {
      JoinSpacesLength(parts[..|parts| - 1]);
    }
  }

  /** Every part appears in the joined text, at the offset of the parts before it
      and the separators between them. */
  lemma {:induction false} JoinSpacesContains(parts: seq<string>, k: nat)
    requires k < |parts|
    ensures var at := TotalLength(parts[..k]) + k;
      at + |parts[k]| <= |JoinSpaces(parts)| && JoinSpaces(parts)[at..at + |parts[k]|] == parts[k]
  {
    var n := |parts|;
    if n > 1 {
      var init, last := parts[..n - 1], parts[n - 1];
      var joined := JoinSpaces(init);
      JoinSpacesLength(init);
      assert JoinSpaces(parts) == joined + " " + last;
      if k < n - 1 {
        JoinSpacesContains(init, k);
        assert init[..k] == parts[..k];
        var at := TotalLength(parts[..k]) + k;
        assert (joined + " " + last)[at..at + |parts[k]|] == joined[at..at + |parts[k]|];
      } else {
        assert parts[..k] == init;
        assert (joined + " " + last)[|joined| + 1..] == last;
      }
    } else {
      assert parts[..k] == [];
    }
  }

  /** Between neighbouring parts `k` and `k + 1` of the joined text, right
      after part `k`, stands a single space. */
  lemma {:induction false} JoinSpacesSeparator(parts: seq<string>, k: nat)
    requires k + 1 < |parts|
    ensures var at := TotalLength(parts[..k + 1]) + k;
      at < |JoinSpaces(parts)| && JoinSpaces(parts)[at] == ' '
  {
    var n := |parts|;
    var init, last := parts[..n - 1], parts[n - 1];
    var joined := JoinSpaces(init);
    JoinSpacesLength(init);
    assert JoinSpaces(parts) == joined + " " + last;
    assert parts[..k + 1] == init[..k + 1];
    if k + 1 < n - 1 {
      JoinSpacesSeparator(init, k);
    } else {
      assert init[..k + 1] == init;
    }
  }

  /** The prompt for a question over a context text: the context and then the
      question, each in its place between the fixed texts. */
  function Prompt(context: string, question: string): (p: string)
    ensures |p| == |PromptHead| + |context| + |PromptMiddle| + |question| + |PromptTail|
    ensures p[|PromptHead|..|PromptHead| + |context|] == context
    ensures p[|PromptHead| + |context| + |PromptMiddle|..|p| - |PromptTail|] == question
  {
    Splice(PromptHead, context, PromptMiddle, question, PromptTail)
  }

  /** A chatbot over a search service returning at most `limitToRetrieve` hits. */
  class PolicyChatbot {
    const limitToRetrieve: nat
    /** The search service: the hits for a query and a limit, or the error it raised. */
    const search: (string, nat) -> Result<seq<Hit>, string>
    /** The language model: the completion of a prompt by a model, or the error it raised. */
    const complete: (string, string) -> Result<string, string>
    /** The signed-link query: the first column of the rows it returned for a
        document path, or the error it raised. */
    const presign: string -> Result<seq<string>, string>

    constructor(limitToRetrieve: nat, search: (string, nat) -> Result<seq<Hit>, string>,
                complete: (string, string) -> Result<string, string>,
                presign: string -> Result<seq<string>, string>)
      ensures this.limitToRetrieve == limitToRetrieve
      ensures this.search == search && this.complete == complete && this.presign == presign
    {
      this.limitToRetrieve := limitToRetrieve;
      this.search := search;
      this.complete := complete;
      this.presign := presign;
    }

    /** The reply to `query` over the retrieved `context`: the fixed no-information
        message and no references, without asking the model, when nothing was
        retrieved; otherwise one call to the model with the prompt built from the
        chunks joined by spaces, returning its answer with the context unchanged,
        or the fixed apology and no references when the call fails. */
    function GetResponse(query: string, context: seq<Reference>): (r: Reply)
      ensures context == [] ==> r == Reply(NoInformation, [], 0)
      ensures context != [] ==> r.completions == 1
      ensures context != [] ==>
                var outcome := complete(AnswerModel, Prompt(JoinSpaces(Project(context, ChunkOf)), query));
                && (outcome.Success? ==> r.answer == outcome.value && r.references == context)
                && (outcome.Failure? ==> r.answer == Apology && r.references == [])
      ensures r.references == [] || r.references == context
    {
      if context == [] then Reply(NoInformation, [], 0)
      else
        match complete(AnswerModel, Prompt(JoinSpaces(Project(context, ChunkOf)), query))
        case Success(answer) => Reply(answer, context, 1)
        case Failure(_) => Reply(Apology, [], 1)
    }

    /** The signed link of a document: the first value returned, or "" when the
        query fails or returns no rows. */
    function SignedUrl(path: string): (url: string)
      ensures presign(path).Failure? ==> url == ""
      ensures presign(path).Success? && presign(path).value == [] ==> url == ""
      ensures presign(path).Success? && presign(path).value != [] ==> url == presign(path).value[0]
    {
      match presign(path)
      case Failure(_) => ""
      case Success(rows) => if rows == [] then "" else rows[0]
    }

    /** The source path of a hit, "" when it has none. */
    function PathOf(hit: Hit): (p: string)
      ensures "relative_path" in hit ==> p == hit["relative_path"]
      ensures "relative_path" !in hit ==> p == ""
    {
      if "relative_path" in hit then hit["relative_path"] else ""
    }

    /** The reference made of a hit that has a chunk: its chunk and source, and a
        signed link requested only when the source is not empty. */
    function Shape(hit: Hit): (r: Reference)
      requires "chunk" in hit
      ensures r.chunk == hit["chunk"] && r.source == PathOf(hit)
      ensures r.source == "" ==> r.signedUrl == ""
      ensures r.source != "" ==> r.signedUrl == SignedUrl(r.source)
    {
      var path := PathOf(hit);
      Reference(hit["chunk"], path, if path == "" then "" else SignedUrl(path))
    }

    /** The references made of hits that all have a chunk, in hit order. */
    function ShapeAll(hits: seq<Hit>): (r: seq<Reference>)
      requires forall i :: 0 <= i < |hits| ==> "chunk" in hits[i]
      ensures |r| == |hits|
    {
      if hits == [] then [] else ShapeAll(hits[..|hits| - 1]) + [Shape(hits[|hits| - 1])]
    }

    /** Each reference is made of the hit at its own position. */
    lemma {:induction false} ShapeAllPointwise(hits: seq<Hit>)
      requires forall i :: 0 <= i < |hits| ==> "chunk" in hits[i]
      ensures forall i :: 0 <= i < |hits| ==> ShapeAll(hits)[i] == Shape(hits[i])
    {
      if hits != [] {
        var init := hits[..|hits| - 1];
        ShapeAllPointwise(init);
        assert forall i :: 0 <= i < |init| ==> ShapeAll(hits)[i] == ShapeAll(init)[i];
      }
    }

    /** What retrieval yields: one reference per hit, in the service's order;
        nothing when the search fails, returns no hits, or returns a hit without
        a chunk (the lookup of the missing column raises and the error is
        swallowed). */
    function RetrieveSpec(query: string): (r: seq<Reference>)
      ensures search(query, limitToRetrieve).Failure? ==> r == []
      ensures search(query, limitToRetrieve).Success? ==>
                var hits := search(query, limitToRetrieve).value;
                && (r == [] || |r| == |hits|)
                && (|r| == |hits| <==> forall i :: 0 <= i < |hits| ==> "chunk" in hits[i])
    {
      match search(query, limitToRetrieve)
      case Failure(_) => []
      case Success(hits) =>
        if forall i :: 0 <= i < |hits| ==> "chunk" in hits[i] then ShapeAll(hits) else []
    }

    /** When every hit has a chunk, retrieval shapes each hit into the reference at its position. */
    lemma RetrieveShapesEveryHit(query: string)
      requires search(query, limitToRetrieve).Success?
      requires forall i :: 0 <= i < |search(query, limitToRetrieve).value| ==> "chunk" in search(query, limitToRetrieve).value[i]
      ensures var hits := search(query, limitToRetrieve).value;
        |RetrieveSpec(query)| == |hits| && forall i :: 0 <= i < |hits| ==> RetrieveSpec(query)[i] == Shape(hits[i])
    {
      ShapeAllPointwise(search(query, limitToRetrieve).value);
    }

    /** One more hit with a chunk adds its reference, and one signed link when it has a source. */
    lemma RetrieveStep(hits: seq<Hit>, i: nat)
      requires i < |hits|
      requires forall j :: 0 <= j <= i ==> "chunk" in hits[j]
      ensures ShapeAll(hits[..i + 1]) == ShapeAll(hits[..i]) + [Shape(hits[i])]
      ensures |Filter(ShapeAll(hits[..i + 1]), HasSource)| ==
                |Filter(ShapeAll(hits[..i]), HasSource)| + if PathOf(hits[i]) != "" then 1 else 0
    {
      assert hits[..i + 1][..i] == hits[..i];
      FilterAppend(ShapeAll(hits[..i]), [Shape(hits[i])], HasSource);
      assert Filter([Shape(hits[i])], HasSource) == (if HasSource(Shape(hits[i])) then [Shape(hits[i])] else []) + Filter([], HasSource);
    }

    /** Retrieval: the references of `RetrieveSpec`, and the number of signed
        links requested, which is one per returned reference with a source
        (links for the hits before a hit without a chunk are still requested). */
    method Retrieve(query: string) returns (refs: seq<Reference>, presignCalls: nat)
      ensures refs == RetrieveSpec(query)
      ensures search(query, limitToRetrieve).Success? ==> presignCalls <= |search(query, limitToRetrieve).value|
      ensures search(query, limitToRetrieve).Failure? ==> presignCalls == 0
      ensures refs != [] ==> presignCalls == |Filter(refs, HasSource)|
    {
      var found := search(query, limitToRetrieve);
      if found.Failure? || found.value == [] {
        return [], 0;
      }
      var hits := found.value;
      refs, presignCalls := [], 0;
      var i := 0;
      while i < |hits|
        invariant 0 <= i <= |hits|
        invariant forall j :: 0 <= j < i ==> "chunk" in hits[j]
        invariant refs == ShapeAll(hits[..i])
        invariant presignCalls == |Filter(refs, HasSource)| <= i
      {
        var hit := hits[i];
        var path := PathOf(hit);
        var url := "";
        if path != "" {
          url := SignedUrl(path);
          presignCalls := presignCalls + 1;
        }
        if "chunk" !in hit {
          refs := [];
          return;
        }
        var ref := Reference(hit["chunk"], path, url);
        assert ref == Shape(hit);
        RetrieveStep(hits, i);
        refs := refs + [ref];
        i := i + 1;
      }
      assert hits[..i] == hits;
    }

    /** Answering a question is replying over what retrieval yields. */
    method Query(query: string) returns (r: Reply)
      ensures r == GetResponse(query, RetrieveSpec(query))
    {
      var context, _ := Retrieve(query);
      r := GetResponse(query, context);
    }
  }
}
