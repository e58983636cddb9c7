/** How the chat page shows the references of an answer: grouped by source
    document, each document once in order of first appearance with its chunks
    and the signed link of its first reference, and a download offered for
    every document that has a link. */
module References {
  import opened Optional
  import opened Seqs
  import opened Stats

  /** One reference of an answer; `source` and `signedUrl` may be missing. */
  datatype Ref = Ref(source: Option<string>, signedUrl: Option<string>, chunk: string)

  const UnknownSource := "Unknown Source"

  /** The document a reference is grouped under. */
  function SourceName(r: Ref): (name: string)
    ensures r.source.None? ==> name == UnknownSource
    ensures r.source.Some? ==> name == r.source.value
  {
    r.source.GetOr(UnknownSource)
  }

  function UrlOf(r: Ref): string { r.signedUrl.GetOr("") }
  function ChunkOf(r: Ref): string { r.chunk }

  /** One entry of the per-document dictionary. */
  datatype SourceGroup = SourceGroup(source: string, chunks: seq<string>, signedUrl: string)

  function SourceOf(g: SourceGroup): string { g.source }
  function ChunkCount(g: SourceGroup): nat { |g.chunks| }

  /** The chunks of the references to document `s`, in reference order. */
  function ChunksOf(refs: seq<Ref>, s: string): seq<string>
  {
    if refs == [] then []
    else
      var last := refs[|refs| - 1];
      ChunksOf(refs[..|refs| - 1], s) + if SourceName(last) == s then [last.chunk] else []
  }

  /** The link of the first reference to document `s` ("" when it has none). */
  function FirstUrl(refs: seq<Ref>, s: string): string
  {
    if refs == [] then ""
    else
      var init := refs[..|refs| - 1];
      if s in Project(init, SourceName) then FirstUrl(init, s) else UrlOf(refs[|refs| - 1])
  }

  /** The entry of document `s`. */
  function GroupOf(refs: seq<Ref>, s: string): SourceGroup
  {
    SourceGroup(s, ChunksOf(refs, s), FirstUrl(refs, s))
  }

  /** The entries of the documents `ks`, in that order. */
  function GroupsOf(refs: seq<Ref>, ks: seq<string>): (r: seq<SourceGroup>)
    ensures |r| == |ks|
    ensures forall j :: 0 <= j < |ks| ==> r[j] == GroupOf(refs, ks[j])
  {
    if ks == [] then [] else [GroupOf(refs, ks[0])] + GroupsOf(refs, ks[1..])
  }

  /** The documents of the references, each once, in order of first appearance. */
  function Sources(refs: seq<Ref>): (ks: seq<string>)
    ensures forall s :: s in ks <==> s in Project(refs, SourceName)
    ensures NoDups(ks)
  {
    Distinct(Project(refs, SourceName))
  }

  /** The per-document dictionary of a list of references. */
  function Grouped(refs: seq<Ref>): seq<SourceGroup>
  {
    GroupsOf(refs, Sources(refs))
  }

  /** A document's chunks are those of the references selected by document, in order. */
  lemma {:induction false} ChunksOfGroup(refs: seq<Ref>, s: string)
    ensures ChunksOf(refs, s) == Project(Group(refs, SourceName, s), ChunkOf)
  {
    if refs != [] {
      var init, last := refs[..|refs| - 1], refs[|refs| - 1];
      assert refs == init + [last];
      ChunksOfGroup(init, s);
      GroupAppend(init, last, SourceName, s);
      ProjectAppend(Group(init, SourceName, s), if SourceName(last) == s then [last] else [], ChunkOf);
    }
  }

  /** One more reference leaves a seen document's link alone, and gives a
      new document the link of that reference. */
  lemma FirstUrlAppend(init: seq<Ref>, last: Ref, s: string)
    ensures s in Project(init, SourceName) ==> FirstUrl(init + [last], s) == FirstUrl(init, s)
    ensures s !in Project(init, SourceName) ==> FirstUrl(init + [last], s) == UrlOf(last)
  {
    assert (init + [last])[..|init|] == init;
  }

  /** A document's link is that of its first reference. */
  lemma {:induction false} FirstUrlIsFirst(refs: seq<Ref>, s: string)
    requires s in Project(refs, SourceName)
    ensures FirstUrl(refs, s) == UrlOf(refs[FirstIndex(Project(refs, SourceName), s)])
  {
    var init, last := refs[..|refs| - 1], refs[|refs| - 1];
    var P := Project(init, SourceName);
    assert refs == init + [last];
    assert Project(refs, SourceName) == P + [SourceName(last)] by {
      ProjectAppend(init, [last], SourceName);
    }
    FirstIndexAppend(P, SourceName(last), s);
    FirstUrlAppend(init, last, s);
    if s in P {
      FirstUrlIsFirst(init, s);
      assert refs[FirstIndex(P, s)] == init[FirstIndex(P, s)];
    } else {
      assert |P| == |init|;
    }
  }

  /** The documents of the dictionary are those of the references, each once,
      in order of first appearance; a document's chunks are its references'
      chunks in reference order, and its link is that of its first reference. */
  lemma GroupedEntries(refs: seq<Ref>)
    ensures Project(Grouped(refs), SourceOf) == Distinct(Project(refs, SourceName))
    ensures NoDups(Project(Grouped(refs), SourceOf))
    ensures forall s :: s in Project(Grouped(refs), SourceOf) <==> s in Project(refs, SourceName)
    ensures forall j :: 0 <= j < |Grouped(refs)| ==>
              var g := Grouped(refs)[j];
              && g.source in Project(refs, SourceName)
              && g.chunks == Project(Group(refs, SourceName, g.source), ChunkOf)
              && g.signedUrl == UrlOf(refs[FirstIndex(Project(refs, SourceName), g.source)])
  {
    GroupedSources(refs);
    var ks := Sources(refs);
    forall j | 0 <= j < |ks|
      ensures ks[j] in Project(refs, SourceName)
      ensures Grouped(refs)[j].chunks == Project(Group(refs, SourceName, ks[j]), ChunkOf)
      ensures Grouped(refs)[j].signedUrl == UrlOf(refs[FirstIndex(Project(refs, SourceName), ks[j])])
    {
      assert ks[j] in ks;
      ChunksOfGroup(refs, ks[j]);
      FirstUrlIsFirst(refs, ks[j]);
    }
  }

  /** A document has as many chunks as it has references. */
  lemma ChunkCounts(refs: seq<Ref>)
    ensures forall j :: 0 <= j < |Grouped(refs)| ==>
              |Grouped(refs)[j].chunks| == |Group(refs, SourceName, Grouped(refs)[j].source)| > 0
  {
    GroupedEntries(refs);
    forall j | 0 <= j < |Grouped(refs)|
      ensures |Grouped(refs)[j].chunks| == |Group(refs, SourceName, Grouped(refs)[j].source)| > 0
    {
      var s := Grouped(refs)[j].source;
      var i :| 0 <= i < |refs| && Project(refs, SourceName)[i] == s;
      assert refs[i] in Group(refs, SourceName, s);
    }
  }

  lemma GroupedSources(refs: seq<Ref>)
    ensures Project(Grouped(refs), SourceOf) == Sources(refs)
  {
  }

  lemma {:induction false} GroupsOfChunks(refs: seq<Ref>, ks: seq<string>)
    ensures NatSumOf(GroupsOf(refs, ks), ChunkCount) == GroupSizes(refs, SourceName, ks)
  {
    if ks != [] {
      GroupsOfChunks(refs, ks[1..]);
      assert GroupsOf(refs, ks)[1..] == GroupsOf(refs, ks[1..]);
      ChunksOfGroup(refs, ks[0]);
    }
  }

  /** Every reference's chunk is listed under exactly one document. */
  lemma ChunksAddUp(refs: seq<Ref>)
    ensures NatSumOf(Grouped(refs), ChunkCount) == |refs|
  {
    GroupsOfChunks(refs, Sources(refs));
    DistinctGroupsCoverAll(refs, SourceName);
  }

  /** The documents after one more reference: unchanged when its document was
      seen before, else extended by that document. */
  lemma SourcesAppend(p: seq<Ref>, x: Ref)
    ensures Project(p + [x], SourceName) == Project(p, SourceName) + [SourceName(x)]
    ensures Sources(p + [x]) == if SourceName(x) in Sources(p) then Sources(p) else Sources(p) + [SourceName(x)]
  {
    var P, Q := Project(p, SourceName), Project(p + [x], SourceName);
    ProjectAppend(p, [x], SourceName);
    assert Q[..|Q| - 1] == P;
  }

  /** A document without references has no chunks. */
  lemma {:induction false} ChunksOfAbsent(refs: seq<Ref>, s: string)
    requires s !in Project(refs, SourceName)
    ensures ChunksOf(refs, s) == []
  {
    if refs != [] {
      var init := refs[..|refs| - 1];
      ProjectAppend(init, [refs[|refs| - 1]], SourceName);
      assert refs == init + [refs[|refs| - 1]];
      ChunksOfAbsent(init, s);
    }
  }

  /** One more reference leaves the entries of the documents seen before in
      place; only its own document's entry gains its chunk. */
  lemma GroupedAt(p: seq<Ref>, x: Ref, j: nat)
    requires j < |Sources(p)|
    ensures |Grouped(p + [x])| >= |Sources(p)|
    ensures Grouped(p + [x])[j] ==
              if Sources(p)[j] == SourceName(x) then Grouped(p)[j].(chunks := Grouped(p)[j].chunks + [x.chunk])
              else Grouped(p)[j]
  {
    var ks, ks' := Sources(p), Sources(p + [x]);
    SourcesAppend(p, x);
    assert |ks'| >= |ks| && ks'[j] == ks[j];
    assert ks[j] in ks;
    GroupOfAppend(p, x, ks[j]);
    assert Grouped(p)[j] == GroupOf(p, ks[j]);
    assert Grouped(p + [x])[j] == GroupOf(p + [x], ks[j]);
  }

  /** One more reference changes only its own document's entry, by its chunk. */
  lemma GroupOfAppend(p: seq<Ref>, x: Ref, s: string)
    requires s in Project(p, SourceName)
    ensures GroupOf(p + [x], s) ==
              if s == SourceName(x) then GroupOf(p, s).(chunks := GroupOf(p, s).chunks + [x.chunk])
              else GroupOf(p, s)
  {
    assert (p + [x])[..|p|] == p;
  }

  /** A reference whose document is new puts that document's entry last. */
  lemma GroupedLast(p: seq<Ref>, x: Ref)
    requires SourceName(x) !in Sources(p)
    ensures |Grouped(p + [x])| == |Sources(p)| + 1
    ensures Grouped(p + [x])[|Sources(p)|] == SourceGroup(SourceName(x), [x.chunk], UrlOf(x))
  {
    var ks, n := Sources(p), SourceName(x);
    SourcesAppend(p, x);
    ChunksOfAbsent(p, n);
    assert (p + [x])[..|p|] == p;
    assert Sources(p + [x])[|ks|] == n;
  }

  /** A reference whose document was already seen appends its chunk to that
      document's entry and changes nothing else. */
  lemma GroupedStepSeen(p: seq<Ref>, x: Ref)
    requires SourceName(x) in Sources(p)
    ensures var k := FirstIndex(Sources(p), SourceName(x));
      Grouped(p + [x]) == Grouped(p)[k := Grouped(p)[k].(chunks := Grouped(p)[k].chunks + [x.chunk])]
  {
    SourcesAppend(p, x);
    var ks, n := Sources(p), SourceName(x);
    var k := FirstIndex(ks, n);
    var gP, gQ := Grouped(p), Grouped(p + [x]);
    assert |gQ| == |gP|;
    forall j | 0 <= j < |ks|
      ensures gQ[j] == gP[k := gP[k].(chunks := gP[k].chunks + [x.chunk])][j]
    {
      GroupedAt(p, x, j);
    }
  }

  /** A reference whose document is new adds an entry at the end, with its chunk and its link. */
  lemma GroupedStepNew(p: seq<Ref>, x: Ref)
    requires SourceName(x) !in Sources(p)
    ensures Grouped(p + [x]) == Grouped(p) + [SourceGroup(SourceName(x), [x.chunk], UrlOf(x))]
  {
    GroupedLast(p, x);
    var ks := Sources(p);
    forall j | 0 <= j < |ks| ensures Grouped(p + [x])[j] == Grouped(p)[j] {
      GroupedAt(p, x, j);
    }
  }

  /** One turn of the loop that fills the per-document dictionary: a
      document not yet in the dictionary gets an entry with the reference's
      link, and the reference's chunk is appended to its document's entry. */
  method AddReference(ghost done: seq<Ref>, groups: seq<SourceGroup>, ref: Ref) returns (next: seq<SourceGroup>)
    requires groups == Grouped(done)
    ensures next == Grouped(done + [ref])
  {
    var name := SourceName(ref);
    GroupedSources(done);
    if name !in Project(groups, SourceOf) {
      GroupedStepNew(done, ref);
      next := groups + [SourceGroup(name, [ref.chunk], UrlOf(ref))];
    } else {
      GroupedStepSeen(done, ref);
      var k := FirstIndex(Project(groups, SourceOf), name);
      next := groups[k := groups[k].(chunks := groups[k].chunks + [ref.chunk])];
    }
  }

  /** The loop that fills the per-document dictionary, one reference at a
      time, in reference order. */
  method GroupReferences(refs: seq<Ref>) returns (groups: seq<SourceGroup>)
    ensures groups == Grouped(refs)
  {
    groups := [];
    var i := 0;
    while i < |refs|
      invariant 0 <= i <= |refs|
      invariant groups == Grouped(refs[..i])
    {
      ghost var done := refs[..i];
      groups := AddReference(done, groups, refs[i]);
      assert done + [refs[i]] == refs[..i + 1];
      i := i + 1;
    }
    assert refs[..i] == refs;
  }

  /** The last `/`-separated segment of a path (`path.split("/")[-1]`). */
  function LastSegment(path: string): string
  {
    if path == [] then ""
    else if path[|path| - 1] == '/' then ""
    else LastSegment(path[..|path| - 1]) + [path[|path| - 1]]
  }

  /** The last segment is the longest suffix without a `/`: it has none, and
      it is the whole path or follows a `/`. */
  lemma {:induction false} LastSegmentSuffix(path: string)
    ensures var r := LastSegment(path);
      && '/' !in r
      && |r| <= |path| && r == path[|path| - |r|..]
      && (|r| < |path| ==> path[|path| - |r| - 1] == '/')
  {
    if path != [] && path[|path| - 1] != '/' {
      var init, c := path[..|path| - 1], path[|path| - 1];
      LastSegmentSuffix(init);
      var t := LastSegment(init);
      var r := t + [c];
      assert LastSegment(path) == r;
      assert path == init + [c];
      assert path[|path| - |r|..] == init[|init| - |t|..] + [c];
      assert forall i :: 0 <= i < |r| ==> r[i] == if i < |t| then t[i] else c;
      if |r| < |path| {
        assert path[|path| - |r| - 1] == init[|init| - |t| - 1];
      }
    }
  }

  /** A download of a document: the link it is fetched from and the file name it is saved under. */
  datatype Download = Download(url: string, filename: string)

  predicate HasUrl(g: SourceGroup) { g.signedUrl != "" }

  function DownloadOf(g: SourceGroup): Download { Download(g.signedUrl, LastSegment(g.source)) }

  /** The downloads offered for a dictionary: one per document with a link, in dictionary order. */
  function Downloads(groups: seq<SourceGroup>): (r: seq<Download>)
  {
    Project(Filter(groups, HasUrl), DownloadOf)
  }

  /** Every download carries a link, and every document with a link is
      offered for download under the last segment of its path. */
  lemma DownloadsOffered(groups: seq<SourceGroup>)
    ensures |Downloads(groups)| <= |groups|
    ensures forall i :: 0 <= i < |Downloads(groups)| ==> Downloads(groups)[i].url != ""
    ensures forall g :: g in groups && HasUrl(g) ==> Download(g.signedUrl, LastSegment(g.source)) in Downloads(groups)
  {
    var f := Filter(groups, HasUrl);
    forall g | g in groups && HasUrl(g)
      ensures Download(g.signedUrl, LastSegment(g.source)) in Downloads(groups)
    {
      assert g in f;
      var i :| 0 <= i < |f| && f[i] == g;
      assert Downloads(groups)[i] == DownloadOf(g);
    }
    forall i | 0 <= i < |Downloads(groups)| ensures Downloads(groups)[i].url != "" {
      assert f[i] in f;
    }
  }

  /** A chat message; `references` is missing from messages that carry none. */
  datatype Message = Message(role: string, content: string, references: Option<seq<Ref>>)

  /** The message shows its references when it comes from the assistant and has a non-empty list of them. */
  predicate ShowsReferences(m: Message) {
    m.role == "assistant" && m.references.Some? && m.references.value != []
  }

  lemma DownloadsAppend(groups: seq<SourceGroup>, g: SourceGroup)
    ensures Downloads(groups + [g]) == Downloads(groups) + if HasUrl(g) then [DownloadOf(g)] else []
  {
    FilterAppend(groups, [g], HasUrl);
    ProjectAppend(Filter(groups, HasUrl), Filter([g], HasUrl), DownloadOf);
    assert Filter([g], HasUrl) == (if HasUrl(g) then [g] else []) + Filter([], HasUrl);
  }

  /** The loop over the dictionary that offers a download for every document with a link. */
  method OfferDownloads(groups: seq<SourceGroup>) returns (downloads: seq<Download>)
    ensures downloads == Downloads(groups)
  {
    downloads := [];
    var j := 0;
    while j < |groups|
      invariant 0 <= j <= |groups|
      invariant downloads == Downloads(groups[..j])
    {
      assert groups[..j + 1] == groups[..j] + [groups[j]];
      DownloadsAppend(groups[..j], groups[j]);
      if groups[j].signedUrl != "" {
        downloads := downloads + [DownloadOf(groups[j])];
      }
      j := j + 1;
    }
    assert groups[..j] == groups;
  }

  /** Some reference means some document. */
  lemma GroupedNonEmpty(refs: seq<Ref>)
    requires refs != []
    ensures Grouped(refs) != []
  {
    assert SourceName(refs[0]) in Project(refs, SourceName);
    assert SourceName(refs[0]) in Sources(refs);
  }

  /** Displaying a message: the per-document dictionary of its references and
      the downloads offered, both empty unless the message shows its
      references. */
  method DisplayMessage(m: Message) returns (groups: seq<SourceGroup>, downloads: seq<Download>)
    ensures !ShowsReferences(m) ==> groups == [] && downloads == []
    ensures ShowsReferences(m) ==> groups == Grouped(m.references.value) && groups != []
    ensures downloads == Downloads(groups)
  {
    if !ShowsReferences(m) {
      return [], [];
    }
    groups := GroupReferences(m.references.value);
    GroupedNonEmpty(m.references.value);
    downloads := OfferDownloads(groups);
  }

  const DefaultMimeType := "application/octet-stream"

  /** The MIME type of a file: the guessed one, or the generic binary type when
      nothing (or an empty type) is guessed from the file name. */
  function MimeType(guess: string -> Option<string>, filename: string): (r: string)
    ensures r != ""
    ensures guess(filename).Some? && guess(filename).value != "" ==> r == guess(filename).value
    ensures guess(filename).None? || guess(filename).value == "" ==> r == DefaultMimeType
  {
    match guess(filename)
    case Some(t) => if t != "" then t else DefaultMimeType
    case None => DefaultMimeType
  }
}
