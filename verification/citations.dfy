/** Citation reconciliation at the end of a turn: which of the turn's
    candidate knowledge chunks and files the reply actually cites. The ids
    are extracted from the reply by a collaborator outside this model. */
module Citations {
  import opened Seqs

  /** A retrieved passage. */
  datatype Chunk = Chunk(id: string, fileId: string, content: string)

  /** Metadata of a chunk's source document. */
  datatype KnowledgeFile = KnowledgeFile(id: string, name: string)

  /** A cited chunk as persisted on the message. */
  datatype CitedChunk = CitedChunk(seqNo: int, content: string, id: string)

  /** What the message stores about its citations. */
  datatype Resolution = Resolution(chunks: seq<CitedChunk>, files: seq<KnowledgeFile>)

  /** `k => citedChunkIds.includes(k.id)`. */
  function IsCitedBy(citedIds: seq<string>): Chunk -> bool
  {
    (k: Chunk) => k.id in citedIds
  }

  /** `f => citedFileIds.includes(f.id)`. */
  function IsSourceIn(fileIds: seq<string>): KnowledgeFile -> bool
  {
    (f: KnowledgeFile) => f.id in fileIds
  }

  /** `knowledgeChunks.filter(k => citedChunkIds.includes(k.id))`. */
  function SelectChunks(candidates: seq<Chunk>, citedIds: seq<string>): (r: seq<Chunk>)
    ensures IsSubsequence(r, candidates)
    ensures forall k :: k in r <==> k in candidates && k.id in citedIds
    ensures forall k :: multiset(r)[k] == if k.id in citedIds then multiset(candidates)[k] else 0
    ensures citedIds == [] ==> r == []
  {
    FilterIsSubsequence(IsCitedBy(citedIds), candidates);
    Filter(IsCitedBy(citedIds), candidates)
  }

  /** The `fileId` of each chunk, in chunk order. */
  function FileIdsOf(chunks: seq<Chunk>): (r: seq<string>)
    ensures |r| == |chunks|
    ensures forall i :: 0 <= i < |chunks| ==> r[i] == chunks[i].fileId
  {
    if chunks == [] then [] else [chunks[0].fileId] + FileIdsOf(chunks[1..])
  }

  /** `[...new Set(chunks.map(k => k.fileId))]`: the distinct file ids, in
      order of first appearance. */
  function DistinctFileIds(chunks: seq<Chunk>): (r: seq<string>)
    ensures NoDuplicates(r)
    ensures forall id :: id in r <==> exists k :: k in chunks && k.fileId == id
    ensures IsSubsequence(r, FileIdsOf(chunks))
  {
    var ids := FileIdsOf(chunks);
    DedupIsSubsequence(ids);
    Dedup(ids)
  }

  /** `files.filter(f => fileIds.includes(f.id))`. */
  function SelectFiles(files: seq<KnowledgeFile>, fileIds: seq<string>): (r: seq<KnowledgeFile>)
    ensures IsSubsequence(r, files)
    ensures forall f :: f in r <==> f in files && f.id in fileIds
    ensures forall f :: multiset(r)[f] == if f.id in fileIds then multiset(files)[f] else 0
  {
    FilterIsSubsequence(IsSourceIn(fileIds), files);
    Filter(IsSourceIn(fileIds), files)
  }

  /** `chunks.map((k, idx) => ({seqNo: idx + 1, content, id}))`, numbering from `first`. */
  function NumberFrom(chunks: seq<Chunk>, first: int): (r: seq<CitedChunk>)
    ensures |r| == |chunks|
    ensures forall i :: 0 <= i < |r| ==> r[i].seqNo == first + i
    ensures forall i :: 0 <= i < |r| ==> r[i].id == chunks[i].id && r[i].content == chunks[i].content
  {
    if chunks == [] then []
    else [CitedChunk(first, chunks[0].content, chunks[0].id)] + NumberFrom(chunks[1..], first + 1)
  }

  /** Numbering 1..k. */
  function Renumber(chunks: seq<Chunk>): (r: seq<CitedChunk>)
    ensures |r| == |chunks|
    ensures forall i :: 0 <= i < |r| ==> r[i].seqNo == i + 1
    ensures forall i :: 0 <= i < |r| ==> r[i].id == chunks[i].id && r[i].content == chunks[i].content
  {
    NumberFrom(chunks, 1)
  }

  /** The names of the given files, in order. */
  function Names(files: seq<KnowledgeFile>): (r: seq<string>)
    ensures |r| == |files|
    ensures forall i :: 0 <= i < |files| ==> r[i] == files[i].name
  {
    if files == [] then [] else [files[0].name] + Names(files[1..])
  }

  /** Reconciles the ids cited by a reply with the turn's candidates. */
  function Resolve(citedIds: seq<string>, candidateChunks: seq<Chunk>, candidateFiles: seq<KnowledgeFile>): (r: Resolution)
    ensures |r.chunks| <= |candidateChunks|
    ensures forall i :: 0 <= i < |r.chunks| ==> r.chunks[i].seqNo == i + 1 && r.chunks[i].id in citedIds
    ensures IsSubsequence(r.files, candidateFiles)
    ensures citedIds == [] ==> r.chunks == [] && r.files == []
  {
    var chunks := SelectChunks(candidateChunks, citedIds);
    var files := SelectFiles(candidateFiles, DistinctFileIds(chunks));
    Resolution(Renumber(chunks), files)
  }

  /** The cited chunks are, in candidate order, exactly the candidates whose
      id was cited, numbered 1..k. */
  lemma ResolvedChunksAreCitedCandidates(citedIds: seq<string>, candidateChunks: seq<Chunk>, candidateFiles: seq<KnowledgeFile>)
    ensures var chunks := SelectChunks(candidateChunks, citedIds);
            Resolve(citedIds, candidateChunks, candidateFiles).chunks == Renumber(chunks)
            && IsSubsequence(chunks, candidateChunks)
            && (forall k :: k in chunks <==> k in candidateChunks && k.id in citedIds)
  {
  }

  /** A candidate file is cited exactly when it is the source of a cited
      chunk; the cited files keep candidate order. */
  lemma ResolvedFilesAreSourcesOfCitedChunks(citedIds: seq<string>, candidateChunks: seq<Chunk>, candidateFiles: seq<KnowledgeFile>)
    ensures forall f :: f in Resolve(citedIds, candidateChunks, candidateFiles).files <==>
              f in candidateFiles && exists k :: k in candidateChunks && k.id in citedIds && k.fileId == f.id
  {
  }

  /** Chunks A and B cited among A, B and C. */
  lemma ExampleResolution()
    ensures Resolve(["A", "B"], ExampleChunks(), ExampleFiles())
              == Resolution([CitedChunk(1, "alpha", "A"), CitedChunk(2, "beta", "B")], ExampleFiles()[..2])
  {
    ExampleSelectChunks();
    ExampleDistinctFileIds();
    ExampleSelectFiles();
    ExampleRenumber();
  }

  lemma ExampleDistinctFileIds()
    ensures DistinctFileIds(ExampleChunks()[..2]) == ["f1", "f2"]
  {
    assert FileIdsOf(ExampleChunks()[..2]) == ["f1", "f2"];
    assert ["f1", "f2"][..1] == ["f1"];
    assert ["f1"][..0] == [];
  }

  lemma ExampleRenumber()
    ensures Renumber(ExampleChunks()[..2]) == [CitedChunk(1, "alpha", "A"), CitedChunk(2, "beta", "B")]
  {
  }

  function ExampleChunks(): seq<Chunk>
  {
    [Chunk("A", "f1", "alpha"), Chunk("B", "f2", "beta"), Chunk("C", "f3", "gamma")]
  }

  function ExampleFiles(): seq<KnowledgeFile>
  {
    [KnowledgeFile("f1", "one.pdf"), KnowledgeFile("f2", "two.pdf"), KnowledgeFile("f3", "three.pdf")]
  }

  lemma ExampleSelectChunks()
    ensures SelectChunks(ExampleChunks(), ["A", "B"]) == ExampleChunks()[..2]
  {
    var cs := ExampleChunks();
    var cited := IsCitedBy(["A", "B"]);
    assert cs[1..][1..] == [cs[2]];
    assert Filter(cited, cs[1..][1..]) == [];
    assert Filter(cited, cs[1..]) == [cs[1]];
    assert cs[..2] == [cs[0], cs[1]];
  }

  lemma ExampleSelectFiles()
    ensures SelectFiles(ExampleFiles(), ["f1", "f2"]) == ExampleFiles()[..2]
  {
    var fs := ExampleFiles();
    var source := IsSourceIn(["f1", "f2"]);
    assert fs[1..][1..] == [fs[2]];
    assert Filter(source, fs[1..][1..]) == [];
    assert Filter(source, fs[1..]) == [fs[1]];
    assert fs[..2] == [fs[0], fs[1]];
  }
}
