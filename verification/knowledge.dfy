/** Knowledge augmentation of a prompt before it is sent: when the chat has
    knowledge collections attached, the retrieved chunks and their source
    files are embedded as numbered context entries ahead of the user's
    prompt. The instructional text and JSON serialisation are not modelled;
    the outgoing prompt is kept as structure. */
module Knowledge {
  import opened Wrappers
  import opened Seqs
  import opened Citations

  /** One serialised context entry: `{seqNo, file, id, content}`. */
  datatype ContextEntry = ContextEntry(seqNo: int, file: Option<string>, id: string, content: string)

  /** The prompt actually sent to the model. */
  datatype OutgoingPrompt =
    | Plain(text: string)
    | WithContext(context: seq<ContextEntry>, objective: string)

  /** The augmented prompt and the candidates later used to resolve citations. */
  datatype Augmentation = Augmentation(prompt: OutgoingPrompt, chunks: seq<Chunk>, files: seq<KnowledgeFile>)

  /** The knowledge store's services: `knowledge.search(collectionIds, prompt)`
      (already parsed) and `getFiles(fileIds)`. */
  datatype Retrieval = Retrieval(
    search: (seq<string>, string) -> seq<Chunk>,
    getFiles: seq<string> -> seq<KnowledgeFile>
  )

  /** `files.find(f => f.id === fileId)?.name`. */
  function FileName(files: seq<KnowledgeFile>, fileId: string): (r: Option<string>)
    ensures r.None? <==> forall f :: f in files ==> f.id != fileId
    ensures r.Some? ==> exists i :: 0 <= i < |files| && files[i].id == fileId && files[i].name == r.value
                                    && forall j :: 0 <= j < i ==> files[j].id != fileId
  {
    if files == [] then None
    else if files[0].id == fileId then Some(files[0].name)
    else
      var r := FileName(files[1..], fileId);
      assert forall f :: f in files[1..] ==> f in files;
      assert forall j :: 0 < j < |files| ==> files[j] == files[1..][j - 1];
      r
  }

  /** `chunks.map((k, idx) => ({seqNo: idx + 1, file, id, content}))`,
      numbering from `first`. */
  function EntriesFrom(chunks: seq<Chunk>, files: seq<KnowledgeFile>, first: int): (r: seq<ContextEntry>)
    ensures |r| == |chunks|
    ensures forall i :: 0 <= i < |r| ==>
              r[i] == ContextEntry(first + i, FileName(files, chunks[i].fileId), chunks[i].id, chunks[i].content)
  {
    if chunks == [] then []
    else
      [ContextEntry(first, FileName(files, chunks[0].fileId), chunks[0].id, chunks[0].content)]
      + EntriesFrom(chunks[1..], files, first + 1)
  }

  /** Builds the outgoing prompt for `prompt` in a chat with the given
      collections. */
  function Augment(prompt: string, collectionIds: seq<string>, retrieval: Retrieval): (r: Augmentation)
    ensures collectionIds == [] ==> r == Augmentation(Plain(prompt), [], [])
    ensures collectionIds != [] ==>
              && r.chunks == retrieval.search(collectionIds, prompt)
              && r.files == retrieval.getFiles(DistinctFileIds(r.chunks))
              && r.prompt.WithContext? && r.prompt.objective == prompt
              && |r.prompt.context| == |r.chunks|
              && (forall i :: 0 <= i < |r.chunks| ==>
                    r.prompt.context[i].seqNo == i + 1
                    && r.prompt.context[i].id == r.chunks[i].id
                    && r.prompt.context[i].content == r.chunks[i].content
                    && r.prompt.context[i].file == FileName(r.files, r.chunks[i].fileId))
  {
    if collectionIds == [] then Augmentation(Plain(prompt), [], [])
    else
      var chunks := retrieval.search(collectionIds, prompt);
      var files := retrieval.getFiles(DistinctFileIds(chunks));
      Augmentation(WithContext(EntriesFrom(chunks, files, 1), prompt), chunks, files)
  }

  /** The files are looked up once per source document: the ids handed to
      `getFiles` are distinct, cover every chunk's file, and appear in
      retrieval order. */
  lemma RequestedFileIdsAreDistinctSources(chunks: seq<Chunk>)
    ensures NoDuplicates(DistinctFileIds(chunks))
    ensures forall id :: id in DistinctFileIds(chunks) <==> exists k :: k in chunks && k.fileId == id
    ensures forall i, j :: 0 <= i < j < |DistinctFileIds(chunks)| ==>
              FirstIndex(FileIdsOf(chunks), DistinctFileIds(chunks)[i]) < FirstIndex(FileIdsOf(chunks), DistinctFileIds(chunks)[j])
  {
    DedupFirstAppearanceOrder(FileIdsOf(chunks));
  }

  /** The context entries list every retrieved chunk once, numbered 1..k
      in retrieval order, so a chunk's number identifies it. */
  lemma {:induction false} ContextNumbersIdentifyChunks(prompt: string, collectionIds: seq<string>, retrieval: Retrieval, n: int)
    requires collectionIds != []
    requires 1 <= n <= |Augment(prompt, collectionIds, retrieval).chunks|
    ensures var a := Augment(prompt, collectionIds, retrieval);
            exists i :: 0 <= i < |a.prompt.context| && a.prompt.context[i].seqNo == n
                        && a.prompt.context[i].id == a.chunks[n - 1].id
                        && forall j :: 0 <= j < |a.prompt.context| && a.prompt.context[j].seqNo == n ==> j == i
  {
    var a := Augment(prompt, collectionIds, retrieval);
    assert a.prompt.context[n - 1].seqNo == n;
  }
}
