/** `api/load_knowledge.py`: read every `*.txt` file of a directory and
    hand the non-blank ones to the older pipeline's `add_documents` as
    three parallel lists of documents, ids and metadata records. */
module KnowledgeLoader {
  import opened Wrappers
  import opened Text
  import opened Embeddings
  import opened VectorStore
  import opened PipelineCore
  import LegacyPipeline

  /** One file the directory listing yields: `str(file_path)`, the stem
      of its name, and its text, or `None` when opening or reading it
      raises. */
  datatype TextFile = TextFile(path: string, stem: string, content: Option<string>)

  /** What `load_knowledge` ends with. */
  datatype LoadOutcome =
    | DirectoryNotFound(error: string)
    | NoTextFiles
    | NoValidDocuments
    | Added(count: nat)
    | AddFailed(error: string)

  const DirectoryNotFoundPrefix := "Knowledge directory not found: "

  /** The three lists built for `add_documents`. */
  datatype Batch = Batch(documents: seq<string>, ids: seq<string>, metadatas: seq<Metadata>)

  /** A file is loaded when it could be read and is not blank, that is,
      when its stripped text is not empty (`StripEmptyIffBlank`). */
  predicate Usable(file: TextFile) {
    file.content.Some? && !Blank(file.content.value)
  }

  /** `file_path.name`: every file the `*.txt` pattern yields is its stem
      followed by `.txt`. */
  function FileName(file: TextFile): string {
    file.stem + ".txt"
  }

  /** `f"doc_{i}_{file_path.stem}"` for the file at position `i`. */
  function DocId(i: nat, stem: string): string {
    "doc_" + NatToString(i) + "_" + stem
  }

  /** The position and the stem can be read back from an id: the number
      is a run of digits and `_` is not a digit. */
  lemma DocIdInjective(i: nat, j: nat, s: string, t: string)
    requires DocId(i, s) == DocId(j, t)
    ensures i == j && s == t
  {
    AppendAssociative("doc_", NatToString(i), "_");
    AppendAssociative("doc_", NatToString(j), "_");
    assert "doc_" + (NatToString(i) + "_") + s == "doc_" + (NatToString(i) + "_" + s);
    assert "doc_" + (NatToString(j) + "_") + t == "doc_" + (NatToString(j) + "_" + t);
    PrefixCancel("doc_", NatToString(i) + "_" + s, NatToString(j) + "_" + t);
    DigitRunUnique(NatToString(i), NatToString(j), '_', s, t);
    NatToStringInjective(i, j);
  }

  /** The metadata record of a file: its path, its name, and its stem
      with `_` turned into spaces and title-cased. */
  function Record(file: TextFile): (record: Metadata)
    ensures record.Keys == {"source", "filename", "title"}
    ensures record["source"] == file.path && record["filename"] == FileName(file)
    ensures record["title"] == Title(ReplaceChar(file.stem, '_', ' '))
  {
    map["source" := file.path, "filename" := FileName(file), "title" := Title(ReplaceChar(file.stem, '_', ' '))]
  }

  /** The positions below `n` of the files that are loaded, in listing
      order. */
  function KeptIndices(files: seq<TextFile>, n: nat): (idx: seq<nat>)
    requires n <= |files|
    ensures forall k :: 0 <= k < |idx| ==> idx[k] < n && Usable(files[idx[k]])
    ensures forall k, l :: 0 <= k < l < |idx| ==> idx[k] < idx[l]
  {
    if n == 0 then []
    else
      var earlier := KeptIndices(files, n - 1);
      var last: seq<nat> := if Usable(files[n - 1]) then [n - 1] else [];
      assert forall k :: 0 <= k < |earlier| ==> earlier[k] < n - 1;
      earlier + last
  }

  /** No usable file is skipped. */
  lemma {:induction false} KeptIndicesComplete(files: seq<TextFile>, n: nat, i: nat)
    requires i < n <= |files| && Usable(files[i])
    ensures i in KeptIndices(files, n)
  {
    if i < n - 1 {
      KeptIndicesComplete(files, n - 1, i);
    }
  }

  /** The lists the loop has built after the first `n` files: one entry
      per usable file, in listing order, each file's id numbered by its
      position among all files. */
  function CollectedBelow(files: seq<TextFile>, n: nat): (batch: Batch)
    requires n <= |files|
    ensures |batch.documents| == |batch.ids| == |batch.metadatas| == |KeptIndices(files, n)|
    ensures forall k :: 0 <= k < |KeptIndices(files, n)| ==>
      var i := KeptIndices(files, n)[k];
      && batch.documents[k] == Strip(files[i].content.value)
      && batch.ids[k] == DocId(i, files[i].stem)
      && batch.metadatas[k] == Record(files[i])
  {
    var idx := KeptIndices(files, n);
    Batch(seq(|idx|, k requires 0 <= k < |idx| => Strip(files[idx[k]].content.value)),
          seq(|idx|, k requires 0 <= k < |idx| => DocId(idx[k], files[idx[k]].stem)),
          seq(|idx|, k requires 0 <= k < |idx| => Record(files[idx[k]])))
  }

  /** The lists built from the whole listing. */
  function Collected(files: seq<TextFile>): (batch: Batch)
    ensures |batch.documents| == |batch.ids| == |batch.metadatas|
  {
    CollectedBelow(files, |files|)
  }

  /** The ids stay distinct even when files are skipped. */
  lemma CollectedIdsDistinct(files: seq<TextFile>)
    ensures Distinct(Collected(files).ids)
  {
    var batch := Collected(files);
    var idx := KeptIndices(files, |files|);
    forall k, l | 0 <= k < l < |batch.ids| ensures batch.ids[k] != batch.ids[l] {
      if batch.ids[k] == batch.ids[l] {
        DocIdInjective(idx[k], idx[l], files[idx[k]].stem, files[idx[l]].stem);
      }
    }
  }

  /** Every usable file, and only those, contributes its id and its
      stripped text. */
  lemma CollectedDocuments(files: seq<TextFile>, i: nat)
    requires i < |files|
    ensures Usable(files[i]) <==> DocId(i, files[i].stem) in Collected(files).ids
    ensures Usable(files[i]) ==> Strip(files[i].content.value) in Collected(files).documents
  {
    var idx := KeptIndices(files, |files|);
    var batch := Collected(files);
    if Usable(files[i]) {
      KeptIndicesComplete(files, |files|, i);
      var k :| 0 <= k < |idx| && idx[k] == i;
      assert batch.ids[k] == DocId(i, files[i].stem);
      assert batch.documents[k] == Strip(files[i].content.value);
    } else if DocId(i, files[i].stem) in batch.ids {
      var k :| 0 <= k < |batch.ids| && batch.ids[k] == DocId(i, files[i].stem);
      DocIdInjective(idx[k], i, files[idx[k]].stem, files[i].stem);
    }
  }

  /** One more file either adds one entry to each list or none. */
  lemma CollectedStep(files: seq<TextFile>, i: nat)
    requires i < |files|
    ensures var before, after := CollectedBelow(files, i), CollectedBelow(files, i + 1);
      if Usable(files[i]) then
        && after.documents == before.documents + [Strip(files[i].content.value)]
        && after.ids == before.ids + [DocId(i, files[i].stem)]
        && after.metadatas == before.metadatas + [Record(files[i])]
      else after == before
  {
    var before, after := CollectedBelow(files, i), CollectedBelow(files, i + 1);
    var idx := KeptIndices(files, i);
    assert KeptIndices(files, i + 1) == idx + (if Usable(files[i]) then [i] else []);
    StepDocuments(files, i);
    StepIds(files, i);
    StepMetadatas(files, i);
  }

  lemma StepDocuments(files: seq<TextFile>, i: nat)
    requires i < |files|
    requires KeptIndices(files, i + 1) == KeptIndices(files, i) + (if Usable(files[i]) then [i] else [])
    ensures CollectedBelow(files, i + 1).documents == CollectedBelow(files, i).documents
      + (if Usable(files[i]) then [Strip(files[i].content.value)] else [])
  {
  }

  lemma StepIds(files: seq<TextFile>, i: nat)
    requires i < |files|
    requires KeptIndices(files, i + 1) == KeptIndices(files, i) + (if Usable(files[i]) then [i] else [])
    ensures CollectedBelow(files, i + 1).ids == CollectedBelow(files, i).ids
      + (if Usable(files[i]) then [DocId(i, files[i].stem)] else [])
  {
  }

  lemma StepMetadatas(files: seq<TextFile>, i: nat)
    requires i < |files|
    requires KeptIndices(files, i + 1) == KeptIndices(files, i) + (if Usable(files[i]) then [i] else [])
    ensures CollectedBelow(files, i + 1).metadatas == CollectedBelow(files, i).metadatas
      + (if Usable(files[i]) then [Record(files[i])] else [])
  {
  }

  /** The `for i, file_path in enumerate(text_files)` loop. */
  method CollectFiles(files: seq<TextFile>) returns (documents: seq<string>, ids: seq<string>,
                                                     metadataList: seq<Metadata>)
    ensures Batch(documents, ids, metadataList) == Collected(files)
  {
    documents, ids, metadataList := [], [], [];
    for i := 0 to |files|
      invariant Batch(documents, ids, metadataList) == CollectedBelow(files, i)
    {
      CollectedStep(files, i);
      var file := files[i];
      if file.content.None? {
        continue;
      }
      var content := Strip(file.content.value);
      StripEmptyIffBlank(file.content.value);
      if content == [] {
        continue;
      }
      documents := documents + [content];
      ids := ids + [DocId(i, file.stem)];
      metadataList := metadataList + [Record(file)];
    }
  }

  /** `load_knowledge(knowledge_dir)` on the pipeline `get_rag_pipeline`
      returned. `directory` is the `*.txt` listing, or `None` when the
      path is missing or not a directory. An `add_documents` failure is
      reported, not raised. */
  method LoadKnowledge(pipeline: LegacyPipeline.RAGPipeline, knowledgeDir: string,
                       directory: Option<seq<TextFile>>, embed: EmbedOracle)
    returns (outcome: LoadOutcome)
    requires pipeline.Valid()
    modifies pipeline.client
    ensures pipeline.Valid()
    ensures directory.None? ==>
      outcome == DirectoryNotFound(DirectoryNotFoundPrefix + knowledgeDir)
      && pipeline.client.collections == old(pipeline.client.collections)
    ensures directory == Some([]) ==>
      outcome == NoTextFiles && pipeline.client.collections == old(pipeline.client.collections)
    ensures directory.Some? && directory.value != [] && Collected(directory.value).documents == [] ==>
      outcome == NoValidDocuments && pipeline.client.collections == old(pipeline.client.collections)
    ensures directory.Some? && directory.value != [] && Collected(directory.value).documents != [] ==>
      var batch := Collected(directory.value);
      && (AllEmbed(batch.documents, embed) ==>
            outcome == Added(|batch.documents|)
            && pipeline.client.collections == old(pipeline.client.collections)[pipeline.collectionName :=
                 AddBatch(old(pipeline.client.collections)[pipeline.collectionName], batch.ids,
                          Entries(batch.documents, EmbedAll(batch.documents, embed).value, Some(batch.metadatas)))])
      && (!AllEmbed(batch.documents, embed) ==>
            outcome == AddFailed(EmbeddingCallRaised) && pipeline.client.collections == old(pipeline.client.collections))
  {
    if directory.None? {
      return DirectoryNotFound(DirectoryNotFoundPrefix + knowledgeDir);
    }
    var files := directory.value;
    if files == [] {
      return NoTextFiles;
    }
    var documents, ids, metadataList := CollectFiles(files);
    CollectedIdsDistinct(files);
    if documents == [] {
      return NoValidDocuments;
    }
    var result, sent := pipeline.AddDocuments(documents, ids, Some(metadataList), embed);
    if result.Failure? {
      return AddFailed(result.error);
    }
    outcome := Added(|documents|);
  }
}
