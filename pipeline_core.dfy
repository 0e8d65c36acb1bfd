/** What the two versions of `rag_pipeline.py` share line for line: the
    validation and embedding steps of `add_documents`, the query
    sanitiser, and the generation service seen as an oracle. */
module PipelineCore {
  import opened Wrappers
  import opened Embeddings
  import opened VectorStore
  import Text

  /** One `generate_content` call on a prompt: the response text, or `None`
      when the call (or reading `response.text`) raises. */
  type GenerateOracle = string -> Option<string>

  const DocumentsIdsMismatch := "Number of documents and ids must match"
  const MetadataMismatch := "Number of metadata items must match number of documents"
  /** Markers for the exception `add_documents` re-raises when an
      embedding call raises and when `collection.add` raises; each stands
      for whatever exception the service raised, whose text the model does
      not carry. */
  const EmbeddingCallRaised := "embed_content raised"
  const AddCallRaised := "collection.add raised"

  /** `text.replace("\n", " ")`: every newline becomes a space. */
  function OneLine(s: string): (r: string)
    ensures |r| == |s| && '\n' !in r
    ensures forall i :: 0 <= i < |s| && s[i] != '\n' ==> r[i] == s[i]
    ensures forall i :: 0 <= i < |s| && s[i] == '\n' ==> r[i] == ' '
  {
    var r := Text.ReplaceChar(s, '\n', ' ');
    assert forall i :: 0 <= i < |r| ==> r[i] != '\n';
    r
  }

  /** The two length checks of `add_documents`, in order. A metadata list
      that is absent or empty is not checked (`if metadatas and ...`). */
  function ValidateBatch(documents: seq<string>, ids: seq<string>,
                         metadatas: Option<seq<Metadata>>): (error: Option<string>)
    ensures error.None? <==> (|documents| == |ids|
      && (metadatas.None? || metadatas.value == [] || |metadatas.value| == |documents|))
    ensures |documents| != |ids| ==> error == Some(DocumentsIdsMismatch)
    ensures error.Some? && |documents| == |ids| ==> error == Some(MetadataMismatch)
  {
    if |documents| != |ids| then Some(DocumentsIdsMismatch)
    else if metadatas.Some? && metadatas.value != [] && |metadatas.value| != |documents| then
      Some(MetadataMismatch)
    else None
  }

  /** The batches a `collection.add` after the embedding loop stores:
      every embedding call succeeds and the ids are accepted. */
  predicate Stores(documents: seq<string>, ids: seq<string>, embed: EmbedOracle) {
    AllEmbed(documents, embed) && AcceptedIds(ids)
  }

  /** `RAGPipeline.add_documents` of either version, on the collection
      `name` of `client`. `sent` is what went to the embedding service. */
  method AddDocuments(client: Client, name: string, documents: seq<string>, ids: seq<string>,
                      metadatas: Option<seq<Metadata>>, embed: EmbedOracle)
    returns (outcome: Outcome, sent: seq<string>)
    requires name in client.collections
    modifies client
    ensures ValidateBatch(documents, ids, metadatas).Some? ==>
      outcome == Failure(ValidateBatch(documents, ids, metadatas).value)
      && sent == [] && client.collections == old(client.collections)
    ensures ValidateBatch(documents, ids, metadatas).None? ==>
      && (!AllEmbed(documents, embed) ==>
            outcome == Failure(EmbeddingCallRaised) && client.collections == old(client.collections))
      && (AllEmbed(documents, embed) && !AcceptedIds(ids) ==>
            outcome == Failure(AddCallRaised) && sent == documents
            && client.collections == old(client.collections))
      && (Stores(documents, ids, embed) ==>
            outcome == Success && sent == documents
            && client.collections == old(client.collections)[name :=
                 AddBatch(old(client.collections)[name], ids,
                          Entries(documents, EmbedAll(documents, embed).value, metadatas))])
    ensures |sent| <= |documents| && sent == documents[..|sent|]
  {
    var error := ValidateBatch(documents, ids, metadatas);
    if error.Some? {
      return Failure(error.value), [];
    }
    outcome, sent := EmbedAndAdd(client, name, documents, ids, metadatas, embed);
  }

  /** Embed every document in order, then hand the whole batch to one
      `collection.add`; nothing is added once an embedding call raises or
      when `add` refuses the ids. `sent` is what went to the embedding
      service. */
  method EmbedAndAdd(client: Client, name: string, documents: seq<string>, ids: seq<string>,
                     metadatas: Option<seq<Metadata>>, embed: EmbedOracle)
    returns (outcome: Outcome, sent: seq<string>)
    requires name in client.collections && |ids| == |documents|
    modifies client
    ensures !AllEmbed(documents, embed) ==> outcome == Failure(EmbeddingCallRaised)
    ensures AllEmbed(documents, embed) && !AcceptedIds(ids) ==> outcome == Failure(AddCallRaised)
    ensures outcome.Success? <==> Stores(documents, ids, embed)
    ensures outcome.Success? ==> client.collections == old(client.collections)[name :=
      AddBatch(old(client.collections)[name], ids, Entries(documents, EmbedAll(documents, embed).value, metadatas))]
    ensures outcome.Failure? ==> client.collections == old(client.collections)
    ensures |sent| <= |documents| && sent == documents[..|sent|]
    ensures AllEmbed(documents, embed) ==> sent == documents
  {
    var embeddings;
    embeddings, sent := EmbedDocuments(documents, embed);
    if embeddings.None? {
      return Failure(EmbeddingCallRaised), sent;
    }
    var stored := client.Add(name, ids, Entries(documents, embeddings.value, metadatas));
    outcome := if stored then Success else Failure(AddCallRaised);
  }

  /** What a batch leaves in a collection that starts empty: every document
      under its id, or nothing when an embedding call raises or `add`
      refuses the ids. */
  function FreshCollection(documents: seq<string>, ids: seq<string>,
                           metadatas: Option<seq<Metadata>>, embed: EmbedOracle): Collection
    requires |ids| == |documents|
  {
    if Stores(documents, ids, embed) then
      AddBatch(map[], ids, Entries(documents, EmbedAll(documents, embed).value, metadatas))
    else map[]
  }

  /** With distinct ids, the fresh collection holds exactly the batch: one
      entry per id and nothing else, each with its document, its embedding
      and its metadata record. */
  lemma FreshCollectionContents(documents: seq<string>, ids: seq<string>,
                                metadatas: Option<seq<Metadata>>, embed: EmbedOracle)
    requires |ids| == |documents| && Text.Distinct(ids)
    ensures var c := FreshCollection(documents, ids, metadatas, embed);
      && (!AllEmbed(documents, embed) ==> c == map[])
      && (AllEmbed(documents, embed) ==> (|c| == |ids|
        && (forall k :: k in c <==> k in ids)
        && forall i :: 0 <= i < |ids| ==>
             c[ids[i]] == Entry(documents[i], embed(documents[i]).value, MetadataAt(metadatas, i))))
  {
    if Stores(documents, ids, embed) {
      var entries := Entries(documents, EmbedAll(documents, embed).value, metadatas);
      AddBatchFresh(ids, entries);
    }
  }

  /** The embed-then-add steps on a collection that is empty. */
  method FillEmpty(client: Client, name: string, documents: seq<string>, ids: seq<string>,
                   metadatas: Option<seq<Metadata>>, embed: EmbedOracle)
    returns (added: bool)
    requires name in client.collections && client.collections[name] == map[]
    requires |ids| == |documents|
    modifies client
    ensures added <==> Stores(documents, ids, embed)
    ensures client.collections == old(client.collections)[name := FreshCollection(documents, ids, metadatas, embed)]
  {
    var outcome, sent := EmbedAndAdd(client, name, documents, ids, metadatas, embed);
    added := outcome.Success?;
    if !added {
      assert client.collections == client.collections[name := map[]];
    }
  }

  /** `create_collection` followed by the embed-then-add steps. */
  method CreateAndFill(client: Client, name: string, documents: seq<string>, ids: seq<string>,
                       metadatas: Option<seq<Metadata>>, embed: EmbedOracle)
    returns (added: bool)
    requires name !in client.collections && |ids| == |documents|
    modifies client
    ensures added <==> Stores(documents, ids, embed)
    ensures client.collections == old(client.collections)[name := FreshCollection(documents, ids, metadatas, embed)]
  {
    client.CreateCollection(name);
    added := FillEmpty(client, name, documents, ids, metadatas, embed);
  }

  /** `embed_content` on the query followed by `collection.query`; `None`
      when either call raises. */
  function Retrieve(queryText: string, topK: int, embed: EmbedOracle, search: SearchOracle)
    : Option<SearchResult>
  {
    match embed(queryText)
    case None => None
    case Some(vector) => search(vector, topK)
  }
}
