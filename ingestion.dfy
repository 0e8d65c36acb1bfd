/** The two ways the ingestion scripts (`*_add_docs.py`) open their
    collection before writing a batch: a rebuild that drops an existing
    collection and creates it anew, and a get-or-create that keeps what is
    there. In both, the batch is embedded document by document and added
    only when every embedding call succeeded, and `add` refuses an empty
    or repeating id list. */
module Ingestion {
  import opened Wrappers
  import opened Embeddings
  import opened VectorStore
  import opened PipelineCore
  import Text

  /** `[f"{prefix}{i+1}" for i in range(count)]`: the scripts' numbered ids,
      all different. */
  function DocIds(prefix: string, count: nat): (ids: seq<string>)
    ensures |ids| == count && Text.Distinct(ids)
    ensures forall i :: 0 <= i < count ==> ids[i] == prefix + Text.NatToString(i + 1)
  {
    Text.NumberedIdsDistinct(prefix, 1, count);
    Text.NumberedIds(prefix, 1, count)
  }

  /** A metadata list that gives every one of `count` documents `record`. */
  function Repeated(record: Metadata, count: nat): (records: seq<Metadata>)
    ensures |records| == count && forall i :: 0 <= i < count ==> records[i] == record
  {
    seq(count, _ => record)
  }

  /** A numbered batch of `count` documents is stored exactly when every
      embedding call succeeds and there is at least one document. */
  lemma NumberedBatchStored(prefix: string, documents: seq<string>, embed: EmbedOracle)
    ensures Stores(documents, DocIds(prefix, |documents|), embed)
        <==> AllEmbed(documents, embed) && documents != []
  {
  }

  /** The collections after a clear-then-add rebuild: the collection `name`
      holds the batch alone, every other one is left as it was. */
  function AfterRebuild(collections: map<string, Collection>, name: string, documents: seq<string>,
                        ids: seq<string>, metadatas: Option<seq<Metadata>>, embed: EmbedOracle)
    : (after: map<string, Collection>)
    requires |ids| == |documents|
    ensures name in after && after[name] == FreshCollection(documents, ids, metadatas, embed)
    ensures forall n :: n != name ==> (n in after <==> n in collections)
    ensures forall n :: n != name && n in collections ==> after[n] == collections[n]
  {
    collections[name := FreshCollection(documents, ids, metadatas, embed)]
  }

  /** What the rebuilt collection holds does not depend on what it held
      before, so running the script twice leaves the same contents as
      running it once; every other collection is left as it was. */
  lemma RebuildForgetsHistory(before: map<string, Collection>, other: map<string, Collection>, name: string,
                              documents: seq<string>, ids: seq<string>,
                              metadatas: Option<seq<Metadata>>, embed: EmbedOracle)
    requires |ids| == |documents|
    ensures AfterRebuild(before, name, documents, ids, metadatas, embed)[name]
         == AfterRebuild(other, name, documents, ids, metadatas, embed)[name]
    ensures AfterRebuild(AfterRebuild(before, name, documents, ids, metadatas, embed),
                         name, documents, ids, metadatas, embed)
         == AfterRebuild(before, name, documents, ids, metadatas, embed)
    ensures forall n :: n != name ==>
      (n in AfterRebuild(before, name, documents, ids, metadatas, embed) <==> n in before)
    ensures forall n :: n != name && n in before ==>
      AfterRebuild(before, name, documents, ids, metadatas, embed)[n] == before[n]
  {
  }

  /** The opening steps of `main` in the two persistent scripts: an
      existing collection is deleted and created again, a missing one is
      created; then the batch is embedded and added. */
  method Rebuild(client: Client, name: string, documents: seq<string>, ids: seq<string>,
                 metadatas: Option<seq<Metadata>>, embed: EmbedOracle)
    returns (added: bool)
    requires |ids| == |documents|
    modifies client
    ensures added <==> Stores(documents, ids, embed)
    ensures client.collections == AfterRebuild(old(client.collections), name, documents, ids, metadatas, embed)
  {
    var found := client.HasCollection(name);
    if found {
      client.DeleteCollection(name);
    }
    ghost var cleared := client.collections;
    added := CreateAndFill(client, name, documents, ids, metadatas, embed);
    assert cleared[name := FreshCollection(documents, ids, metadatas, embed)]
        == old(client.collections)[name := FreshCollection(documents, ids, metadatas, embed)];
  }

  /** The collections after a get-or-create followed by the batch. */
  function AfterGetOrCreate(collections: map<string, Collection>, name: string, documents: seq<string>,
                            ids: seq<string>, metadatas: Option<seq<Metadata>>, embed: EmbedOracle)
    : map<string, Collection>
    requires |ids| == |documents|
  {
    var current := Lookup(collections, name);
    if Stores(documents, ids, embed) then
      collections[name := AddBatch(current, ids, Entries(documents, EmbedAll(documents, embed).value, metadatas))]
    else collections[name := current]
  }

  /** Nothing is ever removed by a get-or-create run: every entry of the
      collection survives unchanged, a stored batch leaves every one of its
      ids present, and a second run adds nothing new. */
  lemma GetOrCreateKeepsEntries(collections: map<string, Collection>, name: string, documents: seq<string>,
                                ids: seq<string>, metadatas: Option<seq<Metadata>>, embed: EmbedOracle)
    requires |ids| == |documents|
    ensures var after := AfterGetOrCreate(collections, name, documents, ids, metadatas, embed);
      && name in after
      && (forall k :: k in Lookup(collections, name) ==>
            k in after[name] && after[name][k] == Lookup(collections, name)[k])
      && (Stores(documents, ids, embed) ==> forall k :: k in ids ==> k in after[name])
      && AfterGetOrCreate(after, name, documents, ids, metadatas, embed) == after
  {
    var after := AfterGetOrCreate(collections, name, documents, ids, metadatas, embed);
    assert Lookup(after, name) == after[name];
    if Stores(documents, ids, embed) {
      var entries := Entries(documents, EmbedAll(documents, embed).value, metadatas);
      AddBatchIdempotent(Lookup(collections, name), ids, entries);
      assert after[name] == AddBatch(Lookup(collections, name), ids, entries);
    }
    assert after[name := after[name]] == after;
  }

  /** The opening steps of `main` in the direct script: get the collection
      or create it empty, then embed and add the batch. */
  method GetOrCreateAndAdd(client: Client, name: string, documents: seq<string>, ids: seq<string>,
                           metadatas: Option<seq<Metadata>>, embed: EmbedOracle)
    returns (added: bool)
    requires |ids| == |documents|
    modifies client
    ensures added <==> Stores(documents, ids, embed)
    ensures client.collections == AfterGetOrCreate(old(client.collections), name, documents, ids, metadatas, embed)
  {
    ghost var current := Lookup(client.collections, name);
    var found := client.HasCollection(name);
    if !found {
      client.CreateCollection(name);
    }
    ghost var ready := client.collections;
    OpenedAsLookup(old(client.collections), ready, name, found);
    var outcome, sent := EmbedAndAdd(client, name, documents, ids, metadatas, embed);
    added := outcome.Success?;
    ghost var batch := if added then AddBatch(current, ids, Entries(documents, EmbedAll(documents, embed).value, metadatas))
                       else current;
    UpdateAfterOpen(old(client.collections), ready, client.collections, name, current, batch, added);
  }

  /** Getting the collection, or creating it empty, leaves the map as it
      was with `name` bound to what `Lookup` finds. */
  lemma OpenedAsLookup(before: map<string, Collection>, ready: map<string, Collection>, name: string,
                       found: bool)
    requires found <==> name in before
    requires found ==> ready == before
    requires !found ==> ready == before[name := map[]]
    ensures ready == before[name := Lookup(before, name)]
  {
    if found {
      assert before[name := before[name]] == before;
    }
  }

  /** Updating the opened map at `name` is updating the original one there. */
  lemma UpdateAfterOpen<V>(before: map<string, V>, ready: map<string, V>, after: map<string, V>,
                           name: string, current: V, batch: V, stored: bool)
    requires ready == before[name := current]
    requires stored ==> after == ready[name := batch]
    requires !stored ==> after == ready
    ensures after == before[name := if stored then batch else current]
  {
    if stored {
      assert ready[name := batch] == before[name := batch];
    }
  }
}
