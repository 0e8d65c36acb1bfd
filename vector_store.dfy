/** ChromaDB seen from outside: a client holds named collections, a
    collection maps a document id to its text, embedding and metadata, and
    a similarity search is an oracle. Only what the chatbot relies on is
    modelled: `get_collection`, `create_collection`, `delete_collection`
    and `add`, which refuses a batch with no id or with an id given twice
    and leaves an id already present as it is. */
module VectorStore {
  import opened Wrappers
  import opened Embeddings
  import Text

  /** A metadata record: string keys to string values. */
  type Metadata = map<string, string>

  datatype Entry = Entry(document: string, embedding: Embedding, metadata: Option<Metadata>)

  type Collection = map<string, Entry>

  /** What `collection.query(..., include=["documents", "metadatas",
      "distances"])` yields for one query embedding. A stored document
      without metadata comes back as `None`. */
  datatype SearchResult = SearchResult(
    documents: seq<string>, distances: seq<real>, metadatas: seq<Option<Metadata>>)

  /** One search call with `n_results`: a result, or `None` when it raises. */
  type SearchOracle = (Embedding, int) -> Option<SearchResult>

  /** The metadata stored for the `i`-th document of a batch: the `i`-th
      record when one was passed, none otherwise. */
  function MetadataAt(metadatas: Option<seq<Metadata>>, i: nat): Option<Metadata> {
    if metadatas.Some? && i < |metadatas.value| then Some(metadatas.value[i]) else None
  }

  /** The records an `add(documents=, embeddings=, metadatas=)` call stores. */
  function Entries(documents: seq<string>, embeddings: seq<Embedding>,
                   metadatas: Option<seq<Metadata>>): (es: seq<Entry>)
    requires |embeddings| == |documents|
    ensures |es| == |documents|
    ensures forall i :: 0 <= i < |documents| ==>
      es[i] == Entry(documents[i], embeddings[i], MetadataAt(metadatas, i))
  {
    seq(|documents|, i requires 0 <= i < |documents| =>
      Entry(documents[i], embeddings[i], MetadataAt(metadatas, i)))
  }

  /** The id lists `collection.add` accepts: ChromaDB raises on an empty
      list and on an id that occurs twice in it. */
  predicate AcceptedIds(ids: seq<string>) {
    ids != [] && Text.Distinct(ids)
  }

  /** The storing step of an accepted `collection.add`: the entries are
      stored under their ids in batch order; an id already present keeps
      its entry. */
  function AddBatch(c: Collection, ids: seq<string>, entries: seq<Entry>): (r: Collection)
    requires |ids| == |entries|
    ensures forall k :: k in r <==> k in c || k in ids
    ensures forall k :: k in c ==> r[k] == c[k]
    ensures forall i :: 0 <= i < |ids| && ids[i] !in c && ids[i] !in ids[..i] ==> r[ids[i]] == entries[i]
    decreases |ids|
  {
    if ids == [] then c
    else
      var n := |ids| - 1;
      var before := AddBatch(c, ids[..n], entries[..n]);
      DropLast(ids);
      if ids[n] in before then before else before[ids[n] := entries[n]]
  }

  /** The list without its last id agrees with it position by position. */
  lemma DropLast(ids: seq<string>)
    requires ids != []
    ensures var n := |ids| - 1;
      && (forall i :: 0 <= i < n ==> ids[..n][i] == ids[i] && ids[..n][..i] == ids[..i])
      && (forall k :: k in ids <==> k in ids[..n] || k == ids[n])
  {
  }

  /** Adding ids that are all present already changes nothing. */
  lemma {:induction false} AddBatchExisting(c: Collection, ids: seq<string>, entries: seq<Entry>)
    requires |ids| == |entries|
    requires forall k :: k in ids ==> k in c
    ensures AddBatch(c, ids, entries) == c
    decreases |ids|
  {
    if ids != [] {
      var n := |ids| - 1;
      assert forall k :: k in ids[..n] ==> k in ids;
      AddBatchExisting(c, ids[..n], entries[..n]);
    }
  }

  /** Repeating an add is harmless: the second one finds every id present. */
  lemma AddBatchIdempotent(c: Collection, ids: seq<string>, entries: seq<Entry>)
    requires |ids| == |entries|
    ensures AddBatch(AddBatch(c, ids, entries), ids, entries) == AddBatch(c, ids, entries)
  {
    AddBatchExisting(AddBatch(c, ids, entries), ids, entries);
  }

  /** Into an empty collection, distinct ids give exactly one entry per id. */
  lemma AddBatchFresh(ids: seq<string>, entries: seq<Entry>)
    requires |ids| == |entries|
    requires forall i, j :: 0 <= i < j < |ids| ==> ids[i] != ids[j]
    ensures var r := AddBatch(map[], ids, entries);
      |r| == |ids| && (forall i :: 0 <= i < |ids| ==> ids[i] in r && r[ids[i]] == entries[i])
  {
    var r := AddBatch(map[], ids, entries);
    forall i | 0 <= i < |ids| ensures ids[i] !in ids[..i] {
    }
    DistinctCardinality(ids);
    assert r.Keys == set k | k in ids;
  }

  lemma {:induction false} DistinctCardinality(ids: seq<string>)
    requires forall i, j :: 0 <= i < j < |ids| ==> ids[i] != ids[j]
    ensures |set k | k in ids| == |ids|
    decreases |ids|
  {
    if ids != [] {
      var n := |ids| - 1;
      var rest := ids[..n];
      DistinctCardinality(rest);
      assert (set k | k in ids) == (set k | k in rest) + {ids[n]};
      assert ids[n] !in rest;
    }
  }

  /** The collection called `name`, or an empty one when there is none. */
  function Lookup(collections: map<string, Collection>, name: string): Collection {
    if name in collections then collections[name] else map[]
  }

  /** A ChromaDB client and the collections it sees, updated in place. */
  class Client {
    var collections: map<string, Collection>

    constructor (initial: map<string, Collection>)
      ensures collections == initial
    {
      collections := initial;
    }

    /** `get_collection` succeeds exactly when the collection exists. */
    method HasCollection(name: string) returns (found: bool)
      ensures found <==> name in collections
    {
      found := name in collections;
    }

    /** `create_collection` on a name not in use. */
    method CreateCollection(name: string)
      requires name !in collections
      modifies this
      ensures collections == old(collections)[name := map[]]
    {
      collections := collections[name := map[]];
    }

    /** `delete_collection` on a name in use. */
    method DeleteCollection(name: string)
      requires name in collections
      modifies this
      ensures collections == old(collections) - {name}
    {
      collections := collections - {name};
    }

    /** `collection.add` on the collection called `name`: `stored` is false
        when the call raises, and then nothing changes. */
    method Add(name: string, ids: seq<string>, entries: seq<Entry>) returns (stored: bool)
      requires name in collections && |ids| == |entries|
      modifies this
      ensures stored <==> AcceptedIds(ids)
      ensures stored ==> collections == old(collections)[name := AddBatch(old(collections)[name], ids, entries)]
      ensures !stored ==> collections == old(collections)
    {
      if !AcceptedIds(ids) {
        return false;
      }
      collections := collections[name := AddBatch(collections[name], ids, entries)];
      stored := true;
    }
  }
}
