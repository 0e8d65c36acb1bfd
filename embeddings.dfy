/** The remote embedding service (`genai.embed_content`) as an oracle, and
    the loop that every caller writes around it: embed each document in
    order, stop at the first call that raises. */
module Embeddings {
  import opened Wrappers

  /** An embedding vector; its numbers are only passed through. */
  type Embedding = seq<real>

  /** One embedding call: the vector, or `None` when the call raises. */
  type EmbedOracle = string -> Option<Embedding>

  predicate AllEmbed(documents: seq<string>, embed: EmbedOracle) {
    forall i :: 0 <= i < |documents| ==> embed(documents[i]).Some?
  }

  /** The embeddings of all documents, in document order, when every call
      succeeds; `None` when any call raises. */
  function EmbedAll(documents: seq<string>, embed: EmbedOracle): (r: Option<seq<Embedding>>)
    ensures r.Some? <==> AllEmbed(documents, embed)
    ensures r.Some? ==> (|r.value| == |documents|
      && forall i :: 0 <= i < |documents| ==> r.value[i] == embed(documents[i]).value)
  {
    if AllEmbed(documents, embed) then
      Some(seq(|documents|, i requires 0 <= i < |documents| => embed(documents[i]).value))
    else None
  }

  /** The append loop around the embedding call. `sent` is the sequence of
      texts handed to the service: a prefix of the documents that stops at
      the first failing call, or all of them. */
  method EmbedDocuments(documents: seq<string>, embed: EmbedOracle)
    returns (embeddings: Option<seq<Embedding>>, sent: seq<string>)
    ensures embeddings == EmbedAll(documents, embed)
    ensures |sent| <= |documents| && sent == documents[..|sent|]
    ensures embeddings.Some? ==> sent == documents
    ensures embeddings.None? ==> (|sent| > 0 && embed(sent[|sent| - 1]).None?
      && forall j :: 0 <= j < |sent| - 1 ==> embed(sent[j]).Some?)
  {
    var vectors: seq<Embedding> := [];
    sent := [];
    var i := 0;
    while i < |documents|
      invariant 0 <= i <= |documents|
      invariant sent == documents[..i]
      invariant |vectors| == i
      invariant forall j :: 0 <= j < i ==> embed(documents[j]).Some? && vectors[j] == embed(documents[j]).value
    {
      sent := sent + [documents[i]];
      var response := embed(documents[i]);
      if response.None? {
        assert documents[..i + 1] == sent;
        return None, sent;
      }
      vectors := vectors + [response.value];
      i := i + 1;
    }
    assert documents[..i] == documents;
    assert EmbedAll(documents, embed).value == vectors;
    return Some(vectors), sent;
  }
}
