/** `api/persistent_add_docs.py`: rebuild the customer-service best
    practices collection from ten fixed documents, with ids `csbp_1` ...
    `csbp_10` and the same metadata record for every document. */
module BestPracticesRebuild {
  import opened Wrappers
  import opened Embeddings
  import opened VectorStore
  import opened PipelineCore
  import opened Ingestion
  import Text

  const CollectionName := "customer_service_best_practices"
  const PersistDirectory := "./chromadb_data"

  /** `DOCUMENTS` */
  const Documents: seq<string> := [
    "Customer service best practices include " +
      "developing a customer-centric culture, implementing " +
      "omnichannel support, personalizing customer " +
      "interactions, leveraging AI strategically, " +
      "and gathering and acting on customer feedback.",
    "Active listening is a critical skill for " +
      "customer service. It involves fully concentrating " +
      "on what the customer is saying, understanding " +
      "their needs, and responding appropriately.",
    "Empathy in customer service means putting " +
      "yourself in the customer's position and " +
      "understanding their feelings and frustrations. " +
      "This helps build rapport and trust with " +
      "customers.",
    "First contact resolution (FCR) is a key " +
      "metric in customer service that measures " +
      "the percentage of customer issues resolved " +
      "in the first interaction, without requiring " +
      "follow-up contacts.",
    "Customer journey mapping is the process " +
      "of visualizing the entire customer experience " +
      "with your brand from their perspective, " +
      "helping identify pain points and improvement " +
      "opportunities.",
    "AI chatbots can handle routine customer " +
      "inquiries efficiently, allowing human agents " +
      "to focus on complex issues.",
    "Natural Language Processing (NLP) enables " +
      "AI systems to understand, interpret, and " +
      "respond to human language in a way that " +
      "is both meaningful and helpful.",
    "Sentiment analysis in customer service uses " +
      "AI to detect emotions in customer communications, " +
      "helping businesses respond appropriately " +
      "to customer feelings.",
    "AI-powered personalization in customer service " +
      "involves using customer data to provide " +
      "tailored experiences and recommendations " +
      "that meet individual customer needs.",
    "Predictive analytics in customer service " +
      "uses historical data and AI algorithms to " +
      "anticipate customer needs and potential " +
      "issues before they arise."]

  /** The ids are `csbp_1`, `csbp_2`, ... */
  const IdPrefix := "csbp_"

  /** The one metadata record every document gets. */
  const Record: Metadata := map["source" := "customer_service_knowledge", "category" := "best_practices"]

  /** The store after a run of the script on `documents`. */
  function AfterRun(collections: map<string, Collection>, documents: seq<string>, embed: EmbedOracle)
    : map<string, Collection>
  {
    AfterRebuild(collections, CollectionName, documents, DocIds(IdPrefix, |documents|), Some(Repeated(Record, |documents|)), embed)
  }

  /** `main`, on the list of documents it is given (the script gives it
      `Documents`): delete the collection when it exists, create it, then
      embed and add the batch. */
  method Run(client: Client, documents: seq<string>, embed: EmbedOracle) returns (added: bool)
    modifies client
    ensures added <==> AllEmbed(documents, embed) && documents != []
    ensures client.collections == AfterRun(old(client.collections), documents, embed)
  {
    NumberedBatchStored(IdPrefix, documents, embed);
    var docIds := DocIds(IdPrefix, |documents|);
    var metadata := Repeated(Record, |documents|);
    added := Rebuild(client, CollectionName, documents, docIds, Some(metadata), embed);
  }

  /** `main` itself: the run on `DOCUMENTS`. */
  method Populate(client: Client, embed: EmbedOracle) returns (added: bool)
    modifies client
    ensures added <==> AllEmbed(Documents, embed)
    ensures client.collections == AfterRun(old(client.collections), Documents, embed)
  {
    added := Run(client, Documents, embed);
  }

  /** After a run the collection holds exactly the documents, the one at
      index `i` under `csbp_{i+1}` and every one with `Record`, or it is
      empty when an embedding call raised. */
  lemma RunContents(collections: map<string, Collection>, documents: seq<string>, embed: EmbedOracle)
    ensures var c := AfterRun(collections, documents, embed)[CollectionName];
      var ids := DocIds(IdPrefix, |documents|);
      && (!AllEmbed(documents, embed) ==> c == map[])
      && (AllEmbed(documents, embed) ==> (|c| == |documents|
        && (forall k :: k in c <==> k in ids)
        && (forall i :: 0 <= i < |documents| ==>
              c[ids[i]] == Entry(documents[i], embed(documents[i]).value, Some(Record)))))
  {
    FreshCollectionContents(documents, DocIds(IdPrefix, |documents|), Some(Repeated(Record, |documents|)), embed);
  }

  /** A second run leaves the store as the first one left it, and the
      other collections are never touched. */
  lemma RunIdempotent(collections: map<string, Collection>, documents: seq<string>, embed: EmbedOracle)
    ensures AfterRun(AfterRun(collections, documents, embed), documents, embed)
         == AfterRun(collections, documents, embed)
    ensures forall n :: n != CollectionName && n in collections ==>
      n in AfterRun(collections, documents, embed) && AfterRun(collections, documents, embed)[n] == collections[n]
  {
    RebuildForgetsHistory(collections, collections, CollectionName, documents, DocIds(IdPrefix, |documents|),
                          Some(Repeated(Record, |documents|)), embed);
  }
}
