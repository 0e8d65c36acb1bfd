/** `api/direct_add_docs.py`: add seventeen fixed documents to the
    collection `knowledge_base_updated`, which is fetched when it exists and
    created otherwise, with ids `direct_doc_1` ... `direct_doc_17` and the
    same metadata record for every document. The script opens an in-memory
    client, so in practice each run starts from an empty store; the model
    takes the store as it is. */
module DirectAdd {
  import opened Wrappers
  import opened Embeddings
  import opened VectorStore
  import opened PipelineCore
  import opened Ingestion
  import Text

  const CollectionName := "knowledge_base_updated"

  /** `DOCUMENTS` */
  const Documents: seq<string> := [
    "Nexobotics is an AI-powered customer service " +
      "platform that helps businesses transform " +
      "their customer interactions. Key features " +
      "include omnichannel support, AI-powered " +
      "automation, personalized customer experiences, " +
      "and real-time analytics.",
    "Nexobotics was founded in 2020 with the " +
      "mission of revolutionizing how businesses " +
      "interact with their customers using artificial " +
      "intelligence and machine learning technologies.",
    "Nexobotics offers a subscription-based pricing " +
      "model with three tiers: Starter, Professional, " +
      "and Enterprise. Each tier provides different " +
      "levels of features and support based on " +
      "business size and needs.",
    "Customer service best practices include " +
      "developing a customer-centric culture, implementing " +
      "omnichannel support, personalizing customer " +
      "interactions, leveraging AI strategically, " +
      "and gathering and acting on customer feedback.",
    "Active listening is a critical skill for " +
      "customer service. It involves fully concentrating " +
      "on what the customer is saying, understanding " +
      "their needs, and responding appropriately.",
    "Empathy in customer service means putting " +
      "yourself in the customer's position and " +
      "understanding their feelings and frustrations. " +
      "This helps build rapport and trust with " +
      "customers.",
    "First contact resolution (FCR) is a key " +
      "metric in customer service that measures " +
      "the percentage of customer issues resolved " +
      "in the first interaction, without requiring " +
      "follow-up contacts.",
    "Customer journey mapping is the process " +
      "of visualizing the entire customer experience " +
      "with your brand from their perspective, " +
      "helping identify pain points and improvement " +
      "opportunities.",
    "AI chatbots can handle routine customer " +
      "inquiries efficiently, allowing human agents " +
      "to focus on complex issues.",
    "Natural Language Processing (NLP) enables " +
      "AI systems to understand, interpret, and " +
      "respond to human language in a way that " +
      "is both meaningful and helpful.",
    "Sentiment analysis in customer service uses " +
      "AI to detect emotions in customer communications, " +
      "helping businesses respond appropriately " +
      "to customer feelings.",
    "AI-powered personalization in customer service " +
      "involves using customer data to provide " +
      "tailored experiences and recommendations " +
      "that meet individual customer needs.",
    "Predictive analytics in customer service " +
      "uses historical data and AI algorithms to " +
      "anticipate customer needs and potential " +
      "issues before they arise.",
    "In the retail industry, AI-powered customer " +
      "service can provide personalized product " +
      "recommendations, automate returns processing, " +
      "and offer 24/7 shopping assistance.",
    "For financial services, AI customer service " +
      "solutions can enhance security through voice " +
      "recognition, streamline account inquiries, " +
      "and provide personalized financial advice.",
    "In healthcare, AI customer service can assist " +
      "with appointment scheduling, medication " +
      "reminders, and answering basic health questions " +
      "while maintaining patient privacy.",
    "The travel and hospitality industry benefits " +
      "from AI customer service through automated " +
      "booking systems, personalized travel recommendations, " +
      "and real-time travel updates."]

  /** The ids are `direct_doc_1`, `direct_doc_2`, ... */
  const IdPrefix := "direct_doc_"

  /** The one metadata record every document gets. */
  const Record: Metadata := map["source" := "direct_add", "type" := "customer_service_info"]

  /** The store after a run of the script on `documents`. */
  function AfterRun(collections: map<string, Collection>, documents: seq<string>, embed: EmbedOracle)
    : map<string, Collection>
  {
    AfterGetOrCreate(collections, CollectionName, documents, DocIds(IdPrefix, |documents|), Some(Repeated(Record, |documents|)), embed)
  }

  /** `main`, on the list of documents it is given (the script gives it
      `Documents`): get or create the collection, then embed and add the
      batch. */
  method Run(client: Client, documents: seq<string>, embed: EmbedOracle) returns (added: bool)
    modifies client
    ensures added <==> AllEmbed(documents, embed) && documents != []
    ensures client.collections == AfterRun(old(client.collections), documents, embed)
  {
    NumberedBatchStored(IdPrefix, documents, embed);
    var docIds := DocIds(IdPrefix, |documents|);
    var metadata := Repeated(Record, |documents|);
    added := GetOrCreateAndAdd(client, CollectionName, documents, docIds, Some(metadata), embed);
  }

  /** `main` itself: the run on `DOCUMENTS`. */
  method Populate(client: Client, embed: EmbedOracle) returns (added: bool)
    modifies client
    ensures added <==> AllEmbed(Documents, embed)
    ensures client.collections == AfterRun(old(client.collections), Documents, embed)
  {
    added := Run(client, Documents, embed);
  }

  /** A run keeps whatever the collection held, and a second run changes
      nothing: the ids are already there and `add` keeps the first entry. */
  lemma RunKeepsAndRepeats(collections: map<string, Collection>, documents: seq<string>, embed: EmbedOracle)
    ensures var after := AfterRun(collections, documents, embed);
      && CollectionName in after
      && (forall k :: k in Lookup(collections, CollectionName) ==>
            k in after[CollectionName] && after[CollectionName][k] == Lookup(collections, CollectionName)[k])
      && AfterRun(after, documents, embed) == after
  {
    GetOrCreateKeepsEntries(collections, CollectionName, documents, DocIds(IdPrefix, |documents|),
                            Some(Repeated(Record, |documents|)), embed);
  }

  /** On a fresh in-memory store the run leaves exactly the documents, the
      one at index `i` under `direct_doc_{i+1}` and every one with `Record`,
      or an empty collection when an embedding call raised. */
  lemma RunOnEmptyStore(documents: seq<string>, embed: EmbedOracle)
    ensures var c := AfterRun(map[], documents, embed)[CollectionName];
      var ids := DocIds(IdPrefix, |documents|);
      && (!AllEmbed(documents, embed) ==> c == map[])
      && (AllEmbed(documents, embed) ==> (|c| == |documents|
        && (forall k :: k in c <==> k in ids)
        && (forall i :: 0 <= i < |documents| ==>
              c[ids[i]] == Entry(documents[i], embed(documents[i]).value, Some(Record)))))
  {
    FreshCollectionContents(documents, DocIds(IdPrefix, |documents|), Some(Repeated(Record, |documents|)), embed);
  }
}
