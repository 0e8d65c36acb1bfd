/** `deployment/api/persistent_add_docs.py`: rebuild the deployed
    knowledge base from the twelve fixed documents, with ids `doc_1` ...
    `doc_12` and a category chosen by the position of the document. */
module KnowledgeRebuild {
  import opened Wrappers
  import opened Embeddings
  import opened VectorStore
  import opened PipelineCore
  import opened Ingestion
  import Text

  const CollectionName := "nexobotics_knowledge_base"
  /** `CHROMA_PERSIST_DIR` when it is set; it only selects the client. */
  const DefaultPersistDirectory := "./chromadb_data"
  const Source := "nexobotics_knowledge_base"
  /** The ids are `doc_1`, `doc_2`, ... */
  const IdPrefix := "doc_"

  /** `DOCUMENTS` */
  const Documents: seq<string> := [
    "Nexobotics is a cutting-edge robotics company " +
      "specializing in industrial automation solutions. " +
      "Our mission is to transform manufacturing " +
      "through innovative robotic systems that " +
      "increase efficiency and productivity.",
    "Founded in 2018, Nexobotics has grown to " +
      "become a leader in custom robotic solutions " +
      "for the manufacturing industry. We serve " +
      "clients across automotive, electronics, " +
      "and consumer goods sectors.",
    "Nexobotics headquarters is located in Boston, " +
      "Massachusetts, with additional offices in " +
      "Austin, Texas and San Jose, California. " +
      "Our team consists of over 100 engineers " +
      "and robotics specialists.",
    "The Nexobotics RoboArm Pro is our flagship " +
      "robotic arm solution, featuring 6-axis precision " +
      "movement with a reach of 1.8 meters and " +
      "payload capacity of 25kg. It's ideal for " +
      "pick-and-place, assembly, and material handling " +
      "applications.",
    "Our Vision AI System uses advanced computer " +
      "vision algorithms to enable robots to identify, " +
      "sort, and handle objects with 99.8% accuracy " +
      "regardless of orientation or lighting conditions.",
    "Nexobotics offers comprehensive maintenance " +
      "packages including quarterly inspections, " +
      "software updates, and 24/7 emergency support " +
      "to ensure minimal downtime for our clients' " +
      "robotic systems.",
    "For technical support, customers can contact " +
      "our support team at support@nexobotics.com " +
      "or call our 24/7 support line at (800) 555-0123. " +
      "Our average response time is under 2 hours.",
    "The Nexobotics customer portal at support.nexobotics.com " +
      "provides access to documentation, troubleshooting " +
      "guides, software updates, and the ability " +
      "to log and track support tickets.",
    "Our standard warranty covers all hardware " +
      "for 24 months and software for 36 months " +
      "from the date of installation. Extended " +
      "warranty options are available for up to " +
      "5 years.",
    "Nexobotics offers a 30-day satisfaction " +
      "guarantee for all software products. If " +
      "you're not completely satisfied, we'll provide " +
      "a full refund or work with you to find a " +
      "better solution.",
    "Our project implementation follows a 5-phase " +
      "approach: requirements gathering, solution " +
      "design, development, installation, and post-deployment " +
      "support to ensure successful integration.",
    "Training services include initial operator " +
      "training, advanced maintenance training, " +
      "and custom curriculum development for your " +
      "technical team to ensure maximum ROI on " +
      "your robotics investment."]

  /** The categories in the order the documents are grouped. */
  const CategoryNames := ["company_info", "products_services", "support_info", "policies"]

  /** The category of the document at index `i` of the `if`/`elif` chain. */
  function Category(i: nat): (category: string)
    ensures category in CategoryNames
    ensures i >= 9 <==> category == "policies"
  {
    if i < 3 then "company_info"
    else if i < 6 then "products_services"
    else if i < 9 then "support_info"
    else "policies"
  }

  /** The chain cuts the documents into runs of three: index `i` falls in
      group `i / 3` of the category list, and everything from index 9 on is
      a policy. */
  lemma CategoryByGroup(i: nat)
    ensures i < 12 ==> Category(i) == CategoryNames[i / 3]
    ensures i >= 9 ==> Category(i) == CategoryNames[3]
    ensures Category(i) in CategoryNames
  {
  }

  /** The metadata record `main` builds for the document at index `i`. */
  function Record(i: nat, docId: string): (record: Metadata)
    ensures record.Keys == {"source", "category", "doc_id"}
    ensures record["source"] == Source && record["category"] == Category(i) && record["doc_id"] == docId
  {
    map["source" := Source, "category" := Category(i), "doc_id" := docId]
  }

  /** The `metadata.append` loop over `enumerate(DOCUMENTS)`. */
  method BuildMetadata(documents: seq<string>, docIds: seq<string>) returns (metadata: seq<Metadata>)
    requires |docIds| == |documents|
    ensures |metadata| == |documents|
    ensures forall i :: 0 <= i < |documents| ==> metadata[i] == Record(i, docIds[i])
  {
    metadata := [];
    for i := 0 to |documents|
      invariant |metadata| == i
      invariant forall j :: 0 <= j < i ==> metadata[j] == Record(j, docIds[j])
    {
      var category;
      if i < 3 {
        category := "company_info";
      } else if i < 6 {
        category := "products_services";
      } else if i < 9 {
        category := "support_info";
      } else {
        category := "policies";
      }
      metadata := metadata + [map["source" := Source, "category" := category, "doc_id" := docIds[i]]];
    }
  }

  /** The metadata list of the run: one record per document. */
  function Metadatas(documents: seq<string>): (records: seq<Metadata>)
    ensures |records| == |documents|
    ensures forall i :: 0 <= i < |documents| ==> records[i] == Record(i, DocIds(IdPrefix, |documents|)[i])
  {
    seq(|documents|, i requires 0 <= i < |documents| => Record(i, DocIds(IdPrefix, |documents|)[i]))
  }

  /** The store after a run of the script on `documents`. */
  function AfterRun(collections: map<string, Collection>, documents: seq<string>, embed: EmbedOracle)
    : map<string, Collection>
  {
    AfterRebuild(collections, CollectionName, documents, DocIds(IdPrefix, |documents|), Some(Metadatas(documents)), embed)
  }

  /** `main`, on the list of documents it is given (the script gives it
      `Documents`): rebuild the collection, then build the ids and metadata
      and embed and add the batch. */
  method Run(client: Client, documents: seq<string>, embed: EmbedOracle) returns (added: bool)
    modifies client
    ensures added <==> AllEmbed(documents, embed) && documents != []
    ensures client.collections == AfterRun(old(client.collections), documents, embed)
  {
    NumberedBatchStored(IdPrefix, documents, embed);
    var docIds := DocIds(IdPrefix, |documents|);
    var metadata := BuildMetadata(documents, docIds);
    assert metadata == Metadatas(documents);
    added := Rebuild(client, CollectionName, documents, docIds, Some(metadata), embed);
  }

  /** `main` itself: the run on `DOCUMENTS`. */
  method Populate(client: Client, embed: EmbedOracle) returns (added: bool)
    modifies client
    ensures added <==> AllEmbed(Documents, embed)
    ensures client.collections == AfterRun(old(client.collections), Documents, embed)
  {
    added := Run(client, Documents, embed);
  }

  /** After a run the collection holds exactly the documents, the one at
      index `i` under `doc_{i+1}` with its record, or it is empty when an
      embedding call raised; nothing of the earlier contents survives. */
  lemma RunContents(collections: map<string, Collection>, documents: seq<string>, embed: EmbedOracle)
    ensures var c := AfterRun(collections, documents, embed)[CollectionName];
      var ids := DocIds(IdPrefix, |documents|);
      && (!AllEmbed(documents, embed) ==> c == map[])
      && (AllEmbed(documents, embed) ==> (|c| == |documents|
        && (forall k :: k in c <==> k in ids)
        && (forall i :: 0 <= i < |documents| ==>
              c[ids[i]] == Entry(documents[i], embed(documents[i]).value, Some(Record(i, ids[i]))))))
  {
    FreshCollectionContents(documents, DocIds(IdPrefix, |documents|), Some(Metadatas(documents)), embed);
  }

  /** Every stored record's `doc_id` names the id it is stored under. */
  lemma RecordsNameTheirKey(collections: map<string, Collection>, documents: seq<string>, embed: EmbedOracle)
    ensures var c := AfterRun(collections, documents, embed)[CollectionName];
      forall k :: k in c ==> c[k].metadata.Some? && "doc_id" in c[k].metadata.value && c[k].metadata.value["doc_id"] == k
  {
    RunContents(collections, documents, embed);
    KeysNamedByRecords(AfterRun(collections, documents, embed)[CollectionName], DocIds(IdPrefix, |documents|));
  }

  lemma KeysNamedByRecords(c: Collection, ids: seq<string>)
    requires forall k :: k in c ==> k in ids
    requires forall i :: 0 <= i < |ids| && ids[i] in c ==>
      c[ids[i]].metadata == Some(Record(i, ids[i]))
    ensures forall k :: k in c ==> c[k].metadata.Some? && "doc_id" in c[k].metadata.value && c[k].metadata.value["doc_id"] == k
  {
    forall k | k in c ensures c[k].metadata.Some? && "doc_id" in c[k].metadata.value && c[k].metadata.value["doc_id"] == k {
      var i :| 0 <= i < |ids| && ids[i] == k;
    }
  }

  /** A second run leaves the store as the first one left it. */
  lemma RunIdempotent(collections: map<string, Collection>, documents: seq<string>, embed: EmbedOracle)
    ensures AfterRun(AfterRun(collections, documents, embed), documents, embed)
         == AfterRun(collections, documents, embed)
  {
    RebuildForgetsHistory(collections, collections, CollectionName, documents, DocIds(IdPrefix, |documents|),
                          Some(Metadatas(documents)), embed);
  }
}
