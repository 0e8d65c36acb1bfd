/** The retrieval-augmented query pipeline of the deployed server
    (`deployment/api/rag_pipeline.py`, identical in `cleaned/`): the
    customer-service prompt, the decision tree of `query`, the pipeline
    object and its process-wide singleton. */
module CustomerServicePipeline {
  import opened Wrappers
  import opened Embeddings
  import opened VectorStore
  import opened PipelineCore
  import Text

  const DefaultCollectionName := "nexobotics_knowledge_base"
  const DefaultPersistDirectory := "./chromadb_data"
  const EmbeddingModelName := "models/embedding-001"
  const GenerationModelName := "models/gemini-1.5-flash"
  /** `top_k` of `query` and `query_rag`. */
  const DefaultTopK := 3

  const NoInformationResponse := "I don't have specific information about that in my knowledge base. Is there something else I can help with, or would you like me to connect you with a representative?"
  const TechnicalDifficultyResponse := "I'm experiencing a brief technical difficulty retrieving that information. Is there something else I can help you with in the meantime?"
  const UnavailableResponse := "I apologize for the inconvenience, but I'm having trouble accessing our knowledge base right now. Please try again shortly or contact our support team for immediate assistance."

  /** The lines of instructions that open every prompt. */
  const InstructionLines := [
    "You are NOVA, Nexobotics' helpful customer service AI assistant. Your goal is to provide accurate, ",
    "helpful responses to customer inquiries based on the information in our knowledge base.",
    "",
    "Guidelines for your responses:",
    "1. Be warm, friendly, and professional",
    "2. Answer directly and concisely from the provided information",
    "3. If the knowledge base doesn't contain the answer, politely say so and offer to help in other ways",
    "4. Never make up information that isn't in the knowledge base",
    "5. Format your responses clearly, using short paragraphs and bullet points when appropriate",
    "6. Always maintain a helpful, customer-first tone"]
  const QuestionLabel := "CUSTOMER QUESTION: "
  /** Everything of the prompt before the question. */
  const PromptHead := Text.Join(InstructionLines, "\n") + "\n\n" + QuestionLabel
  const KnowledgeHeading := "\n\nRELEVANT INFORMATION FROM KNOWLEDGE BASE:\n"
  const PromptTrailer := "YOUR RESPONSE:"
  const DefaultCategory := "general information"

  /** The dictionary `query` returns. */
  datatype QueryResult = QueryResult(
    response: string, documents: seq<string>, distances: seq<real>, metadatas: seq<Option<Metadata>>)

  function Min(a: nat, b: nat): nat { if a <= b then a else b }

  /** The fixed instructions and the question, before any passage. */
  function Preamble(query: string): string {
    PromptHead + query + KnowledgeHeading
  }

  /** `metadata.get("category", "general information")` */
  function CategoryOf(metadata: Metadata): (category: string)
    ensures "category" in metadata ==> category == metadata["category"]
    ensures "category" !in metadata ==> category == DefaultCategory
  {
    if "category" in metadata then metadata["category"] else DefaultCategory
  }

  /** One retrieved passage with its label. */
  function Block(document: string, metadata: Metadata): string {
    "[" + Text.Upper(CategoryOf(metadata)) + "] " + document + "\n\n"
  }

  /** The first `k` labelled passages of `zip(documents, metadatas)`, or
      `None` when one of their metadata records is absent, on which
      `metadata.get` raises. */
  function Blocks(documents: seq<string>, metadatas: seq<Option<Metadata>>, k: nat)
    : (r: Option<seq<string>>)
    requires k <= |documents| && k <= |metadatas|
    ensures r.Some? <==> forall i :: 0 <= i < k ==> metadatas[i].Some?
    ensures r.Some? ==> (|r.value| == k
      && forall i :: 0 <= i < k ==> r.value[i] == Block(documents[i], metadatas[i].value))
  {
    if k == 0 then Some([])
    else
      var previous := Blocks(documents, metadatas, k - 1);
      if previous.None? || metadatas[k - 1].None? then None
      else Some(previous.value + [Block(documents[k - 1], metadatas[k - 1].value)])
  }

  /** The prompt `_build_customer_service_prompt` returns, or `None` when it
      raises. */
  function Prompt(query: string, documents: seq<string>, metadatas: seq<Option<Metadata>>)
    : (prompt: Option<string>)
    ensures prompt.Some? <==>
      forall i :: 0 <= i < |documents| && i < |metadatas| ==> metadatas[i].Some?
  {
    match Blocks(documents, metadatas, Min(|documents|, |metadatas|))
    case None => None
    case Some(blocks) => Some(Preamble(query) + Text.Concat(blocks) + PromptTrailer)
  }

  /** One more pair of `zip(documents, metadatas)` appends its block. */
  lemma BlocksStep(documents: seq<string>, metadatas: seq<Option<Metadata>>, k: nat)
    requires k < |documents| && k < |metadatas|
    requires Blocks(documents, metadatas, k).Some? && metadatas[k].Some?
    ensures Blocks(documents, metadatas, k + 1).Some?
    ensures Text.Concat(Blocks(documents, metadatas, k + 1).value)
         == Text.Concat(Blocks(documents, metadatas, k).value) + Block(documents[k], metadatas[k].value)
  {
    var done := Blocks(documents, metadatas, k).value;
    var next := Blocks(documents, metadatas, k + 1).value;
    assert next[..k] == done;
  }

  /** `_build_customer_service_prompt`: the preamble, then `prompt +=` one
      block per zipped pair, then the trailer. */
  method BuildPrompt(query: string, documents: seq<string>, metadatas: seq<Option<Metadata>>)
    returns (prompt: Option<string>)
    ensures prompt == Prompt(query, documents, metadatas)
  {
    var text := Preamble(query);
    var n := Min(|documents|, |metadatas|);
    ghost var body: string := [];
    var i := 0;
    while i < n
      invariant 0 <= i <= n
      invariant Blocks(documents, metadatas, i).Some?
      invariant body == Text.Concat(Blocks(documents, metadatas, i).value)
      invariant text == Preamble(query) + body
    {
      var metadata := metadatas[i];
      if metadata.None? {
        return None;
      }
      var block := Block(documents[i], metadata.value);
      BlocksStep(documents, metadatas, i);
      Text.AppendAssociative(Preamble(query), body, block);
      text := text + block;
      body := body + block;
      i := i + 1;
    }
    prompt := Some(text + PromptTrailer);
  }

  /** The prompt holds the fixed instructions and the question first and
      "YOUR RESPONSE:" last; between them the `i`-th passage block is the
      `i`-th document under its upper-cased category, for every pair of
      `zip(documents, metadatas)` and in retrieval order. */
  lemma {:induction false} PromptLayout(query: string, documents: seq<string>,
                                        metadatas: seq<Option<Metadata>>)
    requires forall i :: 0 <= i < |documents| && i < |metadatas| ==> metadatas[i].Some?
    ensures Prompt(query, documents, metadatas).Some?
    ensures var p := Prompt(query, documents, metadatas).value;
      var n := Min(|documents|, |metadatas|);
      var blocks := seq(n, i requires 0 <= i < n => Block(documents[i], metadatas[i].value));
      p == PromptHead + query + KnowledgeHeading + Text.Concat(blocks) + PromptTrailer
  {
    var n := Min(|documents|, |metadatas|);
    var blocks := Blocks(documents, metadatas, n);
    assert blocks.Some?;
    assert blocks.value == seq(n, i requires 0 <= i < n => Block(documents[i], metadatas[i].value));
  }

  /** The answer of `RAGPipeline.query`: the outcome tree over the three
      oracle calls. */
  function QueryOutcome(queryText: string, topK: int, embed: EmbedOracle, search: SearchOracle,
                        generate: GenerateOracle): (r: QueryResult)
    ensures var hits := Retrieve(queryText, topK, embed, search);
      || (r.documents == [] && r.distances == [] && r.metadatas == []
          && (r.response == UnavailableResponse || r.response == NoInformationResponse))
      || (hits.Some? && hits.value.documents != [] && r.documents == hits.value.documents
          && r.distances == hits.value.distances && r.metadatas == hits.value.metadatas)
    ensures Retrieve(queryText, topK, embed, search).None? ==> r.response == UnavailableResponse
  {
    match Retrieve(queryText, topK, embed, search)
    case None => QueryResult(UnavailableResponse, [], [], [])
    case Some(hits) =>
      if |hits.documents| == 0 then QueryResult(NoInformationResponse, [], [], [])
      else match Prompt(OneLine(queryText), hits.documents, hits.metadatas)
        case None => QueryResult(UnavailableResponse, [], [], [])
        case Some(prompt) =>
          QueryResult(generate(prompt).GetOr(TechnicalDifficultyResponse),
                      hits.documents, hits.distances, hits.metadatas)
  }

  /** A failing embedding or search call gives the third fallback with every
      list empty. */
  lemma QueryRetrievalFailure(queryText: string, topK: int, embed: EmbedOracle,
                              search: SearchOracle, generate: GenerateOracle)
    requires embed(queryText).None? || search(embed(queryText).value, topK).None?
    ensures QueryOutcome(queryText, topK, embed, search, generate) == QueryResult(UnavailableResponse, [], [], [])
  {
  }

  /** An empty retrieval gives the "no specific information" answer with
      every list empty, and no generation is asked for. */
  lemma QueryNothingRetrieved(queryText: string, topK: int, embed: EmbedOracle,
                              search: SearchOracle, generate: GenerateOracle)
    requires Retrieve(queryText, topK, embed, search).Some?
    requires Retrieve(queryText, topK, embed, search).value.documents == []
    ensures QueryOutcome(queryText, topK, embed, search, generate) == QueryResult(NoInformationResponse, [], [], [])
  {
  }

  /** With passages retrieved and every metadata record present, the
      generation service is asked the prompt built from the newline-free
      query; its text is the answer, or the technical-difficulty message
      when it raises, and in both cases the retrieved documents, distances
      and metadata come back as they were. */
  lemma QueryAnswered(queryText: string, topK: int, embed: EmbedOracle,
                      search: SearchOracle, generate: GenerateOracle)
    requires Retrieve(queryText, topK, embed, search).Some?
    requires var hits := Retrieve(queryText, topK, embed, search).value;
      hits.documents != [] && Prompt(OneLine(queryText), hits.documents, hits.metadatas).Some?
    ensures var hits := Retrieve(queryText, topK, embed, search).value;
      var prompt := Prompt(OneLine(queryText), hits.documents, hits.metadatas).value;
      var r := QueryOutcome(queryText, topK, embed, search, generate);
      && (generate(prompt).Some? ==> r.response == generate(prompt).value)
      && (generate(prompt).None? ==> r.response == TechnicalDifficultyResponse)
      && r.documents == hits.documents && r.distances == hits.distances && r.metadatas == hits.metadatas
  {
  }

  /** A retrieved passage whose metadata record is absent makes the prompt
      fail, and the query gives the third fallback with every list empty. */
  lemma QueryMissingMetadata(queryText: string, topK: int, embed: EmbedOracle,
                             search: SearchOracle, generate: GenerateOracle, k: nat)
    requires Retrieve(queryText, topK, embed, search).Some?
    requires var hits := Retrieve(queryText, topK, embed, search).value;
      k < |hits.documents| && k < |hits.metadatas| && hits.metadatas[k].None?
    ensures QueryOutcome(queryText, topK, embed, search, generate) == QueryResult(UnavailableResponse, [], [], [])
  {
  }

  /** A metadata record without a "category" key is labelled
      "[GENERAL INFORMATION]". */
  lemma DefaultLabel(document: string, metadata: Metadata)
    requires "category" !in metadata
    ensures Block(document, metadata) == "[GENERAL INFORMATION] " + document + "\n\n"
  {
  }

  /** `persist_directory or "./chromadb_data"` */
  function PersistDirectoryOrDefault(persistDirectory: Option<string>): (dir: string)
    ensures IsSet(persistDirectory) ==> dir == persistDirectory.value
    ensures !IsSet(persistDirectory) ==> dir == DefaultPersistDirectory
  {
    if IsSet(persistDirectory) then persistDirectory.value else DefaultPersistDirectory
  }

  /** The collections after `_init_chroma`: the named one is fetched, or
      created empty when it is missing. */
  function AfterInit(collections: map<string, Collection>, name: string): (after: map<string, Collection>)
    ensures name in after && after[name] == Lookup(collections, name)
    ensures forall other :: other != name ==> (other in after <==> other in collections)
    ensures forall other :: other != name && other in collections ==> after[other] == collections[other]
  {
    if name in collections then collections else collections[name := map[]]
  }

  /** A `RAGPipeline` object. Its ChromaDB collection is the entry
      `collectionName` of `client`. */
  class RAGPipeline {
    const apiKey: string
    const collectionName: string
    const embeddingModel: string
    const generationModel: string
    const persistDirectory: string
    const client: Client

    ghost predicate Valid()
      reads this, client
    {
      collectionName in client.collections
    }

    constructor (apiKey: string, collectionName: string, embeddingModel: string,
                 generationModel: string, persistDirectory: Option<string>, client: Client)
      modifies client
      ensures this.apiKey == apiKey && this.collectionName == collectionName
      ensures this.embeddingModel == embeddingModel && this.generationModel == generationModel
      ensures this.persistDirectory == PersistDirectoryOrDefault(persistDirectory)
      ensures this.client == client
      ensures client.collections == AfterInit(old(client.collections), collectionName)
      ensures Valid()
    {
      this.apiKey := apiKey;
      this.collectionName := collectionName;
      this.embeddingModel := embeddingModel;
      this.generationModel := generationModel;
      this.persistDirectory := PersistDirectoryOrDefault(persistDirectory);
      this.client := client;
      new;
      var found := client.HasCollection(collectionName);
      if !found {
        client.CreateCollection(collectionName);
      }
    }

    /** `query`: embed and search, stop on an empty retrieval, build the
        prompt from the newline-free question, generate. */
    method Query(queryText: string, topK: int, embed: EmbedOracle, search: SearchOracle,
                 generate: GenerateOracle)
      returns (result: QueryResult)
      ensures result == QueryOutcome(queryText, topK, embed, search, generate)
    {
      var hits := Retrieve(queryText, topK, embed, search);
      if hits.None? {
        return QueryResult(UnavailableResponse, [], [], []);
      }
      if |hits.value.documents| == 0 {
        return QueryResult(NoInformationResponse, [], [], []);
      }
      var sanitizedQuery := OneLine(queryText);
      var prompt := BuildPrompt(sanitizedQuery, hits.value.documents, hits.value.metadatas);
      if prompt.None? {
        return QueryResult(UnavailableResponse, [], [], []);
      }
      var answer := generate(prompt.value);
      result := QueryResult(answer.GetOr(TechnicalDifficultyResponse),
                            hits.value.documents, hits.value.distances, hits.value.metadatas);
    }

    /** `add_documents` on this pipeline's collection. */
    method AddDocuments(documents: seq<string>, ids: seq<string>,
                        metadatas: Option<seq<Metadata>>, embed: EmbedOracle)
      returns (outcome: Outcome, sent: seq<string>)
      requires Valid()
      modifies client
      ensures Valid()
      ensures ValidateBatch(documents, ids, metadatas).Some? ==>
        outcome == Failure(ValidateBatch(documents, ids, metadatas).value) && sent == []
        && client.collections == old(client.collections)
      ensures ValidateBatch(documents, ids, metadatas).None? ==>
        && (!AllEmbed(documents, embed) ==>
              outcome == Failure(EmbeddingCallRaised) && client.collections == old(client.collections))
        && (AllEmbed(documents, embed) && !AcceptedIds(ids) ==>
              outcome == Failure(AddCallRaised) && sent == documents
              && client.collections == old(client.collections))
        && (Stores(documents, ids, embed) ==>
              outcome == Success && sent == documents
              && client.collections == old(client.collections)[collectionName :=
                   AddBatch(old(client.collections)[collectionName], ids,
                            Entries(documents, EmbedAll(documents, embed).value, metadatas))])
    {
      outcome, sent := PipelineCore.AddDocuments(client, collectionName, documents, ids, metadatas, embed);
    }
  }

  /** The module-level `_rag_pipeline_instance` and `get_rag_pipeline`. */
  class Registry {
    var instance: RAGPipeline?

    constructor ()
      ensures instance == null
    {
      instance := null;
    }

    /** The first successful call builds the pipeline from the environment
      (`GOOGLE_API_KEY`, `CHROMA_PERSIST_DIR`); every later call returns
      that same object and touches nothing. */
    method GetRagPipeline(apiKeyEnv: Option<string>, persistDirEnv: Option<string>, client: Client)
      returns (r: Result<RAGPipeline>)
      modifies this, client
      ensures old(instance) != null ==>
        r.Ok? && r.value == old(instance) && instance == old(instance)
        && client.collections == old(client.collections)
      ensures old(instance) == null && !IsSet(apiKeyEnv) ==>
        r.Err? && instance == null && client.collections == old(client.collections)
      ensures old(instance) == null && IsSet(apiKeyEnv) ==>
        r.Ok? && fresh(r.value) && instance == r.value
        && r.value.apiKey == apiKeyEnv.value
        && r.value.collectionName == DefaultCollectionName
        && r.value.embeddingModel == EmbeddingModelName
        && r.value.generationModel == GenerationModelName
        && r.value.persistDirectory == PersistDirectoryOrDefault(Some(persistDirEnv.GetOr(DefaultPersistDirectory)))
        && r.value.client == client
        && client.collections == AfterInit(old(client.collections), DefaultCollectionName)
    {
      if instance == null {
        if !IsSet(apiKeyEnv) {
          return Err("GOOGLE_API_KEY environment variable is not set");
        }
        var persistDir := persistDirEnv.GetOr(DefaultPersistDirectory);
        instance := new RAGPipeline(apiKeyEnv.value, DefaultCollectionName, EmbeddingModelName,
                                    GenerationModelName, Some(persistDir), client);
      }
      r := Ok(instance);
    }
  }

  /** `query_rag(query_text)`: fetch the singleton, then query it; `None`
      when fetching the pipeline raises. */
  method QueryRag(registry: Registry, apiKeyEnv: Option<string>, persistDirEnv: Option<string>,
                  client: Client, queryText: string, embed: EmbedOracle, search: SearchOracle,
                  generate: GenerateOracle)
    returns (r: Option<QueryResult>)
    modifies registry, client
    ensures old(registry.instance) == null && !IsSet(apiKeyEnv) ==> r.None?
    ensures old(registry.instance) != null || IsSet(apiKeyEnv) ==>
      r == Some(QueryOutcome(queryText, DefaultTopK, embed, search, generate))
    ensures old(registry.instance) != null ==>
      registry.instance == old(registry.instance) && client.collections == old(client.collections)
    ensures old(registry.instance) == null && !IsSet(apiKeyEnv) ==>
      registry.instance == null && client.collections == old(client.collections)
    ensures old(registry.instance) == null && IsSet(apiKeyEnv) ==>
      registry.instance != null && fresh(registry.instance)
      && client.collections == AfterInit(old(client.collections), DefaultCollectionName)
  {
    var pipeline := registry.GetRagPipeline(apiKeyEnv, persistDirEnv, client);
    if pipeline.Err? {
      return None;
    }
    var result := pipeline.value.Query(queryText, DefaultTopK, embed, search, generate);
    r := Some(result);
  }
}
