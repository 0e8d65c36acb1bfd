/** The older retrieval-augmented pipeline of `api/rag_pipeline.py`: a
    collection seeded with three sample documents when it has to be
    created, a query whose prompt numbers the passages `PASSAGE 1:`,
    `PASSAGE 2:`, ..., and a singleton bound to the best-practices
    collection. */
module LegacyPipeline {
  import opened Wrappers
  import opened Embeddings
  import opened VectorStore
  import opened PipelineCore
  import Text

  const DefaultCollectionName := "knowledge_base"
  /** The collection and directory `get_rag_pipeline` always uses. */
  const SingletonCollectionName := "customer_service_best_practices"
  const SingletonPersistDirectory := "./chromadb_data"
  const EmbeddingModelName := "models/embedding-001"
  const GenerationModelName := "models/gemini-1.5-flash"
  /** `top_k` of `query` and `query_rag`. */
  const DefaultTopK := 5

  const NoInformationResponse := "I don't have specific information about that in my knowledge base. Would you like me to connect you with a customer service representative who can help?"
  const GenerationFailedResponse := "I apologize, but I'm having trouble accessing that information right now. Is there something else I can help you with?"
  const TechnicalDifficultyResponse := "I'm having technical difficulties at the moment. Please try again in a moment or reach out to our support team if this persists."

  /** The lines of instructions that open every prompt. */
  const InstructionLines := [
    "You are NOVA, a helpful customer service assistant for Nexobotics. Answer the user's question based on the information provided in the passages below.",
    "",
    "If the information needed isn't in the passages, politely explain that you don't have that specific detail ",
    "and suggest how the user could get help (e.g., 'For more details, please contact our support team').",
    "",
    "Your responses should be:",
    "- Friendly and conversational",
    "- Clear and concise",
    "- Helpful and solution-oriented",
    "- Professional but approachable"]
  const QuestionLabel := "QUESTION: "
  /** Everything of the prompt before the question. */
  const PromptHead := Text.Join(InstructionLines, "\n") + "\n\n" + QuestionLabel

  /** `_init_with_sample_data`: its documents, ids and metadata. */
  const SampleDocuments := [
    "Nexobotics helps businesses improve customer service with AI.",
    "Customer satisfaction is critical for business success.",
    "AI chatbots can handle routine customer inquiries efficiently."]
  const SampleSource: Metadata := map["source" := "initial_data"]

  /** `[f"sample_{i}" for i in range(len(sample_docs))]` */
  function SampleIds(): (ids: seq<string>)
    ensures |ids| == |SampleDocuments| && Text.Distinct(ids)
    ensures forall i :: 0 <= i < |ids| ==> ids[i] == "sample_" + Text.NatToString(i)
  {
    Text.NumberedIdsDistinct("sample_", 0, |SampleDocuments|);
    Text.NumberedIds("sample_", 0, |SampleDocuments|)
  }

  /** `[{"source": "initial_data"} for _ in range(len(sample_docs))]` */
  function SampleMetadata(): (records: seq<Metadata>)
    ensures |records| == |SampleDocuments|
    ensures forall i :: 0 <= i < |records| ==> records[i] == SampleSource
  {
    seq(|SampleDocuments|, _ => SampleSource)
  }

  /** The dictionary `query` returns; this version has no metadata list. */
  datatype QueryResult = QueryResult(response: string, documents: seq<string>, distances: seq<real>)

  /** `f"PASSAGE {i+1}: {passage_oneline}\n"` for the passage at index `i`. */
  function Passage(i: nat, passage: string): string {
    "PASSAGE " + Text.NatToString(i + 1) + ": " + OneLine(passage) + "\n"
  }

  /** The passage lines of `enumerate(retrieved_documents)`, in order. */
  function Passages(documents: seq<string>): (lines: seq<string>)
    ensures |lines| == |documents|
    ensures forall i :: 0 <= i < |documents| ==> lines[i] == Passage(i, documents[i])
  {
    seq(|documents|, i requires 0 <= i < |documents| => Passage(i, documents[i]))
  }

  /** The prompt of `query` for a question already on one line: the lines
      of the preamble, one line for the question and then exactly one line
      per retrieved document. */
  function Prompt(queryOneLine: string, documents: seq<string>): (prompt: string)
    ensures '\n' !in queryOneLine ==> Newlines(prompt) == Newlines(PromptHead) + 1 + |documents|
  {
    var head := PromptHead + queryOneLine + "\n";
    PassagesLineCount(documents);
    NewlinesAppend(head, Text.Concat(Passages(documents)));
    NewlinesAppend(PromptHead + queryOneLine, "\n");
    NewlinesAppend(PromptHead, queryOneLine);
    assert Newlines("\n") == 1;
    assert '\n' !in queryOneLine ==> Newlines(queryOneLine) == 0 by {
      if '\n' !in queryOneLine {
        NewlinesNone(queryOneLine);
      }
    }
    head + Text.Concat(Passages(documents))
  }

  /** The number of newline characters in a text. */
  function Newlines(s: string): nat {
    if s == [] then 0 else Newlines(s[..|s| - 1]) + (if s[|s| - 1] == '\n' then 1 else 0)
  }

  lemma {:induction false} NewlinesAppend(a: string, b: string)
    ensures Newlines(a + b) == Newlines(a) + Newlines(b)
    decreases |b|
  {
    if b == [] {
      assert a + b == a;
    } else {
      var init := b[..|b| - 1];
      assert (a + b)[..|a + b| - 1] == a + init;
      NewlinesAppend(a, init);
    }
  }

  lemma {:induction false} NewlinesNone(s: string)
    requires '\n' !in s
    ensures Newlines(s) == 0
    decreases |s|
  {
    if s != [] {
      NewlinesNone(s[..|s| - 1]);
    }
  }

  /** A passage takes exactly one line: its only newline is the last
      character, whatever newlines the retrieved text held. */
  lemma PassageIsOneLine(i: nat, passage: string)
    ensures var line := Passage(i, passage);
      |line| > 0 && line[|line| - 1] == '\n' && Newlines(line) == 1
  {
    var number := Text.NatToString(i + 1);
    assert forall k :: 0 <= k < |number| ==> number[k] != '\n';
    NewlinesNone("PASSAGE ");
    NewlinesNone(number);
    NewlinesNone(": ");
    NewlinesNone(OneLine(passage));
    assert Newlines("\n") == 1;
    NewlinesAppend("PASSAGE ", number);
    NewlinesAppend("PASSAGE " + number, ": ");
    NewlinesAppend("PASSAGE " + number + ": ", OneLine(passage));
    NewlinesAppend("PASSAGE " + number + ": " + OneLine(passage), "\n");
  }

  /** The passage part of the prompt holds one line per retrieved document. */
  lemma {:induction false} PassagesLineCount(documents: seq<string>)
    ensures Newlines(Text.Concat(Passages(documents))) == |documents|
    decreases |documents|
  {
    if documents != [] {
      var n := |documents| - 1;
      var lines := Passages(documents);
      assert lines[..n] == Passages(documents[..n]);
      PassagesLineCount(documents[..n]);
      PassageIsOneLine(n, documents[n]);
      NewlinesAppend(Text.Concat(lines[..n]), lines[n]);
    }
  }

  /** One more passage appends its line. */
  lemma PassagesStep(documents: seq<string>, k: nat)
    requires k < |documents|
    ensures Text.Concat(Passages(documents[..k + 1]))
         == Text.Concat(Passages(documents[..k])) + Passage(k, documents[k])
  {
    var next := Passages(documents[..k + 1]);
    assert next[..k] == Passages(documents[..k]);
  }

  /** The prompt assembly inside `query`: the preamble with the question,
      then `prompt +=` one passage line per retrieved document. */
  method BuildPrompt(queryText: string, documents: seq<string>) returns (prompt: string)
    ensures prompt == Prompt(OneLine(queryText), documents)
  {
    var queryOneLine := OneLine(queryText);
    prompt := PromptHead + queryOneLine + "\n";
    ghost var head := prompt;
    ghost var body: string := [];
    for i := 0 to |documents|
      invariant body == Text.Concat(Passages(documents[..i]))
      invariant prompt == head + body
    {
      var passageOneLine := OneLine(documents[i]);
      var line := "PASSAGE " + Text.NatToString(i + 1) + ": " + passageOneLine + "\n";
      PassagesStep(documents, i);
      Text.AppendAssociative(head, body, line);
      prompt := prompt + line;
      body := body + line;
    }
    assert documents[..|documents|] == documents;
  }

  /** The answer of `RAGPipeline.query`. Building this prompt cannot fail;
      an exception can only come from the embedding or search call. */
  function QueryOutcome(queryText: string, topK: int, embed: EmbedOracle, search: SearchOracle,
                        generate: GenerateOracle): (r: QueryResult)
    ensures var hits := Retrieve(queryText, topK, embed, search);
      || (r.documents == [] && r.distances == []
          && (r.response == TechnicalDifficultyResponse || r.response == NoInformationResponse))
      || (hits.Some? && hits.value.documents != [] && r.documents == hits.value.documents
          && r.distances == hits.value.distances)
    ensures Retrieve(queryText, topK, embed, search).None? ==> r.response == TechnicalDifficultyResponse
  {
    match Retrieve(queryText, topK, embed, search)
    case None => QueryResult(TechnicalDifficultyResponse, [], [])
    case Some(hits) =>
      if |hits.documents| == 0 then QueryResult(NoInformationResponse, [], [])
      else
        var prompt := Prompt(OneLine(queryText), hits.documents);
        QueryResult(generate(prompt).GetOr(GenerationFailedResponse), hits.documents, hits.distances)
  }

  /** A failing embedding or search call gives the technical-difficulties
      answer with both lists empty. */
  lemma QueryRetrievalFailure(queryText: string, topK: int, embed: EmbedOracle,
                              search: SearchOracle, generate: GenerateOracle)
    requires Retrieve(queryText, topK, embed, search).None?
    ensures QueryOutcome(queryText, topK, embed, search, generate)
         == QueryResult(TechnicalDifficultyResponse, [], [])
  {
  }

  /** An empty retrieval offers a representative, with both lists empty. */
  lemma QueryNothingRetrieved(queryText: string, topK: int, embed: EmbedOracle,
                              search: SearchOracle, generate: GenerateOracle)
    requires Retrieve(queryText, topK, embed, search).Some?
    requires Retrieve(queryText, topK, embed, search).value.documents == []
    ensures QueryOutcome(queryText, topK, embed, search, generate)
         == QueryResult(NoInformationResponse, [], [])
  {
  }

  /** With passages retrieved, the answer is the generated text, or the
      apology when generation raises; documents and distances are kept. */
  lemma QueryAnswered(queryText: string, topK: int, embed: EmbedOracle,
                      search: SearchOracle, generate: GenerateOracle)
    requires Retrieve(queryText, topK, embed, search).Some?
    requires Retrieve(queryText, topK, embed, search).value.documents != []
    ensures var hits := Retrieve(queryText, topK, embed, search).value;
      var prompt := Prompt(OneLine(queryText), hits.documents);
      var r := QueryOutcome(queryText, topK, embed, search, generate);
      && (generate(prompt).Some? ==> r.response == generate(prompt).value)
      && (generate(prompt).None? ==> r.response == GenerationFailedResponse)
      && r.documents == hits.documents && r.distances == hits.distances
  {
  }

  /** What `_init_with_sample_data` leaves in the newly created
      collection; an embedding error is only printed. */
  function SampleCollection(embed: EmbedOracle): Collection {
    FreshCollection(SampleDocuments, SampleIds(), Some(SampleMetadata()), embed)
  }

  /** The seeded collection holds the three sample documents under
      "sample_0", "sample_1" and "sample_2", each with source
      "initial_data", or nothing when an embedding call raises. */
  lemma SampleCollectionContents(embed: EmbedOracle)
    ensures var c := SampleCollection(embed);
      && (!AllEmbed(SampleDocuments, embed) ==> c == map[])
      && (AllEmbed(SampleDocuments, embed) ==> (|c| == |SampleDocuments|
        && (forall k :: k in c <==> k in SampleIds())
        && forall i :: 0 <= i < |SampleDocuments| ==>
             c[SampleIds()[i]] == Entry(SampleDocuments[i], embed(SampleDocuments[i]).value, Some(SampleSource))))
  {
    FreshCollectionContents(SampleDocuments, SampleIds(), Some(SampleMetadata()), embed);
  }

  /** The collections after `_init_chroma`: an existing collection is used
      as it is; a missing one is created and seeded. */
  function AfterInit(collections: map<string, Collection>, name: string, embed: EmbedOracle)
    : (after: map<string, Collection>)
    ensures name in collections ==> after == collections
    ensures name !in collections ==> after == collections[name := SampleCollection(embed)]
  {
    if name in collections then collections else collections[name := SampleCollection(embed)]
  }

  /** Running the initialisation twice is the same as running it once: the
      second run finds the collection and leaves it alone. */
  lemma AfterInitIdempotent(collections: map<string, Collection>, name: string, embed: EmbedOracle)
    ensures AfterInit(AfterInit(collections, name, embed), name, embed) == AfterInit(collections, name, embed)
  {
  }

  /** `_init_with_sample_data` on the newly created, empty collection. */
  method InitWithSampleData(client: Client, name: string, embed: EmbedOracle)
    requires name in client.collections && client.collections[name] == map[]
    modifies client
    ensures client.collections == old(client.collections)[name := SampleCollection(embed)]
  {
    var sampleIds := SampleIds();
    var sampleMetadata := SampleMetadata();
    var indexed := FillEmpty(client, name, SampleDocuments, sampleIds, Some(sampleMetadata), embed);
  }

  /** `_init_chroma`: get the collection, or create it and seed it. */
  method InitChroma(client: Client, name: string, embed: EmbedOracle)
    modifies client
    ensures client.collections == AfterInit(old(client.collections), name, embed)
  {
    var found := client.HasCollection(name);
    if !found {
      client.CreateCollection(name);
      InitWithSampleData(client, name, embed);
    }
  }

  /** A `RAGPipeline` object of this version. */
  class RAGPipeline {
    const apiKey: string
    const collectionName: string
    const embeddingModel: string
    const generationModel: string
    /** Kept as given: a set directory selects a persistent client, an
        unset one an in-memory client; both are `client` here. */
    const persistDirectory: Option<string>
    const client: Client

    ghost predicate Valid()
      reads this, client
    {
      collectionName in client.collections
    }

    constructor (apiKey: string, collectionName: string, embeddingModel: string,
                 generationModel: string, persistDirectory: Option<string>, client: Client,
                 embed: EmbedOracle)
      modifies client
      ensures this.apiKey == apiKey && this.collectionName == collectionName
      ensures this.embeddingModel == embeddingModel && this.generationModel == generationModel
      ensures this.persistDirectory == persistDirectory && this.client == client
      ensures client.collections == AfterInit(old(client.collections), collectionName, embed)
      ensures Valid()
    {
      this.apiKey := apiKey;
      this.collectionName := collectionName;
      this.embeddingModel := embeddingModel;
      this.generationModel := generationModel;
      this.persistDirectory := persistDirectory;
      this.client := client;
      new;
      InitChroma(client, collectionName, embed);
    }

    /** `query`: embed and search, stop on an empty retrieval, number the
        passages into the prompt, generate. */
    method Query(queryText: string, topK: int, embed: EmbedOracle, search: SearchOracle,
                 generate: GenerateOracle)
      returns (result: QueryResult)
      ensures result == QueryOutcome(queryText, topK, embed, search, generate)
    {
      var hits := Retrieve(queryText, topK, embed, search);
      if hits.None? {
        return QueryResult(TechnicalDifficultyResponse, [], []);
      }
      if |hits.value.documents| == 0 {
        return QueryResult(NoInformationResponse, [], []);
      }
      var prompt := BuildPrompt(queryText, hits.value.documents);
      var answer := generate(prompt);
      result := QueryResult(answer.GetOr(GenerationFailedResponse), hits.value.documents, hits.value.distances);
    }

    /** `add_documents` on this pipeline's collection. */
    method AddDocuments(documents: seq<string>, ids: seq<string>,
                        metadatas: Option<seq<Metadata>>, embed: EmbedOracle)
      returns (outcome: Outcome, sent: seq<string>)
      requires Valid()
      modifies client
      ensures Valid()
      ensures ValidateBatch(documents, ids, metadatas).Some? ==>
        outcome == Failure(ValidateBatch(documents, ids, metadatas).value) && sent == []
        && client.collections == old(client.collections)
      ensures ValidateBatch(documents, ids, metadatas).None? ==>
        && (!AllEmbed(documents, embed) ==>
              outcome == Failure(EmbeddingCallRaised) && client.collections == old(client.collections))
        && (AllEmbed(documents, embed) && !AcceptedIds(ids) ==>
              outcome == Failure(AddCallRaised) && sent == documents
              && client.collections == old(client.collections))
        && (Stores(documents, ids, embed) ==>
              outcome == Success && sent == documents
              && client.collections == old(client.collections)[collectionName :=
                   AddBatch(old(client.collections)[collectionName], ids,
                            Entries(documents, EmbedAll(documents, embed).value, metadatas))])
    {
      outcome, sent := PipelineCore.AddDocuments(client, collectionName, documents, ids, metadatas, embed);
    }
  }

  /** The module-level `_rag_pipeline_instance` and `get_rag_pipeline`. */
  class Registry {
    var instance: RAGPipeline?

    constructor ()
      ensures instance == null
    {
      instance := null;
    }

    /** The first successful call builds the pipeline on the best-practices
        collection in "./chromadb_data", whatever `persistDirectory` says;
        every later call returns that same object and touches nothing. */
    method GetRagPipeline(persistDirectory: Option<string>, apiKeyEnv: Option<string>,
                          client: Client, embed: EmbedOracle)
      returns (r: Result<RAGPipeline>)
      modifies this, client
      ensures old(instance) != null ==>
        r.Ok? && r.value == old(instance) && instance == old(instance)
        && client.collections == old(client.collections)
      ensures old(instance) == null && !IsSet(apiKeyEnv) ==>
        r.Err? && instance == null && client.collections == old(client.collections)
      ensures old(instance) == null && IsSet(apiKeyEnv) ==>
        r.Ok? && fresh(r.value) && instance == r.value
        && r.value.apiKey == apiKeyEnv.value
        && r.value.collectionName == SingletonCollectionName
        && r.value.persistDirectory == Some(SingletonPersistDirectory)
        && r.value.embeddingModel == EmbeddingModelName
        && r.value.generationModel == GenerationModelName
        && r.value.client == client
        && client.collections == AfterInit(old(client.collections), SingletonCollectionName, embed)
    {
      if instance == null {
        if !IsSet(apiKeyEnv) {
          return Err("GOOGLE_API_KEY environment variable is not set");
        }
        instance := new RAGPipeline(apiKeyEnv.value, SingletonCollectionName, EmbeddingModelName,
                                    GenerationModelName, Some(SingletonPersistDirectory), client, embed);
      }
      r := Ok(instance);
    }
  }

  /** `query_rag(query_text)`: fetch the singleton, then query it; `None`
      when fetching the pipeline raises. */
  method QueryRag(registry: Registry, apiKeyEnv: Option<string>, client: Client,
                  queryText: string, embed: EmbedOracle, search: SearchOracle,
                  generate: GenerateOracle)
    returns (r: Option<QueryResult>)
    modifies registry, client
    ensures old(registry.instance) == null && !IsSet(apiKeyEnv) ==> r.None?
    ensures old(registry.instance) != null || IsSet(apiKeyEnv) ==>
      r == Some(QueryOutcome(queryText, DefaultTopK, embed, search, generate))
    ensures old(registry.instance) != null ==>
      registry.instance == old(registry.instance) && client.collections == old(client.collections)
    ensures old(registry.instance) == null && !IsSet(apiKeyEnv) ==>
      registry.instance == null && client.collections == old(client.collections)
    ensures old(registry.instance) == null && IsSet(apiKeyEnv) ==>
      registry.instance != null && fresh(registry.instance)
      && client.collections == AfterInit(old(client.collections), SingletonCollectionName, embed)
  {
    var pipeline := registry.GetRagPipeline(None, apiKeyEnv, client, embed);
    if pipeline.Err? {
      return None;
    }
    var result := pipeline.value.Query(queryText, DefaultTopK, embed, search, generate);
    r := Some(result);
  }
}
