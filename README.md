# Nexobotics customer-service chatbot: a Dafny model

This project models what the Nexobotics chatbot decides for itself, as
opposed to what it hands to remote services:

- **Chat histories.** The two Flask chat servers keep one message history
  per session. The deployed server (`deployment/api/index.py`) starts a
  history with its system prompt, appends the user turn, an optional debug
  message with the retrieved documents and the assistant turn, and keeps
  only the last twenty messages; `clear_session` resets a history. The older
  server (`api/index.py`) starts with its `CONTEXT` message and never cuts.
- **The retrieval-augmented pipeline** (`rag_pipeline.py`, in a deployed
  copy, a byte-identical `cleaned/` copy, and an older version). This
  covers:
  - the length checks of `add_documents`, which come before any embedding;
  - the embed-every-document loop;
  - the outcome tree of `query`;
  - the two prompt templates (`[CATEGORY] doc` blocks, and numbered
    `PASSAGE i:` lines);
  - seeding of sample data in the older version;
  - the process-wide `get_rag_pipeline` singleton.
- **The ingestion scripts** (`*_add_docs.py`):
  - numbered ids;
  - metadata records, with categories chosen by position;
  - a rebuild that drops and recreates the collection, or, in the direct
    script, a get-or-create;
  - no `add` at all once an embedding call fails.
- **The knowledge list** (`api/knowledge_base.py`), a module-level list
  changed in place. **The directory loader** (`api/load_knowledge.py`),
  which reads `*.txt` files into three parallel lists of documents, ids and
  metadata and skips unreadable or blank files.

The remote services are parameters:

- the embedding call is an `EmbedOracle`, `string -> Option<Embedding>`;
- the generation call is a `GenerateOracle`, `string -> Option<string>`;
- the similarity search is a `SearchOracle`.

In each, `None` stands for a call that raises. A ChromaDB collection is a
map from id to entry. `add` raises, storing nothing, when the id list is
empty or names an id twice (ChromaDB's empty-id check and its
`DuplicateIDError`). Otherwise it stores the batch, and an id that is
already present keeps its entry. A `Client` object holds the
collections by name and is changed in place. Environment variables, the
request fields and what `query_rag` returned to a server are also passed in
as parameters.

Modules follow the program:

| module | models |
|---|---|
| `Wrappers` | `Option`, `Result`, and `Outcome`, meaning success or a raised error message |
| `Text` | ASCII `strip`, `replace`, `upper`, `lower`, `title`, `join` and its inverse `split`, and decimal formatting |
| `Embeddings` | the embedding oracle and the append loop around it |
| `VectorStore` | ChromaDB collections and the client |
| `PipelineCore` | what both `rag_pipeline.py` versions share: validation, embed-then-add, the query sanitiser, retrieval |
| `CustomerServicePipeline` | `deployment/api/rag_pipeline.py` (= `cleaned/rag_pipeline.py`) |
| `LegacyPipeline` | `api/rag_pipeline.py` |
| `Ingestion` | what the scripts share: numbered ids, one record for every document, and the two ways they open a collection (rebuild, or get-or-create) |
| `KnowledgeRebuild` | `deployment/api/persistent_add_docs.py` |
| `BestPracticesRebuild` | `api/persistent_add_docs.py` |
| `DirectAdd` | `api/direct_add_docs.py` |
| `ChatMessages` | the message records and the retrieved-context message |
| `SessionStore` | `deployment/api/index.py` |
| `LegacySessionStore` | `api/index.py` |
| `KnowledgeBase` | `api/knowledge_base.py` |
| `KnowledgeLoader` | `api/load_knowledge.py` |

Where the code and its design description disagree, the model follows the
code:

- Neither server passes the chat history to generation. `query_rag`
  receives only the current message, so a history is written but never
  read back. The model shows this: a server's reply depends on that one
  `query_rag` result and on nothing stored.
- The deployed server's cut to twenty messages also drops the system
  prompt once a history grows long (`SessionStore.TruncationDropsSystemPrompt`).
- The older `get_rag_pipeline` accepts a `persist_directory` argument and
  ignores it. It always opens `./chromadb_data` and the best-practices
  collection, so the class's default collection `knowledge_base` is never
  the one the server uses, and sample data is seeded only into a missing
  best-practices collection.

## Model

`cleaned/rag_pipeline.py` is line for line the same as
`deployment/api/rag_pipeline.py`, so every row citing the latter holds for
the former at the same lines.

| member | source | states |
|---|---|---|
| Text.Upper | deployment/api/rag_pipeline.py:220-221 | `category.upper()`: same length, each ASCII lower-case letter raised, every other character kept |
| Text.Lower | deployment/api/index.py:134 | `.lower()`: same length, each ASCII capital lowered, every other character kept |
| Text.ReplaceChar | api/load_knowledge.py:68 | `stem.replace('_', ' ')`: same length, each occurrence replaced, every other character kept |
| Text.Title | api/load_knowledge.py:68 | `str.title()`: a letter is upper-cased when no letter precedes it and lower-cased after a letter; other characters unchanged |
| Text.TrimStartShape | api/load_knowledge.py:57 | the leading half of `strip()` keeps a suffix of the input, only whitespace removed, not starting with whitespace |
| Text.TrimEndShape | api/load_knowledge.py:57 | the trailing half of `strip()` keeps a prefix of the input, only whitespace removed, not ending with whitespace |
| Text.Strip | api/knowledge_base.py:78 | `strip()` is never longer than its input and neither starts nor ends with whitespace |
| Text.StripIsTrimmedSlice | api/knowledge_base.py:78 | `strip()` yields a slice of the input with only whitespace cut at each end, neither starting nor ending with whitespace |
| Text.StripIdempotent | api/knowledge_base.py:78 | stripping stripped text changes nothing |
| Text.StripEmptyIffBlank | api/load_knowledge.py:57-61 | a text strips to the empty string exactly when it is all whitespace |
| Text.NatToStringRoundTrip | deployment/api/persistent_add_docs.py:90 | the decimal digits written by `f"{n}"` denote `n` again |
| Text.NatToStringInjective | deployment/api/persistent_add_docs.py:90 | different numbers are written differently |
| Text.NatToString | deployment/api/persistent_add_docs.py:90 | `f"{n}"`: at least one character, all decimal digits |
| Text.NumberedIds | api/persistent_add_docs.py:64 | `[f"{prefix}{i+start}" ...]`: `count` ids, the `i`-th being the prefix and `i + start` |
| Text.NumberedIdsDistinct | api/direct_add_docs.py:65 | numbered ids are pairwise distinct |
| Text.DigitRunUnique | api/load_knowledge.py:64 | a run of digits followed by a non-digit separator is read back uniquely |
| Text.Join | api/index.py:97 | `sep.join(parts)`: empty for no parts, the part itself for one, otherwise the join of all but the last, the separator, and the last part; `Text.SplitJoin` proves what it means |
| Text.SplitJoin | deployment/api/index.py:135 | splitting `"\n".join(parts)` at its newlines gives back exactly the parts, in order, when no part holds a newline |
| Text.Concat | deployment/api/rag_pipeline.py:219-223 | the `prompt +=` accumulation: the pieces one after another, in order; `Text.ConcatJoined` proves it splits over list concatenation |
| Text.ConcatJoined | deployment/api/rag_pipeline.py:219-221 | concatenating two lists of pieces is concatenating their concatenations |
| ChatMessages.RetrievedContext | api/index.py:95-101 | the context message starts with the heading "\n---\nRetrieved knowledge:\n", and the rest is the documents joined with "\n" |
| ChatMessages.RetrievedDocuments | deployment/api/index.py:133-139 | the documents can be read back: after the heading, splitting at the newlines gives each retrieved document in order, exactly when none of them has a newline of its own |
| Embeddings.EmbedAll | deployment/api/rag_pipeline.py:91-98 | every document's embedding, in document order, exactly when every call succeeds; `None` otherwise |
| Embeddings.EmbedDocuments | deployment/api/persistent_add_docs.py:115-125 | the append loop yields `EmbedAll`; the texts sent are a prefix of the documents, stopping at the first failing call, or all of them on success |
| VectorStore.Entries | deployment/api/rag_pipeline.py:101-106 | one entry per document, each with its document, its embedding and its metadata record (none when no list is passed) |
| VectorStore.AddBatch | deployment/api/rag_pipeline.py:101-106 | the storing step of an accepted `collection.add` (distinct ids): keys are the old keys plus the ids; old entries unchanged; every new id holds its own entry |
| VectorStore.AddBatchExisting | api/direct_add_docs.py:87-92 | adding ids that are all present changes nothing |
| VectorStore.AddBatchIdempotent | api/direct_add_docs.py:87-92 | repeating an `add` changes nothing |
| VectorStore.AddBatchFresh | deployment/api/persistent_add_docs.py:129-134 | into an empty collection, distinct ids give exactly one entry per id, holding its own entry |
| VectorStore.DistinctCardinality | deployment/api/persistent_add_docs.py:90 | distinct ids make a set as large as the list |
| VectorStore.Client.constructor | deployment/api/persistent_add_docs.py:73 | a client opened on a store sees that store's collections |
| VectorStore.Client.HasCollection | deployment/api/persistent_add_docs.py:76-77 | `get_collection` succeeds exactly when the collection exists |
| VectorStore.Client.CreateCollection | deployment/api/persistent_add_docs.py:86 | a new, empty collection under the name; nothing else changes |
| VectorStore.Client.DeleteCollection | deployment/api/persistent_add_docs.py:82 | the named collection is gone; nothing else changes |
| VectorStore.Client.Add | deployment/api/persistent_add_docs.py:129-134 | `collection.add` raises and changes nothing exactly when the id list is empty or repeats an id; otherwise only the named collection changes, to `AddBatch` of it |
| PipelineCore.OneLine | deployment/api/rag_pipeline.py:155 | `replace("\n", " ")`: same length, no newline, every newline now a space and every other character kept; the same code in the older version at api/rag_pipeline.py:180, for the query and each passage |
| PipelineCore.ValidateBatch | deployment/api/rag_pipeline.py:84-88 | no error exactly when the ids match the documents in number and the metadata is absent, empty or of the same length; the ids message comes first; the same code in the older version at api/rag_pipeline.py:111-115 |
| PipelineCore.AddDocuments | deployment/api/rag_pipeline.py:73-111 | a length error is raised before any embedding call and changes nothing; a failing embedding call raises and adds nothing; an id list that `add` refuses (empty, or an id twice) raises after every document was embedded and adds nothing; otherwise the whole batch is added with one embedding per document in order; the same code in the older version at api/rag_pipeline.py:100-138 |
| PipelineCore.EmbedAndAdd | api/direct_add_docs.py:73-92 | embed every document in order; the batch is stored exactly when every call succeeds and `add` accepts the ids, and otherwise nothing changes; which of the two failed is reported |
| PipelineCore.FreshCollectionContents | api/persistent_add_docs.py:86-91 | a batch with distinct ids written into an empty collection leaves exactly that batch, or an empty collection when an embedding failed |
| PipelineCore.FillEmpty | api/rag_pipeline.py:65-98 | embed-then-add on an empty collection leaves `FreshCollection`, and reports whether the batch was stored |
| PipelineCore.CreateAndFill | deployment/api/persistent_add_docs.py:85-87 | create, then embed-then-add: the new collection holds `FreshCollection`; others unchanged; the batch is reported stored exactly when it was |
| PipelineCore.Retrieve | deployment/api/rag_pipeline.py:125-143 | the query is embedded, then searched with `n_results=top_k`; no result when either call raises; the same code in the older version at api/rag_pipeline.py:152-168 |
| CustomerServicePipeline.CategoryOf | deployment/api/rag_pipeline.py:220 | the record's "category" value, or "general information" when the key is missing |
| CustomerServicePipeline.Block | deployment/api/rag_pipeline.py:219-221 | one passage: `[CATEGORY]` upper-cased, a space, the document and a blank line; `DefaultLabel` and `PromptLayout` state its use |
| CustomerServicePipeline.Blocks | deployment/api/rag_pipeline.py:219-221 | the first `k` labelled blocks, one per pair and in order; `None` (raises) exactly when one of their metadata records is absent |
| CustomerServicePipeline.BlocksStep | deployment/api/rag_pipeline.py:219-221 | one more zipped pair appends exactly its block |
| CustomerServicePipeline.Prompt | deployment/api/rag_pipeline.py:190-224 | the prompt is built exactly when every record of `zip(documents, metadatas)` is present; `PromptLayout` gives its text |
| CustomerServicePipeline.BuildPrompt | deployment/api/rag_pipeline.py:190-224 | the `prompt +=` loop builds exactly `Prompt`, or raises on an absent metadata record |
| CustomerServicePipeline.PromptLayout | deployment/api/rag_pipeline.py:202-223 | the instructions, "CUSTOMER QUESTION: " and the query come first, "YOUR RESPONSE:" last, and between them one `[CATEGORY] doc\n\n` block per pair of `zip(documents, metadatas)` in order |
| CustomerServicePipeline.DefaultLabel | deployment/api/rag_pipeline.py:220-221 | a record without "category" gives the label "[GENERAL INFORMATION]" |
| CustomerServicePipeline.QueryOutcome | deployment/api/rag_pipeline.py:113-188 | either every list is empty and the answer is one of the two fallbacks, or documents were retrieved and all three lists are returned as retrieved; a failed retrieval gives the knowledge-base fallback |
| CustomerServicePipeline.QueryRetrievalFailure | deployment/api/rag_pipeline.py:181-188 | an embedding or search failure gives the "trouble accessing our knowledge base" response with every list empty |
| CustomerServicePipeline.QueryNothingRetrieved | deployment/api/rag_pipeline.py:146-152 | an empty retrieval gives the "I don't have specific information" response with every list empty |
| CustomerServicePipeline.QueryAnswered | deployment/api/rag_pipeline.py:155-179 | the prompt is built from the newline-free query; the response is the generated text, or the technical-difficulty message when generation fails; documents, distances and metadata are returned either way |
| CustomerServicePipeline.QueryMissingMetadata | deployment/api/rag_pipeline.py:219-220 | an absent metadata record makes `metadata.get` raise, so the query gives the outer fallback with every list empty |
| CustomerServicePipeline.PersistDirectoryOrDefault | deployment/api/rag_pipeline.py:48 | `persist_directory or "./chromadb_data"` |
| CustomerServicePipeline.AfterInit | deployment/api/rag_pipeline.py:56-71 | `_init_chroma` fetches the collection or creates it empty; every other collection is unchanged |
| CustomerServicePipeline.RAGPipeline.constructor | deployment/api/rag_pipeline.py:28-54 | fields as given, the directory defaulted, and the collection fetched or created |
| CustomerServicePipeline.RAGPipeline.Query | deployment/api/rag_pipeline.py:113-188 | `query` answers exactly `QueryOutcome` |
| CustomerServicePipeline.RAGPipeline.AddDocuments | deployment/api/rag_pipeline.py:73-111 | `add_documents` on this pipeline's collection, with the outcomes of `PipelineCore.AddDocuments` |
| CustomerServicePipeline.Registry.constructor | deployment/api/rag_pipeline.py:227 | no pipeline instance yet |
| CustomerServicePipeline.Registry.GetRagPipeline | deployment/api/rag_pipeline.py:229-256 | raises without GOOGLE_API_KEY and builds nothing; the first successful call builds the pipeline on "nexobotics_knowledge_base"; later calls return that same object and change nothing |
| CustomerServicePipeline.QueryRag | deployment/api/rag_pipeline.py:229-270 | raises when the pipeline cannot be built, and then no instance exists and nothing changes; otherwise the query's answer with `top_k` 3; an existing instance is reused and the store is untouched; the first build makes a fresh instance and fetches or creates "nexobotics_knowledge_base" |
| LegacyPipeline.SampleIds | api/rag_pipeline.py:75 | "sample_0", "sample_1", "sample_2": one per sample document, pairwise distinct |
| LegacyPipeline.SampleMetadata | api/rag_pipeline.py:76 | one {"source": "initial_data"} per sample document |
| LegacyPipeline.Passage | api/rag_pipeline.py:196-198 | `PASSAGE {i+1}: ` and the newline-free passage on one line; `PassageIsOneLine` states it |
| LegacyPipeline.Passages | api/rag_pipeline.py:196-198 | one passage line per retrieved document, the `i`-th numbered `i + 1`, in retrieval order |
| LegacyPipeline.PassageIsOneLine | api/rag_pipeline.py:196-198 | a passage line ends in its only newline, whatever newlines the passage held |
| LegacyPipeline.PassagesLineCount | api/rag_pipeline.py:196-198 | the passage part of the prompt has exactly one line per retrieved document |
| LegacyPipeline.PassagesStep | api/rag_pipeline.py:196-198 | one more document appends exactly its `PASSAGE {i+1}:` line |
| LegacyPipeline.NewlinesAppend | api/rag_pipeline.py:196-198 | newline counts add up over concatenation |
| LegacyPipeline.Prompt | api/rag_pipeline.py:180-198 | for a question without newlines, the prompt has the preamble's lines, one line for the question and exactly one line per retrieved document |
| LegacyPipeline.BuildPrompt | api/rag_pipeline.py:180-198 | the `prompt +=` loop builds exactly the head, "QUESTION: " with the newline-free query, then passage `i` as "PASSAGE {i+1}: " + passage + "\n" in order |
| LegacyPipeline.QueryRetrievalFailure | api/rag_pipeline.py:224-230 | an embedding or search failure gives the technical-difficulties response with both lists empty |
| LegacyPipeline.QueryNothingRetrieved | api/rag_pipeline.py:172-177 | an empty retrieval gives the "connect you with a customer service representative" response with both lists empty |
| LegacyPipeline.QueryAnswered | api/rag_pipeline.py:199-222 | the response is the generated text, or the apology when generation fails; documents and distances are returned either way |
| LegacyPipeline.QueryOutcome | api/rag_pipeline.py:140-230 | either both lists are empty and the answer is one of the two fallbacks, or documents were retrieved and both lists are returned as retrieved; a failed retrieval gives the technical-difficulties answer |
| LegacyPipeline.SampleCollectionContents | api/rag_pipeline.py:65-98 | the seeded collection holds exactly the three sample documents under their ids with source "initial_data", or nothing when an embedding failed |
| LegacyPipeline.AfterInit | api/rag_pipeline.py:46-63 | an existing collection is kept as it is; a missing one is created and seeded |
| LegacyPipeline.AfterInitIdempotent | api/rag_pipeline.py:54-63 | initialising twice is initialising once: sample data only goes into a collection that had to be created |
| LegacyPipeline.InitWithSampleData | api/rag_pipeline.py:65-98 | the new collection holds `SampleCollection`; others unchanged |
| LegacyPipeline.InitChroma | api/rag_pipeline.py:46-63 | `_init_chroma` leaves exactly `AfterInit` |
| LegacyPipeline.RAGPipeline.constructor | api/rag_pipeline.py:18-44 | fields as given and the collections after `_init_chroma` |
| LegacyPipeline.RAGPipeline.Query | api/rag_pipeline.py:140-230 | `query` answers exactly `QueryOutcome` |
| LegacyPipeline.RAGPipeline.AddDocuments | api/rag_pipeline.py:100-138 | `add_documents` on this pipeline's collection, with the outcomes of `PipelineCore.AddDocuments` |
| LegacyPipeline.Registry.constructor | api/rag_pipeline.py:233 | no pipeline instance yet |
| LegacyPipeline.Registry.GetRagPipeline | api/rag_pipeline.py:235-265 | raises without GOOGLE_API_KEY; the first successful call builds the pipeline on "customer_service_best_practices" in "./chromadb_data", whatever directory is passed; later calls return the same object and change nothing |
| LegacyPipeline.QueryRag | api/rag_pipeline.py:235-279 | raises when the pipeline cannot be built, and then no instance exists and nothing changes; otherwise the query's answer with `top_k` 5; an existing instance is reused and the store is untouched; the first build makes a fresh instance and runs `_init_chroma` on the best-practices collection |
| Ingestion.DocIds | api/persistent_add_docs.py:64 | `[f"{prefix}{i+1}" ...]`: one id per document, the `i`-th being the prefix and `i + 1`, pairwise distinct; the same code at api/direct_add_docs.py:65 and deployment/api/persistent_add_docs.py:90 |
| Ingestion.Repeated | api/persistent_add_docs.py:65 | one copy of the record per document; the same code at api/direct_add_docs.py:66 |
| Ingestion.NumberedBatchStored | api/direct_add_docs.py:87-92 | a numbered batch is stored exactly when every embedding succeeds and there is at least one document |
| Ingestion.AfterRebuild | deployment/api/persistent_add_docs.py:76-87 | the rebuilt collection holds `FreshCollection` of the batch; every other collection is kept as it was |
| Ingestion.RebuildForgetsHistory | api/persistent_add_docs.py:50-61 | the rebuilt collection does not depend on what was there before; a rerun changes nothing; other collections untouched |
| Ingestion.Rebuild | deployment/api/persistent_add_docs.py:76-87 | delete an existing collection, create it, embed and add: the store is `AfterRebuild`, and the batch is stored exactly when every embedding succeeds and `add` accepts the ids |
| Ingestion.AfterGetOrCreate | api/direct_add_docs.py:57-92 | the collection, fetched or created empty, with the batch added when it is stored; `GetOrCreateKeepsEntries` states what that keeps |
| Ingestion.GetOrCreateKeepsEntries | api/direct_add_docs.py:57-62 | get-or-create never removes or changes an entry, a stored batch leaves all its ids present, and a second run changes nothing |
| Ingestion.GetOrCreateAndAdd | api/direct_add_docs.py:57-92 | get or create the collection, embed and add: the store is `AfterGetOrCreate`, and the batch is stored exactly when every embedding succeeds and `add` accepts the ids |
| KnowledgeRebuild.CategoryByGroup | deployment/api/persistent_add_docs.py:95-102 | index `i` below 12 gets the `i / 3`-th of company_info, products_services, support_info, policies; from 9 on it is policies |
| KnowledgeRebuild.Category | deployment/api/persistent_add_docs.py:95-102 | the category is one of the four names, and it is "policies" exactly from index 9 on |
| KnowledgeRebuild.Record | deployment/api/persistent_add_docs.py:104-108 | exactly the keys source, category and doc_id, holding the source name, the index's category and the id |
| KnowledgeRebuild.BuildMetadata | deployment/api/persistent_add_docs.py:93-108 | the `if`/`elif` append loop yields one `Record(i, doc_ids[i])` per document |
| KnowledgeRebuild.Metadatas | deployment/api/persistent_add_docs.py:93-108 | the metadata list: one record per document, in order |
| KnowledgeRebuild.Run | deployment/api/persistent_add_docs.py:65-134 | `main` on a document list leaves exactly `AfterRun`, adding exactly when every embedding succeeds and there is at least one document |
| KnowledgeRebuild.Populate | deployment/api/persistent_add_docs.py:43-63 | `main` on the twelve fixed `DOCUMENTS` |
| KnowledgeRebuild.RunContents | deployment/api/persistent_add_docs.py:129-134 | afterwards the collection holds exactly the documents under their ids with their records, or is empty when an embedding failed |
| KnowledgeRebuild.RecordsNameTheirKey | deployment/api/persistent_add_docs.py:107 | every stored record's doc_id is the id it is stored under |
| KnowledgeRebuild.KeysNamedByRecords | deployment/api/persistent_add_docs.py:107 | entries whose records were built from their ids name their own keys |
| KnowledgeRebuild.RunIdempotent | deployment/api/persistent_add_docs.py:76-87 | a rerun leaves the store as the first run left it |
| BestPracticesRebuild.Run | api/persistent_add_docs.py:37-91 | `main` on a document list leaves exactly `AfterRun`, adding exactly when every embedding succeeds and there is at least one document |
| BestPracticesRebuild.Populate | api/persistent_add_docs.py:21-35 | `main` on the ten fixed `DOCUMENTS` |
| BestPracticesRebuild.RunContents | api/persistent_add_docs.py:86-91 | afterwards the collection holds exactly the documents under their ids, each with the fixed record, or is empty when an embedding failed |
| BestPracticesRebuild.RunIdempotent | api/persistent_add_docs.py:50-61 | a rerun changes nothing, and other collections are never touched |
| DirectAdd.Run | api/direct_add_docs.py:48-92 | `main` on a document list leaves exactly `AfterRun`, adding exactly when every embedding succeeds and there is at least one document |
| DirectAdd.Populate | api/direct_add_docs.py:21-46 | `main` on the seventeen fixed `DOCUMENTS` |
| DirectAdd.RunKeepsAndRepeats | api/direct_add_docs.py:57-62 | a run keeps every entry already there, and a second run changes nothing |
| DirectAdd.RunOnEmptyStore | api/direct_add_docs.py:53-92 | on the fresh in-memory store the collection ends with exactly the documents under their ids with the fixed record, or empty |
| SessionStore.DebugEnabled | deployment/api/index.py:134 | on exactly when DEBUG is set to "true" in any letter case; off when unset |
| SessionStore.Truncate | deployment/api/index.py:151-152 | `history[-20:]` when longer than twenty: at most twenty, a suffix, the history itself when short enough, exactly twenty when longer |
| SessionStore.Turn | deployment/api/index.py:119-148 | the user message first and the assistant message last; a debug system message with the documents in between exactly when debugging is on and documents came back; the fallback text when `query_rag` raised |
| SessionStore.AfterChat | deployment/api/index.py:112-152 | the history after an accepted request: the started history plus the turn, cut to the last twenty; `AfterChatShape` states its shape |
| SessionStore.AfterChatShape | deployment/api/index.py:112-152 | after an accepted request the history has 2 to 20 messages, is a suffix of the old history plus the turn, and ends with the whole turn |
| SessionStore.NewSession | deployment/api/index.py:112-116 | a new session holds exactly the system prompt message followed by the turn |
| SessionStore.TruncationDropsSystemPrompt | deployment/api/index.py:151-152 | a history of nineteen messages loses its system prompt on the next request |
| SessionStore.ClearedIsFresh | deployment/api/index.py:182-187 | a cleared session then behaves exactly like a session that never existed |
| SessionStore.ExtendHistory | deployment/api/index.py:119-154 | the appends and the cut give `Truncate(start + Turn)`; the reply is the pipeline's response or the fallback |
| SessionStore.ChatServer.constructor | deployment/api/index.py:48-52 | no histories and not yet initialised |
| SessionStore.ChatServer.Chat | deployment/api/index.py:72-154 | a failed initialisation is reported and changes no history; a missing or empty message is rejected and changes no history; otherwise only this session changes, to `AfterChat`, and the reply is the assistant text; every history stays within 1..20 |
| SessionStore.ChatServer.Respond | deployment/api/index.py:104-154 | the request after initialisation: rejection or the single-session update |
| SessionStore.ChatServer.ClearSession | deployment/api/index.py:172-189 | a missing id is rejected; a known session is reset to the system prompt alone with every other session unchanged; an unknown id reports "Session not found" and creates nothing |
| LegacySessionStore.Turn | api/index.py:87-109 | the user message first; the retrieved-context message right after it when documents came back; no system message when none did or `query_rag` raised; the assistant message last exactly when the reply is not empty |
| LegacySessionStore.NewSession | api/index.py:81-84 | a new session holds the `CONTEXT` message, then the user message |
| LegacySessionStore.HistoryGrows | api/index.py:87-109 | an accepted request keeps the whole history and appends 1 to 3 messages |
| LegacySessionStore.ExtendHistory | api/index.py:87-109 | the appends give `start + Turn`; the reply is the pipeline's response or the fallback |
| LegacySessionStore.ChatServer.constructor | api/index.py:38-41 | no histories and not yet initialised |
| LegacySessionStore.ChatServer.Chat | api/index.py:61-111 | a successful initialisation sets the flag and a failure is only logged; a missing or empty message is rejected with no history changed; otherwise only this session changes, by the turn; every history keeps `CONTEXT` at its front |
| LegacySessionStore.ChatServer.Respond | api/index.py:70-111 | the request after the initialisation attempt |
| KnowledgeBase.KeptLines | api/knowledge_base.py:78 | never more lines kept than the file has |
| KnowledgeBase.KeptLinesStripped | api/knowledge_base.py:78 | every loaded line is stripped and not empty |
| KnowledgeBase.KeptLinesSound | api/knowledge_base.py:78 | every loaded text is the stripped form of some line of the file, and not empty |
| KnowledgeBase.KeptLinesComplete | api/knowledge_base.py:78 | every line whose stripped form is not empty contributes that stripped form |
| KnowledgeBase.KeptLinesMembers | api/knowledge_base.py:78 | a text is loaded exactly when it is the stripped form of some line and not empty |
| KnowledgeBase.KeptLinesAppend | api/knowledge_base.py:78 | loading keeps file order: the lines of two parts are those of the first followed by those of the second |
| KnowledgeBase.Module.constructor | api/knowledge_base.py:9-39 | the list starts with the fifteen fixed chunks |
| KnowledgeBase.Module.GetKnowledgeData | api/knowledge_base.py:41-48 | returns the module's list object itself, not a copy |
| KnowledgeBase.Module.AddKnowledgeItem | api/knowledge_base.py:50-63 | added exactly when the item is a non-empty string, then appended at the end; otherwise the list is unchanged |
| KnowledgeBase.Module.LoadKnowledgeFromFile | api/knowledge_base.py:65-83 | the loaded lines are returned and the list becomes the old list followed by exactly them; on a read error the result is empty and the list unchanged |
| KnowledgeLoader.DocIdInjective | api/load_knowledge.py:53-64 | "doc_{i}_{stem}" determines both the position and the stem |
| KnowledgeLoader.Record | api/load_knowledge.py:65-69 | exactly source, filename and title: the path, the file name, and the stem with `_` as spaces, title-cased |
| KnowledgeLoader.KeptIndices | api/load_knowledge.py:53-61 | the positions of the usable files, increasing |
| KnowledgeLoader.KeptIndicesComplete | api/load_knowledge.py:56-61 | no readable, non-blank file is skipped |
| KnowledgeLoader.DocId | api/load_knowledge.py:64 | `f"doc_{i}_{stem}"`; `DocIdInjective` shows it determines the position and the stem |
| KnowledgeLoader.CollectedBelow | api/load_knowledge.py:72-74 | three lists of equal length, entry `k` built from the `k`-th usable file |
| KnowledgeLoader.Collected | api/load_knowledge.py:49-79 | the three lists built from the whole listing have equal length |
| KnowledgeLoader.CollectedIdsDistinct | api/load_knowledge.py:64 | ids stay distinct even when files are skipped |
| KnowledgeLoader.CollectedDocuments | api/load_knowledge.py:56-74 | a file contributes its id exactly when it is readable and not blank, and then contributes its stripped text |
| KnowledgeLoader.CollectedStep | api/load_knowledge.py:59-74 | each file adds one entry to each list, or nothing when it is skipped |
| KnowledgeLoader.CollectFiles | api/load_knowledge.py:49-79 | the loop builds exactly `Collected` |
| KnowledgeLoader.LoadKnowledge | api/load_knowledge.py:34-94 | a missing directory raises and changes nothing; no files or no valid documents return without adding; otherwise the whole batch is added, its ids being distinct, or the failure of an embedding call is reported and nothing changes |

## Left out

- Flask routing, CORS, JSON parsing, the `is_json` check and HTTP status
  codes. A rejection is modelled as a reply value only where it guards the
  history map.
- The `/health` and `/` routes, `api/list_models.py`,
  `api/tools/load_knowledge.py` (command-line glue), `cleaned/move_files.py`
  (file copying) and `deployment/api/__init__.py` (a docstring). None of
  them decides anything the chatbot relies on.
- Embedding vectors, distances, temperature, `top_p` and the other
  generation settings are floats that are only passed through. They are
  `real` values, or are not modelled at all.
- The embedding, generation and search services. They are oracles, and the
  search oracle is not tied to what the collection holds; similarity,
  ranking and persistence to disk belong to ChromaDB.
- `asyncio.run`, the `keep_awake` thread and concurrent requests on the
  shared history map. This is concurrency, so each request is one atomic
  method call.
- Environment variables and `load_dotenv`. Their values are parameters.
- The timestamp default for a missing session id. The caller supplies the
  id.
- The model cannot name what a server does after `query_rag` returns, so
  the result of that call is a parameter of `Chat` and the pipeline is not
  called from the server in the model. The result of the first
  initialisation is a parameter of `Chat` in the same way.
- A history is a sequence value that is stored back after each request.
  The aliasing of the Python list inside the dictionary is not modelled.
- The "test query" printing at the end of each ingestion script, and every
  `print`.
- The outer `except` blocks of the ingestion scripts, of `chat_endpoint`
  and of `load_knowledge`'s file loop. Apart from the failures modelled
  (an unreadable file, a failing oracle call), nothing in the model can
  raise there.
- `str.upper`, `str.lower`, `str.title` and `str.strip` are defined on ASCII
  only. Other characters are left unchanged and are not whitespace.
- The order of `Path.glob` is whatever order the listing is given in. A
  listed file's name is its stem followed by ".txt", and a value that is not
  a string is passed to `add_knowledge_item` as `None`.
- KnowledgeLoader.LoadKnowledge: takes the pipeline that `get_rag_pipeline`
  returned as a parameter, rather than building it, because the singleton
  is modelled on its own in `LegacyPipeline.Registry`.
- The older `RAGPipeline.__init__` chooses between an in-memory and a
  persistent client. Both are the `client` object here; the directory is
  only recorded.
- ChromaDB's other checks inside `add` are not modelled. These are the
  metadata list against the ids, the embedding dimension, and the types.
  The model's only refusals are an empty id list and a repeated id. An
  empty metadata list counts as no metadata.
- The text of an exception that `add_documents` re-raises is not carried.
  `PipelineCore.EmbeddingCallRaised` and `PipelineCore.AddCallRaised` only
  mark which call raised.
- LegacyPipeline.QueryOutcome: building the older prompt cannot fail in the
  model, so its outer fallback is reached only through a failing embedding
  or search call.
