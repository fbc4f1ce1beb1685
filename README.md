# Conversational agent core, modelled in Dafny

The system is a retrieval-augmented chat agent written in Go. An
`AgentManager` holds two things:

- a registry of per-thread conversation buffers;
- a write buffer of conversation chunks that is flushed in batches to a
  Weaviate vector store.

`Query` runs two similarity searches:

- one in the caller's organisation namespace;
- one in the default namespace.

It then builds a single context string from the thread's history and the
retrieved documents, and calls an LLM chain, optionally streaming its chunks.
On success it records the exchange in the thread's memory and appends the
turn, chunked and tagged, to the write buffer.

The HTTP handlers do four things:

- validate requests;
- import datasets of JSON records as documents;
- report a thread's memory;
- frame streamed chunks as Server-Sent Events.

A helper script, `aggregate_go.py`, concatenates the Go files of a directory
into one listing. Along the way it drops repeated `package` clauses and
repeated `import` lines.

The Dafny project has these modules:

| file | module | contents |
|---|---|---|
| `wrappers.dfy` | `Wrappers` | `Option` and `Result` |
| `go_strings.dfy` | `GoStrings` | `strings.Fields` over the `unicode.IsSpace` set, and `strings.Join` |
| `chunker.dfy` | `Chunker` | `ChunkContent` |
| `documents.dfy` | `Documents` | JSON values and documents, deduplication, content and metadata conversion |
| `memory.dfy` | `Memory` | a thread's conversation buffer, and `formatMessages` |
| `services.dfy` | `Services` | the vector store and the LLM chain as oracles |
| `sse.dfy` | `ServerSentEvents` | the event framing, and the client-side decoding of the WHATWG HTML Living Standard, section 9.2.6 "Interpreting an event stream" |
| `query_context.dfy` | `QueryContext` | the pure steps of `Query` |
| `agent_manager.dfy` | `Agents` | the manager's state and operations |
| `handlers.dfy` | `Handlers` | the three memory handlers and the query handler |
| `aggregate.dfy` | `AggregateGo` | the aggregation script |

The oracles in `Services` log every call they receive. Each one answers with
a fixed function of the call's position in its log and of the call itself.
This makes retries, call counts and "no call was made" part of the state that
contracts can speak about.

## Model

| member | source | states |
|---|---|---|
| Agents.AgentManager.New | internal/agents/agent_manager.go:28-76 | Construction stops at the first failing initialiser, with that initialiser's error text. On success the manager has an empty thread map, an empty write buffer and maxBufferMessages as passed. Its chain holds a fresh shared buffer that belongs to no thread. |
| Agents.AgentManager.constructor | internal/agents/agent_manager.go:67-75 | The fields are set as given; the thread map and the buffer start empty. |
| Agents.AgentManager.GetThreadMemory | internal/agents/agent_utils.go:20-36 | For a known thread: that thread's buffer, and the map is unchanged. For a new thread: one fresh, empty buffer keyed "thread:<id>", added to the map, with every other entry kept. |
| Agents.AgentManager.RetrieveMemory | internal/agents/agent_utils.go:39-63 | The thread is registered, every history is unchanged, and the result is the thread's prior history, formatted. |
| Memory.Formatted | internal/agents/agent_utils.go:66-79 | Same length and order as the messages. Each entry's content is the message's content; its role is "ai" for AI messages and "user" otherwise. |
| Memory.FormatMessages | internal/agents/agent_utils.go:66-79 | The loop returns exactly Formatted of the messages. |
| Agents.AgentManager.AddToBuffer | internal/agents/agent_utils.go:82-108 | The buffer becomes the old buffer followed by the turn's documents, with no deduplication. A flush is requested iff the new length is at least maxBufferMessages. |
| Agents.TurnDocsShape | internal/agents/agent_utils.go:86-99 | The turn's chunks rejoin to the words of input + "\n" + response, and there are none iff there are no words. Each chunk holds 1 to 300 words and is tagged with string thread_id, user_id and org_id, and source "conversation". |
| Agents.ConversationDocsTagged | internal/agents/agent_utils.go:88-98 | Document i has chunk i as its content, and the turn's ids and source in its metadata. |
| Agents.AgentManager.FlushBuffer | internal/agents/agent_utils.go:111-146 | The buffer is empty afterwards on every path. The store receives exactly FlushWrite of the old buffer: no call, or one call. |
| Agents.FlushWriteCases | internal/agents/agent_utils.go:117-143 | A flush writes iff the batch is non-empty and its first document has a string org_id. The write is the deduplicated batch, in the namespace of that org_id. |
| Agents.TaggedBatchIsWritten | internal/agents/agent_utils.go:117-143 | A non-empty buffer filled by conversation turns is always written. The batch written holds distinct contents and every content of the buffer. |
| Documents.DeduplicateDocuments | internal/agents/agent_utils.go:149-161 | The seen-map loop returns Dedup of the input. |
| Documents.DedupPositions | internal/agents/agent_utils.go:149-161 | Dedup picks strictly increasing input positions, each the first occurrence of its content: a subsequence of first occurrences. |
| Documents.DedupDistinct | internal/agents/agent_utils.go:149-161 | No two deduplicated documents share a page content. |
| Documents.DedupContents | internal/agents/agent_utils.go:149-161 | The deduplicated batch has exactly the set of contents of the input. |
| Documents.DedupHead | internal/agents/agent_utils.go:128-129 | The first document of a non-empty batch survives, in first place. This is the document whose org_id the flush reads. |
| Agents.AgentManager.SyncMemory | internal/agents/agent_utils.go:164-185 | An empty buffer returns no error and makes no store call. Otherwise the whole buffer is written as it is, with no namespace. On error the buffer is kept and the error returned; on success the buffer is emptied. |
| Agents.AgentManager.AddDocuments | internal/agents/agent_utils.go:188-220 | Every document gets user_id set in place. The store is called Attempts(...) times with the same batch in namespace orgID. The result is no error at the first success; after the last failure it is that failure wrapped. |
| Agents.TagUserID | internal/agents/agent_utils.go:192-194 | The array becomes WithUserID of its old contents. |
| Agents.WithUserID | internal/agents/agent_utils.go:192-194 | Same documents and contents. user_id is added with the caller's id, and every other metadata entry is unchanged. |
| Agents.AgentManager.AddWithRetry | internal/agents/agent_utils.go:200-219 | The retry loop: the calls made are Repeat(call, Attempts), and the error is that of the last attempt, wrapped. |
| Agents.Attempts | internal/agents/agent_utils.go:204-215 | Between 1 and 3 attempts. Every attempt before the last failed, and the last succeeded unless all 3 were made. |
| Agents.AttemptsAt | internal/agents/agent_utils.go:204-215 | Attempts is the unique count with those properties. |
| Agents.AgentManager.AddDataset | internal/agents/agent_utils.go:223-251 | A file that fails to open or decode returns the wrapped error and changes nothing. Otherwise the thread is registered and its history gains one AI message per document, in order. |
| Chunker.ChunkContent | internal/agents/agent_utils.go:254-267 | The stepping loop returns Chunks(content, maxWords). |
| Chunker.ChunkWordCounts | internal/agents/agent_utils.go:254-267 | Every chunk holds between 1 and maxWords words. |
| Chunker.ChunkCount | internal/agents/agent_utils.go:254-267 | The chunk count is ceil(#words / maxWords). It is zero iff there are no words. |
| Chunker.ChunksRejoin | internal/agents/agent_utils.go:254-267 | Joining the chunks with " " equals joining the content's fields with " ". |
| Chunker.ChunksEmptyIffBlank | internal/agents/agent_utils.go:254-267 | Empty or white-space-only content, and only such content, yields no chunks. |
| GoStrings.FieldsEmptyIffBlank | internal/agents/agent_utils.go:255 | strings.Fields finds no word iff the text is all white space. |
| GoStrings.FieldsOfJoin | internal/agents/agent_utils.go:263 | Re-splitting words joined with " " gives back the words. |
| Documents.ConvertContentToString | internal/agents/agent_utils.go:294-308 | A string is returned unchanged. A map or slice is the marshaller's text, or the wrapped marshal error. Any other type is rejected, naming its Go type. |
| Documents.ConvertMetadata | internal/agents/agent_utils.go:311-317 | The same keys, each mapped to its value as a JSON string. |
| Agents.AgentManager.Query | internal/agents/agent_query.go:14-102 | The thread is registered first, whatever happens. Every effect is that of Plan: the searches made, the chain calls, the chunks streamed, and the error. Only an answered query adds the exchange to the thread's history and the turn to the buffer, and it returns the chain's text. |
| Agents.AgentManager.Respond | internal/agents/agent_query.go:26-101 | With the thread's buffer at hand: the same effects, with nothing changed on a search or chain error. |
| Agents.AgentManager.SearchBoth | internal/agents/agent_query.go:29-47 | The tenant search (namespace orgID, k = 5), then the default search (no namespace, k = 5) unless the first failed. The result is Retrieve of the store's replies. |
| Agents.RetrieveCases | internal/agents/agent_query.go:31-47 | A tenant error other than "empty response" stops the query before the default search. A default error other than that stops it after. Otherwise the result lists every tenant document, in order, followed by every default one. |
| Agents.PlanCases | internal/agents/agent_query.go:31-91 | For any replies: a tenant error other than "empty response" fails the query, and so does a default one after a tolerated tenant reply. The chain is called exactly when both were tolerated, once, on the context of the history and the tenant-then-default documents, and its chunks are the ones streamed. The query is answered exactly when that call returns text, and the answer is that text. |
| Agents.QueryErrorCases | internal/agents/agent_query.go:32-43 | For any input and organisation: only an answered query has no error. A tenant failure makes just the tenant search (namespace orgID, k = 5) and no chain call; every other outcome also makes the default search (no namespace, k = 5). Each error starts with the name of the step that failed. |
| Agents.AgentManager.Answer | internal/agents/agent_query.go:66-101 | The chain is called once on LlmContext. A chain error changes neither memory nor buffer. On success the thread gains (input, text) and the buffer gains the turn, with the flush flag. |
| Agents.AgentManager.RecordTurn | internal/agents/agent_query.go:93-99 | Save the exchange as a human then an AI message, then do what AddToBuffer does. |
| QueryContext.BuildDocContext | internal/agents/agent_query.go:56-64 | The loop returns DocumentsSection of the merged documents. |
| QueryContext.MergedSection | internal/agents/agent_query.go:47-64 | An empty merge yields exactly "No relevant documents found.\n". Otherwise the section is every tenant entry followed by every default entry. |
| QueryContext.SectionOfDocuments | internal/agents/agent_query.go:58-61 | A non-empty section starts with its first document's entry, and is never the no-documents marker. |
| Agents.BuildContext | internal/agents/agent_query.go:66-73 | The context is "History:\n", the history entries, "\n\nRelevant Documents:\n", the section, "\n\nUser Input:\n", then the input. |
| QueryContext.EmptyRetrievalContext | internal/agents/agent_query.go:66-73 | With no history and no documents, the context holds "[]" and the no-documents marker. |
| Agents.CallStreaming | internal/agents/agent_query.go:77-84 | The chain sees the context once. A callback, if there is one, receives every chunk in order, framed as the handler's writer at internal/handlers/agent_handler.go:53-55 frames it. |
| Agents.ForwardChunks | internal/agents/agent_query.go:78-83 | With a callback, its stream gains the frames of the chunks, in arrival order; the framing is that of internal/handlers/agent_handler.go:53-55. With none, nothing is forwarded. |
| Handlers.AgentHandler.GetMemoryHandler | internal/handlers/memory_handler.go:20-43 | An empty thread_id is rejected with "Missing thread_id" and nothing changes. Otherwise the thread is registered, and an empty history gives {"memory": "Memory is empty"} while a non-empty one gives the formatted list. |
| Handlers.AgentHandler.AddDocumentHandler | internal/handlers/memory_handler.go:46-77 | An unbound request and a conversion error are rejected with their messages, with no store call. Otherwise one document is written, with the converted content and the request metadata key for key. A store error gives "Failed to add document"; success gives the first id. |
| Handlers.AgentHandler.ImportMemoryHandler | internal/handlers/memory_handler.go:80-126 | A request without file_path, user_id and org_id is rejected, and so are an unopenable or undecodable file. Otherwise AddDocuments runs on the dataset's summary documents, and its error gives "Failed to add documents to vector store.". |
| Handlers.DatasetDocuments | internal/handlers/memory_handler.go:107-117 | The dataset loop returns SummaryDocuments of the dataset. |
| Handlers.SummaryCount | internal/handlers/memory_handler.go:107-117 | There are no more documents than records, and as many iff every record has a string summary. |
| Handlers.SummaryPositions | internal/handlers/memory_handler.go:107-117 | The documents come from strictly increasing record positions, and include every record with a string summary. Each carries the summary as its content and the whole record as its metadata. |
| Handlers.AgentHandler.QueryHandler | internal/handlers/agent_handler.go:17-74 | An unbound request, or a missing thread_id, user_id or org_id, is rejected before Query. Nothing changes: not the manager, the store, the chain or the stream, and no thread's history. Otherwise Query runs with the framing callback (stream) or with none. The searches, store writes (none), chain prompts, history, buffer and reply all follow Plan. |
| Handlers.AgentHandler.StreamedQuery | internal/handlers/agent_handler.go:40-66 | The response gains the frame of each chunk, in order. On success it gains then exactly one "data: [DONE]\n\n"; on error no sentinel is written and the error is reported. |
| Handlers.AgentHandler.BufferedQuery | internal/handlers/agent_handler.go:68-73 | Query runs with no callback, and its response is returned verbatim under "response". |
| ServerSentEvents.DecodeFrames | internal/handlers/agent_handler.go:53-55 | Framing round trip: a client decoding the frames of line-break-free chunks receives exactly those chunks, one event each, in order. |
| ServerSentEvents.SuccessfulStreamDecodes | internal/handlers/agent_handler.go:53-63 | A successful stream decodes to the chunks followed by "[DONE]". |
| ServerSentEvents.LineFeedInChunkIsLost | internal/handlers/agent_handler.go:54 | For a chunk x + "\n" + y, with y a plain word, the client receives only x. |
| AggregateGo.AggregateGoFiles | aggregate_go.py:11-54 | The lines collected are Output(Items(files)): the rendered items that are kept, in walk order. |
| AggregateGo.FilterLines | aggregate_go.py:24-54 | The per-file loop extends the output, the package flag and the import set exactly as Output, PackageSeen and ImportsSeen do. The import-block flag never becomes true. |
| AggregateGo.HeaderIsPlain | aggregate_go.py:20-22 | A file header is neither a package clause nor an import, so it is always kept. |
| AggregateGo.OutputPositions | aggregate_go.py:15-54 | The output is the rendering of strictly increasing item positions, each kept, with every kept item among them. Output order is input order. |
| AggregateGo.PlainItemsKept | aggregate_go.py:15-54 | Every header, and every line that is neither a package clause nor an import, reaches the output in order. |
| AggregateGo.AtMostOnePackage | aggregate_go.py:29-33 | At most one output line is a package clause. |
| AggregateGo.PackageCovered | aggregate_go.py:29-33 | If the input holds a package clause, so does the output. |
| AggregateGo.DistinctImports | aggregate_go.py:36-43 | No two output import lines strip to the same text. |
| AggregateGo.ImportsCovered | aggregate_go.py:36-43 | Every import text of the input has an output import line that strips to it. |
| AggregateGo.TwoFourLineFiles | aggregate_go.py:20-54 | Two .go files with the same package, import and two plain lines. The second contributes only its header and the two plain lines. |
| AggregateGo.ImportBlockLines | aggregate_go.py:24 | A parenthesised block is not recognised. "import (" counts as one import line, while a quoted path and ")" are plain lines copied verbatim. |
| ServerSentEvents.ResponseStream.WriteChunk | internal/handlers/agent_handler.go:53-56 | The response gains "data: " + chunk + "\n\n". |
| ServerSentEvents.ResponseStream.WriteDone | internal/handlers/agent_handler.go:62-63 | The response gains the sentinel frame. |

## Left out

**Concurrency**
- The mutexes, and the goroutine that addToBuffer starts, are left out. The model is sequential: addToBuffer returns a flag meaning "flush started", Query returns that flag, and FlushBuffer is a method called explicitly.
- SyncMemory holding the lock across the store call is left out, for the same reason.

**Foreign services**
- Weaviate, OpenAI and the langchaingo chain are oracles. Their search results, add results and generations are fixed functions of the call, not modelled behaviour.
- The chain's own memory update and its prompt template are not modelled, because they are inside langchaingo.
- QueryMemoryByUserAndOrgID (internal/agents/agent_utils.go:269-291) only builds a filter for a foreign API call, so it is not modelled.
- The client construction in internal/agents/agent_Initializer.go is not modelled. New takes each fallible initialiser's outcome as a parameter.
- New has no "failed to initialize chain" branch (internal/agents/agent_manager.go:61-64), because InitializeChain (internal/agents/agent_Initializer.go:33-46) always returns a nil error.

**Opaque encodings and platform**
- Go's `%+v` of a metadata map is the parameter `render`, because fmt's formatting of `any` values is outside the model.
- json.Marshal is the `marshal` parameter, and JSON decoding of files is its outcome (FileLoad). Both are encodings outside the model.
- Numbers are kept as `real`, because float64 rounding does not affect any decision here.
- time.Now is the parameter `clock`: the timestamp read for each chunk.
- os.Open, os.walk and writing the aggregate file are left out. The script's input is the walk's result, a list of files with their lines; its result is the list of lines to be written.

**Web plumbing**
- Logging is not modelled. That includes the log lines in internal/agents/agent_utils.go:130-141 that are the only trace of a dropped flush batch, whether it lacked a string org_id or the store failed.
- Query's chunkCallback is modelled as the handler's SSE writer, `ResponseStream`, which is the only non-nil callback the program passes (internal/handlers/agent_handler.go:53-55). Query itself passes the raw chunk to any `func([]byte)` (internal/agents/agent_query.go:77-84). The model therefore does not capture other callbacks.
- Echo's binding and JSON replies, status codes, headers and explicit Flush calls are left out. A request that fails to bind is None, and a reply is its status class with its body.
- The context.Context arguments are left out.

**Error paths and edge cases**
- The langchaingo calls Messages and AddAIMessage never fail on an in-memory history, so their error branches, and the nil checks after GetThreadMemory, are not modelled.
- GetMemoryHandler: the internal-error reply of RetrieveMemory is complete in the source but cannot occur in the model, because RetrieveMemory never fails.
- Nil and empty Go maps are not distinguished. A map that the source would read as nil is empty in the model.
- StreamedQuery: after an error in streaming mode the source writes a JSON error body into a response that has already started. The model reports the error as the reply and does not model those extra bytes.
- internal/prompts/prompts.go holds template constants that nothing in the core uses, so it is not modelled.

**Comments in the source that the code does not follow; the model follows the code**
- The comment "Flush the buffer if it exceeds max size" (internal/agents/agent_utils.go:104) says "exceeds", but the test at line 105 is `>=`. That test also holds on every later append until a flush empties the buffer, so a flush is requested each time, not once per crossing.
- The comment "Ensure uniqueness before adding" (internal/agents/agent_utils.go:100) does not hold: the append at line 101 does not deduplicate. Deduplication happens only at flush time (line 122).

**Behaviour not captured by the contracts**
- ServerSentEvents.DecodeFrames: the round trip is proved only for chunks without CR or LF. In the source, a chunk holding a line break splits its event, and LineFeedInChunkIsLost shows the loss.
- ChunkContent: it requires maxWords >= 1 when there are words. With maxWords == 0 the source loop never advances, and with maxWords < 0 the slice `words[i:end]` panics because end < i. The only caller passes 300.
