/**
  The HTTP handlers of internal/handlers: request validation, the dataset
  record filter, the empty-memory reply and the Server-Sent Events stream of
  a query. Echo's binding of the request and its JSON encoding of the reply
  are not modelled: a request that failed to bind is None, and a reply is
  its status class with its body.
 */
module Handlers {
  import opened Wrappers
  import opened Documents
  import opened Memory
  import opened Services
  import opened ServerSentEvents
  import opened Agents

  datatype Reply =
    | BadRequest(error: string)                        // 400, {"error": error}
    | InternalError(error: string)                     // 500, {"error": error}
    | Success(body: map<string, string>)               // 200, a string map
    | MemoryList(memory: seq<map<string, string>>)     // 200, {"memory": [...]}
    | Streamed                                         // 200, the body was written as events
    | IndexPanic                                       // docID[0] on an empty id list

  datatype AddDocumentRequest = AddDocumentRequest(content: Json, metadata: map<string, string>)
  datatype ImportRequest = ImportRequest(filePath: string, userID: string, orgID: string)
  datatype QueryRequest = QueryRequest(query: string, stream: bool)

  /** One element of an imported dataset: a JSON object. */
  type Record = map<string, Json>

  const ImportRejected: string := "Invalid request payload. 'file_path', 'user_id', and 'org_id' are required."
  const QueryParamsRejected: string := "'thread_id', 'user_id', and 'org_id' are required query parameters"

  predicate ImportRequestComplete(r: ImportRequest) {
    r.filePath != "" && r.userID != "" && r.orgID != ""
  }

  predicate QueryParamsPresent(threadID: string, userID: string, orgID: string) {
    threadID != "" && userID != "" && orgID != ""
  }

  /** A record the import keeps: one whose "summary" is a string. */
  predicate HasSummary(r: Record) {
    "summary" in r && r["summary"].JString?
  }

  /** The documents the import builds: summary as content, the whole record as metadata. */
  function SummaryDocuments(dataset: seq<Record>): seq<Document>
    decreases |dataset|
  {
    if dataset == [] then []
    else
      var n := |dataset| - 1;
      SummaryDocuments(dataset[..n])
        + (if HasSummary(dataset[n]) then [Document(dataset[n]["summary"].s, dataset[n])] else [])
  }

  /** The dataset loop of ImportMemoryHandler. */
  method DatasetDocuments(dataset: seq<Record>) returns (docs: seq<Document>)
    ensures docs == SummaryDocuments(dataset)
  {
    docs := [];
    for i := 0 to |dataset|
      invariant docs == SummaryDocuments(dataset[..i])
    {
      assert dataset[..i + 1][..i] == dataset[..i];
      var item := dataset[i];
      if "summary" in item && item["summary"].JString? {
        docs := docs + [Document(item["summary"].s, item)];
      }
    }
    assert dataset[..|dataset|] == dataset;
  }

  /** Records without a string summary are skipped: no more documents than records, as many iff none is. */
  lemma {:induction false} SummaryCount(dataset: seq<Record>)
    ensures |SummaryDocuments(dataset)| <= |dataset|
    ensures |SummaryDocuments(dataset)| == |dataset| <==> forall i :: 0 <= i < |dataset| ==> HasSummary(dataset[i])
    decreases |dataset|
  {
    if dataset != [] {
      var n := |dataset| - 1;
      SummaryCount(dataset[..n]);
      assert forall i :: 0 <= i < n ==> dataset[..n][i] == dataset[i];
    }
  }

  /**
    The documents follow dataset order: they come from strictly increasing
    record positions, every record with a string summary among them, each
    document carrying its record's summary and the record itself.
   */
  lemma {:induction false} SummaryPositions(dataset: seq<Record>) returns (idx: seq<nat>)
    ensures |idx| == |SummaryDocuments(dataset)|
    ensures forall k :: 0 <= k < |idx| ==>
      && idx[k] < |dataset| && HasSummary(dataset[idx[k]])
      && SummaryDocuments(dataset)[k] == Document(dataset[idx[k]]["summary"].s, dataset[idx[k]])
    ensures forall k, l :: 0 <= k < l < |idx| ==> idx[k] < idx[l]
    ensures forall i :: 0 <= i < |dataset| && HasSummary(dataset[i]) ==> i in idx
    decreases |dataset|
  {
    if dataset == [] {
      idx := [];
    } else {
      var n := |dataset| - 1;
      var prev := SummaryPositions(dataset[..n]);
      assert forall i :: 0 <= i < n ==> dataset[..n][i] == dataset[i];
      if HasSummary(dataset[n]) {
        idx := prev + [n];
      } else {
        idx := prev;
      }
    }
  }

  class AgentHandler {
    const agentManager: AgentManager

    constructor (agentManager: AgentManager)
      ensures this.agentManager == agentManager
    {
      this.agentManager := agentManager;
    }

    /** GetMemoryHandler: the thread's formatted history, or the empty-memory indicator. */
    method GetMemoryHandler(threadID: string) returns (reply: Reply)
      requires agentManager.Valid()
      modifies agentManager`agentMemory
      ensures agentManager.Valid()
      ensures threadID == "" ==>
        reply == BadRequest("Missing thread_id") && agentManager.agentMemory == old(agentManager.agentMemory)
      ensures threadID != "" ==>
        && agentManager.Registered(threadID)
        && agentManager.Histories() == old(agentManager.Histories())[threadID := old(agentManager.Prior(threadID))]
        && reply == (if old(agentManager.Prior(threadID)) == [] then Success(map["memory" := "Memory is empty"])
                     else MemoryList(Formatted(old(agentManager.Prior(threadID)))))
    {
      if threadID == "" {
        return BadRequest("Missing thread_id");
      }
      var memory := agentManager.RetrieveMemory(threadID);
      if |memory| == 0 {
        return Success(map["memory" := "Memory is empty"]);
      }
      reply := MemoryList(memory);
    }

    /**
      AddDocumentHandler: convert the content, copy the metadata, and store
      the single document without a namespace.
     */
    method AddDocumentHandler(request: Option<AddDocumentRequest>, marshal: Json -> Result<string>)
      returns (reply: Reply)
      modifies agentManager.vectorStore
      ensures agentManager.vectorStore.searches == old(agentManager.vectorStore.searches)
      ensures request.None? ==>
        reply == BadRequest("Invalid request payload")
        && agentManager.vectorStore.adds == old(agentManager.vectorStore.adds)
      ensures request.Some? && ConvertContentToString(request.value.content, marshal).Err? ==>
        reply == BadRequest(ConvertContentToString(request.value.content, marshal).error)
        && agentManager.vectorStore.adds == old(agentManager.vectorStore.adds)
      ensures request.Some? && ConvertContentToString(request.value.content, marshal).Ok? ==>
        var md := request.value.metadata;
        var call := AddCall([Document(ConvertContentToString(request.value.content, marshal).value,
                                      map k | k in md :: JString(md[k]))], None);
        var answer := agentManager.vectorStore.addReply(|old(agentManager.vectorStore.adds)|, call);
        && agentManager.vectorStore.adds == old(agentManager.vectorStore.adds) + [call]
        && reply == (if answer.err.Some? then InternalError("Failed to add document")
                     else if answer.ids == [] then IndexPanic
                     else Success(map["doc_id" := answer.ids[0]]))
    {
      if request.None? {
        return BadRequest("Invalid request payload");
      }
      var req := request.value;
      var content := ConvertContentToString(req.content, marshal);
      if content.Err? {
        return BadRequest(content.error);
      }
      var metadata := ConvertMetadata(req.metadata);
      assert metadata == map k | k in req.metadata :: JString(req.metadata[k]);
      var doc := Document(content.value, metadata);
      var docID, err := agentManager.vectorStore.AddDocuments([doc], None);
      if err.Some? {
        return InternalError("Failed to add document");
      }
      if |docID| == 0 {
        return IndexPanic;
      }
      reply := Success(map["doc_id" := docID[0]]);
    }

    /**
      ImportMemoryHandler: validate the request, read the dataset (`file`
      is what opening and decoding file_path gave), keep the records with a
      summary, and add them for the user in the organisation's namespace.
     */
    method ImportMemoryHandler(request: Option<ImportRequest>, file: FileLoad<seq<Record>>) returns (reply: Reply)
      modifies agentManager.vectorStore
      ensures agentManager.vectorStore.searches == old(agentManager.vectorStore.searches)
      ensures (request.None? || !ImportRequestComplete(request.value)) ==>
        reply == BadRequest(ImportRejected) && agentManager.vectorStore.adds == old(agentManager.vectorStore.adds)
      ensures request.Some? && ImportRequestComplete(request.value) && file.OpenFailed? ==>
        reply == InternalError("Failed to open the file.")
        && agentManager.vectorStore.adds == old(agentManager.vectorStore.adds)
      ensures request.Some? && ImportRequestComplete(request.value) && file.DecodeFailed? ==>
        reply == BadRequest("Invalid JSON file format.")
        && agentManager.vectorStore.adds == old(agentManager.vectorStore.adds)
      ensures request.Some? && ImportRequestComplete(request.value) && file.Loaded? ==>
        var call := AddCall(WithUserID(SummaryDocuments(file.value), request.value.userID), Some(request.value.orgID));
        var start := |old(agentManager.vectorStore.adds)|;
        var k := Attempts(agentManager.vectorStore.addReply, start, call, MaxRetries);
        && agentManager.vectorStore.adds == old(agentManager.vectorStore.adds) + Repeat(call, k)
        && reply == (if agentManager.vectorStore.addReply(start + k - 1, call).err.Some?
                     then InternalError("Failed to add documents to vector store.")
                     else Success(map["message" := "Dataset imported successfully."]))
    {
      if request.None? || !ImportRequestComplete(request.value) {
        return BadRequest(ImportRejected);
      }
      var req := request.value;
      match file
      case OpenFailed(_) =>
        return InternalError("Failed to open the file.");
      case DecodeFailed(_) =>
        return BadRequest("Invalid JSON file format.");
      case Loaded(dataset) =>
        var docs := DatasetDocuments(dataset);
        var batch := new Document[|docs|](i requires 0 <= i < |docs| => docs[i]);
        assert batch[..] == docs;
        var err := agentManager.AddDocuments(batch, req.userID, req.orgID);
        if err.Some? {
          return InternalError("Failed to add documents to vector store.");
        }
        reply := Success(map["message" := "Dataset imported successfully."]);
    }

    /**
      QueryHandler: validate the request and the route parameters, then
      query. Streaming writes each chunk as an event and, only on success,
      the [DONE] sentinel after them; otherwise the response is returned
      under "response". `flushRequested` reports Query's background flush.
     */
    method QueryHandler(request: Option<QueryRequest>, userID: string, orgID: string, threadID: string,
                        stream: ResponseStream, render: map<string, Json> -> string, clock: nat -> string)
      returns (reply: Reply, flushRequested: bool)
      requires agentManager.Valid()
      modifies agentManager, agentManager.vectorStore, agentManager.llmChain, stream
      modifies if threadID in agentManager.agentMemory then {agentManager.agentMemory[threadID]} else {}
      ensures agentManager.Valid()
      ensures request.None? ==>
        && reply == BadRequest("Invalid request payload") && !flushRequested
        && unchanged(agentManager, agentManager.vectorStore, agentManager.llmChain, stream)
        && agentManager.Histories() == old(agentManager.Histories())
      ensures request.Some? && !QueryParamsPresent(threadID, userID, orgID) ==>
        && reply == BadRequest(QueryParamsRejected) && !flushRequested
        && unchanged(agentManager, agentManager.vectorStore, agentManager.llmChain, stream)
        && agentManager.Histories() == old(agentManager.Histories())
      ensures request.Some? && QueryParamsPresent(threadID, userID, orgID) ==>
        var input := request.value.query;
        var o := Plan(agentManager.vectorStore.searchReply, old(|agentManager.vectorStore.searches|),
                      agentManager.llmChain.respond, old(|agentManager.llmChain.prompts|),
                      old(agentManager.Prior(threadID)), orgID, input, render);
        && agentManager.Registered(threadID)
        && agentManager.vectorStore.searches == old(agentManager.vectorStore.searches) + SearchesMade(o, input, orgID)
        && agentManager.vectorStore.adds == old(agentManager.vectorStore.adds)
        && agentManager.llmChain.prompts == old(agentManager.llmChain.prompts) + ChainCalls(o)
        && agentManager.agentMemory[threadID].messages == old(agentManager.Prior(threadID)) +
             (if o.Answered? then [ChatMessage(Human, input), ChatMessage(AI, o.text)] else [])
        && agentManager.messageBuffer == old(agentManager.messageBuffer) +
             (if o.Answered? then TurnDocs(threadID, input, o.text, userID, orgID, clock) else [])
        && flushRequested == (o.Answered? && |agentManager.messageBuffer| >= agentManager.maxBufferMessages)
        && (request.value.stream ==>
              && stream.written == old(stream.written) + Frames(StreamedChunks(o)) +
                   (if o.Answered? then [DoneFrame] else [])
              && reply == (if o.Answered? then Streamed else InternalError(QueryError(o).value)))
        && (!request.value.stream ==>
              && stream.written == old(stream.written)
              && reply == (if o.Answered? then Success(map["response" := o.text])
                           else InternalError(QueryError(o).value)))
    {
      flushRequested := false;
      if request.None? {
        return BadRequest("Invalid request payload"), false;
      }
      var req := request.value;
      if threadID == "" || userID == "" || orgID == "" {
        return BadRequest(QueryParamsRejected), false;
      }
      if req.stream {
        reply, flushRequested := StreamedQuery(userID, orgID, threadID, req.query, stream, render, clock);
      } else {
        reply, flushRequested := BufferedQuery(userID, orgID, threadID, req.query, render, clock);
      }
    }

    /** The streaming branch of QueryHandler: chunks as events, then [DONE] only on success. */
    method StreamedQuery(userID: string, orgID: string, threadID: string, input: string,
                         stream: ResponseStream, render: map<string, Json> -> string, clock: nat -> string)
      returns (reply: Reply, flushRequested: bool)
      requires agentManager.Valid()
      modifies agentManager, agentManager.vectorStore, agentManager.llmChain, stream
      modifies if threadID in agentManager.agentMemory then {agentManager.agentMemory[threadID]} else {}
      ensures agentManager.Valid()
      ensures
        var o := Plan(agentManager.vectorStore.searchReply, old(|agentManager.vectorStore.searches|),
                      agentManager.llmChain.respond, old(|agentManager.llmChain.prompts|),
                      old(agentManager.Prior(threadID)), orgID, input, render);
        && agentManager.Registered(threadID)
        && agentManager.vectorStore.searches == old(agentManager.vectorStore.searches) + SearchesMade(o, input, orgID)
        && agentManager.vectorStore.adds == old(agentManager.vectorStore.adds)
        && agentManager.llmChain.prompts == old(agentManager.llmChain.prompts) + ChainCalls(o)
        && agentManager.agentMemory[threadID].messages == old(agentManager.Prior(threadID)) +
             (if o.Answered? then [ChatMessage(Human, input), ChatMessage(AI, o.text)] else [])
        && agentManager.messageBuffer == old(agentManager.messageBuffer) +
             (if o.Answered? then TurnDocs(threadID, input, o.text, userID, orgID, clock) else [])
        && flushRequested == (o.Answered? && |agentManager.messageBuffer| >= agentManager.maxBufferMessages)
        && stream.written == old(stream.written) + Frames(StreamedChunks(o)) + (if o.Answered? then [DoneFrame] else [])
        && reply == (if o.Answered? then Streamed else InternalError(QueryError(o).value))
    {
      var _, err, flush := agentManager.Query(userID, orgID, threadID, input, stream, render, clock);
      flushRequested := flush;
      if err.Some? {
        return InternalError(err.value), flushRequested;
      }
      stream.WriteDone();
      reply := Streamed;
    }

    /** The non-streaming branch of QueryHandler: the whole response under "response". */
    method BufferedQuery(userID: string, orgID: string, threadID: string, input: string,
                         render: map<string, Json> -> string, clock: nat -> string)
      returns (reply: Reply, flushRequested: bool)
      requires agentManager.Valid()
      modifies agentManager, agentManager.vectorStore, agentManager.llmChain
      modifies if threadID in agentManager.agentMemory then {agentManager.agentMemory[threadID]} else {}
      ensures agentManager.Valid()
      ensures
        var o := Plan(agentManager.vectorStore.searchReply, old(|agentManager.vectorStore.searches|),
                      agentManager.llmChain.respond, old(|agentManager.llmChain.prompts|),
                      old(agentManager.Prior(threadID)), orgID, input, render);
        && agentManager.Registered(threadID)
        && agentManager.vectorStore.searches == old(agentManager.vectorStore.searches) + SearchesMade(o, input, orgID)
        && agentManager.vectorStore.adds == old(agentManager.vectorStore.adds)
        && agentManager.llmChain.prompts == old(agentManager.llmChain.prompts) + ChainCalls(o)
        && agentManager.agentMemory[threadID].messages == old(agentManager.Prior(threadID)) +
             (if o.Answered? then [ChatMessage(Human, input), ChatMessage(AI, o.text)] else [])
        && agentManager.messageBuffer == old(agentManager.messageBuffer) +
             (if o.Answered? then TurnDocs(threadID, input, o.text, userID, orgID, clock) else [])
        && flushRequested == (o.Answered? && |agentManager.messageBuffer| >= agentManager.maxBufferMessages)
        && reply == (if o.Answered? then Success(map["response" := o.text]) else InternalError(QueryError(o).value))
    {
      var response, err, flush := agentManager.Query(userID, orgID, threadID, input, null, render, clock);
      flushRequested := flush;
      if err.Some? {
        return InternalError(err.value), flushRequested;
      }
      reply := Success(map["response" := response]);
    }
  }
}
