/**
  The AgentManager of internal/agents: its state (the per-thread memory
  registry and the conversation write buffer), its construction, and the
  operations of agent_utils.go and agent_query.go that change that state.
 */
module Agents {
  import opened Wrappers
  import opened GoStrings
  import opened Chunker
  import opened Documents
  import opened Memory
  import opened Services
  import opened ServerSentEvents
  import opened QueryContext

  /** Words per stored conversation chunk (addToBuffer). */
  const ChunkWords: int := 300
  /** Store attempts made by AddDocuments. */
  const MaxRetries: nat := 3
  /** Documents asked of each similarity search in Query. */
  const TopK: int := 5

  /** The initialisation steps of NewAgentManager, in the order they run. */
  datatype Initializer = InitLLM | InitEmbedder | InitVectorStore | InitMemory | InitChain

  /** The memory key of a thread's conversation buffer. */
  function ThreadMemoryKey(threadID: string): string {
    "thread:" + threadID
  }

  // ---------------------------------------------------------------------------
  // The write buffer's documents and the batch a flush writes

  /** The metadata addToBuffer attaches to each chunk of a turn. */
  function ConversationMetadata(threadID: string, userID: string, orgID: string, timestamp: string): map<string, Json> {
    map["thread_id" := JString(threadID), "user_id" := JString(userID), "org_id" := JString(orgID),
        "timestamp" := JString(timestamp), "source" := JString("conversation")]
  }

  /** One document per chunk; `clock(i)` is the RFC 3339 time read for the i-th chunk. */
  function ConversationDocs(chunks: seq<string>, threadID: string, userID: string, orgID: string,
                            clock: nat -> string): seq<Document>
  {
    seq(|chunks|, i requires 0 <= i < |chunks| =>
      Document(chunks[i], ConversationMetadata(threadID, userID, orgID, clock(i))))
  }

  /** The documents addToBuffer appends for one exchange. */
  function TurnDocs(threadID: string, input: string, response: string, userID: string, orgID: string,
                    clock: nat -> string): seq<Document>
  {
    ConversationDocs(Chunks(input + "\n" + response, ChunkWords), threadID, userID, orgID, clock)
  }

  function PageContents(docs: seq<Document>): seq<string> {
    seq(|docs|, i requires 0 <= i < |docs| => docs[i].pageContent)
  }

  /** A document whose metadata holds a string org_id, the one a flush can use as namespace. */
  predicate OrgTagged(d: Document) {
    "org_id" in d.metadata && d.metadata["org_id"].JString?
  }

  /**
    The bookkeeping of one turn: its chunks rejoin to the words of
    input + "\n" + response, each holds 1 to ChunkWords words, and each is
    tagged with the turn's thread, user and organisation as strings.
   */
  lemma TurnDocsShape(threadID: string, input: string, response: string, userID: string, orgID: string,
                      clock: nat -> string)
    ensures var docs := TurnDocs(threadID, input, response, userID, orgID, clock);
      && Join(PageContents(docs), " ") == Join(Fields(input + "\n" + response), " ")
      && (docs == [] <==> Fields(input + "\n" + response) == [])
      && forall i :: 0 <= i < |docs| ==>
           && 1 <= |Fields(docs[i].pageContent)| <= ChunkWords
           && OrgTagged(docs[i])
           && docs[i].metadata["org_id"] == JString(orgID)
           && "thread_id" in docs[i].metadata && docs[i].metadata["thread_id"] == JString(threadID)
           && "user_id" in docs[i].metadata && docs[i].metadata["user_id"] == JString(userID)
           && "source" in docs[i].metadata && docs[i].metadata["source"] == JString("conversation")
  {
    var content := input + "\n" + response;
    var chunks := Chunks(content, ChunkWords);
    var docs := TurnDocs(threadID, input, response, userID, orgID, clock);
    assert PageContents(docs) == chunks;
    ChunksRejoin(content, ChunkWords);
    ChunksEmptyIffBlank(content, ChunkWords);
    ChunkWordCounts(content, ChunkWords);
    ConversationDocsTagged(chunks, threadID, userID, orgID, clock);
  }

  lemma ConversationDocsTagged(chunks: seq<string>, threadID: string, userID: string, orgID: string,
                               clock: nat -> string)
    ensures var docs := ConversationDocs(chunks, threadID, userID, orgID, clock);
      forall i :: 0 <= i < |docs| ==>
        && docs[i].pageContent == chunks[i]
        && OrgTagged(docs[i])
        && docs[i].metadata["org_id"] == JString(orgID)
        && "thread_id" in docs[i].metadata && docs[i].metadata["thread_id"] == JString(threadID)
        && "user_id" in docs[i].metadata && docs[i].metadata["user_id"] == JString(userID)
        && "source" in docs[i].metadata && docs[i].metadata["source"] == JString("conversation")
  {
    var docs := ConversationDocs(chunks, threadID, userID, orgID, clock);
    forall i | 0 <= i < |docs|
      ensures docs[i].metadata == ConversationMetadata(threadID, userID, orgID, clock(i))
    {
    }
  }

  /**
    The AddDocuments call flushBufferToWeaviate makes for a batch, if any:
    none for an empty batch or when the first unique document has no string
    org_id, otherwise the deduplicated batch in that namespace.
   */
  function FlushWrite(batch: seq<Document>): Option<AddCall> {
    if |batch| == 0 then None
    else
      var unique := Dedup(batch);
      if |unique| > 0 then
        if "org_id" in unique[0].metadata && unique[0].metadata["org_id"].JString? then
          Some(AddCall(unique, Some(unique[0].metadata["org_id"].s)))
        else None
      else None
  }

  /** A flush writes exactly when the batch is non-empty and its first document is org-tagged. */
  lemma FlushWriteCases(batch: seq<Document>)
    ensures FlushWrite(batch).Some? <==> batch != [] && OrgTagged(batch[0])
    ensures FlushWrite(batch).Some? ==>
      FlushWrite(batch).value == AddCall(Dedup(batch), Some(batch[0].metadata["org_id"].s))
  {
    if batch != [] {
      DedupHead(batch);
    }
  }

  /** A buffer filled only by conversation turns is always written when flushed. */
  lemma TaggedBatchIsWritten(batch: seq<Document>)
    requires batch != []
    requires forall i :: 0 <= i < |batch| ==> OrgTagged(batch[i])
    ensures OrgTagged(batch[0])
    ensures FlushWrite(batch) == Some(AddCall(Dedup(batch), Some(batch[0].metadata["org_id"].s)))
    ensures DistinctContents(FlushWrite(batch).value.docs)
    ensures Contents(FlushWrite(batch).value.docs) == Contents(batch)
  {
    FlushWriteCases(batch);
    DedupDistinct(batch);
    DedupContents(batch);
  }

  // ---------------------------------------------------------------------------
  // AddDocuments: user tagging and the retry loop

  /** Every document with metadata["user_id"] set to the caller's user. */
  function WithUserID(docs: seq<Document>, userID: string): (r: seq<Document>)
    ensures |r| == |docs|
    ensures forall i :: 0 <= i < |r| ==>
      && r[i].pageContent == docs[i].pageContent
      && r[i].metadata.Keys == docs[i].metadata.Keys + {"user_id"}
      && r[i].metadata["user_id"] == JString(userID)
      && forall k :: k in docs[i].metadata && k != "user_id" ==> r[i].metadata[k] == docs[i].metadata[k]
  {
    seq(|docs|, i requires 0 <= i < |docs| =>
      docs[i].(metadata := docs[i].metadata["user_id" := JString(userID)]))
  }

  function Repeat<T>(x: T, n: nat): (r: seq<T>)
    ensures |r| == n && forall i :: 0 <= i < n ==> r[i] == x
  {
    seq(n, _ => x)
  }

  /** The store's answer at `position` of its log is an error. */
  predicate Failed(reply: (nat, AddCall) -> AddReply, position: nat, call: AddCall) {
    reply(position, call).err.Some?
  }

  /**
    How many times a retry loop of at most `limit` attempts calls the store,
    whose answers start at position `start` of its log: up to and including
    the first success, or all `limit` attempts when every one fails.
   */
  function Attempts(reply: (nat, AddCall) -> AddReply, start: nat, call: AddCall, limit: nat): (k: nat)
    requires limit >= 1
    ensures 1 <= k <= limit
    ensures forall j :: start <= j < start + k - 1 ==> Failed(reply, j, call)
    ensures k < limit ==> !Failed(reply, start + k - 1, call)
    decreases limit
  {
    if limit == 1 || reply(start, call).err.None? then 1
    else 1 + Attempts(reply, start + 1, call, limit - 1)
  }

  /** Attempts is pinned down by its contract: the first success, if any within the limit. */
  lemma {:induction false} AttemptsAt(reply: (nat, AddCall) -> AddReply, start: nat, call: AddCall, limit: nat, k: nat)
    requires 1 <= k <= limit
    requires forall j :: start <= j < start + k - 1 ==> Failed(reply, j, call)
    requires k < limit ==> !Failed(reply, start + k - 1, call)
    ensures Attempts(reply, start, call, limit) == k
    decreases limit
  {
    if limit > 1 && Failed(reply, start, call) && k > 1 {
      AttemptsAt(reply, start + 1, call, limit - 1, k - 1);
    }
  }

  /** The error AddDocuments returns after the last attempt's answer. */
  function RetryError(last: Option<string>): Option<string> {
    match last
    case None => None
    case Some(e) => Some("failed to add documents to vector store: " + e)
  }

  // ---------------------------------------------------------------------------
  // Query: what the two searches and the chain decide

  /** What the two searches of Query yield. */
  datatype Retrieval =
    | TenantFailed(tenantError: string)
    | DefaultFailed(defaultError: string)
    | Retrieved(docs: seq<Document>)

  /**
    The tenant search (organisation namespace) answered at position n of the
    store's log, then the default search at n + 1; each tolerates
    "empty response", and the results are merged tenant first.
   */
  function Retrieve(searchReply: (nat, SearchCall) -> SearchReply, n: nat, input: string, orgID: string): Retrieval {
    var tenant := searchReply(n, SearchCall(input, TopK, Some(orgID)));
    if !Tolerated(tenant.err) then TenantFailed(tenant.err.value)
    else
      var fallback := searchReply(n + 1, SearchCall(input, TopK, None));
      if !Tolerated(fallback.err) then DefaultFailed(fallback.err.value)
      else Retrieved(tenant.docs + fallback.docs)
  }

  /** The searches run: the tenant one always, the default one unless the first failed. */
  function SearchesRun(tenantFailed: bool, input: string, orgID: string): seq<SearchCall> {
    if tenantFailed then [SearchCall(input, TopK, Some(orgID))]
    else [SearchCall(input, TopK, Some(orgID)), SearchCall(input, TopK, None)]
  }

  /**
    The searches of Query: both always run on a tolerated tenant reply, and
    a retrieval lists every tenant document, in order, before every default one.
   */
  lemma RetrieveCases(searchReply: (nat, SearchCall) -> SearchReply, n: nat, input: string, orgID: string)
    ensures var tenant := searchReply(n, SearchCall(input, TopK, Some(orgID)));
      var fallback := searchReply(n + 1, SearchCall(input, TopK, None));
      var r := Retrieve(searchReply, n, input, orgID);
      && (r.TenantFailed? <==> tenant.err.Some? && tenant.err.value != EmptyResponse)
      && (r.DefaultFailed? <==> Tolerated(tenant.err) && fallback.err.Some? && fallback.err.value != EmptyResponse)
      && (r.Retrieved? ==>
            && |r.docs| == |tenant.docs| + |fallback.docs|
            && r.docs[..|tenant.docs|] == tenant.docs
            && r.docs[|tenant.docs|..] == fallback.docs)
  {
  }

  /** The "context" input of the chain, built as Query builds it. */
  method BuildContext(history: seq<ChatMessage>, docs: seq<Document>, input: string,
                      render: map<string, Json> -> string) returns (context: string)
    ensures context == LlmContext(history, docs, input, render)
  {
    var docContext := BuildDocContext(docs, render);
    var formatted := FormatMessages(history);
    context := "History:\n" + Render(formatted) + "\n\nRelevant Documents:\n" + docContext
      + "\n\nUser Input:\n" + input;
  }

  /** chains.Call with the streaming function: every chunk goes to the callback, when there is one. */
  method CallStreaming(chain: LlmChain, context: string, callback: ResponseStream?) returns (g: Generation)
    modifies chain, callback
    ensures chain.prompts == old(chain.prompts) + [context]
    ensures g == chain.respond(|old(chain.prompts)|, context)
    ensures callback != null ==> callback.written == old(callback.written) + Frames(g.chunks)
  {
    g := chain.Call(context);
    ForwardChunks(g.chunks, callback);
  }

  /** How a query ends, with what the chain saw and streamed when it was reached. */
  datatype Outcome =
    | TenantSearchFailed(searchError: string)
    | DefaultSearchFailed(searchError: string)
    | ChainFailed(context: string, chunks: seq<string>, chainError: string)
    | Answered(context: string, chunks: seq<string>, text: string)

  /** The error Query returns for an outcome. */
  function QueryError(o: Outcome): Option<string> {
    match o
    case TenantSearchFailed(e) => Some("org similarity search failed: " + e)
    case DefaultSearchFailed(e) => Some("default similarity search failed: " + e)
    case ChainFailed(_, _, e) => Some("failed to execute LLMChain: " + e)
    case Answered(_, _, _) => None
  }

  function SearchesMade(o: Outcome, input: string, orgID: string): seq<SearchCall> {
    SearchesRun(o.TenantSearchFailed?, input, orgID)
  }

  /** The chain is called, and streams, only once both searches were tolerated. */
  function ChainCalls(o: Outcome): seq<string> {
    if o.ChainFailed? || o.Answered? then [o.context] else []
  }

  function StreamedChunks(o: Outcome): seq<string> {
    if o.ChainFailed? || o.Answered? then o.chunks else []
  }

  /**
    What Query does, given the store's answers from position `searched` of
    its log, the chain's answers from position `prompted` of its log, and the
    thread's history: the two searches, then the chain on the context built
    from the history and the tenant results followed by the default ones.
   */
  function Plan(searchReply: (nat, SearchCall) -> SearchReply, searched: nat,
                respond: (nat, string) -> Generation, prompted: nat,
                history: seq<ChatMessage>, orgID: string, input: string,
                render: map<string, Json> -> string): Outcome
  {
    match Retrieve(searchReply, searched, input, orgID)
    case TenantFailed(e) => TenantSearchFailed(e)
    case DefaultFailed(e) => DefaultSearchFailed(e)
    case Retrieved(docs) => Converse(respond, prompted, history, docs, input, render)
  }

  /** The chain's part of Plan: its answer at position `prompted` to the context. */
  function Converse(respond: (nat, string) -> Generation, prompted: nat, history: seq<ChatMessage>,
                    docs: seq<Document>, input: string, render: map<string, Json> -> string): Outcome
  {
    var context := LlmContext(history, docs, input, render);
    var g := respond(prompted, context);
    match g.text
    case Err(e) => ChainFailed(context, g.chunks, e)
    case Ok(text) => Answered(context, g.chunks, text)
  }

  /**
    Plan against the replies it reads: the tenant search decides first, the
    default search next, and the chain is called once, on the context built
    from the history and the merged results, only when both were tolerated.
   */
  lemma PlanCases(searchReply: (nat, SearchCall) -> SearchReply, searched: nat,
                  respond: (nat, string) -> Generation, prompted: nat,
                  history: seq<ChatMessage>, orgID: string, input: string,
                  render: map<string, Json> -> string)
    ensures var o := Plan(searchReply, searched, respond, prompted, history, orgID, input, render);
      var tenant := searchReply(searched, SearchCall(input, TopK, Some(orgID)));
      var fallback := searchReply(searched + 1, SearchCall(input, TopK, None));
      var context := LlmContext(history, tenant.docs + fallback.docs, input, render);
      && (o.TenantSearchFailed? <==> !Tolerated(tenant.err))
      && (o.DefaultSearchFailed? <==> Tolerated(tenant.err) && !Tolerated(fallback.err))
      && (ChainCalls(o) != [] <==> Tolerated(tenant.err) && Tolerated(fallback.err))
      && (ChainCalls(o) != [] ==>
            ChainCalls(o) == [context] && StreamedChunks(o) == respond(prompted, context).chunks)
      && (o.Answered? <==>
            Tolerated(tenant.err) && Tolerated(fallback.err) && respond(prompted, context).text.Ok?)
      && (o.Answered? ==> o.text == respond(prompted, context).text.value)
  {
    RetrieveCases(searchReply, searched, input, orgID);
  }

  /** Only a successful query reports no error, and every error names the step that failed. */
  lemma QueryErrorCases(o: Outcome, input: string, orgID: string)
    ensures QueryError(o).None? <==> o.Answered?
    ensures o.TenantSearchFailed? ==>
      SearchesMade(o, input, orgID) == [SearchCall(input, TopK, Some(orgID))] && ChainCalls(o) == []
    ensures !o.TenantSearchFailed? ==>
      SearchesMade(o, input, orgID) == [SearchCall(input, TopK, Some(orgID)), SearchCall(input, TopK, None)]
    ensures o.DefaultSearchFailed? ==> ChainCalls(o) == [] && StreamedChunks(o) == []
    ensures QueryError(o).Some? && o.TenantSearchFailed? ==>
      QueryError(o).value[..30] == "org similarity search failed: "
    ensures QueryError(o).Some? && o.DefaultSearchFailed? ==>
      QueryError(o).value[..34] == "default similarity search failed: "
    ensures QueryError(o).Some? && o.ChainFailed? ==>
      QueryError(o).value[..28] == "failed to execute LLMChain: "
  {
  }

  /** A streaming callback, when there is one, receives every chunk framed, in order. */
  method ForwardChunks(chunks: seq<string>, callback: ResponseStream?)
    modifies callback
    ensures callback != null ==> callback.written == old(callback.written) + Frames(chunks)
  {
    for i := 0 to |chunks|
      invariant callback != null ==> callback.written == old(callback.written) + Frames(chunks[..i])
    {
      if callback != null {
        assert Frames(chunks[..i + 1]) == Frames(chunks[..i]) + [Frame(chunks[i])];
        callback.WriteChunk(chunks[i]);
      }
    }
    assert chunks[..|chunks|] == chunks;
  }

  // ---------------------------------------------------------------------------
  // The manager

  /** The metadata loop of AddDocuments: every document gets the caller's user_id, in place. */
  method TagUserID(docs: array<Document>, userID: string)
    modifies docs
    ensures docs[..] == WithUserID(old(docs[..]), userID)
  {
    ghost var tagged := WithUserID(docs[..], userID);
    for i := 0 to docs.Length
      invariant docs[..i] == tagged[..i]
      invariant docs[i..] == old(docs[i..])
    {
      docs[i] := docs[i].(metadata := docs[i].metadata["user_id" := JString(userID)]);
      assert docs[..i + 1] == tagged[..i + 1];
    }
    assert docs[..] == tagged;
  }

  class AgentManager {
    const vectorStore: VectorStore
    const llmChain: LlmChain
    const weaviateIndex: string
    const maxBufferMessages: int
    var agentMemory: map<string, ConversationBuffer>
    var messageBuffer: seq<Document>

    /**
      Each thread has its own buffer, the chain's shared buffer belongs to no
      thread, and every buffered document carries a string org_id.
     */
    ghost predicate Valid()
      reads this
    {
      && (forall t, u :: t in agentMemory && u in agentMemory && t != u ==> agentMemory[t] != agentMemory[u])
      && llmChain.memory !in agentMemory.Values
      && (forall i :: 0 <= i < |messageBuffer| ==> OrgTagged(messageBuffer[i]))
    }

    /** The history of a thread, empty for a thread not yet registered. */
    function Prior(threadID: string): seq<ChatMessage>
      reads this, agentMemory.Values
    {
      if threadID in agentMemory then agentMemory[threadID].messages else []
    }

    /** Every registered thread's history. */
    function Histories(): map<string, seq<ChatMessage>>
      reads this, agentMemory.Values
    {
      map t | t in agentMemory :: agentMemory[t].messages
    }

    /**
      The thread is registered afterwards; threads registered before keep
      their buffer objects, and a new thread gets a fresh buffer.
     */
    twostate predicate Registered(threadID: string)
      reads this
    {
      && agentMemory.Keys == old(agentMemory.Keys) + {threadID}
      && (forall t :: t in old(agentMemory) ==> agentMemory[t] == old(agentMemory[t]))
      && (threadID !in old(agentMemory) ==>
            fresh(agentMemory[threadID]) && agentMemory[threadID].memoryKey == ThreadMemoryKey(threadID))
    }

    constructor (vectorStore: VectorStore, llmChain: LlmChain, weaviateIndex: string, maxBufferMessages: int)
      ensures this.vectorStore == vectorStore && this.llmChain == llmChain
      ensures this.weaviateIndex == weaviateIndex && this.maxBufferMessages == maxBufferMessages
      ensures agentMemory == map[] && messageBuffer == []
      ensures Valid()
    {
      this.vectorStore := vectorStore;
      this.llmChain := llmChain;
      this.weaviateIndex := weaviateIndex;
      this.maxBufferMessages := maxBufferMessages;
      agentMemory := map[];
      messageBuffer := [];
    }

    /**
      NewAgentManager. The three fallible initialisers are given by their
      outcome (the LLM's answering function, the embedder's error, the
      store); construction stops at the first failure, and `ran` lists the
      initialisers that ran.
     */
    static method New(llm: Result<(nat, string) -> Generation>, embedder: Option<string>,
                      store: Result<VectorStore>, weaviateIndex: string, maxBufferMessages: int)
      returns (am: AgentManager?, err: Option<string>, ran: seq<Initializer>)
      ensures llm.Err? ==>
        am == null && err == Some("failed to initialize OpenAI LLM: " + llm.error) && ran == [InitLLM]
      ensures llm.Ok? && embedder.Some? ==>
        && am == null && err == Some("failed to initialize OpenAI embedder: " + embedder.value)
        && ran == [InitLLM, InitEmbedder]
      ensures llm.Ok? && embedder.None? && store.Err? ==>
        && am == null && err == Some("failed to initialize Weaviate vector store: " + store.error)
        && ran == [InitLLM, InitEmbedder, InitVectorStore]
      ensures llm.Ok? && embedder.None? && store.Ok? ==>
        && err.None? && ran == [InitLLM, InitEmbedder, InitVectorStore, InitMemory, InitChain]
        && am != null && fresh(am) && fresh(am.llmChain) && fresh(am.llmChain.memory)
        && am.vectorStore == store.value && am.weaviateIndex == weaviateIndex
        && am.maxBufferMessages == maxBufferMessages
        && am.agentMemory == map[] && am.messageBuffer == []
        && am.llmChain.respond == llm.value && am.llmChain.prompts == []
        && am.llmChain.memory.memoryKey == "history" && am.llmChain.memory.humanPrefix == "You"
        && am.llmChain.memory.aiPrefix == "StarOps" && am.llmChain.memory.messages == []
        && am.Valid()
    {
      am := null;
      ran := [InitLLM];
      if llm.Err? {
        err := Some("failed to initialize OpenAI LLM: " + llm.error);
        return;
      }
      ran := ran + [InitEmbedder];
      if embedder.Some? {
        err := Some("failed to initialize OpenAI embedder: " + embedder.value);
        return;
      }
      ran := ran + [InitVectorStore];
      if store.Err? {
        err := Some("failed to initialize Weaviate vector store: " + store.error);
        return;
      }
      ran := ran + [InitMemory];
      var memory := new ConversationBuffer("history", "You", "StarOps");
      ran := ran + [InitChain];
      var chain := new LlmChain(memory, llm.value);
      am := new AgentManager(store.value, chain, weaviateIndex, maxBufferMessages);
      err := None;
    }

    /** GetThreadMemory: the thread's buffer, created under key "thread:<id>" on first use. */
    method GetThreadMemory(threadID: string) returns (mem: ConversationBuffer)
      requires Valid()
      modifies this`agentMemory
      ensures Valid() && Registered(threadID)
      ensures mem == agentMemory[threadID]
      ensures threadID in old(agentMemory) ==> agentMemory == old(agentMemory)
      ensures threadID !in old(agentMemory) ==>
        && fresh(mem) && mem.messages == [] && agentMemory == old(agentMemory)[threadID := mem]
      ensures Histories() == old(Histories())[threadID := old(Prior(threadID))]
    {
      if threadID in agentMemory {
        mem := agentMemory[threadID];
        return;
      }
      mem := new ConversationBuffer(ThreadMemoryKey(threadID), "Human", "AI");
      agentMemory := agentMemory[threadID := mem];
    }

    /** RetrieveMemory: the thread's history, formatted. */
    method RetrieveMemory(threadID: string) returns (formatted: seq<map<string, string>>)
      requires Valid()
      modifies this`agentMemory
      ensures Valid() && Registered(threadID)
      ensures Histories() == old(Histories())[threadID := old(Prior(threadID))]
      ensures formatted == Formatted(old(Prior(threadID)))
    {
      var mem := GetThreadMemory(threadID);
      formatted := FormatMessages(mem.messages);
    }

    /**
      addToBuffer: append the turn's chunks, tagged, after the existing
      entries, without deduplicating; ask for a flush when the buffer has
      reached its maximum.
     */
    method AddToBuffer(threadID: string, input: string, response: string, userID: string, orgID: string,
                       clock: nat -> string) returns (flush: bool)
      requires Valid()
      modifies this`messageBuffer
      ensures Valid()
      ensures messageBuffer == old(messageBuffer) + TurnDocs(threadID, input, response, userID, orgID, clock)
      ensures flush <==> |messageBuffer| >= maxBufferMessages
    {
      var chunks := ChunkContent(input + "\n" + response, ChunkWords);
      ghost var docs := TurnDocs(threadID, input, response, userID, orgID, clock);
      for i := 0 to |chunks|
        invariant messageBuffer == old(messageBuffer) + docs[..i]
      {
        var doc := Document(chunks[i], ConversationMetadata(threadID, userID, orgID, clock(i)));
        assert doc == docs[i];
        assert docs[..i + 1] == docs[..i] + [doc];
        messageBuffer := messageBuffer + [doc];
      }
      assert docs[..|chunks|] == docs;
      forall j | 0 <= j < |docs| ensures OrgTagged(docs[j]) {
        assert docs[j].metadata == ConversationMetadata(threadID, userID, orgID, clock(j));
      }
      flush := |messageBuffer| >= maxBufferMessages;
    }

    /**
      flushBufferToWeaviate: take the whole buffer, leaving it empty, and
      write its deduplicated documents in the namespace of the first one's
      org_id; a batch without one, or a store error, is dropped.
     */
    method FlushBuffer()
      requires Valid()
      modifies this`messageBuffer, vectorStore
      ensures Valid() && messageBuffer == []
      ensures vectorStore.searches == old(vectorStore.searches)
      ensures vectorStore.adds == old(vectorStore.adds) +
        (match FlushWrite(old(messageBuffer)) case None => [] case Some(call) => [call])
    {
      var buffer := messageBuffer;
      messageBuffer := [];
      if |buffer| == 0 {
        return;
      }
      var uniqueDocs := DeduplicateDocuments(buffer);
      if |uniqueDocs| > 0 {
        var md := uniqueDocs[0].metadata;
        if !("org_id" in md && md["org_id"].JString?) {
          return;
        }
        var namespace := md["org_id"].s;
        var _, err := vectorStore.AddDocuments(uniqueDocs, Some(namespace));
        if err.Some? {
          return;
        }
      }
    }

    /**
      SyncMemory: write the whole buffer, as it is and without a namespace;
      keep it on error, empty it on success. An empty buffer makes no call.
     */
    method SyncMemory() returns (err: Option<string>)
      requires Valid()
      modifies this`messageBuffer, vectorStore
      ensures Valid()
      ensures vectorStore.searches == old(vectorStore.searches)
      ensures old(messageBuffer) == [] ==>
        err.None? && messageBuffer == [] && vectorStore.adds == old(vectorStore.adds)
      ensures old(messageBuffer) != [] ==>
        && vectorStore.adds == old(vectorStore.adds) + [AddCall(old(messageBuffer), None)]
        && err == vectorStore.addReply(|old(vectorStore.adds)|, AddCall(old(messageBuffer), None)).err
        && messageBuffer == (if err.Some? then old(messageBuffer) else [])
    {
      if |messageBuffer| == 0 {
        return None;
      }
      var _, e := vectorStore.AddDocuments(messageBuffer, None);
      if e.Some? {
        return e;
      }
      messageBuffer := [];
      err := None;
    }

    /**
      AddDocuments: tag every document with the user in place, then try the
      store in the organisation's namespace at most MaxRetries times,
      stopping at the first success; after the last failure, wrap its error.
     */
    method AddDocuments(docs: array<Document>, userID: string, orgID: string) returns (err: Option<string>)
      modifies docs, vectorStore
      ensures docs[..] == WithUserID(old(docs[..]), userID)
      ensures vectorStore.searches == old(vectorStore.searches)
      ensures var call := AddCall(docs[..], Some(orgID));
        var start := |old(vectorStore.adds)|;
        var k := Attempts(vectorStore.addReply, start, call, MaxRetries);
        && vectorStore.adds == old(vectorStore.adds) + Repeat(call, k)
        && err == RetryError(vectorStore.addReply(start + k - 1, call).err)
    {
      TagUserID(docs, userID);
      err := AddWithRetry(docs[..], orgID);
    }

    /** The retry loop of AddDocuments: up to MaxRetries identical calls, stopping at the first success. */
    method AddWithRetry(batch: seq<Document>, orgID: string) returns (err: Option<string>)
      modifies vectorStore
      ensures vectorStore.searches == old(vectorStore.searches)
      ensures var call := AddCall(batch, Some(orgID));
        var start := |old(vectorStore.adds)|;
        var k := Attempts(vectorStore.addReply, start, call, MaxRetries);
        && vectorStore.adds == old(vectorStore.adds) + Repeat(call, k)
        && err == RetryError(vectorStore.addReply(start + k - 1, call).err)
    {
      ghost var call := AddCall(batch, Some(orgID));
      ghost var start := |vectorStore.adds|;
      ghost var reply := vectorStore.addReply;
      var last: Option<string> := None;
      var attempt := 1;
      while attempt <= MaxRetries
        invariant 1 <= attempt <= MaxRetries + 1
        invariant vectorStore.addReply == reply
        invariant vectorStore.searches == old(vectorStore.searches)
        invariant vectorStore.adds == old(vectorStore.adds) + Repeat(call, attempt - 1)
        invariant forall j :: start <= j < start + attempt - 1 ==> Failed(reply, j, call)
        invariant attempt > 1 ==> last == reply(start + attempt - 2, call).err
      {
        var _, e := vectorStore.AddDocuments(batch, Some(orgID));
        assert Repeat(call, attempt) == Repeat(call, attempt - 1) + [call];
        if e.None? {
          AttemptsAt(reply, start, call, MaxRetries, attempt);
          return None;
        }
        last := e;
        attempt := attempt + 1;
      }
      AttemptsAt(reply, start, call, MaxRetries, MaxRetries);
      err := RetryError(last);
    }

    /**
      AddDataset: a file that cannot be opened or decoded changes nothing;
      otherwise each document's content is added to the thread's history
      as an AI message, in order.
     */
    method AddDataset(threadID: string, file: FileLoad<seq<Document>>) returns (err: Option<string>)
      requires Valid()
      modifies this`agentMemory
      modifies if threadID in agentMemory then {agentMemory[threadID]} else {}
      ensures Valid()
      ensures file.OpenFailed? ==>
        err == Some("failed to open file: " + file.openError) && agentMemory == old(agentMemory)
        && Prior(threadID) == old(Prior(threadID))
      ensures file.DecodeFailed? ==>
        err == Some("failed to parse JSON dataset: " + file.decodeError) && agentMemory == old(agentMemory)
        && Prior(threadID) == old(Prior(threadID))
      ensures file.Loaded? ==>
        && err.None? && Registered(threadID)
        && agentMemory[threadID].messages == old(Prior(threadID)) + AIMessages(file.value)
    {
      match file
      case OpenFailed(e) =>
        return Some("failed to open file: " + e);
      case DecodeFailed(e) =>
        return Some("failed to parse JSON dataset: " + e);
      case Loaded(documents) =>
        var mem := GetThreadMemory(threadID);
        ghost var registered := agentMemory;
        ghost var prior := mem.messages;
        for i := 0 to |documents|
          invariant agentMemory == registered
          invariant mem.messages == prior + AIMessages(documents[..i])
        {
          assert AIMessages(documents[..i + 1]) == AIMessages(documents[..i]) + [ChatMessage(AI, documents[i].pageContent)];
          mem.AddAIMessage(documents[i].pageContent);
        }
        assert documents[..|documents|] == documents;
        err := None;
    }

    /** The two similarity searches of Query. */
    method SearchBoth(input: string, orgID: string) returns (r: Retrieval)
      modifies vectorStore
      ensures r == Retrieve(vectorStore.searchReply, |old(vectorStore.searches)|, input, orgID)
      ensures vectorStore.searches == old(vectorStore.searches) + SearchesRun(r.TenantFailed?, input, orgID)
      ensures vectorStore.adds == old(vectorStore.adds)
    {
      var orgDocs, orgErr := vectorStore.SimilaritySearch(input, TopK, Some(orgID));
      if !Tolerated(orgErr) {
        return TenantFailed(orgErr.value);
      }
      var defaultDocs, defaultErr := vectorStore.SimilaritySearch(input, TopK, None);
      if !Tolerated(defaultErr) {
        return DefaultFailed(defaultErr.value);
      }
      r := Retrieved(orgDocs + defaultDocs);
    }

    /**
      The success tail of Query: the exchange is saved in the thread's
      memory, then the turn goes to the write buffer.
     */
    method RecordTurn(threadMemory: ConversationBuffer, threadID: string, input: string, response: string,
                      userID: string, orgID: string, clock: nat -> string) returns (flush: bool)
      requires Valid() && threadID in agentMemory && agentMemory[threadID] == threadMemory
      modifies this`messageBuffer, threadMemory
      ensures Valid()
      ensures threadMemory.messages == old(threadMemory.messages) + [ChatMessage(Human, input), ChatMessage(AI, response)]
      ensures messageBuffer == old(messageBuffer) + TurnDocs(threadID, input, response, userID, orgID, clock)
      ensures flush <==> |messageBuffer| >= maxBufferMessages
    {
      threadMemory.SaveContext(input, response);
      flush := AddToBuffer(threadID, input, response, userID, orgID, clock);
    }

    /**
      Query once the thread's buffer is at hand. Only an answered query
      changes memory and buffer: the thread's history gains the exchange and
      the buffer the turn's chunks.
     */
    method Respond(threadMemory: ConversationBuffer, userID: string, orgID: string, threadID: string, input: string,
                   chunkCallback: ResponseStream?, render: map<string, Json> -> string, clock: nat -> string)
      returns (response: string, err: Option<string>, flushRequested: bool)
      requires Valid() && threadID in agentMemory && agentMemory[threadID] == threadMemory
      modifies this`messageBuffer, vectorStore, llmChain, chunkCallback, threadMemory
      ensures Valid()
      ensures var o := Plan(vectorStore.searchReply, old(|vectorStore.searches|), llmChain.respond,
                            old(|llmChain.prompts|), old(threadMemory.messages), orgID, input, render);
        && err == QueryError(o)
        && response == (if o.Answered? then o.text else "")
        && vectorStore.searches == old(vectorStore.searches) + SearchesMade(o, input, orgID)
        && vectorStore.adds == old(vectorStore.adds)
        && llmChain.prompts == old(llmChain.prompts) + ChainCalls(o)
        && (chunkCallback != null ==> chunkCallback.written == old(chunkCallback.written) + Frames(StreamedChunks(o)))
        && threadMemory.messages == old(threadMemory.messages) +
             (if o.Answered? then [ChatMessage(Human, input), ChatMessage(AI, o.text)] else [])
        && messageBuffer == old(messageBuffer) +
             (if o.Answered? then TurnDocs(threadID, input, o.text, userID, orgID, clock) else [])
        && flushRequested == (o.Answered? && |messageBuffer| >= maxBufferMessages)
    {
      ghost var o := Plan(vectorStore.searchReply, |vectorStore.searches|, llmChain.respond,
                          |llmChain.prompts|, threadMemory.messages, orgID, input, render);
      ghost var prior := threadMemory.messages;
      assert prior + [] == prior;
      response, flushRequested := "", false;

      var retrieval := SearchBoth(input, orgID);
      if retrieval.TenantFailed? {
        assert o == TenantSearchFailed(retrieval.tenantError);
        return "", Some("org similarity search failed: " + retrieval.tenantError), false;
      }
      if retrieval.DefaultFailed? {
        assert o == DefaultSearchFailed(retrieval.defaultError);
        return "", Some("default similarity search failed: " + retrieval.defaultError), false;
      }
      assert o == Converse(llmChain.respond, |llmChain.prompts|, prior, retrieval.docs, input, render);
      response, err, flushRequested := Answer(threadMemory, userID, orgID, threadID, input, retrieval.docs,
                                              chunkCallback, render, clock);
    }

    /** The chain step of Query, on the merged search results. */
    method Answer(threadMemory: ConversationBuffer, userID: string, orgID: string, threadID: string, input: string,
                  docs: seq<Document>, chunkCallback: ResponseStream?, render: map<string, Json> -> string,
                  clock: nat -> string)
      returns (response: string, err: Option<string>, flushRequested: bool)
      requires Valid() && threadID in agentMemory && agentMemory[threadID] == threadMemory
      modifies this`messageBuffer, llmChain, chunkCallback, threadMemory
      ensures Valid()
      ensures var o := Converse(llmChain.respond, old(|llmChain.prompts|), old(threadMemory.messages), docs, input, render);
        && err == QueryError(o)
        && response == (if o.Answered? then o.text else "")
        && llmChain.prompts == old(llmChain.prompts) + ChainCalls(o)
        && (chunkCallback != null ==> chunkCallback.written == old(chunkCallback.written) + Frames(StreamedChunks(o)))
        && threadMemory.messages == old(threadMemory.messages) +
             (if o.Answered? then [ChatMessage(Human, input), ChatMessage(AI, o.text)] else [])
        && messageBuffer == old(messageBuffer) +
             (if o.Answered? then TurnDocs(threadID, input, o.text, userID, orgID, clock) else [])
        && flushRequested == (o.Answered? && |messageBuffer| >= maxBufferMessages)
    {
      ghost var prior := threadMemory.messages;
      assert prior + [] == prior;
      var context := BuildContext(threadMemory.messages, docs, input, render);
      var g := CallStreaming(llmChain, context, chunkCallback);
      if g.text.Err? {
        return "", Some("failed to execute LLMChain: " + g.text.error), false;
      }
      var fullResponse := g.text.value;
      flushRequested := RecordTurn(threadMemory, threadID, input, fullResponse, userID, orgID, clock);
      response, err := fullResponse, None;
    }

    /**
      Query. The thread is registered first, whatever happens next; then
      Respond. Only the thread's own buffer may change, and the flag says
      whether the background flush was started.
     */
    method Query(userID: string, orgID: string, threadID: string, input: string,
                 chunkCallback: ResponseStream?, render: map<string, Json> -> string, clock: nat -> string)
      returns (response: string, err: Option<string>, flushRequested: bool)
      requires Valid()
      modifies this, vectorStore, llmChain, chunkCallback
      modifies if threadID in agentMemory then {agentMemory[threadID]} else {}
      ensures Valid() && Registered(threadID)
      ensures var o := Plan(vectorStore.searchReply, old(|vectorStore.searches|), llmChain.respond,
                            old(|llmChain.prompts|), old(Prior(threadID)), orgID, input, render);
        && err == QueryError(o)
        && response == (if o.Answered? then o.text else "")
        && vectorStore.searches == old(vectorStore.searches) + SearchesMade(o, input, orgID)
        && vectorStore.adds == old(vectorStore.adds)
        && llmChain.prompts == old(llmChain.prompts) + ChainCalls(o)
        && (chunkCallback != null ==> chunkCallback.written == old(chunkCallback.written) + Frames(StreamedChunks(o)))
        && agentMemory[threadID].messages == old(Prior(threadID)) +
             (if o.Answered? then [ChatMessage(Human, input), ChatMessage(AI, o.text)] else [])
        && messageBuffer == old(messageBuffer) +
             (if o.Answered? then TurnDocs(threadID, input, o.text, userID, orgID, clock) else [])
        && flushRequested == (o.Answered? && |messageBuffer| >= maxBufferMessages)
    {
      var threadMemory := GetThreadMemory(threadID);
      response, err, flushRequested := Respond(threadMemory, userID, orgID, threadID, input, chunkCallback, render, clock);
    }
  }

  /** The AI messages AddDataset appends, one per document. */
  function AIMessages(docs: seq<Document>): seq<ChatMessage> {
    seq(|docs|, i requires 0 <= i < |docs| => ChatMessage(AI, docs[i].pageContent))
  }
}
