/**
  The foreign services the agent core calls, as oracles: the Weaviate vector
  store and the langchaingo LLM chain. Each logs the calls it receives and
  answers with a fixed function of the call's position in the log and its
  arguments, so a caller's contract can say which calls it made and what it
  was told.
 */
module Services {
  import opened Wrappers
  import opened Documents
  import opened Memory

  /** SimilaritySearch(query, k, WithNameSpace(ns)); None is the default namespace. */
  datatype SearchCall = SearchCall(query: string, k: int, namespace: Option<string>)
  datatype SearchReply = SearchReply(docs: seq<Document>, err: Option<string>)

  /** AddDocuments(docs, WithNameSpace(ns)); None means no namespace option. */
  datatype AddCall = AddCall(docs: seq<Document>, namespace: Option<string>)
  datatype AddReply = AddReply(ids: seq<string>, err: Option<string>)

  class VectorStore {
    const searchReply: (nat, SearchCall) -> SearchReply
    const addReply: (nat, AddCall) -> AddReply
    var searches: seq<SearchCall>
    var adds: seq<AddCall>

    constructor (searchReply: (nat, SearchCall) -> SearchReply, addReply: (nat, AddCall) -> AddReply)
      ensures this.searchReply == searchReply && this.addReply == addReply
      ensures searches == [] && adds == []
    {
      this.searchReply := searchReply;
      this.addReply := addReply;
      searches, adds := [], [];
    }

    method SimilaritySearch(query: string, k: int, namespace: Option<string>) returns (docs: seq<Document>, err: Option<string>)
      modifies this
      ensures searches == old(searches) + [SearchCall(query, k, namespace)] && adds == old(adds)
      ensures SearchReply(docs, err) == searchReply(|old(searches)|, SearchCall(query, k, namespace))
    {
      var reply := searchReply(|searches|, SearchCall(query, k, namespace));
      searches := searches + [SearchCall(query, k, namespace)];
      docs, err := reply.docs, reply.err;
    }

    method AddDocuments(docs: seq<Document>, namespace: Option<string>) returns (ids: seq<string>, err: Option<string>)
      modifies this
      ensures adds == old(adds) + [AddCall(docs, namespace)] && searches == old(searches)
      ensures AddReply(ids, err) == addReply(|old(adds)|, AddCall(docs, namespace))
    {
      var reply := addReply(|adds|, AddCall(docs, namespace));
      adds := adds + [AddCall(docs, namespace)];
      ids, err := reply.ids, reply.err;
    }
  }

  /**
    What chains.Call does with one context: the chunks it streams, in order,
    then the chain's "text" output or its error.
   */
  datatype Generation = Generation(chunks: seq<string>, text: Result<string>)

  /** The LLM chain, with the shared conversation buffer it was built with. */
  class LlmChain {
    const memory: ConversationBuffer
    const respond: (nat, string) -> Generation
    var prompts: seq<string>

    constructor (memory: ConversationBuffer, respond: (nat, string) -> Generation)
      ensures this.memory == memory && this.respond == respond && prompts == []
    {
      this.memory := memory;
      this.respond := respond;
      prompts := [];
    }

    method Call(context: string) returns (g: Generation)
      modifies this
      ensures prompts == old(prompts) + [context]
      ensures g == respond(|old(prompts)|, context)
    {
      g := respond(|prompts|, context);
      prompts := prompts + [context];
    }
  }
}
