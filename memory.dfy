/**
  Per-thread conversation history (a langchaingo ConversationBuffer over an
  in-memory chat history) and formatMessages from internal/agents/agent_utils.go.
 */
module Memory {
  import opened GoStrings

  /** langchaingo's chat message types. */
  datatype MessageType = AI | Human | System | Generic | Function | Tool

  datatype ChatMessage = ChatMessage(kind: MessageType, content: string)

  /** A conversation buffer: its configuration and the messages of its chat history. */
  class ConversationBuffer {
    const memoryKey: string
    const humanPrefix: string
    const aiPrefix: string
    var messages: seq<ChatMessage>

    constructor (memoryKey: string, humanPrefix: string, aiPrefix: string)
      ensures this.memoryKey == memoryKey && this.humanPrefix == humanPrefix && this.aiPrefix == aiPrefix
      ensures messages == []
    {
      this.memoryKey := memoryKey;
      this.humanPrefix := humanPrefix;
      this.aiPrefix := aiPrefix;
      messages := [];
    }

    /** SaveContext: record one exchange, the user's input then the answer. */
    method SaveContext(input: string, output: string)
      modifies this
      ensures messages == old(messages) + [ChatMessage(Human, input), ChatMessage(AI, output)]
    {
      messages := messages + [ChatMessage(Human, input), ChatMessage(AI, output)];
    }

    method AddAIMessage(content: string)
      modifies this
      ensures messages == old(messages) + [ChatMessage(AI, content)]
    {
      messages := messages + [ChatMessage(AI, content)];
    }
  }

  function Role(kind: MessageType): string {
    if kind == AI then "ai" else "user"
  }

  /** The list formatMessages builds: one {role, content} map per message. */
  function Formatted(messages: seq<ChatMessage>): (r: seq<map<string, string>>)
    ensures |r| == |messages|
    ensures forall i :: 0 <= i < |r| ==>
      && r[i].Keys == {"role", "content"}
      && r[i]["content"] == messages[i].content
      && r[i]["role"] in {"ai", "user"}
      && (r[i]["role"] == "ai" <==> messages[i].kind == AI)
  {
    seq(|messages|, i requires 0 <= i < |messages| =>
      map["role" := Role(messages[i].kind), "content" := messages[i].content])
  }

  /** formatMessages: the loop appending one map per message. */
  method FormatMessages(messages: seq<ChatMessage>) returns (formatted: seq<map<string, string>>)
    ensures formatted == Formatted(messages)
  {
    formatted := [];
    for i := 0 to |messages|
      invariant formatted == Formatted(messages[..i])
    {
      var role := "user";
      if messages[i].kind == AI {
        role := "ai";
      }
      formatted := formatted + [map["role" := role, "content" := messages[i].content]];
    }
    assert messages[..|messages|] == messages;
  }

  /** Go's %s rendering of one formatted entry: fmt prints map keys sorted. */
  function RenderEntry(entry: map<string, string>): string
    requires "content" in entry && "role" in entry
  {
    "map[content:" + entry["content"] + " role:" + entry["role"] + "]"
  }

  /** Go's %s rendering of a formatted list, "[e1 e2 ...]" ("[]" when empty). */
  function Render(entries: seq<map<string, string>>): string
    requires forall i :: 0 <= i < |entries| ==> "content" in entries[i] && "role" in entries[i]
  {
    "[" + Join(seq(|entries|, i requires 0 <= i < |entries| => RenderEntry(entries[i])), " ") + "]"
  }

  /** The history as Query prints it: formatMessages' result under %s. */
  function RenderHistory(messages: seq<ChatMessage>): string {
    Render(Formatted(messages))
  }
}
