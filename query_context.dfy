/**
  The pure steps of Query in internal/agents/agent_query.go: which search
  errors are tolerated, the documents section built from the merged search
  results, and the single "context" string handed to the LLM chain.
 */
module QueryContext {
  import opened Wrappers
  import opened Documents
  import opened Memory
  import opened GoStrings

  /** The search error Query treats as an empty result. */
  const EmptyResponse: string := "empty response"

  predicate Tolerated(err: Option<string>) {
    err.None? || err.value == EmptyResponse
  }

  const NoDocuments: string := "No relevant documents found.\n"

  /** fmt.Sprintf("Document: %s\nMetadata: %+v\n", ...), with %+v of the metadata as `render`. */
  function DocEntry(doc: Document, render: map<string, Json> -> string): string {
    "Document: " + doc.pageContent + "\nMetadata: " + render(doc.metadata) + "\n"
  }

  function Entries(docs: seq<Document>, render: map<string, Json> -> string): string {
    if docs == [] then "" else DocEntry(docs[0], render) + Entries(docs[1..], render)
  }

  /** The docContext buffer: one entry per document, or the no-documents marker. */
  function DocumentsSection(docs: seq<Document>, render: map<string, Json> -> string): string {
    if docs == [] then NoDocuments else Entries(docs, render)
  }

  /** The "context" input of the chain. */
  function LlmContext(history: seq<ChatMessage>, docs: seq<Document>, input: string,
                      render: map<string, Json> -> string): string
  {
    "History:\n" + RenderHistory(history) + "\n\nRelevant Documents:\n" + DocumentsSection(docs, render)
    + "\n\nUser Input:\n" + input
  }

  lemma {:induction false} EntriesAppend(a: seq<Document>, b: seq<Document>, render: map<string, Json> -> string)
    ensures Entries(a + b, render) == Entries(a, render) + Entries(b, render)
  {
    if a == [] {
      assert a + b == b;
    } else {
      assert (a + b)[1..] == a[1..] + b;
      EntriesAppend(a[1..], b, render);
    }
  }

  /**
    Merge order: the section for tenant results followed by default results
    lists every tenant document, in its order, before every default one.
   */
  lemma MergedSection(tenant: seq<Document>, default: seq<Document>, render: map<string, Json> -> string)
    ensures tenant + default == [] ==> DocumentsSection(tenant + default, render) == NoDocuments
    ensures tenant + default != [] ==>
      DocumentsSection(tenant + default, render) == Entries(tenant, render) + Entries(default, render)
  {
    EntriesAppend(tenant, default, render);
  }

  /** A non-empty section starts with its first document's entry, so it is never the marker. */
  lemma SectionOfDocuments(docs: seq<Document>, render: map<string, Json> -> string)
    requires docs != []
    ensures DocumentsSection(docs, render) == DocEntry(docs[0], render) + Entries(docs[1..], render)
    ensures DocumentsSection(docs, render) != NoDocuments
  {
    var s := DocumentsSection(docs, render);
    assert s[..10] == "Document: ";
    assert NoDocuments[..10] == "No relevan";
  }

  /** The docContext loop of Query. */
  method BuildDocContext(docs: seq<Document>, render: map<string, Json> -> string) returns (docContext: string)
    ensures docContext == DocumentsSection(docs, render)
  {
    docContext := "";
    if |docs| > 0 {
      for i := 0 to |docs|
        invariant docContext == Entries(docs[..i], render)
      {
        EntriesAppend(docs[..i], [docs[i]], render);
        assert docs[..i + 1] == docs[..i] + [docs[i]];
        assert Entries([docs[i]], render) == DocEntry(docs[i], render) + Entries([], render);
        docContext := docContext + DocEntry(docs[i], render);
      }
      assert docs[..|docs|] == docs;
    } else {
      docContext := docContext + NoDocuments;
    }
  }

  /**
    With no history and no documents the chain sees the no-documents marker
    and the raw input.
   */
  lemma EmptyRetrievalContext(input: string, render: map<string, Json> -> string)
    ensures LlmContext([], [], input, render) ==
      "History:\n" + "[]" + "\n\nRelevant Documents:\n" + NoDocuments + "\n\nUser Input:\n" + input
  {
    var none: seq<ChatMessage> := [];
    var entries := Formatted(none);
    assert entries == [];
    assert RenderHistory(none) == "[" + "" + "]" == "[]";
    assert DocumentsSection([], render) == NoDocuments;
  }
}
