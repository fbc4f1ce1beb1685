/**
  The document shape of the agent core (langchaingo `schema.Document`) and the
  helpers of internal/agents/agent_utils.go that build or filter documents:
  deduplicateDocuments, ConvertContentToString and ConvertMetadata.
 */
module Documents {
  import opened Wrappers

  /**
    A decoded JSON value as Go holds it in an `interface{}`: nil, bool,
    float64 (kept as a real), string, []interface{} or map[string]interface{}.
   */
  datatype Json =
    | JNull
    | JBool(b: bool)
    | JNumber(n: real)
    | JString(s: string)
    | JArray(items: seq<Json>)
    | JObject(fields: map<string, Json>)

  /** schema.Document: page content plus a metadata map of arbitrary values. */
  datatype Document = Document(pageContent: string, metadata: map<string, Json>)

  /** The text Go's %T prints for the scalar dynamic types a JSON value can have. */
  function GoTypeName(v: Json): string {
    match v
    case JNull => "<nil>"
    case JBool(_) => "bool"
    case JNumber(_) => "float64"
    case JString(_) => "string"
    case JArray(_) => "[]interface {}"
    case JObject(_) => "map[string]interface {}"
  }

  /**
    ConvertContentToString: strings pass through, maps and slices are
    serialised by `marshal` (json.Marshal, a parameter), anything else is
    rejected with its Go type named.
   */
  function ConvertContentToString(content: Json, marshal: Json -> Result<string>): (r: Result<string>)
    ensures content.JString? ==> r == Ok(content.s)
    ensures (content.JArray? || content.JObject?) ==>
      (r.Ok? <==> marshal(content).Ok?) &&
      (r.Ok? ==> r.value == marshal(content).value) &&
      (r.Err? ==> r.error == "failed to serialize JSON content: " + marshal(content).error)
    ensures (content.JNull? || content.JBool? || content.JNumber?) ==>
      r == Err("unsupported content type: " + GoTypeName(content))
  {
    match content
    case JString(s) => Ok(s)
    case JArray(_) | JObject(_) =>
      (match marshal(content)
       case Ok(text) => Ok(text)
       case Err(e) => Err("failed to serialize JSON content: " + e))
    case _ => Err("unsupported content type: " + GoTypeName(content))
  }

  /** ConvertMetadata: copy a string map into an `any` map, entry by entry. */
  method ConvertMetadata(metadata: map<string, string>) returns (converted: map<string, Json>)
    ensures converted.Keys == metadata.Keys
    ensures forall k :: k in converted ==> converted[k] == JString(metadata[k])
  {
    converted := map[];
    var pending := metadata.Keys;
    while pending != {}
      invariant pending <= metadata.Keys
      invariant converted.Keys == metadata.Keys - pending
      invariant forall k :: k in converted ==> converted[k] == JString(metadata[k])
      decreases |pending|
    {
      var k :| k in pending;
      converted := converted[k := JString(metadata[k])];
      pending := pending - {k};
    }
  }

  /** The page contents occurring in docs. */
  function Contents(docs: seq<Document>): set<string> {
    set i | 0 <= i < |docs| :: docs[i].pageContent
  }

  /** Index i is the first occurrence of its page content. */
  predicate FirstOccurrence(docs: seq<Document>, i: int)
    requires 0 <= i < |docs|
  {
    docs[i].pageContent !in Contents(docs[..i])
  }

  /** What deduplicateDocuments keeps: each document whose content was not seen before it. */
  function Dedup(docs: seq<Document>): seq<Document>
    decreases |docs|
  {
    if docs == [] then []
    else
      var n := |docs| - 1;
      Dedup(docs[..n]) + (if FirstOccurrence(docs, n) then [docs[n]] else [])
  }

  predicate DistinctContents(docs: seq<Document>) {
    forall i, j :: 0 <= i < j < |docs| ==> docs[i].pageContent != docs[j].pageContent
  }

  /** deduplicateDocuments: one pass with a `seen` map of contents. */
  method DeduplicateDocuments(docs: seq<Document>) returns (uniqueDocs: seq<Document>)
    ensures uniqueDocs == Dedup(docs)
  {
    var seen: map<string, bool> := map[];
    uniqueDocs := [];
    for i := 0 to |docs|
      invariant seen.Keys == Contents(docs[..i])
      invariant uniqueDocs == Dedup(docs[..i])
    {
      var doc := docs[i];
      assert docs[..i + 1][..i] == docs[..i];
      assert Contents(docs[..i + 1]) == Contents(docs[..i]) + {doc.pageContent} by {
        assert docs[..i + 1] == docs[..i] + [doc];
      }
      if doc.pageContent !in seen {
        seen := seen[doc.pageContent := true];
        uniqueDocs := uniqueDocs + [doc];
      }
    }
    assert docs[..|docs|] == docs;
  }

  lemma ContentsSnoc(docs: seq<Document>, d: Document)
    ensures Contents(docs + [d]) == Contents(docs) + {d.pageContent}
  {
    var s := docs + [d];
    forall c | c in Contents(s) ensures c in Contents(docs) + {d.pageContent} {
      var i :| 0 <= i < |s| && s[i].pageContent == c;
      if i < |docs| { assert s[i] == docs[i]; }
    }
    forall c | c in Contents(docs) ensures c in Contents(s) {
      var i :| 0 <= i < |docs| && docs[i].pageContent == c;
      assert s[i] == docs[i];
    }
    assert s[|docs|] == d;
  }

  /** The deduplicated batch has exactly the contents of the input. */
  lemma {:induction false} DedupContents(docs: seq<Document>)
    ensures Contents(Dedup(docs)) == Contents(docs)
    decreases |docs|
  {
    if docs != [] {
      var n := |docs| - 1;
      assert docs == docs[..n] + [docs[n]];
      DedupContents(docs[..n]);
      ContentsSnoc(docs[..n], docs[n]);
      if FirstOccurrence(docs, n) {
        assert Dedup(docs) == Dedup(docs[..n]) + [docs[n]];
        ContentsSnoc(Dedup(docs[..n]), docs[n]);
        assert Contents(Dedup(docs)) == Contents(docs[..n]) + {docs[n].pageContent};
      } else {
        assert Dedup(docs) == Dedup(docs[..n]);
      }
      assert Contents(docs) == Contents(docs[..n]) + {docs[n].pageContent};
    }
  }

  /** No two documents of the deduplicated batch share a page content. */
  lemma {:induction false} DedupDistinct(docs: seq<Document>)
    ensures DistinctContents(Dedup(docs))
    decreases |docs|
  {
    if docs != [] {
      var n := |docs| - 1;
      var prev := Dedup(docs[..n]);
      DedupDistinct(docs[..n]);
      if FirstOccurrence(docs, n) {
        DedupContents(docs[..n]);
        var out := prev + [docs[n]];
        forall i, j | 0 <= i < j < |out| ensures out[i].pageContent != out[j].pageContent {
          if j == |prev| {
            assert out[i] == prev[i];
            assert prev[i].pageContent in Contents(prev);
          }
        }
      }
    }
  }

  /**
    The deduplicated batch is the input's first occurrences, in input order:
    it picks strictly increasing input positions, each the first occurrence
    of its page content.
   */
  lemma {:induction false} DedupPositions(docs: seq<Document>) returns (idx: seq<nat>)
    ensures |idx| == |Dedup(docs)|
    ensures forall k :: 0 <= k < |idx| ==>
      idx[k] < |docs| && docs[idx[k]] == Dedup(docs)[k] && FirstOccurrence(docs, idx[k])
    ensures forall k, l :: 0 <= k < l < |idx| ==> idx[k] < idx[l]
    decreases |docs|
  {
    if docs == [] {
      idx := [];
    } else {
      var n := |docs| - 1;
      var prev := DedupPositions(docs[..n]);
      forall k | 0 <= k < |prev| ensures FirstOccurrence(docs, prev[k]) {
        assert docs[..n][..prev[k]] == docs[..prev[k]];
      }
      if FirstOccurrence(docs, n) {
        idx := prev + [n];
      } else {
        idx := prev;
      }
    }
  }
  /** The first document of a non-empty batch always survives, in first place. */
  lemma {:induction false} DedupHead(docs: seq<Document>)
    requires docs != []
    ensures Dedup(docs) != [] && Dedup(docs)[0] == docs[0]
    decreases |docs|
  {
    var n := |docs| - 1;
    if n == 0 {
      assert docs[..0] == [];
      assert FirstOccurrence(docs, 0);
    } else {
      DedupHead(docs[..n]);
    }
  }
}
