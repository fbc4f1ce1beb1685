/**
  ChunkContent from internal/agents/agent_utils.go: split text on white space
  and regroup the words into chunks of at most maxWords words, each chunk
  joined back with single spaces.
 */
module Chunker {
  import opened GoStrings

  /** The word groups of ChunkContent, front to back: full groups of n, then the remainder. */
  function Groups(words: seq<string>, n: int): (gs: seq<seq<string>>)
    requires n >= 1 || words == []
    decreases |words|
  {
    if words == [] then []
    else if |words| <= n then [words]
    else [words[..n]] + Groups(words[n..], n)
  }

  function JoinEach(gs: seq<seq<string>>): (cs: seq<string>) {
    seq(|gs|, i requires 0 <= i < |gs| => Join(gs[i], " "))
  }

  function Flatten(gs: seq<seq<string>>): seq<string> {
    if gs == [] then [] else gs[0] + Flatten(gs[1..])
  }

  /** The chunks ChunkContent(content, maxWords) returns. */
  function Chunks(content: string, maxWords: int): seq<string>
    requires maxWords >= 1 || Fields(content) == []
  {
    JoinEach(Groups(Fields(content), maxWords))
  }

  function Rest(words: seq<string>, i: nat): seq<string> {
    if i <= |words| then words[i..] else []
  }

  /** The Go loop: step i by maxWords, join words[i:min(i+maxWords, len)]. */
  method ChunkContent(content: string, maxWords: int) returns (chunks: seq<string>)
    requires maxWords >= 1 || Fields(content) == []
    ensures chunks == Chunks(content, maxWords)
  {
    var words := Fields(content);
    chunks := [];
    var i: nat := 0;
    while i < |words|
      invariant chunks + JoinEach(Groups(Rest(words, i), maxWords)) == JoinEach(Groups(words, maxWords))
      decreases |words| - i
    {
      var end := i + maxWords;
      if end > |words| {
        end := |words|;
      }
      ghost var rest := words[i..];
      assert rest[..] == words[i..];
      if |rest| <= maxWords {
        assert words[i..end] == rest;
        assert Rest(words, i + maxWords) == [];
      } else {
        assert rest[..maxWords] == words[i..end];
        assert rest[maxWords..] == Rest(words, i + maxWords);
      }
      assert JoinEach(Groups(rest, maxWords)) == [Join(words[i..end], " ")] + JoinEach(Groups(Rest(words, i + maxWords), maxWords));
      chunks := chunks + [Join(words[i..end], " ")];
      i := i + maxWords;
    }
    assert Rest(words, i) == [];
  }

  lemma {:induction false} GroupSizes(words: seq<string>, n: int)
    requires n >= 1
    ensures forall k :: 0 <= k < |Groups(words, n)| ==> 1 <= |Groups(words, n)[k]| <= n
    ensures AllWords(words) ==> forall k :: 0 <= k < |Groups(words, n)| ==> AllWords(Groups(words, n)[k])
    ensures Flatten(Groups(words, n)) == words
    decreases |words|
  {
    if words != [] && |words| > n {
      GroupSizes(words[n..], n);
      var gs := Groups(words, n);
      assert gs == [words[..n]] + Groups(words[n..], n);
      assert gs[1..] == Groups(words[n..], n);
      assert words == words[..n] + words[n..];
      forall k | 0 <= k < |gs| ensures 1 <= |gs[k]| <= n && (AllWords(words) ==> AllWords(gs[k])) {
        if k > 0 {
          assert gs[k] == Groups(words[n..], n)[k - 1];
          assert AllWords(words) ==> AllWords(words[n..]);
        }
      }
    } else if words != [] {
      assert Groups(words, n) == [words];
      assert Flatten([words]) == words + Flatten([]);
    }
  }

  /** Every chunk holds between 1 and maxWords words. */
  lemma ChunkWordCounts(content: string, maxWords: int)
    requires maxWords >= 1
    ensures forall k :: 0 <= k < |Chunks(content, maxWords)| ==>
      1 <= |Fields(Chunks(content, maxWords)[k])| <= maxWords
  {
    var gs := Groups(Fields(content), maxWords);
    GroupSizes(Fields(content), maxWords);
    forall k | 0 <= k < |gs| ensures 1 <= |Fields(Join(gs[k], " "))| <= maxWords {
      FieldsOfJoin(gs[k]);
    }
  }

  lemma {:induction false} GroupCount(words: seq<string>, n: int)
    requires n >= 1
    ensures |Groups(words, n)| == 0 <==> words == []
    ensures |words| <= |Groups(words, n)| * n
    ensures |Groups(words, n)| > 0 ==> (|Groups(words, n)| - 1) * n < |words|
    decreases |words|
  {
    if |words| > n {
      GroupCount(words[n..], n);
      var k := |Groups(words[n..], n)|;
      assert |Groups(words, n)| == 1 + k;
      assert (1 + k) * n == n + k * n;
      assert (1 + k - 1) * n == k * n;
    }
  }

  /**
    The chunk count is ceil(#words / maxWords): the fewest chunks of at most
    maxWords words that hold all the words.
   */
  lemma ChunkCount(content: string, maxWords: int)
    requires maxWords >= 1
    ensures |Chunks(content, maxWords)| == 0 <==> Fields(content) == []
    ensures |Fields(content)| <= |Chunks(content, maxWords)| * maxWords
    ensures |Chunks(content, maxWords)| > 0 ==> (|Chunks(content, maxWords)| - 1) * maxWords < |Fields(content)|
  {
    GroupCount(Fields(content), maxWords);
  }

  lemma {:induction false} JoinEachFlatten(gs: seq<seq<string>>)
    requires forall k :: 0 <= k < |gs| ==> gs[k] != []
    ensures Join(JoinEach(gs), " ") == Join(Flatten(gs), " ")
  {
    if |gs| == 1 {
      assert JoinEach(gs) == [Join(gs[0], " ")];
      assert gs[1..] == [];
      assert Flatten(gs) == gs[0] + Flatten([]);
      assert Flatten(gs) == gs[0];
    } else if |gs| > 1 {
      JoinEachFlatten(gs[1..]);
      assert JoinEach(gs)[1..] == JoinEach(gs[1..]);
      assert Flatten(gs[1..]) != [] by {
        assert Flatten(gs[1..]) == gs[1] + Flatten(gs[2..]);
      }
      JoinAppend(gs[0], Flatten(gs[1..]), " ");
    }
  }

  /** Joining the chunks with " " gives the words of the content joined with " ". */
  lemma ChunksRejoin(content: string, maxWords: int)
    requires maxWords >= 1
    ensures Join(Chunks(content, maxWords), " ") == Join(Fields(content), " ")
  {
    var gs := Groups(Fields(content), maxWords);
    GroupSizes(Fields(content), maxWords);
    JoinEachFlatten(gs);
  }

  /** Empty or white-space-only content, and only such content, yields no chunks. */
  lemma ChunksEmptyIffBlank(content: string, maxWords: int)
    requires maxWords >= 1 || Fields(content) == []
    ensures Chunks(content, maxWords) == [] <==> AllSpace(content)
  {
    FieldsEmptyIffBlank(content);
  }
}
