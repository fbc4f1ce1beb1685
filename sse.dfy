/**
  Server-Sent Events framing used by QueryHandler in
  internal/handlers/agent_handler.go, and, as its partner, the client side:
  the event-stream interpretation of the WHATWG HTML Living Standard,
  section 9.2.6 "Interpreting an event stream", restricted to the data field.
 */
module ServerSentEvents {

  /** One streamed chunk: fmt.Sprintf("data: %s\n\n", chunk). */
  function Frame(chunk: string): string {
    "data: " + chunk + "\n\n"
  }

  /** The sentinel written after the last chunk of a successful stream. */
  const DoneFrame: string := "data: [DONE]\n\n"

  function Frames(chunks: seq<string>): (fs: seq<string>) {
    seq(|chunks|, i requires 0 <= i < |chunks| => Frame(chunks[i]))
  }

  function Concat(parts: seq<string>): string {
    if parts == [] then "" else parts[0] + Concat(parts[1..])
  }

  /** The HTTP response of a streaming query: every Write, in order. */
  class ResponseStream {
    var written: seq<string>

    constructor ()
      ensures written == []
    {
      written := [];
    }

    /** The streaming callback QueryHandler hands to Query. */
    method WriteChunk(chunk: string)
      modifies this
      ensures written == old(written) + [Frame(chunk)]
    {
      written := written + [Frame(chunk)];
    }

    method WriteDone()
      modifies this
      ensures written == old(written) + [DoneFrame]
    {
      written := written + [DoneFrame];
    }
  }

  predicate IsLineBreak(c: char) {
    c == '\n' || c == '\r'
  }

  predicate NoLineBreak(s: string) {
    forall i :: 0 <= i < |s| ==> !IsLineBreak(s[i])
  }

  /** Position of the first CR or LF, |s| when there is none. */
  function BreakIndex(s: string): (n: nat)
    ensures n <= |s|
    ensures n < |s| ==> IsLineBreak(s[n])
  {
    if s == [] || IsLineBreak(s[0]) then 0 else 1 + BreakIndex(s[1..])
  }

  /** The complete lines of a stream (ended by CRLF, LF or CR); an unterminated tail is dropped. */
  function Lines(s: string): seq<string>
    decreases |s|
  {
    var i := BreakIndex(s);
    if i == |s| then []
    else
      var skip := if s[i] == '\r' && i + 1 < |s| && s[i + 1] == '\n' then 2 else 1;
      [s[..i]] + Lines(s[i + skip..])
  }

  function ColonIndex(s: string): (n: nat)
    ensures n <= |s|
  {
    if s == [] || s[0] == ':' then 0 else 1 + ColonIndex(s[1..])
  }

  /** A field line split into name and value; one space after the colon is dropped. */
  function FieldName(line: string): string {
    line[..ColonIndex(line)]
  }

  function FieldValue(line: string): string {
    var c := ColonIndex(line);
    if c == |line| then ""
    else
      var v := line[c + 1..];
      if v != [] && v[0] == ' ' then v[1..] else v
  }

  function DropFinalLineFeed(data: string): string {
    if data != [] && data[|data| - 1] == '\n' then data[..|data| - 1] else data
  }

  /** The data of each event dispatched while interpreting lines with a pending data buffer. */
  function Interpret(lines: seq<string>, data: string): seq<string>
    decreases |lines|
  {
    if lines == [] then []
    else
      var line := lines[0];
      if line == "" then
        (if data == "" then [] else [DropFinalLineFeed(data)]) + Interpret(lines[1..], "")
      else if line[0] == ':' then Interpret(lines[1..], data)
      else if FieldName(line) == "data" then Interpret(lines[1..], data + FieldValue(line) + "\n")
      else Interpret(lines[1..], data)
  }

  /** The data of every event a client receives from a complete stream. */
  function Decode(stream: string): seq<string> {
    Interpret(Lines(stream), "")
  }

  lemma {:induction false} BreakIndexAfter(p: string, s: string)
    requires NoLineBreak(p)
    ensures BreakIndex(p + s) == |p| + BreakIndex(s)
    decreases |p|
  {
    if p != [] {
      assert (p + s)[1..] == p[1..] + s;
      BreakIndexAfter(p[1..], s);
    } else {
      assert p + s == s;
    }
  }

  lemma NoLineBreakConcat(a: string, b: string)
    requires NoLineBreak(a) && NoLineBreak(b)
    ensures NoLineBreak(a + b)
  {
    forall i | 0 <= i < |a + b| ensures !IsLineBreak((a + b)[i]) {
      if i >= |a| { assert (a + b)[i] == b[i - |a|]; }
    }
  }

  lemma DataPrefix(chunk: string)
    requires NoLineBreak(chunk)
    ensures NoLineBreak("data: " + chunk)
  {
    var p := "data: ";
    assert forall i :: 0 <= i < |p| ==> p[i] in {'d', 'a', 't', ':', ' '};
    NoLineBreakConcat(p, chunk);
  }

  /** A line-break-free line ended by LF is the first line of the stream. */
  lemma LinesAfterLine(line: string, rest: string)
    requires NoLineBreak(line)
    ensures Lines(line + "\n" + rest) == [line] + Lines(rest)
  {
    var s := line + "\n" + rest;
    assert s == line + ("\n" + rest);
    BreakIndexAfter(line, "\n" + rest);
    assert BreakIndex("\n" + rest) == 0;
    assert s[|line|] == '\n';
    assert s[..|line|] == line;
    assert s[|line| + 1..] == rest;
  }

  lemma LinesOfFrame(chunk: string, rest: string)
    requires NoLineBreak(chunk)
    ensures Lines(Frame(chunk) + rest) == ["data: " + chunk, ""] + Lines(rest)
  {
    var line := "data: " + chunk;
    DataPrefix(chunk);
    assert Frame(chunk) + rest == line + "\n" + ("" + "\n" + rest);
    LinesAfterLine(line, "" + "\n" + rest);
    assert NoLineBreak("");
    LinesAfterLine("", rest);
  }

  lemma {:induction false} ColonIndexAfter(p: string, s: string)
    requires forall i :: 0 <= i < |p| ==> p[i] != ':'
    ensures ColonIndex(p + s) == |p| + ColonIndex(s)
    decreases |p|
  {
    if p != [] {
      assert (p + s)[1..] == p[1..] + s;
      ColonIndexAfter(p[1..], s);
    } else {
      assert p + s == s;
    }
  }

  lemma FieldOfDataLine(chunk: string)
    ensures FieldName("data: " + chunk) == "data"
    ensures FieldValue("data: " + chunk) == chunk
  {
    var line := "data: " + chunk;
    var p := "data";
    assert line == p + (": " + chunk);
    assert forall i :: 0 <= i < |p| ==> p[i] in {'d', 'a', 't'};
    ColonIndexAfter(p, ": " + chunk);
    assert ColonIndex(line) == 4;
    assert line[..4] == p;
    assert line[5..] == " " + chunk;
  }

  lemma ConcatFrames(chunks: seq<string>)
    requires chunks != []
    ensures Concat(Frames(chunks)) == Frame(chunks[0]) + Concat(Frames(chunks[1..]))
  {
    assert Frames(chunks)[1..] == Frames(chunks[1..]);
  }

  lemma InterpretDataEvent(chunk: string, ls: seq<string>)
    ensures Interpret(["data: " + chunk, ""] + ls, "") == [chunk] + Interpret(ls, "")
  {
    var all := ["data: " + chunk, ""] + ls;
    FieldOfDataLine(chunk);
    assert all[0] == "data: " + chunk && all[0] != "" && all[0][0] == 'd';
    assert Interpret(all, "") == Interpret(all[1..], "" + chunk + "\n");
    assert "" + chunk + "\n" == chunk + "\n";
    assert all[1..][0] == "" && all[1..][1..] == ls;
    assert (chunk + "\n")[..|chunk|] == chunk;
    assert DropFinalLineFeed(chunk + "\n") == chunk;
  }

  /**
    Framing round trip: a client decoding the frames of line-break-free
    chunks receives exactly those chunks, one event each, in order.
   */
  lemma {:induction false} DecodeFrames(chunks: seq<string>)
    requires forall i :: 0 <= i < |chunks| ==> NoLineBreak(chunks[i])
    ensures Decode(Concat(Frames(chunks))) == chunks
  {
    if chunks != [] {
      var c := chunks[0];
      ConcatFrames(chunks);
      var rest := Concat(Frames(chunks[1..]));
      LinesOfFrame(c, rest);
      DecodeFrames(chunks[1..]);
      InterpretDataEvent(c, Lines(rest));
      assert chunks == [c] + chunks[1..];
    }
  }

  /** A successful stream, chunks then sentinel, decodes to the chunks followed by "[DONE]". */
  lemma SuccessfulStreamDecodes(chunks: seq<string>)
    requires forall i :: 0 <= i < |chunks| ==> NoLineBreak(chunks[i])
    ensures Decode(Concat(Frames(chunks) + [DoneFrame])) == chunks + ["[DONE]"]
  {
    var all := chunks + ["[DONE]"];
    assert Frame("[DONE]") == DoneFrame;
    assert forall k :: 0 <= k < |all| ==> (Frames(chunks) + [DoneFrame])[k] == Frames(all)[k];
    assert Frames(chunks) + [DoneFrame] == Frames(all);
    assert NoLineBreak("[DONE]") by {
      var d := "[DONE]";
      assert forall i :: 0 <= i < |d| ==> d[i] in {'[', 'D', 'O', 'N', 'E', ']'};
    }
    DecodeFrames(chunks + ["[DONE]"]);
  }

  lemma LinesOfBlankLine()
    ensures Lines("\n") == [""]
  {
    assert NoLineBreak("");
    LinesAfterLine("", "");
    assert "" + "\n" + "" == "\n";
  }

  lemma LinesOfLastLine(y: string)
    requires NoLineBreak(y)
    ensures Lines(y + "\n\n") == [y, ""]
  {
    assert y + "\n\n" == y + "\n" + "\n";
    LinesAfterLine(y, "\n");
    LinesOfBlankLine();
  }

  lemma LinesOfSplitFrame(x: string, y: string)
    requires NoLineBreak(x) && NoLineBreak(y)
    ensures Lines(Frame(x + "\n" + y)) == ["data: " + x, y, ""]
  {
    assert Frame(x + "\n" + y) == ("data: " + x) + "\n" + (y + "\n\n");
    DataPrefix(x);
    LinesAfterLine("data: " + x, y + "\n\n");
    LinesOfLastLine(y);
  }

  /** A line without a colon names a field other than data (unless it is "data"); it is ignored. */
  lemma IgnoredLineThenDispatch(y: string, data: string)
    requires y != "" && y != "data" && forall i :: 0 <= i < |y| ==> y[i] != ':'
    requires data != ""
    ensures Interpret([y, ""], data) == [DropFinalLineFeed(data)]
  {
    var ls := [y, ""];
    ColonIndexAfter(y, "");
    assert y + "" == y;
    assert FieldName(y) == y;
    assert Interpret(ls, data) == Interpret(ls[1..], data);
    assert ls[1..] == [""];
  }

  /**
    The framing is lossy for a chunk holding a line feed: of x + "\n" + y
    the client receives only x, when y is a plain word that is not a field
    name it acts on.
   */
  lemma LineFeedInChunkIsLost(x: string, y: string)
    requires NoLineBreak(x) && NoLineBreak(y)
    requires y != "" && y != "data" && forall i :: 0 <= i < |y| ==> y[i] != ':'
    ensures Decode(Frame(x + "\n" + y)) == [x]
  {
    LinesOfSplitFrame(x, y);
    var ls := ["data: " + x, y, ""];
    FieldOfDataLine(x);
    assert ls[0] != "" && ls[0][0] == 'd';
    assert Interpret(ls, "") == Interpret(ls[1..], "" + x + "\n");
    assert "" + x + "\n" == x + "\n";
    assert ls[1..] == [y, ""];
    IgnoredLineThenDispatch(y, x + "\n");
    assert (x + "\n")[..|x|] == x;
  }
}
