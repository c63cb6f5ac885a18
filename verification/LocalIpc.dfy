/** The newline-framed stream between a bot and its agent: the writer's framing
    (packages/runtime-sdk/src/socket-client.ts) and the agent's buffering decoder
    (apps/agent/src/local-ipc.ts). The stream is a sequence of characters. */
module LocalIpc {
  import opened Wrappers

  /** A serialised message: compact JSON is never empty and has no raw newline. */
  predicate Framable(m: string) { m != "" && '\n' !in m }

  type Text = m: string | Framable(m) witness "x"

  /** What the sender writes for a list of messages. */
  function Encode(messages: seq<Text>): string {
    if messages == [] then "" else messages[0] + "\n" + Encode(messages[1..])
  }

  // ------------------------------------------------------------- decoding

  function IndexOfNewline(s: string): (r: Option<nat>)
    ensures r.None? ==> forall k :: 0 <= k < |s| ==> s[k] != '\n'
    ensures r.Some? ==> r.value < |s| && s[r.value] == '\n' && forall k :: 0 <= k < r.value ==> s[k] != '\n'
  {
    if s == "" then None
    else if s[0] == '\n' then Some(0)
    else
      var rest := IndexOfNewline(s[1..]);
      assert forall k :: 0 < k < |s| ==> s[k] == s[1..][k - 1];
      if rest.None? then None else Some(rest.value + 1)
  }

  /** A line is handled unless it is empty. */
  function Handle(line: string): seq<string> { if line == "" then [] else [line] }

  /** The non-empty complete lines of a buffer. */
  function Lines(s: string): seq<string>
    decreases |s|
  {
    match IndexOfNewline(s)
    case None => []
    case Some(i) => Handle(s[..i]) + Lines(s[i + 1..])
  }

  /** What follows the last newline. */
  function Rest(s: string): string
    decreases |s|
  {
    match IndexOfNewline(s)
    case None => s
    case Some(i) => Rest(s[i + 1..])
  }

  lemma Peel(s: string, i: nat)
    requires i < |s| && s[i] == '\n' && forall k :: 0 <= k < i ==> s[k] != '\n'
    ensures IndexOfNewline(s) == Some(i)
    ensures Lines(s) == Handle(s[..i]) + Lines(s[i + 1..]) && Rest(s) == Rest(s[i + 1..])
  {}

  lemma PeelLine(s: string)
    requires IndexOfNewline(s).Some?
    ensures var i := IndexOfNewline(s).value; Lines(s) == Handle(s[..i]) + Lines(s[i + 1..])
  {
    hide IndexOfNewline, Rest, Handle;
  }

  lemma PeelRest(s: string)
    requires IndexOfNewline(s).Some?
    ensures Rest(s) == Rest(s[IndexOfNewline(s).value + 1..])
  {
    hide IndexOfNewline, Lines, Handle;
  }

  lemma PeelFirst(s: string)
    requires IndexOfNewline(s).Some?
    ensures var i := IndexOfNewline(s).value;
            Lines(s) == Handle(s[..i]) + Lines(s[i + 1..]) && Rest(s) == Rest(s[i + 1..])
  {
    hide IndexOfNewline, Lines, Rest, Handle;
    PeelLine(s);
    PeelRest(s);
  }

  /** One accepted connection of the local server. */
  class Connection {
    var buffer: string
    ghost var received: string
    ghost var handled: seq<string>

    ghost predicate Valid()
      reads this
    {
      handled == Lines(received) && buffer == Rest(received)
    }

    constructor ()
      ensures Valid() && received == "" && handled == []
    {
      buffer, received, handled := "", "", [];
    }

    /** The data handler: extends the buffer and hands over every complete line. */
    method OnData(chunk: string)
      requires Valid()
      modifies this
      ensures Valid() && received == old(received) + chunk
    {
      LinesOfConcat(received, chunk);
      hide Lines, Rest, IndexOfNewline;
      buffer := buffer + chunk;
      received := received + chunk;
      ghost var pending := buffer;
      var newlineIndex := IndexOfNewline(buffer);
      while newlineIndex.Some?
        invariant received == old(received) + chunk
        invariant newlineIndex == IndexOfNewline(buffer)
        invariant handled + Lines(buffer) == old(handled) + Lines(pending)
        invariant Rest(buffer) == Rest(pending)
        decreases |buffer|
      {
        PeelFirst(buffer);
        var line := buffer[..newlineIndex.value];
        buffer := buffer[newlineIndex.value + 1..];
        if line != "" {
          handled := handled + [line];
        }
        assert handled + Lines(buffer) == old(handled) + Lines(pending);
        newlineIndex := IndexOfNewline(buffer);
      }
      NoLines(buffer);
    }
  }

  // ---------------------------------------------------------- stream theorems

  lemma NoLines(s: string)
    requires IndexOfNewline(s).None?
    ensures Lines(s) == [] && Rest(s) == s
  {}

  /** Decoding is incremental: what was left over is decoded with the next chunk. */
  lemma {:induction false} LinesOfConcat(s: string, t: string)
    ensures Lines(s + t) == Lines(s) + Lines(Rest(s) + t)
    ensures Rest(s + t) == Rest(Rest(s) + t)
    decreases |s|
  {
    hide Lines, Rest;
    match IndexOfNewline(s)
    case None =>
      NoLines(s);
    case Some(i) =>
      assert (s + t)[..i] == s[..i] && (s + t)[i + 1..] == s[i + 1..] + t;
      PeelFirst(s);
      Peel(s + t, i);
      LinesOfConcat(s[i + 1..], t);
  }

  predicate Proper(line: string) { line != "" && '\n' !in line }

  lemma FirstLineIsProper(s: string)
    requires IndexOfNewline(s).Some?
    ensures forall line :: line in Handle(s[..IndexOfNewline(s).value]) ==> Proper(line)
  {
    hide IndexOfNewline;
  }

  /** No empty line is ever handed over, and none that holds a newline. */
  lemma {:induction false} LinesAreProper(s: string)
    ensures forall line :: line in Lines(s) ==> Proper(line)
    decreases |s|
  {
    hide Lines, Handle, Proper;
    match IndexOfNewline(s)
    case None => NoLines(s);
    case Some(i) =>
      PeelLine(s);
      FirstLineIsProper(s);
      LinesAreProper(s[i + 1..]);
  }

  /** For any chunking of the written stream the decoder hands over exactly the
      written messages, in order, and is left with an empty buffer. */
  lemma {:induction false} DecodesWhatWasWritten(messages: seq<Text>)
    ensures Lines(Encode(messages)) == messages && Rest(Encode(messages)) == ""
  {
    hide Lines, Rest;
    NoLines("");
    if messages != [] {
      var s := Encode(messages);
      var m := messages[0];
      assert s[..|m|] == m && s[|m|] == '\n' && s[|m| + 1..] == Encode(messages[1..]);
      assert forall k :: 0 <= k < |m| ==> s[k] == m[k];
      Peel(s, |m|);
      DecodesWhatWasWritten(messages[1..]);
    }
  }

  /** If the connection breaks part-way, the complete messages that got through
      are a prefix of the written ones. */
  lemma CutStreamIsPrefix(messages: seq<Text>, arrived: string)
    requires arrived <= Encode(messages)
    ensures Lines(arrived) <= messages
  {
    var missing := Encode(messages)[|arrived|..];
    assert arrived + missing == Encode(messages);
    LinesOfConcat(arrived, missing);
    DecodesWhatWasWritten(messages);
  }

  function Flatten(chunks: seq<string>): string {
    if chunks == [] then "" else Flatten(chunks[..|chunks| - 1]) + chunks[|chunks| - 1]
  }

  /** A whole connection: whatever the chunking, the handled lines are the written
      messages. */
  method ReceiveAll(messages: seq<Text>, chunks: seq<string>) returns (connection: Connection)
    requires Flatten(chunks) == Encode(messages)
    ensures fresh(connection) && connection.handled == messages && connection.buffer == ""
  {
    connection := new Connection();
    for i := 0 to |chunks|
      invariant fresh(connection) && connection.Valid() && connection.received == Flatten(chunks[..i])
    {
      assert chunks[..i + 1][..i] == chunks[..i];
      connection.OnData(chunks[i]);
    }
    assert chunks[..|chunks|] == chunks;
    DecodesWhatWasWritten(messages);
  }
}
