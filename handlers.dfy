/**
 * The HTTP handlers of server/handlers.go, stripped of their transport: the
 * upstream body is a sequence of lines, the client-facing writes are frames,
 * JSON decoding is the given function `decode`, and URL parsing is the given
 * function `urlError` (an error message, or `None` when the URL parses).
 */
module Handlers {
  import opened Wrappers
  import opened Json
  import opened Types
  import opened Router
  import opened Sse

  // ---------------------------------------------------------------------
  // HandleStreamResponse

  /** The id an event is given: the chunk's string `id`, else its string `trace_id`. */
  function EventId(chunk: Object): (r: Option<string>)
    ensures r.Some? <==> StrAt(chunk, "id").Some? || StrAt(chunk, "trace_id").Some?
  {
    if StrAt(chunk, "id").Some? then StrAt(chunk, "id") else StrAt(chunk, "trace_id")
  }

  /** An event that carries the fixed `object` and the client's own model id. */
  predicate IsNormalized(event: Object, modelName: string) {
    && "object" in event && event["object"] == JStr(ChunkObject)
    && "model" in event && event["model"] == JStr(modelName)
  }

  /**
   * The event written for a chunk that has a `choices[0].delta` object: a copy
   * of the chunk with its id settled, `object` and `model` overwritten, and the
   * first tool call (when there is one) stamped with the event's id.
   */
  function Normalize(chunk: Object, modelName: string): (r: Object)
    requires FirstDelta(chunk).Some?
    ensures IsNormalized(r, modelName)
    ensures r.Keys == chunk.Keys + {"object", "model"} + (if EventId(chunk).Some? then {"id"} else {})
    ensures StrAt(chunk, "id").Some? ==> r["id"] == chunk["id"]
    ensures StrAt(chunk, "id").None? && StrAt(chunk, "trace_id").Some? ==> r["id"] == chunk["trace_id"]
    ensures EventId(chunk).None? && "id" in chunk ==> r["id"] == chunk["id"]
    ensures forall k :: k in chunk && k !in {"id", "object", "model", "choices"} ==> r[k] == chunk[k]
    ensures FirstDelta(r).Some? && DeltaText(ObjChunk(r)) == DeltaText(ObjChunk(chunk))
    ensures FirstToolCall(chunk).Some? ==> FirstToolCall(r) == Some(FirstToolCall(chunk).value["id" := Lookup(r, "id")])
    ensures FirstToolCall(chunk).Some? ==> StampedChoices(chunk, r, Lookup(r, "id"))
    ensures FirstToolCall(chunk).None? ==> r["choices"] == chunk["choices"]
  {
    var copied := match EventId(chunk) case Some(id) => chunk["id" := JStr(id)] case None => chunk;
    var base := copied["object" := JStr(ChunkObject)]["model" := JStr(modelName)];
    SameChoices(chunk, base);
    StampFirstToolCall(base, Lookup(base, "id"))
  }

  /** The events streamed for `cs`: one per chunk that has a delta, in order. */
  function StreamEvents(cs: seq<Chunk>, modelName: string): (r: seq<Frame>)
    ensures |r| <= |cs|
  {
    if cs == [] then []
    else EventOf(cs[0], modelName) + StreamEvents(cs[1..], modelName)
  }

  /** Every streamed event carries the fixed `object` and the client's model id. */
  lemma {:induction false} StreamEventsNormalized(cs: seq<Chunk>, modelName: string)
    ensures forall i :: 0 <= i < |StreamEvents(cs, modelName)| ==>
              StreamEvents(cs, modelName)[i].Event? && IsNormalized(StreamEvents(cs, modelName)[i].chunk, modelName)
  {
    if cs != [] {
      StreamEventsNormalized(cs[1..], modelName);
      var head: seq<Frame>, tail: seq<Frame> := EventOf(cs[0], modelName), StreamEvents(cs[1..], modelName);
      assert StreamEvents(cs, modelName) == head + tail;
      forall i | 0 <= i < |head + tail|
        ensures (head + tail)[i].Event? && IsNormalized((head + tail)[i].chunk, modelName)
      {
        if i >= |head| {
          assert (head + tail)[i] == tail[i - |head|];
        }
      }
    }
  }

  function EventOf(c: Chunk, modelName: string): seq<Frame> {
    if FirstDelta(Fields(c)).Some? then [Event(Normalize(Fields(c), modelName))] else []
  }

  lemma {:induction false} StreamEventsAppend(a: seq<Chunk>, b: seq<Chunk>, modelName: string)
    ensures StreamEvents(a + b, modelName) == StreamEvents(a, modelName) + StreamEvents(b, modelName)
  {
    if a == [] {
      assert a + b == b;
    } else {
      assert (a + b)[0] == a[0];
      assert (a + b)[1..] == a[1..] + b;
      StreamEventsAppend(a[1..], b, modelName);
    }
  }

  /**
   * Everything the handler writes to the client. Streaming: an event per
   * chunk with a delta, then the end marker if one was read. Otherwise: at
   * most one document, the first non-nil chunk aggregated with all the text.
   */
  function Emitted(decode: string -> Option<Json>, lines: seq<string>, isClientStreaming: bool, modelName: string): (r: seq<Frame>)
    ensures isClientStreaming ==>
              && |r| <= |UpstreamChunks(decode, lines)| + 1
              && (forall i :: 0 <= i < |r| ==>
                    (r[i].Event? && IsNormalized(r[i].chunk, modelName)) || (i == |r| - 1 && r[i].DoneEvent?))
              && (r != [] && r[|r| - 1].DoneEvent? <==> SawDone(lines))
    ensures !isClientStreaming ==>
              && |r| <= 1
              && (r != [] <==> FirstObject(UpstreamChunks(decode, lines)).Some?)
              && (forall i :: 0 <= i < |r| ==> r[i].Document?)
  {
    var cs := UpstreamChunks(decode, lines);
    StreamEventsNormalized(cs, modelName);
    if isClientStreaming then
      StreamEvents(cs, modelName) + (if SawDone(lines) then [DoneEvent] else [])
    else
      match FirstObject(cs)
      case Some(first) => [Document(Aggregate(first, Concat(cs)))]
      case None => []
  }

  /** The accumulator and the stream after one more chunk. */
  lemma AccumulateStep(cs: seq<Chunk>, c: Chunk, modelName: string)
    ensures Concat(cs + [c]) == Concat(cs) + DeltaText(c)
    ensures FirstObject(cs + [c]) == if FirstObject(cs).Some? then FirstObject(cs) else AsResponse(c)
    ensures StreamEvents(cs + [c], modelName) == StreamEvents(cs, modelName) + EventOf(c, modelName)
  {
    ConcatStep(cs, c);
    FirstObjectStep(cs, c);
    StreamEventsStep(cs, c, modelName);
  }

  lemma StreamEventsStep(cs: seq<Chunk>, c: Chunk, modelName: string)
    ensures StreamEvents(cs + [c], modelName) == StreamEvents(cs, modelName) + EventOf(c, modelName)
  {
    StreamEventsAppend(cs, [c], modelName);
    assert [c][1..] == [];
    assert StreamEvents([c], modelName) == EventOf(c, modelName) + [];
  }

  /** The handler's accumulated state after the chunks `cs`. */
  predicate Tracks(cs: seq<Chunk>, isClientStreaming: bool, modelName: string,
                   out: seq<Frame>, fullContent: string, chunkCount: nat, firstResponse: Option<Object>) {
    && chunkCount == |cs|
    && fullContent == Concat(cs)
    && firstResponse == FirstObject(cs)
    && out == if isClientStreaming then StreamEvents(cs, modelName) else []
  }

  /**
   * The scanner loop: lines up to the first `data:[DONE]` are read, every
   * decodable `data:` payload is a chunk, the text of each delta is
   * accumulated, and in streaming mode each chunk with a delta is re-emitted
   * normalised. The status is the upstream's when streaming and the default
   * 200 otherwise.
   */
  method HandleStreamResponse(lines: seq<string>, decode: string -> Option<Json>, isClientStreaming: bool,
                              statusCode: int, modelName: string)
    returns (status: int, out: seq<Frame>, fullContent: string, chunkCount: nat, firstResponse: Option<Object>)
    ensures status == if isClientStreaming then statusCode else 200
    ensures chunkCount == |UpstreamChunks(decode, lines)|
    ensures fullContent == Concat(UpstreamChunks(decode, lines))
    ensures firstResponse == FirstObject(UpstreamChunks(decode, lines))
    ensures out == Emitted(decode, lines, isClientStreaming, modelName)
  {
    status := if isClientStreaming then statusCode else 200;
    out, fullContent, chunkCount, firstResponse := ScanLines(lines, decode, isClientStreaming, modelName);
    if !isClientStreaming && firstResponse.Some? {
      out := out + [Document(Aggregate(firstResponse.value, fullContent))];
    }
  }

  /** The `for scanner.Scan()` loop, which ends at the first end marker or with the body. */
  method ScanLines(lines: seq<string>, decode: string -> Option<Json>, isClientStreaming: bool, modelName: string)
    returns (out: seq<Frame>, fullContent: string, chunkCount: nat, firstResponse: Option<Object>)
    ensures Scanned(decode, lines, isClientStreaming, modelName, out, fullContent, chunkCount, firstResponse)
  {
    out, fullContent, chunkCount, firstResponse := [], "", 0, None;
    var i := 0;
    ghost var sawDone := false;
    ghost var body := out;
    while i < |lines|
      invariant 0 <= i <= |lines|
      invariant forall j :: 0 <= j < i ==> !IsDoneLine(lines[j])
      invariant Tracks(Chunks(decode, lines[..i]), isClientStreaming, modelName, out, fullContent, chunkCount, firstResponse)
    {
      var stop;
      ghost var before := out;
      out, fullContent, chunkCount, firstResponse, stop :=
        ReadLine(Chunks(decode, lines[..i]), lines[i], decode, isClientStreaming, modelName, out, fullContent, chunkCount, firstResponse);
      if stop {
        sawDone, body := true, before;
        BeforeDoneStops(lines, i);
        break;
      }
      ChunksStep(decode, lines, i);
      i := i + 1;
    }
    if !sawDone {
      body := out;
    }
    ScanExit(decode, lines, i, sawDone, isClientStreaming, modelName, body, out, fullContent, chunkCount, firstResponse);
  }

  /** What the scanner loop leaves behind: the accumulator over the upstream chunks, and the frames written so far. */
  predicate Scanned(decode: string -> Option<Json>, lines: seq<string>, isClientStreaming: bool, modelName: string,
                    out: seq<Frame>, fullContent: string, chunkCount: nat, firstResponse: Option<Object>) {
    var cs := UpstreamChunks(decode, lines);
    && chunkCount == |cs|
    && fullContent == Concat(cs)
    && firstResponse == FirstObject(cs)
    && out == if isClientStreaming then StreamEvents(cs, modelName) + (if SawDone(lines) then [DoneEvent] else []) else []
  }

  lemma ScanExit(decode: string -> Option<Json>, lines: seq<string>, i: nat, sawDone: bool, isClientStreaming: bool, modelName: string,
                 body: seq<Frame>, out: seq<Frame>, fullContent: string, chunkCount: nat, firstResponse: Option<Object>)
    requires i <= |lines|
    requires sawDone ==> BeforeDone(lines) == lines[..i] && SawDone(lines)
    requires !sawDone ==> i == |lines| && forall j :: 0 <= j < i ==> !IsDoneLine(lines[j])
    requires Tracks(Chunks(decode, lines[..i]), isClientStreaming, modelName, body, fullContent, chunkCount, firstResponse)
    requires out == body + if isClientStreaming && sawDone then [DoneEvent] else []
    ensures Scanned(decode, lines, isClientStreaming, modelName, out, fullContent, chunkCount, firstResponse)
  {
    ScanEnd(decode, lines, i, sawDone);
    var cs := Chunks(decode, lines[..i]);
    assert UpstreamChunks(decode, lines) == cs;
    if !isClientStreaming {
      assert out == [] + [];
    } else if sawDone {
      assert out == StreamEvents(cs, modelName) + [DoneEvent];
    } else {
      assert out == StreamEvents(cs, modelName) + [];
    }
  }

  /** Where the scan ends: at the end marker, or at the end of the body. */
  lemma ScanEnd(decode: string -> Option<Json>, lines: seq<string>, i: nat, sawDone: bool)
    requires i <= |lines|
    requires sawDone ==> BeforeDone(lines) == lines[..i] && SawDone(lines)
    requires !sawDone ==> i == |lines| && forall j :: 0 <= j < i ==> !IsDoneLine(lines[j])
    ensures UpstreamChunks(decode, lines) == Chunks(decode, lines[..i])
    ensures SawDone(lines) == sawDone
  {
    if !sawDone {
      assert lines[..i] == lines;
      NoDoneKeepsAll(lines);
    }
  }

  /** One line of the scanner loop; `stop` is the `break` at the end marker. */
  method ReadLine(ghost cs: seq<Chunk>, line: string, decode: string -> Option<Json>, isClientStreaming: bool, modelName: string,
                  out: seq<Frame>, fullContent: string, chunkCount: nat, firstResponse: Option<Object>)
    returns (out': seq<Frame>, fullContent': string, chunkCount': nat, firstResponse': Option<Object>, stop: bool)
    requires Tracks(cs, isClientStreaming, modelName, out, fullContent, chunkCount, firstResponse)
    ensures stop <==> IsDoneLine(line)
    ensures stop ==> out' == out + (if isClientStreaming then [DoneEvent] else [])
    ensures stop ==> fullContent' == fullContent && chunkCount' == chunkCount && firstResponse' == firstResponse
    ensures !stop ==> Tracks(cs + Chunks(decode, [line]), isClientStreaming, modelName, out', fullContent', chunkCount', firstResponse')
  {
    out', fullContent', chunkCount', firstResponse', stop := out, fullContent, chunkCount, firstResponse, false;
    ChunksOfOne(decode, line);
    if IsDataLine(line) {
      var dataStr := PayloadOf(line);
      if dataStr == DoneToken {
        if isClientStreaming {
          out' := out' + [DoneEvent];
        }
        return out', fullContent', chunkCount', firstResponse', true;
      }
      match DecodeChunk(decode, dataStr) {
        case None =>
        case Some(chunk) =>
          out', fullContent', chunkCount', firstResponse' :=
            Absorb(cs, chunk, isClientStreaming, modelName, out, fullContent, chunkCount, firstResponse);
          return;
      }
    }
    assert cs + [] == cs;
  }

  /** The body of the loop for one decoded chunk. */
  method Absorb(ghost cs: seq<Chunk>, chunk: Chunk, isClientStreaming: bool, modelName: string,
                out: seq<Frame>, fullContent: string, chunkCount: nat, firstResponse: Option<Object>)
    returns (out': seq<Frame>, fullContent': string, chunkCount': nat, firstResponse': Option<Object>)
    requires Tracks(cs, isClientStreaming, modelName, out, fullContent, chunkCount, firstResponse)
    ensures Tracks(cs + [chunk], isClientStreaming, modelName, out', fullContent', chunkCount', firstResponse')
  {
    AccumulateStep(cs, chunk, modelName);
    out', fullContent', chunkCount', firstResponse' := out, fullContent, chunkCount + 1, firstResponse;
    if firstResponse'.None? {
      firstResponse' := AsResponse(chunk);
    }
    var fields := Fields(chunk);
    match FirstDelta(fields) {
      case Some(delta) =>
        fullContent' := fullContent' + StrAt(delta, "content").GetOr("");
        if isClientStreaming {
          var event := ReconstructChunk(fields, modelName);
          out' := out' + [Event(event)];
        }
      case None =>
        assert fullContent + DeltaText(chunk) == fullContent;
    }
  }

  /** The per-chunk rewrite of the streaming branch, field by field on a copy of the chunk. */
  method ReconstructChunk(chunk: Object, modelName: string) returns (event: Object)
    requires FirstDelta(chunk).Some?
    ensures event == Normalize(chunk, modelName)
  {
    event := chunk;
    if StrAt(chunk, "id").Some? {
      event := event["id" := JStr(StrAt(chunk, "id").value)];
    } else if StrAt(chunk, "trace_id").Some? {
      event := event["id" := JStr(StrAt(chunk, "trace_id").value)];
    }
    event := event["object" := JStr(ChunkObject)];
    event := event["model" := JStr(modelName)];
    SameChoices(chunk, event);
    if FirstToolCall(event).Some? {
      event := SetFirstToolCallId(event, Lookup(event, "id"));
    }
  }

  // ---------------------------------------------------------------------
  // What the stream handler promises

  /** A line that yields no chunk and does not end the stream changes nothing the handler writes or accumulates. */
  lemma IgnoredLineChangesNothing(decode: string -> Option<Json>, pre: seq<string>, line: string, post: seq<string>,
                                  isClientStreaming: bool, modelName: string)
    requires !IsDoneLine(line) && LineChunk(decode, line).None?
    ensures UpstreamChunks(decode, pre + [line] + post) == UpstreamChunks(decode, pre + post)
    ensures SawDone(pre + [line] + post) == SawDone(pre + post)
    ensures Emitted(decode, pre + [line] + post, isClientStreaming, modelName) == Emitted(decode, pre + post, isClientStreaming, modelName)
  {
    assert pre + [line] + post == pre + ([line] + post);
    SawDoneAppend(pre, [line] + post);
    SawDoneAppend(pre, post);
    SawDoneAppend([line], post);
    assert !SawDone([line]);
    if !SawDone(pre) {
      IgnoredLineChunks(decode, pre, line, post);
    } else {
      BeforeDoneAppend(pre, [line] + post);
      BeforeDoneAppend(pre, post);
    }
  }

  lemma IgnoredLineChunks(decode: string -> Option<Json>, pre: seq<string>, line: string, post: seq<string>)
    requires !IsDoneLine(line) && LineChunk(decode, line).None? && !SawDone(pre)
    ensures UpstreamChunks(decode, pre + ([line] + post)) == UpstreamChunks(decode, pre + post)
  {
    BeforeDoneAppend(pre, [line] + post);
    BeforeDoneAppend(pre, post);
    BeforeDoneAppend([line], post);
    DoneLineIsExact(line);
    assert !SawDone([line]);
    var rest := BeforeDone(post);
    assert pre + ([line] + rest) == (pre + [line]) + rest;
    ChunksAppend(decode, pre + [line], rest);
    ChunksAppend(decode, pre, [line]);
    ChunksOfOne(decode, line);
    assert Chunks(decode, pre) + [] == Chunks(decode, pre);
    ChunksAppend(decode, pre, rest);
  }

  /** A line without the `data:` prefix is ignored. */
  lemma NonDataLineIgnored(decode: string -> Option<Json>, pre: seq<string>, line: string, post: seq<string>,
                           isClientStreaming: bool, modelName: string)
    requires !IsDataLine(line)
    ensures Emitted(decode, pre + [line] + post, isClientStreaming, modelName) == Emitted(decode, pre + post, isClientStreaming, modelName)
    ensures UpstreamChunks(decode, pre + [line] + post) == UpstreamChunks(decode, pre + post)
  {
    IgnoredLineChangesNothing(decode, pre, line, post, isClientStreaming, modelName);
  }

  /** A `data:` payload that does not decode to an object or `null` is skipped, and reading goes on. */
  lemma UndecodableChunkSkipped(decode: string -> Option<Json>, pre: seq<string>, payload: string, post: seq<string>,
                                isClientStreaming: bool, modelName: string)
    requires payload != DoneToken && DecodeChunk(decode, payload).None?
    ensures Emitted(decode, pre + ["data:" + payload] + post, isClientStreaming, modelName) == Emitted(decode, pre + post, isClientStreaming, modelName)
    ensures UpstreamChunks(decode, pre + ["data:" + payload] + post) == UpstreamChunks(decode, pre + post)
  {
    var line := "data:" + payload;
    assert line[..5] == "data:" && line[5..] == payload;
    IgnoredLineChangesNothing(decode, pre, line, post, isClientStreaming, modelName);
  }

  /** Nothing after the first `data:[DONE]` is read; a streaming client gets the marker last. */
  lemma DoneStopsReading(decode: string -> Option<Json>, pre: seq<string>, post: seq<string>, isClientStreaming: bool, modelName: string)
    requires !SawDone(pre)
    ensures UpstreamChunks(decode, pre + ["data:[DONE]"] + post) == Chunks(decode, pre)
    ensures Emitted(decode, pre + ["data:[DONE]"] + post, isClientStreaming, modelName) == Emitted(decode, pre + ["data:[DONE]"], isClientStreaming, modelName)
    ensures isClientStreaming ==>
              Emitted(decode, pre + ["data:[DONE]"] + post, true, modelName) == StreamEvents(Chunks(decode, pre), modelName) + [DoneEvent]
  {
    var done := "data:[DONE]";
    DoneLineIsExact(done);
    assert pre + [done] + post == pre + ([done] + post);
    BeforeDoneAppend(pre, [done] + post);
    BeforeDoneAppend(pre, [done]);
    assert BeforeDone([done] + post) == [];
    assert BeforeDone([done]) == [];
    assert pre + [] == pre;
    SawDoneAppend(pre, [done] + post);
    SawDoneAppend(pre, [done]);
    assert ([done] + post)[0] == done;
    assert [done][0] == done;
  }

  /** `data: [DONE]`, with a space, is not the end marker: its payload is decoded like any other and reading goes on. */
  lemma SpacedDoneIsNotTheEnd(decode: string -> Option<Json>, post: seq<string>)
    ensures UpstreamChunks(decode, ["data: [DONE]"] + post) ==
              Chunks(decode, ["data: [DONE]"]) + UpstreamChunks(decode, post)
    ensures Chunks(decode, ["data: [DONE]"]) == match DecodeChunk(decode, " [DONE]") case Some(c) => [c] case None => []
  {
    var line := "data: [DONE]";
    DoneLineIsExact(line);
    assert line[5..] == " [DONE]";
    BeforeDoneAppend([line], post);
    assert !SawDone([line]);
    ChunksAppend(decode, [line], BeforeDone(post));
    ChunksOfOne(decode, line);
  }

  /** A chunk whose only choice carries a text delta. */
  function TextChunk(text: string): Object {
    map["choices" := JArr([JObj(map["delta" := JObj(map["content" := JStr(text)])])])]
  }

  lemma TwoTextChunks(decode: string -> Option<Json>, p1: string, p2: string)
    requires p1 != DoneToken && p2 != DoneToken
    requires decode(p1) == Some(JObj(TextChunk("Hello"))) && decode(p2) == Some(JObj(TextChunk(" world")))
    ensures !SawDone(["data:" + p1, "data:" + p2])
    ensures Chunks(decode, ["data:" + p1, "data:" + p2]) == [ObjChunk(TextChunk("Hello")), ObjChunk(TextChunk(" world"))]
  {
    var l1, l2 := "data:" + p1, "data:" + p2;
    assert l1[..5] == "data:" && l1[5..] == p1;
    assert l2[..5] == "data:" && l2[5..] == p2;
    DoneLineIsExact(l1);
    DoneLineIsExact(l2);
    SawDoneAppend([l1], [l2]);
    assert [l1, l2] == [l1] + [l2];
    ChunksAppend(decode, [l1], [l2]);
    ChunksOfOne(decode, l1);
    ChunksOfOne(decode, l2);
  }

  lemma HelloWorldDocument()
    ensures Aggregate(TextChunk("Hello"), "Hello world") ==
              map["choices" := JArr([JObj(map["message" := AssistantMessage("Hello world")])])]
  {
    var choice := map["delta" := JObj(map["content" := JStr("Hello")])];
    var message := map["message" := AssistantMessage("Hello world")];
    assert FirstChoice(TextChunk("Hello")) == Some(choice);
    assert (choice - {"delta"})["message" := AssistantMessage("Hello world")] == message;
    assert [JObj(choice)][0 := JObj(message)] == [JObj(message)];
    assert TextChunk("Hello")["choices" := JArr([JObj(message)])] == map["choices" := JArr([JObj(message)])];
  }

  lemma HelloWorldChunks(decode: string -> Option<Json>, p1: string, p2: string)
    requires p1 != DoneToken && p2 != DoneToken
    requires decode(p1) == Some(JObj(TextChunk("Hello"))) && decode(p2) == Some(JObj(TextChunk(" world")))
    ensures UpstreamChunks(decode, ["data:" + p1, "data:" + p2, "data:[DONE]"]) ==
              [ObjChunk(TextChunk("Hello")), ObjChunk(TextChunk(" world"))]
    ensures SawDone(["data:" + p1, "data:" + p2, "data:[DONE]"])
  {
    var l1, l2 := "data:" + p1, "data:" + p2;
    TwoTextChunks(decode, p1, p2);
    assert [l1, l2, "data:[DONE]"] == [l1, l2] + ["data:[DONE]"] + [];
    DoneStopsReading(decode, [l1, l2], [], false, modelName := "");
    SawDoneAppend([l1, l2], ["data:[DONE]"]);
    DoneLineIsExact("data:[DONE]");
    assert ["data:[DONE]"][0] == "data:[DONE]";
  }

  /** Two text deltas and the end marker: the non-streaming client gets one document holding "Hello world". */
  lemma HelloWorldAggregated(decode: string -> Option<Json>, p1: string, p2: string, modelName: string)
    requires p1 != DoneToken && p2 != DoneToken
    requires decode(p1) == Some(JObj(TextChunk("Hello"))) && decode(p2) == Some(JObj(TextChunk(" world")))
    ensures Emitted(decode, ["data:" + p1, "data:" + p2, "data:[DONE]"], false, modelName) ==
              [Document(map["choices" := JArr([JObj(map["message" := AssistantMessage("Hello world")])])])]
  {
    HelloWorldChunks(decode, p1, p2);
    var c1, c2 := ObjChunk(TextChunk("Hello")), ObjChunk(TextChunk(" world"));
    assert DeltaText(c1) == "Hello";
    assert DeltaText(c2) == " world";
    assert [c1, c2][1..] == [c2];
    assert [c2][1..] == [];
    assert Concat([c2]) == " world" + "";
    assert "Hello" + (" world" + "") == "Hello world";
    assert Concat([c1, c2]) == "Hello world";
    assert FirstObject([c1, c2]) == Some(c1.fields);
    HelloWorldDocument();
  }

  /** The same stream to a streaming client: two events, then the end marker. */
  lemma HelloWorldStreamed(decode: string -> Option<Json>, p1: string, p2: string, modelName: string)
    requires p1 != DoneToken && p2 != DoneToken
    requires decode(p1) == Some(JObj(TextChunk("Hello"))) && decode(p2) == Some(JObj(TextChunk(" world")))
    ensures var out := Emitted(decode, ["data:" + p1, "data:" + p2, "data:[DONE]"], true, modelName);
            |out| == 3 && out[0].Event? && out[1].Event? && out[2] == DoneEvent
  {
    HelloWorldChunks(decode, p1, p2);
    var c1, c2 := ObjChunk(TextChunk("Hello")), ObjChunk(TextChunk(" world"));
    assert [c1, c2][1..] == [c2];
    assert [c2][1..] == [];
    assert FirstDelta(c1.fields).Some? && FirstDelta(c2.fields).Some?;
    assert |StreamEvents([c1, c2], modelName)| == 2;
  }

  // ---------------------------------------------------------------------
  // ForwardRequest, up to the upstream call

  /**
   * `json.Unmarshal` of the request body into a map: an object decodes, and
   * `null` decodes to a nil map, which reads like an empty one; any other
   * value, or text that is not JSON (`None`), fails.
   */
  function DecodeObject(body: Option<Json>): (r: Option<Object>)
    ensures r.Some? <==> body.Some? && (body.value.JObj? || body.value.JNull?)
    ensures r.Some? && body.value.JObj? ==> r.value == body.value.fields
    ensures r.Some? && body.value.JNull? ==> r.value == map[]
  {
    match body
    case Some(JObj(m)) => Some(m)
    case Some(JNull) => Some(map[])
    case _ => None
  }

  /** How a forwarded request ends before the upstream call: an error reply, or the call to make. */
  datatype Forward =
    | Reject(status: int, message: string)
    | Upstream(provider: nat, body: Object, clientStream: bool, modelName: string)

  const StatusBadRequest := 400
  const StatusInternalServerError := 500

  /**
   * The checks and the body rewrite of ForwardRequest: the body must decode,
   * name a string `model` that routes to a provider whose URL parses; the
   * upstream body is the client's with `model` stripped of its provider prefix
   * and `stream` forced on, and the client's own `stream` flag (false unless a
   * boolean) is kept for the reply.
   */
  method ForwardRequest(providers: seq<Provider>, body: Option<Json>, urlError: string -> Option<string>) returns (r: Forward)
    ensures DecodeObject(body).None? <==> r == Reject(StatusBadRequest, "Failed to parse request body")
    ensures DecodeObject(body).Some? && StrAt(DecodeObject(body).value, "model").None? <==>
              r == Reject(StatusBadRequest, "Model not specified")
    ensures DecodeObject(body).Some? && StrAt(DecodeObject(body).value, "model").Some? ==>
              var name := StrAt(DecodeObject(body).value, "model").value;
              && (Resolve(providers, name).None? <==> r == Reject(StatusBadRequest, "Provider not found for model: " + name))
              && (Resolve(providers, name).Some? && urlError(providers[Resolve(providers, name).value].url).Some? <==>
                    r == Reject(StatusInternalServerError, "Invalid provider URL"))
    ensures r.Reject? ==> r.status in {StatusBadRequest, StatusInternalServerError}
    ensures r.Upstream? <==>
              && DecodeObject(body).Some?
              && StrAt(DecodeObject(body).value, "model").Some?
              && Resolve(providers, StrAt(DecodeObject(body).value, "model").value).Some?
              && urlError(providers[Resolve(providers, StrAt(DecodeObject(body).value, "model").value).value].url).None?
    ensures r.Upstream? ==>
              var m := DecodeObject(body).value;
              && StrAt(m, "model") == Some(r.modelName)
              && Resolve(providers, r.modelName) == Some(r.provider)
              && urlError(providers[r.provider].url).None?
              && r.clientStream == BoolAt(m, "stream").GetOr(false)
              && r.body.Keys == m.Keys + {"model", "stream"}
              && r.body["stream"] == JBool(true)
              && r.body["model"].JStr?
              && "[" + providers[r.provider].name + "]" + r.body["model"].s == r.modelName
              && forall k :: k in m && k !in {"model", "stream"} ==> r.body[k] == m[k]
  {
    var requestBody: Object;
    match DecodeObject(body) {
      case None => return Reject(StatusBadRequest, "Failed to parse request body");
      case Some(m) => requestBody := m;
    }
    if StrAt(requestBody, "model").None? {
      return Reject(StatusBadRequest, "Model not specified");
    }
    var modelName := StrAt(requestBody, "model").value;
    var provider := FindProvider(providers, modelName);
    if provider.None? {
      return Reject(StatusBadRequest, "Provider not found for model: " + modelName);
    }
    var clientRequestedStream := BoolAt(requestBody, "stream").GetOr(false);
    var actualModelName := GetActualModelName(providers, modelName);
    requestBody := requestBody["model" := JStr(actualModelName)];
    requestBody := requestBody["stream" := JBool(true)];
    if urlError(providers[provider.value].url).Some? {
      return Reject(StatusInternalServerError, "Invalid provider URL");
    }
    return Upstream(provider.value, requestBody, clientRequestedStream, modelName);
  }

  // ---------------------------------------------------------------------
  // ModelsHandler

  /** One listed model; `objectType` is the JSON key `object`. */
  datatype Model = Model(id: string, objectType: string)

  datatype ModelsResponse = ModelsResponse(objectType: string, data: seq<Model>)

  /** The qualified id a client uses for `model` of provider `p`. */
  function QualifiedId(p: Provider, model: string): string {
    "[" + p.name + "]" + model
  }

  /** The entries one provider contributes, in its own model order. */
  function ProviderModels(p: Provider): (r: seq<Model>)
    ensures |r| == |p.models|
    ensures forall j :: 0 <= j < |r| ==> r[j] == Model(QualifiedId(p, p.models[j]), "model")
  {
    seq(|p.models|, j requires 0 <= j < |p.models| => Model(QualifiedId(p, p.models[j]), "model"))
  }

  /** Every (provider, model) pair in configuration order. */
  function Listing(providers: seq<Provider>): seq<Model> {
    if providers == [] then [] else ProviderModels(providers[0]) + Listing(providers[1..])
  }

  /** The number of configured models across all providers. */
  function ModelCount(providers: seq<Provider>): nat {
    if providers == [] then 0 else |providers[0].models| + ModelCount(providers[1..])
  }

  lemma {:induction false} ListingAppend(a: seq<Provider>, b: seq<Provider>)
    ensures Listing(a + b) == Listing(a) + Listing(b)
    ensures ModelCount(a + b) == ModelCount(a) + ModelCount(b)
  {
    if a == [] {
      assert a + b == b;
    } else {
      assert (a + b)[0] == a[0];
      assert (a + b)[1..] == a[1..] + b;
      ListingAppend(a[1..], b);
    }
  }

  /** The listing has one entry per configured model. */
  lemma {:induction false} ListingLength(providers: seq<Provider>)
    ensures |Listing(providers)| == ModelCount(providers)
  {
    if providers != [] {
      ListingLength(providers[1..]);
    }
  }

  /** Model `j` of provider `i` sits after the models of the providers before `i`. */
  lemma {:induction false} ListingAt(providers: seq<Provider>, i: nat, j: nat)
    requires i < |providers| && j < |providers[i].models|
    ensures ModelCount(providers[..i]) + j < |Listing(providers)|
    ensures Listing(providers)[ModelCount(providers[..i]) + j] == Model(QualifiedId(providers[i], providers[i].models[j]), "model")
  {
    assert providers == providers[..i] + providers[i..];
    ListingAppend(providers[..i], providers[i..]);
    ListingLength(providers[..i]);
    assert providers[i..][0] == providers[i];
    assert Listing(providers[i..]) == ProviderModels(providers[i]) + Listing(providers[i..][1..]);
  }

  /**
   * Every id the listing advertises routes back: when no provider name holds
   * `]` and the model is not empty, the server router picks a provider of the
   * same name and forwards the bare model name.
   */
  lemma ListedIdsRoute(providers: seq<Provider>, i: nat, j: nat)
    requires i < |providers| && j < |providers[i].models| && providers[i].models[j] != []
    requires forall k :: 0 <= k < |providers| ==> ']' !in providers[k].name
    ensures ModelCount(providers[..i]) + j < |Listing(providers)|
    ensures var id := Listing(providers)[ModelCount(providers[..i]) + j].id;
            && Resolve(providers, id).Some?
            && providers[Resolve(providers, id).value].name == providers[i].name
            && GetActualModelName(providers, id) == providers[i].models[j]
  {
    ListingAt(providers, i, j);
    QualifiedIdRoutes(providers, i, providers[i].models[j]);
  }

  /** The encoded reply: a nil slice of models (none configured) is JSON `null`. */
  function ModelsJson(response: ModelsResponse): (r: Json)
    ensures r.JObj? && r.fields.Keys == {"object", "data"} && r.fields["object"] == JStr(response.objectType)
    ensures r.fields["data"].JNull? <==> response.data == []
    ensures response.data != [] ==> r.fields["data"].JArr? && |r.fields["data"].items| == |response.data|
  {
    var data := if response.data == [] then JNull
                else JArr(seq(|response.data|, k requires 0 <= k < |response.data| =>
                         JObj(map["id" := JStr(response.data[k].id), "object" := JStr(response.data[k].objectType)])));
    JObj(map["object" := JStr(response.objectType), "data" := data])
  }

  /** The listing loops: for each provider, for each of its models, one entry. */
  method ModelsHandler(providers: seq<Provider>) returns (response: ModelsResponse)
    ensures response.objectType == "list"
    ensures response.data == Listing(providers)
  {
    var models: seq<Model> := [];
    var i := 0;
    while i < |providers|
      invariant 0 <= i <= |providers|
      invariant models == Listing(providers[..i])
    {
      var provider := providers[i];
      var j := 0;
      while j < |provider.models|
        invariant 0 <= j <= |provider.models|
        invariant models == Listing(providers[..i]) + ProviderModels(provider)[..j]
      {
        models := models + [Model("[" + provider.name + "]" + provider.models[j], "model")];
        assert ProviderModels(provider)[..j + 1] == ProviderModels(provider)[..j] + [ProviderModels(provider)[j]];
        j := j + 1;
      }
      assert ProviderModels(provider)[..j] == ProviderModels(provider);
      assert providers[..i + 1] == providers[..i] + [provider];
      ListingAppend(providers[..i], [provider]);
      assert [provider][1..] == [];
      assert Listing([provider]) == ProviderModels(provider) + [];
      i := i + 1;
    }
    assert providers[..i] == providers;
    response := ModelsResponse("list", models);
  }
}
