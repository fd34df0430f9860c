/**
 * What both stream handlers (server/handlers.go and main.go) share: the
 * lenient line-oriented reading of the upstream event stream, the decoding
 * of each `data:` payload into a chunk, the accumulated text, and the
 * aggregated document written for a client that did not ask to stream.
 *
 * Decoding is a given partial function `decode` from a payload to a JSON
 * value (`None` for text that is not JSON). Go's `json.Unmarshal` into a
 * `map[string]interface{}` succeeds for an object and for `null` (giving a
 * nil map) and fails for every other value.
 */
module Sse {
  import opened Wrappers
  import opened Json

  const DataPrefix := "data:"
  const DoneToken := "[DONE]"

  /** The `object` value every streamed event carries. */
  const ChunkObject := "chat.completion.chunk"

  /** `strings.HasPrefix(line, "data:")`. */
  predicate IsDataLine(line: string) {
    |line| >= 5 && line[..5] == DataPrefix
  }

  /** `strings.TrimPrefix(line, "data:")`: nothing else is trimmed. */
  function PayloadOf(line: string): string
    requires IsDataLine(line)
  {
    line[5..]
  }

  /** A line that ends the stream: its payload is exactly `[DONE]`. */
  predicate IsDoneLine(line: string) {
    IsDataLine(line) && PayloadOf(line) == DoneToken
  }

  /** The comparison is exact: the only line that ends the stream is `data:[DONE]`. */
  lemma DoneLineIsExact(line: string)
    ensures IsDoneLine(line) <==> line == "data:[DONE]"
    ensures !IsDoneLine("data: [DONE]") && !IsDoneLine("data:[DONE] ") && IsDataLine("data: [DONE]")
  {
    if IsDoneLine(line) {
      assert line == line[..5] + line[5..];
    }
    assert "data: [DONE]"[5..] == " [DONE]";
    assert "data:[DONE] "[5..] == "[DONE] ";
  }

  /** A successfully decoded payload: an object, or the nil map that `null` decodes to. */
  datatype Chunk = ObjChunk(fields: Object) | NilChunk

  /** Reading a nil map behaves like reading an empty one. */
  function Fields(c: Chunk): Object {
    if c.ObjChunk? then c.fields else map[]
  }

  /** The value `firstResponse = chunk` stores: `None` is nil. */
  function AsResponse(c: Chunk): Option<Object> {
    if c.ObjChunk? then Some(c.fields) else None
  }

  function DecodeChunk(decode: string -> Option<Json>, payload: string): (r: Option<Chunk>)
    ensures r.Some? <==> decode(payload).Some? && (decode(payload).value.JObj? || decode(payload).value.JNull?)
  {
    match decode(payload)
    case Some(JObj(m)) => Some(ObjChunk(m))
    case Some(JNull) => Some(NilChunk)
    case _ => None
  }

  /** The chunk a line contributes: only a data line that is not the end marker and whose payload decodes. */
  function LineChunk(decode: string -> Option<Json>, line: string): Option<Chunk> {
    if IsDataLine(line) && !IsDoneLine(line) then DecodeChunk(decode, PayloadOf(line)) else None
  }

  /** The lines read before the first end marker. */
  function BeforeDone(lines: seq<string>): (r: seq<string>)
    ensures |r| <= |lines| && r == lines[..|r|]
    ensures forall i :: 0 <= i < |r| ==> !IsDoneLine(r[i])
    ensures |r| < |lines| ==> IsDoneLine(lines[|r|])
  {
    if lines == [] then []
    else if IsDoneLine(lines[0]) then []
    else [lines[0]] + BeforeDone(lines[1..])
  }

  predicate SawDone(lines: seq<string>) {
    exists i :: 0 <= i < |lines| && IsDoneLine(lines[i])
  }

  /** The decoded chunks of `lines`, in order. */
  function Chunks(decode: string -> Option<Json>, lines: seq<string>): (r: seq<Chunk>)
    ensures |r| <= |lines|
  {
    if lines == [] then []
    else
      var head := match LineChunk(decode, lines[0]) case Some(c) => [c] case None => [];
      head + Chunks(decode, lines[1..])
  }

  /** The chunks the handlers process: those decoded before the first end marker. */
  function UpstreamChunks(decode: string -> Option<Json>, lines: seq<string>): seq<Chunk> {
    Chunks(decode, BeforeDone(lines))
  }

  // ---------------------------------------------------------------------
  // The path `choices[0].delta` and what hangs off it

  /** `choices[0]` when `choices` is a non-empty list whose first element is an object. */
  function FirstChoice(chunk: Object): (r: Option<Object>)
    ensures r.Some? <==> ArrAt(chunk, "choices").Some? && |chunk["choices"].items| > 0 && chunk["choices"].items[0].JObj?
    ensures r.Some? ==> r.value == chunk["choices"].items[0].fields
  {
    match ArrAt(chunk, "choices")
    case Some(items) => if |items| > 0 && items[0].JObj? then Some(items[0].fields) else None
    case None => None
  }

  /** `choices[0].delta` when it is an object. */
  function FirstDelta(chunk: Object): (r: Option<Object>)
    ensures r.Some? ==> FirstChoice(chunk).Some? && ObjAt(FirstChoice(chunk).value, "delta") == r
    ensures r.Some? <==> FirstChoice(chunk).Some? && ObjAt(FirstChoice(chunk).value, "delta").Some?
  {
    match FirstChoice(chunk)
    case Some(choice) => ObjAt(choice, "delta")
    case None => None
  }

  /** The text a chunk adds to the accumulated content: `choices[0].delta.content` when it is a string. */
  function DeltaText(c: Chunk): string {
    match FirstDelta(Fields(c))
    case Some(delta) => StrAt(delta, "content").GetOr("")
    case None => ""
  }

  /** `choices[0].delta.tool_calls[0]` when the list is non-empty and that entry is an object. */
  function FirstToolCall(chunk: Object): (r: Option<Object>)
    ensures r.Some? ==>
              && FirstDelta(chunk).Some?
              && ArrAt(FirstDelta(chunk).value, "tool_calls").Some?
              && var calls := FirstDelta(chunk).value["tool_calls"].items;
                 |calls| > 0 && calls[0].JObj? && r.value == calls[0].fields
  {
    if FirstDelta(chunk).None? then None
    else
      var delta := FirstDelta(chunk).value;
      match ArrAt(delta, "tool_calls")
      case Some(calls) => if |calls| > 0 && calls[0].JObj? then Some(calls[0].fields) else None
      case None => None
  }

  /**
   * `after`'s `choices` is `before`'s with nothing changed but the first tool
   * call's `id`, which is `v`: the other choices, the other keys of the first
   * choice and of its delta, and the other tool calls are all kept.
   */
  predicate StampedChoices(before: Object, after: Object, v: Json)
    requires FirstToolCall(before).Some?
  {
    var items := before["choices"].items;
    var choice := FirstChoice(before).value;
    var delta := FirstDelta(before).value;
    var calls := delta["tool_calls"].items;
    && ArrAt(after, "choices").Some? && |after["choices"].items| == |items|
    && (forall j :: 1 <= j < |items| ==> after["choices"].items[j] == items[j])
    && FirstChoice(after).Some? && FirstChoice(after).value.Keys == choice.Keys
    && (forall k :: k in choice && k != "delta" ==> FirstChoice(after).value[k] == choice[k])
    && FirstDelta(after).Some? && FirstDelta(after).value.Keys == delta.Keys
    && (forall k :: k in delta && k != "tool_calls" ==> FirstDelta(after).value[k] == delta[k])
    && ArrAt(FirstDelta(after).value, "tool_calls").Some?
    && |FirstDelta(after).value["tool_calls"].items| == |calls|
    && (forall j :: 1 <= j < |calls| ==> FirstDelta(after).value["tool_calls"].items[j] == calls[j])
    && FirstToolCall(after) == Some(FirstToolCall(before).value["id" := v])
  }

  /** The in-place `call["id"] = v` on the first tool call, seen through the chunk that shares it. */
  function SetFirstToolCallId(chunk: Object, v: Json): (r: Object)
    requires FirstToolCall(chunk).Some?
    ensures r.Keys == chunk.Keys
    ensures forall k :: k in chunk && k != "choices" ==> r[k] == chunk[k]
    ensures FirstDelta(r).Some? && DeltaText(ObjChunk(r)) == DeltaText(ObjChunk(chunk))
    ensures FirstToolCall(r) == Some(FirstToolCall(chunk).value["id" := v])
    ensures StampedChoices(chunk, r, v)
  {
    var items := chunk["choices"].items;
    var choice := FirstChoice(chunk).value;
    var delta := FirstDelta(chunk).value;
    var calls := delta["tool_calls"].items;
    var call := calls[0].fields["id" := v];
    var delta' := delta["tool_calls" := JArr(calls[0 := JObj(call)])];
    var choice' := choice["delta" := JObj(delta')];
    chunk["choices" := JArr(items[0 := JObj(choice')])]
  }

  /** The tool-call stamp of both stream handlers: a no-op unless there is a first tool call object. */
  function StampFirstToolCall(chunk: Object, v: Json): (r: Object)
    ensures r.Keys == chunk.Keys
    ensures forall k :: k in chunk && k != "choices" ==> r[k] == chunk[k]
    ensures FirstDelta(chunk).Some? ==> FirstDelta(r).Some? && DeltaText(ObjChunk(r)) == DeltaText(ObjChunk(chunk))
    ensures FirstToolCall(chunk).Some? ==> FirstToolCall(r) == Some(FirstToolCall(chunk).value["id" := v])
    ensures FirstToolCall(chunk).Some? ==> StampedChoices(chunk, r, v)
    ensures FirstToolCall(chunk).None? ==> r == chunk
  {
    if FirstToolCall(chunk).Some? then SetFirstToolCallId(chunk, v) else chunk
  }

  /** Two chunks with the same `choices` agree on everything read through `choices[0]`. */
  lemma SameChoices(a: Object, b: Object)
    requires "choices" in a <==> "choices" in b
    requires "choices" in a ==> a["choices"] == b["choices"]
    ensures FirstChoice(a) == FirstChoice(b) && FirstDelta(a) == FirstDelta(b) && FirstToolCall(a) == FirstToolCall(b)
    ensures DeltaText(ObjChunk(a)) == DeltaText(ObjChunk(b))
  {
  }

  // ---------------------------------------------------------------------
  // The accumulator

  /** `fullContent`: the delta texts of `cs`, concatenated in order. */
  function Concat(cs: seq<Chunk>): string {
    if cs == [] then "" else DeltaText(cs[0]) + Concat(cs[1..])
  }

  lemma ConcatStep(cs: seq<Chunk>, c: Chunk)
    ensures Concat(cs + [c]) == Concat(cs) + DeltaText(c)
  {
    ConcatAppend(cs, [c]);
    assert [c][1..] == [];
    assert Concat([c]) == DeltaText(c) + "";
  }

  /** `firstResponse`: the first chunk that is not the nil map. */
  function FirstObject(cs: seq<Chunk>): (r: Option<Object>)
    ensures r.Some? <==> exists i :: 0 <= i < |cs| && cs[i].ObjChunk?
  {
    if cs == [] then None
    else if cs[0].ObjChunk? then Some(cs[0].fields)
    else
      var rest := FirstObject(cs[1..]);
      assert forall i :: 1 <= i < |cs| ==> cs[i] == cs[1..][i - 1];
      rest
  }

  /** `firstResponse` is the fields of the first chunk that is not the nil map, every earlier one being nil. */
  lemma {:induction false} FirstObjectIsFirst(cs: seq<Chunk>)
    ensures FirstObject(cs).Some? ==>
              exists i :: 0 <= i < |cs| && cs[i].ObjChunk? && FirstObject(cs).value == cs[i].fields &&
                          forall j :: 0 <= j < i ==> cs[j].NilChunk?
  {
    if cs != [] && !cs[0].ObjChunk? && FirstObject(cs).Some? {
      FirstObjectIsFirst(cs[1..]);
      var i :| 0 <= i < |cs[1..]| && cs[1..][i].ObjChunk? && FirstObject(cs[1..]).value == cs[1..][i].fields &&
               forall j :: 0 <= j < i ==> cs[1..][j].NilChunk?;
      assert forall j :: 0 <= j < i + 1 ==> cs[j].NilChunk? by {
        forall j | 0 <= j < i + 1 ensures cs[j].NilChunk? {
          if j > 0 { assert cs[j] == cs[1..][j - 1]; }
        }
      }
      assert cs[i + 1] == cs[1..][i];
    }
  }

  /** The message that replaces the first choice's delta in the aggregated document. */
  function AssistantMessage(content: string): Json {
    JObj(map["role" := JStr("assistant"), "content" := JStr(content)])
  }

  /**
   * The aggregated document: the first chunk with `choices[0]`'s `delta` key
   * (whatever its value) removed and a `message` holding the accumulated text
   * added. Without such a choice the chunk is returned untouched.
   */
  function Aggregate(first: Object, content: string): (r: Object)
    ensures r.Keys == first.Keys
    ensures forall k :: k in first && k != "choices" ==> r[k] == first[k]
    ensures FirstChoice(first).Some? && "delta" in FirstChoice(first).value ==>
              && FirstChoice(r).Some?
              && "delta" !in FirstChoice(r).value
              && FirstChoice(r).value == (FirstChoice(first).value - {"delta"})["message" := AssistantMessage(content)]
              && |r["choices"].items| == |first["choices"].items|
              && forall j :: 1 <= j < |first["choices"].items| ==> r["choices"].items[j] == first["choices"].items[j]
    ensures !(FirstChoice(first).Some? && "delta" in FirstChoice(first).value) ==> r == first
  {
    match FirstChoice(first)
    case Some(choice) =>
      if "delta" in choice then
        var items := first["choices"].items;
        first["choices" := JArr(items[0 := JObj((choice - {"delta"})["message" := AssistantMessage(content)])])]
      else first
    case None => first
  }

  // ---------------------------------------------------------------------
  // What the handlers write

  /** One write to the client: a streamed event, the end marker, or the aggregated document. */
  datatype Frame = Event(chunk: Object) | DoneEvent | Document(body: Object)

  /** The bytes of a frame, given the JSON encoder. */
  function Wire(f: Frame, encode: Json -> string): string {
    match f
    case Event(c) => "data: " + encode(JObj(c)) + "\n\n"
    case DoneEvent => "data: [DONE]\n\n"
    case Document(b) => encode(JObj(b)) + "\n"
  }

  // ---------------------------------------------------------------------
  // How the functions above split over concatenated input

  lemma SawDoneUnfold(a: seq<string>)
    requires a != []
    ensures SawDone(a) <==> IsDoneLine(a[0]) || SawDone(a[1..])
  {
    if SawDone(a) && !IsDoneLine(a[0]) {
      var i :| 0 <= i < |a| && IsDoneLine(a[i]);
      assert a[1..][i - 1] == a[i];
    }
    if SawDone(a[1..]) {
      var i :| 0 <= i < |a[1..]| && IsDoneLine(a[1..][i]);
      assert a[i + 1] == a[1..][i];
    }
  }

  lemma {:induction false} BeforeDoneAppend(a: seq<string>, b: seq<string>)
    ensures !SawDone(a) ==> BeforeDone(a + b) == a + BeforeDone(b)
    ensures SawDone(a) ==> BeforeDone(a + b) == BeforeDone(a)
  {
    if a == [] {
      assert a + b == b;
    } else {
      SawDoneUnfold(a);
      assert (a + b)[0] == a[0];
      assert (a + b)[1..] == a[1..] + b;
      if !IsDoneLine(a[0]) {
        BeforeDoneAppend(a[1..], b);
        assert a == [a[0]] + a[1..];
      }
    }
  }

  lemma NoDoneKeepsAll(lines: seq<string>)
    requires !SawDone(lines)
    ensures BeforeDone(lines) == lines
  {
    BeforeDoneAppend(lines, []);
    assert lines + [] == lines;
  }

  lemma {:induction false} ChunksAppend(decode: string -> Option<Json>, a: seq<string>, b: seq<string>)
    ensures Chunks(decode, a + b) == Chunks(decode, a) + Chunks(decode, b)
  {
    if a != [] {
      assert (a + b)[0] == a[0];
      assert (a + b)[1..] == a[1..] + b;
      ChunksAppend(decode, a[1..], b);
    } else {
      assert a + b == b;
    }
  }

  lemma ChunksOfOne(decode: string -> Option<Json>, line: string)
    ensures Chunks(decode, [line]) == match LineChunk(decode, line) case Some(c) => [c] case None => []
  {
    assert [line][1..] == [];
  }

  lemma {:induction false} ConcatAppend(a: seq<Chunk>, b: seq<Chunk>)
    ensures Concat(a + b) == Concat(a) + Concat(b)
  {
    if a != [] {
      assert (a + b)[0] == a[0];
      assert (a + b)[1..] == a[1..] + b;
      ConcatAppend(a[1..], b);
    } else {
      assert a + b == b;
    }
  }

  lemma FirstObjectStep(cs: seq<Chunk>, c: Chunk)
    ensures FirstObject(cs + [c]) == if FirstObject(cs).Some? then FirstObject(cs) else AsResponse(c)
  {
    FirstObjectAppend(cs, [c]);
    assert [c][1..] == [];
  }

  lemma {:induction false} FirstObjectAppend(a: seq<Chunk>, b: seq<Chunk>)
    ensures FirstObject(a + b) == if FirstObject(a).Some? then FirstObject(a) else FirstObject(b)
  {
    if a != [] {
      assert (a + b)[0] == a[0];
      assert (a + b)[1..] == a[1..] + b;
      FirstObjectAppend(a[1..], b);
    } else {
      assert a + b == b;
    }
  }

  lemma SawDoneAppend(a: seq<string>, b: seq<string>)
    ensures SawDone(a + b) <==> SawDone(a) || SawDone(b)
  {
    if SawDone(a + b) {
      var i :| 0 <= i < |a + b| && IsDoneLine((a + b)[i]);
      if i >= |a| {
        assert b[i - |a|] == (a + b)[i];
      }
    }
    if SawDone(a) {
      var i :| 0 <= i < |a| && IsDoneLine(a[i]);
      assert (a + b)[i] == a[i];
    }
    if SawDone(b) {
      var i :| 0 <= i < |b| && IsDoneLine(b[i]);
      assert (a + b)[|a| + i] == b[i];
    }
  }

  /** One more line read: its chunk, if any, is appended. */
  lemma ChunksStep(decode: string -> Option<Json>, lines: seq<string>, i: nat)
    requires i < |lines|
    ensures Chunks(decode, lines[..i + 1]) == Chunks(decode, lines[..i]) + Chunks(decode, [lines[i]])
    ensures LineChunk(decode, lines[i]).None? ==> Chunks(decode, lines[..i + 1]) == Chunks(decode, lines[..i])
    ensures LineChunk(decode, lines[i]).Some? ==>
              Chunks(decode, lines[..i + 1]) == Chunks(decode, lines[..i]) + [LineChunk(decode, lines[i]).value]
  {
    assert Chunks(decode, lines[..i]) + [] == Chunks(decode, lines[..i]);
    assert lines[..i + 1] == lines[..i] + [lines[i]];
    ChunksAppend(decode, lines[..i], [lines[i]]);
    ChunksOfOne(decode, lines[i]);
  }

  /** Reading stops at the first end marker: it is where BeforeDone cuts. */
  lemma BeforeDoneStops(lines: seq<string>, i: nat)
    requires i < |lines| && IsDoneLine(lines[i])
    requires forall j :: 0 <= j < i ==> !IsDoneLine(lines[j])
    ensures BeforeDone(lines) == lines[..i] && SawDone(lines)
  {
    assert lines == lines[..i] + lines[i..];
    BeforeDoneAppend(lines[..i], lines[i..]);
    assert !SawDone(lines[..i]);
    assert lines[i..][0] == lines[i];
    assert lines[..i] + [] == lines[..i];
  }
}
