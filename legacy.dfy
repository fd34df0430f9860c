/**
 * The older single-file server, main.go. Its router, request rewrite and
 * stream handler differ from server/ in a few observable ways, each stated
 * as a lemma at the end: a bare `[name]` id routes, the event id prefers
 * `trace_id`, the client model id is written under `modal` (and `model` is
 * left as the upstream sent it), and in streaming mode a chunk whose first
 * delta has an empty `tool_calls` list indexes past its end: the goroutine
 * panics and nothing more is written. Its models listing is the same code as
 * the server's and is modelled once, as Handlers.ModelsHandler.
 */
module Legacy {
  import opened Wrappers
  import opened Json
  import opened Types
  import opened Sse
  import Router
  import Handlers

  // ---------------------------------------------------------------------
  // findProvider / getActualModelName

  /** `strings.HasPrefix(modelName, "[" + name + "]")`: nothing is required after the bracket. */
  predicate HasBracketPrefix(name: string, modelName: string) {
    |modelName| >= |name| + 2 && modelName[..|name| + 2] == "[" + name + "]"
  }

  function ResolveFrom(providers: seq<Provider>, modelName: string, from: nat): (r: Option<nat>)
    requires from <= |providers|
    ensures r.Some? ==> from <= r.value < |providers| && HasBracketPrefix(providers[r.value].name, modelName)
    ensures r.Some? ==> forall j :: from <= j < r.value ==> !HasBracketPrefix(providers[j].name, modelName)
    ensures r.None? ==> forall j :: from <= j < |providers| ==> !HasBracketPrefix(providers[j].name, modelName)
    decreases |providers| - from
  {
    if from == |providers| then None
    else if HasBracketPrefix(providers[from].name, modelName) then Some(from)
    else ResolveFrom(providers, modelName, from + 1)
  }

  /** The provider findProvider returns: the first whose bracketed name prefixes the id. */
  function Resolve(providers: seq<Provider>, modelName: string): (r: Option<nat>)
    ensures r.Some? ==> r.value < |providers| && HasBracketPrefix(providers[r.value].name, modelName)
    ensures r.Some? ==> forall j :: 0 <= j < r.value ==> !HasBracketPrefix(providers[j].name, modelName)
    ensures r.None? <==> forall j :: 0 <= j < |providers| ==> !HasBracketPrefix(providers[j].name, modelName)
  {
    ResolveFrom(providers, modelName, 0)
  }

  method FindProvider(providers: seq<Provider>, modelName: string) returns (r: Option<nat>)
    ensures r == Resolve(providers, modelName)
  {
    var i := 0;
    while i < |providers|
      invariant 0 <= i <= |providers|
      invariant forall j :: 0 <= j < i ==> !HasBracketPrefix(providers[j].name, modelName)
    {
      var prefix := "[" + providers[i].name + "]";
      if |modelName| >= |prefix| && modelName[..|prefix|] == prefix {
        return Some(i);
      }
      i := i + 1;
    }
    return None;
  }

  /** `strings.TrimPrefix` of the resolved provider's bracketed name (possibly leaving ""). */
  function GetActualModelName(providers: seq<Provider>, modelName: string): (r: string)
    ensures Resolve(providers, modelName).Some? ==>
              modelName == "[" + providers[Resolve(providers, modelName).value].name + "]" + r
    ensures Resolve(providers, modelName).None? ==> r == modelName
  {
    match Resolve(providers, modelName)
    case Some(k) =>
      assert modelName == modelName[..|providers[k].name| + 2] + modelName[|providers[k].name| + 2..];
      modelName[|providers[k].name| + 2..]
    case None => modelName
  }

  /** The legacy test accepts exactly what the server's accepts, plus the bare `[name]`. */
  lemma PrefixIsMatchOrBare(name: string, modelName: string)
    ensures HasBracketPrefix(name, modelName) <==> Router.Matches(name, modelName) || modelName == "[" + name + "]"
  {
    var prefix := "[" + name + "]";
    assert |prefix| == |name| + 2 && prefix[0] == '[' && prefix[|name| + 1] == ']' && prefix[1..|name| + 1] == name;
    if Router.Matches(name, modelName) || modelName == prefix {
      if modelName != prefix {
        assert modelName[..|name| + 2] == [modelName[0]] + modelName[1..|name| + 1] + [modelName[|name| + 1]];
      }
    }
    if HasBracketPrefix(name, modelName) {
      assert modelName[..|name| + 2][1..|name| + 1] == modelName[1..|name| + 1];
      assert |modelName| == |name| + 2 ==> modelName == modelName[..|name| + 2];
    }
  }

  /** When the id is no provider's bare `[name]`, both routers pick the same provider and forward the same model name. */
  lemma {:induction false} RoutersAgreeFrom(providers: seq<Provider>, modelName: string, from: nat)
    requires from <= |providers|
    requires forall j :: from <= j < |providers| ==> modelName != "[" + providers[j].name + "]"
    ensures ResolveFrom(providers, modelName, from) == Router.ResolveFrom(providers, modelName, from)
    decreases |providers| - from
  {
    if from < |providers| {
      PrefixIsMatchOrBare(providers[from].name, modelName);
      RoutersAgreeFrom(providers, modelName, from + 1);
    }
  }

  lemma RoutersAgree(providers: seq<Provider>, modelName: string)
    requires forall j :: 0 <= j < |providers| ==> modelName != "[" + providers[j].name + "]"
    ensures Resolve(providers, modelName) == Router.Resolve(providers, modelName)
    ensures GetActualModelName(providers, modelName) == Router.GetActualModelName(providers, modelName)
  {
    RoutersAgreeFrom(providers, modelName, 0);
  }

  /** A bare `[name]` routes here, upstream model "", but resolves to nothing on the server. */
  lemma BareIdRoutesOnlyHere(p: Provider)
    ensures Resolve([p], "[" + p.name + "]") == Some(0)
    ensures GetActualModelName([p], "[" + p.name + "]") == ""
    ensures Router.Resolve([p], "[" + p.name + "]").None?
  {
    PrefixIsMatchOrBare(p.name, "[" + p.name + "]");
    Router.BareBracketNeverResolves([p], p.name);
    assert ("[" + p.name + "]")[..|p.name| + 2] == "[" + p.name + "]";
    assert ("[" + p.name + "]")[|p.name| + 2..] == "";
  }

  // ---------------------------------------------------------------------
  // forwardRequest, up to the upstream call

  /** The same checks and rewrite as the server's, with the legacy router. */
  method ForwardRequest(providers: seq<Provider>, body: Option<Json>, urlError: string -> Option<string>) returns (r: Handlers.Forward)
    ensures Handlers.DecodeObject(body).None? <==> r == Handlers.Reject(400, "Failed to parse request body")
    ensures Handlers.DecodeObject(body).Some? && StrAt(Handlers.DecodeObject(body).value, "model").None? <==>
              r == Handlers.Reject(400, "Model not specified")
    ensures Handlers.DecodeObject(body).Some? && StrAt(Handlers.DecodeObject(body).value, "model").Some? ==>
              var name := StrAt(Handlers.DecodeObject(body).value, "model").value;
              && (Resolve(providers, name).None? <==> r == Handlers.Reject(400, "Provider not found for model: " + name))
              && (Resolve(providers, name).Some? && urlError(providers[Resolve(providers, name).value].url).Some? <==>
                    r == Handlers.Reject(500, "Invalid provider URL"))
    ensures r.Upstream? <==>
              && Handlers.DecodeObject(body).Some?
              && StrAt(Handlers.DecodeObject(body).value, "model").Some?
              && Resolve(providers, StrAt(Handlers.DecodeObject(body).value, "model").value).Some?
              && urlError(providers[Resolve(providers, StrAt(Handlers.DecodeObject(body).value, "model").value).value].url).None?
    ensures r.Upstream? ==>
              var m := Handlers.DecodeObject(body).value;
              && StrAt(m, "model") == Some(r.modelName)
              && Resolve(providers, r.modelName) == Some(r.provider)
              && urlError(providers[r.provider].url).None?
              && r.clientStream == BoolAt(m, "stream").GetOr(false)
              && r.body.Keys == m.Keys + {"model", "stream"}
              && r.body["stream"] == JBool(true)
              && r.body["model"].JStr?
              && "[" + providers[r.provider].name + "]" + r.body["model"].s == r.modelName
              && forall k :: k in m && k !in {"model", "stream"} ==> r.body[k] == m[k]
  {
    var requestBody: Object;
    match Handlers.DecodeObject(body) {
      case None => return Handlers.Reject(400, "Failed to parse request body");
      case Some(m) => requestBody := m;
    }
    if StrAt(requestBody, "model").None? {
      return Handlers.Reject(400, "Model not specified");
    }
    var modelName := StrAt(requestBody, "model").value;
    var provider := FindProvider(providers, modelName);
    if provider.None? {
      return Handlers.Reject(400, "Provider not found for model: " + modelName);
    }
    var clientRequestedStream := BoolAt(requestBody, "stream").GetOr(false);
    var actualModelName := GetActualModelName(providers, modelName);
    requestBody := requestBody["model" := JStr(actualModelName)];
    requestBody := requestBody["stream" := JBool(true)];
    if urlError(providers[provider.value].url).Some? {
      return Handlers.Reject(500, "Invalid provider URL");
    }
    return Handlers.Upstream(provider.value, requestBody, clientRequestedStream, modelName);
  }

  // ---------------------------------------------------------------------
  // handleStreamResponse

  /** The first delta's `tool_calls` is an empty list: `toolCalls[0]` panics. */
  predicate Crashes(c: Chunk) {
    FirstDelta(Fields(c)).Some? && ArrAt(FirstDelta(Fields(c)).value, "tool_calls") == Some([])
  }

  /**
   * The legacy event: `id` replaced by a string `trace_id` only, `object`
   * forced, the client model id added under `modal` with `model` untouched,
   * and the first tool call stamped with the event's id. `None` when the
   * tool-call access panics.
   */
  function LegacyNormalize(chunk: Object, modalName: string): (r: Option<Object>)
    requires FirstDelta(chunk).Some?
    ensures r.None? <==> Crashes(ObjChunk(chunk))
    ensures r.Some? ==>
              && r.value.Keys == chunk.Keys + {"object", "modal"} + (if StrAt(chunk, "trace_id").Some? then {"id"} else {})
              && r.value["object"] == JStr(ChunkObject)
              && r.value["modal"] == JStr(modalName)
              && (StrAt(chunk, "trace_id").Some? ==> r.value["id"] == chunk["trace_id"])
              && (StrAt(chunk, "trace_id").None? && "id" in chunk ==> r.value["id"] == chunk["id"])
              && (forall k :: k in chunk && k !in {"id", "object", "modal", "choices"} ==> r.value[k] == chunk[k])
              && DeltaText(ObjChunk(r.value)) == DeltaText(ObjChunk(chunk))
              && (FirstToolCall(chunk).Some? ==> FirstToolCall(r.value) == Some(FirstToolCall(chunk).value["id" := Lookup(r.value, "id")]))
              && (FirstToolCall(chunk).Some? ==> StampedChoices(chunk, r.value, Lookup(r.value, "id")))
              && (FirstToolCall(chunk).None? ==> r.value["choices"] == chunk["choices"])
  {
    var copied := if StrAt(chunk, "trace_id").Some? then chunk["id" := JStr(StrAt(chunk, "trace_id").value)] else chunk;
    var base := copied["object" := JStr(ChunkObject)]["modal" := JStr(modalName)];
    SameChoices(chunk, base);
    if Crashes(ObjChunk(chunk)) then None
    else Some(StampFirstToolCall(base, Lookup(base, "id")))
  }

  /** The chunks read until and including the first that crashes. */
  function UntilCrash(cs: seq<Chunk>): (r: seq<Chunk>)
    ensures |r| <= |cs| && r == cs[..|r|]
  {
    if cs == [] then []
    else if Crashes(cs[0]) then [cs[0]]
    else [cs[0]] + UntilCrash(cs[1..])
  }

  predicate Crashed(cs: seq<Chunk>) {
    exists i :: 0 <= i < |cs| && Crashes(cs[i])
  }

  /** The events streamed before a crash. */
  function LegacyEvents(cs: seq<Chunk>, modalName: string): (r: seq<Frame>)
    ensures |r| <= |cs|
  {
    if cs == [] then []
    else if Crashes(cs[0]) then []
    else LegacyEventOf(cs[0], modalName) + LegacyEvents(cs[1..], modalName)
  }

  function LegacyEventOf(c: Chunk, modalName: string): (r: seq<Frame>)
    requires !Crashes(c)
    ensures |r| <= 1
  {
    if FirstDelta(Fields(c)).Some? then [Event(LegacyNormalize(Fields(c), modalName).value)] else []
  }

  /** Every legacy event carries the client's model id under `modal`. */
  lemma {:induction false} LegacyEventsCarryModal(cs: seq<Chunk>, modalName: string)
    ensures forall i :: 0 <= i < |LegacyEvents(cs, modalName)| ==>
              LegacyEvents(cs, modalName)[i].Event? && "modal" in LegacyEvents(cs, modalName)[i].chunk &&
              LegacyEvents(cs, modalName)[i].chunk["modal"] == JStr(modalName)
  {
    if cs != [] && !Crashes(cs[0]) {
      LegacyEventsCarryModal(cs[1..], modalName);
      var head: seq<Frame>, tail: seq<Frame> := LegacyEventOf(cs[0], modalName), LegacyEvents(cs[1..], modalName);
      assert LegacyEvents(cs, modalName) == head + tail;
      forall i | 0 <= i < |head + tail|
        ensures (head + tail)[i].Event? && "modal" in (head + tail)[i].chunk && (head + tail)[i].chunk["modal"] == JStr(modalName)
      {
        if i >= |head| {
          assert (head + tail)[i] == tail[i - |head|];
        }
      }
    }
  }

  /** What the legacy handler writes: the non-streaming document is the server's. */
  function LegacyEmitted(decode: string -> Option<Json>, lines: seq<string>, isClientStreaming: bool, modalName: string): seq<Frame> {
    var cs := UpstreamChunks(decode, lines);
    if isClientStreaming then
      LegacyEvents(cs, modalName) + (if !Crashed(cs) && SawDone(lines) then [DoneEvent] else [])
    else
      Handlers.Emitted(decode, lines, false, modalName)
  }

  lemma CrashedUnfold(cs: seq<Chunk>)
    requires cs != []
    ensures Crashed(cs) <==> Crashes(cs[0]) || Crashed(cs[1..])
  {
    if Crashed(cs) && !Crashes(cs[0]) {
      var i :| 0 <= i < |cs| && Crashes(cs[i]);
      assert cs[1..][i - 1] == cs[i];
    }
    if Crashed(cs[1..]) {
      var i :| 0 <= i < |cs[1..]| && Crashes(cs[1..][i]);
      assert cs[i + 1] == cs[1..][i];
    }
  }

  lemma CrashedAppend(a: seq<Chunk>, b: seq<Chunk>)
    ensures Crashed(a + b) <==> Crashed(a) || Crashed(b)
  {
    if Crashed(a + b) {
      var i :| 0 <= i < |a + b| && Crashes((a + b)[i]);
      if i >= |a| {
        assert b[i - |a|] == (a + b)[i];
      }
    }
    if Crashed(a) {
      var i :| 0 <= i < |a| && Crashes(a[i]);
      assert (a + b)[i] == a[i];
    }
    if Crashed(b) {
      var i :| 0 <= i < |b| && Crashes(b[i]);
      assert (a + b)[|a| + i] == b[i];
    }
  }

  lemma {:induction false} UntilCrashAppend(a: seq<Chunk>, b: seq<Chunk>)
    requires !Crashed(a)
    ensures UntilCrash(a + b) == a + UntilCrash(b)
  {
    if a == [] {
      assert a + b == b;
    } else {
      CrashedUnfold(a);
      assert (a + b)[0] == a[0];
      assert (a + b)[1..] == a[1..] + b;
      UntilCrashAppend(a[1..], b);
      assert a == [a[0]] + a[1..];
    }
  }

  lemma {:induction false} LegacyEventsAppend(a: seq<Chunk>, b: seq<Chunk>, modalName: string)
    requires !Crashed(a)
    ensures LegacyEvents(a + b, modalName) == LegacyEvents(a, modalName) + LegacyEvents(b, modalName)
  {
    if a == [] {
      assert a + b == b;
    } else {
      CrashedUnfold(a);
      assert (a + b)[0] == a[0];
      assert (a + b)[1..] == a[1..] + b;
      LegacyEventsAppend(a[1..], b, modalName);
    }
  }

  lemma NoCrashAppend(a: seq<Chunk>, b: seq<Chunk>, modalName: string)
    requires !Crashed(a)
    ensures UntilCrash(a + b) == a + UntilCrash(b)
    ensures LegacyEvents(a + b, modalName) == LegacyEvents(a, modalName) + LegacyEvents(b, modalName)
    ensures Crashed(a + b) <==> Crashed(b)
  {
    CrashedAppend(a, b);
    UntilCrashAppend(a, b);
    LegacyEventsAppend(a, b, modalName);
  }

  lemma CrashingHead(c: Chunk, rest: seq<Chunk>, modalName: string)
    requires Crashes(c)
    ensures UntilCrash([c] + rest) == [c]
    ensures LegacyEvents([c] + rest, modalName) == []
    ensures Crashed([c] + rest)
  {
    assert ([c] + rest)[0] == c;
  }

  lemma NoCrashStep(cs: seq<Chunk>, c: Chunk, modalName: string)
    requires !Crashed(cs) && !Crashes(c)
    ensures !Crashed(cs + [c])
    ensures LegacyEvents(cs + [c], modalName) == LegacyEvents(cs, modalName) + LegacyEventOf(c, modalName)
  {
    NoCrashAppend(cs, [c], modalName);
    assert [c][1..] == [];
    CrashedUnfold([c]);
    assert !Crashed([c][1..]);
  }

  /** The chunks of a stream whose first `i + 1` lines hold no end marker. */
  lemma UpstreamSplit(decode: string -> Option<Json>, lines: seq<string>, i: nat)
    requires i < |lines|
    requires forall j :: 0 <= j <= i ==> !IsDoneLine(lines[j])
    ensures UpstreamChunks(decode, lines) == Chunks(decode, lines[..i + 1]) + UpstreamChunks(decode, lines[i + 1..])
    ensures SawDone(lines) <==> SawDone(lines[i + 1..])
  {
    assert lines == lines[..i + 1] + lines[i + 1..];
    assert !SawDone(lines[..i + 1]);
    BeforeDoneAppend(lines[..i + 1], lines[i + 1..]);
    ChunksAppend(decode, lines[..i + 1], BeforeDone(lines[i + 1..]));
    SawDoneAppend(lines[..i + 1], lines[i + 1..]);
  }

  /** A chunk that crashes at line `i`: nothing after it is processed or written. */
  lemma CrashAt(decode: string -> Option<Json>, lines: seq<string>, i: nat, chunk: Chunk, modalName: string)
    requires i < |lines|
    requires forall j :: 0 <= j <= i ==> !IsDoneLine(lines[j])
    requires LineChunk(decode, lines[i]) == Some(chunk) && Crashes(chunk)
    requires !Crashed(Chunks(decode, lines[..i]))
    ensures Crashed(UpstreamChunks(decode, lines))
    ensures UntilCrash(UpstreamChunks(decode, lines)) == Chunks(decode, lines[..i]) + [chunk]
    ensures LegacyEvents(UpstreamChunks(decode, lines), modalName) == LegacyEvents(Chunks(decode, lines[..i]), modalName)
  {
    var cs, rest := Chunks(decode, lines[..i]), UpstreamChunks(decode, lines[i + 1..]);
    assert UpstreamChunks(decode, lines) == cs + ([chunk] + rest) by {
      ChunksStep(decode, lines, i);
      UpstreamSplit(decode, lines, i);
      assert Chunks(decode, lines[..i + 1]) == cs + [chunk];
      assert (cs + [chunk]) + rest == cs + ([chunk] + rest);
    }
    CrashTail(cs, chunk, rest, modalName);
  }

  lemma CrashTail(cs: seq<Chunk>, chunk: Chunk, rest: seq<Chunk>, modalName: string)
    requires !Crashed(cs) && Crashes(chunk)
    ensures Crashed(cs + ([chunk] + rest))
    ensures UntilCrash(cs + ([chunk] + rest)) == cs + [chunk]
    ensures LegacyEvents(cs + ([chunk] + rest), modalName) == LegacyEvents(cs, modalName)
  {
    CrashingHead(chunk, rest, modalName);
    NoCrashAppend(cs, [chunk] + rest, modalName);
    assert LegacyEvents(cs, modalName) + [] == LegacyEvents(cs, modalName);
  }

  /** The accumulated state after the chunks `processed`. */
  predicate LegacyTracks(processed: seq<Chunk>, events: seq<Frame>, isClientStreaming: bool,
                         out: seq<Frame>, fullContent: string, chunkCount: nat, firstResponse: Option<Object>) {
    && chunkCount == |processed|
    && fullContent == Concat(processed)
    && firstResponse == FirstObject(processed)
    && out == if isClientStreaming then events else []
  }

  /** The loop body for one decoded chunk; `panicked` is the index-out-of-range panic. */
  method Absorb(ghost cs: seq<Chunk>, chunk: Chunk, isClientStreaming: bool, modalName: string,
                out: seq<Frame>, fullContent: string, chunkCount: nat, firstResponse: Option<Object>)
    returns (out': seq<Frame>, fullContent': string, chunkCount': nat, firstResponse': Option<Object>, panicked: bool)
    requires isClientStreaming ==> !Crashed(cs)
    requires LegacyTracks(cs, LegacyEvents(cs, modalName), isClientStreaming, out, fullContent, chunkCount, firstResponse)
    ensures panicked <==> isClientStreaming && Crashes(chunk)
    ensures !panicked ==> LegacyTracks(cs + [chunk], LegacyEvents(cs + [chunk], modalName), isClientStreaming,
                                       out', fullContent', chunkCount', firstResponse')
    ensures !panicked && isClientStreaming ==> !Crashed(cs + [chunk])
    ensures panicked ==> LegacyTracks(cs + [chunk], out, true, out', fullContent', chunkCount', firstResponse')
  {
    ConcatAppend(cs, [chunk]);
    FirstObjectAppend(cs, [chunk]);
    assert [chunk][1..] == [];
    panicked := false;
    out', fullContent', chunkCount', firstResponse' := out, fullContent, chunkCount + 1, firstResponse;
    if firstResponse'.None? {
      firstResponse' := AsResponse(chunk);
    }
    var fields := Fields(chunk);
    match FirstDelta(fields) {
      case Some(delta) =>
        fullContent' := fullContent' + StrAt(delta, "content").GetOr("");
        if isClientStreaming {
          var event := LegacyNormalize(fields, modalName);
          if event.None? {
            return out', fullContent', chunkCount', firstResponse', true;
          }
          NoCrashStep(cs, chunk, modalName);
          out' := out' + [Event(event.value)];
        }
      case None =>
        assert fullContent + DeltaText(chunk) == fullContent;
        if isClientStreaming {
          NoCrashStep(cs, chunk, modalName);
        }
    }
  }

  /**
   * handleStreamResponse of main.go: the server's loop, with the legacy
   * event rewrite, the panic on an empty `tool_calls` list when streaming,
   * and the same aggregate otherwise.
   */
  method HandleStreamResponse(lines: seq<string>, decode: string -> Option<Json>, isClientStreaming: bool,
                              statusCode: int, modalName: string)
    returns (status: int, out: seq<Frame>, fullContent: string, chunkCount: nat, firstResponse: Option<Object>, panicked: bool)
    ensures status == if isClientStreaming then statusCode else 200
    ensures panicked <==> isClientStreaming && Crashed(UpstreamChunks(decode, lines))
    ensures var processed := if isClientStreaming then UntilCrash(UpstreamChunks(decode, lines)) else UpstreamChunks(decode, lines);
            && chunkCount == |processed|
            && fullContent == Concat(processed)
            && firstResponse == FirstObject(processed)
    ensures out == LegacyEmitted(decode, lines, isClientStreaming, modalName)
  {
    status := if isClientStreaming then statusCode else 200;
    out, fullContent, chunkCount, firstResponse, panicked := ScanLines(lines, decode, isClientStreaming, modalName);
    assert UpstreamChunks(decode, lines) + [] == UpstreamChunks(decode, lines);
    if panicked {
      return;
    }
    if !isClientStreaming && firstResponse.Some? {
      out := out + [Document(Aggregate(firstResponse.value, fullContent))];
    }
  }

  /** What the scanner loop leaves behind: the chunks processed (up to a crash when streaming) and the frames written. */
  predicate Scanned(decode: string -> Option<Json>, lines: seq<string>, isClientStreaming: bool, modalName: string,
                    out: seq<Frame>, fullContent: string, chunkCount: nat, firstResponse: Option<Object>, panicked: bool) {
    var cs := UpstreamChunks(decode, lines);
    var processed := if isClientStreaming then UntilCrash(cs) else cs;
    && (panicked <==> isClientStreaming && Crashed(cs))
    && chunkCount == |processed|
    && fullContent == Concat(processed)
    && firstResponse == FirstObject(processed)
    && out == if isClientStreaming then LegacyEvents(cs, modalName) + (if !panicked && SawDone(lines) then [DoneEvent] else []) else []
  }

  /** The scanner loop; a panic ends it with nothing more written. */
  method ScanLines(lines: seq<string>, decode: string -> Option<Json>, isClientStreaming: bool, modalName: string)
    returns (out: seq<Frame>, fullContent: string, chunkCount: nat, firstResponse: Option<Object>, panicked: bool)
    ensures Scanned(decode, lines, isClientStreaming, modalName, out, fullContent, chunkCount, firstResponse, panicked)
  {
    out, fullContent, chunkCount, firstResponse, panicked := [], "", 0, None, false;
    var i := 0;
    ghost var sawDone := false;
    ghost var body := out;
    while i < |lines|
      invariant Progress(decode, lines, i, isClientStreaming, modalName, out, fullContent, chunkCount, firstResponse)
    {
      var stop;
      ghost var before := out;
      out, fullContent, chunkCount, firstResponse, stop, panicked :=
        ReadLine(Chunks(decode, lines[..i]), lines[i], decode, isClientStreaming, modalName, out, fullContent, chunkCount, firstResponse);
      if panicked {
        PanicExit(decode, lines, i, modalName, out, fullContent, chunkCount, firstResponse);
        return;
      }
      if stop {
        sawDone, body := true, before;
        BeforeDoneStops(lines, i);
        break;
      }
      KeepsScanning(decode, lines, i, isClientStreaming, modalName, out, fullContent, chunkCount, firstResponse);
      i := i + 1;
    }
    if !sawDone {
      body := out;
    }
    EndExit(decode, lines, i, sawDone, isClientStreaming, modalName, body, out, fullContent, chunkCount, firstResponse);
  }

  /** The scanner loop's invariant: `i` lines read, none of them the end marker, and no crash so far when streaming. */
  predicate Progress(decode: string -> Option<Json>, lines: seq<string>, i: nat, isClientStreaming: bool, modalName: string,
                     out: seq<Frame>, fullContent: string, chunkCount: nat, firstResponse: Option<Object>) {
    && i <= |lines|
    && (forall j :: 0 <= j < i ==> !IsDoneLine(lines[j]))
    && (isClientStreaming ==> !Crashed(Chunks(decode, lines[..i])))
    && LegacyTracks(Chunks(decode, lines[..i]), LegacyEvents(Chunks(decode, lines[..i]), modalName),
                    isClientStreaming, out, fullContent, chunkCount, firstResponse)
  }

  /** The loop invariant after a line that neither ends the stream nor panics. */
  lemma KeepsScanning(decode: string -> Option<Json>, lines: seq<string>, i: nat, isClientStreaming: bool, modalName: string,
                      out: seq<Frame>, fullContent: string, chunkCount: nat, firstResponse: Option<Object>)
    requires i < |lines| && !IsDoneLine(lines[i])
    requires forall j :: 0 <= j < i ==> !IsDoneLine(lines[j])
    requires isClientStreaming ==> !Crashed(Chunks(decode, lines[..i]) + Chunks(decode, [lines[i]]))
    requires LegacyTracks(Chunks(decode, lines[..i]) + Chunks(decode, [lines[i]]),
                          LegacyEvents(Chunks(decode, lines[..i]) + Chunks(decode, [lines[i]]), modalName),
                          isClientStreaming, out, fullContent, chunkCount, firstResponse)
    ensures Progress(decode, lines, i + 1, isClientStreaming, modalName, out, fullContent, chunkCount, firstResponse)
  {
    ChunksStep(decode, lines, i);
  }

  lemma PanicExit(decode: string -> Option<Json>, lines: seq<string>, i: nat, modalName: string,
                  out: seq<Frame>, fullContent: string, chunkCount: nat, firstResponse: Option<Object>)
    requires i < |lines| && forall j :: 0 <= j <= i ==> !IsDoneLine(lines[j])
    requires LineChunk(decode, lines[i]).Some? && Crashes(LineChunk(decode, lines[i]).value)
    requires !Crashed(Chunks(decode, lines[..i]))
    requires LegacyTracks(Chunks(decode, lines[..i]) + Chunks(decode, [lines[i]]), LegacyEvents(Chunks(decode, lines[..i]), modalName),
                          true, out, fullContent, chunkCount, firstResponse)
    ensures Scanned(decode, lines, true, modalName, out, fullContent, chunkCount, firstResponse, true)
  {
    ChunksOfOne(decode, lines[i]);
    CrashAt(decode, lines, i, LineChunk(decode, lines[i]).value, modalName);
    assert out + [] == out;
  }

  lemma EndExit(decode: string -> Option<Json>, lines: seq<string>, i: nat, sawDone: bool, isClientStreaming: bool, modalName: string,
                body: seq<Frame>, out: seq<Frame>, fullContent: string, chunkCount: nat, firstResponse: Option<Object>)
    requires i <= |lines|
    requires sawDone ==> BeforeDone(lines) == lines[..i] && SawDone(lines)
    requires !sawDone ==> i == |lines| && forall j :: 0 <= j < i ==> !IsDoneLine(lines[j])
    requires isClientStreaming ==> !Crashed(Chunks(decode, lines[..i]))
    requires LegacyTracks(Chunks(decode, lines[..i]), LegacyEvents(Chunks(decode, lines[..i]), modalName),
                          isClientStreaming, body, fullContent, chunkCount, firstResponse)
    requires out == body + if isClientStreaming && sawDone then [DoneEvent] else []
    ensures Scanned(decode, lines, isClientStreaming, modalName, out, fullContent, chunkCount, firstResponse, false)
  {
    Handlers.ScanEnd(decode, lines, i, sawDone);
    var cs := Chunks(decode, lines[..i]);
    if isClientStreaming {
      NoCrashAppend(cs, [], modalName);
      assert cs + [] == cs;
      assert body + [] == body;
    }
  }

  /** One line of the scanner loop: `stop` is the `break` at the end marker, `panicked` the crash. */
  method ReadLine(ghost cs: seq<Chunk>, line: string, decode: string -> Option<Json>, isClientStreaming: bool, modalName: string,
                  out: seq<Frame>, fullContent: string, chunkCount: nat, firstResponse: Option<Object>)
    returns (out': seq<Frame>, fullContent': string, chunkCount': nat, firstResponse': Option<Object>, stop: bool, panicked: bool)
    requires isClientStreaming ==> !Crashed(cs)
    requires LegacyTracks(cs, LegacyEvents(cs, modalName), isClientStreaming, out, fullContent, chunkCount, firstResponse)
    ensures stop <==> IsDoneLine(line)
    ensures panicked <==> isClientStreaming && LineChunk(decode, line).Some? && Crashes(LineChunk(decode, line).value)
    ensures stop ==> out' == out + (if isClientStreaming then [DoneEvent] else [])
    ensures stop ==> fullContent' == fullContent && chunkCount' == chunkCount && firstResponse' == firstResponse
    ensures panicked ==> LegacyTracks(cs + Chunks(decode, [line]), out, true, out', fullContent', chunkCount', firstResponse')
    ensures !stop && !panicked ==>
              && (isClientStreaming ==> !Crashed(cs + Chunks(decode, [line])))
              && LegacyTracks(cs + Chunks(decode, [line]), LegacyEvents(cs + Chunks(decode, [line]), modalName),
                              isClientStreaming, out', fullContent', chunkCount', firstResponse')
  {
    out', fullContent', chunkCount', firstResponse', stop, panicked := out, fullContent, chunkCount, firstResponse, false, false;
    ChunksOfOne(decode, line);
    if IsDataLine(line) {
      var dataStr := PayloadOf(line);
      if dataStr == DoneToken {
        if isClientStreaming {
          out' := out' + [DoneEvent];
        }
        return out', fullContent', chunkCount', firstResponse', true, false;
      }
      match DecodeChunk(decode, dataStr) {
        case None =>
        case Some(chunk) =>
          out', fullContent', chunkCount', firstResponse', panicked :=
            Absorb(cs, chunk, isClientStreaming, modalName, out, fullContent, chunkCount, firstResponse);
          return;
      }
    }
    assert cs + [] == cs;
  }

  // ---------------------------------------------------------------------
  // How the legacy stream differs from the server's

  /** With both a string `id` and a string `trace_id`, the legacy event takes `trace_id` and the server's keeps `id`. */
  lemma TraceIdPreferred(chunk: Object, modelName: string)
    requires FirstDelta(chunk).Some? && !Crashes(ObjChunk(chunk))
    requires StrAt(chunk, "id").Some? && StrAt(chunk, "trace_id").Some?
    ensures LegacyNormalize(chunk, modelName).value["id"] == chunk["trace_id"]
    ensures Handlers.Normalize(chunk, modelName)["id"] == chunk["id"]
  {
  }

  /** The legacy event leaves `model` as the upstream sent it and adds `modal`; the server's overwrites `model`. */
  lemma ModalInsteadOfModel(chunk: Object, modelName: string)
    requires FirstDelta(chunk).Some? && !Crashes(ObjChunk(chunk))
    ensures "modal" in LegacyNormalize(chunk, modelName).value && LegacyNormalize(chunk, modelName).value["modal"] == JStr(modelName)
    ensures ("model" in LegacyNormalize(chunk, modelName).value <==> "model" in chunk)
    ensures "model" in chunk ==> LegacyNormalize(chunk, modelName).value["model"] == chunk["model"]
    ensures Handlers.Normalize(chunk, modelName)["model"] == JStr(modelName)
  {
  }

  /**
   * Streamed, the legacy handler writes one event per chunk with a delta, as
   * the server does, as long as no chunk crashes it; a crash costs the event
   * of the crashing chunk and everything after it.
   */
  lemma {:induction false} EventCounts(cs: seq<Chunk>, modelName: string)
    ensures !Crashed(cs) ==> |LegacyEvents(cs, modelName)| == |Handlers.StreamEvents(cs, modelName)|
    ensures Crashed(cs) ==> |LegacyEvents(cs, modelName)| < |Handlers.StreamEvents(cs, modelName)|
  {
    if cs != [] {
      CrashedUnfold(cs);
      EventCounts(cs[1..], modelName);
      if Crashes(cs[0]) {
        assert |Handlers.EventOf(cs[0], modelName)| == 1;
      }
    }
  }

  /** After a crash the streaming client never sees the end marker. */
  lemma CrashHidesDone(decode: string -> Option<Json>, lines: seq<string>, modalName: string)
    requires Crashed(UpstreamChunks(decode, lines))
    ensures forall i :: 0 <= i < |LegacyEmitted(decode, lines, true, modalName)| ==>
              LegacyEmitted(decode, lines, true, modalName)[i].Event?
    ensures |LegacyEmitted(decode, lines, true, modalName)| < |Handlers.Emitted(decode, lines, true, modalName)|
  {
    EventCounts(UpstreamChunks(decode, lines), modalName);
    LegacyEventsCarryModal(UpstreamChunks(decode, lines), modalName);
  }

  /** A chunk whose first delta carries an empty `tool_calls` list. */
  function EmptyToolCallsChunk(): Object {
    map["choices" := JArr([JObj(map["delta" := JObj(map["tool_calls" := JArr([])])])])]
  }

  lemma EmptyToolCallsCrashes()
    ensures FirstDelta(EmptyToolCallsChunk()).Some? && Crashes(ObjChunk(EmptyToolCallsChunk()))
  {
    var delta := map["tool_calls" := JArr([])];
    assert FirstChoice(EmptyToolCallsChunk()) == Some(map["delta" := JObj(delta)]);
    assert FirstDelta(EmptyToolCallsChunk()) == Some(delta);
  }

  /** The lines `data:<p>` and `data:[DONE]`, with `p` decoding to the object `c`. */
  lemma OneChunkThenDone(decode: string -> Option<Json>, p: string, c: Object)
    requires p != DoneToken && decode(p) == Some(JObj(c))
    ensures UpstreamChunks(decode, ["data:" + p, "data:[DONE]"]) == [ObjChunk(c)]
    ensures SawDone(["data:" + p, "data:[DONE]"])
  {
    var line := "data:" + p;
    assert line[..5] == "data:" && line[5..] == p;
    DoneLineIsExact(line);
    DoneLineIsExact("data:[DONE]");
    assert IsDataLine(line) && PayloadOf(line) == p;
    assert DecodeChunk(decode, p) == Some(ObjChunk(c));
    assert LineChunk(decode, line) == Some(ObjChunk(c));
    ChunksOfOne(decode, line);
    assert Chunks(decode, [line]) == [ObjChunk(c)];
    assert [line, "data:[DONE]"] == [line] + ["data:[DONE]"] + [];
    Handlers.DoneStopsReading(decode, [line], [], true, "");
    assert IsDoneLine([line, "data:[DONE]"][1]);
  }

  /**
   * Streamed, one such chunk and then the end marker: the server writes the
   * chunk's event and the end marker, while the legacy handler panics on
   * `toolCalls[0]` and writes nothing at all.
   */
  lemma EmptyToolCallsPanics(decode: string -> Option<Json>, p: string, modalName: string)
    requires p != DoneToken && decode(p) == Some(JObj(EmptyToolCallsChunk()))
    ensures Crashes(ObjChunk(EmptyToolCallsChunk()))
    ensures LegacyEmitted(decode, ["data:" + p, "data:[DONE]"], true, modalName) == []
    ensures Handlers.Emitted(decode, ["data:" + p, "data:[DONE]"], true, modalName) ==
              [Event(Handlers.Normalize(EmptyToolCallsChunk(), modalName)), DoneEvent]
  {
    var c := EmptyToolCallsChunk();
    EmptyToolCallsCrashes();
    OneChunkThenDone(decode, p, c);
    var cs := UpstreamChunks(decode, ["data:" + p, "data:[DONE]"]);
    assert Crashes(cs[0]);
    assert cs[1..] == [];
    assert Handlers.StreamEvents(cs, modalName) == [Event(Handlers.Normalize(c, modalName))] + [];
  }
}
