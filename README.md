# local-router, modelled in Dafny

local-router is a small HTTP gateway in front of OpenAI-compatible chat-completion
providers. A client names a model as `[provider]model`. The gateway:

- picks the first configured provider whose name sits between the brackets;
- strips the prefix and forwards the request with `stream: true`;
- reads the provider's server-sent-event stream line by line;
- either re-emits each chunk, normalised, to a streaming client, or
  aggregates the streamed text into one JSON document for a non-streaming client.

It also lists every configured model, validates its configuration file and parses a log level.

This project models that core and proves properties of it. It covers two generations of the code:

- the current server (`server/`), in modules `Router`, `Types`, `ConfigValidation`, `LogLevels`, `Sse` and `Handlers`;
- the legacy single-file program (`main.go`), in module `Legacy`.

The legacy module states its differences from the server as lemmas.

Files:

- `wrappers.dfy`: `Option`.
- `json.dfy`: a JSON value and the typed look-ups that Go's `m[k].(T)` assertions perform.
- `types.dfy`: the configuration records, the `get*` helpers, and the request and response records. The records are classes whose `FromMap` fills the receiver in place and whose `ToMap` encodes it.
- `router.dfy`: `FindProvider` and `GetActualModelName`.
- `config.dfy`: `Config.Validate`.
- `loglevel.dfy`: the log-level enum and `parseLogLevel`.
- `sse.dfy`: the stream's lines, chunks, accumulator and aggregate, which both stream handlers share.
- `handlers.dfy`: `HandleStreamResponse`, the request rewrite of `ForwardRequest`, and `ModelsHandler`.
- `legacy.dfy`: the legacy router, request rewrite and stream handler.

The transport is replaced by values:

- the upstream response body is a sequence of lines;
- what the handler writes is a sequence of frames (`Sse.Frame`, with `Sse.Wire` giving the bytes of each);
- JSON decoding is a parameter `decode: string -> Option<Json>`;
- URL parsing is a parameter `urlError`;
- the clock is a parameter `now`.

Go behaviour kept explicitly:

- a JSON `null` decodes into a nil map. Such a chunk is counted but never becomes the aggregated response.
- A nil slice encodes as `null`.
- The end marker is compared exactly: `data:[DONE]`, without trimming. `data: [DONE]` is an ordinary data line.
- `strings.ToUpper` maps U+0131 to `I` and U+017F to `S`.
- The response `FromMap` panics when a chunk has neither a string `id` nor a string `trace_id`.

## Model

| member | source | states |
|---|---|---|
| Types.GetString | server/types.go:271-276 | the string stored under the key, or `""` when the key is missing or holds another type |
| Types.GetBool | server/types.go:278-283 | the boolean under the key, or `false` otherwise |
| Types.GetFloat64 | server/types.go:285-290 | the number under the key, or `0` otherwise |
| Types.GetMap | server/types.go:292-297 | the object under the key, or nil (`None`) otherwise |
| Types.GetSlice | server/types.go:299-304 | the list under the key, or nil (`None`) otherwise |
| Types.GettersReadBackStores | server/types.go:271-304 | for any JSON value stored under a key, each of the five getters gives the value when it has the getter's type and the zero value (`""`, `false`, `0`, nil) otherwise; all five readings of every other key are unchanged |
| Types.MessagesOf | server/types.go:61-74 | one message per object in the list, in order; non-object entries are skipped |
| Types.ChoicesOf | server/types.go:148-174 | one choice per object in the list, no message and no extra fields |
| Types.DeltaOf | server/types.go:160-169 | a choice has a delta iff its `delta` is an object, and the decoded delta has no tool calls |
| Types.CollectExtra | server/types.go:77-82 | the extra bag holds exactly the keys outside the reserved set, with their values |
| Types.Overlay | server/types.go:44-46 | every extra key overrides the base; the other base keys keep their values |
| Types.MessagesJson | server/types.go:41 | an empty message list encodes as `null`, and a non-empty one as a list of the same length and order |
| Types.ChoiceJson | server/types.go:187-233 | an encoded choice holds index and finish_reason, and holds message/delta iff present |
| Types.ChatCompletionRequest.FromMap | server/types.go:50-85 | `model`/`stream` are overwritten only by values of their type; messages are appended; extra is every other key; the error is nil |
| Types.ChatCompletionRequest.ToMap | server/types.go:38-48 | keys are the three typed ones plus the extra keys, and extra wins on a clash |
| Types.RequestRoundTrip | server/types.go:38-85 | decoding then encoding keeps every unrecognised key with its value and reads the typed keys through the getters' defaults |
| Types.ChatCompletionResponse.FromMap | server/types.go:122-185 | panics iff there is neither a string `id` nor a string `trace_id`; `id` is the id or else the trace id; `object` defaults to the chunk object; `created` defaults to the clock; choices are appended; `usage` is untouched |
| Types.ChatCompletionResponse.ToMap | server/types.go:187-233 | keys are the five fixed ones, `usage` when set, and the extras; each value encodes its field unless an extra overrides it |
| Types.ResponseRoundTrip | server/types.go:122-233 | decoding then encoding never yields `usage`, keeps unrecognised keys, and fails iff the id is missing |
| Router.MatchesIffQualified | server/types.go:252-260 | the match test holds iff the id is `[name]` followed by a non-empty rest |
| Router.Resolve | server/types.go:248-261 | the lowest matching provider index, and `None` iff no provider matches |
| Router.FindProvider | server/types.go:248-261 | the search loop returns exactly `Resolve` |
| Router.GetActualModelName | server/types.go:263-268 | on a match, the id is `[name]` plus the non-empty result; otherwise the id is unchanged |
| Router.BareBracketNeverResolves | server/types.go:252-253 | `[name]` with nothing after it never matches `name`, and routes nowhere when the name has no `]` |
| Router.MatchDeterminesName | server/types.go:252-260 | two `]`-free names that both match an id are equal |
| Router.QualifiedIdRoutes | server/types.go:248-268 | `[P]M` with non-empty `M` and `]`-free names routes to a provider named `P` and strips to `M` |
| Router.UnresolvedIsIdentity | server/types.go:263-268 | an id that matches no provider is forwarded unchanged |
| Router.FirstMatchWins | server/types.go:251-260 | with overlapping names, configuration order decides both the provider and the stripped id |
| ConfigValidation.DecimalString | server/config.go:23-39 | the `%d` text of the provider or model number: decimal digits with no leading zero that denote exactly that number |
| ConfigValidation.FirstEmptyModel | server/config.go:37-41 | the first empty model name at or after the start, and `None` iff there is none |
| ConfigValidation.CheckProvider | server/config.go:22-41 | no error iff the provider has a name, a parsable URL, a secret, at least one model and no empty model name |
| ConfigValidation.Validate | server/config.go:12-45 | nil iff the port is in 1..65535, there is a provider and every provider is well formed; the port error iff the port is at most 0 or above 65535; the empty-list error iff the port is valid and there are no providers; any other error is the first defect of a failing provider that every earlier provider passes |
| ConfigValidation.NoProvidersMessage | server/config.go:17-19 | an empty provider list gives "at least one provider must be configured" |
| ConfigValidation.FirstFailingProviderReported | server/config.go:21-42 | the reported error is that of the first failing provider |
| ConfigValidation.EachDefectFails | server/config.go:22-41 | any single defect in any provider makes validation fail |
| ConfigValidation.TestScenarios | server/config_test.go:65-216 | the test table's outcomes follow from the model |
| LogLevels.ToUpper | server/main.go:26 | per-rune upper-casing that keeps the length |
| LogLevels.ParseLogLevel | server/main.go:25-38 | DEBUG, WARN/WARNING and ERROR, each iff the upper-cased input is that word; otherwise INFO |
| LogLevels.AnyCasingSelectsLevel | server/main.go:25-38 | every casing of a level word selects that level |
| LogLevels.CaseInsensitive | server/main.go:26 | inputs equal after upper-casing select the same level |
| LogLevels.UnknownIsInfo | server/main.go:35-36 | the empty input and an unknown word give INFO |
| LogLevels.UnicodeUpperCase | server/main.go:26 | `ınfo` and `warnıng` (dotless i) select INFO and WARN |
| Sse.DoneLineIsExact | server/handlers.go:140-149 | a line ends the stream iff it is exactly `data:[DONE]` |
| Sse.DecodeChunk | server/handlers.go:151-155 | a payload is a chunk iff it decodes to an object or `null` |
| Sse.BeforeDone | server/handlers.go:139-149 | the longest prefix of lines without an end marker, which is followed by the marker when shorter |
| Sse.FirstDelta | server/handlers.go:162-166 | present exactly when choices is a non-empty list whose head is an object holding an object `delta`, and then it is that delta |
| Sse.StampFirstToolCall | server/handlers.go:184-188 | only the first tool call's `id` changes: top-level keys, the other choices, the first choice's other keys, the delta's other keys and the other tool calls are kept; nothing changes when there is no such call |
| Sse.FirstObject | server/handlers.go:157-160 | present iff some chunk is not the nil map |
| Sse.FirstObjectIsFirst | server/handlers.go:157-160 | when present, it is the fields of a non-nil chunk all of whose predecessors are nil, i.e. the first response captured |
| Sse.Aggregate | server/handlers.go:205-216 | `choices[0].delta` is replaced by an assistant message with the full text; every other key and choice is kept; with no delta, nothing changes |
| Sse.BeforeDoneAppend | server/handlers.go:139-149 | reading stops at the first marker, so lines after it never count |
| Sse.ChunksAppend | server/handlers.go:139-160 | decoding distributes over concatenation of lines |
| Handlers.Normalize | server/handlers.go:169-188 | the event is normalised; its keys are the chunk's plus `object`, `model` and (when set) `id`; `id` is the string id, else the string trace id; other keys and the delta text are kept; `choices` is the chunk's with only the first tool call's `id` set to the event's id (unchanged when there is no tool call) |
| Handlers.StreamEventsNormalized | server/handlers.go:169-193 | every streamed event carries `object: chat.completion.chunk` and the client's model id |
| Handlers.Emitted | server/handlers.go:125-227 | streaming: normalised events, then the end marker iff the upstream sent one; non-streaming: one document iff some chunk is a non-nil map |
| Handlers.HandleStreamResponse | server/handlers.go:125-227 | status is the upstream code when streaming and 200 otherwise; chunk count, text and first response are those of the chunks before the marker; the output is `Emitted` |
| Handlers.ScanLines | server/handlers.go:139-199 | the scan loop's accumulators and frames equal the specification functions of the lines read |
| Handlers.ReconstructChunk | server/handlers.go:169-188 | the field-by-field rewrite equals `Normalize` |
| Handlers.IgnoredLineChangesNothing | server/handlers.go:139-155 | a line that is not the marker and yields no chunk changes neither chunks nor output |
| Handlers.NonDataLineIgnored | server/handlers.go:140 | a line without the `data:` prefix is ignored |
| Handlers.UndecodableChunkSkipped | server/handlers.go:151-155 | a payload that does not decode is skipped |
| Handlers.DoneStopsReading | server/handlers.go:142-149 | nothing after the marker is read; streaming output ends with the marker |
| Handlers.SpacedDoneIsNotTheEnd | server/handlers.go:142 | `data: [DONE]` does not end the stream and is decoded as a payload |
| Handlers.HelloWorldAggregated | server/handlers.go:205-223 | two text chunks and the marker give one document with message "Hello world" |
| Handlers.HelloWorldStreamed | server/handlers.go:139-199 | the same stream gives two events and the end marker |
| Handlers.DecodeObject | server/handlers.go:49-54 | the body decodes iff it is an object or `null`; `null` reads as the empty map |
| Handlers.ForwardRequest | server/handlers.go:38-88 | each rejection (400 parse, 400 model, 400 provider, 500 URL) happens iff its condition holds; the request goes upstream iff the body decodes, `model` is a string, a provider resolves and its URL parses, and then the body's `model` is the stripped id, `stream` is true, other keys are kept, and the client's stream flag is recorded |
| Handlers.ProviderModels | server/handlers.go:20-25 | one `[provider]model` entry of type "model" per configured model |
| Handlers.ListingAt | server/handlers.go:18-26 | the listing holds provider `i`'s model `j` at the position counted by the earlier providers |
| Handlers.ListingLength | server/handlers.go:18-26 | the listing has one entry per configured model |
| Handlers.ListedIdsRoute | server/handlers.go:15-26 | every listed id routes back to its provider and strips to its model, when names have no `]` |
| Handlers.ModelsJson | server/handlers.go:28-33 | the response has `object` and `data`; `data` is `null` iff there are no models |
| Handlers.ModelsHandler | server/handlers.go:15-36 | the nested loop yields object "list" and exactly the listing |
| Legacy.Resolve | main.go:56-63 | the lowest provider whose `[name]` is a prefix of the id, and `None` iff none |
| Legacy.FindProvider | main.go:56-63 | the loop returns exactly `Legacy.Resolve` |
| Legacy.GetActualModelName | main.go:65-70 | on a match, the id is `[name]` plus the result (possibly empty); otherwise unchanged |
| Legacy.PrefixIsMatchOrBare | main.go:58 | the legacy test holds iff the server's does or the id is the bare `[name]` |
| Legacy.RoutersAgree | main.go:56-70 | both routers resolve and strip identically unless the id is some bare `[name]` |
| Legacy.BareIdRoutesOnlyHere | main.go:56-70 | the bare `[name]` routes in the legacy router to an empty model, but not in the server |
| Legacy.ForwardRequest | main.go:95-145 | the same rejections, each iff its condition holds, and the same rewrite as the server, with the legacy router; the request goes upstream iff every check passes |
| Legacy.LegacyNormalize | main.go:227-246 | fails iff the first delta's `tool_calls` is an empty list; otherwise `id` is the trace id only, `object` is forced, `modal` is added and `model` is kept, and `choices` is the chunk's with only the first tool call's `id` set to the event's id |
| Legacy.LegacyEventsCarryModal | main.go:227-239 | every event streamed before the first crash carries the client's model id under `modal` |
| Legacy.HandleStreamResponse | main.go:182-286 | a panic happens iff streaming and some chunk crashes; the accumulators are those of the chunks up to the crash; the output is `LegacyEmitted` |
| Legacy.ScanLines | main.go:196-258 | the scan loop, with the crash, equals its specification |
| Legacy.TraceIdPreferred | main.go:233-235 | the legacy event takes the trace id where the server keeps the id |
| Legacy.ModalInsteadOfModel | main.go:237-239 | the legacy event adds `modal` and keeps the upstream `model`; the server overwrites `model` |
| Legacy.EventCounts | main.go:227-246 | without a crash the legacy handler streams as many events as the server, and strictly fewer after one |
| Legacy.CrashHidesDone | main.go:201-207 | after a crash the streaming client sees only events, never the end marker |
| Legacy.EmptyToolCallsPanics | main.go:242-246 | a stream of one chunk with empty `tool_calls` and the marker: the server emits its event and the marker, the legacy handler emits nothing |

## Left out

- LogLevels.ToUpper: only `a`-`z`, U+0131 and U+017F are upper-cased and every other rune is kept, whereas Go's `strings.ToUpper` also upper-cases the other lowercase letters (`é` to `É`). Those letters do not upper-case to ASCII, so `ParseLogLevel` returns the same level either way.
- Strings are sequences of Unicode code points, not Go's byte strings; lengths and indices are in code points, which changes nothing for valid UTF-8 input.
- HTTP transport: reading the request body (including its read error), headers, `WriteHeader` ordering, the upstream request and its headers, and copying the upstream status are not modelled. The status is an input.
- The `http.Flusher` assertion and flushing; writes are frames in order.
- `json.Marshal` failure of the rewritten request (a 500) is not modelled; models are encoded as JSON values.
- `encoding/json`, `bufio.Scanner` (its errors and the 64 KiB line limit) and YAML parsing: decoding is the parameter `decode`, and the lines are given.
- `url.Parse` is the parameter `urlError`. `time.Now` is the parameter `now`.
- JSON numbers are integers; `float64` rounding is not modelled.
- Logging, the logger type and its filter on the levels' `iota` order (only their names and `parseLogLevel` are modelled), `loadConfig`, `findConfigFile`, `main`, the middleware and the mutex around configuration reloads.
- The legacy `modelsHandler` (main.go:72-93) builds the same listing as the server's. It is modelled once, as `Handlers.ModelsHandler`.
- Aliasing of nested maps: Go's copy of a chunk shares its nested maps, so stamping a tool call also changes the original chunk. Nothing reads the original afterwards, so the model updates a value.
- The legacy panic is a `panicked` result: the output up to the panic is kept, and what the HTTP server does after recovering is not modelled.

## Findings

| source | as written | input that shows it | evidently intended | confidence | as-written member | corrected member |
|---|---|---|---|---|---|---|
| main.go:242-246 | `toolCalls[0]` is read without checking that the list is non-empty | a streamed chunk whose `choices[0].delta.tool_calls` is `[]`, followed by `data:[DONE]` | stamp the first tool call only when there is one, which is what server/handlers.go:184 does | not executed | Legacy.EmptyToolCallsPanics | Handlers.Emitted |
