/**
 * The gateway's configuration records and its canonical chat-completion
 * request and response records (server/types.go). The two records are
 * classes because their `FromMap` methods fill the receiver in place: they
 * overwrite scalar fields, append to the message and choice lists, and build
 * the `Extra` bag of unrecognised keys in a loop over the input map.
 */
module Types {
  import opened Wrappers
  import opened Json

  datatype Provider = Provider(name: string, url: string, secret: string, models: seq<string>)

  datatype Config = Config(port: int, logLevel: string, providers: seq<Provider>)

  datatype ChatMessage = ChatMessage(role: string, content: string)

  /** A tool call; `callType` and `callFunction` are the JSON keys `type` and `function`. */
  datatype ToolCall = ToolCall(id: string, callType: string, callFunction: Object)

  datatype MessageDelta = MessageDelta(role: string, content: string, toolCalls: seq<ToolCall>)

  datatype Choice = Choice(
    index: int,
    message: Option<ChatMessage>,
    delta: Option<MessageDelta>,
    finishReason: string,
    extra: Object)

  /** The keys a request record holds in typed fields; every other key goes to `Extra`. */
  const RequestKeys: set<string> := {"model", "messages", "stream"}

  /** The keys a response record treats as its own; every other key goes to `Extra`. */
  const ResponseKeys: set<string> := {"id", "object", "created", "model", "choices", "usage"}

  /** The `object` value a response gets when the input has no string `object`. */
  const DefaultObject := "chat.completion.chunk"

  // ---------------------------------------------------------------------
  // getString / getBool / getFloat64 / getMap / getSlice

  function GetString(m: Object, key: string): (r: string)
    ensures key in m && m[key].JStr? ==> m[key] == JStr(r)
    ensures !(key in m && m[key].JStr?) ==> r == ""
  {
    StrAt(m, key).GetOr("")
  }

  function GetBool(m: Object, key: string): (r: bool)
    ensures key in m && m[key].JBool? ==> m[key] == JBool(r)
    ensures !(key in m && m[key].JBool?) ==> !r
  {
    BoolAt(m, key).GetOr(false)
  }

  function GetFloat64(m: Object, key: string): (r: int)
    ensures key in m && m[key].JNum? ==> m[key] == JNum(r)
    ensures !(key in m && m[key].JNum?) ==> r == 0
  {
    NumAt(m, key).GetOr(0)
  }

  /** `None` is Go's nil map. */
  function GetMap(m: Object, key: string): (r: Option<Object>)
    ensures key in m && m[key].JObj? ==> r == Some(m[key].fields)
    ensures !(key in m && m[key].JObj?) ==> r == None
  {
    ObjAt(m, key)
  }

  /** `None` is Go's nil slice. */
  function GetSlice(m: Object, key: string): (r: Option<seq<Json>>)
    ensures key in m && m[key].JArr? ==> r == Some(m[key].items)
    ensures !(key in m && m[key].JArr?) ==> r == None
  {
    ArrAt(m, key)
  }

  /**
   * Storing any value under a key and reading it back: the getter of the
   * value's type returns it, every other getter its zero value, and the
   * readings of every other key are unchanged.
   */
  lemma GettersReadBackStores(m: Object, key: string, other: string, v: Json)
    requires other != key
    ensures GetString(m[key := v], key) == (if v.JStr? then v.s else "")
    ensures GetBool(m[key := v], key) == (v.JBool? && v.b)
    ensures GetFloat64(m[key := v], key) == (if v.JNum? then v.n else 0)
    ensures GetMap(m[key := v], key) == (if v.JObj? then Some(v.fields) else None)
    ensures GetSlice(m[key := v], key) == (if v.JArr? then Some(v.items) else None)
    ensures GetString(m[key := v], other) == GetString(m, other)
    ensures GetBool(m[key := v], other) == GetBool(m, other)
    ensures GetFloat64(m[key := v], other) == GetFloat64(m, other)
    ensures GetMap(m[key := v], other) == GetMap(m, other)
    ensures GetSlice(m[key := v], other) == GetSlice(m, other)
  {
  }

  // ---------------------------------------------------------------------
  // Specification functions for the FromMap loops

  /** The message read from one object element of `messages`; missing or non-string fields read as "". */
  function MessageOf(m: Object): ChatMessage {
    ChatMessage(StrAt(m, "role").GetOr(""), StrAt(m, "content").GetOr(""))
  }

  /** One message per object element of `items`, in order; other elements are skipped. */
  function MessagesOf(items: seq<Json>): (r: seq<ChatMessage>)
    ensures |r| <= |items|
    ensures (forall i :: 0 <= i < |items| ==> items[i].JObj?) ==>
              |r| == |items| && forall i :: 0 <= i < |items| ==> r[i] == MessageOf(items[i].fields)
    ensures (forall i :: 0 <= i < |items| ==> !items[i].JObj?) ==> r == []
  {
    if |items| == 0 then []
    else
      var last := items[|items| - 1];
      MessagesOf(items[..|items| - 1]) + (if last.JObj? then [MessageOf(last.fields)] else [])
  }

  /** The delta read from a choice object: present only when `delta` holds an object. */
  function DeltaOf(choice: Object): (r: Option<MessageDelta>)
    ensures r.Some? <==> ObjAt(choice, "delta").Some?
    ensures r.Some? ==> r.value.toolCalls == []
  {
    match ObjAt(choice, "delta")
    case Some(d) => Some(MessageDelta(StrAt(d, "role").GetOr(""), StrAt(d, "content").GetOr(""), []))
    case None => None
  }

  /** The choice read from one object element of `choices`. */
  function ChoiceOf(choice: Object): Choice {
    Choice(NumAt(choice, "index").GetOr(0), None, DeltaOf(choice), StrAt(choice, "finish_reason").GetOr(""), map[])
  }

  /** One choice per object element of `items`, in order; other elements are skipped. */
  function ChoicesOf(items: seq<Json>): (r: seq<Choice>)
    ensures |r| <= |items|
    ensures forall j :: 0 <= j < |r| ==> r[j].message.None? && r[j].extra == map[]
    ensures (forall i :: 0 <= i < |items| ==> items[i].JObj?) ==>
              |r| == |items| && forall i :: 0 <= i < |items| ==> r[i] == ChoiceOf(items[i].fields)
  {
    if |items| == 0 then []
    else
      var last := items[|items| - 1];
      ChoicesOf(items[..|items| - 1]) + (if last.JObj? then [ChoiceOf(last.fields)] else [])
  }

  // ---------------------------------------------------------------------
  // JSON views used by ToMap (the values Go's encoder would write)

  function MessageJson(m: ChatMessage): Json {
    JObj(map["role" := JStr(m.role), "content" := JStr(m.content)])
  }

  /** The message list as ToMap stores it; Go keeps an empty list as a nil slice, which encodes as null. */
  function MessagesJson(ms: seq<ChatMessage>): (r: Json)
    ensures |ms| == 0 <==> r == JNull
    ensures |ms| > 0 ==> r.JArr? && |r.items| == |ms| && forall i :: 0 <= i < |ms| ==> r.items[i] == MessageJson(ms[i])
  {
    if |ms| == 0 then JNull else JArr(seq(|ms|, i requires 0 <= i < |ms| => MessageJson(ms[i])))
  }

  function ToolCallJson(c: ToolCall): Json {
    JObj(map["id" := JStr(c.id), "type" := JStr(c.callType), "function" := JObj(c.callFunction)])
  }

  function DeltaJson(d: MessageDelta): (r: Object)
    ensures "role" in r && "content" in r
    ensures "tool_calls" in r <==> |d.toolCalls| > 0
    ensures "tool_calls" in r ==> r["tool_calls"].JArr? && |r["tool_calls"].items| == |d.toolCalls|
  {
    var base := map["role" := JStr(d.role), "content" := JStr(d.content)];
    if |d.toolCalls| > 0 then
      base["tool_calls" := JArr(seq(|d.toolCalls|, i requires 0 <= i < |d.toolCalls| => ToolCallJson(d.toolCalls[i])))]
    else base
  }

  /** One element of the `choices` list that ToMap writes. */
  function ChoiceJson(c: Choice): (r: Json)
    ensures r.JObj? && "index" in r.fields && "finish_reason" in r.fields
    ensures r.fields["index"] == JNum(c.index) && r.fields["finish_reason"] == JStr(c.finishReason)
    ensures "message" in r.fields <==> c.message.Some?
    ensures "delta" in r.fields <==> c.delta.Some?
    ensures c.delta.Some? ==>
              r.fields["delta"].JObj? && ("tool_calls" in r.fields["delta"].fields <==> |c.delta.value.toolCalls| > 0)
    ensures r.fields.Keys <= {"index", "finish_reason", "message", "delta"}
  {
    var base := map["index" := JNum(c.index), "finish_reason" := JStr(c.finishReason)];
    var withMessage := if c.message.Some? then base["message" := MessageJson(c.message.value)] else base;
    JObj(if c.delta.Some? then withMessage["delta" := JObj(DeltaJson(c.delta.value))] else withMessage)
  }

  // ---------------------------------------------------------------------
  // The two `for k, v := range` loops over maps

  /** The `Extra` bag: every key of `data` outside `reserved`, with its value. */
  method CollectExtra(data: Object, reserved: set<string>) returns (extra: Object)
    ensures extra.Keys == data.Keys - reserved
    ensures forall k :: k in extra ==> extra[k] == data[k]
  {
    extra := map[];
    var keys := data.Keys;
    while keys != {}
      invariant keys <= data.Keys
      invariant extra.Keys == (data.Keys - keys) - reserved
      invariant forall k :: k in extra ==> extra[k] == data[k]
      decreases keys
    {
      var k :| k in keys;
      if k !in reserved {
        extra := extra[k := data[k]];
      }
      keys := keys - {k};
    }
  }

  /** `base` with every key of `extra` written on top of it. */
  method Overlay(base: Object, extra: Object) returns (result: Object)
    ensures result.Keys == base.Keys + extra.Keys
    ensures forall k :: k in extra ==> result[k] == extra[k]
    ensures forall k :: k in base && k !in extra ==> result[k] == base[k]
  {
    result := base;
    var keys := extra.Keys;
    while keys != {}
      invariant keys <= extra.Keys
      invariant result.Keys == base.Keys + (extra.Keys - keys)
      invariant forall k :: k in extra && k !in keys ==> result[k] == extra[k]
      invariant forall k :: k in base && k !in extra ==> result[k] == base[k]
      decreases keys
    {
      var k :| k in keys;
      result := result[k := extra[k]];
      keys := keys - {k};
    }
  }

  lemma ChoicesStep(items: seq<Json>, i: nat)
    requires i < |items|
    ensures items[i].JObj? ==> ChoicesOf(items[..i + 1]) == ChoicesOf(items[..i]) + [ChoiceOf(items[i].fields)]
    ensures !items[i].JObj? ==> ChoicesOf(items[..i + 1]) == ChoicesOf(items[..i])
  {
    assert items[..i + 1][..i] == items[..i];
    assert ChoicesOf(items[..i]) + [] == ChoicesOf(items[..i]);
  }

  lemma MessagesStep(items: seq<Json>, i: nat)
    requires i < |items|
    ensures items[i].JObj? ==> MessagesOf(items[..i + 1]) == MessagesOf(items[..i]) + [MessageOf(items[i].fields)]
    ensures !items[i].JObj? ==> MessagesOf(items[..i + 1]) == MessagesOf(items[..i])
  {
    assert items[..i + 1][..i] == items[..i];
    assert MessagesOf(items[..i]) + [] == MessagesOf(items[..i]);
  }

  /** The `append` loop over the `choices` array: one choice per object element, after `prefix`. */
  method AppendChoices(prefix: seq<Choice>, items: seq<Json>) returns (appended: seq<Choice>)
    ensures appended == prefix + ChoicesOf(items)
  {
    appended := prefix;
    var i := 0;
    while i < |items|
      invariant 0 <= i <= |items|
      invariant appended == prefix + ChoicesOf(items[..i])
    {
      ChoicesStep(items, i);
      if items[i].JObj? {
        appended := appended + [ChoiceOf(items[i].fields)];
      }
      i := i + 1;
    }
    assert items[..i] == items;
  }

  /** The `append` loop over the `messages` array: one message per object element, after `prefix`. */
  method AppendMessages(prefix: seq<ChatMessage>, items: seq<Json>) returns (appended: seq<ChatMessage>)
    ensures appended == prefix + MessagesOf(items)
  {
    appended := prefix;
    var i := 0;
    while i < |items|
      invariant 0 <= i <= |items|
      invariant appended == prefix + MessagesOf(items[..i])
    {
      MessagesStep(items, i);
      if items[i].JObj? {
        appended := appended + [MessageOf(items[i].fields)];
      }
      i := i + 1;
    }
    assert items[..i] == items;
  }

  // ---------------------------------------------------------------------

  class ChatCompletionRequest {
    var model: string
    var messages: seq<ChatMessage>
    var stream: bool
    var extra: Object

    /** The zero value `ChatCompletionRequest{}`. */
    constructor ()
      ensures model == "" && messages == [] && !stream && extra == map[]
    {
      model, messages, stream, extra := "", [], false, map[];
    }

    /**
     * Fills the record from a decoded JSON object. `model` and `stream` are
     * overwritten only when the input holds a value of their type; messages are
     * appended to the ones already held; `extra` is replaced by every other key.
     * The returned error is always nil.
     */
    method FromMap(data: Object) returns (err: Option<string>)
      modifies this
      ensures err == None
      ensures model == StrAt(data, "model").GetOr(old(model))
      ensures stream == BoolAt(data, "stream").GetOr(old(stream))
      ensures messages == old(messages) + MessagesOf(ArrAt(data, "messages").GetOr([]))
      ensures extra.Keys == data.Keys - RequestKeys
      ensures forall k :: k in extra ==> extra[k] == data[k]
    {
      match StrAt(data, "model") {
        case Some(m) => model := m;
        case None =>
      }
      match BoolAt(data, "stream") {
        case Some(s) => stream := s;
        case None =>
      }
      var appended := AppendMessages(messages, ArrAt(data, "messages").GetOr([]));
      messages := appended;
      extra := CollectExtra(data, RequestKeys);
      err := None;
    }

    /** The record as a JSON object: the three typed fields, then every `extra` key on top. */
    method ToMap() returns (result: Object)
      ensures result.Keys == RequestKeys + extra.Keys
      ensures forall k :: k in extra ==> result[k] == extra[k]
      ensures "model" !in extra ==> result["model"] == JStr(model)
      ensures "messages" !in extra ==> result["messages"] == MessagesJson(messages)
      ensures "stream" !in extra ==> result["stream"] == JBool(stream)
    {
      var fixed := map["model" := JStr(model), "messages" := MessagesJson(messages), "stream" := JBool(stream)];
      result := Overlay(fixed, extra);
    }
  }

  /**
   * Decoding a JSON object into a fresh request and encoding it again keeps every
   * key other than `model`, `messages` and `stream` with its value, and reads the
   * three typed keys through the getters' defaults.
   */
  method RequestRoundTrip(data: Object) returns (result: Object)
    ensures result.Keys == data.Keys + RequestKeys
    ensures forall k :: k in data && k !in RequestKeys ==> result[k] == data[k]
    ensures result["model"] == JStr(GetString(data, "model"))
    ensures result["stream"] == JBool(GetBool(data, "stream"))
    ensures result["messages"] == MessagesJson(MessagesOf(GetSlice(data, "messages").GetOr([])))
  {
    var r := new ChatCompletionRequest();
    var _ := r.FromMap(data);
    result := r.ToMap();
  }

  class ChatCompletionResponse {
    var id: string
    var objectType: string
    var created: int
    var model: string
    var choices: seq<Choice>
    var usage: Option<Object>
    var extra: Object

    /** The zero value `ChatCompletionResponse{}`; `usage` is a nil map. */
    constructor ()
      ensures id == "" && objectType == "" && created == 0 && model == ""
      ensures choices == [] && usage == None && extra == map[]
    {
      id, objectType, created, model := "", "", 0, "";
      choices, usage, extra := [], None, map[];
    }

    /**
     * Fills the record from a decoded chunk. Without a string `id` or
     * `trace_id` the Go method panics before touching the record; that outcome is
     * `panicked`. `now` stands for the clock reading used when `created` is not
     * a number. `usage` is never read, so it keeps its old value.
     */
    method FromMap(data: Object, now: int) returns (panicked: bool)
      modifies this
      ensures panicked <==> StrAt(data, "id").None? && StrAt(data, "trace_id").None?
      ensures panicked ==> unchanged(this)
      ensures !panicked ==> id == (if StrAt(data, "id").Some? then StrAt(data, "id").value else StrAt(data, "trace_id").value)
      ensures !panicked ==> objectType == StrAt(data, "object").GetOr(DefaultObject)
      ensures !panicked ==> created == NumAt(data, "created").GetOr(now)
      ensures !panicked ==> model == StrAt(data, "model").GetOr(old(model))
      ensures !panicked ==> choices == old(choices) + ChoicesOf(ArrAt(data, "choices").GetOr([]))
      ensures !panicked ==> usage == old(usage)
      ensures !panicked ==> extra.Keys == data.Keys - ResponseKeys
      ensures !panicked ==> forall k :: k in extra ==> extra[k] == data[k]
    {
      var newId: string;
      match StrAt(data, "id") {
        case Some(i) => newId := i;
        case None =>
          match StrAt(data, "trace_id") {
            case Some(t) => newId := t;
            case None => return true;
          }
      }
      panicked := false;
      var appended := AppendChoices(choices, ArrAt(data, "choices").GetOr([]));
      var newExtra := CollectExtra(data, ResponseKeys);
      id, objectType, created := newId, StrAt(data, "object").GetOr(DefaultObject), NumAt(data, "created").GetOr(now);
      model := StrAt(data, "model").GetOr(model);
      choices, extra := appended, newExtra;
    }

    /**
     * The record as a JSON object: the scalar fields, one encoded choice per
     * choice in order, `usage` only when it is a non-nil map, and every `extra`
     * key on top.
     */
    method ToMap() returns (result: Object)
      ensures result.Keys == {"id", "object", "created", "model", "choices"} + (if usage.Some? then {"usage"} else {}) + extra.Keys
      ensures forall k :: k in extra ==> result[k] == extra[k]
      ensures "id" !in extra ==> result["id"] == JStr(id)
      ensures "object" !in extra ==> result["object"] == JStr(objectType)
      ensures "created" !in extra ==> result["created"] == JNum(created)
      ensures "model" !in extra ==> result["model"] == JStr(model)
      ensures "choices" !in extra ==>
                result["choices"].JArr? && |result["choices"].items| == |choices| &&
                forall j :: 0 <= j < |choices| ==> result["choices"].items[j] == ChoiceJson(choices[j])
      ensures "usage" !in extra && usage.Some? ==> result["usage"] == JObj(usage.value)
    {
      var encoded: seq<Json> := [];
      var i := 0;
      while i < |choices|
        invariant 0 <= i <= |choices|
        invariant |encoded| == i
        invariant forall j :: 0 <= j < i ==> encoded[j] == ChoiceJson(choices[j])
      {
        encoded := encoded + [ChoiceJson(choices[i])];
        i := i + 1;
      }
      result := map["id" := JStr(id), "object" := JStr(objectType), "created" := JNum(created),
                    "model" := JStr(model), "choices" := JArr(encoded)];
      if usage.Some? {
        result := result["usage" := JObj(usage.value)];
      }
      result := Overlay(result, extra);
    }
  }

  /**
   * Decoding a chunk into a fresh response and encoding it again: `None` when
   * the chunk has neither a string `id` nor a string `trace_id` (the Go method
   * panics). Otherwise the result never has a `usage` key, `id` is the chunk's
   * id or else its trace id, and every other unrecognised key (`trace_id`
   * included) comes back with its value.
   */
  method ResponseRoundTrip(data: Object, now: int) returns (result: Option<Object>)
    ensures result.None? <==> StrAt(data, "id").None? && StrAt(data, "trace_id").None?
    ensures result.Some? ==> "usage" !in result.value
    ensures result.Some? ==> result.value.Keys == (data.Keys - {"usage"}) + {"id", "object", "created", "model", "choices"}
    ensures result.Some? ==> forall k :: k in data && k !in ResponseKeys ==> result.value[k] == data[k]
    ensures result.Some? && StrAt(data, "id").Some? ==> result.value["id"] == data["id"]
    ensures result.Some? && StrAt(data, "id").None? ==> result.value["id"] == data["trace_id"]
    ensures result.Some? ==> result.value["object"] == JStr(StrAt(data, "object").GetOr(DefaultObject))
    ensures result.Some? ==>
              result.value["choices"].JArr? &&
              |result.value["choices"].items| == |ChoicesOf(ArrAt(data, "choices").GetOr([]))|
  {
    var r := new ChatCompletionResponse();
    var panicked := r.FromMap(data, now);
    if panicked {
      return None;
    }
    var m := r.ToMap();
    return Some(m);
  }
}
