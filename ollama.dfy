/**
  `OllamaClient`: URL building in the constructor and `chat_with_tools`
  against Ollama's `/api/chat`, with the HTTP call replaced by a reply. Unlike
  the OpenAI-style clients it keeps arguments as they come, makes up
  `call_<i>` ids and derives the finish reason itself.
*/
module Ollama {
  import opened Wrappers
  import opened JsonValues
  import opened Adapter

  /** What the constructor fixes. */
  datatype OllamaClient = OllamaClient(baseUrl: string, apiUrl: string)

  /** `__init__`: trailing slashes are stripped and the API lives under `/api`. */
  function NewOllamaClient(baseUrl: string): (r: OllamaClient)
    ensures r.baseUrl == RStripSlash(baseUrl)
    ensures r.apiUrl == r.baseUrl + "/api"
    ensures IsPrefix(r.baseUrl, baseUrl)
  {
    var base := RStripSlash(baseUrl);
    OllamaClient(base, base + "/api")
  }

  /** The request body: `{model, messages, tools, stream: False, options: {temperature}}`. */
  function Payload(model: string, messages: seq<Json>, tools: seq<Json>, temperature: Json): (r: Json)
    ensures r.JObj? && KeysOf(r.fields) == ["model", "messages", "tools", "stream", "options"]
    ensures GetItem(r, "model") == Ok(JStr(model))
  {
    var fields := [("model", JStr(model)), ("messages", JArr(messages)), ("tools", JArr(tools)),
                   ("stream", JBool(false)), ("options", JObj([("temperature", temperature)]))];
    assert KeysOf(fields[3..]) == ["stream", "options"];
    assert KeysOf(fields[1..]) == ["messages", "tools", "stream", "options"];
    JObj(fields)
  }

  /** `messages` goes into the body unchanged. */
  lemma PayloadMessages(model: string, messages: seq<Json>, tools: seq<Json>, temperature: Json)
    ensures GetItem(Payload(model, messages, tools, temperature), "messages") == Ok(JArr(messages))
  {
    LookupAt(Payload(model, messages, tools, temperature).fields, 1);
  }

  /** `tools` goes into the body unchanged. */
  lemma PayloadTools(model: string, messages: seq<Json>, tools: seq<Json>, temperature: Json)
    ensures GetItem(Payload(model, messages, tools, temperature), "tools") == Ok(JArr(tools))
  {
    assert "model"[0] != "tools"[0];
    LookupAt(Payload(model, messages, tools, temperature).fields, 2);
  }

  /** The body carries the temperature nested under `options`. */
  lemma PayloadOptions(model: string, messages: seq<Json>, tools: seq<Json>, temperature: Json)
    ensures GetItem(Payload(model, messages, tools, temperature), "options") == Ok(JObj([("temperature", temperature)]))
  {
    var fields := Payload(model, messages, tools, temperature).fields;
    KeysOfSpec(fields[..4]);
    LookupAfter(fields[..4], "options", JObj([("temperature", temperature)]), []);
    assert fields[..4] + [fields[4]] + [] == fields;
  }

  /** The messages and the tools are sent as given, next to the temperature nested under `options`. */
  lemma PayloadPassThrough(model: string, messages: seq<Json>, tools: seq<Json>, temperature: Json)
    ensures GetItem(Payload(model, messages, tools, temperature), "messages") == Ok(JArr(messages))
    ensures GetItem(Payload(model, messages, tools, temperature), "tools") == Ok(JArr(tools))
    ensures GetItem(Payload(model, messages, tools, temperature), "options") == Ok(JObj([("temperature", temperature)]))
  {
    PayloadMessages(model, messages, tools, temperature);
    PayloadTools(model, messages, tools, temperature);
    PayloadOptions(model, messages, tools, temperature);
  }

  /**
    One iteration of the loop: `function = tc.get('function', {})`, an id
    defaulting to `ids(index)` where `index` is the number of calls built so
    far (the client passes `CallId`), the name (default `''`) and the
    arguments as they are (default `{}`).
  */
  function OllamaCallOf(tc: Json, ids: nat -> Json, index: nat): Py<ToolCall>
  {
    var func :- Get(tc, "function", EmptyObj);
    var name :- Get(func, "name", JStr(""));
    // both `tc` and `function` are dicts from here on, so these `.get` calls cannot raise
    var id := Get(tc, "id", ids(index)).value;
    var arguments := Get(func, "arguments", EmptyObj).value;
    Ok(ToolCall(id, name, arguments))
  }

  /** One iteration of the loop, as a step of `TraverseIndexed`. */
  function OllamaStep(ids: nat -> Json): (Json, nat) -> Py<ToolCall>
  {
    (tc: Json, index: nat) => OllamaCallOf(tc, ids, index)
  }

  /** The loop over `tool_calls_raw`; `done` holds the calls built so far. */
  function OllamaCalls(tcs: seq<Json>, ids: nat -> Json, done: seq<ToolCall>): (r: Py<seq<ToolCall>>)
    ensures r.Ok? ==> |r.value| == |done| + |tcs| && r.value[..|done|] == done
  {
    TraverseIndexed(OllamaStep(ids), tcs, done)
  }

  /** The loop that builds `tool_calls`; the made-up id reads the list's current length. */
  method ParseOllamaToolCalls(tcs: seq<Json>, ids: nat -> Json) returns (r: Py<seq<ToolCall>>)
    ensures r == OllamaCalls(tcs, ids, [])
  {
    var calls: seq<ToolCall> := [];
    var i := 0;
    while i < |tcs|
      invariant 0 <= i <= |tcs|
      invariant |calls| == i
      invariant OllamaCalls(tcs, ids, []) == OllamaCalls(tcs[i..], ids, calls)
    {
      assert tcs[i..][1..] == tcs[i + 1..];
      var call := OllamaCallOf(tcs[i], ids, |calls|);
      if call.Err? {
        return Err(call.error);
      }
      calls := calls + [call.value];
      i := i + 1;
    }
    return Ok(calls);
  }

  /** The loop succeeds exactly when every element parses at its own position. */
  lemma OllamaCallsOk(tcs: seq<Json>, ids: nat -> Json, done: seq<ToolCall>)
    ensures OllamaCalls(tcs, ids, done).Ok? <==> forall k :: 0 <= k < |tcs| ==> OllamaCallOf(tcs[k], ids, |done| + k).Ok?
  {
    TraverseIndexedOk(OllamaStep(ids), tcs, done);
  }

  /** A whole response: the k-th parsed call is built from the k-th entry with index k. */
  lemma OllamaCallsFromStart(tcs: seq<Json>, ids: nat -> Json)
    requires OllamaCalls(tcs, ids, []).Ok?
    ensures |OllamaCalls(tcs, ids, []).value| == |tcs|
    ensures forall k :: 0 <= k < |tcs| ==> OllamaStep(ids)(tcs[k], k).Ok? && OllamaCalls(tcs, ids, []).value[k] == OllamaStep(ids)(tcs[k], k).value
  {
    TraverseIndexedFromStart(OllamaStep(ids), tcs);
  }

  /**
    One call: an entry without `id` gets the made-up id for its index; the
    arguments are not decoded (a JSON string stays a string) and missing ones
    become `{}`.
  */
  lemma OllamaCallFields(tc: Json, ids: nat -> Json, index: nat)
    requires tc.JObj?
    requires Lookup(tc.fields, "function").None? || Lookup(tc.fields, "function").value.JObj?
    ensures OllamaCallOf(tc, ids, index).Ok?
    ensures "id" !in KeysOf(tc.fields) ==> OllamaCallOf(tc, ids, index).value.id == ids(index)
    ensures "id" in KeysOf(tc.fields) ==> OllamaCallOf(tc, ids, index).value.id == Lookup(tc.fields, "id").value
    ensures var func := Get(tc, "function", EmptyObj).value;
            OllamaCallOf(tc, ids, index).value.arguments == (if "arguments" in KeysOf(func.fields) then Lookup(func.fields, "arguments").value else EmptyObj)
    ensures var func := Get(tc, "function", EmptyObj).value;
            OllamaCallOf(tc, ids, index).value.name == (if "name" in KeysOf(func.fields) then Lookup(func.fields, "name").value else JStr(""))
  {
  }

  /** The made-up ids of a response are `call_0`, `call_1`, … by position, whichever entries carry their own. */
  lemma SynthesizedIds(tcs: seq<Json>, k: nat)
    requires k < |tcs| && OllamaCalls(tcs, CallId, []).Ok?
    requires tcs[k].JObj? && "id" !in KeysOf(tcs[k].fields)
    ensures OllamaCalls(tcs, CallId, []).value[k].id == JStr("call_" + NatToString(k))
  {
    OllamaCallsFromStart(tcs, CallId);
  }

  /**
    The content: `message.get('content', '').strip()`, which raises unless
    the message is a dict and its content (by default `''`) a string; the
    result is that string without the whitespace at either end.
  */
  function StrippedContent(message: Json): (r: Py<string>)
    ensures r.Ok? <==> message.JObj? && Get(message, "content", JStr("")).value.JStr?
    ensures r.Ok? ==> r.value == Strip(Get(message, "content", JStr("")).value.s)
    ensures r.Ok? ==> r.value == [] || (!IsSpace(r.value[0]) && !IsSpace(r.value[|r.value| - 1]))
  {
    var raw :- Get(message, "content", JStr(""));
    if raw.JStr? then (StripSpec(raw.s); Ok(Strip(raw.s))) else Err("object has no attribute 'strip'")
  }

  /**
    The body after the status check: `message = data.get('message', {})`,
    its stripped content, its tool calls when `tool_calls` is truthy, and a
    finish reason derived from whether any call was parsed.
  */
  function ParseData(data: Json, ids: nat -> Json): (r: Py<AdapterResult>)
    ensures r.Ok? ==> (r.value.finishReason == JStr("tool_calls") <==> r.value.toolCalls != [])
    ensures r.Ok? ==> (r.value.finishReason == JStr("stop") <==> r.value.toolCalls == [])
    ensures r.Ok? ==> r.value.content == JNull || (r.value.content.JStr? && r.value.content.s != [])
    ensures !data.JObj? ==> r.Err?
    ensures r.Ok? ==> r.value.message.JObj?
  {
    var message :- Get(data, "message", EmptyObj);
    var content :- StrippedContent(message);
    // `message` is a dict here, so this `.get` cannot raise
    var rawCalls := Get(message, "tool_calls", JArr([])).value;
    var calls :- if Truthy(rawCalls) then (var items :- Iter(rawCalls); OllamaCalls(items, ids, [])) else Ok([]);
    var finishReason := if calls != [] then JStr("tool_calls") else JStr("stop");
    Ok(AdapterResult(if content != [] then JStr(content) else JNull, calls, finishReason, message))
  }

  /**
    What follows the POST: `not response.ok` gives the error record; then
    `response.json()` and the parse. A transport failure raises, and any
    other result is parsed from a JSON dict body.
  */
  function Respond(reply: Reply): (r: Py<AdapterResult>)
    ensures reply.Failed? ==> r.Err?
    ensures reply.Reply? && RaisesForStatus(reply.status) ==> r == Ok(ErrorRecord)
    ensures r.Ok? && r.value != ErrorRecord ==>
              reply.Reply? && !RaisesForStatus(reply.status) && reply.body.Some? && reply.body.value.JObj?
  {
    if reply.Failed? then Err("RequestException")
    else if RaisesForStatus(reply.status) then Ok(ErrorRecord)
    else
      var data :- Body(reply);
      ParseData(data, CallId)
  }

  /** `chat_with_tools`: the debug line over the tool names, the POST, the response; every exception becomes the error record. */
  function ChatWithTools(model: string, messages: seq<Json>, tools: seq<Json>, temperature: Json, post: Json -> Reply): (r: AdapterResult)
    ensures r != ErrorRecord ==>
              var reply := post(Payload(model, messages, tools, temperature));
              && NestedToolNames(tools).Ok? && reply.Reply? && !RaisesForStatus(reply.status) && r.message.JObj?
              && (r.finishReason == JStr("tool_calls") <==> r.toolCalls != [])
  {
    Caught(var _ :- NestedToolNames(tools); Respond(post(Payload(model, messages, tools, temperature))))
  }

  /** Transport failures, a response that is not ok, and a body that is not JSON give the error record. */
  lemma ReplyErrors(reply: Reply)
    ensures reply.Failed? ==> Caught(Respond(reply)) == ErrorRecord
    ensures reply.Reply? && RaisesForStatus(reply.status) ==> Respond(reply) == Ok(ErrorRecord)
    ensures reply.Reply? && !RaisesForStatus(reply.status) && reply.body.None? ==> Caught(Respond(reply)) == ErrorRecord
  {
  }

  /** A `null` content has no `strip`, so the whole call ends in the error record. */
  lemma NullContent(message: Json, status: int)
    requires message.JObj? && Lookup(message.fields, "content") == Some(JNull)
    requires !RaisesForStatus(status)
    ensures Caught(Respond(Reply(status, Some(JObj([("message", message)]))))) == ErrorRecord
  {
    assert KeysOf([("message", message)]) == ["message"];
  }

  /**
    A reply whose message has string content and a parseable `tool_calls`
    list: the content is the stripped text or None, the calls are the loop's
    (position by position, see `OllamaCallsFromStart`), and the finish reason
    says whether there are any.
  */
  lemma WellFormedMessage(message: Json, s: string, calls: seq<Json>, ids: nat -> Json)
    requires message.JObj? && Lookup(message.fields, "content") == Some(JStr(s))
    requires Lookup(message.fields, "tool_calls") == Some(JArr(calls))
    requires OllamaCalls(calls, ids, []).Ok?
    ensures ParseData(JObj([("message", message)]), ids) ==
            Ok(AdapterResult(if Strip(s) == [] then JNull else JStr(Strip(s)),
                             OllamaCalls(calls, ids, []).value,
                             if calls == [] then JStr("stop") else JStr("tool_calls"),
                             message))
  {
    var data := JObj([("message", message)]);
    assert KeysOf(data.fields) == ["message"];
    assert Get(data, "message", EmptyObj) == Ok(message);
    assert StrippedContent(message) == Ok(Strip(s));
    assert Get(message, "tool_calls", JArr([])) == Ok(JArr(calls));
    assert Iter(JArr(calls)) == Ok(calls);
    var parsed := OllamaCalls(calls, ids, []).value;
    assert Truthy(JArr(calls)) <==> calls != [];
    assert parsed != [] <==> calls != [];
  }
}
