/**
  What every provider adapter's `chat_with_tools` has in common: the result
  record, the fixed error record, the HTTP reply the transport hands back, and
  the OpenAI-style tool-call parse that the OpenAI and LM Studio clients both
  contain.
*/
module Adapter {
  import opened Wrappers
  import opened JsonValues

  /** One parsed invocation `{id, name, arguments}`. */
  datatype ToolCall = ToolCall(id: Json, name: Json, arguments: Json)

  /** The dict `chat_with_tools` returns: `{content, tool_calls, finish_reason, message}`. */
  datatype AdapterResult = AdapterResult(content: Json, toolCalls: seq<ToolCall>, finishReason: Json, message: Json)

  /** `{content: None, tool_calls: [], finish_reason: 'error', message: None}` */
  const ErrorRecord: AdapterResult := AdapterResult(JNull, [], JStr("error"), JNull)

  /**
    What the HTTP call gives back: `Failed` when `requests` raises before a
    response exists (timeout, connection error), otherwise the status code and
    the body, `None` when the body is not JSON.
  */
  datatype Reply = Failed | Reply(status: int, body: Option<Json>)

  /** `response.raise_for_status()` raises for 4xx and 5xx. */
  predicate RaisesForStatus(status: int)
  {
    400 <= status < 600
  }

  /** `response.json()` */
  function Body(reply: Reply): Py<Json>
    requires reply.Reply?
  {
    match reply.body
    case Some(data) => Ok(data)
    case None => Err("Expecting value: line 1 column 1 (char 0)")
  }

  /** The adapters' outer `except` clauses: any exception becomes the error record. */
  function Caught(attempt: Py<AdapterResult>): (r: AdapterResult)
    ensures attempt.Err? ==> r == ErrorRecord
    ensures attempt.Ok? ==> r == attempt.value
  {
    match attempt
    case Ok(result) => result
    case Err(_) => ErrorRecord
  }

  /** `content if content else None` */
  function ContentOrNone(content: Json): (r: Json)
    ensures Truthy(content) ==> r == content
    ensures !Truthy(content) ==> r == JNull
  {
    if Truthy(content) then content else JNull
  }

  /**
    The debug line `[t['function']['name'] for t in tools]` of the OpenAI,
    LM Studio and Ollama clients: its f-string is built even when debug
    logging is off, so a tool without a nested `function.name` raises.
  */
  function NestedToolNames(tools: seq<Json>): (r: Py<seq<Json>>)
    ensures r.Ok? <==> forall k :: 0 <= k < |tools| ==> NestedName(tools[k]).Ok?
    ensures r.Ok? ==> |r.value| == |tools| && forall k :: 0 <= k < |tools| ==> r.value[k] == NestedName(tools[k]).value
  {
    if |tools| == 0 then Ok([])
    else
      var name :- NestedName(tools[0]);
      var rest :- NestedToolNames(tools[1..]);
      assert forall k :: 1 <= k < |tools| ==> tools[1..][k - 1] == tools[k];
      Ok([name] + rest)
  }

  /** `t['function']['name']` */
  function NestedName(tool: Json): (r: Py<Json>)
    ensures r.Ok? <==> tool.JObj? && "function" in KeysOf(tool.fields) &&
                       Lookup(tool.fields, "function").value.JObj? && "name" in KeysOf(Lookup(tool.fields, "function").value.fields)
  {
    var f :- GetItem(tool, "function");
    GetItem(f, "name")
  }

  /** The id `f"call_{index}"` the Gemini and Ollama clients make up for the index-th call. */
  function CallId(index: nat): Json
  {
    JStr("call_" + NatToString(index))
  }

  /** `json.loads` on a string argument, falling back to `{}` on a decode error; other values pass through. */
  function DecodeArguments(arguments: Json, loads: string -> Option<Json>): Json
  {
    if arguments.JStr? then
      (match loads(arguments.s)
       case Some(decoded) => decoded
       case None => EmptyObj)
    else arguments
  }

  /** One iteration of the OpenAI-style loop: `function = tc.get('function', {})`, then the three fields. */
  function OpenAICallOf(tc: Json, loads: string -> Option<Json>): Py<ToolCall>
  {
    var func :- Get(tc, "function", EmptyObj);
    var arguments :- Get(func, "arguments", JStr("{}"));
    // both `tc` and `function` are dicts from here on, so these `.get` calls cannot raise
    var id := Get(tc, "id", JStr("")).value;
    var name := Get(func, "name", JStr("")).value;
    Ok(ToolCall(id, name, DecodeArguments(arguments, loads)))
  }

  /** One iteration of the OpenAI-style loop, as a step of `Traverse`. */
  function OpenAIStep(loads: string -> Option<Json>): Json -> Py<ToolCall>
  {
    tc => OpenAICallOf(tc, loads)
  }

  /**
    The loop over `message['tool_calls']`: `done` holds the calls built so
    far; the first element that raises ends the loop with its exception.
  */
  function OpenAICalls(tcs: seq<Json>, loads: string -> Option<Json>, done: seq<ToolCall>): (r: Py<seq<ToolCall>>)
    ensures r.Ok? ==> |r.value| == |done| + |tcs| && r.value[..|done|] == done
  {
    Traverse(OpenAIStep(loads), tcs, done)
  }

  /** The loop that builds `tool_calls` in the OpenAI and LM Studio clients. */
  method ParseOpenAIToolCalls(tcs: seq<Json>, loads: string -> Option<Json>) returns (r: Py<seq<ToolCall>>)
    ensures r == OpenAICalls(tcs, loads, [])
  {
    var calls: seq<ToolCall> := [];
    var i := 0;
    while i < |tcs|
      invariant 0 <= i <= |tcs|
      invariant OpenAICalls(tcs, loads, []) == OpenAICalls(tcs[i..], loads, calls)
    {
      assert tcs[i..][1..] == tcs[i + 1..];
      var call := OpenAICallOf(tcs[i], loads);
      if call.Err? {
        return Err(call.error);
      }
      calls := calls + [call.value];
      i := i + 1;
    }
    return Ok(calls);
  }

  /** The loop succeeds exactly when every element parses. */
  lemma OpenAICallsOk(tcs: seq<Json>, loads: string -> Option<Json>, done: seq<ToolCall>)
    ensures OpenAICalls(tcs, loads, done).Ok? <==> forall k :: 0 <= k < |tcs| ==> OpenAICallOf(tcs[k], loads).Ok?
  {
    TraverseOk(OpenAIStep(loads), tcs, done);
  }

  /** A whole response: the k-th parsed call is the one built from the k-th entry. */
  lemma OpenAICallsFromStart(tcs: seq<Json>, loads: string -> Option<Json>)
    requires OpenAICalls(tcs, loads, []).Ok?
    ensures |OpenAICalls(tcs, loads, []).value| == |tcs|
    ensures forall k :: 0 <= k < |tcs| ==> OpenAICallOf(tcs[k], loads).Ok? && OpenAICalls(tcs, loads, []).value[k] == OpenAICallOf(tcs[k], loads).value
  {
    TraverseValues(OpenAIStep(loads), tcs);
  }

  /**
    One OpenAI-style call: a missing id becomes `''` (no id is made up), a
    missing name `''`; string arguments are decoded and an undecodable string
    becomes `{}`; non-string arguments are kept as they are.
  */
  lemma OpenAICallFields(tc: Json, loads: string -> Option<Json>)
    requires tc.JObj?
    requires "function" in KeysOf(tc.fields) ==> Lookup(tc.fields, "function").value.JObj?
    ensures OpenAICallOf(tc, loads).Ok?
    ensures "id" !in KeysOf(tc.fields) ==> OpenAICallOf(tc, loads).value.id == JStr("")
    ensures "id" in KeysOf(tc.fields) ==> OpenAICallOf(tc, loads).value.id == Lookup(tc.fields, "id").value
    ensures "function" !in KeysOf(tc.fields) ==> OpenAICallOf(tc, loads).value == ToolCall(OpenAICallOf(tc, loads).value.id, JStr(""), DecodeArguments(JStr("{}"), loads))
    ensures "function" in KeysOf(tc.fields) ==>
              var func := Lookup(tc.fields, "function").value;
              OpenAICallOf(tc, loads).value.name == Get(func, "name", JStr("")).value &&
              OpenAICallOf(tc, loads).value.arguments == DecodeArguments(Get(func, "arguments", JStr("{}")).value, loads)
  {
  }

  /** Argument decoding: a string that fails to decode gives `{}`, one that decodes gives its value, anything else is untouched. */
  lemma DecodeArgumentsCases(arguments: Json, loads: string -> Option<Json>)
    ensures arguments.JStr? && loads(arguments.s).None? ==> DecodeArguments(arguments, loads) == EmptyObj
    ensures arguments.JStr? && loads(arguments.s).Some? ==> DecodeArguments(arguments, loads) == loads(arguments.s).value
    ensures !arguments.JStr? ==> DecodeArguments(arguments, loads) == arguments
  {
  }

  /**
    The tail the OpenAI and LM Studio clients share once they hold the
    chosen `choice` dict and its `message`: the content (default `''`), the
    backend's finish reason (default `'stop'`), the tool calls when
    `message.get('tool_calls')` is truthy, and the debug line's
    `len(content) if content else 0`.
  */
  function MessageResult(choice: Json, message: Json, loads: string -> Option<Json>): (r: Py<AdapterResult>)
    requires choice.JObj?
    ensures r.Ok? ==> Get(choice, "finish_reason", JStr("stop")) == Ok(r.value.finishReason)
    ensures r.Ok? ==> r.value.message == message && message.JObj?
    ensures r.Ok? ==> Truthy(r.value.content) || r.value.content == JNull
  {
    var content :- Get(message, "content", JStr(""));
    // `choice` and `message` are dicts from here on, so these `.get` calls cannot raise
    var finishReason := Get(choice, "finish_reason", JStr("stop")).value;
    var rawCalls := Get(message, "tool_calls", JNull).value;
    var calls :- if Truthy(rawCalls) then (var items :- Iter(rawCalls); OpenAICalls(items, loads, [])) else Ok([]);
    var _ :- if Truthy(content) then Len(content) else Ok(0);
    Ok(AdapterResult(ContentOrNone(content), calls, finishReason, message))
  }

  /**
    A well-formed message (a dict whose `tool_calls`, when truthy, is a list
    of parseable entries, and whose truthy content is a string) gives the
    content or None when it is empty, the backend's finish reason whatever
    tool calls there are, and one call per `tool_calls` entry, in order.
  */
  lemma MessageResultSpec(choice: Json, message: Json, loads: string -> Option<Json>)
    requires choice.JObj? && message.JObj?
    ensures var rawCalls := Get(message, "tool_calls", JNull).value;
            var content := Get(message, "content", JStr("")).value;
            (!Truthy(rawCalls) || (rawCalls.JArr? && forall k :: 0 <= k < |rawCalls.items| ==> OpenAICallOf(rawCalls.items[k], loads).Ok?)) &&
            (!Truthy(content) || content.JStr?) ==>
              var r := MessageResult(choice, message, loads);
              r.Ok? && r.value.content == ContentOrNone(content) &&
              r.value.finishReason == Get(choice, "finish_reason", JStr("stop")).value &&
              (Truthy(rawCalls) ==>
                 |r.value.toolCalls| == |rawCalls.items| &&
                 forall k :: 0 <= k < |rawCalls.items| ==> r.value.toolCalls[k] == OpenAICallOf(rawCalls.items[k], loads).value) &&
              (!Truthy(rawCalls) ==> r.value.toolCalls == [])
  {
    var rawCalls := Get(message, "tool_calls", JNull).value;
    if rawCalls.JArr? {
      OpenAICallsOk(rawCalls.items, loads, []);
      if OpenAICalls(rawCalls.items, loads, []).Ok? {
        OpenAICallsFromStart(rawCalls.items, loads);
      }
    }
  }
}
