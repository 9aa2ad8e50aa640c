/**
  `LMStudioClient`: URL building in the constructor, `list_models`, the
  health probe and `chat_with_tools` against LM Studio's OpenAI-compatible
  endpoint, with the HTTP call replaced by a reply.
*/
module LMStudio {
  import opened Wrappers
  import opened JsonValues
  import opened Adapter

  /** What the constructor fixes. */
  datatype LMStudioClient = LMStudioClient(baseUrl: string, apiUrl: string)

  /** `__init__`: trailing slashes are stripped and the API lives under `/v1`. */
  function NewLMStudioClient(baseUrl: string): (r: LMStudioClient)
    ensures r.baseUrl == RStripSlash(baseUrl)
    ensures r.apiUrl == r.baseUrl + "/v1"
    ensures IsPrefix(r.baseUrl, baseUrl)
  {
    var base := RStripSlash(baseUrl);
    LMStudioClient(base, base + "/v1")
  }

  /** `health_check`: reachable exactly when the GET came back without a 4xx/5xx status. */
  function HealthCheck(reply: Reply): (r: bool)
    ensures r <==> reply.Reply? && !(400 <= reply.status < 600)
  {
    reply.Reply? && !RaisesForStatus(reply.status)
  }

  /** `[model['id'] for model in models]` */
  function ModelIds(models: seq<Json>): (r: Py<seq<Json>>)
    ensures r.Ok? <==> forall k :: 0 <= k < |models| ==> GetItem(models[k], "id").Ok?
    ensures r.Ok? ==> |r.value| == |models| && forall k :: 0 <= k < |models| ==> r.value[k] == GetItem(models[k], "id").value
  {
    if |models| == 0 then Ok([])
    else
      var id :- GetItem(models[0], "id");
      var rest :- ModelIds(models[1..]);
      Ok([id] + rest)
  }

  /**
    `list_models`: only `requests` exceptions (transport, HTTP status, a body
    that is not JSON) are caught and give `[]`; a body of the wrong shape
    raises out of the method.
  */
  function ListModels(reply: Reply): (r: Py<seq<Json>>)
    ensures reply.Failed? || RaisesForStatus(reply.status) || reply.body.None? ==> r == Ok([])
  {
    if reply.Failed? || RaisesForStatus(reply.status) || reply.body.None? then Ok([])
    else
      var models :- Get(reply.body.value, "data", JArr([]));
      var items :- Iter(models);
      ModelIds(items)
  }

  /** A well-formed `{"data": [...]}` body lists the `id` of every entry, in order. */
  lemma ListModelsIds(status: int, models: seq<Json>)
    requires !RaisesForStatus(status)
    requires forall k :: 0 <= k < |models| ==> models[k].JObj? && "id" in KeysOf(models[k].fields)
    ensures var r := ListModels(Reply(status, Some(JObj([("data", JArr(models))]))));
            r.Ok? && |r.value| == |models| &&
            forall k :: 0 <= k < |models| ==> r.value[k] == Lookup(models[k].fields, "id").value
  {
    assert KeysOf([("data", JArr(models))]) == ["data"];
  }

  /** The request body: `{model, messages, tools, temperature, stream: False}`. */
  function Payload(model: string, messages: seq<Json>, tools: seq<Json>, temperature: Json): (r: Json)
    ensures r.JObj? && KeysOf(r.fields) == ["model", "messages", "tools", "temperature", "stream"]
    ensures GetItem(r, "model") == Ok(JStr(model))
  {
    var fields := [("model", JStr(model)), ("messages", JArr(messages)), ("tools", JArr(tools)),
                   ("temperature", temperature), ("stream", JBool(false))];
    assert KeysOf(fields[3..]) == ["temperature", "stream"];
    assert KeysOf(fields[1..]) == ["messages", "tools", "temperature", "stream"];
    JObj(fields)
  }

  /** `messages` goes into the body unchanged. */
  lemma PayloadMessages(model: string, messages: seq<Json>, tools: seq<Json>, temperature: Json)
    ensures GetItem(Payload(model, messages, tools, temperature), "messages") == Ok(JArr(messages))
  {
    LookupAt(Payload(model, messages, tools, temperature).fields, 1);
  }

  /** `tools` goes into the body unchanged. */
  lemma PayloadTools(model: string, messages: seq<Json>, tools: seq<Json>, temperature: Json)
    ensures GetItem(Payload(model, messages, tools, temperature), "tools") == Ok(JArr(tools))
  {
    assert "model"[0] != "tools"[0];
    LookupAt(Payload(model, messages, tools, temperature).fields, 2);
  }

  /** The body carries streaming switched off. */
  lemma PayloadStream(model: string, messages: seq<Json>, tools: seq<Json>, temperature: Json)
    ensures GetItem(Payload(model, messages, tools, temperature), "stream") == Ok(JBool(false))
  {
    var fields := Payload(model, messages, tools, temperature).fields;
    KeysOfSpec(fields[..4]);
    LookupAfter(fields[..4], "stream", JBool(false), []);
    assert fields[..4] + [fields[4]] + [] == fields;
  }

  /** The messages and the tools are sent as given, next to streaming switched off. */
  lemma PayloadPassThrough(model: string, messages: seq<Json>, tools: seq<Json>, temperature: Json)
    ensures GetItem(Payload(model, messages, tools, temperature), "messages") == Ok(JArr(messages))
    ensures GetItem(Payload(model, messages, tools, temperature), "tools") == Ok(JArr(tools))
    ensures GetItem(Payload(model, messages, tools, temperature), "stream") == Ok(JBool(false))
  {
    PayloadMessages(model, messages, tools, temperature);
    PayloadTools(model, messages, tools, temperature);
    PayloadStream(model, messages, tools, temperature);
  }

  /**
    The body: `choices = data.get('choices', [])`; falsy choices give the
    error record; otherwise `choices[0].get('message', {})` and the shared
    tail. Only a dict body can be read, and anything other than the error
    record is parsed from a dict `message`, which it keeps.
  */
  function ParseData(data: Json, loads: string -> Option<Json>): (r: Py<AdapterResult>)
    ensures !data.JObj? ==> r.Err?
    ensures r.Ok? ==> r.value == ErrorRecord || (data.JObj? && r.value.message.JObj?)
  {
    var choices :- Get(data, "choices", JArr([]));
    if !Truthy(choices) then Ok(ErrorRecord)
    else
      var choice :- First(choices);
      var message :- Get(choice, "message", EmptyObj);
      MessageResult(choice, message, loads)
  }

  /**
    What follows the POST: `raise_for_status()`, `response.json()` and the
    parse. A transport failure or a 4xx/5xx status raises, and a result
    only comes from a reply whose body is a JSON dict.
  */
  function Respond(reply: Reply, loads: string -> Option<Json>): (r: Py<AdapterResult>)
    ensures reply.Failed? || RaisesForStatus(reply.status) ==> r.Err?
    ensures r.Ok? ==> reply.Reply? && !RaisesForStatus(reply.status) && reply.body.Some? && reply.body.value.JObj?
  {
    if reply.Failed? then Err("RequestException")
    else if RaisesForStatus(reply.status) then Err("HTTPError: " + IntToString(reply.status))
    else
      var data :- Body(reply);
      ParseData(data, loads)
  }

  /** `chat_with_tools`: the debug line over the tool names, the POST, the response; every exception becomes the error record. */
  function ChatWithTools(model: string, messages: seq<Json>, tools: seq<Json>, temperature: Json,
                         post: Json -> Reply, loads: string -> Option<Json>): (r: AdapterResult)
    ensures r != ErrorRecord ==>
              var reply := post(Payload(model, messages, tools, temperature));
              NestedToolNames(tools).Ok? && reply.Reply? && !RaisesForStatus(reply.status) && r.message.JObj?
  {
    Caught(var _ :- NestedToolNames(tools); Respond(post(Payload(model, messages, tools, temperature)), loads))
  }

  /** Transport failures, 4xx/5xx statuses and non-JSON bodies give the error record. */
  lemma ReplyErrors(reply: Reply, loads: string -> Option<Json>)
    ensures reply.Failed? ==> Caught(Respond(reply, loads)) == ErrorRecord
    ensures reply.Reply? && RaisesForStatus(reply.status) ==> Caught(Respond(reply, loads)) == ErrorRecord
    ensures reply.Reply? && reply.body.None? ==> Caught(Respond(reply, loads)) == ErrorRecord
  {
  }

  /** A dict body whose `choices` is missing or falsy gives the error record. */
  lemma NoChoices(data: Json, loads: string -> Option<Json>)
    requires data.JObj?
    requires Lookup(data.fields, "choices").None? || !Truthy(Lookup(data.fields, "choices").value)
    ensures ParseData(data, loads) == Ok(ErrorRecord)
  {
  }

  /** A first choice without `message` is read as an empty message: no content, no tool calls, the backend's finish reason. */
  lemma MissingMessage(choice: Json, rest: seq<Json>, loads: string -> Option<Json>)
    requires choice.JObj? && "message" !in KeysOf(choice.fields)
    ensures var r := ParseData(JObj([("choices", JArr([choice] + rest))]), loads);
            r.Ok? && r.value.content == JNull && r.value.toolCalls == [] && r.value.message == EmptyObj &&
            r.value.finishReason == Get(choice, "finish_reason", JStr("stop")).value
  {
    var data := JObj([("choices", JArr([choice] + rest))]);
    assert KeysOf(data.fields) == ["choices"];
  }

  /** With a dict `message`, the first choice is parsed exactly as the OpenAI client parses it. */
  lemma FirstChoiceParsed(choice: Json, rest: seq<Json>, loads: string -> Option<Json>)
    requires choice.JObj? && Lookup(choice.fields, "message").Some?
    ensures ParseData(JObj([("choices", JArr([choice] + rest))]), loads) ==
            MessageResult(choice, Lookup(choice.fields, "message").value, loads)
  {
    var data := JObj([("choices", JArr([choice] + rest))]);
    assert KeysOf(data.fields) == ["choices"];
  }
}
