/**
  `OpenAIClient`: the key check of the constructor, the health probe's status
  mapping, and `chat_with_tools` with the HTTP call replaced by a `post`
  function from payload to reply.
*/
module OpenAI {
  import opened Wrappers
  import opened JsonValues
  import opened Adapter

  /** What the constructor fixes: the key, the base URL and the `Authorization` header. */
  datatype OpenAIClient = OpenAIClient(apiKey: string, baseUrl: string, authorization: string)

  const MissingKeyMessage: string :=
    "OpenAI API key not found. Please set OPENAI_API_KEY environment variable "
    + "or provide api_key parameter. Get your API key from: https://platform.openai.com/api-keys"

  /**
    `__init__`: `api_key or os.getenv('OPENAI_API_KEY')`; a missing or empty
    key after that fallback is a ValueError.
  */
  function NewOpenAIClient(apiKey: Option<string>, envKey: Option<string>, baseUrl: string): (r: Result<OpenAIClient, string>)
    ensures r.Err? <==> (apiKey.None? || apiKey.value == "") && (envKey.None? || envKey.value == "")
    ensures apiKey.Some? && apiKey.value != "" ==> r.Ok? && r.value.apiKey == apiKey.value
    ensures (apiKey.None? || apiKey.value == "") && r.Ok? ==> r.value.apiKey == envKey.value
    ensures r.Ok? ==> r.value.authorization == "Bearer " + r.value.apiKey && r.value.apiKey != ""
    ensures r.Ok? ==> r.value.baseUrl == RStripSlash(baseUrl)
  {
    var key := if apiKey.Some? && apiKey.value != "" then apiKey else envKey;
    if key.None? || key.value == "" then
      Err(MissingKeyMessage)
    else
      Ok(OpenAIClient(key.value, RStripSlash(baseUrl), "Bearer " + key.value))
  }

  /** `health_check`: 401 means a bad key, 429 means reachable but rate limited, other 4xx/5xx and transport failures mean unavailable. */
  function HealthCheck(reply: Reply): (r: bool)
    ensures reply.Failed? ==> !r
    ensures reply.Reply? && reply.status == 401 ==> !r
    ensures reply.Reply? && reply.status == 429 ==> r
    ensures reply.Reply? && reply.status != 429 && RaisesForStatus(reply.status) ==> !r
    ensures reply.Reply? && !RaisesForStatus(reply.status) ==> r
  {
    match reply
    case Failed => false
    case Reply(status, _) =>
      if status == 401 then false
      else if status == 429 then true
      else !RaisesForStatus(status)
  }

  /** The request body: `{model, messages, tools, temperature, max_tokens: 2000}`. */
  function Payload(model: string, messages: seq<Json>, tools: seq<Json>, temperature: Json): (r: Json)
    ensures r.JObj? && KeysOf(r.fields) == ["model", "messages", "tools", "temperature", "max_tokens"]
    ensures GetItem(r, "model") == Ok(JStr(model))
  {
    var fields := [("model", JStr(model)), ("messages", JArr(messages)), ("tools", JArr(tools)),
                   ("temperature", temperature), ("max_tokens", JNum(2000))];
    assert KeysOf(fields[3..]) == ["temperature", "max_tokens"];
    assert KeysOf(fields[1..]) == ["messages", "tools", "temperature", "max_tokens"];
    JObj(fields)
  }

  /** `messages` goes into the body unchanged. */
  lemma PayloadMessages(model: string, messages: seq<Json>, tools: seq<Json>, temperature: Json)
    ensures GetItem(Payload(model, messages, tools, temperature), "messages") == Ok(JArr(messages))
  {
    LookupAt(Payload(model, messages, tools, temperature).fields, 1);
  }

  /** `tools` goes into the body unchanged. */
  lemma PayloadTools(model: string, messages: seq<Json>, tools: seq<Json>, temperature: Json)
    ensures GetItem(Payload(model, messages, tools, temperature), "tools") == Ok(JArr(tools))
  {
    assert "model"[0] != "tools"[0];
    LookupAt(Payload(model, messages, tools, temperature).fields, 2);
  }

  /** The body carries the fixed `max_tokens` of 2000. */
  lemma PayloadMaxTokens(model: string, messages: seq<Json>, tools: seq<Json>, temperature: Json)
    ensures GetItem(Payload(model, messages, tools, temperature), "max_tokens") == Ok(JNum(2000))
  {
    var fields := Payload(model, messages, tools, temperature).fields;
    KeysOfSpec(fields[..4]);
    LookupAfter(fields[..4], "max_tokens", JNum(2000), []);
    assert fields[..4] + [fields[4]] + [] == fields;
  }

  /** The messages and the tools are sent as given, next to the fixed `max_tokens` of 2000. */
  lemma PayloadPassThrough(model: string, messages: seq<Json>, tools: seq<Json>, temperature: Json)
    ensures GetItem(Payload(model, messages, tools, temperature), "messages") == Ok(JArr(messages))
    ensures GetItem(Payload(model, messages, tools, temperature), "tools") == Ok(JArr(tools))
    ensures GetItem(Payload(model, messages, tools, temperature), "max_tokens") == Ok(JNum(2000))
  {
    PayloadMessages(model, messages, tools, temperature);
    PayloadTools(model, messages, tools, temperature);
    PayloadMaxTokens(model, messages, tools, temperature);
  }

  /** `choice = data['choices'][0]; message = choice['message']`, then the shared tail. */
  function ParseChoice(choice: Json, loads: string -> Option<Json>): (r: Py<AdapterResult>)
    ensures !choice.JObj? || "message" !in KeysOf(choice.fields) ==> r.Err?
  {
    var message :- GetItem(choice, "message");
    MessageResult(choice, message, loads)
  }

  /**
    The body after the status checks: a missing or empty `choices` is the
    error record; anything else that succeeds is parsed from a dict body and
    keeps the dict `message` it was read from.
  */
  function ParseData(data: Json, loads: string -> Option<Json>): (r: Py<AdapterResult>)
    ensures !(data.JObj? || data.JArr? || data.JStr?) ==> r.Err?
    ensures r.Ok? ==> r.value == ErrorRecord || (data.JObj? && r.value.message.JObj?)
  {
    var hasChoices :- Contains(data, "choices");
    if !hasChoices then Ok(ErrorRecord)
    else
      var choices :- GetItem(data, "choices");
      var n :- Len(choices);
      if n == 0 then Ok(ErrorRecord)
      else
        var choice :- First(choices);
        ParseChoice(choice, loads)
  }

  /**
    What follows the POST: the two status checks, `raise_for_status()`,
    `response.json()` and the parse. A transport failure raises, and a
    result other than the error record only comes from a 2xx/3xx reply
    (or a status outside 400-599) whose body is a JSON dict.
  */
  function Respond(reply: Reply, loads: string -> Option<Json>): (r: Py<AdapterResult>)
    ensures reply.Failed? ==> r.Err?
    ensures r.Ok? && r.value != ErrorRecord ==>
              reply.Reply? && !RaisesForStatus(reply.status) && reply.body.Some? && reply.body.value.JObj?
  {
    if reply.Failed? then Err("RequestException")
    else if reply.status == 429 || reply.status == 401 then Ok(ErrorRecord)
    else if RaisesForStatus(reply.status) then Err("HTTPError: " + IntToString(reply.status))
    else
      var data :- Body(reply);
      ParseData(data, loads)
  }

  /** `chat_with_tools`: the debug line over the tool names, the POST, the response; every exception becomes the error record. */
  function ChatWithTools(model: string, messages: seq<Json>, tools: seq<Json>, temperature: Json,
                         post: Json -> Reply, loads: string -> Option<Json>): (r: AdapterResult)
    ensures r != ErrorRecord ==>
              var reply := post(Payload(model, messages, tools, temperature));
              NestedToolNames(tools).Ok? && reply.Reply? && !RaisesForStatus(reply.status) && r.message.JObj?
  {
    Caught(var _ :- NestedToolNames(tools); Respond(post(Payload(model, messages, tools, temperature)), loads))
  }

  /**
    The error cases of the reply: a transport failure, status 429 or 401, any
    other 4xx or 5xx status, and a body that is not JSON all give the error
    record.
  */
  lemma ReplyErrors(reply: Reply, loads: string -> Option<Json>)
    ensures reply.Failed? ==> Caught(Respond(reply, loads)) == ErrorRecord
    ensures reply.Reply? && (reply.status == 429 || reply.status == 401) ==> Respond(reply, loads) == Ok(ErrorRecord)
    ensures reply.Reply? && RaisesForStatus(reply.status) ==> Caught(Respond(reply, loads)) == ErrorRecord
    ensures reply.Reply? && reply.body.None? ==> Caught(Respond(reply, loads)) == ErrorRecord
  {
  }

  /** A body without `choices`, or with an empty `choices` list, gives the error record. */
  lemma NoChoices(data: Json, loads: string -> Option<Json>)
    requires data.JObj?
    requires Lookup(data.fields, "choices").None? || Lookup(data.fields, "choices") == Some(JArr([]))
    ensures ParseData(data, loads) == Ok(ErrorRecord)
  {
  }

  /**
    The whole of `chat_with_tools`: a tool without a nested name, a
    transport failure, any 4xx or 5xx status (429 and 401 included) and a
    body that is not JSON give the error record; so do a dict body without
    `choices` or with an empty `choices` list, and a first choice that is
    not a dict holding `message`. A first choice that holds `message` is
    parsed from that message.
  */
  lemma ChatErrorRule(model: string, messages: seq<Json>, tools: seq<Json>, temperature: Json,
                      post: Json -> Reply, loads: string -> Option<Json>)
    ensures var reply := post(Payload(model, messages, tools, temperature));
            var r := ChatWithTools(model, messages, tools, temperature, post, loads);
            NestedToolNames(tools).Err? || reply.Failed? || RaisesForStatus(reply.status) || reply.body.None? ==> r == ErrorRecord
    ensures var reply := post(Payload(model, messages, tools, temperature));
            var r := ChatWithTools(model, messages, tools, temperature, post, loads);
            NestedToolNames(tools).Ok? && reply.Reply? && !RaisesForStatus(reply.status) &&
            reply.body.Some? && reply.body.value.JObj? ==>
              var choices := Lookup(reply.body.value.fields, "choices");
              && (choices.None? || choices == Some(JArr([])) ==> r == ErrorRecord)
              && (choices.Some? && choices.value.JArr? && choices.value.items != [] ==>
                    var choice := choices.value.items[0];
                    && (!choice.JObj? || "message" !in KeysOf(choice.fields) ==> r == ErrorRecord)
                    && (choice.JObj? && "message" in KeysOf(choice.fields) ==>
                          r == Caught(MessageResult(choice, Lookup(choice.fields, "message").value, loads))))
  {
    var reply := post(Payload(model, messages, tools, temperature));
    if NestedToolNames(tools).Ok? && reply.Reply? && !RaisesForStatus(reply.status) && reply.body.Some? && reply.body.value.JObj? {
      var data := reply.body.value;
      var choices := Lookup(data.fields, "choices");
      if choices.None? || choices == Some(JArr([])) {
        NoChoices(data, loads);
      } else if choices.value.JArr? && choices.value.items != [] {
        FirstChoice(data, loads);
      }
    } else {
      ReplyErrors(reply, loads);
    }
  }

  /** A dict body whose `choices` is a non-empty list is parsed from its first choice. */
  lemma FirstChoice(data: Json, loads: string -> Option<Json>)
    requires data.JObj?
    requires var choices := Lookup(data.fields, "choices"); choices.Some? && choices.value.JArr? && choices.value.items != []
    ensures ParseData(data, loads) == ParseChoice(Lookup(data.fields, "choices").value.items[0], loads)
  {
  }

  /**
    A response whose first choice holds a dict `message` is parsed from that
    message: its content, the backend's finish reason and its tool calls.
  */
  lemma FirstChoiceParsed(choice: Json, rest: seq<Json>, loads: string -> Option<Json>)
    requires choice.JObj? && Lookup(choice.fields, "message").Some?
    ensures ParseData(JObj([("choices", JArr([choice] + rest))]), loads) ==
            MessageResult(choice, Lookup(choice.fields, "message").value, loads)
  {
    var data := JObj([("choices", JArr([choice] + rest))]);
    assert KeysOf(data.fields) == ["choices"];
  }
}
