/**
  `GeminiClient`: the key check of the constructor, `list_models` and the
  health probe built on it, and `chat_with_tools`, which rewrites the
  OpenAI-style history into Gemini's `contents`/`parts` shape, declares the
  tools flat, and reads text and `functionCall` parts back, making up
  `call_<i>` ids. The HTTP calls are replaced by replies.
*/
module Gemini {
  import opened Wrappers
  import opened JsonValues
  import opened Adapter
  import opened ToolBase

  /** What the constructor fixes. */
  datatype GeminiClient = GeminiClient(apiKey: string, baseUrl: string)

  const DefaultBaseUrl: string := "https://generativelanguage.googleapis.com/v1beta"

  const MissingKeyMessage: string :=
    "Gemini API key is required. Set GEMINI_API_KEY or GOOGLE_API_KEY environment variable."

  /** `__init__`: a missing or empty key is a ValueError; the base URL loses its trailing slashes. */
  function NewGeminiClient(apiKey: Option<string>, baseUrl: string): (r: Result<GeminiClient, string>)
    ensures r.Err? <==> apiKey.None? || apiKey.value == ""
    ensures r.Err? ==> r.error == MissingKeyMessage
    ensures r.Ok? ==> r.value.apiKey == apiKey.value && r.value.apiKey != ""
    ensures r.Ok? ==> r.value.baseUrl == RStripSlash(baseUrl)
  {
    if apiKey.None? || apiKey.value == "" then Err(MissingKeyMessage)
    else Ok(GeminiClient(apiKey.value, RStripSlash(baseUrl)))
  }

  /** Python's `s.replace(pat, '')`: occurrences are removed left to right without overlapping. */
  function RemoveAll(s: string, pat: string): (r: string)
    requires pat != []
    ensures |r| <= |s|
    ensures !IsSubstring(pat, s) ==> r == s
    decreases |s|
  {
    if |s| < |pat| then s
    else if s[..|pat|] == pat then RemoveAll(s[|pat|..], pat)
    else [s[0]] + RemoveAll(s[1..], pat)
  }

  /** A `models/`-prefixed name whose rest holds no further `models/` comes out as that rest. */
  lemma ModelPrefixRemoved(name: string)
    requires !IsSubstring("models/", name)
    ensures RemoveAll("models/" + name, "models/") == name
  {
    var s := "models/" + name;
    assert s[..|"models/"|] == "models/";
    assert s[|"models/"|..] == name;
  }

  /** `[model.get('name', '').replace('models/', '') for model in ...]`: a non-dict entry or a non-str name raises. */
  function ModelNames(models: seq<Json>): (r: Py<seq<string>>)
    ensures r.Ok? ==> |r.value| == |models|
  {
    if |models| == 0 then Ok([])
    else
      var name :- Get(models[0], "name", JStr(""));
      if !name.JStr? then Err("object has no attribute 'replace'")
      else
        var rest :- ModelNames(models[1..]);
        Ok([RemoveAll(name.s, "models/")] + rest)
  }

  /**
    `list_models`: only `requests` exceptions (transport, HTTP status, a body
    that is not JSON) are caught and give `[]`; a body of the wrong shape
    raises out of the method.
  */
  function ListModels(reply: Reply): (r: Py<seq<string>>)
    ensures reply.Failed? || RaisesForStatus(reply.status) || reply.body.None? ==> r == Ok([])
  {
    if reply.Failed? || RaisesForStatus(reply.status) || reply.body.None? then Ok([])
    else
      var models :- Get(reply.body.value, "models", JArr([]));
      var items :- Iter(models);
      ModelNames(items)
  }

  /** `health_check`: available exactly when `list_models` returns a non-empty list; anything it raises means unavailable. */
  function HealthCheck(reply: Reply): (r: bool)
    ensures r ==> reply.Reply? && !RaisesForStatus(reply.status) && reply.body.Some?
    ensures r <==> ListModels(reply).Ok? && ListModels(reply).value != []
  {
    var models := ListModels(reply);
    models.Ok? && models.value != []
  }

  /** The `models` entry of a listing body for the given names, each under the `models/` prefix. */
  function ListingEntries(names: seq<string>): (r: seq<Json>)
    ensures |r| == |names|
    ensures forall k :: 0 <= k < |names| ==> r[k] == JObj([("name", JStr("models/" + names[k]))])
  {
    seq(|names|, k requires 0 <= k < |names| => JObj([("name", JStr("models/" + names[k]))]))
  }

  /** The model names of a well-formed listing come back without their `models/` prefix, in order. */
  lemma {:induction false} ModelNamesStripped(names: seq<string>)
    requires forall k :: 0 <= k < |names| ==> !IsSubstring("models/", names[k])
    ensures ModelNames(ListingEntries(names)) == Ok(names)
  {
    if |names| > 0 {
      var entries := ListingEntries(names);
      assert KeysOf(entries[0].fields) == ["name"];
      ModelPrefixRemoved(names[0]);
      assert entries[1..] == ListingEntries(names[1..]);
      ModelNamesStripped(names[1..]);
      assert [names[0]] + names[1..] == names;
    }
  }

  /** With a well-formed listing, the client is healthy exactly when some model is listed. */
  lemma HealthyIffModels(status: int, names: seq<string>)
    requires !RaisesForStatus(status)
    requires forall k :: 0 <= k < |names| ==> !IsSubstring("models/", names[k])
    ensures ListModels(Reply(status, Some(JObj([("models", JArr(ListingEntries(names)))])))) == Ok(names)
    ensures HealthCheck(Reply(status, Some(JObj([("models", JArr(ListingEntries(names)))])))) <==> names != []
  {
    assert KeysOf([("models", JArr(ListingEntries(names)))]) == ["models"];
    ModelNamesStripped(names);
  }

  // ---------------------------------------------------------------------------
  // From the OpenAI-style history to Gemini `contents`
  // ---------------------------------------------------------------------------

  /** What one history message turns into: the system instruction, or one entry of `contents`. */
  datatype Translated = SystemText(instruction: Json) | Entry(content: Json)

  /** `[{"text": content}]` */
  function TextParts(content: Json): Json
  {
    JArr([JObj([("text", content)])])
  }

  /** The `functionCall` part an earlier assistant call becomes. */
  function FunctionCallPart(name: Json, args: Json): Json
  {
    JObj([("functionCall", JObj([("name", name), ("args", args)]))])
  }

  /** One step of the loop over an assistant message's `tool_calls`: `tc['name']`, `tc['arguments']`. */
  function FunctionCallOf(tc: Json): (r: Py<Json>)
    ensures r.Ok? <==> GetItem(tc, "name").Ok? && GetItem(tc, "arguments").Ok?
    ensures r.Ok? ==> r.value == FunctionCallPart(GetItem(tc, "name").value, GetItem(tc, "arguments").value)
  {
    var name :- GetItem(tc, "name");
    var args :- GetItem(tc, "arguments");
    Ok(FunctionCallPart(name, args))
  }

  /** The entry for a `tool` message: a `functionResponse` part under role `function`. */
  function FunctionResponse(name: Json, content: Json): Json
  {
    JObj([("role", JStr("function")),
          ("parts", JArr([JObj([("functionResponse", JObj([("name", name), ("response", JObj([("result", content)]))]))])]))])
  }

  /**
    One turn of the message loop: a `system` message becomes the instruction,
    a `tool` message a function response, an assistant message with truthy
    `tool_calls` a `model` entry of `functionCall` parts, and anything else a
    text entry under `model` (assistant) or `user`.
  */
  function TranslateOne(msg: Json): (r: Py<Translated>)
    ensures !msg.JObj? ==> r.Err?
  {
    var role :- Get(msg, "role", JStr("user"));
    // `msg` is a dict here, so the other `.get` calls cannot raise
    var content := Get(msg, "content", JStr("")).value;
    var rawCalls := Get(msg, "tool_calls", JNull).value;
    if role == JStr("system") then Ok(SystemText(JObj([("parts", TextParts(content))])))
    else if role == JStr("tool") then Ok(Entry(FunctionResponse(Get(msg, "name", JStr("")).value, content)))
    else if role == JStr("assistant") && Truthy(rawCalls) then
      var tcs :- Iter(rawCalls);
      var parts :- Traverse(FunctionCallOf, tcs, []);
      Ok(Entry(JObj([("role", JStr("model")), ("parts", JArr(parts))])))
    else
      Ok(Entry(JObj([("role", JStr(if role == JStr("assistant") then "model" else "user")), ("parts", TextParts(content))])))
  }

  /** One message of the history, with the inner loop over its tool calls written out. */
  method TranslateMessage(msg: Json) returns (r: Py<Translated>)
    ensures r == TranslateOne(msg)
  {
    if !msg.JObj? {
      return Err(Get(msg, "role", JStr("user")).error);
    }
    var role := Get(msg, "role", JStr("user")).value;
    var content := Get(msg, "content", JStr("")).value;
    var rawCalls := Get(msg, "tool_calls", JNull).value;
    if role == JStr("system") {
      return Ok(SystemText(JObj([("parts", TextParts(content))])));
    } else if role == JStr("tool") {
      return Ok(Entry(FunctionResponse(Get(msg, "name", JStr("")).value, content)));
    } else if role == JStr("assistant") && Truthy(rawCalls) {
      var tcs := Iter(rawCalls);
      if tcs.Err? {
        return Err(tcs.error);
      }
      var parts: seq<Json> := [];
      var i := 0;
      while i < |tcs.value|
        invariant 0 <= i <= |tcs.value|
        invariant Traverse(FunctionCallOf, tcs.value, []) == Traverse(FunctionCallOf, tcs.value[i..], parts)
      {
        assert tcs.value[i..][1..] == tcs.value[i + 1..];
        var part := FunctionCallOf(tcs.value[i]);
        if part.Err? {
          return Err(part.error);
        }
        parts := parts + [part.value];
        i := i + 1;
      }
      return Ok(Entry(JObj([("role", JStr("model")), ("parts", JArr(parts))])));
    } else {
      return Ok(Entry(JObj([("role", JStr(if role == JStr("assistant") then "model" else "user")), ("parts", TextParts(content))])));
    }
  }

  /**
    The message loop: `contents` collects the entries, `system` the
    instruction so far (`JNull` for None). `step` is the translation of one
    message; the client passes `TranslateOne`.
  */
  function TranslateAll(step: Json -> Py<Translated>, msgs: seq<Json>, contents: seq<Json>, system: Json): (r: Py<(seq<Json>, Json)>)
    ensures r.Ok? ==> |contents| <= |r.value.0| <= |contents| + |msgs| && r.value.0[..|contents|] == contents
    ensures |msgs| > 0 && step(msgs[0]).Err? ==> r == Err(step(msgs[0]).error)
  {
    if |msgs| == 0 then Ok((contents, system))
    else
      var t :- step(msgs[0]);
      match t
      case SystemText(instruction) => TranslateAll(step, msgs[1..], contents, instruction)
      case Entry(content) => TranslateAll(step, msgs[1..], contents + [content], system)
  }

  /** The loop at the head of `chat_with_tools`. */
  method TranslateMessages(msgs: seq<Json>) returns (r: Py<(seq<Json>, Json)>)
    ensures r == TranslateAll(TranslateOne, msgs, [], JNull)
  {
    var contents: seq<Json> := [];
    var system := JNull;
    var i := 0;
    while i < |msgs|
      invariant 0 <= i <= |msgs|
      invariant TranslateAll(TranslateOne, msgs, [], JNull) == TranslateAll(TranslateOne, msgs[i..], contents, system)
    {
      assert msgs[i..][1..] == msgs[i + 1..];
      var t := TranslateMessage(msgs[i]);
      if t.Err? {
        return Err(t.error);
      }
      match t.value {
        case SystemText(instruction) => system := instruction;
        case Entry(content) => contents := contents + [content];
      }
      i := i + 1;
    }
    return Ok((contents, system));
  }

  /** The entries of a translated history, in order. */
  function EntriesOf(ts: seq<Translated>): (r: seq<Json>)
    ensures |r| <= |ts|
  {
    if |ts| == 0 then []
    else if ts[0].Entry? then [ts[0].content] + EntriesOf(ts[1..])
    else EntriesOf(ts[1..])
  }

  /** A history without system messages gives all its contents, in order. */
  lemma {:induction false} EntriesOfAll(ts: seq<Translated>)
    requires forall k :: 0 <= k < |ts| ==> ts[k].Entry?
    ensures |EntriesOf(ts)| == |ts|
    ensures forall k :: 0 <= k < |ts| ==> EntriesOf(ts)[k] == ts[k].content
  {
    if |ts| > 0 {
      assert forall k :: 0 <= k < |ts| - 1 ==> ts[1..][k] == ts[k + 1];
      EntriesOfAll(ts[1..]);
    }
  }

  /** The instruction in force after a translated history, starting from `s`. */
  function LastSystem(ts: seq<Translated>, s: Json): Json
  {
    if |ts| == 0 then s
    else LastSystem(ts[1..], if ts[0].SystemText? then ts[0].instruction else s)
  }

  /** Without system messages the starting instruction stays. */
  lemma {:induction false} LastSystemNone(ts: seq<Translated>, s: Json)
    requires forall k :: 0 <= k < |ts| ==> !ts[k].SystemText?
    ensures LastSystem(ts, s) == s
  {
    if |ts| > 0 {
      assert forall k :: 0 <= k < |ts| - 1 ==> ts[1..][k] == ts[k + 1];
      LastSystemNone(ts[1..], s);
    }
  }

  /** The last system message of a history wins. */
  lemma {:induction false} LastSystemWins(ts: seq<Translated>, s: Json, k: nat)
    requires k < |ts| && ts[k].SystemText?
    requires forall j :: k < j < |ts| ==> !ts[j].SystemText?
    ensures LastSystem(ts, s) == ts[k].instruction
  {
    var s' := if ts[0].SystemText? then ts[0].instruction else s;
    assert LastSystem(ts, s) == LastSystem(ts[1..], s');
    assert forall j :: 0 <= j < |ts| - 1 ==> ts[1..][j] == ts[j + 1];
    if k == 0 {
      LastSystemNone(ts[1..], s');
    } else {
      LastSystemWins(ts[1..], s', k - 1);
    }
  }

  /** A message translates to an instruction exactly when it is a dict whose role is `system`. */
  lemma SystemTextIffSystem(msg: Json)
    ensures (TranslateOne(msg).Ok? && TranslateOne(msg).value.SystemText?) <==> Get(msg, "role", JStr("user")) == Ok(JStr("system"))
  {
  }

  /** When every instruction is truthy, the one in force is truthy iff the starting one was or some item sets one. */
  lemma {:induction false} LastSystemPresent(ts: seq<Translated>, s: Json)
    requires forall k :: 0 <= k < |ts| && ts[k].SystemText? ==> Truthy(ts[k].instruction)
    ensures Truthy(LastSystem(ts, s)) <==> Truthy(s) || exists k :: 0 <= k < |ts| && ts[k].SystemText?
  {
    if |ts| > 0 {
      var s' := if ts[0].SystemText? then ts[0].instruction else s;
      assert forall j :: 0 <= j < |ts| - 1 ==> ts[1..][j] == ts[j + 1];
      LastSystemPresent(ts[1..], s');
      if exists k :: 0 <= k < |ts| && ts[k].SystemText? {
        var k :| 0 <= k < |ts| && ts[k].SystemText?;
        if k > 0 {
          assert ts[1..][k - 1].SystemText?;
        }
      }
    }
  }

  /**
    Over a whole history: the instruction the loop leaves is the one built
    from the content of the last `system` message.
  */
  lemma HistorySystemInstruction(msgs: seq<Json>, k: nat)
    requires TranslateAll(TranslateOne, msgs, [], JNull).Ok?
    requires k < |msgs| && Get(msgs[k], "role", JStr("user")) == Ok(JStr("system"))
    requires forall j :: k < j < |msgs| ==> Get(msgs[j], "role", JStr("user")) != Ok(JStr("system"))
    ensures msgs[k].JObj?
    ensures TranslateAll(TranslateOne, msgs, [], JNull).value.1 == JObj([("parts", TextParts(Get(msgs[k], "content", JStr("")).value))])
  {
    TranslateAllSpec(TranslateOne, msgs, [], JNull);
    var ts := Traverse(TranslateOne, msgs, []).value;
    TraverseValues(TranslateOne, msgs);
    forall j | k <= j < |msgs|
      ensures ts[j].SystemText? <==> j == k
    {
      SystemTextIffSystem(msgs[j]);
    }
    SystemRole(msgs[k]);
    LastSystemWins(ts, JNull, k);
  }

  /**
    Over a whole history: the loop leaves a truthy instruction, and so
    `systemInstruction` in the request, exactly when some message has role
    `system`, whatever its content.
  */
  lemma HistoryHasInstruction(msgs: seq<Json>)
    requires TranslateAll(TranslateOne, msgs, [], JNull).Ok?
    ensures Truthy(TranslateAll(TranslateOne, msgs, [], JNull).value.1) <==>
              exists k :: 0 <= k < |msgs| && Get(msgs[k], "role", JStr("user")) == Ok(JStr("system"))
  {
    TranslateAllSpec(TranslateOne, msgs, [], JNull);
    var ts := Traverse(TranslateOne, msgs, []).value;
    TraverseValues(TranslateOne, msgs);
    forall j | 0 <= j < |msgs|
      ensures ts[j].SystemText? <==> Get(msgs[j], "role", JStr("user")) == Ok(JStr("system"))
      ensures ts[j].SystemText? ==> Truthy(ts[j].instruction)
    {
      SystemTextIffSystem(msgs[j]);
    }
    LastSystemPresent(ts, JNull);
  }

  /**
    The message loop, against the translations of the single messages: it
    fails with the first message that raises; otherwise `contents` holds the
    non-system entries in order and the last system message wins.
  */
  lemma {:induction false} TranslateAllSpec(step: Json -> Py<Translated>, msgs: seq<Json>, contents: seq<Json>, system: Json)
    ensures TranslatesAs(step, msgs, contents, system)
  {
    if |msgs| == 0 {
      assert contents + [] == contents;
    } else if step(msgs[0]).Ok? {
      var t := step(msgs[0]).value;
      TranslateAllSpec(step, msgs[1..], if t.Entry? then contents + [t.content] else contents,
                       if t.SystemText? then t.instruction else system);
      TranslateAllStep(step, msgs, contents, system);
    } else {
      var none: seq<Translated> := [];
      assert Traverse(step, msgs, none) == Err(step(msgs[0]).error);
    }
  }

  /** The message loop agrees with the translations of the single messages. */
  ghost predicate TranslatesAs(step: Json -> Py<Translated>, msgs: seq<Json>, contents: seq<Json>, system: Json)
  {
    && (Traverse(step, msgs, []).Err? ==> TranslateAll(step, msgs, contents, system) == Err(Traverse(step, msgs, []).error))
    && (Traverse(step, msgs, []).Ok? ==>
          TranslateAll(step, msgs, contents, system) ==
          Ok((contents + EntriesOf(Traverse(step, msgs, []).value), LastSystem(Traverse(step, msgs, []).value, system))))
  }

  /** The induction step of `TranslateAllSpec`: a first message that translates. */
  lemma TranslateAllStep(step: Json -> Py<Translated>, msgs: seq<Json>, contents: seq<Json>, system: Json)
    requires |msgs| > 0 && step(msgs[0]).Ok?
    requires var t := step(msgs[0]).value;
             TranslatesAs(step, msgs[1..], if t.Entry? then contents + [t.content] else contents,
                          if t.SystemText? then t.instruction else system)
    ensures TranslatesAs(step, msgs, contents, system)
  {
    var none: seq<Translated> := [];
    var t := step(msgs[0]).value;
    var contents' := if t.Entry? then contents + [t.content] else contents;
    var system' := if t.SystemText? then t.instruction else system;
    assert TranslateAll(step, msgs, contents, system) == TranslateAll(step, msgs[1..], contents', system');
    assert none + [t] == [t];
    assert Traverse(step, msgs, none) == Traverse(step, msgs[1..], [t]);
    TraverseShift(step, msgs[1..], [t]);
    if Traverse(step, msgs[1..], []).Ok? {
      var rest := Traverse(step, msgs[1..], []).value;
      TranslatedCons(t, rest, system);
      if t.Entry? {
        assert contents' + EntriesOf(rest) == contents + ([t.content] + EntriesOf(rest));
      } else {
        assert [] + EntriesOf(rest) == EntriesOf(rest);
      }
    }
  }

  /** Entries and instruction of a history one translation longer. */
  lemma TranslatedCons(t: Translated, rest: seq<Translated>, system: Json)
    ensures EntriesOf([t] + rest) == (if t.Entry? then [t.content] else []) + EntriesOf(rest)
    ensures LastSystem([t] + rest, system) == LastSystem(rest, if t.SystemText? then t.instruction else system)
  {
    assert ([t] + rest)[1..] == rest;
  }

  /** The role an entry is sent under. */
  function EntryRole(t: Translated): Py<Json>
  {
    if t.Entry? then GetItem(t.content, "role") else Err("system instruction")
  }

  /**
    The role mapping of a dict message: `system` becomes the instruction,
    `tool` goes under `function`, `assistant` under `model`, and any other or
    missing role under `user`.
  */
  lemma RoleMapping(msg: Json)
    requires msg.JObj?
    ensures var role := Get(msg, "role", JStr("user")).value;
            var t := TranslateOne(msg);
            var content := Get(msg, "content", JStr("")).value;
            && (role == JStr("system") ==> t == Ok(SystemText(JObj([("parts", TextParts(content))]))))
            && (role == JStr("tool") ==> t == Ok(Entry(FunctionResponse(Get(msg, "name", JStr("")).value, content))) &&
                                         EntryRole(t.value) == Ok(JStr("function")))
            && (role == JStr("assistant") && !Truthy(Get(msg, "tool_calls", JNull).value) ==>
                  t == Ok(Entry(JObj([("role", JStr("model")), ("parts", TextParts(content))]))))
            && (role == JStr("assistant") && t.Ok? ==> EntryRole(t.value) == Ok(JStr("model")))
            && (role !in [JStr("system"), JStr("tool"), JStr("assistant")] ==>
                  t == Ok(Entry(JObj([("role", JStr("user")), ("parts", TextParts(content))]))) && EntryRole(t.value) == Ok(JStr("user")))
  {
    var role := Get(msg, "role", JStr("user")).value;
    if role == JStr("system") {
      SystemRole(msg);
    } else if role == JStr("tool") {
      ToolRole(msg);
    } else if role == JStr("assistant") {
      AssistantRole(msg);
    } else {
      UserRole(msg);
    }
  }

  /**
    A `tool` message becomes a `functionResponse` entry under role
    `function` carrying the message's `name` (default `''`) and, as its
    `result`, the message's `content` (default `''`).
  */
  lemma ToolRole(msg: Json)
    requires msg.JObj? && Get(msg, "role", JStr("user")).value == JStr("tool")
    ensures TranslateOne(msg) == Ok(Entry(FunctionResponse(Get(msg, "name", JStr("")).value, Get(msg, "content", JStr("")).value)))
    ensures EntryRole(TranslateOne(msg).value) == Ok(JStr("function"))
  {
    assert JStr("tool") != JStr("system") by { assert "tool"[0] != "system"[0]; }
  }

  /**
    Reading a function response back the way the API does: its role is
    `function`, it has one part, and that part's `functionResponse` gives
    the tool's name and, under `response.result`, the tool's output.
  */
  lemma FunctionResponseReadBack(name: Json, content: Json)
    ensures var e := FunctionResponse(name, content);
            var parts := GetItem(e, "parts");
            && GetItem(e, "role") == Ok(JStr("function"))
            && parts.Ok? && parts.value.JArr? && |parts.value.items| == 1
            && var fr := GetItem(parts.value.items[0], "functionResponse");
               && fr.Ok? && GetItem(fr.value, "name") == Ok(name)
               && var resp := GetItem(fr.value, "response");
                  resp.Ok? && GetItem(resp.value, "result") == Ok(content)
  {
    var e := FunctionResponse(name, content);
    LookupAt(e.fields, 1);
    var fr := JObj([("name", name), ("response", JObj([("result", content)]))]);
    LookupAt(fr.fields, 1);
  }

  /** A `system` message becomes the instruction `{"parts": [{"text": content}]}`. */
  lemma SystemRole(msg: Json)
    requires msg.JObj? && Get(msg, "role", JStr("user")).value == JStr("system")
    ensures TranslateOne(msg) == Ok(SystemText(JObj([("parts", TextParts(Get(msg, "content", JStr("")).value))])))
  {
  }

  /**
    An assistant message becomes a `model` entry; without truthy
    `tool_calls` its parts are the one text part holding its content.
  */
  lemma AssistantRole(msg: Json)
    requires msg.JObj? && Get(msg, "role", JStr("user")).value == JStr("assistant")
    ensures TranslateOne(msg).Ok? ==> EntryRole(TranslateOne(msg).value) == Ok(JStr("model"))
    ensures !Truthy(Get(msg, "tool_calls", JNull).value) ==>
              TranslateOne(msg) == Ok(Entry(JObj([("role", JStr("model")), ("parts", TextParts(Get(msg, "content", JStr("")).value))])))
  {
    assert JStr("assistant") != JStr("system") by { assert "assistant"[0] != "system"[0]; }
    assert JStr("assistant") != JStr("tool") by { assert "assistant"[0] != "tool"[0]; }
  }

  lemma UserRole(msg: Json)
    requires msg.JObj?
    requires Get(msg, "role", JStr("user")).value !in [JStr("system"), JStr("tool"), JStr("assistant")]
    ensures TranslateOne(msg) == Ok(Entry(JObj([("role", JStr("user")), ("parts", TextParts(Get(msg, "content", JStr("")).value))])))
    ensures EntryRole(TranslateOne(msg).value) == Ok(JStr("user"))
  {
  }

  /** An assistant message with a non-empty call list becomes a `model` entry of the loop's parts, or raises with the loop. */
  lemma AssistantEntry(msg: Json, tcs: seq<Json>)
    requires msg.JObj? && Lookup(msg.fields, "role") == Some(JStr("assistant"))
    requires Lookup(msg.fields, "tool_calls") == Some(JArr(tcs)) && tcs != []
    ensures Traverse(FunctionCallOf, tcs, []).Err? ==> TranslateOne(msg) == Err(Traverse(FunctionCallOf, tcs, []).error)
    ensures Traverse(FunctionCallOf, tcs, []).Ok? ==>
              TranslateOne(msg) == Ok(Entry(JObj([("role", JStr("model")), ("parts", JArr(Traverse(FunctionCallOf, tcs, []).value))])))
  {
    assert Get(msg, "role", JStr("user")) == Ok(JStr("assistant"));
    assert Get(msg, "tool_calls", JNull) == Ok(JArr(tcs));
    assert Truthy(JArr(tcs)) && Iter(JArr(tcs)) == Ok(tcs);
    assert JStr("assistant") != JStr("system") by { assert "assistant"[0] != "system"[0]; }
    assert JStr("assistant") != JStr("tool") by { assert "assistant"[0] != "tool"[0]; }
  }

  /** An assistant message with a list of flat `{name, arguments}` calls becomes one `functionCall` part per call, in order. */
  lemma AssistantCalls(msg: Json, tcs: seq<Json>)
    requires msg.JObj? && Lookup(msg.fields, "role") == Some(JStr("assistant"))
    requires Lookup(msg.fields, "tool_calls") == Some(JArr(tcs)) && tcs != []
    requires forall k :: 0 <= k < |tcs| ==> tcs[k].JObj? && "name" in KeysOf(tcs[k].fields) && "arguments" in KeysOf(tcs[k].fields)
    ensures Traverse(FunctionCallOf, tcs, []).Ok?
    ensures var parts := Traverse(FunctionCallOf, tcs, []).value;
            && TranslateOne(msg) == Ok(Entry(JObj([("role", JStr("model")), ("parts", JArr(parts))])))
            && |parts| == |tcs|
            && forall k :: 0 <= k < |tcs| ==>
                 parts[k] == FunctionCallPart(Lookup(tcs[k].fields, "name").value, Lookup(tcs[k].fields, "arguments").value)
  {
    TraverseOk(FunctionCallOf, tcs, []);
    TraverseValues(FunctionCallOf, tcs);
    AssistantEntry(msg, tcs);
  }

  /**
    A call entry in the nested `{id, type, function: {name, arguments}}`
    shape has no top-level `name`, so an assistant message holding one makes
    the translation raise.
  */
  lemma NestedCallRejected(msg: Json, tcs: seq<Json>, k: nat)
    requires msg.JObj? && Lookup(msg.fields, "role") == Some(JStr("assistant"))
    requires Lookup(msg.fields, "tool_calls") == Some(JArr(tcs)) && k < |tcs|
    requires tcs[k].JObj? && "name" !in KeysOf(tcs[k].fields)
    ensures TranslateOne(msg).Err?
  {
    assert FunctionCallOf(tcs[k]).Err?;
    TraverseOk(FunctionCallOf, tcs, []);
    AssistantEntry(msg, tcs);
  }

  // ---------------------------------------------------------------------------
  // Tool declarations and the request body
  // ---------------------------------------------------------------------------

  /**
    One step of the declarations loop: `tool['name']`, `tool['description']`,
    `tool['parameters']`. It succeeds exactly on a dict holding the three
    keys, and the declaration carries exactly those three values.
  */
  function DeclarationOf(tool: Json): (r: Py<Json>)
    ensures r.Ok? <==> tool.JObj? && "name" in KeysOf(tool.fields) && "description" in KeysOf(tool.fields) && "parameters" in KeysOf(tool.fields)
    ensures r.Ok? ==> r.value.JObj? && KeysOf(r.value.fields) == ["name", "description", "parameters"]
    ensures r.Ok? ==> GetItem(r.value, "name") == GetItem(tool, "name") &&
                      GetItem(r.value, "description") == GetItem(tool, "description") &&
                      GetItem(r.value, "parameters") == GetItem(tool, "parameters")
  {
    var name :- GetItem(tool, "name");
    var description :- GetItem(tool, "description");
    var parameters :- GetItem(tool, "parameters");
    var fields := [("name", name), ("description", description), ("parameters", parameters)];
    assert KeysOf(fields[1..]) == ["description", "parameters"];
    LookupAt(fields, 1);
    LookupAt(fields, 2);
    Ok(JObj(fields))
  }

  /** The loop that builds `function_declarations`. */
  method BuildDeclarations(tools: seq<Json>) returns (r: Py<seq<Json>>)
    ensures r == Traverse(DeclarationOf, tools, [])
  {
    var decls: seq<Json> := [];
    var i := 0;
    while i < |tools|
      invariant 0 <= i <= |tools|
      invariant Traverse(DeclarationOf, tools, []) == Traverse(DeclarationOf, tools[i..], decls)
    {
      assert tools[i..][1..] == tools[i + 1..];
      var decl := DeclarationOf(tools[i]);
      if decl.Err? {
        return Err(decl.error);
      }
      decls := decls + [decl.value];
      i := i + 1;
    }
    return Ok(decls);
  }

  /** A tool rendered in the Gemini format is declared exactly as rendered. */
  lemma DeclarationOfSchema(t: Tool)
    ensures DeclarationOf(ToGeminiSchema(t)) == Ok(ToGeminiSchema(t))
  {
    GeminiSchemaFields(t);
    assert DeclarationOf(ToGeminiSchema(t)) ==
           Ok(JObj([("name", JStr(t.name)), ("description", JStr(t.description)), ("parameters", t.parameters)]));
  }

  /** Tools rendered in the Gemini format are declared exactly as rendered. */
  lemma DeclarationsOfGeminiSchemas(ts: seq<Tool>)
    ensures var schemas := seq(|ts|, k requires 0 <= k < |ts| => ToGeminiSchema(ts[k]));
            Traverse(DeclarationOf, schemas, []) == Ok(schemas)
  {
    var schemas := seq(|ts|, k requires 0 <= k < |ts| => ToGeminiSchema(ts[k]));
    forall k | 0 <= k < |schemas|
      ensures DeclarationOf(schemas[k]) == Ok(schemas[k])
    {
      DeclarationOfSchema(ts[k]);
    }
    TraverseUnchanged(DeclarationOf, schemas);
  }

  /** A tool without `name` (the nested OpenAI shape, say) makes the declarations loop raise. */
  lemma UndeclarableTool(tools: seq<Json>, k: nat)
    requires k < |tools| && tools[k].JObj? && "name" !in KeysOf(tools[k].fields)
    ensures Traverse(DeclarationOf, tools, []).Err?
  {
    TraverseOk(DeclarationOf, tools, []);
  }

  /** The fields every body has: contents, one tool holding the declarations, and the generation config. */
  function BaseFields(contents: seq<Json>, decls: seq<Json>, temperature: Json): seq<(string, Json)>
  {
    [("contents", JArr(contents)),
     ("tools", JArr([JObj([("functionDeclarations", JArr(decls))])])),
     ("generationConfig", JObj([("temperature", temperature), ("maxOutputTokens", JNum(4096))]))]
  }

  /** The request body; `systemInstruction` is added, last, only when an instruction was set. */
  function Payload(contents: seq<Json>, decls: seq<Json>, temperature: Json, system: Json): (r: Json)
    ensures r.JObj? && |r.fields| == (if Truthy(system) then 4 else 3)
    ensures r.fields[0].0 == "contents" && r.fields[1].0 == "tools" && r.fields[2].0 == "generationConfig"
    ensures Truthy(system) ==> r.fields[3] == ("systemInstruction", system)
  {
    var base := BaseFields(contents, decls, temperature);
    if Truthy(system) then JObj(base + [("systemInstruction", system)]) else JObj(base)
  }

  /** The translated history goes into `contents` unchanged. */
  lemma PayloadContents(contents: seq<Json>, decls: seq<Json>, temperature: Json, system: Json)
    ensures GetItem(Payload(contents, decls, temperature, system), "contents") == Ok(JArr(contents))
  {
  }

  /** The declarations are sent as the single tool's `functionDeclarations`. */
  lemma PayloadTools(contents: seq<Json>, decls: seq<Json>, temperature: Json, system: Json)
    ensures GetItem(Payload(contents, decls, temperature, system), "tools") ==
            Ok(JArr([JObj([("functionDeclarations", JArr(decls))])]))
  {
    var fields := Payload(contents, decls, temperature, system).fields;
    assert "contents"[0] != "tools"[0];
    LookupAt(fields, 1);
  }

  /** The body carries the temperature and the fixed output limit of 4096 tokens. */
  lemma PayloadGenerationConfig(contents: seq<Json>, decls: seq<Json>, temperature: Json, system: Json)
    ensures GetItem(Payload(contents, decls, temperature, system), "generationConfig") ==
            Ok(JObj([("temperature", temperature), ("maxOutputTokens", JNum(4096))]))
  {
    var fields := Payload(contents, decls, temperature, system).fields;
    assert "contents"[0] != "generationConfig"[0];
    assert "tools"[0] != "generationConfig"[0];
    LookupAt(fields, 2);
  }

  /** `systemInstruction` is present exactly when an instruction was set, and then it is that instruction. */
  lemma PayloadSystemInstruction(contents: seq<Json>, decls: seq<Json>, temperature: Json, system: Json)
    ensures GetItem(Payload(contents, decls, temperature, system), "systemInstruction").Ok? <==> Truthy(system)
    ensures Truthy(system) ==> GetItem(Payload(contents, decls, temperature, system), "systemInstruction") == Ok(system)
  {
    var base := BaseFields(contents, decls, temperature);
    KeysOfSpec(base);
    assert KeysOf(base) == ["contents", "tools", "generationConfig"];
    if Truthy(system) {
      LookupAfter(base, "systemInstruction", system, []);
      assert base + [("systemInstruction", system)] + [] == base + [("systemInstruction", system)];
    }
  }

  // ---------------------------------------------------------------------------
  // Reading the response
  // ---------------------------------------------------------------------------

  /**
    The guard chain at the top of the parse: the parts of the first
    candidate, or none when a guard is false. A dict body without candidates
    or with an empty list has no parts; parts are only found in a dict body
    holding `candidates`, and a well-shaped body gives its first candidate's
    parts.
  */
  function CandidateParts(data: Json): (r: Py<seq<Json>>)
    ensures !(data.JObj? || data.JArr? || data.JStr?) ==> r.Err?
    ensures data.JObj? && (Lookup(data.fields, "candidates").None? || Lookup(data.fields, "candidates") == Some(JArr([]))) ==> r == Ok([])
    ensures r.Ok? && r.value != [] ==> data.JObj? && "candidates" in KeysOf(data.fields)
    ensures data.JObj? && Lookup(data.fields, "candidates").Some? && Lookup(data.fields, "candidates").value.JArr? ==>
              var cs := Lookup(data.fields, "candidates").value.items;
              cs != [] && cs[0].JObj? && Lookup(cs[0].fields, "content").Some? &&
              Lookup(cs[0].fields, "content").value.JObj? &&
              Lookup(Lookup(cs[0].fields, "content").value.fields, "parts").Some? &&
              Lookup(Lookup(cs[0].fields, "content").value.fields, "parts").value.JArr? ==>
                r == Ok(Lookup(Lookup(cs[0].fields, "content").value.fields, "parts").value.items)
  {
    var hasCandidates :- Contains(data, "candidates");
    if !hasCandidates then Ok([])
    else
      var candidates :- GetItem(data, "candidates");
      var n :- Len(candidates);
      if n == 0 then Ok([])
      else
        var candidate :- First(candidates);
        var hasContent :- Contains(candidate, "content");
        if !hasContent then Ok([])
        else
          var content :- GetItem(candidate, "content");
          var hasParts :- Contains(content, "parts");
          if !hasParts then Ok([])
          else
            var parts :- GetItem(content, "parts");
            Iter(parts)
  }

  /** What the part loop has gathered: `content_text` and `tool_calls`. */
  datatype PartsState = PartsState(text: string, calls: seq<ToolCall>)

  /** A dict part holding `text`. */
  predicate IsTextPart(part: Json)
  {
    part.JObj? && "text" in KeysOf(part.fields)
  }

  /** A dict part holding `functionCall` and no `text`. */
  predicate IsCallPart(part: Json)
  {
    part.JObj? && "text" !in KeysOf(part.fields) && "functionCall" in KeysOf(part.fields)
  }

  /** The text a part contributes. */
  function TextOf(part: Json): string
  {
    if IsTextPart(part) && Lookup(part.fields, "text").value.JStr? then Lookup(part.fields, "text").value.s else ""
  }

  /** The call a `functionCall` dict becomes. */
  function CallFrom(fc: Json, id: Json): ToolCall
    requires fc.JObj?
  {
    // `fc` is a dict, so these `.get` calls cannot raise
    ToolCall(id, Get(fc, "name", JStr("")).value, Get(fc, "args", EmptyObj).value)
  }

  /** A part the loop reads without raising: a dict whose `text` is a str and whose `functionCall` is a dict. */
  predicate WellFormedPart(part: Json)
  {
    part.JObj? &&
    (IsTextPart(part) ==> Lookup(part.fields, "text").value.JStr?) &&
    (IsCallPart(part) ==> Lookup(part.fields, "functionCall").value.JObj?)
  }

  /**
    One turn of the part loop: `'text' in part` appends the text (a non-str
    raises), `'functionCall' in part` appends a call whose id counts the calls
    so far; other parts are skipped. The debug line's `func_call.get('name')`
    raises unless `functionCall` is a dict.
  */
  function ReadPart(part: Json, ids: nat -> Json, st: PartsState): (r: Py<PartsState>)
    ensures WellFormedPart(part) ==> r.Ok?
    ensures r.Ok? ==> r.value.text == st.text + TextOf(part)
    ensures r.Ok? && !IsCallPart(part) ==> r.value.calls == st.calls
    ensures r.Ok? && IsCallPart(part) ==>
              Lookup(part.fields, "functionCall").value.JObj? &&
              r.value.calls == st.calls + [CallFrom(Lookup(part.fields, "functionCall").value, ids(|st.calls|))]
  {
    var hasText :- Contains(part, "text");
    if hasText then
      var text :- GetItem(part, "text");
      if text.JStr? then Ok(PartsState(st.text + text.s, st.calls))
      else Err("can only concatenate str to str")
    // `part` is a container here, so this `in` cannot raise
    else if Contains(part, "functionCall").value then
      var fc :- GetItem(part, "functionCall");
      var _ :- Get(fc, "name", JNull);
      Ok(PartsState(st.text, st.calls + [CallFrom(fc, ids(|st.calls|))]))
    else
      assert st.text + "" == st.text;
      Ok(st)
  }

  /** `ReadPart` with the id scheme fixed, as the step of the part loop. */
  function PartReader(ids: nat -> Json): (Json, PartsState) -> Py<PartsState>
  {
    (part: Json, st: PartsState) => ReadPart(part, ids, st)
  }

  /** What a step of the part loop does with one part, as `ReadPart` guarantees it. */
  predicate StepMeets(r: Py<PartsState>, part: Json, st: PartsState, ids: nat -> Json)
  {
    && (WellFormedPart(part) ==> r.Ok?)
    && (r.Ok? ==> r.value.text == st.text + TextOf(part))
    && (r.Ok? && !IsCallPart(part) ==> r.value.calls == st.calls)
    && (r.Ok? && IsCallPart(part) ==>
          Lookup(part.fields, "functionCall").value.JObj? &&
          r.value.calls == st.calls + [CallFrom(Lookup(part.fields, "functionCall").value, ids(|st.calls|))])
  }

  /** Every application of `read` meets the step's guarantee. */
  ghost predicate Reads(read: (Json, PartsState) -> Py<PartsState>, ids: nat -> Json)
  {
    forall part: Json, st: PartsState :: StepMeets(read(part, st), part, st, ids)
  }

  /** The client's step meets the guarantee the loop lemmas rely on. */
  lemma PartReaderReads(ids: nat -> Json)
    ensures Reads(PartReader(ids), ids)
  {
    forall part: Json, st: PartsState
      ensures StepMeets(PartReader(ids)(part, st), part, st, ids)
    {
      assert PartReader(ids)(part, st) == ReadPart(part, ids, st);
    }
  }

  /** The part loop from a given state; the client's step is `PartReader(ids)`. */
  function ReadParts(read: (Json, PartsState) -> Py<PartsState>, parts: seq<Json>, st: PartsState): Py<PartsState>
  {
    if |parts| == 0 then Ok(st)
    else
      var next :- read(parts[0], st);
      ReadParts(read, parts[1..], next)
  }

  /** The loop over `candidate['content']['parts']`. */
  method ParseParts(parts: seq<Json>, ids: nat -> Json) returns (r: Py<PartsState>)
    ensures r == ReadParts(PartReader(ids), parts, PartsState("", []))
  {
    var text := "";
    var calls: seq<ToolCall> := [];
    var i := 0;
    while i < |parts|
      invariant 0 <= i <= |parts|
      invariant ReadParts(PartReader(ids), parts, PartsState("", [])) == ReadParts(PartReader(ids), parts[i..], PartsState(text, calls))
    {
      assert parts[i..][1..] == parts[i + 1..];
      var next := ReadPart(parts[i], ids, PartsState(text, calls));
      if next.Err? {
        return Err(next.error);
      }
      text, calls := next.value.text, next.value.calls;
      i := i + 1;
    }
    return Ok(PartsState(text, calls));
  }

  /** The concatenated text of the text parts. */
  function TextsIn(parts: seq<Json>): string
  {
    if |parts| == 0 then "" else TextOf(parts[0]) + TextsIn(parts[1..])
  }

  /** The calls the call parts of `parts` make, in order, numbered from `start`. */
  function CallsIn(parts: seq<Json>, ids: nat -> Json, start: nat): (r: seq<ToolCall>)
    ensures |r| <= |parts|
    ensures forall k :: 0 <= k < |r| ==> r[k].id == ids(start + k)
  {
    if |parts| == 0 then []
    else if IsCallPart(parts[0]) && Lookup(parts[0].fields, "functionCall").value.JObj? then
      [CallFrom(Lookup(parts[0].fields, "functionCall").value, ids(start))] + CallsIn(parts[1..], ids, start + 1)
    else CallsIn(parts[1..], ids, start)
  }

  /** A finished part loop has appended the text of every text part, in order. */
  lemma {:induction false} ReadPartsText(read: (Json, PartsState) -> Py<PartsState>, ids: nat -> Json, parts: seq<Json>, st: PartsState)
    requires Reads(read, ids) && ReadParts(read, parts, st).Ok?
    ensures ReadParts(read, parts, st).value.text == st.text + TextsIn(parts)
  {
    if |parts| == 0 {
      assert st.text + "" == st.text;
    } else {
      assert StepMeets(read(parts[0], st), parts[0], st, ids);
      var next := read(parts[0], st).value;
      ReadPartsText(read, ids, parts[1..], next);
      assert st.text + TextOf(parts[0]) + TextsIn(parts[1..]) == st.text + (TextOf(parts[0]) + TextsIn(parts[1..]));
    }
  }

  /** The calls so far are numbered `ids(0)`, `ids(1)`, … by position. */
  predicate NumberedBy(calls: seq<ToolCall>, ids: nat -> Json)
  {
    forall k :: 0 <= k < |calls| ==> calls[k].id == ids(k)
  }

  /** A finished part loop has appended the calls of the call parts, in order, numbered on from the calls it started with. */
  lemma {:induction false} ReadPartsCalls(read: (Json, PartsState) -> Py<PartsState>, ids: nat -> Json, parts: seq<Json>, st: PartsState)
    requires Reads(read, ids) && ReadParts(read, parts, st).Ok?
    ensures ReadParts(read, parts, st).value.calls == st.calls + CallsIn(parts, ids, |st.calls|)
  {
    if |parts| == 0 {
      assert st.calls + [] == st.calls;
    } else {
      assert StepMeets(read(parts[0], st), parts[0], st, ids);
      var next := read(parts[0], st).value;
      ReadPartsCalls(read, ids, parts[1..], next);
      if IsCallPart(parts[0]) {
        var call := CallFrom(Lookup(parts[0].fields, "functionCall").value, ids(|st.calls|));
        assert st.calls + [call] + CallsIn(parts[1..], ids, |st.calls| + 1) ==
               st.calls + ([call] + CallsIn(parts[1..], ids, |st.calls| + 1));
      }
    }
  }

  /** Parts that are all well formed. */
  predicate WellFormedParts(parts: seq<Json>)
  {
    forall k :: 0 <= k < |parts| ==> WellFormedPart(parts[k])
  }

  /** Well-formed parts never make the loop raise. */
  lemma {:induction false} ReadPartsOk(read: (Json, PartsState) -> Py<PartsState>, ids: nat -> Json, parts: seq<Json>, st: PartsState)
    requires Reads(read, ids) && WellFormedParts(parts)
    ensures ReadParts(read, parts, st).Ok?
  {
    if |parts| > 0 {
      assert WellFormedPart(parts[0]);
      assert StepMeets(read(parts[0], st), parts[0], st, ids);
      assert WellFormedParts(parts[1..]) by {
        forall k | 0 <= k < |parts[1..]|
          ensures parts[1..][k] == parts[k + 1]
        {
        }
      }
      ReadPartsOk(read, ids, parts[1..], read(parts[0], st).value);
    }
  }

  /**
    The body after the status check: the gathered text (None when empty), the
    calls, a finish reason derived from whether there are any, and the raw
    body as the message.
  */
  function ParseResponse(data: Json, ids: nat -> Json): (r: Py<AdapterResult>)
    ensures r.Ok? ==> (r.value.finishReason == JStr("tool_calls") <==> r.value.toolCalls != [])
    ensures r.Ok? ==> (r.value.finishReason == JStr("stop") <==> r.value.toolCalls == [])
    ensures r.Ok? ==> r.value.content == JNull || (r.value.content.JStr? && r.value.content.s != [])
    ensures r.Ok? ==> r.value.message == data
  {
    var parts :- CandidateParts(data);
    var st :- ReadParts(PartReader(ids), parts, PartsState("", []));
    Ok(AdapterResult(if st.text != "" then JStr(st.text) else JNull,
                     st.calls,
                     if st.calls != [] then JStr("tool_calls") else JStr("stop"),
                     data))
  }

  /** A body without candidates is not an error: no content, no calls, finish reason `stop`. */
  lemma NoCandidates(data: Json, ids: nat -> Json)
    requires data.JObj?
    requires Lookup(data.fields, "candidates").None? || Lookup(data.fields, "candidates") == Some(JArr([]))
    ensures ParseResponse(data, ids) == Ok(AdapterResult(JNull, [], JStr("stop"), data))
  {
  }

  /** The body `{"candidates": [{"content": {"parts": parts}}, ...]}`. */
  function CandidateBody(parts: seq<Json>, rest: seq<Json>): Json
  {
    JObj([("candidates", JArr([JObj([("content", JObj([("parts", JArr(parts))]))])] + rest))])
  }

  /**
    A body whose first candidate holds well-formed parts: the content is the
    concatenated text (None when empty) and the calls are one per call part,
    in order, numbered by position.
  */
  lemma FirstCandidateParsed(parts: seq<Json>, rest: seq<Json>, ids: nat -> Json)
    requires WellFormedParts(parts)
    ensures var r := ParseResponse(CandidateBody(parts, rest), ids);
            && r.Ok?
            && r.value.content == (if TextsIn(parts) == "" then JNull else JStr(TextsIn(parts)))
            && r.value.toolCalls == CallsIn(parts, ids, 0)
            && NumberedBy(r.value.toolCalls, ids)
  {
    var data := CandidateBody(parts, rest);
    var candidate := JObj([("content", JObj([("parts", JArr(parts))]))]);
    assert KeysOf(data.fields) == ["candidates"];
    assert KeysOf(candidate.fields) == ["content"];
    assert KeysOf([("parts", JArr(parts))]) == ["parts"];
    assert CandidateParts(data) == Ok(parts);
    var empty := PartsState("", []);
    PartReaderReads(ids);
    ReadPartsOk(PartReader(ids), ids, parts, empty);
    ReadPartsText(PartReader(ids), ids, parts, empty);
    ReadPartsCalls(PartReader(ids), ids, parts, empty);
    assert "" + TextsIn(parts) == TextsIn(parts);
    assert empty.calls + CallsIn(parts, ids, 0) == CallsIn(parts, ids, 0);
  }

  /**
    What follows the POST: `raise_for_status()`, `response.json()` and the
    parse. A transport failure or a 4xx/5xx status raises, and a result
    keeps the JSON body it was read from as its message.
  */
  function Respond(reply: Reply, ids: nat -> Json): (r: Py<AdapterResult>)
    ensures reply.Failed? || RaisesForStatus(reply.status) ==> r.Err?
    ensures r.Ok? ==> reply.Reply? && !RaisesForStatus(reply.status) && reply.body == Some(r.value.message)
  {
    if reply.Failed? then Err("RequestException")
    else if RaisesForStatus(reply.status) then Err("HTTPError: " + IntToString(reply.status))
    else
      var data :- Body(reply);
      ParseResponse(data, ids)
  }

  /**
    `chat_with_tools`: the history is translated, the tools declared, the
    request sent and the response read; every exception becomes the error
    record. (The debug line `[t['name'] for t in tools]` cannot raise once
    the declarations loop has read every `name`.)
  */
  function ChatWithTools(messages: seq<Json>, tools: seq<Json>, temperature: Json, post: Json -> Reply): (r: AdapterResult)
    ensures r != ErrorRecord ==>
              && TranslateAll(TranslateOne, messages, [], JNull).Ok? && Traverse(DeclarationOf, tools, []).Ok?
              && (r.finishReason == JStr("tool_calls") <==> r.toolCalls != [])
  {
    Caught(
      var translated :- TranslateAll(TranslateOne, messages, [], JNull);
      var decls :- Traverse(DeclarationOf, tools, []);
      Respond(post(Payload(translated.0, decls, temperature, translated.1)), CallId))
  }

  /** Transport failures, 4xx/5xx statuses and non-JSON bodies give the error record. */
  lemma ReplyErrors(reply: Reply, ids: nat -> Json)
    ensures reply.Failed? ==> Caught(Respond(reply, ids)) == ErrorRecord
    ensures reply.Reply? && RaisesForStatus(reply.status) ==> Caught(Respond(reply, ids)) == ErrorRecord
    ensures reply.Reply? && reply.body.None? ==> Caught(Respond(reply, ids)) == ErrorRecord
  {
  }

  /**
    A history with a message that cannot be translated (the nested tool-call
    shape, see `NestedCallRejected`) or a tool that cannot be declared gives
    the error record without any request; otherwise the request carries the
    translated history and the declarations.
  */
  lemma ChatErrorRule(messages: seq<Json>, tools: seq<Json>, temperature: Json, post: Json -> Reply)
    ensures (exists i :: 0 <= i < |messages| && TranslateOne(messages[i]).Err?) ==>
              ChatWithTools(messages, tools, temperature, post) == ErrorRecord
    ensures Traverse(DeclarationOf, tools, []).Err? ==> ChatWithTools(messages, tools, temperature, post) == ErrorRecord
    ensures TranslateAll(TranslateOne, messages, [], JNull).Ok? && Traverse(DeclarationOf, tools, []).Ok? ==>
              var translated := TranslateAll(TranslateOne, messages, [], JNull).value;
              ChatWithTools(messages, tools, temperature, post) ==
              Caught(Respond(post(Payload(translated.0, Traverse(DeclarationOf, tools, []).value, temperature, translated.1)), CallId))
  {
    TranslateAllSpec(TranslateOne, messages, [], JNull);
    TraverseOk(TranslateOne, messages, []);
  }
}
