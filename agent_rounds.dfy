/**
  The rounds of the autonomous web agent's loop, over any chat function and
  any tool executor: how a round's tool calls are recorded in the history,
  when the loop stops, and with which exit code.
*/
module AgentRounds {
  import opened Wrappers
  import opened JsonValues
  import opened Adapter

  /** `MAX_ITERATIONS` */
  const MaxIterations: nat := 10

  /** The round numbers `range(1, MAX_ITERATIONS + 1)` runs through. */
  type Iteration = i: nat | 1 <= i <= MaxIterations witness 1

  // ---------------------------------------------------------------- one tool call

  /** The entry recording a call: `{id, type: "function", function: {name, arguments}}`. */
  function CallEntry(call: ToolCall): Json
  {
    JObj([("id", call.id), ("type", JStr("function")),
          ("function", JObj([("name", call.name), ("arguments", call.arguments)]))])
  }

  /** The assistant message that records one call. */
  function AssistantMessage(call: ToolCall): Json
  {
    JObj([("role", JStr("assistant")), ("content", JStr("")), ("tool_calls", JArr([CallEntry(call)]))])
  }

  /** The recorded call is an assistant message whose only call entry has no top-level `name`. */
  lemma AssistantMessageShape(call: ToolCall)
    ensures var m := AssistantMessage(call);
            && m.JObj? && Lookup(m.fields, "role") == Some(JStr("assistant"))
            && Lookup(m.fields, "tool_calls") == Some(JArr([CallEntry(call)]))
            && CallEntry(call).JObj? && "name" !in KeysOf(CallEntry(call).fields)
  {
    var f := AssistantMessage(call).fields;
    LookupAt(f, 0);
    assert f[2].0 != f[0].0 && f[2].0 != f[1].0 by { assert "tool_calls"[0] != "role"[0] && "tool_calls"[0] != "content"[0]; }
    LookupAt(f, 2);
    KeysOfSpec(CallEntry(call).fields);
    assert KeysOf(CallEntry(call).fields) == ["id", "type", "function"];
    assert "name"[0] != "id"[0] && "name"[0] != "type"[0] && "name"[0] != "function"[0];
  }

  /**
    The tool message answering a call: the tool's text, or `"Error: <e>"`
    when the call raised. Only a successful call under Claude carries
    `tool_use_id`.
  */
  function ToolMessage(call: ToolCall, result: Py<string>, isClaude: bool): Json
  {
    var content := if result.Ok? then result.value else "Error: " + result.error;
    var fields := [("role", JStr("tool")), ("content", JStr(content)), ("name", call.name)];
    JObj(if isClaude && result.Ok? then fields + [("tool_use_id", call.id)] else fields)
  }

  /** What the tool message says: its role, the tool's name, and the text or the error. */
  lemma ToolMessageFields(call: ToolCall, result: Py<string>, isClaude: bool)
    ensures var m := ToolMessage(call, result, isClaude);
            && GetItem(m, "role") == Ok(JStr("tool"))
            && GetItem(m, "name") == Ok(call.name)
            && GetItem(m, "content") == Ok(JStr(if result.Ok? then result.value else "Error: " + result.error))
  {
    var f := ToolMessage(call, result, isClaude).fields;
    assert f[1].0 != f[0].0 by { assert "content"[0] != "role"[0]; }
    assert f[2].0 != f[0].0 && f[2].0 != f[1].0 by { assert "name"[0] != "role"[0] && "name"[0] != "content"[0]; }
    LookupAt(f, 0);
    LookupAt(f, 1);
    LookupAt(f, 2);
  }

  /** The message carries the call id exactly when the call succeeded under Claude. */
  lemma ToolMessageUseId(call: ToolCall, result: Py<string>, isClaude: bool)
    ensures var m := ToolMessage(call, result, isClaude);
            && (GetItem(m, "tool_use_id").Ok? <==> isClaude && result.Ok?)
            && (isClaude && result.Ok? ==> GetItem(m, "tool_use_id") == Ok(call.id))
  {
    var f := ToolMessage(call, result, isClaude).fields;
    assert "tool_use_id"[0] != "role"[0] && "tool_use_id"[0] != "content"[0] && "tool_use_id"[0] != "name"[0];
    if isClaude && result.Ok? {
      LookupAt(f, 3);
    } else {
      KeysOfSpec(f);
      assert KeysOf(f) == ["role", "content", "name"];
    }
  }

  /**
    The progress line printed before the `try` calls `tool_args.get(...)` for a
    search or fetch call, so such a call with arguments that are not a dict
    raises out of `main`.
  */
  predicate CrashesProgressLine(call: ToolCall)
  {
    (call.name == JStr("search_web") || call.name == JStr("fetch_page")) && !call.arguments.JObj?
  }

  /** The AttributeError of that progress line. */
  function ProgressLineError(call: ToolCall): string
  {
    "'" + TypeName(call.arguments) + "' object has no attribute 'get'"
  }

  /**
    One call of the inner loop: the assistant message recording the call and
    the tool message answering it are appended, whether or not the call
    raised; `exec` is `registry.execute(tool_name, **tool_args)`.
  */
  function HandleCall(exec: (Json, Json) -> Py<string>, isClaude: bool, call: ToolCall, messages: seq<Json>): (r: Py<seq<Json>>)
    ensures r.Err? <==> CrashesProgressLine(call)
  {
    if CrashesProgressLine(call) then Err(ProgressLineError(call))
    else Ok(messages + [AssistantMessage(call), ToolMessage(call, exec(call.name, call.arguments), isClaude)])
  }

  /** The two messages a call that gets past the progress line leaves: its record, then its answer. */
  function Exchange(exec: (Json, Json) -> Py<string>, isClaude: bool): ToolCall -> (Json, Json)
  {
    call => (AssistantMessage(call), ToolMessage(call, exec(call.name, call.arguments), isClaude))
  }

  /**
    The inner loop from the `k`-th call on. When it goes through it has
    added two messages per call behind the history; when it raises, the
    exception is the progress line's for one of the calls.
  */
  function HandleCalls(exec: (Json, Json) -> Py<string>, isClaude: bool, calls: seq<ToolCall>, k: nat, messages: seq<Json>): (r: Py<seq<Json>>)
    requires k <= |calls|
    ensures r.Ok? ==> |r.value| == |messages| + 2 * (|calls| - k) && r.value[..|messages|] == messages
    ensures r.Err? ==> exists j :: k <= j < |calls| && CrashesProgressLine(calls[j]) && r.error == ProgressLineError(calls[j])
    decreases |calls| - k
  {
    if k == |calls| then Ok(messages)
    else
      var next :- HandleCall(exec, isClaude, calls[k], messages);
      HandleCalls(exec, isClaude, calls, k + 1, next)
  }

  /** The messages the calls from the `k`-th on contribute: per call, its assistant message, then its tool message. */
  function Records(exec: (Json, Json) -> Py<string>, isClaude: bool, calls: seq<ToolCall>, k: nat): (r: seq<Json>)
    requires k <= |calls|
  {
    Pairs(Exchange(exec, isClaude), calls, k)
  }

  /** The `j`-th call's pair sits at offset `2 * (j - k)`. */
  lemma RecordsAt(exec: (Json, Json) -> Py<string>, isClaude: bool, calls: seq<ToolCall>, k: nat, j: nat)
    requires k <= j < |calls|
    ensures |Records(exec, isClaude, calls, k)| == 2 * (|calls| - k)
    ensures Records(exec, isClaude, calls, k)[2 * (j - k)] == AssistantMessage(calls[j])
    ensures Records(exec, isClaude, calls, k)[2 * (j - k) + 1] == ToolMessage(calls[j], exec(calls[j].name, calls[j].arguments), isClaude)
  {
    PairsAt(Exchange(exec, isClaude), calls, k, j);
  }

  /** The inner loop goes through exactly when no call crashes the progress line. */
  lemma {:induction false} HandleCallsOk(exec: (Json, Json) -> Py<string>, isClaude: bool, calls: seq<ToolCall>, k: nat, messages: seq<Json>)
    requires k <= |calls|
    ensures HandleCalls(exec, isClaude, calls, k, messages).Ok? <==> forall j :: k <= j < |calls| ==> !CrashesProgressLine(calls[j])
    decreases |calls| - k
  {
    if k < |calls| {
      HandleCallsStep(exec, isClaude, calls, k, messages);
      if !CrashesProgressLine(calls[k]) {
        var pair := [AssistantMessage(calls[k]), ToolMessage(calls[k], exec(calls[k].name, calls[k].arguments), isClaude)];
        HandleCallsOk(exec, isClaude, calls, k + 1, messages + pair);
      }
    }
  }

  /** A loop that goes through appends exactly the records of its calls, keeping the history before it. */
  lemma {:induction false} HandleCallsAppend(exec: (Json, Json) -> Py<string>, isClaude: bool, calls: seq<ToolCall>, k: nat, messages: seq<Json>)
    requires k <= |calls|
    requires HandleCalls(exec, isClaude, calls, k, messages).Ok?
    ensures HandleCalls(exec, isClaude, calls, k, messages).value == messages + Records(exec, isClaude, calls, k)
    decreases |calls| - k
  {
    if k < |calls| {
      var pair := [AssistantMessage(calls[k]), ToolMessage(calls[k], exec(calls[k].name, calls[k].arguments), isClaude)];
      HandleCallsStep(exec, isClaude, calls, k, messages);
      PairsUnfold(Exchange(exec, isClaude), calls, k);
      HandleCallsAppend(exec, isClaude, calls, k + 1, messages + pair);
      AppendAssoc(messages, pair, Records(exec, isClaude, calls, k + 1));
    }
  }

  /**
    One turn of the inner loop: a call that crashes the progress line ends
    it with that exception; any other leaves its two messages, and the loop
    goes on.
  */
  lemma HandleCallsStep(exec: (Json, Json) -> Py<string>, isClaude: bool, calls: seq<ToolCall>, k: nat, messages: seq<Json>)
    requires k < |calls|
    ensures CrashesProgressLine(calls[k]) ==> HandleCalls(exec, isClaude, calls, k, messages) == Err(ProgressLineError(calls[k]))
    ensures !CrashesProgressLine(calls[k]) ==>
              HandleCalls(exec, isClaude, calls, k, messages) ==
              HandleCalls(exec, isClaude, calls, k + 1, messages + [AssistantMessage(calls[k]), ToolMessage(calls[k], exec(calls[k].name, calls[k].arguments), isClaude)])
  {
  }

  /** The inner loop of `main` (lines 172-234): every requested call is run and recorded, in order. */
  method RunCalls(exec: (Json, Json) -> Py<string>, isClaude: bool, calls: seq<ToolCall>, history: seq<Json>) returns (r: Py<seq<Json>>)
    ensures r == HandleCalls(exec, isClaude, calls, 0, history)
    ensures r == Handler(exec, isClaude)(calls, history)
  {
    HandlerRuns(exec, isClaude, calls, history);
    var messages := history;
    var k := 0;
    while k < |calls|
      invariant 0 <= k <= |calls|
      invariant HandleCalls(exec, isClaude, calls, 0, history) == HandleCalls(exec, isClaude, calls, k, messages)
    {
      HandleCallsStep(exec, isClaude, calls, k, messages);
      var call := calls[k];
      if CrashesProgressLine(call) {
        return Err(ProgressLineError(call));
      }
      var result := exec(call.name, call.arguments);
      messages := messages + [AssistantMessage(call), ToolMessage(call, result, isClaude)];
      k := k + 1;
    }
    return Ok(messages);
  }

  // ---------------------------------------------------------------- the inner loop, corrected

  /**
    The inner loop as evidently intended: the progress line reads the query
    or URL only from a dict, so every call reaches the `try` and is recorded
    with its answer, an error answer included.
  */
  function GuardedHandleCalls(exec: (Json, Json) -> Py<string>, isClaude: bool, calls: seq<ToolCall>, k: nat, messages: seq<Json>): (r: seq<Json>)
    requires k <= |calls|
    ensures r == messages + Records(exec, isClaude, calls, k)
    decreases |calls| - k
  {
    if k == |calls| then
      assert messages + [] == messages;
      messages
    else
      var pair := [AssistantMessage(calls[k]), ToolMessage(calls[k], exec(calls[k].name, calls[k].arguments), isClaude)];
      PairsUnfold(Exchange(exec, isClaude), calls, k);
      AppendAssoc(messages, pair, Records(exec, isClaude, calls, k + 1));
      GuardedHandleCalls(exec, isClaude, calls, k + 1, messages + pair)
  }

  /** The corrected inner loop as a handler of the rounds: it never raises. */
  function GuardedHandler(exec: (Json, Json) -> Py<string>, isClaude: bool): (seq<ToolCall>, seq<Json>) -> Py<seq<Json>>
  {
    (calls: seq<ToolCall>, messages: seq<Json>) => Ok(GuardedHandleCalls(exec, isClaude, calls, 0, messages))
  }

  /**
    Under the corrected loop every call leaves its two messages, in order:
    the record of the call, then the tool message answering it.
  */
  lemma GuardedRecordsEveryCall(exec: (Json, Json) -> Py<string>, isClaude: bool, calls: seq<ToolCall>, messages: seq<Json>, j: nat)
    requires j < |calls|
    ensures var r := GuardedHandleCalls(exec, isClaude, calls, 0, messages);
            && |r| == |messages| + 2 * |calls| && r[..|messages|] == messages
            && r[|messages| + 2 * j] == AssistantMessage(calls[j])
            && r[|messages| + 2 * j + 1] == ToolMessage(calls[j], exec(calls[j].name, calls[j].arguments), isClaude)
  {
    RecordsAt(exec, isClaude, calls, 0, j);
    var r := GuardedHandleCalls(exec, isClaude, calls, 0, messages);
    assert r[|messages| + 2 * j] == Records(exec, isClaude, calls, 0)[2 * j];
    assert r[|messages| + 2 * j + 1] == Records(exec, isClaude, calls, 0)[2 * j + 1];
  }

  /** The corrected loop adds its two messages per call behind the history. */
  lemma GuardedHandlerGrows(exec: (Json, Json) -> Py<string>, isClaude: bool)
    ensures GrowsByPairs(GuardedHandler(exec, isClaude))
  {
    forall calls: seq<ToolCall>, history: seq<Json>
      ensures var next := GuardedHandler(exec, isClaude)(calls, history).value;
              |history| <= |next| && next[..|history|] == history && (|next| - |history|) % 2 == 0
    {
      var next := GuardedHandleCalls(exec, isClaude, calls, 0, history);
      assert next[..|history|] == history;
    }
  }

  /**
    The progress line as written: a `search_web` call whose arguments arrived
    as an undecoded JSON string ends the inner loop with an AttributeError
    before the call is recorded, while the corrected loop records the call
    and its answer.
  */
  lemma ProgressLineCrash(exec: (Json, Json) -> Py<string>, isClaude: bool, messages: seq<Json>)
    ensures var calls := [ToolCall(JStr("call_0"), JStr("search_web"), JStr("{\"query\": \"asyncio\"}"))];
            && HandleCalls(exec, isClaude, calls, 0, messages) == Err(ProgressLineError(calls[0]))
            && TypeName(calls[0].arguments) == "str"
            && |GuardedHandleCalls(exec, isClaude, calls, 0, messages)| == |messages| + 2
  {
    var calls := [ToolCall(JStr("call_0"), JStr("search_web"), JStr("{\"query\": \"asyncio\"}"))];
    assert CrashesProgressLine(calls[0]);
    assert HandleCall(exec, isClaude, calls[0], messages) == Err(ProgressLineError(calls[0]));
  }

  // ---------------------------------------------------------------- the rounds

  /**
    How `main` ends: its exit code, the history at that point, how many times
    the model was asked, and the last reply.
  */
  datatype Outcome = Outcome(code: int, messages: seq<Json>, chats: nat, last: AdapterResult)

  /** The inner loop as a whole, as a function of the requested calls and the history. */
  function Handler(exec: (Json, Json) -> Py<string>, isClaude: bool): (seq<ToolCall>, seq<Json>) -> Py<seq<Json>>
  {
    (calls: seq<ToolCall>, messages: seq<Json>) => HandleCalls(exec, isClaude, calls, 0, messages)
  }

  /** Handing a round's calls to `Handler` runs the inner loop over them from the first. */
  lemma HandlerRuns(exec: (Json, Json) -> Py<string>, isClaude: bool, calls: seq<ToolCall>, messages: seq<Json>)
    ensures Handler(exec, isClaude)(calls, messages) == HandleCalls(exec, isClaude, calls, 0, messages)
  {
  }

  /**
    The agent loop from round `iteration` on: ask the model; an error reply
    ends with 1, a reply without tool calls with 0; otherwise `handle` runs
    the calls into the history and, unless this was the tenth round, the next
    round starts. After ten rounds of tool calls the agent gives up with 1.
    The only exception is the one `handle` raises.
  */
  function Rounds(chat: (seq<Json>, seq<Json>) -> AdapterResult, tools: seq<Json>, handle: (seq<ToolCall>, seq<Json>) -> Py<seq<Json>>,
                  messages: seq<Json>, iteration: Iteration): (r: Py<Outcome>)
    ensures r.Ok? ==> iteration <= r.value.chats <= MaxIterations && (r.value.code == 0 || r.value.code == 1)
    decreases MaxIterations - iteration
  {
    var response := chat(messages, tools);
    if response.finishReason == JStr("error") then Ok(Outcome(1, messages, iteration, response))
    else if response.toolCalls == [] then Ok(Outcome(0, messages, iteration, response))
    else
      var next :- handle(response.toolCalls, messages);
      if iteration == MaxIterations then Ok(Outcome(1, next, iteration, response))
      else Rounds(chat, tools, handle, next, iteration + 1)
  }

  /** The loop raises only what the handler raised for some round's calls and history. */
  lemma {:induction false} RoundsRaiseHandlerErrors(chat: (seq<Json>, seq<Json>) -> AdapterResult, tools: seq<Json>,
                                                    handle: (seq<ToolCall>, seq<Json>) -> Py<seq<Json>>, messages: seq<Json>, iteration: Iteration)
    ensures var r := Rounds(chat, tools, handle, messages, iteration);
            r.Err? ==> exists calls: seq<ToolCall>, history: seq<Json> :: handle(calls, history) == Err(r.error)
    decreases MaxIterations - iteration
  {
    var response := chat(messages, tools);
    if response.finishReason != JStr("error") && response.toolCalls != [] {
      var handled := handle(response.toolCalls, messages);
      if handled.Ok? && iteration < MaxIterations {
        RoundsRaiseHandlerErrors(chat, tools, handle, handled.value, iteration + 1);
      }
    }
  }

  /** A handler that, when it goes through, keeps the history and adds messages to it in pairs. */
  ghost predicate GrowsByPairs(handle: (seq<ToolCall>, seq<Json>) -> Py<seq<Json>>)
  {
    forall calls: seq<ToolCall>, history: seq<Json> {:trigger handle(calls, history)} :: handle(calls, history).Ok? ==>
      var next := handle(calls, history).value;
      |history| <= |next| && next[..|history|] == history && (|next| - |history|) % 2 == 0
  }

  /** The inner loop adds its two messages per call behind the history. */
  lemma HandlerGrows(exec: (Json, Json) -> Py<string>, isClaude: bool)
    ensures GrowsByPairs(Handler(exec, isClaude))
  {
    forall calls: seq<ToolCall>, history: seq<Json> | Handler(exec, isClaude)(calls, history).Ok?
      ensures var next := Handler(exec, isClaude)(calls, history).value;
              |history| <= |next| && next[..|history|] == history && (|next| - |history|) % 2 == 0
    {
      HandlerRuns(exec, isClaude, calls, history);
    }
  }

  /**
    With a handler that adds messages in pairs (the inner loop, as written or
    corrected), the history only grows, two messages at a time, and what was
    there stays.
  */
  lemma {:induction false} RoundsGrow(chat: (seq<Json>, seq<Json>) -> AdapterResult, tools: seq<Json>,
                                      handle: (seq<ToolCall>, seq<Json>) -> Py<seq<Json>>, messages: seq<Json>, iteration: Iteration)
    requires GrowsByPairs(handle)
    requires Rounds(chat, tools, handle, messages, iteration).Ok?
    ensures PairsAfter(messages, Rounds(chat, tools, handle, messages, iteration).value.messages)
    decreases MaxIterations - iteration
  {
    var response := chat(messages, tools);
    if response.finishReason != JStr("error") && response.toolCalls != [] {
      RoundsAfterCalls(chat, tools, handle, messages, iteration);
      var next := handle(response.toolCalls, messages).value;
      assert PairsAfter(messages, next);
      if iteration < MaxIterations {
        RoundsGrow(chat, tools, handle, next, iteration + 1);
        PairsAfterChain(messages, next, Rounds(chat, tools, handle, next, iteration + 1).value.messages);
      }
    }
  }

  /** `after` keeps `before` as its prefix and adds an even number of messages. */
  predicate PairsAfter(before: seq<Json>, after: seq<Json>)
  {
    |before| <= |after| && after[..|before|] == before && (|after| - |before|) % 2 == 0
  }

  /** Growing by pairs twice is growing by pairs. */
  lemma PairsAfterChain(a: seq<Json>, b: seq<Json>, c: seq<Json>)
    requires PairsAfter(a, b) && PairsAfter(b, c)
    ensures PairsAfter(a, c)
  {
    assert c[..|a|] == c[..|b|][..|a|];
    assert (|c| - |a|) == (|c| - |b|) + (|b| - |a|);
  }

  /** With the corrected inner loop the rounds never raise: `main` always ends with an exit code. */
  lemma GuardedRoundsReturn(chat: (seq<Json>, seq<Json>) -> AdapterResult, tools: seq<Json>, exec: (Json, Json) -> Py<string>,
                            isClaude: bool, messages: seq<Json>, iteration: Iteration)
    ensures Rounds(chat, tools, GuardedHandler(exec, isClaude), messages, iteration).Ok?
  {
    RoundsRaiseHandlerErrors(chat, tools, GuardedHandler(exec, isClaude), messages, iteration);
  }

  /**
    Why the agent stopped: 0 exactly when the model's last reply is neither
    an error nor a tool request, and then that reply answers the whole
    history; an error reply also answers the whole history; otherwise the ten
    rounds ran out on a reply that still asked for tools.
  */
  lemma {:induction false} RoundsExit(chat: (seq<Json>, seq<Json>) -> AdapterResult, tools: seq<Json>, handle: (seq<ToolCall>, seq<Json>) -> Py<seq<Json>>,
                                      messages: seq<Json>, iteration: Iteration)
    requires Rounds(chat, tools, handle, messages, iteration).Ok?
    ensures var out := Rounds(chat, tools, handle, messages, iteration).value;
            && (out.code == 0 <==> out.last.finishReason != JStr("error") && out.last.toolCalls == [])
            && (out.code == 0 || out.last.finishReason == JStr("error") ==> out.last == chat(out.messages, tools))
            && (out.code != 0 && out.last.finishReason != JStr("error") ==> out.chats == MaxIterations && out.last.toolCalls != [])
    decreases MaxIterations - iteration
  {
    var response := chat(messages, tools);
    if response.finishReason != JStr("error") && response.toolCalls != [] && iteration < MaxIterations {
      RoundsExit(chat, tools, handle, handle(response.toolCalls, messages).value, iteration + 1);
    }
  }

  /**
    When the first reply asks for tools and the reply to the grown history is
    an error, the session ends in the second round with 1.
  */
  lemma SecondRoundError(chat: (seq<Json>, seq<Json>) -> AdapterResult, tools: seq<Json>, handle: (seq<ToolCall>, seq<Json>) -> Py<seq<Json>>,
                         messages: seq<Json>)
    requires chat(messages, tools).finishReason != JStr("error") && chat(messages, tools).toolCalls != []
    requires handle(chat(messages, tools).toolCalls, messages).Ok?
    requires chat(handle(chat(messages, tools).toolCalls, messages).value, tools).finishReason == JStr("error")
    ensures var next := handle(chat(messages, tools).toolCalls, messages).value;
            Rounds(chat, tools, handle, messages, 1) == Ok(Outcome(1, next, 2, chat(next, tools)))
  {
  }

  /** One round that asks for tools: the handler's error ends the loop, otherwise the next round starts from its history. */
  lemma RoundsAfterCalls(chat: (seq<Json>, seq<Json>) -> AdapterResult, tools: seq<Json>, handle: (seq<ToolCall>, seq<Json>) -> Py<seq<Json>>,
                         messages: seq<Json>, iteration: Iteration)
    requires chat(messages, tools).finishReason != JStr("error") && chat(messages, tools).toolCalls != []
    ensures var handled := handle(chat(messages, tools).toolCalls, messages);
            Rounds(chat, tools, handle, messages, iteration) ==
              if handled.Err? then Err(handled.error)
              else if iteration == MaxIterations then Ok(Outcome(1, handled.value, iteration, chat(messages, tools)))
              else Rounds(chat, tools, handle, handled.value, iteration + 1)
  {
  }

  /**
    One round of the loop of `main` (lines 150-234): ask the model, stop on
    an error reply, on a reply without tool calls or after the tenth round,
    and otherwise run the calls into the history for the next round.
  */
  method RunRound(chat: (seq<Json>, seq<Json>) -> AdapterResult, tools: seq<Json>, exec: (Json, Json) -> Py<string>,
                  isClaude: bool, messages: seq<Json>, iteration: Iteration) returns (r: Option<Py<Outcome>>, next: seq<Json>)
    ensures r.Some? ==> r.value == Rounds(chat, tools, Handler(exec, isClaude), messages, iteration)
    ensures r.None? ==> iteration < MaxIterations &&
                        Rounds(chat, tools, Handler(exec, isClaude), messages, iteration) ==
                        Rounds(chat, tools, Handler(exec, isClaude), next, iteration + 1)
  {
    next := messages;
    var response := chat(messages, tools);
    if response.finishReason == JStr("error") {
      return Some(Ok(Outcome(1, messages, iteration, response))), next;
    }
    if response.toolCalls == [] {
      return Some(Ok(Outcome(0, messages, iteration, response))), next;
    }
    RoundsAfterCalls(chat, tools, Handler(exec, isClaude), messages, iteration);
    var handled := RunCalls(exec, isClaude, response.toolCalls, messages);
    if handled.Err? {
      return Some(Err(handled.error)), next;
    }
    next := handled.value;
    if iteration == MaxIterations {
      return Some(Ok(Outcome(1, next, iteration, response))), next;
    }
    r := None;
  }

  /**
    The loop of `main` (lines 149-277). `tools` is what the registry's
    `to_<provider>_format` renders; the registry does not change during the
    loop, so rendering it anew every round gives this same list.
  */
  method RunRounds(chat: (seq<Json>, seq<Json>) -> AdapterResult, tools: seq<Json>, exec: (Json, Json) -> Py<string>,
                   isClaude: bool, initial: seq<Json>) returns (r: Py<Outcome>)
    ensures r == Rounds(chat, tools, Handler(exec, isClaude), initial, 1)
  {
    var messages := initial;
    var iteration: Iteration := 1;
    while true
      invariant Rounds(chat, tools, Handler(exec, isClaude), initial, 1) == Rounds(chat, tools, Handler(exec, isClaude), messages, iteration)
      decreases MaxIterations - iteration
    {
      var outcome, next := RunRound(chat, tools, exec, isClaude, messages, iteration);
      if outcome.Some? {
        return outcome.value;
      }
      messages, iteration := next, iteration + 1;
    }
  }
}
