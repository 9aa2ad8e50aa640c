/**
  The autonomous web agent example: `get_provider_client`, and the loop of
  `main` in which the model is shown the history and the two web tools, asks
  for tool calls, and reads their results back, until it answers, reports an
  error, or ten rounds have passed. The model's replies come from a `chat`
  function (the chosen client's `chat_with_tools`); printing is left out.
*/
module Agent {
  import opened Wrappers
  import opened JsonValues
  import opened ToolBase
  import opened Registry
  import opened Adapter
  import opened WebAccess
  import opened WebTools
  import opened AgentRounds
  import OpenAI
  import Ollama
  import Gemini

  // ---------------------------------------------------------------- the client

  /** The clients `get_provider_client` can build. The Claude client is not part of this model. */
  datatype ProviderClient =
    | OllamaProvider(ollama: Ollama.OllamaClient)
    | OpenAIProvider(openai: OpenAI.OpenAIClient)
    | ClaudeProvider

  /**
    What construction depends on: `OPENAI_API_KEY`, the configured Ollama
    URL, and the outcome of constructing the Claude client.
  */
  datatype Environment = Environment(openaiKey: Option<string>, ollamaBaseUrl: string, claudeInit: Result<(), string>)

  const OpenAIBaseUrl: string := "https://api.openai.com/v1"

  /** `modulle/providers/lm_studio/client.py` annotates with `Any` without importing it, so importing it raises. */
  const LMStudioImportError: string := "name 'Any' is not defined"

  /** `GeminiClient()` is called without its required `api_key`. */
  const GeminiInitError: string := "GeminiClient.__init__() missing 1 required positional argument: 'api_key'"

  /** The values of `PROVIDER`: the five names `get_provider_client` knows, and any other string. */
  datatype ProviderName = OllamaName | OpenAIName | ClaudeName | GeminiName | LMStudioName | OtherName(name: string)

  /** The string a provider name stands for. */
  function NameOf(p: ProviderName): string
  {
    match p
    case OllamaName => "ollama"
    case OpenAIName => "openai"
    case ClaudeName => "claude"
    case GeminiName => "gemini"
    case LMStudioName => "lm_studio"
    case OtherName(name) => name
  }

  /** Reading `PROVIDER`: a known name, or any other string as it is. */
  function ProviderOf(provider: string): (r: ProviderName)
    ensures NameOf(r) == provider
    ensures r.OtherName? <==> provider !in ["ollama", "openai", "claude", "gemini", "lm_studio"]
  {
    if provider == "ollama" then OllamaName
    else if provider == "openai" then OpenAIName
    else if provider == "claude" then ClaudeName
    else if provider == "gemini" then GeminiName
    else if provider == "lm_studio" then LMStudioName
    else OtherName(provider)
  }

  /**
    `get_provider_client(provider, model)`: the client and the name of the
    registry method that renders tools for it; an unknown provider is a
    ValueError.
  */
  function GetProviderClient(provider: ProviderName, env: Environment): (r: Py<(ProviderClient, ToolFormat)>)
    ensures provider.OllamaName? ==> r == Ok((OllamaProvider(Ollama.NewOllamaClient(env.ollamaBaseUrl)), OllamaFormat))
    ensures provider.OpenAIName? ==> (r.Ok? <==> env.openaiKey.Some? && env.openaiKey.value != "")
    ensures provider.OpenAIName? && r.Ok? ==>
              r.value.1 == OpenAIFormat && r.value.0.OpenAIProvider? && r.value.0.openai.apiKey == env.openaiKey.value
    ensures provider.ClaudeName? ==> (r.Ok? <==> env.claudeInit.Ok?) && (r.Ok? ==> r.value == (ClaudeProvider, ClaudeFormat))
    ensures provider.GeminiName? ==> r == Err(GeminiInitError)
    ensures provider.LMStudioName? ==> r == Err(LMStudioImportError)
    ensures provider.OtherName? ==> r == Err("Unknown provider: " + provider.name)
  {
    match provider
    case OllamaName => Ok((OllamaProvider(Ollama.NewOllamaClient(env.ollamaBaseUrl)), OllamaFormat))
    case OpenAIName =>
      var client :- OpenAI.NewOpenAIClient(None, env.openaiKey, OpenAIBaseUrl);
      Ok((OpenAIProvider(client), OpenAIFormat))
    case ClaudeName =>
      var _ :- env.claudeInit;
      Ok((ClaudeProvider, ClaudeFormat))
    case GeminiName => Err(GeminiInitError)
    case LMStudioName => Err(LMStudioImportError)
    case OtherName(name) => Err("Unknown provider: " + name)
  }

  /** Only Ollama, OpenAI and Claude can start; each gets the tool format its adapter reads. */
  lemma StartingProviders(provider: ProviderName, env: Environment)
    requires GetProviderClient(provider, env).Ok?
    ensures var (client, fmt) := GetProviderClient(provider, env).value;
            (provider.OllamaName? && client.OllamaProvider? && fmt == OllamaFormat) ||
            (provider.OpenAIName? && client.OpenAIProvider? && fmt == OpenAIFormat) ||
            (provider.ClaudeName? && client.ClaudeProvider? && fmt == ClaudeFormat)
  {
  }

  /** `MODELS`: the model chosen for each provider name. */
  const Models: map<string, string> :=
    map["ollama" := "PickMeAsDefault", "openai" := "gpt-4o-mini", "claude" := "claude-3-5-sonnet-20241022",
        "gemini" := "gemini-1.5-flash", "lm_studio" := "local-model"]

  /** `MODELS.get(PROVIDER, 'PickMeAsDefault')`: the provider's entry, or the default for a name without one. */
  function ModelFor(provider: ProviderName): (r: string)
    ensures !provider.OtherName? ==> NameOf(provider) in Models && r == Models[NameOf(provider)]
    ensures provider.OtherName? && provider.name !in Models ==> r == "PickMeAsDefault"
  {
    match provider
    case OpenAIName => "gpt-4o-mini"
    case ClaudeName => "claude-3-5-sonnet-20241022"
    case GeminiName => "gemini-1.5-flash"
    case LMStudioName => "local-model"
    case _ => "PickMeAsDefault"
  }

  /**
    `client.chat_with_tools(model=MODEL, messages=messages, tools=tools_formatted,
    temperature=0.7)` as a function of the history and the rendered tools.
    The temperature is a parameter since the value model has no floats; the
    Claude adapter is a parameter since it is not part of this model.
  */
  function ChatFor(client: ProviderClient, model: string, temperature: Json, post: Json -> Reply,
                   loads: string -> Option<Json>, claudeChat: (seq<Json>, seq<Json>) -> AdapterResult): (r: (seq<Json>, seq<Json>) -> AdapterResult)
    ensures client.ClaudeProvider? ==> r == claudeChat
    ensures !client.ClaudeProvider? ==>
              forall messages: seq<Json>, tools: seq<Json> :: r(messages, tools) != ErrorRecord ==> r(messages, tools).message.JObj?
  {
    match client
    case OllamaProvider(_) => (messages, tools) => Ollama.ChatWithTools(model, messages, tools, temperature, post)
    case OpenAIProvider(_) => (messages, tools) => OpenAI.ChatWithTools(model, messages, tools, temperature, post, loads)
    case ClaudeProvider => claudeChat
  }

  // ---------------------------------------------------------------- the registry call

  /**
    `registry.execute(tool_name, **tool_args)`: the arguments must be a dict
    whose keys do not clash with `execute`'s own parameters, the name must be
    hashable and registered; then the registry runs the tool, turning what the
    tool raises into text.
  */
  function CallTool(table: map<string, Tool>, name: Json, args: Json): (r: Py<string>)
    ensures !args.JObj? ==> r.Err?
    ensures args.JObj? && "self" !in KeysOf(args.fields) && "tool_name" !in KeysOf(args.fields) && name.JStr? ==>
              (r.Ok? <==> name.s in table) && (r.Ok? ==> r.value == RunCaught(name.s, table[name.s], args))
    ensures !name.JStr? ==> r.Err?
  {
    if !args.JObj? then Err(NotAMapping(args))
    else if "self" in KeysOf(args.fields) then Err("ToolRegistry.execute() got multiple values for argument 'self'")
    else if "tool_name" in KeysOf(args.fields) then Err("ToolRegistry.execute() got multiple values for argument 'tool_name'")
    else
      match name
      case JStr(s) => if s in table then Ok(RunCaught(s, table[s], args)) else Err("Tool not found: " + s)
      case JArr(_) => Err("unhashable type: 'list'")
      case JObj(_) => Err("unhashable type: 'dict'")
      case _ => Err("Tool not found: " + Str(name))
  }

  /** For a string name and plain keyword arguments, the call is the registry's own `execute`. */
  lemma CallToolIsExecute(registry: ToolRegistry, name: string, args: Json)
    requires args.JObj? && "self" !in KeysOf(args.fields) && "tool_name" !in KeysOf(args.fields)
    ensures CallTool(registry.table, JStr(name), args) == registry.Execute(name, args)
  {
  }

  /** The executor the loop uses, over a snapshot of the registered tools. */
  function Executor(table: map<string, Tool>): (Json, Json) -> Py<string>
  {
    (name, args) => CallTool(table, name, args)
  }

  // ---------------------------------------------------------------- Gemini and the recorded calls

  /**
    The agent's own history entry for a call has no top-level `name`, so the
    Gemini adapter cannot translate a history holding one and answers with
    the error record without sending anything.
  */
  lemma GeminiRejectsRecordedCall(call: ToolCall, messages: seq<Json>, i: nat, tools: seq<Json>, temperature: Json, post: Json -> Reply)
    requires i < |messages| && messages[i] == AssistantMessage(call)
    ensures Gemini.ChatWithTools(messages, tools, temperature, post) == ErrorRecord
  {
    AssistantMessageShape(call);
    Gemini.NestedCallRejected(AssistantMessage(call), [CallEntry(call)], 0);
    Gemini.ChatErrorRule(messages, tools, temperature, post);
  }

  /**
    With the Gemini adapter, a first reply that asks for tools ends the
    session in the second round with the error exit, whatever the backend
    would have said.
  */
  lemma GeminiStopsAfterFirstCalls(tools: seq<Json>, exec: (Json, Json) -> Py<string>, isClaude: bool, messages: seq<Json>,
                                   temperature: Json, post: Json -> Reply)
    requires var first := Gemini.ChatWithTools(messages, tools, temperature, post);
             first.finishReason != JStr("error") && first.toolCalls != [] &&
             HandleCalls(exec, isClaude, first.toolCalls, 0, messages).Ok?
    ensures var chat := (m, t) => Gemini.ChatWithTools(m, t, temperature, post);
            var next := HandleCalls(exec, isClaude, Gemini.ChatWithTools(messages, tools, temperature, post).toolCalls, 0, messages).value;
            Rounds(chat, tools, Handler(exec, isClaude), messages, 1) == Ok(Outcome(1, next, 2, ErrorRecord))
  {
    var chat := (m, t) => Gemini.ChatWithTools(m, t, temperature, post);
    var calls := Gemini.ChatWithTools(messages, tools, temperature, post).toolCalls;
    HandleCallsAppend(exec, isClaude, calls, 0, messages);
    var next := HandleCalls(exec, isClaude, calls, 0, messages).value;
    RecordsAt(exec, isClaude, calls, 0, 0);
    assert next[|messages|] == AssistantMessage(calls[0]);
    GeminiRejectsRecordedCall(calls[0], next, |messages|, tools, temperature, post);
    HandlerRuns(exec, isClaude, calls, messages);
    SecondRoundError(chat, tools, Handler(exec, isClaude), messages);
  }

  /**
    The loop of `main` over the registry it built: the tools it renders and
    its `execute`.
  */
  method AgentLoop(registry: ToolRegistry, fmt: ToolFormat, isClaude: bool,
                   chat: (seq<Json>, seq<Json>) -> AdapterResult, initial: seq<Json>) returns (r: Py<Outcome>)
    requires registry.Valid()
    ensures r == Rounds(chat, registry.Render(fmt), Handler(Executor(registry.table), isClaude), initial, 1)
  {
    r := RunRounds(chat, registry.Render(fmt), Executor(registry.table), isClaude, initial);
  }

  // ---------------------------------------------------------------- the session

  /** The system prompt and the user question `main` starts from. */
  const InitialMessages: seq<Json> := [
    JObj([("role", JStr("system")), ("content", JStr(
      "You are an AI research assistant with access to web search and page fetching tools. "
      + "When asked a question, use these tools to gather current information from the web. "
      + "Search for relevant information, fetch pages to read them, and synthesize what you learn. "
      + "Once you have enough information, provide a comprehensive answer with citations. "
      + "Be thorough but efficient - don't fetch more pages than needed."))]),
    JObj([("role", JStr("user")), ("content", JStr(
      "What are the key differences between Python's asyncio and threading? "
      + "Search for recent articles and provide a detailed comparison."))])
  ]

  /** The tools `main` registers: the search tool, then the fetch tool. */
  function AgentTools(search: Tool, fetch: Tool): map<string, Tool>
  {
    map[search.name := search, fetch.name := fetch]
  }

  /** `registry = ToolRegistry(); registry.register(search); registry.register(fetch)` */
  method BuildRegistry(search: Tool, fetch: Tool) returns (registry: ToolRegistry)
    requires search.name != fetch.name
    ensures fresh(registry) && registry.Valid()
    ensures registry.ListTools() == [search.name, fetch.name] && registry.Size() == 2
    ensures registry.table == AgentTools(search, fetch)
  {
    registry := new ToolRegistry();
    registry.Register(search);
    registry.Register(fetch);
  }

  /** Both tools, rendered in registration order. */
  lemma AgentToolsRendered(registry: ToolRegistry, search: Tool, fetch: Tool, fmt: ToolFormat)
    requires search.name != fetch.name
    requires registry.Valid() && registry.ListTools() == [search.name, fetch.name] && registry.table == AgentTools(search, fetch)
    ensures registry.Render(fmt) == [Schema(fmt, search), Schema(fmt, fetch)]
  {
  }

  /**
    `main()` once `web = WebAccessor()` exists and its tools are registered:
    `tools` is what the registry holds and `render` its
    `to_<provider>_format`. A client that cannot be built ends with 1 before
    anything else; otherwise the agent loop runs from the initial messages.
  */
  function Session(provider: ProviderName, env: Environment, tools: map<string, Tool>, render: ToolFormat -> seq<Json>,
                   temperature: Json, post: Json -> Reply, loads: string -> Option<Json>,
                   claudeChat: (seq<Json>, seq<Json>) -> AdapterResult, initial: seq<Json>): (r: Py<int>)
    ensures GetProviderClient(provider, env).Err? ==> r == Ok(1)
    ensures r.Ok? ==> r.value == 0 || r.value == 1
  {
    match GetProviderClient(provider, env)
    case Err(_) => Ok(1)
    case Ok((client, fmt)) =>
      var out :- Rounds(ChatFor(client, ModelFor(provider), temperature, post, loads, claudeChat),
                        render(fmt), Handler(Executor(tools), provider.ClaudeName?), initial, 1);
      Ok(out.code)
  }

  /** How the registry of `main` renders its two tools, in registration order. */
  function Renderer(search: Tool, fetch: Tool): ToolFormat -> seq<Json>
  {
    fmt => [Schema(fmt, search), Schema(fmt, fetch)]
  }

  /** `main()` once the client is chosen: the registry with the two tools, then the loop. */
  method RunSession(provider: ProviderName, env: Environment, search: Tool, fetch: Tool, temperature: Json, post: Json -> Reply,
                    loads: string -> Option<Json>, claudeChat: (seq<Json>, seq<Json>) -> AdapterResult, initial: seq<Json>) returns (r: Py<int>)
    requires search.name != fetch.name
    ensures r == Session(provider, env, AgentTools(search, fetch), Renderer(search, fetch), temperature, post, loads, claudeChat, initial)
  {
    var started := GetProviderClient(provider, env);
    if started.Err? {
      return Ok(1);
    }
    var (client, fmt) := started.value;
    var registry := BuildRegistry(search, fetch);
    AgentToolsRendered(registry, search, fetch, fmt);
    assert Renderer(search, fetch)(fmt) == registry.Render(fmt);
    var chat := ChatFor(client, ModelFor(provider), temperature, post, loads, claudeChat);
    var out := AgentLoop(registry, fmt, provider.ClaudeName?, chat, initial);
    if out.Err? {
      return Err(out.error);
    }
    return Ok(out.value.code);
  }

  /** `main()` over the web accessor: its search and fetch tools, and the initial messages. */
  method RunAgent(provider: ProviderName, env: Environment, w: WebAccessor, temperature: Json, post: Json -> Reply,
                  loads: string -> Option<Json>, claudeChat: (seq<Json>, seq<Json>) -> AdapterResult) returns (r: Py<int>)
    ensures r == Session(provider, env, AgentTools(SearchWebTool(w), FetchPageTool(w)), Renderer(SearchWebTool(w), FetchPageTool(w)),
                         temperature, post, loads, claudeChat, InitialMessages)
  {
    var search := SearchWebTool(w);
    var fetch := FetchPageTool(w);
    ToolNamesDiffer(w);
    r := RunSession(provider, env, search, fetch, temperature, post, loads, claudeChat, InitialMessages);
  }

  /**
    Gemini, LM Studio and unknown providers end with 1 at once; any session
    that returns ends with 0 or 1.
  */
  lemma SessionExit(provider: ProviderName, env: Environment, tools: map<string, Tool>, render: ToolFormat -> seq<Json>,
                    temperature: Json, post: Json -> Reply, loads: string -> Option<Json>,
                    claudeChat: (seq<Json>, seq<Json>) -> AdapterResult, initial: seq<Json>)
    ensures !(provider.OllamaName? || provider.OpenAIName? || provider.ClaudeName?) ==> Session(provider, env, tools, render, temperature, post, loads, claudeChat, initial) == Ok(1)
    ensures var r := Session(provider, env, tools, render, temperature, post, loads, claudeChat, initial);
            r.Ok? ==> r.value == 0 || r.value == 1
  {
    match GetProviderClient(provider, env)
    case Err(_) =>
    case Ok((client, fmt)) =>
      StartingProviders(provider, env);
      var chat := ChatFor(client, ModelFor(provider), temperature, post, loads, claudeChat);
      var rounds := Rounds(chat, render(fmt), Handler(Executor(tools), provider.ClaudeName?), initial, 1);
      if rounds.Ok? {
      }
  }

  // ---------------------------------------------------------------- the progress line, corrected

  /**
    `main()` with the progress line corrected to read the query or URL only
    from a dict: it always ends with an exit code, 0 or 1.
  */
  function IntendedSession(provider: ProviderName, env: Environment, tools: map<string, Tool>, render: ToolFormat -> seq<Json>,
                           temperature: Json, post: Json -> Reply, loads: string -> Option<Json>,
                           claudeChat: (seq<Json>, seq<Json>) -> AdapterResult, initial: seq<Json>): (r: int)
    ensures GetProviderClient(provider, env).Err? ==> r == 1
    ensures r == 0 || r == 1
  {
    match GetProviderClient(provider, env)
    case Err(_) => 1
    case Ok((client, fmt)) =>
      var chat := ChatFor(client, ModelFor(provider), temperature, post, loads, claudeChat);
      GuardedRoundsReturn(chat, render(fmt), Executor(tools), provider.ClaudeName?, initial, 1);
      Rounds(chat, render(fmt), GuardedHandler(Executor(tools), provider.ClaudeName?), initial, 1).value.code
  }

  /** The TypeError `registry.execute(name, **args)` raises when `args` is not a dict. */
  function NotAMapping(args: Json): string
  {
    "ToolRegistry.execute() argument after ** must be a mapping, not " + TypeName(args)
  }

  /**
    Under the corrected loop, a call whose arguments are not a dict is still
    recorded, and the tool message answering it carries the registry's
    TypeError as `Error: …`.
  */
  lemma NonDictArgumentsAnswered(table: map<string, Tool>, isClaude: bool, calls: seq<ToolCall>, messages: seq<Json>, j: nat)
    requires j < |calls| && !calls[j].arguments.JObj?
    ensures var r := GuardedHandleCalls(Executor(table), isClaude, calls, 0, messages);
            && r[|messages| + 2 * j] == AssistantMessage(calls[j])
            && GetItem(r[|messages| + 2 * j + 1], "content") == Ok(JStr("Error: " + NotAMapping(calls[j].arguments)))
  {
    var exec := Executor(table);
    GuardedRecordsEveryCall(exec, isClaude, calls, messages, j);
    NonDictArgumentsRaise(table, calls[j]);
    ToolMessageFields(calls[j], exec(calls[j].name, calls[j].arguments), isClaude);
  }

  /** The executor raises the TypeError for arguments that are not a dict, whatever the name. */
  lemma NonDictArgumentsRaise(table: map<string, Tool>, call: ToolCall)
    requires !call.arguments.JObj?
    ensures Executor(table)(call.name, call.arguments) == Err(NotAMapping(call.arguments))
  {
  }
}
