# ModuLLe tool calling, modelled in Dafny

ModuLLe is a Python library that hides several LLM back ends behind one
client interface. It has a small tool system that lets a model call
functions. This project models the tool-calling core of the library:

- **Tool definitions** (`modulle/tools/base.py`). A tool is a name, a description
  and a JSON-schema `parameters` dict. `to_openai_format`, `to_ollama_format`,
  `to_claude_format` and `to_gemini_format` render it for each provider.
- **The tool registry** (`modulle/tools/registry.py`). A class whose
  dictionary of tools is updated in place by `register` and `unregister`.
  `execute` runs a tool by name and raises for an unknown one.
  `to_openai_format` and its siblings render every tool in registration order.
- **Four provider adapters**: `chat_with_tools` of the OpenAI, LM Studio,
  Ollama and Gemini clients. Each one:
  - builds the request payload;
  - turns the HTTP reply into the common response record
    `{content, tool_calls, finish_reason}`;
  - catches every failure into the error record. For the OpenAI and LM Studio
    clients the constructor, `health_check` and (for LM Studio) `list_models`
    are modelled too. The Gemini client's `health_check` and `list_models` are modelled as well.
  - Gemini also translates OpenAI-style messages into `contents`, with a
    `systemInstruction` and its own roles.
- **The web tools** (`modulle/web/tools.py`, `modulle/web/accessor.py`):
  - `search_web` clamps `max_results` to 1..10 and formats the results;
  - `fetch_page` truncates long content to 8000 characters with a note;
  - `WebAccessor` fetches a page or an article, and searches and fetches in order.
- **The autonomous agent** (`examples/autonomous_web_agent.py`):
  - `get_provider_client` chooses a client and a tool format;
  - `main` registers the two web tools;
  - the round loop, up to 10 rounds, records each tool call and its result
    in the message history and ends with an exit code.

## Conventions of the model

- A Python call that can raise is a `Py<T>`, which is `Result<T, string>`.
  `Err(s)` carries `str(e)` of the raised exception. Where the library
  catches an exception and reports `f"...{e}"`, the model builds the same
  text from that string.
- JSON values and Python dicts are the `Json` datatype, with dicts kept as
  ordered key/value lists. `d[k]`, `d.get(k, default)`, `k in d`, `len`,
  indexing and iteration are the `JsonValues` functions. Each one says when
  it raises, for example indexing a non-list or a missing key.
- The network is a parameter:
  - HTTP is `post: Json -> Reply`, where `Reply` is a status code and a body,
    or a transport error;
  - `json.loads` is a `loads` function parameter;
  - the web fetcher, searcher and Markdown converter are the function fields
    of `WebAccess.WebAccessor`.
- Updates in place keep their imperative form:
  - `ToolRegistry` is a Dafny class with a `map` of tools and a `seq` of names
    in registration order. `Register` and `Unregister` modify it.
  - Loops in the source are `while` loops with invariants, proved equal to a
    function that states the result:
    - parsing tool calls (`ParseOpenAIToolCalls`, `ParseOllamaToolCalls`);
    - formatting search results;
    - `search_and_fetch`;
    - Gemini message translation and parts reading;
    - the agent's inner loop over tool calls (`RunCalls`) and its rounds (`RunRounds`).
- The agent's round loop is the function `AgentRounds.Rounds`:
  - it is stated over any chat function and any handler of a round's tool calls;
  - the handler the agent uses is `AgentRounds.Handler`, which runs the inner loop;
  - the iteration number has the type `1..10`, the range of
    `for iteration in range(1, MAX_ITERATIONS + 1)`.

## Behaviour kept as written

The model follows the code where it is surprising. The proofs make these
outcomes explicit:

- **LM Studio cannot be chosen.** `modulle/providers/lm_studio/client.py`
  uses `Any` in annotations (lines 190-193) but imports only `Dict, List,
  Optional` (line 8). On Python 3.13 and earlier, without the deferred
  annotations of PEP 649, importing the module raises `NameError`, so
  `get_provider_client('lm_studio', ...)` fails. `Agent.GetProviderClient`
  returns that error, and `Agent.SessionExit` shows the agent then exits with 1.
  The adapter itself is modelled as written.
- **Gemini cannot be chosen by the agent.** `get_provider_client` calls
  `GeminiClient()` without the required `api_key`, which raises `TypeError`.
- **Gemini rejects recorded tool calls.** The agent records each tool call in
  the history as `{"id", "type", "function": {...}}`, the shape OpenAI
  returns. The Gemini adapter reads `tool_call['name']` at the top level
  (`gemini/client.py:276-281`). A history holding a recorded call therefore
  raises `KeyError`, and the adapter returns its error record.
  `Agent.GeminiRejectsRecordedCall` proves this for any such history.
  `Agent.GeminiStopsAfterFirstCalls` proves the consequence for the loop:
  given a working Gemini client, a session whose first round asks for tools
  ends in round 2 with exit code 1.
- **The registry's docstrings disagree with its code.**
  - `register` says it raises for a duplicate name (`registry.py:36-37`), but it
    replaces the tool and keeps its place (`Registry.ToolRegistry.Register`).
  - `execute` documents that a failing tool raises (`registry.py:92-94`),
    but it catches the failure and returns `Error executing <name>: <e>`
    as its result (`Registry.ToolRegistry.Execute`).
- **The adapters differ on tool-call ids and finish reasons.**
  - OpenAI and LM Studio keep the ids the server sends, or leave them empty.
  - Ollama gives an entry without an id `call_<i>`, where `i` is its position in the reply.
  - Gemini sends no ids, so every call gets `call_<i>`, where `i` counts the calls before it.
  - Ollama reports `finish_reason` `tool_calls` or `stop` from whether calls
    came back. OpenAI passes on the server's reason.
- **A null `content` from Ollama gives the error record.** `.strip()` is
  applied to `None`, and the resulting `AttributeError` is caught
  (`Ollama.NullContent`).
- **A search or fetch call whose arguments are not a dict ends the agent.**
  The progress line calls `tool_args.get` before the `try` (lines 176-180),
  so such a call raises out of `main`. The model makes this an `Err` of the
  round loop (`AgentRounds.HandleCall`). For any other tool name the
  `**tool_args` inside the `try` raises, and the error reaches the model as
  a tool result. The Findings table below records this, together with the
  corrected loop `AgentRounds.GuardedHandleCalls`.

## Model

| member | source | states |
|---|---|---|
| ToolBase.OpenAISchemaFields | modulle/tools/base.py:95-109 | the OpenAI rendering has exactly the keys `type` = `function` and `function`, the latter holding the Gemini rendering's fields |
| ToolBase.ClaudeSchemaFields | modulle/tools/base.py:111-122 | the Claude rendering has `name`, `description` and `input_schema` with the tool's values, and no `parameters` key |
| ToolBase.GeminiSchemaFields | modulle/tools/base.py:124-135 | the Gemini rendering has exactly three keys: `name`, `description` and `parameters`, with the tool's values |
| ToolBase.OllamaIsOpenAI | modulle/tools/base.py:79-109 | the Ollama rendering is the OpenAI rendering for every tool |
| ToolBase.ClaudeIsRenamedGemini | modulle/tools/base.py:111-135 | Claude and Gemini differ only in the name of the schema key |
| ToolBase.SchemaRoundTrip | modulle/tools/base.py:79-135 | reading any of the four renderings back gives the tool's name, description and parameters |
| Registry.InsertNameSpec | modulle/tools/registry.py:39-42 | registering appends a new name at the end and leaves an existing name where it is |
| Registry.RemoveNameSpec | modulle/tools/registry.py:55-57 | unregistering drops the name and keeps the order of the others |
| Registry.RemoveNameAt | modulle/tools/registry.py:57 | removing the k-th name leaves the names before and after it in order |
| Registry.RenderAll | modulle/tools/registry.py:109-143 | one schema per registered name |
| Registry.DistinctCard | modulle/tools/registry.py:145-147 | a list of distinct names is as long as the set of its names, so `len` counts tools |
| Registry.ToolRegistry.constructor | modulle/tools/registry.py:25-27 | a new registry is empty and valid |
| Registry.ToolRegistry.Register | modulle/tools/registry.py:29-43 | the tool is stored under its name; a duplicate replaces the old tool in place; other tools are unchanged |
| Registry.ToolRegistry.Unregister | modulle/tools/registry.py:45-58 | a registered name is removed and the others keep their order; an unknown name raises `KeyError` and nothing changes |
| Registry.ToolRegistry.GetTool | modulle/tools/registry.py:60-70 | the registered tool, or None exactly when the name is unknown |
| Registry.ToolRegistry.ListTools | modulle/tools/registry.py:72-79 | the names, distinct and in registration order, are exactly the table's keys |
| Registry.ToolRegistry.Size | modulle/tools/registry.py:145-147 | `len(registry)` is the number of registered tools |
| Registry.ToolRegistry.Has | modulle/tools/registry.py:149-151 | `name in registry` holds iff `get_tool` finds the name, iff `list_tools` lists it |
| Registry.ToolRegistry.Execute | modulle/tools/registry.py:81-107 | an unknown name raises `Tool not found: <name>`; a known one gives the tool's result, or `Error executing <name>: <e>` when the tool raises |
| Registry.ToolRegistry.Render | modulle/tools/registry.py:109-143 | one schema per registered tool, in order, in the requested format |
| Registry.ReRegister | modulle/tools/registry.py:29-43 | registering a second tool under the same name leaves one listed name, one tool, and serves the second tool |
| JsonValues.Contains | modulle/providers/openai/client.py:300 | `k in d` on a dict is key membership; it raises `TypeError` for anything but a string, list or dict |
| JsonValues.GetItem | modulle/providers/openai/client.py:309-310 | `d[k]` is the value under the key, `KeyError` for a missing key, `TypeError` for a non-dict |
| JsonValues.Get | modulle/providers/openai/client.py:311-312 | `d.get(k, default)` is the stored value or the default; only a non-dict raises |
| JsonValues.Len | modulle/providers/openai/client.py:300 | `len` of a string, list or dict, and a `TypeError` otherwise |
| JsonValues.First | modulle/providers/openai/client.py:309 | `x[0]` of a non-empty list is its first item; it succeeds only on a non-empty list or string |
| JsonValues.Iter | modulle/providers/openai/client.py:318 | iteration succeeds exactly on a string, list or dict, and a list yields its items |
| JsonValues.Take | modulle/web/accessor.py:136 | a slice `xs[:n]` is a prefix: the first `n` items, all of them when `n` is larger, and Python's reading of a negative `n` |
| JsonValues.RStripSlash | modulle/providers/openai/client.py:47 | `rstrip('/')` keeps a prefix, ends without a slash and drops only slashes |
| JsonValues.StripSpec | modulle/providers/ollama/client.py:247 | `strip()` removes leading and trailing whitespace and keeps the middle |
| JsonValues.StripUnicodeSpaces | modulle/providers/ollama/client.py:247 | `strip()` also removes Unicode whitespace such as a no-break space and an ideographic space, and keeps a zero-width space |
| Adapter.Caught | modulle/providers/openai/client.py:345-368 | the `except` branch: a failure becomes the error record, a success is returned as it is |
| Adapter.ContentOrNone | modulle/providers/openai/client.py:339 | `content or None` keeps a truthy content and gives None otherwise |
| Adapter.NestedToolNames | modulle/providers/openai/client.py:268 | the debug line succeeds iff every tool has a dict `function` holding `name`, and then gives one name per tool, the k-th being tool k's `function.name` |
| Adapter.NestedName | modulle/providers/openai/client.py:268 | `t['function']['name']` succeeds iff `t` is a dict whose `function` is a dict holding `name` |
| Adapter.OpenAICalls | modulle/providers/openai/client.py:315-334 | parsing the calls keeps the calls already parsed and adds one per entry |
| Adapter.ParseOpenAIToolCalls | modulle/providers/openai/client.py:315-334 | the parsing loop computes `OpenAICalls` |
| Adapter.OpenAICallsOk | modulle/providers/openai/client.py:318-334 | parsing succeeds iff every entry parses on its own |
| Adapter.OpenAICallsFromStart | modulle/providers/openai/client.py:318-334 | the k-th parsed call comes from the k-th entry |
| Adapter.OpenAICallFields | modulle/providers/openai/client.py:318-334 | a dict entry with a dict or missing `function` parses; it keeps the sent id or gets an empty one; the name is `function.name` (default empty) and the arguments are `function.arguments` (default `{}`) decoded; a missing `function` gives an empty name and `{}` arguments |
| Adapter.DecodeArgumentsCases | modulle/providers/openai/client.py:322-328 | string arguments are JSON-decoded, falling back to `{}` when they do not decode; any other value is kept as it is |
| Adapter.MessageResult | modulle/providers/openai/client.py:311-343 | a parsed message was a dict and is kept, `finish_reason` is read with default `stop`, and the content is truthy or None |
| Adapter.MessageResultSpec | modulle/providers/openai/client.py:311-343 | when the calls parse and the content is a string or falsy, the record has content-or-None, the parsed calls and the finish reason |
| OpenAI.NewOpenAIClient | modulle/providers/openai/client.py:25-53 | construction fails iff neither the argument nor the environment gives a key; the argument wins; the header is `Bearer <key>`; the base URL loses trailing slashes |
| OpenAI.HealthCheck | modulle/providers/openai/client.py:55-83 | unhealthy on a transport error or 401, healthy on 429, otherwise healthy iff the status does not raise |
| OpenAI.Payload | modulle/providers/openai/client.py:259-265 | the body has exactly the keys `model`, `messages`, `tools`, `temperature`, `max_tokens`, in that order, and `model` is the given model |
| OpenAI.PayloadMessages | modulle/providers/openai/client.py:259-265 | the payload carries the messages unchanged |
| OpenAI.PayloadTools | modulle/providers/openai/client.py:259-265 | the payload carries the tools unchanged |
| OpenAI.PayloadMaxTokens | modulle/providers/openai/client.py:259-265 | `max_tokens` is 2000 |
| OpenAI.PayloadPassThrough | modulle/providers/openai/client.py:259-265 | the messages, the tools and the token limit together, as one request |
| OpenAI.ParseChoice | modulle/providers/openai/client.py:309-310 | a choice that is not a dict, or has no `message`, raises |
| OpenAI.ReplyErrors | modulle/providers/openai/client.py:277-296 | a transport error, a raising status or an unreadable body gives the error record; 401 and 429 return it directly |
| OpenAI.NoChoices | modulle/providers/openai/client.py:300-307 | a body without `choices`, or with an empty list, returns the error record |
| OpenAI.ChatErrorRule | modulle/providers/openai/client.py:224-368 | a tool without a nested name, a transport error, any 4xx/5xx status or a non-JSON body gives the error record; so does a dict body with no or empty `choices`, or whose first choice is not a dict holding `message`; a first choice holding `message` gives that message's parse, failures caught |
| OpenAI.ParseData | modulle/providers/openai/client.py:298-343 | a body that is not a dict, list or string raises; a result other than the error record comes from a dict body and keeps a dict message |
| OpenAI.FirstChoice | modulle/providers/openai/client.py:300-310 | a dict body whose `choices` is a non-empty list is parsed from its first choice |
| OpenAI.Respond | modulle/providers/openai/client.py:277-343 | a transport error raises; a result other than the error record needs a status outside 400-599 and a JSON dict body |
| OpenAI.ChatWithTools | modulle/providers/openai/client.py:224-368 | a result other than the error record means every tool had a nested name, the reply arrived with a status outside 400-599, and the message is a dict |
| OpenAI.FirstChoiceParsed | modulle/providers/openai/client.py:309-343 | with a dict `message` in the first choice, the record is that message's parse |
| LMStudio.NewLMStudioClient | modulle/providers/lm_studio/client.py:24-32 | the base URL loses trailing slashes and the API URL adds `/v1` |
| LMStudio.HealthCheck | modulle/providers/lm_studio/client.py:34-48 | healthy iff a reply arrives with a status outside 400-599 |
| LMStudio.ModelIds | modulle/providers/lm_studio/client.py:63 | one `id` per listed model, in order; reading fails iff some model has no `id` |
| LMStudio.ListModels | modulle/providers/lm_studio/client.py:50-69 | a transport error, a raising status or an unreadable body gives the empty list |
| LMStudio.ListModelsIds | modulle/providers/lm_studio/client.py:57-65 | a well-formed listing gives exactly the models' ids, in order |
| LMStudio.Payload | modulle/providers/lm_studio/client.py:222-228 | the body has exactly the keys `model`, `messages`, `tools`, `temperature`, `stream`, in that order, and `model` is the given model |
| LMStudio.PayloadMessages | modulle/providers/lm_studio/client.py:222-228 | the payload carries the messages unchanged |
| LMStudio.PayloadTools | modulle/providers/lm_studio/client.py:222-228 | the payload carries the tools unchanged |
| LMStudio.PayloadStream | modulle/providers/lm_studio/client.py:222-228 | streaming is off |
| LMStudio.PayloadPassThrough | modulle/providers/lm_studio/client.py:222-228 | the messages, the tools and the stream flag together, as one request |
| LMStudio.ReplyErrors | modulle/providers/lm_studio/client.py:238-240 | a transport error, a raising status or an unreadable body gives the error record |
| LMStudio.NoChoices | modulle/providers/lm_studio/client.py:242-250 | a body without `choices`, or with a falsy one, returns the error record |
| LMStudio.MissingMessage | modulle/providers/lm_studio/client.py:252-255 | a first choice without `message` parses as an empty message: None content, no calls |
| LMStudio.FirstChoiceParsed | modulle/providers/lm_studio/client.py:252-286 | with a dict `message`, the first choice is parsed as the OpenAI client parses it |
| LMStudio.ParseData | modulle/providers/lm_studio/client.py:240-286 | a body that is not a dict raises; a result other than the error record comes from a dict body and keeps a dict message |
| LMStudio.Respond | modulle/providers/lm_studio/client.py:233-286 | a transport error or a 4xx/5xx status raises; any result needs a JSON dict body |
| LMStudio.ChatWithTools | modulle/providers/lm_studio/client.py:187-303 | a result other than the error record means every tool had a nested name, the reply arrived with a status outside 400-599, and the message is a dict |
| Ollama.NewOllamaClient | modulle/providers/ollama/client.py:18-26 | the base URL loses trailing slashes and the API URL adds `/api` |
| Ollama.Payload | modulle/providers/ollama/client.py:211-219 | the body has exactly the keys `model`, `messages`, `tools`, `stream`, `options`, in that order, and `model` is the given model |
| Ollama.PayloadMessages | modulle/providers/ollama/client.py:211-219 | the payload carries the messages unchanged |
| Ollama.PayloadTools | modulle/providers/ollama/client.py:211-219 | the payload carries the tools |
| Ollama.PayloadOptions | modulle/providers/ollama/client.py:211-219 | the temperature goes under `options` |
| Ollama.PayloadPassThrough | modulle/providers/ollama/client.py:211-219 | the messages, the tools and the options together, as one request |
| Ollama.OllamaCalls | modulle/providers/ollama/client.py:251-260 | parsing the calls keeps the calls already parsed and adds one per entry |
| Ollama.ParseOllamaToolCalls | modulle/providers/ollama/client.py:251-260 | the parsing loop computes `OllamaCalls` |
| Ollama.OllamaCallsOk | modulle/providers/ollama/client.py:254-260 | parsing succeeds iff every entry parses on its own at its position |
| Ollama.OllamaCallsFromStart | modulle/providers/ollama/client.py:254-260 | the k-th parsed call comes from the k-th entry |
| Ollama.OllamaCallFields | modulle/providers/ollama/client.py:255-260 | a dict entry with a dict or missing `function` parses; it keeps a sent id or gets the id for its position; its name is `function.name` (default empty) and its arguments `function.arguments` as they are (default `{}`) |
| Ollama.SynthesizedIds | modulle/providers/ollama/client.py:257 | an entry without an id gets `call_<k>` from its position k |
| Ollama.StrippedContent | modulle/providers/ollama/client.py:246-247 | reading the content succeeds iff the message is a dict whose `content` (default `''`) is a string, and then gives that string stripped of whitespace at both ends |
| Ollama.ParseData | modulle/providers/ollama/client.py:245-272 | `finish_reason` is `tool_calls` iff calls came back and `stop` iff none; the content is None or non-empty; a body that is not a dict raises; the message is a dict |
| Ollama.Respond | modulle/providers/ollama/client.py:224-272 | a transport error raises; a status that is not ok gives the error record; any other result comes from a JSON dict body |
| Ollama.ChatWithTools | modulle/providers/ollama/client.py:175-289 | a result other than the error record means every tool had a nested name and the reply was ok; its finish reason is `tool_calls` iff it has calls |
| Ollama.ReplyErrors | modulle/providers/ollama/client.py:231-245 | a transport error, a status that is not ok, or an unreadable body gives the error record |
| Ollama.NullContent | modulle/providers/ollama/client.py:247 | a null content raises at `.strip()`, which gives the error record |
| Ollama.WellFormedMessage | modulle/providers/ollama/client.py:245-272 | a string content and parsable calls give the stripped content or None, the calls, and the finish reason from whether calls came back |
| Gemini.NewGeminiClient | modulle/providers/gemini/client.py:24-36 | construction fails with the missing-key message iff the key is missing or empty; otherwise it keeps the key and strips trailing slashes from the base URL |
| Gemini.RemoveAll | modulle/providers/gemini/client.py:70 | `replace(pat, '')` never lengthens a string and leaves a string without the pattern unchanged |
| Gemini.ModelPrefixRemoved | modulle/providers/gemini/client.py:70 | `models/x`, with no other `models/` in x, becomes `x` |
| Gemini.ModelNames | modulle/providers/gemini/client.py:70 | one name per listed model |
| Gemini.ListModels | modulle/providers/gemini/client.py:55-77 | a transport error, a raising status or an unreadable body gives the empty list |
| Gemini.ModelNamesStripped | modulle/providers/gemini/client.py:69-70 | a listing of `models/<name>` entries reads back as exactly those names |
| Gemini.HealthCheck | modulle/providers/gemini/client.py:38-53 | healthy iff the model listing is non-empty, which needs a reply with a non-raising status |
| Gemini.HealthyIffModels | modulle/providers/gemini/client.py:38-77 | over a well-formed listing, `list_models` gives the names and the check passes iff there is at least one |
| Gemini.FunctionCallOf | modulle/providers/gemini/client.py:275-281 | a call becomes a `functionCall` part from its top-level `name` and `arguments`, and fails iff either is missing |
| Gemini.TranslateOne | modulle/providers/gemini/client.py:253-292 | a message that is not a dict fails to translate |
| Gemini.TranslateMessage | modulle/providers/gemini/client.py:253-292 | the body of the translation loop computes `TranslateOne` |
| Gemini.TranslateMessages | modulle/providers/gemini/client.py:250-292 | the translation loop computes `TranslateAll` from no contents and no system text |
| Gemini.TranslateAll | modulle/providers/gemini/client.py:250-292 | the loop keeps the contents it started with and adds at most one entry per message; a first message that fails ends it with that error |
| Gemini.EntriesOfAll | modulle/providers/gemini/client.py:253-292 | when every message gives an entry, the contents are exactly those entries, in order |
| Gemini.LastSystemNone | modulle/providers/gemini/client.py:251 | without system messages the initial system text is kept |
| Gemini.LastSystemWins | modulle/providers/gemini/client.py:257-258 | of the translated items, the last one that sets an instruction decides the instruction in force |
| Gemini.LastSystemPresent | modulle/providers/gemini/client.py:251-258 | when every instruction set is truthy, the instruction in force is truthy iff the starting one was or some item set one |
| Gemini.SystemTextIffSystem | modulle/providers/gemini/client.py:254-258 | a message sets the instruction exactly when it is a dict whose role is `system` |
| Gemini.HistorySystemInstruction | modulle/providers/gemini/client.py:251-292 | over a whole history, the instruction left by the loop is `{"parts": [{"text": content}]}` for the content of the last `system` message |
| Gemini.HistoryHasInstruction | modulle/providers/gemini/client.py:251-292 | over a whole history, the loop leaves a truthy instruction iff some message has role `system`, whatever that message's content |
| Gemini.TranslateAllSpec | modulle/providers/gemini/client.py:250-292 | translation fails iff some message fails; otherwise the contents are the entries in order and the instruction is the last system text |
| Gemini.RoleMapping | modulle/providers/gemini/client.py:254-292 | `system` gives the instruction `{"parts": [{"text": content}]}`; `tool` gives the function response with the message's name and content under role `function`; an `assistant` message without truthy `tool_calls` gives a `model` entry whose parts are the one text part; every other role gives that entry under `user` |
| Gemini.SystemRole | modulle/providers/gemini/client.py:257-258 | a `system` message becomes the instruction `{"parts": [{"text": content}]}`, content defaulting to `''` |
| Gemini.ToolRole | modulle/providers/gemini/client.py:259-271 | a `tool` message always translates, to the function response built from its `name` and `content` (both default empty), under role `function` |
| Gemini.FunctionResponseReadBack | modulle/providers/gemini/client.py:259-271 | a function response reads back as role `function`, one part, whose `functionResponse` has the tool's name and, under `response.result`, its output |
| Gemini.AssistantRole | modulle/providers/gemini/client.py:272-292 | an `assistant` message that translates becomes a `model` entry; without truthy `tool_calls` its parts are `[{"text": content}]` |
| Gemini.UserRole | modulle/providers/gemini/client.py:286-292 | any other role always translates, to the entry of role `user` whose parts are `[{"text": content}]` |
| Gemini.AssistantEntry | modulle/providers/gemini/client.py:272-285 | an assistant message with calls becomes a `model` entry of the call parts, or fails with the first call's error |
| Gemini.AssistantCalls | modulle/providers/gemini/client.py:272-285 | when every call has a top-level name and arguments, the k-th part is built from the k-th call |
| Gemini.NestedCallRejected | modulle/providers/gemini/client.py:275-281 | one call without a top-level `name`, as the OpenAI shape has, makes the message fail to translate |
| Gemini.DeclarationOf | modulle/providers/gemini/client.py:297-301 | a declaration is built iff the tool is a dict with `name`, `description` and `parameters`, and it has exactly those three keys with the tool's values |
| Gemini.BuildDeclarations | modulle/providers/gemini/client.py:295-301 | the declarations loop computes one declaration per tool, or the first error |
| Gemini.DeclarationOfSchema | modulle/providers/gemini/client.py:297-301 | a Gemini-rendered tool is its own declaration |
| Gemini.DeclarationsOfGeminiSchemas | modulle/providers/gemini/client.py:295-301 | tools rendered for Gemini always give their declarations, unchanged and in order |
| Gemini.UndeclarableTool | modulle/providers/gemini/client.py:298 | one tool without a top-level `name`, as the OpenAI shape has, makes building the declarations fail |
| Gemini.PayloadContents | modulle/providers/gemini/client.py:303-304 | the payload carries the translated contents |
| Gemini.PayloadTools | modulle/providers/gemini/client.py:305-307 | the declarations go under `tools[0].functionDeclarations` |
| Gemini.PayloadGenerationConfig | modulle/providers/gemini/client.py:308-311 | the temperature and `maxOutputTokens` 4096 go under `generationConfig` |
| Gemini.PayloadSystemInstruction | modulle/providers/gemini/client.py:314-315 | `systemInstruction` is present iff the instruction is truthy, and then it is that instruction; the instruction a history leaves is a non-empty dict, so the key is present iff the history held any `system` message (`Gemini.HistoryHasInstruction`) |
| Gemini.Payload | modulle/providers/gemini/client.py:303-315 | the body has `contents`, `tools`, `generationConfig`, then `systemInstruction` last exactly when the instruction is truthy |
| Gemini.CandidateParts | modulle/providers/gemini/client.py:326-333 | no or empty `candidates` gives no parts; parts come only from a dict body holding `candidates`; a well-shaped body gives its first candidate's `content.parts` |
| Gemini.ReadPart | modulle/providers/gemini/client.py:332-342 | a well-formed part is read; a text part adds its text, a `functionCall` part adds one call numbered by the calls so far |
| Gemini.ParseParts | modulle/providers/gemini/client.py:332-342 | the parts loop computes `ReadParts` from no text and no calls |
| Gemini.ReadPartsText | modulle/providers/gemini/client.py:333-334 | the content is the concatenated text of the parts |
| Gemini.ReadPartsCalls | modulle/providers/gemini/client.py:335-342 | the calls are those of the `functionCall` parts in order, numbered by position |
| Gemini.ReadPartsOk | modulle/providers/gemini/client.py:332-342 | well-formed parts are always read |
| Gemini.ParseResponse | modulle/providers/gemini/client.py:323-353 | `finish_reason` is `tool_calls` iff calls came back and `stop` iff none; the content is None or non-empty; the message is the body |
| Gemini.NoCandidates | modulle/providers/gemini/client.py:326-353 | a body without candidates gives no content, no calls and `stop` |
| Gemini.FirstCandidateParsed | modulle/providers/gemini/client.py:329-353 | the first candidate's parts give the joined text (or None) and the calls numbered `call_0`, `call_1`, … |
| Gemini.ReplyErrors | modulle/providers/gemini/client.py:320-372 | a transport error, a raising status or an unreadable body gives the error record |
| Gemini.Respond | modulle/providers/gemini/client.py:320-353 | a transport error or a 4xx/5xx status raises; a result keeps the JSON body it was read from as its message |
| Gemini.ChatWithTools | modulle/providers/gemini/client.py:211-372 | a result other than the error record means the history translated and the tools were declared; its finish reason is `tool_calls` iff it has calls |
| Gemini.ChatErrorRule | modulle/providers/gemini/client.py:245-372 | a message that fails to translate or a tool that fails to declare gives the error record; otherwise the reply to the payload, with failures caught |
| WebAccess.FetchPage | modulle/web/accessor.py:42-71 | None for a falsy page; otherwise the whole page for `full`, its `html`, its Markdown conversion, or its `text` for any other format |
| WebAccess.UnknownFormatIsText | modulle/web/accessor.py:69-71 | an unknown format fetches exactly what `text` fetches |
| WebAccess.FetchPageShaped | modulle/web/accessor.py:57-66 | for a page with string `text` and `html` the fetch never raises, and it gives None only for a missing page |
| WebAccess.FetchArticle | modulle/web/accessor.py:73-94 | None for a falsy article; the Markdown of the page's HTML when Markdown is asked for and the page exists; otherwise the article text |
| WebAccess.MarkdownArticle | modulle/web/accessor.py:88-92 | for an existing article and page, `markdown` gives the conversion of the page's HTML |
| WebAccess.Truncate | modulle/web/accessor.py:140-141 | a string is cut to a prefix of at most the limit, exactly the limit when longer; anything within the limit is kept |
| WebAccess.FetchOne | modulle/web/accessor.py:137-147 | a result gives its entry (URL, title, truncated content) when its page is found, and nothing when it is falsy |
| WebAccess.SearchAndFetch | modulle/web/accessor.py:133-136 | at most `num_pages` entries, never more than the search returned |
| WebAccess.SearchAndFetchLoop | modulle/web/accessor.py:112-149 | the fetch loop computes `SearchAndFetch` |
| WebAccess.SearchAndFetchOrder | modulle/web/accessor.py:135-149 | the entries are those of the kept results, in increasing order, and every skipped result had no page |
| WebAccess.FetchedEntry | modulle/web/accessor.py:137-147 | an entry has its result's URL and title and the truncated page content |
| WebAccess.SearchAndFetchEntries | modulle/web/accessor.py:136-147 | the j-th entry comes from the j-th kept result: its URL, title and truncated page |
| WebAccess.EntryFields | modulle/web/accessor.py:143-147 | an entry dict has exactly the given `url`, `title` and `content` |
| ResultFormat.BlockText | modulle/web/tools.py:85-87 | a result's block starts with its number, a dot and its title on one line |
| ResultFormat.ResultBlock | modulle/web/tools.py:85-87 | the block can be built iff the result is a dict with `title`, `url` and `snippet`, and it uses those values |
| ResultFormat.FormatFromOk | modulle/web/tools.py:84-87 | formatting succeeds iff every remaining result gives a block |
| ResultFormat.FormatFromBlocks | modulle/web/tools.py:84-87 | the output is the text so far followed by the remaining blocks in order |
| ResultFormat.AppendBlock | modulle/web/tools.py:85-87 | one step adds exactly the result's block, or fails with its error |
| ResultFormat.FormatResultsLoop | modulle/web/tools.py:83-90 | the formatting loop computes `FormatResults` |
| ResultFormat.FormatResultsBlocks | modulle/web/tools.py:83-90 | formatting succeeds iff every result is a dict with the three keys; the text is the header and one block per result, numbered from 1 |
| WebTools.Unexpected | modulle/web/tools.py:61 | the first keyword that is neither the required nor the optional parameter, if any |
| WebTools.Bind | modulle/web/tools.py:146 | binding `execute`'s keywords succeeds iff the arguments are a dict with the required key and no other key than the two; the optional one defaults |
| WebTools.SearchRequired | modulle/web/tools.py:58 | the search schema requires `query` |
| WebTools.SearchMaxResultsDeclared | modulle/web/tools.py:50-56 | the schema declares the `max_results` property |
| WebTools.MaxResultsDefault | modulle/web/tools.py:53 | the declared default is 5 |
| WebTools.MaxResultsMinimum | modulle/web/tools.py:54 | the declared minimum is 1 |
| WebTools.MaxResultsMaximum | modulle/web/tools.py:55 | the declared maximum is 10 |
| WebTools.ClampResults | modulle/web/tools.py:74 | `min(max(1, n), 10)` lies in 1..10, keeps a number already inside and fails for a value Python cannot compare |
| WebTools.SearchBody | modulle/web/tools.py:72-90 | a bad count raises its clamp error; no results give the no-results text; with results it succeeds iff every result is printable, and then starts with the header naming the query |
| WebTools.SearchExecute | modulle/web/tools.py:72-94 | a body that succeeds gives its text; a failure gives a text starting `Error searching for '<q>': ` |
| WebTools.SearchExecuteCases | modulle/web/tools.py:72-94 | a clamp failure gives `Error searching for '<q>': <e>`; no results give the no-results text; otherwise the formatted list or the formatting error |
| WebTools.SearchRun | modulle/web/tools.py:61-94 | the search tool raises iff its keyword arguments do not bind |
| WebTools.SearchWebTool | modulle/web/tools.py:28-59 | the tool is named `search_web` and declares the search schema |
| WebTools.SearchDefaultCount | modulle/web/tools.py:61 | without `max_results` the search runs with 5 |
| WebTools.FetchSchema | modulle/web/tools.py:127-144 | the fetch schema requires `url` |
| WebTools.TruncationNoteNamesLimit | modulle/web/tools.py:173 | the truncation note names the limit in decimal |
| WebTools.FetchFormat | modulle/web/tools.py:161-162 | the format is `text` or `markdown`, and `markdown` iff it was asked for |
| WebTools.Shorten | modulle/web/tools.py:170-174 | a string over 8000 keeps its first 8000 characters and gains the note; a list over 8000 keeps its first 8000 items and gains the note's characters as items; a dict over 8000 raises; content within the limit is kept; a value without a length raises |
| WebTools.NoteItems | modulle/web/tools.py:174 | `list += str` adds one single-character string per character of the note |
| WebTools.Text | modulle/web/tools.py:177 | a string result is returned as it is |
| WebTools.FetchBody | modulle/web/tools.py:157-177 | a fetch that raises ends with its error; a falsy page gives the could-not-fetch text; a string page comes back whole up to 8000 characters and cut with the note beyond |
| WebTools.FetchExecute | modulle/web/tools.py:157-181 | a body that succeeds gives its text; a failure gives a text starting `Error fetching <url>: ` |
| WebTools.FormatFallback | modulle/web/tools.py:161-162 | any format other than `text` or `markdown` fetches as `text` |
| WebTools.FetchExecuteCases | modulle/web/tools.py:157-181 | a falsy page gives the could-not-fetch text, and a failure gives `Error fetching <url>: <e>` |
| WebTools.FetchExecuteLength | modulle/web/tools.py:169-177 | content within 8000 characters comes back unchanged; longer content is its first 8000 characters and the note |
| WebTools.FetchRun | modulle/web/tools.py:146-181 | the fetch tool raises iff its keyword arguments do not bind |
| WebTools.FetchPageTool | modulle/web/tools.py:114-144 | the tool is named `fetch_page` and declares the fetch schema |
| WebTools.ToolNamesDiffer | modulle/web/tools.py:28-30 | the two web tools have different names, so both stay registered |
| WebTools.SearchNeverRaises | modulle/web/tools.py:72-94 | with `query` and at most `max_results` as keywords, the search tool always returns a string |
| WebTools.FetchNeverRaises | modulle/web/tools.py:157-181 | with `url` and at most `format` as keywords, the fetch tool always returns a string |
| AgentRounds.AssistantMessageShape | examples/autonomous_web_agent.py:188-199 | a recorded call is an assistant message with one tool-call entry, and that entry has no top-level `name` |
| AgentRounds.ToolMessageFields | examples/autonomous_web_agent.py:203-207 | a tool message has role `tool`, the call's name, and the result or `Error: <e>` as content |
| AgentRounds.ToolMessageUseId | examples/autonomous_web_agent.py:209-213 | `tool_use_id` is present iff the provider is Claude and the tool call succeeded, and then it is the call's id |
| AgentRounds.HandleCall | examples/autonomous_web_agent.py:173-234 | one call fails iff it is a search or fetch call whose arguments are not a dict |
| AgentRounds.RecordsAt | examples/autonomous_web_agent.py:188-234 | the added messages come in pairs: the k-th call's assistant message at 2k and its tool message at 2k+1 |
| AgentRounds.HandleCalls | examples/autonomous_web_agent.py:172-234 | a loop that goes through adds two messages per call behind the kept history; one that raises raises the progress-line error of some call |
| AgentRounds.HandleCallsOk | examples/autonomous_web_agent.py:176-180 | the inner loop fails iff some remaining call crashes its progress line |
| AgentRounds.HandleCallsAppend | examples/autonomous_web_agent.py:172-234 | a successful inner loop only appends: the old history followed by the records of the calls |
| AgentRounds.RunCalls | examples/autonomous_web_agent.py:172-234 | the inner loop computes `HandleCalls` from the first call, which is what the agent's handler gives |
| AgentRounds.RunRound | examples/autonomous_web_agent.py:150-234 | one round either ends the loop with the outcome `Rounds` gives, or, before the tenth round, leaves a history from which the next round computes the same outcome |
| AgentRounds.Rounds | examples/autonomous_web_agent.py:149-277 | the loop stops within the ten iterations, with exit code 0 or 1 |
| AgentRounds.RoundsRaiseHandlerErrors | examples/autonomous_web_agent.py:149-277 | the only exception the loop raises is one the handler raised for some round's calls and history |
| AgentRounds.RoundsGrow | examples/autonomous_web_agent.py:188-234 | with a handler that adds messages in pairs, the final history starts with the initial one and adds an even number of messages |
| AgentRounds.HandlerGrows | examples/autonomous_web_agent.py:172-234 | the inner loop as written adds messages in pairs behind the history |
| AgentRounds.GuardedHandleCalls | examples/autonomous_web_agent.py:172-234 | corrected loop: the history followed by the two records of every call, none skipped |
| AgentRounds.GuardedRecordsEveryCall | examples/autonomous_web_agent.py:172-234 | corrected loop: the k-th call's assistant message sits at 2k and its tool message, with the tool's answer or error, at 2k+1 |
| AgentRounds.GuardedHandlerGrows | examples/autonomous_web_agent.py:172-234 | the corrected loop adds messages in pairs behind the history |
| AgentRounds.GuardedRoundsReturn | examples/autonomous_web_agent.py:149-277 | with the corrected loop the rounds never raise |
| AgentRounds.ProgressLineCrash | examples/autonomous_web_agent.py:176-180 | a `search_web` call with string arguments makes the loop as written raise, while the corrected loop records it |
| AgentRounds.RoundsExit | examples/autonomous_web_agent.py:149-277 | exit 0 iff the last reply has no calls and is not an error; a non-error exit 1 means ten rounds that all asked for tools |
| AgentRounds.SecondRoundError | examples/autonomous_web_agent.py:149-172 | when round 1 asks for tools and round 2 replies with the error record, the loop ends in round 2 with 1 and round 1's history |
| AgentRounds.RunRounds | examples/autonomous_web_agent.py:149-277 | the round loop computes `Rounds` from iteration 1 |
| Agent.ProviderOf | examples/autonomous_web_agent.py:81 | reading `PROVIDER` keeps the string, and only the five known names are recognised |
| Agent.GetProviderClient | examples/autonomous_web_agent.py:34-71 | Ollama always starts; OpenAI iff a key is set; Claude iff its constructor succeeds; Gemini and LM Studio always fail; other names raise `Unknown provider: <p>` |
| Agent.StartingProviders | examples/autonomous_web_agent.py:45-58 | a client that starts comes with the tool format its adapter reads |
| Agent.ModelFor | examples/autonomous_web_agent.py:84-92 | each known provider gets its `MODELS` entry; a name without one gets `PickMeAsDefault` |
| Agent.ChatFor | examples/autonomous_web_agent.py:156-161 | Claude uses the given chat; with Ollama or OpenAI a reply other than the error record carries a dict message |
| Agent.CallTool | examples/autonomous_web_agent.py:184 | non-dict arguments or a non-string name raise; otherwise success iff the tool is registered, with the registry's caught result |
| Agent.CallToolIsExecute | examples/autonomous_web_agent.py:184 | for plain keyword arguments the call is the registry's `execute` |
| Agent.GeminiRejectsRecordedCall | examples/autonomous_web_agent.py:188-199 | Gemini returns the error record for any history holding a recorded call |
| Agent.GeminiStopsAfterFirstCalls | examples/autonomous_web_agent.py:149-199 | with Gemini, a first reply that asks for tools ends the loop in round 2 with 1 |
| Agent.AgentLoop | examples/autonomous_web_agent.py:149-161 | the loop runs `Rounds` over the registry's rendered tools and its executor |
| Agent.BuildRegistry | examples/autonomous_web_agent.py:112-114 | the registry lists the search tool, then the fetch tool, and holds exactly those two |
| Agent.AgentToolsRendered | examples/autonomous_web_agent.py:112-114 | the rendered tools are the two schemas, in registration order |
| Agent.RunSession | examples/autonomous_web_agent.py:100-277 | `main` after the configuration computes `Session` |
| Agent.Session | examples/autonomous_web_agent.py:100-277 | a client that cannot be built exits with 1; a session that returns exits with 0 or 1 |
| Agent.RunAgent | examples/autonomous_web_agent.py:109-149 | over the web accessor, `main` registers the search and fetch tools and runs the session |
| Agent.SessionExit | examples/autonomous_web_agent.py:100-277 | Gemini, LM Studio and unknown providers exit with 1 at once; every session that returns exits with 0 or 1 |
| Agent.IntendedSession | examples/autonomous_web_agent.py:100-277 | with the corrected progress line the session always returns, with 1 for a client that cannot be built and 0 or 1 otherwise |
| Agent.NonDictArgumentsRaise | examples/autonomous_web_agent.py:184 | `registry.execute(name, **args)` raises the not-a-mapping TypeError for arguments that are not a dict |
| Agent.NonDictArgumentsAnswered | examples/autonomous_web_agent.py:184-234 | with the corrected loop a call with non-dict arguments is recorded and answered by `Error: ` and that TypeError |

## Left out

- HTTP, timeouts and logging. Each adapter's request is the `post` parameter, and logging has no effect on results.
- The fetcher, searcher and Markdown converter (`modulle/web/fetcher.py`, `search.py`, `converter.py`) are not part of this model. `WebAccess.WebAccessor` takes them as functions.
- WebAccess.SearchWeb: plain delegation to the searcher, so it has no contract of its own.
- `generate`, `chat` and `generate_with_image` of the clients are left out, because the agent uses only `chat_with_tools`. `modulle/config.py` is left out too, because the model passes defaults as parameters.
- The Claude client is not part of this model. The agent receives its constructor outcome and its `chat_with_tools` as parameters.
- OpenAI `list_models`, and Ollama `health_check` and `list_models`, are left out because the agent never calls them.
- Printing, including the partial answer printed when the rounds run out. The exit code 130 on `KeyboardInterrupt` (lines 284-288) is left out too, because there are no signals.
- The tool list is rendered once for the whole loop rather than on every round, because nothing registers or unregisters a tool while the loop runs.
- Python's exception messages are approximated by the `Err` strings of `JsonValues` and `Registry`, which give the exception kind and the key.
- Json has no floats: a number is an `int`, so a temperature such as `0.7` is carried as an opaque parameter and never inspected.
- WebTools.Text: `execute` returns the fetched content unchanged, so a `text` field that is not a string (`modulle/web/accessor.py` line 62 reads `page_data['text']`) would come back as it is, where the model hands back its rendering as text. The real fetcher always fills `text` with the string `soup.get_text(...)` gives (`modulle/web/fetcher.py` lines 53 and 59), so this arises only with a substituted fetcher. The model keeps the tool result a string.
- JsonValues.Str: a list or dict is rendered as `[...]` or `{...}`, not with Python's own rendering (for a list, `['asyncio']`), because Python's `repr` of strings (its choice of quotes and escapes) is not modelled. This affects the texts built from such values: the query in the search texts of `WebTools.SearchBody` and `WebTools.SearchExecute` (`modulle/web/tools.py` lines 80, 83 and 94), the title, url and snippet of `ResultFormat.BlockText` (lines 85-87), and the url in `WebTools.FetchBody` and `WebTools.FetchExecute` (lines 167 and 181). Strings, numbers, booleans and `None` are rendered exactly.
- Duplicate keys in a JSON object: `JsonValues.Lookup` takes the first occurrence, while `json.loads` keeps the last. The parsers given to the adapters are expected to produce objects without duplicate keys.
- Python versions from 3.14 on, where PEP 649 defers annotations and the LM Studio module would import; the model follows 3.13 and earlier.

## Findings

| source | as written | input that shows it | evidently intended | confidence | as-written member | corrected member |
|---|---|---|---|---|---|---|
| examples/autonomous_web_agent.py:176-180 | the progress line calls `tool_args.get('query')` / `tool_args.get('url')` before the `try`, so arguments that are not a dict raise `AttributeError` out of `main` | a `search_web` call whose arguments are the undecoded string `{"query": "asyncio"}`, which the Ollama adapter passes through unchanged | every call is answered inside the `try`: the history gains the assistant record and a tool message with `Error: ...`, and the loop goes on | not executed | AgentRounds.ProgressLineCrash | AgentRounds.GuardedHandleCalls |
