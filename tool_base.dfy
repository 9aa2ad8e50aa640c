/**
  The tool contract (`BaseTool`): a name, a description, a JSON-Schema-shaped
  parameter object and an executable body, plus the four declaration shapes a
  tool renders into for the providers.
*/
module ToolBase {
  import opened Wrappers
  import opened JsonValues

  /** What a tool body does when called with keyword arguments: returns text, or raises with a message. */
  datatype ToolOutcome = Done(text: string) | Raised(message: string)

  /**
    A tool. `run` is the body: it receives the keyword arguments as a dict
    (binding them to the Python parameters is part of the body, so a missing
    or unexpected argument is a `Raised` outcome).
  */
  datatype Tool = Tool(name: string, description: string, parameters: Json, run: Json -> ToolOutcome)

  /** The declaration shapes the registry can render (`to_ollama_format` … `to_gemini_format`). */
  datatype ToolFormat = OllamaFormat | OpenAIFormat | ClaudeFormat | GeminiFormat

  /** `to_gemini_schema`: the flat `{name, description, parameters}` form. */
  function ToGeminiSchema(t: Tool): Json
  {
    JObj([("name", JStr(t.name)), ("description", JStr(t.description)), ("parameters", t.parameters)])
  }

  /** The flat form holds exactly the tool's name, description and parameters. */
  lemma GeminiSchemaFields(t: Tool)
    ensures GetItem(ToGeminiSchema(t), "name") == Ok(JStr(t.name))
    ensures GetItem(ToGeminiSchema(t), "description") == Ok(JStr(t.description))
    ensures GetItem(ToGeminiSchema(t), "parameters") == Ok(t.parameters)
    ensures Len(ToGeminiSchema(t)) == Ok(3)
  {
    var fields := ToGeminiSchema(t).fields;
    assert "description"[0] != "name"[0];
    LookupAt(fields, 1);
    assert "parameters"[0] != "name"[0] && "parameters"[0] != "description"[0];
    LookupAt(fields, 2);
  }

  /** `to_openai_schema`: `{type: "function", function: <the flat form>}`. */
  function ToOpenAISchema(t: Tool): Json
  {
    JObj([("type", JStr("function")),
          ("function", JObj([("name", JStr(t.name)), ("description", JStr(t.description)), ("parameters", t.parameters)]))])
  }

  /** The OpenAI form is a function declaration wrapping the flat form, and nothing else. */
  lemma OpenAISchemaFields(t: Tool)
    ensures GetItem(ToOpenAISchema(t), "type") == Ok(JStr("function"))
    ensures GetItem(ToOpenAISchema(t), "function") == Ok(ToGeminiSchema(t))
    ensures Len(ToOpenAISchema(t)) == Ok(2)
  {
    assert "function"[0] != "type"[0];
    LookupAt(ToOpenAISchema(t).fields, 1);
  }

  /** `to_ollama_schema`: written out separately in the source, with the same body as the OpenAI form. */
  function ToOllamaSchema(t: Tool): Json
  {
    JObj([("type", JStr("function")),
          ("function", JObj([("name", JStr(t.name)), ("description", JStr(t.description)), ("parameters", t.parameters)]))])
  }

  /** `to_claude_schema`: flat `{name, description, input_schema}`. */
  function ToClaudeSchema(t: Tool): Json
  {
    JObj([("name", JStr(t.name)), ("description", JStr(t.description)), ("input_schema", t.parameters)])
  }

  /** The Claude form carries the parameters under `input_schema`, and has no `parameters` key. */
  lemma ClaudeSchemaFields(t: Tool)
    ensures GetItem(ToClaudeSchema(t), "name") == Ok(JStr(t.name))
    ensures GetItem(ToClaudeSchema(t), "description") == Ok(JStr(t.description))
    ensures GetItem(ToClaudeSchema(t), "input_schema") == Ok(t.parameters)
    ensures GetItem(ToClaudeSchema(t), "parameters").Err?
  {
    var fields := ToClaudeSchema(t).fields;
    assert "description"[0] != "name"[0];
    LookupAt(fields, 1);
    assert "input_schema"[0] != "name"[0] && "input_schema"[0] != "description"[0];
    LookupAt(fields, 2);
    assert "parameters"[0] != "name"[0] && "parameters"[0] != "description"[0] && "parameters"[0] != "input_schema"[0];
    assert "parameters" !in KeysOf(fields);
  }

  /** The shape a format selects. */
  function Schema(fmt: ToolFormat, t: Tool): Json
  {
    match fmt
    case OllamaFormat => ToOllamaSchema(t)
    case OpenAIFormat => ToOpenAISchema(t)
    case ClaudeFormat => ToClaudeSchema(t)
    case GeminiFormat => ToGeminiSchema(t)
  }

  /** Renames one key of an object, keeping the key order and every value. */
  function RenameKey(fields: seq<(string, Json)>, from: string, to: string): (r: seq<(string, Json)>)
    ensures |r| == |fields|
    ensures forall i :: 0 <= i < |fields| ==> r[i].1 == fields[i].1
    ensures forall i :: 0 <= i < |fields| ==> r[i].0 == (if fields[i].0 == from then to else fields[i].0)
  {
    if |fields| == 0 then []
    else [(if fields[0].0 == from then to else fields[0].0, fields[0].1)] + RenameKey(fields[1..], from, to)
  }

  /**
    Reads a declaration back into the tool's name, description and parameters,
    following the keys each format uses.
  */
  function Descriptor(fmt: ToolFormat, decl: Json): Py<(Json, Json, Json)>
  {
    var flat :- if fmt.OllamaFormat? || fmt.OpenAIFormat? then GetItem(decl, "function") else Ok(decl);
    var name :- GetItem(flat, "name");
    var description :- GetItem(flat, "description");
    var parameters :- GetItem(flat, if fmt.ClaudeFormat? then "input_schema" else "parameters");
    Ok((name, description, parameters))
  }

  /** The Ollama and OpenAI forms are the same value for every tool. */
  lemma OllamaIsOpenAI(t: Tool)
    ensures ToOllamaSchema(t) == ToOpenAISchema(t)
  {
  }

  /** The Claude form is the Gemini form with `parameters` renamed to `input_schema`. */
  lemma ClaudeIsRenamedGemini(t: Tool)
    ensures ToClaudeSchema(t) == JObj(RenameKey(ToGeminiSchema(t).fields, "parameters", "input_schema"))
  {
    var name := ("name", JStr(t.name));
    var description := ("description", JStr(t.description));
    RenameThree(name, description, ("parameters", t.parameters), "parameters", "input_schema");
  }

  /** Renaming in a three-entry object whose last key is the one renamed. */
  lemma RenameThree(a: (string, Json), b: (string, Json), c: (string, Json), from: string, to: string)
    requires a.0 != from && b.0 != from && c.0 == from
    ensures RenameKey([a, b, c], from, to) == [a, b, (to, c.1)]
  {
    var r := RenameKey([a, b, c], from, to);
    assert r[0] == a && r[1] == b && r[2] == (to, c.1);
  }

  /** Every format carries the tool's name, description and parameters, and they read back unchanged. */
  lemma SchemaRoundTrip(fmt: ToolFormat, t: Tool)
    ensures Descriptor(fmt, Schema(fmt, t)) == Ok((JStr(t.name), JStr(t.description), t.parameters))
  {
    GeminiSchemaFields(t);
    match fmt
    case OllamaFormat => OpenAISchemaFields(t);
    case OpenAIFormat => OpenAISchemaFields(t);
    case ClaudeFormat => ClaudeSchemaFields(t);
    case GeminiFormat =>
  }
}
