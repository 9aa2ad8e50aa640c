/**
  How `SearchWebTool.execute` writes a result list for the model: a header
  naming the query, then a numbered block of three lines per result.
*/
module ResultFormat {
  import opened Wrappers
  import opened JsonValues

  /** A search result carrying the three fields a block prints. */
  predicate Printable(result: Json)
  {
    result.JObj? && "title" in KeysOf(result.fields) && "url" in KeysOf(result.fields) && "snippet" in KeysOf(result.fields)
  }

  /** The three lines written for the `number`-th result. */
  function BlockText(number: nat, title: Json, url: Json, snippet: Json): (r: string)
    ensures IsPrefix(NatToString(number) + ". " + Str(title) + "\n", r)
  {
    var first := NatToString(number) + ". " + Str(title) + "\n";
    var r := first + ("   URL: " + Str(url) + "\n") + ("   Snippet: " + Str(snippet) + "\n\n");
    assert r[..|first|] == first;
    r
  }

  /** The text appended for a numbered result; a result missing a field raises. */
  function ResultBlock(number: nat, result: Json): (r: Py<string>)
    ensures r.Ok? <==> Printable(result)
    ensures r.Ok? ==> r.value == BlockText(number, Lookup(result.fields, "title").value,
                                           Lookup(result.fields, "url").value, Lookup(result.fields, "snippet").value)
  {
    var title :- GetItem(result, "title");
    var url :- GetItem(result, "url");
    var snippet :- GetItem(result, "snippet");
    Ok(BlockText(number, title, url, snippet))
  }

  /** The pieces written one after the other. */
  function Concat(parts: seq<string>): string
  {
    if |parts| == 0 then "" else parts[0] + Concat(parts[1..])
  }

  function SearchHeader(query: Json): string
  {
    "Search results for '" + Str(query) + "':\n\n"
  }

  /**
    The loop from the result at position `k` on: `acc` is what was written
    so far, and `block` writes one numbered result (the tool passes
    `ResultBlock`); the first block that raises ends the loop.
  */
  function FormatFrom(block: (nat, Json) -> Py<string>, results: seq<Json>, k: nat, acc: string): Py<string>
    requires k <= |results|
    decreases |results| - k
  {
    if k == |results| then Ok(acc)
    else
      var text :- block(k + 1, results[k]);
      FormatFrom(block, results, k + 1, acc + text)
  }

  /** The formatted answer for a result list: the header, then one block per result. */
  function FormatResults(query: Json, results: seq<Json>): Py<string>
  {
    FormatFrom(ResultBlock, results, 0, SearchHeader(query))
  }

  /** The blocks of the results from position `k` on, each numbered by its position counting from 1. */
  function BlocksFrom(block: (nat, Json) -> Py<string>, results: seq<Json>, k: nat): (r: seq<string>)
    requires k <= |results|
    requires forall i :: k <= i < |results| ==> block(i + 1, results[i]).Ok?
    ensures |r| == |results| - k
    ensures forall j :: 0 <= j < |r| ==> r[j] == block(k + j + 1, results[k + j]).value
    decreases |results| - k
  {
    if k == |results| then [] else [block(k + 1, results[k]).value] + BlocksFrom(block, results, k + 1)
  }

  /** The loop finishes exactly when no remaining block raises. */
  lemma {:induction false} FormatFromOk(block: (nat, Json) -> Py<string>, results: seq<Json>, k: nat, acc: string)
    requires k <= |results|
    ensures FormatFrom(block, results, k, acc).Ok? <==> forall i :: k <= i < |results| ==> block(i + 1, results[i]).Ok?
    decreases |results| - k
  {
    if k < |results| && block(k + 1, results[k]).Ok? {
      FormatFromOk(block, results, k + 1, acc + block(k + 1, results[k]).value);
    }
  }

  /** A finished loop wrote exactly the blocks of the remaining results after `acc`, in order. */
  lemma {:induction false} FormatFromBlocks(block: (nat, Json) -> Py<string>, results: seq<Json>, k: nat, acc: string)
    requires k <= |results|
    requires forall i :: k <= i < |results| ==> block(i + 1, results[i]).Ok?
    ensures FormatFrom(block, results, k, acc) == Ok(acc + Concat(BlocksFrom(block, results, k)))
    decreases |results| - k
  {
    if k < |results| {
      var text := block(k + 1, results[k]).value;
      FormatFromBlocks(block, results, k + 1, acc + text);
      var rest := BlocksFrom(block, results, k + 1);
      assert BlocksFrom(block, results, k)[1..] == rest;
      assert acc + text + Concat(rest) == acc + (text + Concat(rest));
    } else {
      assert acc + "" == acc;
    }
  }

  /** One turn of the `formatted +=` loop: the three lines for the `number`-th result. */
  method AppendBlock(formatted: string, number: nat, result: Json) returns (r: Py<string>)
    ensures ResultBlock(number, result).Err? ==> r == Err(ResultBlock(number, result).error)
    ensures ResultBlock(number, result).Ok? ==> r == Ok(formatted + ResultBlock(number, result).value)
  {
    var text := formatted;
    var title :- GetItem(result, "title");
    text := text + (NatToString(number) + ". " + Str(title) + "\n");
    var url :- GetItem(result, "url");
    text := text + ("   URL: " + Str(url) + "\n");
    var snippet :- GetItem(result, "snippet");
    text := text + ("   Snippet: " + Str(snippet) + "\n\n");
    assert text == formatted + (NatToString(number) + ". " + Str(title) + "\n" + ("   URL: " + Str(url) + "\n") +
                                ("   Snippet: " + Str(snippet) + "\n\n"));
    return Ok(text);
  }

  /** The `for i, result in enumerate(results, 1)` loop of `SearchWebTool.execute`. */
  method FormatResultsLoop(query: Json, results: seq<Json>) returns (r: Py<string>)
    ensures r == FormatResults(query, results)
  {
    var formatted := SearchHeader(query);
    var i := 0;
    while i < |results|
      invariant 0 <= i <= |results|
      invariant FormatFrom(ResultBlock, results, 0, SearchHeader(query)) == FormatFrom(ResultBlock, results, i, formatted)
    {
      formatted :- AppendBlock(formatted, i + 1, results[i]);
      i := i + 1;
    }
    return Ok(formatted);
  }

  /**
    Formatting succeeds exactly when every result carries a title, a url and
    a snippet; the answer is then the header followed by one block per
    result, in order, the k-th numbered k+1 and opening with its title.
  */
  lemma FormatResultsBlocks(query: Json, results: seq<Json>)
    ensures FormatResults(query, results).Ok? <==> forall k :: 0 <= k < |results| ==> Printable(results[k])
    ensures FormatResults(query, results).Ok? ==>
              var blocks := BlocksFrom(ResultBlock, results, 0);
              FormatResults(query, results).value == SearchHeader(query) + Concat(blocks) &&
              |blocks| == |results| &&
              forall k :: 0 <= k < |results| ==>
                IsPrefix(NatToString(k + 1) + ". " + Str(Lookup(results[k].fields, "title").value) + "\n", blocks[k])
  {
    FormatFromOk(ResultBlock, results, 0, SearchHeader(query));
    if FormatResults(query, results).Ok? {
      FormatFromBlocks(ResultBlock, results, 0, SearchHeader(query));
      var blocks := BlocksFrom(ResultBlock, results, 0);
      forall k | 0 <= k < |results|
        ensures IsPrefix(NatToString(k + 1) + ". " + Str(Lookup(results[k].fields, "title").value) + "\n", blocks[k])
      {
        assert blocks[k] == ResultBlock(0 + k + 1, results[0 + k]).value;
      }
    }
  }
}

/**
  The two web tools the agent registers: `search_web`, which formats search
  results for the model, and `fetch_page`, which returns a page's content cut
  to 8000 characters. Both turn every exception of their body into a message,
  so their `execute` returns text whenever its arguments bind.
*/
module WebTools {
  import opened Wrappers
  import opened JsonValues
  import opened ToolBase
  import opened WebAccess
  import opened ResultFormat

  // ---------------------------------------------------------------- binding

  /** The first keyword in `keys` that is neither of the two parameters. */
  function Unexpected(keys: seq<string>, required: string, optional: string): (r: Option<string>)
    ensures r.None? <==> forall k :: 0 <= k < |keys| ==> keys[k] == required || keys[k] == optional
    ensures r.Some? ==> r.value in keys && r.value != required && r.value != optional
  {
    if |keys| == 0 then None
    else if keys[0] != required && keys[0] != optional then Some(keys[0])
    else Unexpected(keys[1..], required, optional)
  }

  /**
    Binding `execute(**kwargs)` to `execute(self, <required>, <optional>=<default>)`:
    an unknown keyword or a missing required one is a TypeError raised before
    the body runs.
  */
  function Bind(args: Json, required: string, optional: string, default: Json): (r: Py<(Json, Json)>)
    ensures r.Ok? <==> args.JObj? && required in KeysOf(args.fields) &&
                       forall k :: 0 <= k < |args.fields| ==> args.fields[k].0 == required || args.fields[k].0 == optional
    ensures r.Ok? ==> r.value.0 == Lookup(args.fields, required).value
    ensures r.Ok? && optional !in KeysOf(args.fields) ==> r.value.1 == default
    ensures r.Ok? && optional in KeysOf(args.fields) ==> r.value.1 == Lookup(args.fields, optional).value
  {
    if !args.JObj? then Err("execute() argument after ** must be a mapping, not " + TypeName(args))
    else
      KeysOfSpec(args.fields);
      match Unexpected(KeysOf(args.fields), required, optional)
      case Some(k) => Err("execute() got an unexpected keyword argument '" + k + "'")
      case None =>
        match Lookup(args.fields, required)
        case None => Err("execute() missing 1 required positional argument: '" + required + "'")
        case Some(v) =>
          Ok((v, match Lookup(args.fields, optional) case Some(o) => o case None => default))
  }

  // ---------------------------------------------------------------- search_web

  const SearchName: string := "search_web"

  const SearchDescription: string :=
    "Search the web for information. Use this tool when you need to find "
    + "current information, news, articles, documentation, or any external knowledge. "
    + "Returns a list of search results with titles, URLs, and brief snippets. "
    + "Each result provides enough context to decide if you should fetch the full page."

  /** The `max_results` property of the search schema. */
  const MaxResultsSchema: Json :=
    JObj([("type", JStr("integer")),
          ("description", JStr("Maximum number of results to return (default: 5, max: 10)")),
          ("default", JNum(5)), ("minimum", JNum(1)), ("maximum", JNum(10))])

  /** `get_parameters` of `SearchWebTool`. */
  const SearchParameters: Json :=
    JObj([("type", JStr("object")),
          ("properties", JObj([
             ("query", JObj([("type", JStr("string")),
                             ("description", JStr("The search query. Be specific and use relevant keywords."))])),
             ("max_results", MaxResultsSchema)])),
          ("required", JArr([JStr("query")]))])

  /** Only `query` is required. */
  lemma SearchRequired()
    ensures GetItem(SearchParameters, "required") == Ok(JArr([JStr("query")]))
  {
    var top := SearchParameters.fields;
    assert top[2].0 != top[0].0 && top[2].0 != top[1].0 by { assert "required"[0] != "type"[0] && "required"[0] != "properties"[0]; }
    LookupAt(top, 2);
  }

  /** `max_results` is declared among the properties with the schema below. */
  lemma SearchMaxResultsDeclared()
    ensures GetItem(SearchParameters, "properties").Ok?
    ensures GetItem(GetItem(SearchParameters, "properties").value, "max_results") == Ok(MaxResultsSchema)
  {
    var top := SearchParameters.fields;
    assert top[1].0 != top[0].0 by { assert "properties"[0] != "type"[0]; }
    LookupAt(top, 1);
    var props := top[1].1.fields;
    assert props[1].0 != props[0].0 by { assert "max_results"[0] != "query"[0]; }
    LookupAt(props, 1);
  }

  /** `max_results` defaults to 5. */
  lemma MaxResultsDefault()
    ensures GetItem(MaxResultsSchema, "default") == Ok(JNum(5))
  {
    var m := MaxResultsSchema.fields;
    assert m[2].0 != m[0].0 && m[2].0 != m[1].0 by { assert "default"[0] != "type"[0] && "default"[2] != "description"[2]; }
    LookupAt(m, 2);
  }

  /** `max_results` is at least 1. */
  lemma MaxResultsMinimum()
    ensures GetItem(MaxResultsSchema, "minimum") == Ok(JNum(1))
  {
    var m := MaxResultsSchema.fields;
    assert m[3].0 != m[0].0 && m[3].0 != m[1].0 && m[3].0 != m[2].0 by {
      assert "minimum"[0] != "type"[0] && "minimum"[0] != "description"[0] && "minimum"[0] != "default"[0];
    }
    LookupAt(m, 3);
  }

  /** `max_results` is at most 10. */
  lemma MaxResultsMaximum()
    ensures GetItem(MaxResultsSchema, "maximum") == Ok(JNum(10))
  {
    var m := MaxResultsSchema.fields;
    assert m[4].0 != m[0].0 && m[4].0 != m[1].0 && m[4].0 != m[2].0 by {
      assert "maximum"[0] != "type"[0] && "maximum"[0] != "description"[0] && "maximum"[0] != "default"[0];
    }
    assert m[4].0 != m[3].0 by { assert "maximum"[1] != "minimum"[1]; }
    LookupAt(m, 4);
  }

  /**
    `min(max(1, max_results), 10)`: a number lands in 1..10, a bool counts as
    0 or 1 and gives 1, anything else cannot be compared with an int.
  */
  function ClampResults(n: Json): (r: Py<int>)
    ensures r.Ok? <==> n.JNum? || n.JBool?
    ensures r.Ok? ==> 1 <= r.value <= 10
    ensures n.JNum? && 1 <= n.n <= 10 ==> r == Ok(n.n)
    ensures n.JNum? && n.n < 1 ==> r == Ok(1)
    ensures n.JNum? && n.n > 10 ==> r == Ok(10)
  {
    match n
    case JNum(k) =>
      var low := if k > 1 then k else 1;
      Ok(if low < 10 then low else 10)
    case JBool(_) => Ok(1)
    case _ => Err("'>' not supported between instances of '" + TypeName(n) + "' and 'int'")
  }

  /**
    The body inside `try`: clamp, search, then the empty answer or the
    formatted list. A count that cannot be clamped raises; with results, the
    body succeeds exactly when every result is printable, and then answers
    with the header naming the query.
  */
  function SearchBody(w: WebAccessor, query: Json, maxResults: Json): (r: Py<string>)
    ensures ClampResults(maxResults).Err? ==> r == Err(ClampResults(maxResults).error)
    ensures ClampResults(maxResults).Ok? && SearchWeb(w, query, ClampResults(maxResults).value) == [] ==>
              r == Ok("No results found for query: " + Str(query))
    ensures ClampResults(maxResults).Ok? && SearchWeb(w, query, ClampResults(maxResults).value) != [] ==>
              var results := SearchWeb(w, query, ClampResults(maxResults).value);
              (r.Ok? <==> forall k :: 0 <= k < |results| ==> Printable(results[k])) &&
              (r.Ok? ==> IsPrefix(SearchHeader(query), r.value))
  {
    var n :- ClampResults(maxResults);
    var results := SearchWeb(w, query, n);
    if |results| == 0 then Ok("No results found for query: " + Str(query))
    else
      FormatResultsBlocks(query, results);
      var formatted := FormatResults(query, results);
      assert formatted.Ok? ==> formatted.value[..|SearchHeader(query)|] == SearchHeader(query);
      formatted
  }

  /** `SearchWebTool.execute`: every exception of the body becomes a message naming the query. */
  function SearchExecute(w: WebAccessor, query: Json, maxResults: Json): (r: string)
    ensures SearchBody(w, query, maxResults).Ok? ==> r == SearchBody(w, query, maxResults).value
    ensures SearchBody(w, query, maxResults).Err? ==> IsPrefix("Error searching for '" + Str(query) + "': ", r)
  {
    match SearchBody(w, query, maxResults)
    case Ok(text) => text
    case Err(e) => "Error searching for '" + Str(query) + "': " + e
  }

  /**
    The backend is asked for the clamped count; no results give the fixed
    answer, results give their formatted list, and a bad count or a result
    missing a field gives the error message.
  */
  lemma SearchExecuteCases(w: WebAccessor, query: Json, maxResults: Json)
    ensures !ClampResults(maxResults).Ok? ==>
              SearchExecute(w, query, maxResults) == "Error searching for '" + Str(query) + "': " + ClampResults(maxResults).error
    ensures ClampResults(maxResults).Ok? && w.search(query, ClampResults(maxResults).value) == [] ==>
              SearchExecute(w, query, maxResults) == "No results found for query: " + Str(query)
    ensures ClampResults(maxResults).Ok? && w.search(query, ClampResults(maxResults).value) != [] ==>
              var formatted := FormatResults(query, w.search(query, ClampResults(maxResults).value));
              SearchExecute(w, query, maxResults) ==
                (if formatted.Ok? then formatted.value else "Error searching for '" + Str(query) + "': " + formatted.error)
  {
  }

  /** The search tool's body: bind the keyword arguments, then `execute`. */
  function SearchRun(w: WebAccessor, args: Json): (r: ToolOutcome)
    ensures r.Raised? <==> Bind(args, "query", "max_results", JNum(5)).Err?
  {
    match Bind(args, "query", "max_results", JNum(5))
    case Err(e) => Raised(e)
    case Ok((query, maxResults)) => Done(SearchExecute(w, query, maxResults))
  }

  /** `SearchWebTool(web)` */
  function SearchWebTool(w: WebAccessor): (t: Tool)
    ensures t.name == "search_web" && t.parameters == SearchParameters
  {
    Tool(SearchName, SearchDescription, SearchParameters, args => SearchRun(w, args))
  }

  /** Without `max_results` the search asks for 5 results. */
  lemma SearchDefaultCount(w: WebAccessor, query: Json)
    ensures SearchRun(w, JObj([("query", query)])) == Done(SearchExecute(w, query, JNum(5)))
    ensures ClampResults(JNum(5)) == Ok(5)
  {
    assert KeysOf([("query", query)]) == ["query"];
  }

  // ---------------------------------------------------------------- fetch_page

  const FetchName: string := "fetch_page"

  const FetchDescription: string :=
    "Fetch and return the full content of a web page. Use this tool when you need "
    + "to read the complete text of a specific URL, such as an article, documentation, "
    + "or blog post. The content is returned as clean text suitable for analysis. "
    + "Note: Content may be truncated if very long to fit within context limits."

  /** `get_parameters` of `FetchPageTool`. */
  const FetchParameters: Json :=
    JObj([("type", JStr("object")),
          ("properties", JObj([
             ("url", JObj([("type", JStr("string")),
                           ("description", JStr("The full URL of the web page to fetch. Must be a valid HTTP/HTTPS URL."))])),
             ("format", JObj([("type", JStr("string")),
                              ("enum", JArr([JStr("text"), JStr("markdown")])),
                              ("description", JStr("Output format: 'text' for plain text, 'markdown' for formatted markdown (default: text)")),
                              ("default", JStr("text"))]))])),
          ("required", JArr([JStr("url")]))])

  /** Only `url` is required. */
  lemma FetchSchema()
    ensures GetItem(FetchParameters, "required") == Ok(JArr([JStr("url")]))
  {
    var top := FetchParameters.fields;
    assert top[2].0 != top[0].0 && top[2].0 != top[1].0 by { assert "required"[0] != "type"[0] && "required"[0] != "properties"[0]; }
    LookupAt(top, 2);
  }

  const MaxLength: nat := 8000

  /** `f"\n\n[Content truncated to {max_length} characters]"` */
  const TruncationNote: string := "\n\n[Content truncated to 8000 characters]"

  /** The note names the limit it cuts at. */
  lemma TruncationNoteNamesLimit()
    ensures TruncationNote == "\n\n[Content truncated to " + NatToString(MaxLength) + " characters]"
  {
    LimitDigits();
  }

  /** The decimal digits of the limit. */
  lemma LimitDigits()
    ensures NatToString(MaxLength) == "8000"
  {
    assert NatToString(8) == "8";
    assert NatToString(80) == "80";
    assert NatToString(800) == "800";
  }

  /** `if format not in ["text", "markdown"]: format = "text"` */
  function FetchFormat(format: Json): (r: string)
    ensures r == "text" || r == "markdown"
    ensures format == JStr("markdown") <==> r == "markdown"
  {
    if format == JStr("text") || format == JStr("markdown") then format.s else "text"
  }

  /**
    Content longer than the limit is cut to its first 8000 characters and the
    note is appended. A list is cut to its first 8000 items and `+=` extends
    it with the note's characters; a dict cannot be sliced.
  */
  function Shorten(content: Json): (r: Py<Json>)
    ensures content.JStr? && |content.s| > MaxLength ==> r == Ok(JStr(content.s[..MaxLength] + TruncationNote))
    ensures content.JArr? && |content.items| > MaxLength ==>
              r.Ok? && r.value.JArr? && |r.value.items| == MaxLength + |TruncationNote| &&
              r.value.items[..MaxLength] == content.items[..MaxLength] &&
              forall i :: 0 <= i < |TruncationNote| ==> r.value.items[MaxLength + i] == JStr([TruncationNote[i]])
    ensures content.JObj? && |content.fields| > MaxLength ==> r.Err?
    ensures Len(content).Ok? && Len(content).value <= MaxLength ==> r == Ok(content)
    ensures !Len(content).Ok? ==> r.Err?
  {
    var n :- Len(content);
    if n <= MaxLength then Ok(content)
    else
      match content
      case JStr(s) => Ok(JStr(s[..MaxLength] + TruncationNote))
      case JArr(items) => Ok(JArr(items[..MaxLength] + NoteItems()))
      case _ => Err("unhashable type: 'slice'")
  }

  /** The note as `list += str` adds it: one single-character string per character. */
  function NoteItems(): (r: seq<Json>)
    ensures |r| == |TruncationNote|
    ensures forall i :: 0 <= i < |r| ==> r[i] == JStr([TruncationNote[i]])
  {
    seq(|TruncationNote|, i requires 0 <= i < |TruncationNote| => JStr([TruncationNote[i]]))
  }

  /** What `execute` hands back: a str as it is; any other value as `str()` renders it. */
  function Text(v: Json): (r: string)
    ensures v.JStr? ==> r == v.s
  {
    Str(v)
  }

  /**
    The body inside `try`: normalise the format, fetch, then the failure
    message or the (cut) content. A fetch that raises ends the body with its
    exception; a str page comes back whole up to 8000 characters and as its
    first 8000 characters and the note beyond that.
  */
  function FetchBody(w: WebAccessor, url: Json, format: Json): (r: Py<string>)
    ensures FetchPage(w, url, FetchFormat(format)).Err? ==> r == Err(FetchPage(w, url, FetchFormat(format)).error)
    ensures var fetched := FetchPage(w, url, FetchFormat(format));
            fetched.Ok? && !Truthy(fetched.value) ==>
              r == Ok("Failed to fetch content from " + Str(url) + ". The page may be unavailable or blocked.")
    ensures var fetched := FetchPage(w, url, FetchFormat(format));
            fetched.Ok? && Truthy(fetched.value) && fetched.value.JStr? ==>
              var s := fetched.value.s;
              r == Ok(if |s| > MaxLength then s[..MaxLength] + TruncationNote else s)
  {
    var content :- FetchPage(w, url, FetchFormat(format));
    if !Truthy(content) then
      Ok("Failed to fetch content from " + Str(url) + ". The page may be unavailable or blocked.")
    else
      var kept :- Shorten(content);
      Ok(Text(kept))
  }

  /** `FetchPageTool.execute`: every exception of the body becomes a message naming the URL. */
  function FetchExecute(w: WebAccessor, url: Json, format: Json): (r: string)
    ensures FetchBody(w, url, format).Ok? ==> r == FetchBody(w, url, format).value
    ensures FetchBody(w, url, format).Err? ==> IsPrefix("Error fetching " + Str(url) + ": ", r)
  {
    match FetchBody(w, url, format)
    case Ok(text) => text
    case Err(e) => "Error fetching " + Str(url) + ": " + e
  }

  /** A format other than `text` or `markdown` is fetched as `text`. */
  lemma FormatFallback(w: WebAccessor, url: Json, format: Json)
    requires format != JStr("text") && format != JStr("markdown")
    ensures FetchExecute(w, url, format) == FetchExecute(w, url, JStr("text"))
  {
  }

  /**
    The failures of a fetch: empty content gives the fixed failure message,
    and an exception of the fetch is caught into the error message.
  */
  lemma FetchExecuteCases(w: WebAccessor, url: Json, format: Json)
    ensures var fetched := FetchPage(w, url, FetchFormat(format));
            fetched.Ok? && !Truthy(fetched.value) ==>
              FetchExecute(w, url, format) ==
                "Failed to fetch content from " + Str(url) + ". The page may be unavailable or blocked."
    ensures FetchPage(w, url, FetchFormat(format)).Err? ==>
              FetchExecute(w, url, format) == "Error fetching " + Str(url) + ": " + FetchPage(w, url, FetchFormat(format)).error
  {
  }

  /**
    The length of a fetched page: a page longer than 8000 characters gives
    its first 8000 characters and the note; a shorter page is returned as it is.
  */
  lemma FetchExecuteLength(w: WebAccessor, url: Json, format: Json)
    ensures var fetched := FetchPage(w, url, FetchFormat(format));
            fetched.Ok? && fetched.value.JStr? && |fetched.value.s| > MaxLength ==>
              var s := fetched.value.s;
              FetchExecute(w, url, format) == s[..MaxLength] + TruncationNote &&
              IsPrefix(s[..MaxLength], FetchExecute(w, url, format)) &&
              |FetchExecute(w, url, format)| == MaxLength + |TruncationNote|
    ensures var fetched := FetchPage(w, url, FetchFormat(format));
            fetched.Ok? && Truthy(fetched.value) && fetched.value.JStr? && |fetched.value.s| <= MaxLength ==>
              FetchExecute(w, url, format) == fetched.value.s
  {
    var fetched := FetchPage(w, url, FetchFormat(format));
    if fetched.Ok? && fetched.value.JStr? && |fetched.value.s| > MaxLength {
      var s := fetched.value.s;
      var out := s[..MaxLength] + TruncationNote;
      assert Truthy(fetched.value);
      assert Shorten(fetched.value) == Ok(JStr(out));
      assert FetchBody(w, url, format) == Ok(Text(JStr(out)));
      assert out[..MaxLength] == s[..MaxLength];
    }
  }

  /** The fetch tool's body: bind the keyword arguments, then `execute`. */
  function FetchRun(w: WebAccessor, args: Json): (r: ToolOutcome)
    ensures r.Raised? <==> Bind(args, "url", "format", JStr("text")).Err?
  {
    match Bind(args, "url", "format", JStr("text"))
    case Err(e) => Raised(e)
    case Ok((url, format)) => Done(FetchExecute(w, url, format))
  }

  /** `FetchPageTool(web)` */
  function FetchPageTool(w: WebAccessor): (t: Tool)
    ensures t.name == "fetch_page" && t.parameters == FetchParameters
  {
    Tool(FetchName, FetchDescription, FetchParameters, args => FetchRun(w, args))
  }

  /** The two tools register under different names. */
  lemma ToolNamesDiffer(w: WebAccessor)
    ensures SearchWebTool(w).name != FetchPageTool(w).name
  {
    assert SearchName[0] != FetchName[0];
  }

  /**
    The search tool does not raise once its arguments bind: a dict holding
    `query` and no unknown keyword always gets text back.
  */
  lemma SearchNeverRaises(w: WebAccessor, args: Json)
    requires args.JObj? && "query" in KeysOf(args.fields)
    requires forall k :: 0 <= k < |args.fields| ==> args.fields[k].0 == "query" || args.fields[k].0 == "max_results"
    ensures SearchWebTool(w).run(args).Done?
  {
    assert Bind(args, "query", "max_results", JNum(5)).Ok?;
    assert SearchWebTool(w).run(args) == SearchRun(w, args);
  }

  /**
    The fetch tool does not raise once its arguments bind: a dict holding
    `url` and no unknown keyword always gets text back.
  */
  lemma FetchNeverRaises(w: WebAccessor, args: Json)
    requires args.JObj? && "url" in KeysOf(args.fields)
    requires forall k :: 0 <= k < |args.fields| ==> args.fields[k].0 == "url" || args.fields[k].0 == "format"
    ensures FetchPageTool(w).run(args).Done?
  {
    assert Bind(args, "url", "format", JStr("text")).Ok?;
    assert FetchPageTool(w).run(args) == FetchRun(w, args);
  }
}
