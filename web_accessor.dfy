/**
  `WebAccessor`: page fetching in the four output formats, article fetching,
  search, and `search_and_fetch`, which fetches the top search results. The
  fetcher, the search backend and the HTML-to-markdown converter it builds
  are foreign code and appear here as functions.
*/
module WebAccess {
  import opened Wrappers
  import opened JsonValues

  /**
    The collaborators `__init__` builds. `fetchPage` is `WebFetcher.fetch_page`
    (a dict with `text` and `html`, or None), `fetchArticle` is
    `fetch_article_content` (a str, or None), `search` is the backend's
    `search(query, max_results)` (a list; the backends catch their own
    failures) and `toMarkdown` is `HTMLConverter.html_to_markdown`.
  */
  datatype WebAccessor = WebAccessor(
    fetchPage: Json -> Json,
    fetchArticle: Json -> Json,
    search: (Json, int) -> seq<Json>,
    toMarkdown: Json -> string)

  /** What the fetcher hands back on success: a dict whose `text` and `html` are strings. */
  predicate PageShaped(page: Json)
  {
    page.JObj? && GetItem(page, "text").Ok? && GetItem(page, "text").value.JStr? &&
    GetItem(page, "html").Ok? && GetItem(page, "html").value.JStr?
  }

  /**
    `fetch_page(url, format)`: None when the fetcher found nothing; `text`,
    converted `html`, raw `html`, or the whole page dict; any other format
    falls back to `text`.
  */
  function FetchPage(w: WebAccessor, url: Json, format: string): (r: Py<Json>)
    ensures !Truthy(w.fetchPage(url)) ==> r == Ok(JNull)
    ensures Truthy(w.fetchPage(url)) && format == "full" ==> r == Ok(w.fetchPage(url))
    ensures Truthy(w.fetchPage(url)) && format == "html" ==> r == GetItem(w.fetchPage(url), "html")
    ensures Truthy(w.fetchPage(url)) && format == "markdown" && GetItem(w.fetchPage(url), "html").Ok? ==>
              r == Ok(JStr(w.toMarkdown(GetItem(w.fetchPage(url), "html").value)))
    ensures Truthy(w.fetchPage(url)) && format != "markdown" && format != "html" && format != "full" ==>
              r == GetItem(w.fetchPage(url), "text")
  {
    var page := w.fetchPage(url);
    if !Truthy(page) then Ok(JNull)
    else if format == "text" then GetItem(page, "text")
    else if format == "markdown" then
      var html :- GetItem(page, "html");
      Ok(JStr(w.toMarkdown(html)))
    else if format == "html" then GetItem(page, "html")
    else if format == "full" then Ok(page)
    else GetItem(page, "text")
  }

  /** An unknown format is served exactly as `text` is. */
  lemma UnknownFormatIsText(w: WebAccessor, url: Json, format: string)
    requires format !in ["text", "markdown", "html", "full"]
    ensures FetchPage(w, url, format) == FetchPage(w, url, "text")
  {
  }

  /**
    On what the fetcher really returns, `fetch_page` never raises, and it
    returns None exactly when the fetcher came back empty; otherwise `text`
    and `html` give the page's fields.
  */
  lemma FetchPageShaped(w: WebAccessor, url: Json, format: string)
    requires w.fetchPage(url) == JNull || PageShaped(w.fetchPage(url))
    ensures FetchPage(w, url, format).Ok?
    ensures FetchPage(w, url, format) == Ok(JNull) <==> w.fetchPage(url) == JNull
    ensures PageShaped(w.fetchPage(url)) && format == "text" ==>
              FetchPage(w, url, format) == Ok(Lookup(w.fetchPage(url).fields, "text").value)
    ensures PageShaped(w.fetchPage(url)) && format == "html" ==>
              FetchPage(w, url, format) == Ok(Lookup(w.fetchPage(url).fields, "html").value)
  {
  }

  /**
    `fetch_article(url, format)`: None without article text; for `markdown`,
    the converted html of the full page when that fetch succeeds, otherwise
    the article text itself.
  */
  function FetchArticle(w: WebAccessor, url: Json, format: string): (r: Py<Json>)
    ensures !Truthy(w.fetchArticle(url)) ==> r == Ok(JNull)
    ensures Truthy(w.fetchArticle(url)) && (format != "markdown" || !Truthy(w.fetchPage(url))) ==>
              r == Ok(w.fetchArticle(url))
    ensures Truthy(w.fetchArticle(url)) && format == "markdown" && Truthy(w.fetchPage(url)) ==>
              (r.Ok? <==> GetItem(w.fetchPage(url), "html").Ok?) &&
              (r.Ok? ==> r.value == JStr(w.toMarkdown(GetItem(w.fetchPage(url), "html").value)))
  {
    var article := w.fetchArticle(url);
    if !Truthy(article) then Ok(JNull)
    else if format == "markdown" && Truthy(w.fetchPage(url)) then
      var html :- GetItem(w.fetchPage(url), "html");
      Ok(JStr(w.toMarkdown(html)))
    else Ok(article)
  }

  /** For `markdown` with a well-formed page, the article is the page's converted html, never the extracted text. */
  lemma MarkdownArticle(w: WebAccessor, url: Json)
    requires Truthy(w.fetchArticle(url)) && PageShaped(w.fetchPage(url))
    ensures FetchArticle(w, url, "markdown") == Ok(JStr(w.toMarkdown(Lookup(w.fetchPage(url).fields, "html").value)))
  {
  }

  /** `search_web(query, max_results)`: handed to the backend unchanged. */
  function SearchWeb(w: WebAccessor, query: Json, maxResults: int): seq<Json>
  {
    w.search(query, maxResults)
  }

  /**
    `if len(content) > max_content_length: content = content[:max_content_length]`.
    Only a str or a list can be sliced; a dict longer than the bound raises.
  */
  function Truncate(content: Json, maxLen: int): (r: Py<Json>)
    ensures r.Ok? <==> (content.JStr? || content.JArr? || (content.JObj? && |content.fields| <= maxLen))
    ensures content.JStr? ==> r.Ok? && r.value.JStr? && IsPrefix(r.value.s, content.s)
    ensures content.JStr? && maxLen >= 0 ==> |r.value.s| <= maxLen
    ensures content.JStr? && |content.s| > maxLen >= 0 ==> |r.value.s| == maxLen
    ensures Len(content).Ok? && Len(content).value <= maxLen ==> r == Ok(content)
  {
    var n :- Len(content);
    if n <= maxLen then Ok(content)
    else
      match content
      case JStr(s) => Ok(JStr(Take(s, maxLen)))
      case JArr(items) => Ok(JArr(Take(items, maxLen)))
      case _ => Err("unhashable type: 'slice'")
  }

  /** The dict appended for a fetched result. */
  function Entry(url: Json, title: Json, content: Json): Json
  {
    JObj([("url", url), ("title", title), ("content", content)])
  }

  /**
    One turn of the `search_and_fetch` loop: the result's url is fetched;
    empty content appends nothing; otherwise the truncated content goes out
    with the result's url and title.
  */
  function FetchOne(w: WebAccessor, format: string, maxLen: int, result: Json): (r: Py<Option<Json>>)
    ensures r.Ok? ==> GetItem(result, "url").Ok? && FetchPage(w, GetItem(result, "url").value, format).Ok?
    ensures r.Ok? && r.value.None? ==> !Truthy(FetchPage(w, GetItem(result, "url").value, format).value)
    ensures r.Ok? && r.value.Some? ==>
              var fetched := FetchPage(w, GetItem(result, "url").value, format).value;
              Truthy(fetched) && Truncate(fetched, maxLen).Ok? && GetItem(result, "title").Ok? &&
              r.value.value == Entry(GetItem(result, "url").value, GetItem(result, "title").value, Truncate(fetched, maxLen).value)
  {
    var url :- GetItem(result, "url");
    var content :- FetchPage(w, url, format);
    if !Truthy(content) then Ok(None)
    else
      var kept :- Truncate(content, maxLen);
      var title :- GetItem(result, "title");
      Ok(Some(Entry(url, title, kept)))
  }

  /** The loop body as a step value, for the generic filter loop. */
  function FetchStep(w: WebAccessor, format: string, maxLen: int): Json -> Py<Option<Json>>
  {
    result => FetchOne(w, format, maxLen, result)
  }

  /**
    `search_and_fetch`: the search asks for `num_pages` results, the loop
    walks `search_results[:num_pages]`, and exceptions propagate.
  */
  function SearchAndFetch(w: WebAccessor, query: Json, numPages: int, format: string, maxLen: int): (r: Py<seq<Json>>)
    ensures r.Ok? ==> |r.value| <= |Take(w.search(query, numPages), numPages)| <= |w.search(query, numPages)|
    ensures r.Ok? && numPages >= 0 ==> |r.value| <= numPages
  {
    var top := Take(SearchWeb(w, query, numPages), numPages);
    Gather(FetchStep(w, format, maxLen), top, 0, [])
  }

  /** The loop of `search_and_fetch`, appending to `fetched_content` step by step. */
  method SearchAndFetchLoop(w: WebAccessor, query: Json, numPages: int, format: string, maxLen: int)
    returns (r: Py<seq<Json>>)
    ensures r == SearchAndFetch(w, query, numPages, format, maxLen)
  {
    var top := Take(SearchWeb(w, query, numPages), numPages);
    var fetched: seq<Json> := [];
    var i := 0;
    while i < |top|
      invariant 0 <= i <= |top|
      invariant Gather(FetchStep(w, format, maxLen), top, 0, []) == Gather(FetchStep(w, format, maxLen), top, i, fetched)
    {
      GatherStep(FetchStep(w, format, maxLen), top, i, fetched);
      assert FetchStep(w, format, maxLen)(top[i]) == FetchOne(w, format, maxLen, top[i]);
      var url :- GetItem(top[i], "url");
      var content :- FetchPage(w, url, format);
      if Truthy(content) {
        content :- Truncate(content, maxLen);
        var title :- GetItem(top[i], "title");
        fetched := fetched + [Entry(url, title, content)];
      }
      i := i + 1;
    }
    r := Ok(fetched);
  }

  /**
    What `search_and_fetch` returns: one entry for each top result whose
    fetched content is non-empty, in search order; the results it skips are
    exactly those whose loop turn appended nothing.
  */
  lemma SearchAndFetchOrder(w: WebAccessor, query: Json, numPages: int, format: string, maxLen: int)
    requires SearchAndFetch(w, query, numPages, format, maxLen).Ok?
    ensures var r := SearchAndFetch(w, query, numPages, format, maxLen).value;
            var top := Take(w.search(query, numPages), numPages);
            var idx := KeptIndices(FetchStep(w, format, maxLen), top, 0);
            |r| == |idx| &&
            (forall j, j' :: 0 <= j < j' < |idx| ==> idx[j] < idx[j']) &&
            (forall i :: 0 <= i < |top| && i !in idx ==> FetchOne(w, format, maxLen, top[i]) == Ok(None)) &&
            (forall j :: 0 <= j < |idx| ==> FetchOne(w, format, maxLen, top[idx[j]]) == Ok(Some(r[j])))
  {
    var step := FetchStep(w, format, maxLen);
    var top := Take(w.search(query, numPages), numPages);
    GatherOrder(step, top);
  }

  /**
    An entry the loop appends copies its search result's `url` and `title`,
    and its `content` is the truncated, non-empty page fetched from that url.
  */
  lemma FetchedEntry(w: WebAccessor, format: string, maxLen: int, result: Json, entry: Json)
    requires FetchOne(w, format, maxLen, result) == Ok(Some(entry))
    ensures GetItem(entry, "url") == GetItem(result, "url")
    ensures GetItem(entry, "title") == GetItem(result, "title")
    ensures var fetched := FetchPage(w, GetItem(result, "url").value, format).value;
            Truthy(fetched) && GetItem(entry, "content") == Truncate(fetched, maxLen)
  {
    var fetched := FetchPage(w, GetItem(result, "url").value, format).value;
    EntryFields(GetItem(result, "url").value, GetItem(result, "title").value, Truncate(fetched, maxLen).value);
  }

  /**
    Every entry of `search_and_fetch` copies the url and title of the search
    result it came from, and carries that page's content cut to the bound.
  */
  lemma SearchAndFetchEntries(w: WebAccessor, query: Json, numPages: int, format: string, maxLen: int, j: nat)
    requires SearchAndFetch(w, query, numPages, format, maxLen).Ok?
    requires j < |SearchAndFetch(w, query, numPages, format, maxLen).value|
    ensures var r := SearchAndFetch(w, query, numPages, format, maxLen).value;
            var top := Take(w.search(query, numPages), numPages);
            var idx := KeptIndices(FetchStep(w, format, maxLen), top, 0);
            j < |idx| &&
            GetItem(r[j], "url") == GetItem(top[idx[j]], "url") &&
            GetItem(r[j], "title") == GetItem(top[idx[j]], "title") &&
            GetItem(r[j], "content").Ok? && Truthy(FetchPage(w, GetItem(top[idx[j]], "url").value, format).value) &&
            GetItem(r[j], "content") == Truncate(FetchPage(w, GetItem(top[idx[j]], "url").value, format).value, maxLen)
  {
    SearchAndFetchOrder(w, query, numPages, format, maxLen);
    var r := SearchAndFetch(w, query, numPages, format, maxLen).value;
    var top := Take(w.search(query, numPages), numPages);
    var idx := KeptIndices(FetchStep(w, format, maxLen), top, 0);
    FetchedEntry(w, format, maxLen, top[idx[j]], r[j]);
  }

  /** The three fields of an entry read back as written. */
  lemma EntryFields(url: Json, title: Json, content: Json)
    ensures GetItem(Entry(url, title, content), "url") == Ok(url)
    ensures GetItem(Entry(url, title, content), "title") == Ok(title)
    ensures GetItem(Entry(url, title, content), "content") == Ok(content)
  {
    var fields := Entry(url, title, content).fields;
    assert fields[1].0 != fields[0].0 by { assert "title"[0] != "url"[0]; }
    LookupAt(fields, 1);
    assert fields[2].0 != fields[0].0 && fields[2].0 != fields[1].0 by { assert "content"[0] != "url"[0] && "content"[0] != "title"[0]; }
    LookupAt(fields, 2);
  }
}
