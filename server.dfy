/**
 * `SearXNGSearcher` and the `POST /tools/{tool_name}` dispatch of the web
 * server. The HTTP GET to the backend, with its status check and JSON
 * decoding, is a `Backend` function handed in by the caller: it maps the
 * search URL and the query parameters to what the request produced.
 */
module Server {
  import opened Wrappers
  import opened Params
  import opened Format

  /** What the backend request produced. */
  datatype Outcome =
    | Fetched(results: seq<Record>)   // the response's `results` list; `[]` when the key is missing
    | RequestError(message: string)   // an `httpx.RequestError` (connection, timeout, ...)
    | Failed(message: string)         // any other exception: error status, undecodable body, ...

  type Backend = (string, QueryParams) -> Outcome

  /** One item of a tool's result list, `{"type": kind, "text": text}`. */
  datatype Content = Content(kind: string, text: string)

  /** The `HTTPException` raised inside the dispatcher for an unknown tool. */
  datatype ToolError = ToolNotFound(statusCode: nat, detail: string)

  /**
   * What `call_tool` answers: `{"result": items}`, or an `HTTPException`
   * with a status code whose detail is the text of the exception it caught.
   */
  datatype Response =
    | Replied(result: seq<Content>)
    | Raised(statusCode: nat, cause: ToolError)

  const DefaultUrl := "http://localhost:8080"
  const KnownTools: set<string> := {"search", "search_images", "search_news"}

  function NoResultsText(query: string): string {
    "No results found for query: " + query
  }

  /**
   * Python's `s[:stop]`: the first `stop` elements when `stop` is not
   * negative, and otherwise all but the last `-stop`, in both cases clamped
   * to the sequence.
   */
  function Prefix<T>(s: seq<T>, stop: int): (r: seq<T>)
    ensures r <= s
    ensures 0 <= stop <= |s| ==> |r| == stop
    ensures |s| <= stop ==> r == s
    ensures stop < 0 && -stop <= |s| ==> r + s[|s| + stop..] == s
    ensures stop < 0 && -stop > |s| ==> r == []
  {
    if stop >= 0 then
      if stop < |s| then s[..stop] else s
    else if |s| + stop > 0 then s[..|s| + stop]
    else []
  }

  /**
   * `items` is what `_perform_search` returns for a search of `query` with
   * the limit `maxResults` when the backend request produced `outcome`:
   * always a single text item, holding the no-results message, the
   * formatted leading results, or the error text.
   */
  predicate Replies(items: seq<Content>, query: string, maxResults: int, searchType: string, outcome: Outcome) {
    |items| == 1 && items[0].kind == "text" &&
    items[0].text == match outcome
      case Fetched(results) =>
        if results == [] then NoResultsText(query)
        else FormattedText(Prefix(results, maxResults), searchType, query)
      case RequestError(message) => "Error connecting to SearXNG: " + message
      case Failed(message) => "Unexpected error: " + message
  }

  class Searcher {
    const searxngUrl: string

    constructor (searxngUrl: string := DefaultUrl)
      ensures this.searxngUrl == searxngUrl
    {
      this.searxngUrl := searxngUrl;
    }

    /** The backend endpoint every search goes to. */
    function SearchUrl(): string {
      searxngUrl + "/search"
    }

    /** The `search` tool: a general web search. */
    method Search(args: Arguments, backend: Backend) returns (items: seq<Content>)
      ensures Replies(items, args.query.GetOr(""), MaxResults(args), "Web Search",
                      backend(SearchUrl(), SearchParams(args)))
    {
      var params := map["q" := args.query.GetOr(""), "format" := "json",
                         "categories" := args.categories.GetOr("general"),
                         "language" := args.language.GetOr("en")];
      var engines := args.engines.GetOr("");
      if engines != "" {
        params := params["engines" := engines];
      }
      assert params == SearchParams(args);
      items := PerformSearch(params, MaxResults(args), "Web Search", backend);
    }

    /** The `search_images` tool. */
    method SearchImages(args: Arguments, backend: Backend) returns (items: seq<Content>)
      ensures Replies(items, args.query.GetOr(""), MaxResults(args), "Image Search",
                      backend(SearchUrl(), ImageParams(args)))
    {
      items := PerformSearch(ImageParams(args), MaxResults(args), "Image Search", backend);
    }

    /** The `search_news` tool. */
    method SearchNews(args: Arguments, backend: Backend) returns (items: seq<Content>)
      ensures Replies(items, args.query.GetOr(""), MaxResults(args), "News Search",
                      backend(SearchUrl(), NewsParams(args)))
    {
      items := PerformSearch(NewsParams(args), MaxResults(args), "News Search", backend);
    }

    /**
     * Sends `params` to the backend and turns whatever comes back into one
     * text item; no outcome escapes as an exception.
     */
    method PerformSearch(params: QueryParams, maxResults: int, searchType: string, backend: Backend)
      returns (items: seq<Content>)
      requires "q" in params
      ensures Replies(items, params["q"], maxResults, searchType, backend(SearchUrl(), params))
    {
      var outcome := backend(SearchUrl(), params);
      match outcome {
        case Fetched(results) =>
          if results == [] {
            return [Content("text", NoResultsText(params["q"]))];
          }
          var limited := Prefix(results, maxResults);
          var formatted := FormatResults(limited, searchType, params["q"]);
          items := [Content("text", formatted)];
        case RequestError(message) =>
          items := [Content("text", "Error connecting to SearXNG: " + message)];
        case Failed(message) =>
          items := [Content("text", "Unexpected error: " + message)];
      }
    }

    /**
     * The clean-up of a result's `content` in `_format_results`: a string is
     * stripped and cut to 200 characters plus "..."; anything else is "".
     * What is left is the summary shown, and no summary is shown when it is "".
     */
    method CleanContent(field: Field) returns (content: string)
      ensures content == "" <==> Summary(field).None?
      ensures content != "" ==> Summary(field) == Some(content)
    {
      SummaryCases(field);
      content := if field.Text? then field.s else "";
      if content != "" {
        content := Strings.Strip(content);
        if |content| > SummaryLimit {
          content := content[..SummaryLimit] + Ellipsis;
        }
      }
    }

    /**
     * One pass of the loop in `_format_results`: appends the block of the
     * result numbered `n` to the output lines.
     */
    method AppendResult(lines: seq<string>, n: nat, result: Record) returns (output: seq<string>)
      ensures output == lines + BlockLines(n, result)
    {
      var title := TitleText(result.title);
      var url := UrlText(result.url);
      var content := CleanContent(result.content);
      var summary := if content != "" then Some(content) else None;
      assert ViewOf(n, result) == View(n, title, url, summary, Shown(result.publishedDate), Shown(result.thumbnail));
      output := lines + [Heading(n, title), UrlTag + url];
      output := AppendTagged(output, SummaryTag, summary);
      output := AppendTagged(output, PublishedTag, Shown(result.publishedDate));
      output := AppendTagged(output, ThumbnailTag, Shown(result.thumbnail));
      output := output + [""];
    }

    /**
     * `if value: output.append(f"{tag}{value}")`: appends the tagged line
     * when there is a value, and nothing otherwise.
     */
    method AppendTagged(lines: seq<string>, tag: string, value: Option<string>) returns (output: seq<string>)
      ensures output == lines + Tagged(tag, value)
    {
      output := lines;
      if value.Some? {
        output := output + [tag + value.value];
      }
    }

    /** `_format_results`: builds the list of output lines, then joins it. */
    method FormatResults(results: seq<Record>, searchType: string, query: string) returns (text: string)
      ensures text == FormattedText(results, searchType, query)
    {
      var output := [Header(searchType, query)];
      var i := 0;
      while i < |results|
        invariant 0 <= i <= |results|
        invariant output == ResultLines(results[..i], searchType, query)
      {
        ResultLinesStep(results, i, searchType, query);
        output := AppendResult(output, i + 1, results[i]);
        i := i + 1;
      }
      assert results[..i] == results;
      text := Strings.Join(output, "\n");
    }
  }

  /**
   * `call_tool`: the three known tool names reach the searcher and answer
   * with its items; any other name raises a 404 inside the `try`, which the
   * blanket handler turns into a 500.
   */
  method CallTool(searcher: Searcher, toolName: string, args: Arguments, backend: Backend)
    returns (response: Response)
    ensures response.Replied? <==> toolName in KnownTools
    ensures toolName == "search" ==>
              Replies(response.result, args.query.GetOr(""), MaxResults(args), "Web Search",
                      backend(searcher.SearchUrl(), SearchParams(args)))
    ensures toolName == "search_images" ==>
              Replies(response.result, args.query.GetOr(""), MaxResults(args), "Image Search",
                      backend(searcher.SearchUrl(), ImageParams(args)))
    ensures toolName == "search_news" ==>
              Replies(response.result, args.query.GetOr(""), MaxResults(args), "News Search",
                      backend(searcher.SearchUrl(), NewsParams(args)))
    ensures toolName !in KnownTools ==>
              response == Raised(500, ToolNotFound(404, "Tool " + toolName + " not found"))
  {
    var result: seq<Content>;
    if toolName == "search" {
      result := searcher.Search(args, backend);
    } else if toolName == "search_images" {
      result := searcher.SearchImages(args, backend);
    } else if toolName == "search_news" {
      result := searcher.SearchNews(args, backend);
    } else {
      var raised := ToolNotFound(404, "Tool " + toolName + " not found");
      return Raised(500, raised);
    }
    response := Replied(result);
  }

  /**
   * With a limit of 0 and a non-empty result list the reply is the header
   * alone, not the no-results message.
   */
  lemma ZeroLimitGivesHeaderOnly(items: seq<Content>, query: string, searchType: string, results: seq<Record>)
    requires results != []
    requires Replies(items, query, 0, searchType, Fetched(results))
    ensures items[0].text == Header(searchType, query)
    ensures items[0].text != NoResultsText(query)
  {
    assert Prefix(results, 0) == [];
    FormattedTextLayout([], searchType, query);
    assert Header(searchType, query)[0] == '#' != NoResultsText(query)[0];
  }

  /**
   * With a positive limit, the reply shows the first `min(maxResults, |results|)`
   * backend results in backend order: after the header, block i shows the
   * i-th of them under the number i + 1.
   */
  lemma ReplyShowsLeadingResults(items: seq<Content>, query: string, maxResults: int, searchType: string,
                                 results: seq<Record>)
    requires results != [] && maxResults > 0
    requires Replies(items, query, maxResults, searchType, Fetched(results))
    ensures var shown := if maxResults < |results| then maxResults else |results|;
            var blocks := Blocks(results[..shown], 1);
            items[0].text == Header(searchType, query) + "\n" + Strings.Join(blocks, "\n")
            && DecodeBlocks(blocks) == Some(Views(results[..shown], 1))
  {
    var shown := if maxResults < |results| then maxResults else |results|;
    assert Prefix(results, maxResults) == results[..shown];
    FormattedTextLayout(results[..shown], searchType, query);
    DecodeBlocksOfResults(results[..shown], 1);
  }
}
