# SearXNG MCP web server: request shaping, result formatting and tool dispatch

This project models the logic of `searxng_mcp_web_server.py`, the HTTP front end that exposes three
search tools over a SearXNG metasearch backend:

- **Parameter building** (module `Params`). `search`, `search_images` and `search_news` turn the
  caller's argument object into the query-parameter map sent to the backend's `/search` endpoint.
  The model covers the defaults, the fixed `format=json`, the fixed image and news categories, and
  the `engines` key, which is added only for a non-empty engine list.
- **Post-processing of a search** (`Server.Searcher.PerformSearch`). The backend request is a
  function handed in by the caller (`Backend`). It maps the search URL and the parameters to an
  `Outcome`: a result list, a request error, or any other failure.
  - An empty list becomes the "No results found" message. This happens before any limit applies.
  - Otherwise the list is cut with Python slice semantics (`Server.Prefix`) and formatted.
  - Errors become text messages.
  - Every path answers with exactly one `text` item.
- **The formatter** (`Server.Searcher.FormatResults`, specified in module `Format`). It is a loop
  that appends a header and one numbered block per result to a list of lines, then joins the lines
  with `"\n"`. Module `Strings` models the Python string operations it uses:
  - `str.strip()`, with the exact `str.isspace` code points;
  - `"\n".join`;
  - `str(n)`.
- **What the formatter shows.** Module `Format` also holds a decoder that reads result blocks back.
  A round-trip lemma proves what the list of output lines shows for each result, before the
  join, in backend order:
  - the number and the title, or "No title";
  - the URL;
  - the stripped and truncated summary;
  - the non-empty date and thumbnail;
  - nothing else.
- **Tool dispatch** (`Server.CallTool`). The three tool names reach the searcher. Any other name
  raises a 404, which the blanket handler turns into a 500.

Result objects from the backend are records of `Field`s: a key is missing, JSON null, or a string.
Python's f-strings print null as `None`, and null is falsy in `if` tests; the model renders both
behaviours.

Other copies of the servers kept in the repository's `.history/` directory (the 14:00 copy of the
stdio MCP server and both copies of `searxng_web_server.py`) truncate summaries at 300 characters
and add duration, image, DOI, author and engine lines; the 13:01 copies of the stdio server have
this file's formatter unchanged. This file's `_format_results` truncates at 200 characters and shows
only the published date and the thumbnail, and that is what the model follows. An unknown tool
name makes no backend call; the 404 raised for it is caught by the handler's own
`except Exception`, so the caller sees 500.

## Model

| member | source | states |
|---|---|---|
| Params.MaxResults | searxng_mcp_web_server.py:36 | the limit is the `max_results` argument when given, and 10 when it is absent |
| Params.SearchParams | searxng_mcp_web_server.py:33-47 | the web-search map has exactly the keys q, format, categories and language, plus engines exactly when the engines argument is present and non-empty; q defaults to "", categories to "general", language to "en", format is always "json", and engines carries the argument unchanged |
| Params.ImageParams | searxng_mcp_web_server.py:53-60 | the image-search map has exactly the keys q, format and categories, with categories fixed to "images"; categories, language and engines arguments have no effect |
| Params.NewsParams | searxng_mcp_web_server.py:66-73 | the news-search map has exactly the keys q, format and categories, with categories fixed to "news"; other arguments have no effect |
| Server.Searcher.constructor | searxng_mcp_web_server.py:28-29 | the searcher keeps the backend URL it is given, "http://localhost:8080" by default |
| Server.Searcher.Search | searxng_mcp_web_server.py:31-49 | builds the map in place (literal, then the conditional engines insert), proves it equal to the web-search map, and replies with the web search of that map at the requested limit |
| Server.Searcher.SearchImages | searxng_mcp_web_server.py:51-62 | replies with the "Image Search" of the image-search map at the requested limit |
| Server.Searcher.SearchNews | searxng_mcp_web_server.py:64-75 | replies with the "News Search" of the news-search map at the requested limit |
| Server.Searcher.PerformSearch | searxng_mcp_web_server.py:77-117 | whatever the backend produced, the answer is one text item: the no-results message for an empty list whatever the limit, the formatted `results[:max_results]` otherwise, "Error connecting to SearXNG: " plus the message for a request error, and "Unexpected error: " plus the message for any other failure |
| Server.Prefix | searxng_mcp_web_server.py:96 | `s[:stop]` is a prefix of `s`; its length is `stop` when 0 <= stop <= len, all of `s` when stop >= len, all but the last -stop elements for a negative stop, and empty when -stop exceeds the length |
| Server.ZeroLimitGivesHeaderOnly | searxng_mcp_web_server.py:89-99 | with a limit of 0 and a non-empty result list the reply is the header line alone, not the no-results message |
| Server.ReplyShowsLeadingResults | searxng_mcp_web_server.py:96-99 | with a positive limit the reply is the header, a line break and the blocks of the first min(limit, len) results, and those blocks decode to exactly those results' views numbered from 1 in backend order |
| Server.Searcher.FormatResults | searxng_mcp_web_server.py:119-149 | the loop's list of lines is, after i results, the header followed by the blocks of the first i results; the returned text is that list joined by "\n" |
| Server.Searcher.AppendResult | searxng_mcp_web_server.py:123-147 | one loop pass appends exactly the block of result n: heading, URL line, optional summary, published and thumbnail lines, and an empty line |
| Server.Searcher.CleanContent | searxng_mcp_web_server.py:126-132 | the cleaned content is empty exactly when the result shows no summary, and otherwise it is the summary shown (stripped, cut to 200 characters plus "...") |
| Server.Searcher.AppendTagged | searxng_mcp_web_server.py:137-145 | an optional line is appended with its tag exactly when there is a value to show, and nothing is appended otherwise |
| Format.ResultLinesStep | searxng_mcp_web_server.py:123-147 | the lines of the first i + 1 results are those of the first i followed by the block of result i + 1, numbered i + 1 |
| Format.ResultLinesSnoc | searxng_mcp_web_server.py:123-147 | the lines of `results + [r]` are the lines of `results` followed by the block of `r` numbered len(results)+1 |
| Format.FormattedTextLayout | searxng_mcp_web_server.py:121-149 | the text is the header alone for no results, and otherwise the header, "\n", and the blocks joined by "\n" |
| Format.TitleText | searxng_mcp_web_server.py:124 | the heading shows "No title" for a missing title, "None" for a null one, and the string itself otherwise, even an empty one |
| Format.UrlText | searxng_mcp_web_server.py:125 | the URL line shows "" for a missing URL, "None" for a null one, and the string itself otherwise |
| Format.Summary | searxng_mcp_web_server.py:126-138 | a summary exists only for string content and is never empty; its cases are stated by Format.SummaryCases |
| Format.Header | searxng_mcp_web_server.py:121 | the first line is "# ", the search type, " Results for: ", the query and a line break |
| Format.SummaryCases | searxng_mcp_web_server.py:126-138 | a result gets a summary line exactly when its content is a string that is not whitespace only; the summary is the stripped content when that has at most 200 characters, and otherwise its first 200 characters plus "...", 203 in all |
| Format.Shown | searxng_mcp_web_server.py:141-145 | a published or thumbnail line is shown exactly when the key is present with a non-empty string, and shows that string |
| Format.DecodeBlocksOfResults | searxng_mcp_web_server.py:123-147 | decoding the blocks of a result list gives back, for the i-th result, its number, title or "No title", URL, summary, date and thumbnail, and nothing else |
| Format.DecodeRender | searxng_mcp_web_server.py:134-147 | a rendered block, whatever follows it, decodes to the view it was rendered from and uses exactly its own lines |
| Format.HeadingRoundTrip | searxng_mcp_web_server.py:134 | the heading "## n. title" decodes back to n and the title |
| Strings.TrimStart | searxng_mcp_web_server.py:130 | `lstrip` returns a suffix of the input that is empty or starts with a non-whitespace character |
| Strings.TrimEnd | searxng_mcp_web_server.py:130 | `rstrip` returns a prefix of the input that is empty or ends with a non-whitespace character |
| Strings.Strip | searxng_mcp_web_server.py:130 | `strip` is no longer than its input and, when non-empty, starts and ends with a non-whitespace character |
| Strings.StripInfix | searxng_mcp_web_server.py:130 | `strip` returns the infix of the input that starts after the leading whitespace |
| Strings.StripDropsLeadingSpace | searxng_mcp_web_server.py:130 | every character `strip` drops before the infix is whitespace |
| Strings.StripDropsTrailingSpace | searxng_mcp_web_server.py:130 | every character `strip` drops after the infix is whitespace |
| Strings.StripEmptyIffBlank | searxng_mcp_web_server.py:130 | `strip` leaves nothing exactly when the input is whitespace only |
| Strings.StripIdempotent | searxng_mcp_web_server.py:130 | stripping twice is stripping once |
| Strings.TrimStartDropsSpace | searxng_mcp_web_server.py:130 | the characters `lstrip` removes are all whitespace |
| Strings.TrimEndDropsSpace | searxng_mcp_web_server.py:130 | the characters `rstrip` removes are all whitespace |
| Strings.Join | searxng_mcp_web_server.py:149 | joining no parts gives "" and joining one part gives that part; Strings.JoinCons and Strings.JoinLength state how more parts are separated |
| Strings.JoinCons | searxng_mcp_web_server.py:149 | joining a first line with at least one more puts the separator after the first line, then joins the rest |
| Strings.JoinLength | searxng_mcp_web_server.py:149 | the joined text is as long as all the parts plus one separator between each pair of neighbours |
| Strings.Digits | searxng_mcp_web_server.py:134 | the rendered result number is a non-empty string of decimal digits with no leading zero (unless the number is 0) |
| Strings.ParseDigitsOfDigits | searxng_mcp_web_server.py:134 | the rendered result number reads back as the number |
| Server.CallTool | searxng_mcp_web_server.py:206-222 | the call answers with a result exactly when the tool name is search, search_images or search_news, each answering with its own search; any other name answers independently of the backend and raises status 500, caused by a 404 "Tool <name> not found" |

## Left out

- The HTTP request, `raise_for_status()` and `response.json()` (searxng_mcp_web_server.py:80-87) are network I/O and a foreign JSON parser. They are the `Backend` parameter. Error statuses and undecodable bodies are among its `Failed` outcomes, because they are not `httpx.RequestError`s and land in the second handler.
- The 30-second client timeout is part of the backend request and is not modelled.
- The text of `str(e)` for the caught exceptions is foreign exception formatting. Backend failures carry it as an opaque message.
- Server.CallTool: the 500's detail is `str()` of the caught 404 exception. The model returns that exception (status and detail) as the cause, not its printed form.
- The FastAPI app, the `/` and `/tools` routes, the static tool catalog, uvicorn start-up, and the `PORT` and `SEARXNG_URL` environment variables are framework and configuration plumbing. The searcher's URL is a constructor argument.
- async/await and the logging calls are not modelled. The searches run as ordinary sequential methods and no log output is produced.
- `searxng_mcp_client.py` is not part of this model. It forwards tool calls over HTTP to this server and adds no logic of its own that can be stated without MCP library types.
- Params.MaxResults: argument values of other JSON types (null, numbers, lists) are not modelled. A `max_results` given as null (which Python would slice as "no limit") or as a non-integer is therefore outside the model, as is a non-string `query`.
- Format.DecodeBlocksOfResults: the round trip is over the list of output lines, not the joined text. A title, URL, summary, date or thumbnail holding a line break makes the joined text ambiguous: a single result whose title spells out a URL line and a second heading joins to the same text as two plain results.
- A `results` value that is not a list of JSON objects is not modelled. The source can still answer for one, because a limit of 0 slices it to nothing and yields the header alone. With a positive limit, `result.get` at line 124 raises inside the `try` and the answer becomes "Unexpected error: ...". The `Backend` function does not see the limit, so it cannot express this.
- Strings are sequences of Dafny `char`s, which are Unicode scalar values. A JSON `"\ud800"` escape decodes in Python to a string holding a lone surrogate, which the model cannot represent.
- Result fields holding JSON values other than strings and null (numbers, lists, objects) are not modelled. Their Python `str()` rendering and truthiness are foreign formatting.
- Server.Searcher.AppendResult: the body of the source's loop is a separate method. Its content clean-up (lines 126-132) is a further method, Server.Searcher.CleanContent, and its three `if ...: output.append(...)` steps (lines 137-145) go through Server.Searcher.AppendTagged. Together they compute the same values and append the same lines in the same order.
