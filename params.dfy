/**
 * The request normalizers of `SearXNGSearcher`: each tool maps the caller's
 * loose argument object to the fixed query-parameter map sent to the
 * backend's `/search` endpoint.
 */
module Params {
  import opened Wrappers

  /**
   * The tool arguments the server reads, each `None` when the key is absent
   * from the request body.
   */
  datatype Arguments = Arguments(
    query: Option<string>,
    categories: Option<string>,
    language: Option<string>,
    maxResults: Option<int>,
    engines: Option<string>)

  type QueryParams = map<string, string>

  const DefaultMaxResults := 10

  /** `arguments.get("max_results", 10)`, shared by all three tools. */
  function MaxResults(args: Arguments): (n: int)
    ensures args.maxResults.None? ==> n == DefaultMaxResults
    ensures args.maxResults.Some? ==> n == args.maxResults.value
  {
    args.maxResults.GetOr(DefaultMaxResults)
  }

  /** True when the caller asked for specific engines (`if engines:` on a string). */
  predicate WantsEngines(args: Arguments) {
    args.engines.Some? && args.engines.value != ""
  }

  /**
   * The parameters of a general web search: `q`, `format`, `categories` and
   * `language` always, with their defaults, and `engines` exactly when the
   * caller gave a non-empty engine list.
   */
  function SearchParams(args: Arguments): (params: QueryParams)
    ensures params.Keys == {"q", "format", "categories", "language"}
                           + (if WantsEngines(args) then {"engines"} else {})
    ensures "engines" in params <==> WantsEngines(args)
    ensures params["q"] == args.query.GetOr("")
    ensures params["format"] == "json"
    ensures params["categories"] == args.categories.GetOr("general")
    ensures params["language"] == args.language.GetOr("en")
    ensures "engines" in params ==> params["engines"] == args.engines.value
  {
    var query := args.query.GetOr("");
    var categories := args.categories.GetOr("general");
    var language := args.language.GetOr("en");
    var engines := args.engines.GetOr("");
    var params := map["q" := query, "format" := "json", "categories" := categories, "language" := language];
    if engines != "" then params["engines" := engines] else params
  }

  /**
   * The parameters of an image search: only `q`, `format` and a fixed
   * `categories` of "images"; any categories, language or engines argument
   * is ignored.
   */
  function ImageParams(args: Arguments): (params: QueryParams)
    ensures params.Keys == {"q", "format", "categories"}
    ensures params["q"] == args.query.GetOr("")
    ensures params["format"] == "json"
    ensures params["categories"] == "images"
  {
    var query := args.query.GetOr("");
    map["q" := query, "format" := "json", "categories" := "images"]
  }

  /**
   * The parameters of a news search: only `q`, `format` and a fixed
   * `categories` of "news"; any categories, language or engines argument
   * is ignored.
   */
  function NewsParams(args: Arguments): (params: QueryParams)
    ensures params.Keys == {"q", "format", "categories"}
    ensures params["q"] == args.query.GetOr("")
    ensures params["format"] == "json"
    ensures params["categories"] == "news"
  {
    var query := args.query.GetOr("");
    map["q" := query, "format" := "json", "categories" := "news"]
  }
}
