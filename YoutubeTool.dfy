/** The `youtube_search` tool handler: reads `query` and `maxResults` from
    the decoded arguments, validates the query and hands both to the search
    client unchanged. `searchVideos` (the YouTube search client) is a
    parameter. */
module YoutubeTool {
  import opened JsValue

  const DefaultMaxResults := 5
  const QueryRequired := "youtube_search requires a \"query\" string"

  datatype SearchRequest = SearchRequest(query: string, maxResults: Value)

  /** What one run of the handler produced: the `searchVideos` call it made,
      if any, and what it returned or threw. */
  datatype SearchRun = SearchRun(request: Option<SearchRequest>, result: Result<Value>)

  /** The guard `!query || typeof query !== 'string'` lets through exactly
      the non-empty strings. */
  predicate IsQuery(v: Value) {
    v.Str? && v.s != ""
  }

  /** `args.maxResults || 5` */
  function MaxResults(v: Value): (m: Value)
    ensures !Truthy(v) ==> m == Num(DefaultMaxResults)
    ensures Truthy(v) ==> m == v
  {
    Or(v, Num(DefaultMaxResults))
  }

  function YoutubeSearch(args: Value, searchVideos: SearchRequest -> Result<Value>): (r: SearchRun)
    // arguments that are null or undefined throw on the first property read
    ensures Nullish(args) ==> r.request == None && r.result.Fail?
    // an invalid query throws before any search is made
    ensures !Nullish(args) && !IsQuery(Get(args, "query")) ==> r == SearchRun(None, Fail(QueryRequired))
    ensures r.request.Some? <==> !Nullish(args) && IsQuery(Get(args, "query"))
    // the query goes out verbatim, the bound defaulted, the result unchanged
    ensures r.request.Some? ==>
              && r.request.value.query == Get(args, "query").s
              && r.request.value.maxResults == MaxResults(Get(args, "maxResults"))
              && r.result == searchVideos(r.request.value)
  {
    match Member(args, "query")
    case Fail(e) => SearchRun(None, Fail(e))
    case Ok(query) =>
      var maxResults := MaxResults(Get(args, "maxResults"));
      if !Truthy(query) || !query.Str? then SearchRun(None, Fail(QueryRequired))
      else
        var request := SearchRequest(query.s, maxResults);
        SearchRun(Some(request), searchVideos(request))
  }

  /** A zero, missing or otherwise falsy `maxResults` becomes 5; any truthy
      one is passed on as given. */
  lemma MaxResultsDefault(args: Value, searchVideos: SearchRequest -> Result<Value>)
    requires !Nullish(args) && IsQuery(Get(args, "query"))
    ensures var r := YoutubeSearch(args, searchVideos);
            && r.request.Some?
            && (Get(args, "maxResults") in {Undefined, Null, Num(0), Bool(false), Str("")} ==>
                  r.request.value.maxResults == Num(DefaultMaxResults))
            && (Truthy(Get(args, "maxResults")) ==> r.request.value.maxResults == Get(args, "maxResults"))
  {
  }

  /** For any valid query the run is exactly one `searchVideos` call with
      the query and the defaulted bound, and its outcome: nothing is
      filtered or reordered. */
  lemma SearchPassesThrough(args: Value, searchVideos: SearchRequest -> Result<Value>)
    requires !Nullish(args) && IsQuery(Get(args, "query"))
    ensures var request := SearchRequest(Get(args, "query").s, MaxResults(Get(args, "maxResults")));
            YoutubeSearch(args, searchVideos) == SearchRun(Some(request), searchVideos(request))
  {
  }
}
