/** The search query definition and its hook (src/lib/hooks/api/tmdb/searchMovies.ts). */
module SearchMoviesQuery {
  import opened Wrappers
  import opened Api

  /** SearchMoviesParams: page and language may be omitted (None). */
  datatype SearchParams = SearchParams(query: string, page: Option<int>, language: Option<string>)

  /** The `params` map of searchMovies: the query, and page and language with their defaults. */
  function SearchQueryParams(p: SearchParams): (m: map<string, Param>)
    ensures m.Keys == {"query", "page", "language"}
    ensures m["query"] == Str(p.query)
    ensures p.page.Some? ==> m["page"] == Num(p.page.value)
    ensures p.page.None? ==> m["page"] == Num(DefaultPage)
    ensures p.language.Some? ==> m["language"] == Str(p.language.value)
    ensures p.language.None? ==> m["language"] == Str(DefaultLanguage)
  {
    var page := if p.page.Some? then p.page.value else DefaultPage;
    var language := if p.language.Some? then p.language.value else DefaultLanguage;
    map["query" := Str(p.query), "page" := Num(page), "language" := Str(language)]
  }

  /** The GET searchMovies issues. */
  function SearchRequest(p: SearchParams): (req: Request)
    ensures req.path == Some(SearchMoviesPath)
    ensures req.params == Some(SearchQueryParams(p))
  {
    Request(Some(SearchMoviesPath), Some(SearchQueryParams(p)))
  }

  /** The cache key: the SEARCH_MOVIES tag and the query text, nothing else. */
  function SearchKey(p: SearchParams): (key: QueryKey)
    ensures |key| == 2 && key[0] == KeyHead(SearchMovies)
    ensures key[1] == Text(p.query)
  {
    [Text("SEARCH_MOVIES"), Text(p.query)]
  }

  /** getSearchMoviesQueryOptions. */
  function SearchOptions(p: SearchParams): (o: Options)
    ensures o.queryKey == Has(SearchKey(p))
    ensures o.queryFn == Has(GetData(SearchRequest(p)))
    ensures IsEnabled(o) <==> p.query != ""
    ensures o.placeholderData.Absent?
  {
    Options(Has(SearchKey(p)), Has(GetData(SearchRequest(p))), Has(p.query != ""), Absent)
  }

  /** useSearchMovies: `{placeholderData: keepPreviousData, ...SearchOptions(params), ...config}`. */
  function UseSearchMovies(p: SearchParams, config: QueryConfig): (o: Options)
    ensures o.queryKey == Has(SearchKey(p))
    ensures o.queryFn == Has(GetData(SearchRequest(p)))
    ensures o.enabled == (if config.enabled.Absent? then Has(p.query != "") else config.enabled)
    ensures o.placeholderData == (if config.placeholderData.Absent? then Has(KeepPreviousData) else config.placeholderData)
  {
    Spread(Spread(Options(Absent, Absent, Absent, Has(KeepPreviousData)), SearchOptions(p)), config)
  }

  /** Page and language are left out of the key: keys are equal exactly when the query texts are. */
  lemma SearchKeyIsQueryOnly(p1: SearchParams, p2: SearchParams)
    ensures SearchKey(p1) == SearchKey(p2) <==> p1.query == p2.query
  {
  }

  /** With no config, the hook enables exactly the non-empty queries. */
  lemma HookEnablesNonEmptyQuery(query: string)
    ensures IsEnabled(UseSearchMovies(SearchParams(query, None, None), NoOptions)) <==> query != ""
  {
  }

  /** There is no trimming: a whitespace-only query is enabled. */
  lemma BlankQueryIsEnabled()
    ensures IsEnabled(SearchOptions(SearchParams("  ", None, None)))
    ensures !IsEnabled(SearchOptions(SearchParams("", None, None)))
  {
  }

  /** Whatever the caller's config, the fetch returns the data of the GET to the search endpoint. */
  lemma SearchFetchReturnsData<D>(p: SearchParams, config: QueryConfig, get: Request -> Response<D>)
    ensures RunQueryFn(UseSearchMovies(p, config).queryFn.value, get)
         == get(Request(Some("/search/movie"), Some(SearchQueryParams(p)))).data
  {
  }

  /** The cases the definition's own tests pin down. */
  lemma SearchExamples()
    ensures SearchKey(SearchParams("test", None, None)) == [Text("SEARCH_MOVIES"), Text("test")]
    ensures SearchOptions(SearchParams("test", None, None)).enabled == Has(true)
    ensures SearchOptions(SearchParams("", None, None)).enabled == Has(false)
    ensures SearchQueryParams(SearchParams("test query", Some(2), Some("fr-FR")))
         == map["query" := Str("test query"), "page" := Num(2), "language" := Str("fr-FR")]
    ensures SearchQueryParams(SearchParams("test query", None, None))
         == map["query" := Str("test query"), "page" := Num(1), "language" := Str("en-US")]
  {
  }
}
