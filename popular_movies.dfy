/** The popular-listing query definition and its hook (src/lib/hooks/api/tmdb/getPopularMovies.ts). */
module PopularMoviesQuery {
  import opened Wrappers
  import opened Api

  /** PopularMoviesParams: every field may be omitted (None). */
  datatype PopularParams = PopularParams(page: Option<int>, language: Option<string>, region: Option<string>)

  const NoParams := PopularParams(None, None, None)

  /** The `params` map getPopularMovies sends: page and language with defaults, region only when truthy. */
  function PopularQueryParams(p: PopularParams): (m: map<string, Param>)
    ensures m.Keys == {"page", "language"} + (if IsTruthy(p.region) then {"region"} else {})
    ensures m["page"] == Num(if p.page.Some? then p.page.value else DefaultPage)
    ensures m["language"] == Str(if p.language.Some? then p.language.value else DefaultLanguage)
    ensures "region" in m ==> m["region"] == Str(p.region.value)
  {
    var base := map[
      "page" := Num(if p.page.Some? then p.page.value else DefaultPage),
      "language" := Str(if p.language.Some? then p.language.value else DefaultLanguage)];
    if IsTruthy(p.region) then base["region" := Str(p.region.value)] else base
  }

  function PopularRequest(p: PopularParams): (req: Request)
    ensures req.path == Some(PopularMoviesPath)
    ensures req.params == Some(PopularQueryParams(p))
  {
    Request(Some(PopularMoviesPath), Some(PopularQueryParams(p)))
  }

  /** getPopularMovies: builds the parameter dictionary, then adds region in place when it is truthy. */
  method GetPopularMovies(p: PopularParams) returns (req: Request)
    ensures req == PopularRequest(p)
  {
    var page := DefaultPage;
    if p.page.Some? {
      page := p.page.value;
    }
    var language := DefaultLanguage;
    if p.language.Some? {
      language := p.language.value;
    }
    var queryParams := map["page" := Num(page), "language" := Str(language)];
    if p.region.Some? && p.region.value != "" {
      queryParams := queryParams["region" := Str(p.region.value)];
    }
    req := Request(Some(PopularMoviesPath), Some(queryParams));
  }

  /** The caller's params exactly as given (before defaulting), as a key record. */
  function RawRecord(p: PopularParams): (m: map<string, Param>)
    ensures "page" in m <==> p.page.Some?
    ensures "language" in m <==> p.language.Some?
    ensures "region" in m <==> p.region.Some?
    ensures m.Keys <= {"page", "language", "region"}
    ensures "page" in m ==> m["page"] == Num(p.page.value)
    ensures "language" in m ==> m["language"] == Str(p.language.value)
    ensures "region" in m ==> m["region"] == Str(p.region.value)
  {
    var withPage: map<string, Param> := if p.page.Some? then map["page" := Num(p.page.value)] else map[];
    var withLanguage := if p.language.Some? then withPage["language" := Str(p.language.value)] else withPage;
    if p.region.Some? then withLanguage["region" := Str(p.region.value)] else withLanguage
  }

  function PopularKey(p: PopularParams): (key: QueryKey)
    ensures |key| == 2 && key[0] == KeyHead(PopularMovies)
    ensures key[1] == Record(RawRecord(p))
  {
    [Text("POPULAR_MOVIES"), Record(RawRecord(p))]
  }

  /** getPopularMoviesQueryOptions: key and fetch function only, so the query is always enabled. */
  function PopularOptions(p: PopularParams): (o: Options)
    ensures o.queryKey == Has(PopularKey(p))
    ensures o.queryFn == Has(GetData(PopularRequest(p)))
    ensures o.enabled.Absent? && IsEnabled(o)
    ensures o.placeholderData.Absent?
  {
    Options(Has(PopularKey(p)), Has(GetData(PopularRequest(p))), Absent, Absent)
  }

  /** usePopularMovies: params default to `{}`, then `{placeholderData: keepPreviousData, ...options, ...config}`. */
  function UsePopularMovies(params: Option<PopularParams>, config: QueryConfig): (o: Options)
    ensures var p := if params.Some? then params.value else NoParams;
      o.queryKey == Has(PopularKey(p)) && o.queryFn == Has(GetData(PopularRequest(p)))
    ensures o.enabled == config.enabled
    ensures o.placeholderData == (if config.placeholderData.Absent? then Has(KeepPreviousData) else config.placeholderData)
  {
    var p := if params.Some? then params.value else NoParams;
    Spread(Spread(Options(Absent, Absent, Absent, Has(KeepPreviousData)), PopularOptions(p)), config)
  }

  /** `{}` and `{page: 1}` send the same request under different cache keys. */
  lemma DefaultedPageSplitsTheCache()
    ensures PopularRequest(NoParams) == PopularRequest(PopularParams(Some(1), None, None))
    ensures PopularKey(NoParams) != PopularKey(PopularParams(Some(1), None, None))
  {
  }

  /** An empty region is left out of the request but still tells keys apart. */
  lemma EmptyRegionIsDropped(p: PopularParams)
    requires p.region == Some("")
    ensures PopularRequest(p) == PopularRequest(p.(region := None))
    ensures PopularKey(p) != PopularKey(p.(region := None))
  {
  }

  /** Whatever the caller's config, the fetch returns the data of the GET to the popular endpoint. */
  lemma PopularFetchReturnsData<D>(p: PopularParams, config: QueryConfig, get: Request -> Response<D>)
    ensures RunQueryFn(UsePopularMovies(Some(p), config).queryFn.value, get)
         == get(Request(Some("/movie/popular"), Some(PopularQueryParams(p)))).data
  {
  }
}
