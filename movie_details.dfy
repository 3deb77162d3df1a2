/** The single-movie query definition and its hook (src/lib/hooks/api/tmdb/getMovieDetails.ts). */
module MovieDetailsQuery {
  import opened Wrappers
  import opened Api

  /** MovieDetailsParams: the id is required; language and append_to_response may be omitted. */
  datatype DetailsParams = DetailsParams(id: int, language: Option<string>, appendToResponse: Option<string>)

  /** The `params` map getMovieDetails sends: language always, append_to_response only when truthy. */
  function DetailsQueryParams(p: DetailsParams): (m: map<string, Param>)
    ensures m.Keys == {"language"} + (if IsTruthy(p.appendToResponse) then {"append_to_response"} else {})
    ensures m["language"] == Str(if p.language.Some? then p.language.value else DefaultLanguage)
    ensures "append_to_response" in m ==> m["append_to_response"] == Str(p.appendToResponse.value)
  {
    var base := map["language" := Str(if p.language.Some? then p.language.value else DefaultLanguage)];
    if IsTruthy(p.appendToResponse) then base["append_to_response" := Str(p.appendToResponse.value)] else base
  }

  function DetailsRequest(p: DetailsParams): (req: Request)
    ensures req.path == Some(MovieDetailsPath(p.id))
    ensures req.params == Some(DetailsQueryParams(p))
  {
    Request(Some(MovieDetailsPath(p.id)), Some(DetailsQueryParams(p)))
  }

  /** getMovieDetails: builds the parameter dictionary, then adds append_to_response in place when truthy. */
  method GetMovieDetails(p: DetailsParams) returns (req: Request)
    ensures req == DetailsRequest(p)
  {
    var language := DefaultLanguage;
    if p.language.Some? {
      language := p.language.value;
    }
    var queryParams := map["language" := Str(language)];
    if p.appendToResponse.Some? && p.appendToResponse.value != "" {
      queryParams := queryParams["append_to_response" := Str(p.appendToResponse.value)];
    }
    req := Request(Some(MovieDetailsPath(p.id)), Some(queryParams));
  }

  /** The cache key: the MOVIE_DETAILS tag and the id; language and append_to_response are left out. */
  function DetailsKey(p: DetailsParams): (key: QueryKey)
    ensures |key| == 2 && key[0] == KeyHead(MovieDetails)
    ensures key[1] == Number(p.id)
  {
    [Text("MOVIE_DETAILS"), Number(p.id)]
  }

  /** getMovieDetailsQueryOptions: no enabled gate and no placeholder. */
  function DetailsOptions(p: DetailsParams): (o: Options)
    ensures o.queryKey == Has(DetailsKey(p))
    ensures o.queryFn == Has(GetData(DetailsRequest(p)))
    ensures o.enabled.Absent? && IsEnabled(o)
    ensures o.placeholderData.Absent?
  {
    Options(Has(DetailsKey(p)), Has(GetData(DetailsRequest(p))), Absent, Absent)
  }

  /** useMovieDetails: `{...DetailsOptions(params), ...config}`. */
  function UseMovieDetails(p: DetailsParams, config: QueryConfig): (o: Options)
    ensures o.queryKey == Has(DetailsKey(p))
    ensures o.queryFn == Has(GetData(DetailsRequest(p)))
    ensures o.enabled == config.enabled
    ensures o.placeholderData == config.placeholderData
  {
    Spread(DetailsOptions(p), config)
  }

  /** Keys are equal exactly when the ids are. */
  lemma DetailsKeyIsIdOnly(p1: DetailsParams, p2: DetailsParams)
    ensures DetailsKey(p1) == DetailsKey(p2) <==> p1.id == p2.id
  {
  }

  /** Requests for distinct ids go to distinct paths. */
  lemma DistinctIdsDistinctRequests(p1: DetailsParams, p2: DetailsParams)
    requires p1.id != p2.id
    ensures DetailsRequest(p1) != DetailsRequest(p2)
  {
  }

  /** The id 0 that the details page passes for a missing route id is still fetched. */
  lemma MissingIdIsFetched()
    ensures IsEnabled(UseMovieDetails(DetailsParams(0, None, None), NoOptions))
    ensures DetailsRequest(DetailsParams(0, None, None)).path == Some("/movie/0")
  {
    assert Decimal.IntToString(0) == "0";
    assert MovieDetailsPath(0) == "/movie/" + "0";
    assert "/movie/" + "0" == "/movie/0";
  }

  /** Whatever the caller's config, the fetch returns the data of the GET to the movie's path. */
  lemma DetailsFetchReturnsData<D>(p: DetailsParams, config: QueryConfig, get: Request -> Response<D>)
    ensures RunQueryFn(UseMovieDetails(p, config).queryFn.value, get)
         == get(Request(Some(MovieDetailsPath(p.id)), Some(DetailsQueryParams(p)))).data
  {
  }
}
