/**
 * The top-rated query definition and its hook
 * (src/lib/hooks/api/tmdb/getTopRatedMovies.ts). It reads
 * QUERY_KEYS.TOP_RATED_MOVIES and ENDPOINTS.TOP_RATED_MOVIES, which
 * api.ts does not declare: at run time both reads are undefined.
 */
module TopRatedMoviesQuery {
  import opened Wrappers
  import opened Api

  /** ENDPOINTS.TOP_RATED_MOVIES: undefined. */
  const TopRatedPath: Option<string> := None

  /** getTopRatedMovies: a GET with no config object, hence no parameter map. */
  function TopRatedRequest(): (req: Request)
    ensures req.path.None?
    ensures req.params.None?
  {
    Request(TopRatedPath, None)
  }

  /** The cache key: the single element QUERY_KEYS.TOP_RATED_MOVIES. */
  function TopRatedKey(): (key: QueryKey)
    ensures key == [KeyHead(TopRatedMovies)]
  {
    [KeyPart.Undefined]
  }

  /** getTopRatedMoviesQueryOptions: no enabled gate and no placeholder. */
  function TopRatedOptions(): (o: Options)
    ensures o.queryKey == Has(TopRatedKey())
    ensures o.queryFn == Has(GetData(TopRatedRequest()))
    ensures o.enabled.Absent? && IsEnabled(o)
    ensures o.placeholderData.Absent?
  {
    Options(Has(TopRatedKey()), Has(GetData(TopRatedRequest())), Absent, Absent)
  }

  /** useTopRatedMovies: `{...TopRatedOptions(), ...config}`. */
  function UseTopRatedMovies(config: QueryConfig): (o: Options)
    ensures o.queryKey == Has(TopRatedKey())
    ensures o.queryFn == Has(GetData(TopRatedRequest()))
    ensures o.enabled == config.enabled
    ensures o.placeholderData == config.placeholderData
  {
    Spread(TopRatedOptions(), config)
  }

  /** Whatever the caller's config, the fetch returns the data of the one parameterless GET. */
  lemma TopRatedFetchReturnsData<D>(config: QueryConfig, get: Request -> Response<D>)
    ensures RunQueryFn(UseTopRatedMovies(config).queryFn.value, get) == get(Request(None, None)).data
  {
  }
}
