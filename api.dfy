/**
 * The API constants (QUERY_KEYS, ENDPOINTS, the image base URL) and the
 * shapes every query definition shares: request descriptions, cache keys
 * and the option records that the hooks merge by object spread.
 */
module Api {
  import opened Wrappers
  import Decimal

  const ImageBaseUrl := "https://image.tmdb.org/t/p"

  /** The defaults the request builders fill in for omitted parameters. */
  const DefaultPage := 1
  const DefaultLanguage := "en-US"

  /** JavaScript truthiness of an optional string: present and non-empty. */
  predicate IsTruthy(s: Option<string>)
  {
    s.Some? && s.value != ""
  }

  // ---------------------------------------------------------------------
  // QUERY_KEYS

  /** The query definitions, named by the field each reads from QUERY_KEYS and ENDPOINTS. */
  datatype Resource = PopularMovies | SearchMovies | MovieDetails | TopRatedMovies

  function FieldName(r: Resource): string
  {
    match r
    case PopularMovies => "POPULAR_MOVIES"
    case SearchMovies => "SEARCH_MOVIES"
    case MovieDetails => "MOVIE_DETAILS"
    case TopRatedMovies => "TOP_RATED_MOVIES"
  }

  /**
   * QUERY_KEYS[FieldName(r)]. Each defined value is its own field name;
   * QUERY_KEYS declares no TOP_RATED_MOVIES field, so that read is undefined.
   */
  function QueryKeyValue(r: Resource): (v: Option<string>)
    ensures v.None? <==> r == TopRatedMovies
    ensures v.Some? ==> v.value == FieldName(r)
  {
    match r
    case PopularMovies => Some("POPULAR_MOVIES")
    case SearchMovies => Some("SEARCH_MOVIES")
    case MovieDetails => Some("MOVIE_DETAILS")
    case TopRatedMovies => None
  }

  /** A JSON-like value in a request's parameter map or a key's record. */
  datatype Param = Str(s: string) | Num(n: int)

  /** One element of a cache key: a string, a number, a parameter record or undefined. */
  datatype KeyPart = Text(text: string) | Number(n: int) | Record(fields: map<string, Param>) | Undefined

  type QueryKey = seq<KeyPart>

  /** The first element of every key a definition builds: its QUERY_KEYS value. */
  function KeyHead(r: Resource): (k: KeyPart)
    ensures k == Undefined <==> r == TopRatedMovies
  {
    match QueryKeyValue(r)
    case Some(s) => Text(s)
    case None => Undefined
  }

  /** Keys built by different definitions differ in their first element. */
  lemma KeyHeadsDistinct(a: Resource, b: Resource)
    requires a != b
    ensures KeyHead(a) != KeyHead(b)
  {
  }

  // ---------------------------------------------------------------------
  // ENDPOINTS

  const PopularMoviesPath := "/movie/popular"
  const SearchMoviesPath := "/search/movie"

  /** ENDPOINTS.MOVIE_DETAILS(id): "/movie/" followed by the decimal rendering of id. */
  function MovieDetailsPath(id: int): (path: string)
    ensures |path| > 7 && path[..7] == "/movie/"
    ensures Decimal.ParseInt(path[7..]) == Some(id)
    ensures path[7] == '0' ==> id == 0 && |path| == 8
    ensures path[7] == '-' ==> |path| > 8 && path[8] != '0'
  {
    Decimal.ParseIntRoundTrip(id);
    var path := "/movie/" + Decimal.IntToString(id);
    assert path[7..] == Decimal.IntToString(id);
    path
  }

  /** Distinct ids give distinct detail paths. */
  lemma MovieDetailsPathInjective(a: int, b: int)
    ensures MovieDetailsPath(a) == MovieDetailsPath(b) <==> a == b
  {
  }

  /** No detail path coincides with the popular or the search endpoint. */
  lemma MovieDetailsPathIsNotAFixedEndpoint(id: int)
    ensures MovieDetailsPath(id) != PopularMoviesPath
    ensures MovieDetailsPath(id) != SearchMoviesPath
  {
  }

  // ---------------------------------------------------------------------
  // Requests and query functions

  /**
   * The single GET a query function issues: the endpoint path (None where
   * the endpoint read is undefined) and the `params` map (None when the
   * call passes no config object).
   */
  datatype Request = Request(path: Option<string>, params: Option<map<string, Param>>)

  datatype Response<D> = Response(status: int, data: D)

  /** A definition's queryFn: awaits the GET of `request` and returns the response's data field. */
  datatype QueryFn = GetData(request: Request)

  /** Running a query function against the network, given as `get`. */
  function RunQueryFn<D>(fn: QueryFn, get: Request -> Response<D>): D
  {
    get(fn.request).data
  }

  // ---------------------------------------------------------------------
  // Option records and object spread

  /** A field of an object literal: missing, present with value undefined, or present with a value. */
  datatype Prop<T> = Absent | HasUndefined | Has(value: T)

  /** `keepPreviousData` or any other placeholder a caller supplies. */
  datatype Placeholder = KeepPreviousData | PlaceholderData(name: string)

  /** The option fields the query definitions and hooks produce. */
  datatype Options = Options(
    queryKey: Prop<QueryKey>,
    queryFn: Prop<QueryFn>,
    enabled: Prop<bool>,
    placeholderData: Prop<Placeholder>)

  const NoOptions := Options(Absent, Absent, Absent, Absent)

  /** QueryConfig: the option record with queryKey and queryFn removed. */
  type QueryConfig = o: Options | o.queryKey.Absent? && o.queryFn.Absent? witness NoOptions

  /** One field of `{...earlier, ...later}`: a field later has wins. */
  function SpreadField<T>(earlier: Prop<T>, later: Prop<T>): (p: Prop<T>)
    ensures later.Absent? ==> p == earlier
    ensures !later.Absent? ==> p == later
  {
    if later.Absent? then earlier else later
  }

  /** `{...earlier, ...later}`. */
  function Spread(earlier: Options, later: Options): (o: Options)
    ensures o.queryKey == SpreadField(earlier.queryKey, later.queryKey)
    ensures o.queryFn == SpreadField(earlier.queryFn, later.queryFn)
    ensures o.enabled == SpreadField(earlier.enabled, later.enabled)
    ensures o.placeholderData == SpreadField(earlier.placeholderData, later.placeholderData)
  {
    Options(
      SpreadField(earlier.queryKey, later.queryKey),
      SpreadField(earlier.queryFn, later.queryFn),
      SpreadField(earlier.enabled, later.enabled),
      SpreadField(earlier.placeholderData, later.placeholderData))
  }

  /** Spreading a caller's QueryConfig last never replaces the key or the fetch function. */
  lemma ConfigKeepsKeyAndFn(o: Options, config: QueryConfig)
    ensures Spread(o, config).queryKey == o.queryKey
    ensures Spread(o, config).queryFn == o.queryFn
    ensures Spread(o, NoOptions) == o
  {
  }

  /**
   * Whether the query library runs the fetch: only an explicit
   * `enabled: false` disables a query; a missing or undefined field enables it.
   */
  predicate IsEnabled(o: Options)
  {
    o.enabled != Has(false)
  }
}
