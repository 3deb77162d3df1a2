# Movie catalogue client: query definitions, display helpers and home-page state

This project models, in Dafny, the deterministic core of a small React client
for a movie catalogue (the TMDB API). The core sits between the UI and its
libraries:

- **API constants** (`src/lib/utils/api.ts`): the `QUERY_KEYS` tags, the
  `ENDPOINTS` paths including the `MOVIE_DETAILS(id)` path builder, and the
  `QueryConfig` type, which removes `queryKey` and `queryFn` from the options
  a caller may pass (module `Api`).
- **Query definitions** for popular, search, movie-details and top-rated
  listings (modules `PopularMoviesQuery`, `SearchMoviesQuery`,
  `MovieDetailsQuery`, `TopRatedMoviesQuery`). Each maps caller parameters to
  a cache key, a request description and an options record.
  - A request is data: an endpoint path plus a parameter map (`Api.Request`).
  - A query function is `GetData(request)`: it issues that one GET and
    returns the response's `data` field.
  - The hooks merge option records by object spread (`Api.Spread`): a field
    that a later record has wins. Each field is modelled as absent, present
    but `undefined`, or present with a value (`Api.Prop`).
  - `getPopularMovies` and `getMovieDetails` build their parameter
    dictionary and then add `region` or `append_to_response` in place. Each
    is an imperative method proved equal to a specification function. The
    properties are proved about that function.
- **Display helpers** (`src/lib/utils/movie.ts`, module `MovieUtils`):
  - the poster URL, with a placeholder fallback;
  - the primary spoken language;
  - the runtime text `"{h}h {m}m"`. This is proved against a parser for the
    same format (`ParseRuntime`, which rejects zero-padded parts): for
    positive runtimes, parsing the text
    gives back the minutes, with a remainder in 0..59.
- **Search form** (`SearchBar.tsx`, class `SearchBarComponent.SearchBar`): the
  stored query and the calls made to `onSearch`. The submit guard trims the
  query with JavaScript's `String.prototype.trim` (module `JsString`) and
  calls back only for a non-blank query.
- **Home page** (`MoviesPage.tsx`, class `MoviesPage.HomePage`): the
  `searchQuery` and `currentTab` state cells and their handlers. The pure
  function `RenderHome` derives what the page shows: the displayed list,
  `isLoading`, `hasError`, the search header, and the empty and list blocks.

Integers are rendered in decimal as a template literal renders an integral
number (module `Decimal`). A decimal parser states what a rendering means:
distinct ids give distinct `/movie/{id}` paths.

In these places the code behaves differently from what its names or tests suggest, and the model follows the code:

- Search is enabled when the query is a non-empty string. The code does not
  trim, so `"  "` is enabled (`searchMovies.ts:39`).
- The popular key holds the caller's parameters as given, before defaults
  are filled in. So `{}` and `{page: 1}` are different keys that send the
  same request (`getPopularMovies.ts:39`).
- The movie-details query has no `enabled` gate, so id 0 is fetched.
- The top-rated definition reads `QUERY_KEYS.TOP_RATED_MOVIES` and
  `ENDPOINTS.TOP_RATED_MOVIES`, but `api.ts` declares neither.
  - At run time both reads are `undefined`. The model keeps them undefined
    (`KeyPart.Undefined`, a `None` path) and invents no strings.
  - A type check would reject these reads.
- The home page's tests at `MoviesPage.test.tsx:134-234` expect a submitted
  search to show the search header and the search results. In the code,
  `handleSearch` only stores the query and never switches tab, and "Back to
  Popular" only clears the query.
  - The model follows the code. `SearchKeepsPopularTab` and
    `ListIgnoresQueryOffSearchTab` state the consequence: on the popular
    tab, a search changes neither the list nor the header.

`formatRuntime` floors the hours but takes the remainder with JavaScript's
`%`, which keeps the sign of the dividend. A negative runtime therefore
renders with both parts negative: -5 gives `"-1h -5m"`
(`NegativeRuntimeExample`). `src/lib/utils/movie.ts:19-24` does not guard
against a negative runtime; the model records what it would render.

## Model

| member | source | states |
|---|---|---|
| `Api.QueryKeyValue` | src/lib/utils/api.ts:22-26 | each defined QUERY_KEYS value equals its own field name; the TOP_RATED_MOVIES read is undefined, and it is the only undefined one |
| `Api.KeyHead` | src/lib/utils/api.ts:22-26 | a key's first element is undefined exactly for the top-rated definition |
| `Api.KeyHeadsDistinct` | src/lib/utils/api.ts:22-26 | keys built by different definitions differ in their first element |
| `Api.MovieDetailsPath` | src/lib/utils/api.ts:31 | the path is "/movie/" followed by the standard decimal rendering of the id (no leading zeros, no "-0") that parses back to the id |
| `Api.MovieDetailsPathInjective` | src/lib/utils/api.ts:31 | two detail paths are equal iff their ids are equal |
| `Api.MovieDetailsPathIsNotAFixedEndpoint` | src/lib/utils/api.ts:29-31 | no detail path equals "/movie/popular" or "/search/movie" |
| `Decimal.IntToString` | src/lib/utils/api.ts:31 | the `${id}` rendering: non-empty, a minus sign exactly for negative values, digits elsewhere, and no zero padding: a rendering that starts with "0" is exactly "0", and a negative one never starts with "-0" |
| `Decimal.IntToStringInjective` | src/lib/utils/api.ts:31 | the `${id}` rendering of integers is injective (via the parse round trip) |
| `Decimal.ParseIntRoundTrip` | src/lib/utils/api.ts:31 | parsing the decimal rendering of any integer gives back that integer |
| `Api.Spread` | src/lib/hooks/api/tmdb/searchMovies.ts:52-56 | object spread: each field of the result is the later record's field when present, else the earlier one's |
| `Api.ConfigKeepsKeyAndFn` | src/lib/utils/api.ts:17-20 | a QueryConfig spread last never replaces queryKey or queryFn; an empty config changes nothing |
| `SearchMoviesQuery.SearchQueryParams` | src/lib/hooks/api/tmdb/searchMovies.ts:16-25 | the parameter map has exactly query, page and language; supplied values pass through, an omitted page is 1 and an omitted language is "en-US" |
| `SearchMoviesQuery.SearchRequest` | src/lib/hooks/api/tmdb/searchMovies.ts:27-29 | the GET goes to the search endpoint with that parameter map |
| `SearchMoviesQuery.SearchKey` | src/lib/hooks/api/tmdb/searchMovies.ts:34 | the key is the SEARCH_MOVIES tag followed by the query text, and nothing else |
| `SearchMoviesQuery.SearchOptions` | src/lib/hooks/api/tmdb/searchMovies.ts:32-41 | key and fetch as above; enabled iff the query is non-empty; no placeholder |
| `SearchMoviesQuery.UseSearchMovies` | src/lib/hooks/api/tmdb/searchMovies.ts:48-57 | key and fetch survive any config; enabled and placeholderData (default keepPreviousData) are overridden by the config when it has them |
| `SearchMoviesQuery.SearchKeyIsQueryOnly` | src/lib/hooks/api/tmdb/searchMovies.ts:34 | two parameter records give equal keys iff their query texts are equal, whatever page and language |
| `SearchMoviesQuery.HookEnablesNonEmptyQuery` | src/lib/hooks/api/tmdb/searchMovies.ts:39-56 | with no config, the hook's query is enabled iff the query text is non-empty |
| `SearchMoviesQuery.BlankQueryIsEnabled` | src/lib/hooks/api/tmdb/searchMovies.ts:39 | there is no trimming: "  " is enabled while "" is not |
| `SearchMoviesQuery.SearchFetchReturnsData` | src/lib/hooks/api/tmdb/searchMovies.ts:35-38 | under any config the fetch returns the data of the GET to "/search/movie" with the search parameters |
| `SearchMoviesQuery.SearchExamples` | src/lib/hooks/api/tmdb/__tests__/searchMovies.test.tsx:91-153 | the key, enabled and parameter-map cases of the definition's tests |
| `PopularMoviesQuery.PopularQueryParams` | src/lib/hooks/api/tmdb/getPopularMovies.ts:16-28 | the map has page and language (defaulted to 1 and "en-US") and has region iff region is truthy, carrying its value |
| `PopularMoviesQuery.PopularRequest` | src/lib/hooks/api/tmdb/getPopularMovies.ts:30-32 | the GET always goes to "/movie/popular" with that map |
| `PopularMoviesQuery.GetPopularMovies` | src/lib/hooks/api/tmdb/getPopularMovies.ts:16-33 | the in-place construction of the dictionary yields exactly the specified request |
| `PopularMoviesQuery.RawRecord` | src/lib/hooks/api/tmdb/getPopularMovies.ts:39 | the key record holds exactly the fields the caller supplied, each with the caller's value, before defaulting |
| `PopularMoviesQuery.PopularKey` | src/lib/hooks/api/tmdb/getPopularMovies.ts:39 | the key is the POPULAR_MOVIES tag followed by the caller's raw parameter record |
| `PopularMoviesQuery.PopularOptions` | src/lib/hooks/api/tmdb/getPopularMovies.ts:35-45 | key and fetch only: no enabled field, so always enabled, and no placeholder |
| `PopularMoviesQuery.UsePopularMovies` | src/lib/hooks/api/tmdb/getPopularMovies.ts:52-61 | omitted params become `{}`; key and fetch survive any config; placeholderData defaults to keepPreviousData and enabled comes only from the config |
| `PopularMoviesQuery.DefaultedPageSplitsTheCache` | src/lib/hooks/api/tmdb/getPopularMovies.ts:17-39 | `{}` and `{page: 1}` send identical requests under different keys |
| `PopularMoviesQuery.EmptyRegionIsDropped` | src/lib/hooks/api/tmdb/getPopularMovies.ts:26-28 | an empty region sends the same request as no region, but gives a different key |
| `PopularMoviesQuery.PopularFetchReturnsData` | src/lib/hooks/api/tmdb/getPopularMovies.ts:40-43 | under any config the fetch returns the data of the GET to "/movie/popular" with the popular parameters |
| `MovieDetailsQuery.DetailsQueryParams` | src/lib/hooks/api/tmdb/getMovieDetails.ts:12-23 | the map always has language (default "en-US") and has append_to_response iff it is truthy; no other key |
| `MovieDetailsQuery.DetailsRequest` | src/lib/hooks/api/tmdb/getMovieDetails.ts:25-27 | the GET goes to MOVIE_DETAILS(id) with that map |
| `MovieDetailsQuery.GetMovieDetails` | src/lib/hooks/api/tmdb/getMovieDetails.ts:12-28 | the in-place construction of the dictionary yields exactly the specified request |
| `MovieDetailsQuery.DetailsKey` | src/lib/hooks/api/tmdb/getMovieDetails.ts:32 | the key is the MOVIE_DETAILS tag followed by the id; language and append_to_response are left out |
| `MovieDetailsQuery.DetailsOptions` | src/lib/hooks/api/tmdb/getMovieDetails.ts:30-38 | key and fetch only: no enabled gate and no placeholder |
| `MovieDetailsQuery.UseMovieDetails` | src/lib/hooks/api/tmdb/getMovieDetails.ts:45-53 | key and fetch survive any config; enabled and placeholderData are exactly the config's |
| `MovieDetailsQuery.DetailsKeyIsIdOnly` | src/lib/hooks/api/tmdb/getMovieDetails.ts:32 | keys are equal iff the ids are equal |
| `MovieDetailsQuery.DistinctIdsDistinctRequests` | src/lib/hooks/api/tmdb/getMovieDetails.ts:25 | requests for distinct ids differ |
| `MovieDetailsQuery.MissingIdIsFetched` | src/lib/hooks/api/tmdb/getMovieDetails.ts:30-38 | the id 0 used for a missing route id is enabled and fetched from "/movie/0" |
| `MovieDetailsQuery.DetailsFetchReturnsData` | src/lib/hooks/api/tmdb/getMovieDetails.ts:33-36 | under any config the fetch returns the data of the GET to the movie's path |
| `TopRatedMoviesQuery.TopRatedRequest` | src/lib/hooks/api/tmdb/getTopRatedMovies.ts:6-8 | the GET goes to the undefined endpoint read and carries no parameter map |
| `TopRatedMoviesQuery.TopRatedKey` | src/lib/hooks/api/tmdb/getTopRatedMovies.ts:12 | the key is the one-element tuple of QUERY_KEYS.TOP_RATED_MOVIES, the same on every call |
| `TopRatedMoviesQuery.TopRatedOptions` | src/lib/hooks/api/tmdb/getTopRatedMovies.ts:10-18 | key and fetch only: always enabled, no placeholder |
| `TopRatedMoviesQuery.UseTopRatedMovies` | src/lib/hooks/api/tmdb/getTopRatedMovies.ts:24-31 | key and fetch survive any config; enabled and placeholderData are exactly the config's |
| `TopRatedMoviesQuery.TopRatedFetchReturnsData` | src/lib/hooks/api/tmdb/getTopRatedMovies.ts:13-16 | under any config the fetch returns the data of the one parameterless GET |
| `MovieUtils.BuildPosterUrl` | src/lib/utils/movie.ts:4-11 | a truthy path gives base + "/" + size + path; the placeholder is returned iff the path is null, undefined or empty |
| `MovieUtils.PosterUrlFramesPath` | src/lib/utils/movie.ts:8-9 | a poster URL starts with the image base and ends with the poster path |
| `MovieUtils.GetPrimaryLanguage` | src/lib/utils/movie.ts:13-17 | the English name of the first spoken language; "Unknown" for a missing movie, a missing list or an empty list |
| `MovieUtils.FormatRuntime` | src/lib/utils/movie.ts:19-24 | "Unknown" iff the minutes are 0, null or undefined |
| `MovieUtils.FormatRuntimeRoundTrip` | src/lib/utils/movie.ts:21-23 | for positive m the text is "{h}h {r}m" with unpadded parts, 0 <= r < 60 and h*60 + r = m |
| `MovieUtils.RuntimeTextSplits` | src/lib/utils/movie.ts:23 | a text "{h}h {r}m" whose hours part is all digits splits back at its first 'h' into exactly those hours and minutes |
| `MovieUtils.RuntimeExamples` | src/lib/utils/movie.ts:20-23 | minutes are not zero-padded: 65 gives "1h 5m", 120 gives "2h 0m" |
| `MovieUtils.PaddedRuntimeIsRejected` | src/lib/utils/movie.ts:23 | a text whose hours or minutes part is zero-padded (such as "01h 5m", "1h 05m" or "1h -0m") parses to nothing |
| `MovieUtils.NegativeRuntimeExample` | src/lib/utils/movie.ts:21-23 | floor hours with a truncated remainder: -5 gives "-1h -5m" |
| `JsString.SkipWhitespace` | src/pages/movies/components/SearchBar/SearchBar.tsx:16-17 | the index where the leading whitespace ends: every character before it (from the start position) is whitespace and the character at it, if any, is not |
| `JsString.SkipWhitespaceBack` | src/pages/movies/components/SearchBar/SearchBar.tsx:16-17 | the index where the trailing whitespace starts, never before the given lower bound: every character from it on is whitespace and the one before it, if above the bound, is not |
| `JsString.Trim` | src/pages/movies/components/SearchBar/SearchBar.tsx:16-17 | the result is the input with only its leading and trailing whitespace removed: a contiguous slice whose outside parts are all whitespace, with no whitespace at either end; it is empty iff the input is all whitespace |
| `JsString.TrimIdempotent` | src/pages/movies/components/SearchBar/SearchBar.tsx:17 | trimming twice equals trimming once |
| `SearchBarComponent.SubmittedQuery` | src/pages/movies/components/SearchBar/SearchBar.tsx:14-19 | no call iff the query is blank; otherwise one call with the trimmed, non-empty text, which has no edge whitespace |
| `SearchBarComponent.SubmittedQueryIsStable` | src/pages/movies/components/SearchBar/SearchBar.tsx:17 | the value passed to onSearch is unchanged by trimming, and submitting it again produces the same call |
| `SearchBarComponent.BlankSubmissionsMakeNoCall` | src/pages/movies/components/SearchBar/SearchBar.tsx:16 | "", "   " and other whitespace-only queries make no call |
| `SearchBarComponent.SearchBar.constructor` | src/pages/movies/components/SearchBar/SearchBar.tsx:11-12 | the stored query starts as initialQuery, defaulting to "", and no call has been made |
| `SearchBarComponent.SearchBar.Change` | src/pages/movies/components/SearchBar/SearchBar.tsx:30 | a change event replaces the stored query with the input value and makes no call |
| `SearchBarComponent.SearchBar.Submit` | src/pages/movies/components/SearchBar/SearchBar.tsx:14-19 | a non-blank query appends exactly one call with the trimmed text; a blank one appends nothing; the stored query is unchanged |
| `MoviesPage.DisplayedMovies` | src/pages/movies/MoviesPage.tsx:43-52 | the list is chosen by the tab alone: popular, search or top-rated results |
| `MoviesPage.RenderHome` | src/pages/movies/MoviesPage.tsx:41-137 | loading is the search fetch on the search tab, else popular OR top-rated fetching; error is the OR of all three; header iff search tab; empty and list blocks each need not-loading, no error and a defined list, split by length 0 versus > 0, so they are exclusive; the empty message names the query only on the search tab |
| `MoviesPage.ListIgnoresQueryOffSearchTab` | src/pages/movies/MoviesPage.tsx:43-137 | off the search tab, the list, the empty message and the missing header do not depend on the query |
| `MoviesPage.AnyErrorHidesResults` | src/pages/movies/MoviesPage.tsx:57-137 | any of the three errors shows the error block and hides the empty and list blocks on every tab |
| `MoviesPage.HomePage.constructor` | src/pages/movies/MoviesPage.tsx:11-30 | the query starts empty and the tab starts at popular |
| `MoviesPage.HomePage.HandleSearch` | src/pages/movies/MoviesPage.tsx:32-34 | sets only the query; the tab is unchanged |
| `MoviesPage.HomePage.ClearSearch` | src/pages/movies/MoviesPage.tsx:36-38 | resets the query to ""; the tab is unchanged |
| `MoviesPage.HomePage.SelectTab` | src/pages/movies/MoviesPage.tsx:76-92 | a tab click sets only the tab |
| `MoviesPage.HomePage.SearchOptions` | src/pages/movies/MoviesPage.tsx:21-23 | the page's search query is enabled iff its stored query is non-empty |
| `MoviesPage.HomePage.ListingOptions` | src/pages/movies/MoviesPage.tsx:12-28 | the popular and top-rated queries are always enabled; only the popular one keeps previous data |
| `MoviesPage.SubmittedSearchIsEnabled` | src/pages/movies/MoviesPage.tsx:21-34 | a query the search bar submits always enables the page's search query |
| `MoviesPage.SearchKeepsPopularTab` | src/pages/movies/MoviesPage.tsx:32-34 | the screens before and after a search from the popular tab are RenderHome of the popular tab with the empty and with the submitted query; the second has no search header and the same displayed list as the first |

## Left out

- The query library's engine is not modelled: caching, deduplication,
  staleness, retries (the `retry: 1` default in `src/App.tsx`), and what
  `keepPreviousData` does. The model covers the option records the core
  produces. `Api.IsEnabled` states the one library rule the properties
  need: only an explicit `enabled: false` disables a query.
- The axios client, the bearer token read from the environment and all
  HTTP I/O are not modelled. A request is an (endpoint, parameter map)
  value. The network is a function parameter `get` in the
  `...FetchReturnsData` lemmas.
- Query-hook results (`data`, `isFetching`, `error`) are inputs to
  `RenderHome`. How they evolve over time belongs to the query library.
- JSX rendering, styling, routing and the other pages are not modelled.
  Only which blocks appear and their texts are. `src/components/ui/rating.tsx`
  (floating-point star counts) and `src/lib/utils/date.ts` (locale-dependent
  date formatting) are left out.
- Numbers are modelled as unbounded integers. Fractional values, NaN, and
  JavaScript's exponent rendering of magnitudes of 10^21 and above are left
  out. This affects page numbers, ids and runtimes. NaN would come from
  `parseInt` on the details page.
- `null` and `undefined` are both `None` in optional parameters and
  optional data fields. In option records, a field set to `undefined` is
  kept apart from a missing one (`Api.Prop`).
- The `onSearch` callback is recorded as the list of values it received
  (`SearchBar.searches`). Invoking the page's `handleSearch` from it is
  not modelled as a call between the two objects.
- `@/types/movies` is not part of this model. The `POSTER_SIZE` type is a
  plain string here, and the movie records carry a subset of the
  catalogue's fields.
- `TopRatedMoviesQuery.TopRatedRequest`: its path is undefined because the
  endpoint constant does not exist. Axios's handling of an undefined URL,
  which falls back to the base URL, is not modelled.
