/**
 * The home page (src/pages/movies/MoviesPage.tsx): its two state cells,
 * the handlers that update them, and the pure derivation of what the
 * page shows from them and from the three queries' states.
 */
module MoviesPage {
  import opened Wrappers
  import opened Api
  import opened MovieTypes
  import SearchMoviesQuery
  import PopularMoviesQuery
  import TopRatedMoviesQuery
  import SearchBarComponent

  /** The values currentTab takes: "popular", "search" and "top_rated". */
  datatype Tab = Popular | Search | TopRated

  /** What a query hook returns that the page reads: data, isFetching and whether error is set. */
  datatype QueryState = QueryState(data: Option<MoviesResponse>, isFetching: bool, failed: bool)

  /** `state.data?.results`. */
  function Results(state: QueryState): Option<seq<Movie>>
  {
    if state.data.Some? then Some(state.data.value.results) else None
  }

  /** The `movies` memo: the results of the query the current tab names. */
  function DisplayedMovies(tab: Tab, popular: QueryState, search: QueryState, topRated: QueryState): (movies: Option<seq<Movie>>)
    ensures tab == Popular ==> movies == Results(popular)
    ensures tab == Search ==> movies == Results(search)
    ensures tab == TopRated ==> movies == Results(topRated)
  {
    match tab
    case Popular => Results(popular)
    case Search => Results(search)
    case TopRated => Results(topRated)
  }

  /** What the page shows below the tab headers; None means the block is not rendered. */
  datatype Screen = Screen(
    searchHeader: Option<string>,
    loading: bool,
    error: bool,
    emptyMessage: Option<string>,
    movieList: Option<seq<Movie>>)

  const NoPopularMessage := "No popular movies available right now."

  function Quoted(s: string): string
  {
    "\"" + s + "\""
  }

  /** The page's derivation of isLoading, hasError and the four conditional blocks. */
  function RenderHome(tab: Tab, searchQuery: string, popular: QueryState, search: QueryState, topRated: QueryState): (screen: Screen)
    ensures screen.loading == (if tab == Search then search.isFetching else popular.isFetching || topRated.isFetching)
    ensures screen.error == (popular.failed || search.failed || topRated.failed)
    ensures screen.searchHeader.Some? <==> tab == Search
    ensures screen.searchHeader.Some? ==> screen.searchHeader.value == "Search Results for " + Quoted(searchQuery)
    ensures screen.emptyMessage.Some?
        <==> !screen.loading && !screen.error && DisplayedMovies(tab, popular, search, topRated) == Some([])
    ensures screen.emptyMessage.Some? ==>
      screen.emptyMessage.value == (if tab == Search then "No results found for " + Quoted(searchQuery) else NoPopularMessage)
    ensures screen.movieList.Some?
        <==> !screen.loading && !screen.error && DisplayedMovies(tab, popular, search, topRated).Some?
             && |DisplayedMovies(tab, popular, search, topRated).value| > 0
    ensures screen.movieList.Some? ==> screen.movieList == DisplayedMovies(tab, popular, search, topRated)
    ensures !(screen.emptyMessage.Some? && screen.movieList.Some?)
  {
    var isSearching := tab == Search;
    var movies := DisplayedMovies(tab, popular, search, topRated);
    var isLoading := if isSearching then search.isFetching else popular.isFetching || topRated.isFetching;
    var hasError := popular.failed || search.failed || topRated.failed;
    var ready := !isLoading && !hasError && movies.Some?;
    Screen(
      if isSearching then Some("Search Results for " + Quoted(searchQuery)) else None,
      isLoading,
      hasError,
      if ready && |movies.value| == 0 then
        Some(if isSearching then "No results found for " + Quoted(searchQuery) else NoPopularMessage)
      else None,
      if ready && |movies.value| > 0 then movies else None)
  }

  /** Off the search tab the list shown does not depend on the search query. */
  lemma ListIgnoresQueryOffSearchTab(tab: Tab, q1: string, q2: string, popular: QueryState, search: QueryState, topRated: QueryState)
    requires tab != Search
    ensures RenderHome(tab, q1, popular, search, topRated).movieList == RenderHome(tab, q2, popular, search, topRated).movieList
    ensures RenderHome(tab, q1, popular, search, topRated).emptyMessage == RenderHome(tab, q2, popular, search, topRated).emptyMessage
    ensures RenderHome(tab, q1, popular, search, topRated).searchHeader.None?
  {
  }

  /** Any query's error shows the error block and hides both the empty block and the list, on every tab. */
  lemma AnyErrorHidesResults(tab: Tab, query: string, popular: QueryState, search: QueryState, topRated: QueryState)
    requires popular.failed || search.failed || topRated.failed
    ensures var screen := RenderHome(tab, query, popular, search, topRated);
      screen.error && screen.emptyMessage.None? && screen.movieList.None?
  {
  }

  /** The page's two state cells. */
  class HomePage {
    var searchQuery: string
    var currentTab: Tab

    constructor ()
      ensures searchQuery == "" && currentTab == Popular
    {
      searchQuery := "";
      currentTab := Popular;
    }

    /** handleSearch: stores the submitted query; the tab stays as it is. */
    method HandleSearch(query: string)
      modifies this`searchQuery
      ensures searchQuery == query
      ensures currentTab == old(currentTab)
    {
      searchQuery := query;
    }

    /** clearSearch ("Back to Popular"): resets the query; the tab stays as it is. */
    method ClearSearch()
      modifies this`searchQuery
      ensures searchQuery == ""
      ensures currentTab == old(currentTab)
    {
      searchQuery := "";
    }

    /** The three tab headers' click handlers. */
    method SelectTab(tab: Tab)
      modifies this`currentTab
      ensures currentTab == tab
      ensures searchQuery == old(searchQuery)
    {
      currentTab := tab;
    }

    /** The options of `useSearchMovies({params: {query: searchQuery}})`. */
    function SearchOptions(): (o: Options)
      reads this
      ensures IsEnabled(o) <==> searchQuery != ""
    {
      SearchMoviesQuery.UseSearchMovies(SearchMoviesQuery.SearchParams(searchQuery, None, None), NoOptions)
    }

    /** The options of `usePopularMovies()` and `useTopRatedMovies({})`: both always enabled. */
    function ListingOptions(): (o: (Options, Options))
      ensures IsEnabled(o.0) && IsEnabled(o.1)
      ensures o.0.placeholderData == Has(KeepPreviousData) && o.1.placeholderData.Absent?
    {
      (PopularMoviesQuery.UsePopularMovies(None, NoOptions), TopRatedMoviesQuery.UseTopRatedMovies(NoOptions))
    }

    function Render(popular: QueryState, search: QueryState, topRated: QueryState): Screen
      reads this
    {
      RenderHome(currentTab, searchQuery, popular, search, topRated)
    }
  }

  /** A query the search bar submits always enables the search. */
  lemma SubmittedSearchIsEnabled(typed: string, query: string)
    requires SearchBarComponent.SubmittedQuery(typed) == Some(query)
    ensures IsEnabled(SearchMoviesQuery.UseSearchMovies(SearchMoviesQuery.SearchParams(query, None, None), NoOptions))
  {
  }

  /**
   * A search submitted from the popular tab keeps the popular tab and its
   * list: handleSearch never switches to the search tab.
   */
  method SearchKeepsPopularTab(query: string, popular: QueryState, search: QueryState, topRated: QueryState)
    returns (before: Screen, after: Screen)
    ensures before == RenderHome(Popular, "", popular, search, topRated)
    ensures after == RenderHome(Popular, query, popular, search, topRated)
    ensures after.searchHeader.None?
    ensures after.movieList == before.movieList
  {
    var page := new HomePage();
    before := page.Render(popular, search, topRated);
    page.HandleSearch(query);
    after := page.Render(popular, search, topRated);
    ListIgnoresQueryOffSearchTab(Popular, "", query, popular, search, topRated);
  }
}
