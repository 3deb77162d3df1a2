/**
 * The catalogue's response shapes: a subset of the catalogue's fields.
 * The declaring file (types/movies.ts) is not part of this model.
 */
module MovieTypes {
  import opened Wrappers

  datatype Movie = Movie(id: int, title: string, posterPath: Option<string>, releaseDate: string)

  /** One page of a listing: popular, top rated or search results. */
  datatype MoviesResponse = MoviesResponse(results: seq<Movie>, page: int, totalPages: int, totalResults: int)

  datatype SpokenLanguage = SpokenLanguage(englishName: string, iso6391: string, name: string)

  datatype MovieDetails = MovieDetails(
    id: int,
    title: string,
    posterPath: Option<string>,
    runtime: Option<int>,
    spokenLanguages: Option<seq<SpokenLanguage>>)
}
