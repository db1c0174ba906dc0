/** The metadata API's detail records, reduced to the fields the mappers read. */
module TMDBModels {
  import opened Wrappers

  datatype TMDBGenre = TMDBGenre(id: int, name: string)

  datatype TMDBMovieDetails = TMDBMovieDetails(
    overview: Option<string>,
    posterPath: Option<string>,
    backdropPath: Option<string>,
    releaseDate: Option<string>,
    runtime: Option<int>,
    voteAverage: real,
    genres: seq<TMDBGenre>)

  datatype TMDBTVDetails = TMDBTVDetails(
    overview: Option<string>,
    posterPath: Option<string>,
    backdropPath: Option<string>,
    firstAirDate: Option<string>,
    voteAverage: real,
    genres: seq<TMDBGenre>,
    numberOfEpisodes: int,
    numberOfSeasons: int)
}
