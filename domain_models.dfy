/**
 * The in-application value types that the mappers produce and consume.
 * Kotlin `Double` ratings are `real`s that are only copied or compared
 * with 0; `Long` timestamps are `int`s.
 */
module DomainModels {
  import opened Wrappers

  datatype Channel = Channel(
    id: int,
    name: string,
    streamUrl: string,
    iconUrl: Option<string>,
    categoryId: string,
    categoryName: string,
    epgChannelId: Option<string>,
    hasArchive: bool := false,
    archiveDuration: int := 0,
    isFavorite: bool := false)

  datatype Movie = Movie(
    id: int,
    name: string,
    streamUrl: string,
    posterUrl: Option<string>,
    backdropUrl: Option<string>,
    categoryId: string,
    categoryName: string,
    rating: real := 0.0,
    year: Option<string>,
    duration: Option<string>,
    description: Option<string>,
    genre: Option<string>,
    director: Option<string>,
    cast: Option<string>,
    tmdbId: Option<string>,
    trailerUrl: Option<string>,
    isFavorite: bool := false)

  datatype TVSeries = TVSeries(
    id: int,
    name: string,
    posterUrl: Option<string>,
    backdropUrl: Option<string>,
    categoryId: string,
    categoryName: string,
    rating: real := 0.0,
    year: Option<string>,
    description: Option<string>,
    genre: Option<string>,
    director: Option<string>,
    cast: Option<string>,
    tmdbId: Option<string>,
    trailerUrl: Option<string>,
    totalSeasons: int := 0,
    totalEpisodes: int := 0,
    isFavorite: bool := false)

  datatype Season = Season(
    id: int,
    seriesId: int,
    seasonNumber: int,
    name: string,
    overview: Option<string>,
    posterUrl: Option<string>,
    episodeCount: int,
    airDate: Option<string>)

  datatype Episode = Episode(
    id: string,
    seriesId: int,
    seasonNumber: int,
    episodeNumber: int,
    title: string,
    streamUrl: string,
    overview: Option<string>,
    stillUrl: Option<string>,
    duration: Option<string>,
    airDate: Option<string>,
    rating: real := 0.0,
    tmdbId: Option<string>)

  datatype Category = Category(id: string, name: string, parentId: int := 0)

  datatype EPGProgram = EPGProgram(
    id: string,
    channelId: string,
    title: string,
    description: Option<string>,
    startTime: int,
    endTime: int,
    language: Option<string>)

  /** The closed kind of a watch-history entry. */
  datatype ContentType = LiveTV | Movie | Series
}
