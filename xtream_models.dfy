/** The provider API's wire records, reduced to the fields the mappers read. */
module XtreamModels {

  datatype Category = Category(categoryId: string, categoryName: string, parentId: int)

  datatype LiveStream = LiveStream(
    name: string,
    streamId: int,
    streamIcon: string,
    epgChannelId: string,
    categoryId: string,
    tvArchive: int,
    tvArchiveDuration: int)

  datatype VodStream = VodStream(
    name: string,
    streamId: int,
    streamIcon: string,
    rating5Based: real,
    categoryId: string,
    containerExtension: string)

  datatype VodDetails = VodDetails(
    tmdbId: string,
    name: string,
    coverBig: string,
    movieImage: string,
    releaseDate: string,
    youtubeTrailer: string,
    director: string,
    cast: string,
    plot: string,
    genre: string,
    rating5Based: real,
    duration: string)

  datatype MovieData = MovieData(streamId: int, categoryId: string, containerExtension: string)

  datatype VodInfo = VodInfo(info: VodDetails, movieData: MovieData)

  datatype Series = Series(
    name: string,
    seriesId: int,
    cover: string,
    plot: string,
    cast: string,
    director: string,
    genre: string,
    releaseDate: string,
    rating5Based: real,
    backdropPath: seq<string>,
    youtubeTrailer: string,
    categoryId: string)

  datatype SeriesDetails = SeriesDetails(
    name: string,
    cover: string,
    plot: string,
    cast: string,
    director: string,
    genre: string,
    releaseDate: string,
    rating5Based: real,
    backdropPath: seq<string>,
    youtubeTrailer: string,
    categoryId: string,
    tmdbId: string)

  datatype Season = Season(
    airDate: string,
    episodeCount: int,
    id: int,
    name: string,
    overview: string,
    posterPath: string,
    seasonNumber: int)

  datatype EpisodeInfo = EpisodeInfo(
    tmdbId: string,
    releaseDate: string,
    plot: string,
    duration: string,
    movieImage: string,
    rating: string)

  datatype Episode = Episode(
    id: string,
    episodeNum: int,
    title: string,
    containerExtension: string,
    info: EpisodeInfo,
    season: int)

  /** `episodes` is the JSON object from season key to episode list, kept in
      the order the decoder met the keys (each key once). */
  datatype SeriesInfo = SeriesInfo(
    seasons: seq<Season>,
    info: SeriesDetails,
    episodes: seq<(string, seq<Episode>)>)

  datatype EpgProgram = EpgProgram(
    id: string,
    title: string,
    lang: string,
    description: string,
    channelId: string,
    startTimestamp: int,
    stopTimestamp: int)
}
