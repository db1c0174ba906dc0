/**
 * Translations between provider records, domain values and table rows, and
 * the enrichment of domain values with metadata-API details. Every mapper
 * is a total function except the episode mapper, whose `id.toInt()` throws
 * on a non-numeric id: that is its precondition.
 */
module DataMappers {
  import opened Wrappers
  import opened KotlinText
  import opened DomainModels
  import opened DatabaseEntities
  import XtreamApi
  import TMDBApi
  import X = XtreamModels
  import T = TMDBModels

  /** `s.takeIf { it.isNotEmpty() }` produced `field`: null for "", `s` otherwise. */
  predicate EmptyAsNull(field: Option<string>, s: string) {
    if s == "" then field == None else field == Some(s)
  }

  /** `list.firstOrNull()` */
  function FirstOrNull(xs: seq<string>): (r: Option<string>)
    ensures r.None? <==> xs == []
    ensures r.Some? ==> r.value == xs[0]
  {
    if xs == [] then None else Some(xs[0])
  }

  // ---------------------------------------------------------------------
  // Provider records to domain values

  function LiveStreamToDomain(stream: X.LiveStream, serverUrl: string, username: string, password: string,
                              categoryName: string := ""): (c: Channel)
    ensures c.id == stream.streamId && c.name == stream.name
    ensures c.streamUrl == XtreamApi.BuildStreamUrl(serverUrl, username, password, stream.streamId, "live")
    ensures EmptyAsNull(c.iconUrl, stream.streamIcon) && EmptyAsNull(c.epgChannelId, stream.epgChannelId)
    ensures c.categoryId == stream.categoryId && c.categoryName == categoryName
    ensures c.hasArchive <==> stream.tvArchive == 1
    ensures c.archiveDuration == stream.tvArchiveDuration
    ensures !c.isFavorite
  {
    var streamUrl := XtreamApi.BuildStreamUrl(serverUrl, username, password, stream.streamId, "live");
    Channel(
      id := stream.streamId,
      name := stream.name,
      streamUrl := streamUrl,
      iconUrl := NonEmpty(stream.streamIcon),
      categoryId := stream.categoryId,
      categoryName := categoryName,
      epgChannelId := NonEmpty(stream.epgChannelId),
      hasArchive := stream.tvArchive == 1,
      archiveDuration := stream.tvArchiveDuration)
  }

  function VodStreamToDomain(stream: X.VodStream, serverUrl: string, username: string, password: string,
                             categoryName: string := ""): (m: Movie)
    ensures m.id == stream.streamId && m.name == stream.name
    ensures m.streamUrl == XtreamApi.BuildStreamUrl(serverUrl, username, password, stream.streamId, "movie",
                                                    stream.containerExtension)
    ensures EmptyAsNull(m.posterUrl, stream.streamIcon)
    ensures m.categoryId == stream.categoryId && m.categoryName == categoryName
    ensures m.rating == stream.rating5Based
    ensures m.backdropUrl == m.year == m.duration == m.description == m.genre == None
    ensures m.director == m.cast == m.tmdbId == m.trailerUrl == None
    ensures !m.isFavorite
  {
    var streamUrl := XtreamApi.BuildStreamUrl(serverUrl, username, password, stream.streamId, "movie",
                                              stream.containerExtension);
    Movie.Movie(
      id := stream.streamId,
      name := stream.name,
      streamUrl := streamUrl,
      posterUrl := NonEmpty(stream.streamIcon),
      backdropUrl := None,
      categoryId := stream.categoryId,
      categoryName := categoryName,
      rating := stream.rating5Based,
      year := None,
      duration := None,
      description := None,
      genre := None,
      director := None,
      cast := None,
      tmdbId := None,
      trailerUrl := None)
  }

  function VodInfoToDomain(vod: X.VodInfo, serverUrl: string, username: string, password: string,
                           categoryName: string := ""): (m: Movie)
    ensures m.id == vod.movieData.streamId && m.name == vod.info.name
    ensures m.streamUrl == XtreamApi.BuildStreamUrl(serverUrl, username, password, vod.movieData.streamId,
                                                    "movie", vod.movieData.containerExtension)
    ensures EmptyAsNull(m.posterUrl, vod.info.movieImage) && EmptyAsNull(m.backdropUrl, vod.info.coverBig)
    ensures m.categoryId == vod.movieData.categoryId && m.categoryName == categoryName
    ensures m.rating == vod.info.rating5Based
    ensures m.year == Some(vod.info.releaseDate) && m.duration == Some(vod.info.duration)
    ensures EmptyAsNull(m.description, vod.info.plot) && EmptyAsNull(m.genre, vod.info.genre)
    ensures EmptyAsNull(m.director, vod.info.director) && EmptyAsNull(m.cast, vod.info.cast)
    ensures EmptyAsNull(m.tmdbId, vod.info.tmdbId) && EmptyAsNull(m.trailerUrl, vod.info.youtubeTrailer)
    ensures !m.isFavorite
  {
    var streamUrl := XtreamApi.BuildStreamUrl(serverUrl, username, password, vod.movieData.streamId, "movie",
                                              vod.movieData.containerExtension);
    Movie.Movie(
      id := vod.movieData.streamId,
      name := vod.info.name,
      streamUrl := streamUrl,
      posterUrl := NonEmpty(vod.info.movieImage),
      backdropUrl := NonEmpty(vod.info.coverBig),
      categoryId := vod.movieData.categoryId,
      categoryName := categoryName,
      rating := vod.info.rating5Based,
      year := Some(vod.info.releaseDate),
      duration := Some(vod.info.duration),
      description := NonEmpty(vod.info.plot),
      genre := NonEmpty(vod.info.genre),
      director := NonEmpty(vod.info.director),
      cast := NonEmpty(vod.info.cast),
      tmdbId := NonEmpty(vod.info.tmdbId),
      trailerUrl := NonEmpty(vod.info.youtubeTrailer))
  }

  function SeriesToDomain(series: X.Series, categoryName: string := ""): (t: TVSeries)
    ensures t.id == series.seriesId && t.name == series.name
    ensures EmptyAsNull(t.posterUrl, series.cover)
    ensures t.backdropUrl == FirstOrNull(series.backdropPath)
    ensures t.categoryId == series.categoryId && t.categoryName == categoryName
    ensures t.rating == series.rating5Based && t.year == Some(series.releaseDate)
    ensures EmptyAsNull(t.description, series.plot) && EmptyAsNull(t.genre, series.genre)
    ensures EmptyAsNull(t.director, series.director) && EmptyAsNull(t.cast, series.cast)
    ensures t.tmdbId == None && EmptyAsNull(t.trailerUrl, series.youtubeTrailer)
    ensures t.totalSeasons == 0 && t.totalEpisodes == 0 && !t.isFavorite
  {
    TVSeries(
      id := series.seriesId,
      name := series.name,
      posterUrl := NonEmpty(series.cover),
      backdropUrl := FirstOrNull(series.backdropPath),
      categoryId := series.categoryId,
      categoryName := categoryName,
      rating := series.rating5Based,
      year := Some(series.releaseDate),
      description := NonEmpty(series.plot),
      genre := NonEmpty(series.genre),
      director := NonEmpty(series.director),
      cast := NonEmpty(series.cast),
      tmdbId := None,
      trailerUrl := NonEmpty(series.youtubeTrailer))
  }

  /** `episodes.values.sumOf { it.size }` */
  function EpisodeCount(buckets: seq<(string, seq<X.Episode>)>): nat {
    if buckets == [] then 0 else |buckets[0].1| + EpisodeCount(buckets[1..])
  }

  /** Every episode of every season bucket, bucket after bucket. */
  function AllEpisodes(buckets: seq<(string, seq<X.Episode>)>): seq<X.Episode> {
    if buckets == [] then [] else buckets[0].1 + AllEpisodes(buckets[1..])
  }

  /** The summed bucket sizes count exactly the episodes of all buckets. */
  lemma {:induction false} EpisodeCountIsAllEpisodes(buckets: seq<(string, seq<X.Episode>)>)
    ensures EpisodeCount(buckets) == |AllEpisodes(buckets)|
  {
    if buckets != [] {
      EpisodeCountIsAllEpisodes(buckets[1..]);
    }
  }

  /** Counting is additive over a split of the buckets. */
  lemma {:induction false} EpisodeCountAppend(a: seq<(string, seq<X.Episode>)>, b: seq<(string, seq<X.Episode>)>)
    ensures EpisodeCount(a + b) == EpisodeCount(a) + EpisodeCount(b)
  {
    if a != [] {
      assert (a + b)[0] == a[0] && (a + b)[1..] == a[1..] + b;
      EpisodeCountAppend(a[1..], b);
    } else {
      assert a + b == b;
    }
  }

  function SeriesInfoToDomain(seriesInfo: X.SeriesInfo, categoryName: string := ""): (t: TVSeries)
    ensures t.id == 0 && t.name == seriesInfo.info.name
    ensures EmptyAsNull(t.posterUrl, seriesInfo.info.cover)
    ensures t.backdropUrl == FirstOrNull(seriesInfo.info.backdropPath)
    ensures t.categoryId == seriesInfo.info.categoryId && t.categoryName == categoryName
    ensures t.rating == seriesInfo.info.rating5Based && t.year == Some(seriesInfo.info.releaseDate)
    ensures EmptyAsNull(t.description, seriesInfo.info.plot) && EmptyAsNull(t.genre, seriesInfo.info.genre)
    ensures EmptyAsNull(t.director, seriesInfo.info.director) && EmptyAsNull(t.cast, seriesInfo.info.cast)
    ensures EmptyAsNull(t.tmdbId, seriesInfo.info.tmdbId) && EmptyAsNull(t.trailerUrl, seriesInfo.info.youtubeTrailer)
    ensures t.totalSeasons == |seriesInfo.seasons|
    ensures t.totalEpisodes == |AllEpisodes(seriesInfo.episodes)|
    ensures !t.isFavorite
  {
    EpisodeCountIsAllEpisodes(seriesInfo.episodes);
    TVSeries(
      id := 0,
      name := seriesInfo.info.name,
      posterUrl := NonEmpty(seriesInfo.info.cover),
      backdropUrl := FirstOrNull(seriesInfo.info.backdropPath),
      categoryId := seriesInfo.info.categoryId,
      categoryName := categoryName,
      rating := seriesInfo.info.rating5Based,
      year := Some(seriesInfo.info.releaseDate),
      description := NonEmpty(seriesInfo.info.plot),
      genre := NonEmpty(seriesInfo.info.genre),
      director := NonEmpty(seriesInfo.info.director),
      cast := NonEmpty(seriesInfo.info.cast),
      tmdbId := NonEmpty(seriesInfo.info.tmdbId),
      trailerUrl := NonEmpty(seriesInfo.info.youtubeTrailer),
      totalSeasons := |seriesInfo.seasons|,
      totalEpisodes := EpisodeCount(seriesInfo.episodes))
  }

  function SeasonDtoToDomain(season: X.Season, seriesId: int): (s: Season)
    ensures s.id == season.id && s.seriesId == seriesId && s.seasonNumber == season.seasonNumber
    ensures s.name == season.name && s.episodeCount == season.episodeCount
    ensures EmptyAsNull(s.overview, season.overview) && EmptyAsNull(s.posterUrl, season.posterPath)
    ensures s.airDate == Some(season.airDate)
  {
    Season(
      id := season.id,
      seriesId := seriesId,
      seasonNumber := season.seasonNumber,
      name := season.name,
      overview := NonEmpty(season.overview),
      posterUrl := NonEmpty(season.posterPath),
      episodeCount := season.episodeCount,
      airDate := Some(season.airDate))
  }

  /** `id.toInt()` throws unless the id is an `Int` literal, so that is required.
      `parseDouble` stands for Kotlin's `String.toDoubleOrNull`. */
  function EpisodeDtoToDomain(episode: X.Episode, serverUrl: string, username: string, password: string,
                              seriesId: int, parseDouble: string -> Option<real>): (e: Episode)
    requires ParseInt(episode.id).Some?
    ensures e.id == episode.id && e.seriesId == seriesId
    ensures e.seasonNumber == episode.season && e.episodeNumber == episode.episodeNum && e.title == episode.title
    ensures e.streamUrl == XtreamApi.BuildStreamUrl(serverUrl, username, password, ParseInt(episode.id).value,
                                                    "series", episode.containerExtension)
    ensures EmptyAsNull(e.overview, episode.info.plot) && EmptyAsNull(e.stillUrl, episode.info.movieImage)
    ensures e.duration == Some(episode.info.duration) && e.airDate == Some(episode.info.releaseDate)
    ensures parseDouble(episode.info.rating).None? ==> e.rating == 0.0
    ensures parseDouble(episode.info.rating).Some? ==> e.rating == parseDouble(episode.info.rating).value
    ensures EmptyAsNull(e.tmdbId, episode.info.tmdbId)
  {
    var streamUrl := XtreamApi.BuildStreamUrl(serverUrl, username, password, ParseInt(episode.id).value,
                                              "series", episode.containerExtension);
    Episode(
      id := episode.id,
      seriesId := seriesId,
      seasonNumber := episode.season,
      episodeNumber := episode.episodeNum,
      title := episode.title,
      streamUrl := streamUrl,
      overview := NonEmpty(episode.info.plot),
      stillUrl := NonEmpty(episode.info.movieImage),
      duration := Some(episode.info.duration),
      airDate := Some(episode.info.releaseDate),
      rating := parseDouble(episode.info.rating).GetOr(0.0),
      tmdbId := NonEmpty(episode.info.tmdbId))
  }

  /** For an id written the way Kotlin prints an `Int`, the episode URL
      carries that very id as its file name. */
  lemma EpisodeUrlKeepsCanonicalId(episode: X.Episode, n: int, serverUrl: string, username: string,
                                   password: string, seriesId: int, parseDouble: string -> Option<real>)
    requires IsInt(n) && episode.id == IntToString(n)
    ensures ParseInt(episode.id) == Some(n)
    ensures EpisodeDtoToDomain(episode, serverUrl, username, password, seriesId, parseDouble).streamUrl
         == XtreamApi.BuildStreamUrl(serverUrl, username, password, n, "series", episode.containerExtension)
  {
    ParseIntToString(n);
  }

  function CategoryDtoToDomain(category: X.Category): (c: Category)
    ensures c.id == category.categoryId && c.name == category.categoryName && c.parentId == category.parentId
  {
    Category(id := category.categoryId, name := category.categoryName, parentId := category.parentId)
  }

  /** Provider timestamps are seconds; programs keep milliseconds in a `Long`. */
  function EpgProgramToDomain(program: X.EpgProgram): (p: EPGProgram)
    ensures p.id == program.id && p.channelId == program.channelId && p.title == program.title
    ensures EmptyAsNull(p.description, program.description) && EmptyAsNull(p.language, program.lang)
    ensures IsLong(p.startTime) && IsLong(p.endTime)
    ensures (p.startTime - 1000 * program.startTimestamp) % LONG_MODULUS == 0
    ensures (p.endTime - 1000 * program.stopTimestamp) % LONG_MODULUS == 0
  {
    EPGProgram(
      id := program.id,
      channelId := program.channelId,
      title := program.title,
      description := NonEmpty(program.description),
      startTime := ToLong(program.startTimestamp * 1000),
      endTime := ToLong(program.stopTimestamp * 1000),
      language := NonEmpty(program.lang))
  }

  /** Within the range where the product fits in a `Long` (every real-world
      timestamp), start and end are exactly 1000 times the provider's seconds. */
  lemma EpgMillisecondsExact(program: X.EpgProgram)
    requires IsLong(1000 * program.startTimestamp) && IsLong(1000 * program.stopTimestamp)
    ensures EpgProgramToDomain(program).startTime == 1000 * program.startTimestamp
    ensures EpgProgramToDomain(program).endTime == 1000 * program.stopTimestamp
  {
  }

  /** Past that range the `Long` product wraps around. */
  lemma EpgMillisecondsWrap()
    ensures var program := X.EpgProgram("", "", "", "", "", LONG_MAX / 1000 + 1, 0);
            EpgProgramToDomain(program).startTime != 1000 * program.startTimestamp
  {
  }

  // ---------------------------------------------------------------------
  // Domain values to rows

  function ChannelToEntity(channel: Channel): (e: ChannelEntity)
    ensures e.lastWatched == 0
    ensures ChannelEntityToDomain(e) == channel
  {
    ChannelEntity(
      id := channel.id,
      name := channel.name,
      streamUrl := channel.streamUrl,
      iconUrl := channel.iconUrl,
      categoryId := channel.categoryId,
      categoryName := channel.categoryName,
      epgChannelId := channel.epgChannelId,
      hasArchive := channel.hasArchive,
      archiveDuration := channel.archiveDuration,
      isFavorite := channel.isFavorite)
  }

  function MovieToEntity(movie: Movie): (e: MovieEntity)
    ensures e.lastWatched == 0
    ensures MovieEntityToDomain(e) == movie
  {
    MovieEntity(
      id := movie.id,
      name := movie.name,
      streamUrl := movie.streamUrl,
      posterUrl := movie.posterUrl,
      backdropUrl := movie.backdropUrl,
      categoryId := movie.categoryId,
      categoryName := movie.categoryName,
      rating := movie.rating,
      year := movie.year,
      duration := movie.duration,
      description := movie.description,
      genre := movie.genre,
      director := movie.director,
      cast := movie.cast,
      tmdbId := movie.tmdbId,
      trailerUrl := movie.trailerUrl,
      isFavorite := movie.isFavorite)
  }

  function TVSeriesToEntity(series: TVSeries): (e: TVSeriesEntity)
    ensures e.lastWatched == 0
    ensures TVSeriesEntityToDomain(e) == series
  {
    TVSeriesEntity(
      id := series.id,
      name := series.name,
      posterUrl := series.posterUrl,
      backdropUrl := series.backdropUrl,
      categoryId := series.categoryId,
      categoryName := series.categoryName,
      rating := series.rating,
      year := series.year,
      description := series.description,
      genre := series.genre,
      director := series.director,
      cast := series.cast,
      tmdbId := series.tmdbId,
      trailerUrl := series.trailerUrl,
      totalSeasons := series.totalSeasons,
      totalEpisodes := series.totalEpisodes,
      isFavorite := series.isFavorite)
  }

  function SeasonToEntity(season: Season): (e: SeasonEntity)
    ensures SeasonEntityToDomain(e) == season
  {
    SeasonEntity(
      id := season.id,
      seriesId := season.seriesId,
      seasonNumber := season.seasonNumber,
      name := season.name,
      overview := season.overview,
      posterUrl := season.posterUrl,
      episodeCount := season.episodeCount,
      airDate := season.airDate)
  }

  function EpisodeToEntity(episode: Episode): (e: EpisodeEntity)
    ensures EpisodeEntityToDomain(e) == episode
  {
    EpisodeEntity(
      id := episode.id,
      seriesId := episode.seriesId,
      seasonNumber := episode.seasonNumber,
      episodeNumber := episode.episodeNumber,
      title := episode.title,
      streamUrl := episode.streamUrl,
      overview := episode.overview,
      stillUrl := episode.stillUrl,
      duration := episode.duration,
      airDate := episode.airDate,
      rating := episode.rating,
      tmdbId := episode.tmdbId)
  }

  /** The category's table is shared by the three kinds; the caller names the kind. */
  function CategoryToEntity(category: Category, categoryType: string): (e: CategoryEntity)
    ensures e.categoryType == categoryType
    ensures CategoryEntityToDomain(e) == category
  {
    CategoryEntity(id := category.id, name := category.name, parentId := category.parentId, categoryType := categoryType)
  }

  function EPGProgramToEntity(program: EPGProgram): (e: EPGProgramEntity)
    ensures EPGProgramEntityToDomain(e) == program
  {
    EPGProgramEntity(
      id := program.id,
      channelId := program.channelId,
      title := program.title,
      description := program.description,
      startTime := program.startTime,
      endTime := program.endTime,
      language := program.language)
  }

  // ---------------------------------------------------------------------
  // Rows to domain values

  /** Every column but `lastWatched`, which the domain value does not carry. */
  function ChannelEntityToDomain(e: ChannelEntity): (c: Channel)
    ensures c.id == e.id && c.name == e.name && c.streamUrl == e.streamUrl && c.iconUrl == e.iconUrl
    ensures c.categoryId == e.categoryId && c.categoryName == e.categoryName && c.epgChannelId == e.epgChannelId
    ensures c.hasArchive == e.hasArchive && c.archiveDuration == e.archiveDuration && c.isFavorite == e.isFavorite
  {
    Channel(
      id := e.id,
      name := e.name,
      streamUrl := e.streamUrl,
      iconUrl := e.iconUrl,
      categoryId := e.categoryId,
      categoryName := e.categoryName,
      epgChannelId := e.epgChannelId,
      hasArchive := e.hasArchive,
      archiveDuration := e.archiveDuration,
      isFavorite := e.isFavorite)
  }

  function MovieEntityToDomain(e: MovieEntity): (m: Movie)
    ensures m.id == e.id && m.name == e.name && m.streamUrl == e.streamUrl
    ensures m.posterUrl == e.posterUrl && m.backdropUrl == e.backdropUrl
    ensures m.categoryId == e.categoryId && m.categoryName == e.categoryName && m.rating == e.rating
    ensures m.year == e.year && m.duration == e.duration && m.description == e.description && m.genre == e.genre
    ensures m.director == e.director && m.cast == e.cast && m.tmdbId == e.tmdbId && m.trailerUrl == e.trailerUrl
    ensures m.isFavorite == e.isFavorite
  {
    Movie.Movie(
      id := e.id,
      name := e.name,
      streamUrl := e.streamUrl,
      posterUrl := e.posterUrl,
      backdropUrl := e.backdropUrl,
      categoryId := e.categoryId,
      categoryName := e.categoryName,
      rating := e.rating,
      year := e.year,
      duration := e.duration,
      description := e.description,
      genre := e.genre,
      director := e.director,
      cast := e.cast,
      tmdbId := e.tmdbId,
      trailerUrl := e.trailerUrl,
      isFavorite := e.isFavorite)
  }

  function TVSeriesEntityToDomain(e: TVSeriesEntity): (t: TVSeries)
    ensures t.id == e.id && t.name == e.name && t.posterUrl == e.posterUrl && t.backdropUrl == e.backdropUrl
    ensures t.categoryId == e.categoryId && t.categoryName == e.categoryName && t.rating == e.rating
    ensures t.year == e.year && t.description == e.description && t.genre == e.genre
    ensures t.director == e.director && t.cast == e.cast && t.tmdbId == e.tmdbId && t.trailerUrl == e.trailerUrl
    ensures t.totalSeasons == e.totalSeasons && t.totalEpisodes == e.totalEpisodes && t.isFavorite == e.isFavorite
  {
    TVSeries(
      id := e.id,
      name := e.name,
      posterUrl := e.posterUrl,
      backdropUrl := e.backdropUrl,
      categoryId := e.categoryId,
      categoryName := e.categoryName,
      rating := e.rating,
      year := e.year,
      description := e.description,
      genre := e.genre,
      director := e.director,
      cast := e.cast,
      tmdbId := e.tmdbId,
      trailerUrl := e.trailerUrl,
      totalSeasons := e.totalSeasons,
      totalEpisodes := e.totalEpisodes,
      isFavorite := e.isFavorite)
  }

  function SeasonEntityToDomain(e: SeasonEntity): (s: Season)
    ensures s.id == e.id && s.seriesId == e.seriesId && s.seasonNumber == e.seasonNumber && s.name == e.name
    ensures s.overview == e.overview && s.posterUrl == e.posterUrl
    ensures s.episodeCount == e.episodeCount && s.airDate == e.airDate
  {
    Season(
      id := e.id,
      seriesId := e.seriesId,
      seasonNumber := e.seasonNumber,
      name := e.name,
      overview := e.overview,
      posterUrl := e.posterUrl,
      episodeCount := e.episodeCount,
      airDate := e.airDate)
  }

  function EpisodeEntityToDomain(e: EpisodeEntity): (episode: Episode)
    ensures episode.id == e.id && episode.seriesId == e.seriesId
    ensures episode.seasonNumber == e.seasonNumber && episode.episodeNumber == e.episodeNumber
    ensures episode.title == e.title && episode.streamUrl == e.streamUrl && episode.overview == e.overview
    ensures episode.stillUrl == e.stillUrl && episode.duration == e.duration && episode.airDate == e.airDate
    ensures episode.rating == e.rating && episode.tmdbId == e.tmdbId
  {
    Episode(
      id := e.id,
      seriesId := e.seriesId,
      seasonNumber := e.seasonNumber,
      episodeNumber := e.episodeNumber,
      title := e.title,
      streamUrl := e.streamUrl,
      overview := e.overview,
      stillUrl := e.stillUrl,
      duration := e.duration,
      airDate := e.airDate,
      rating := e.rating,
      tmdbId := e.tmdbId)
  }

  /** The row's type column is not part of the domain value. */
  function CategoryEntityToDomain(e: CategoryEntity): (c: Category)
    ensures c.id == e.id && c.name == e.name && c.parentId == e.parentId
  {
    Category(id := e.id, name := e.name, parentId := e.parentId)
  }

  function EPGProgramEntityToDomain(e: EPGProgramEntity): (p: EPGProgram)
    ensures p.id == e.id && p.channelId == e.channelId && p.title == e.title && p.description == e.description
    ensures p.startTime == e.startTime && p.endTime == e.endTime && p.language == e.language
  {
    EPGProgram(
      id := e.id,
      channelId := e.channelId,
      title := e.title,
      description := e.description,
      startTime := e.startTime,
      endTime := e.endTime,
      language := e.language)
  }

  /** A row read into the domain and written back loses only its `lastWatched` stamp. */
  lemma ContentRowRoundTrip(c: ChannelEntity, m: MovieEntity, t: TVSeriesEntity)
    ensures ChannelToEntity(ChannelEntityToDomain(c)) == c.(lastWatched := 0)
    ensures MovieToEntity(MovieEntityToDomain(m)) == m.(lastWatched := 0)
    ensures TVSeriesToEntity(TVSeriesEntityToDomain(t)) == t.(lastWatched := 0)
  {
  }

  /** Rows without a `lastWatched` column survive a read and a write unchanged. */
  lemma PlainRowRoundTrip(s: SeasonEntity, e: EpisodeEntity, c: CategoryEntity, p: EPGProgramEntity)
    ensures SeasonToEntity(SeasonEntityToDomain(s)) == s
    ensures EpisodeToEntity(EpisodeEntityToDomain(e)) == e
    ensures CategoryToEntity(CategoryEntityToDomain(c), c.categoryType) == c
    ensures EPGProgramToEntity(EPGProgramEntityToDomain(p)) == p
  {
  }

  // ---------------------------------------------------------------------
  // Metadata enrichment

  /** The genre names in the order the metadata API lists them. */
  function GenreNames(genres: seq<T.TMDBGenre>): (names: seq<string>)
    ensures |names| == |genres|
    ensures forall i :: 0 <= i < |genres| ==> names[i] == genres[i].name
  {
    seq(|genres|, i requires 0 <= i < |genres| => genres[i].name)
  }

  /** `genres.joinToString(", ") { it.name }.takeIf { it.isNotEmpty() } ?: genre`: the
      joined names replace the genre unless the list is empty or is one unnamed genre. */
  function MergedGenre(genres: seq<T.TMDBGenre>, genre: Option<string>): (r: Option<string>)
    ensures genres == [] || (|genres| == 1 && genres[0].name == "") ==> r == genre
    ensures !(genres == [] || (|genres| == 1 && genres[0].name == "")) ==> r == Some(Join(GenreNames(genres), ", "))
  {
    var joined := Join(GenreNames(genres), ", ");
    JoinIsEmpty(GenreNames(genres), ", ");
    assert GenreNames(genres) == [""] <==> |genres| == 1 && genres[0].name == "";
    NonEmpty(joined).OrElse(genre)
  }

  /** `overview?.takeIf { it.isNotEmpty() } ?: description` */
  function MergedText(incoming: Option<string>, current: Option<string>): (r: Option<string>)
    ensures incoming.Some? && incoming.value != "" ==> r == incoming
    ensures incoming.None? || incoming.value == "" ==> r == current
  {
    if incoming.Some? && incoming.value != "" then incoming else current
  }

  /** `date?.take(4) ?: year` */
  function MergedYear(date: Option<string>, year: Option<string>): (r: Option<string>)
    ensures date.Some? ==> r == Some(Take(date.value, 4))
    ensures date.Some? && |date.value| >= 4 ==> r == Some(date.value[..4])
    ensures date.Some? && |date.value| < 4 ==> r == date
    ensures date.None? ==> r == year
  {
    if date.Some? then
      assert date.value[..|date.value|] == date.value;
      Some(Take(date.value, 4))
    else
      year
  }

  /** `if (voteAverage > 0) voteAverage else rating` */
  function MergedRating(voteAverage: real, rating: real): (r: real)
    ensures voteAverage > 0.0 ==> r == voteAverage
    ensures voteAverage <= 0.0 ==> r == rating
  {
    if voteAverage > 0.0 then voteAverage else rating
  }

  /** `TMDBApi.buildXxxUrl(path) ?: url` */
  function MergedImage(url: Option<string>, current: Option<string>): (r: Option<string>)
    ensures url.Some? ==> r == url
    ensures url.None? ==> r == current
  {
    url.OrElse(current)
  }

  function EnhanceMovieWithTMDB(movie: Movie, details: T.TMDBMovieDetails): (m: Movie)
    ensures details.posterPath.Some? ==> m.posterUrl == Some(TMDBApi.IMAGE_BASE_URL + "w500" + details.posterPath.value)
    ensures details.posterPath.None? ==> m.posterUrl == movie.posterUrl
    ensures details.backdropPath.Some? ==> m.backdropUrl == Some(TMDBApi.IMAGE_BASE_URL + "w1280" + details.backdropPath.value)
    ensures details.backdropPath.None? ==> m.backdropUrl == movie.backdropUrl
    ensures m.description == MergedText(details.overview, movie.description)
    ensures m.genre == MergedGenre(details.genres, movie.genre)
    ensures m.rating == MergedRating(details.voteAverage, movie.rating)
    ensures m.year == MergedYear(details.releaseDate, movie.year)
    ensures details.runtime.Some? ==> m.duration == Some(IntToString(details.runtime.value) + " min")
    ensures details.runtime.None? ==> m.duration == movie.duration
    ensures m.(posterUrl := movie.posterUrl, backdropUrl := movie.backdropUrl, description := movie.description,
               genre := movie.genre, rating := movie.rating, year := movie.year, duration := movie.duration) == movie
  {
    movie.(
      posterUrl := MergedImage(TMDBApi.BuildPosterUrl(details.posterPath), movie.posterUrl),
      backdropUrl := MergedImage(TMDBApi.BuildBackdropUrl(details.backdropPath), movie.backdropUrl),
      description := MergedText(details.overview, movie.description),
      genre := MergedGenre(details.genres, movie.genre),
      rating := MergedRating(details.voteAverage, movie.rating),
      year := MergedYear(details.releaseDate, movie.year),
      duration := if details.runtime.Some? then Some(IntToString(details.runtime.value) + " min") else movie.duration)
  }

  function EnhanceSeriesWithTMDB(series: TVSeries, details: T.TMDBTVDetails): (t: TVSeries)
    ensures details.posterPath.Some? ==> t.posterUrl == Some(TMDBApi.IMAGE_BASE_URL + "w500" + details.posterPath.value)
    ensures details.posterPath.None? ==> t.posterUrl == series.posterUrl
    ensures details.backdropPath.Some? ==> t.backdropUrl == Some(TMDBApi.IMAGE_BASE_URL + "w1280" + details.backdropPath.value)
    ensures details.backdropPath.None? ==> t.backdropUrl == series.backdropUrl
    ensures t.description == MergedText(details.overview, series.description)
    ensures t.genre == MergedGenre(details.genres, series.genre)
    ensures t.rating == MergedRating(details.voteAverage, series.rating)
    ensures t.year == MergedYear(details.firstAirDate, series.year)
    ensures t.totalSeasons == details.numberOfSeasons && t.totalEpisodes == details.numberOfEpisodes
    ensures t.(posterUrl := series.posterUrl, backdropUrl := series.backdropUrl, description := series.description,
               genre := series.genre, rating := series.rating, year := series.year,
               totalSeasons := series.totalSeasons, totalEpisodes := series.totalEpisodes) == series
  {
    series.(
      posterUrl := MergedImage(TMDBApi.BuildPosterUrl(details.posterPath), series.posterUrl),
      backdropUrl := MergedImage(TMDBApi.BuildBackdropUrl(details.backdropPath), series.backdropUrl),
      description := MergedText(details.overview, series.description),
      genre := MergedGenre(details.genres, series.genre),
      rating := MergedRating(details.voteAverage, series.rating),
      year := MergedYear(details.firstAirDate, series.year),
      totalSeasons := details.numberOfSeasons,
      totalEpisodes := details.numberOfEpisodes)
  }

  /** Enriching twice with the same details changes nothing the first pass did not. */
  lemma EnhanceIdempotent(movie: Movie, m: T.TMDBMovieDetails, series: TVSeries, t: T.TMDBTVDetails)
    ensures EnhanceMovieWithTMDB(EnhanceMovieWithTMDB(movie, m), m) == EnhanceMovieWithTMDB(movie, m)
    ensures EnhanceSeriesWithTMDB(EnhanceSeriesWithTMDB(series, t), t) == EnhanceSeriesWithTMDB(series, t)
  {
  }

  /** Details that carry nothing (no paths, no text, no genres, no vote) leave a movie as it was. */
  lemma EnhanceWithNothingKeepsMovie(movie: Movie, details: T.TMDBMovieDetails)
    requires details.posterPath.None? && details.backdropPath.None? && details.overview.None?
    requires details.releaseDate.None? && details.runtime.None?
    requires details.genres == [] && details.voteAverage <= 0.0
    ensures EnhanceMovieWithTMDB(movie, details) == movie
  {
  }
}
