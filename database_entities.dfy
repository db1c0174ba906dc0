/**
 * Rows of the eleven tables, with the column defaults of their Kotlin
 * declarations, and the converter that stores a ContentType as text.
 * Defaults that read the clock (`System.currentTimeMillis()`) have no
 * default here: the caller passes the time.
 */
module DatabaseEntities {
  import opened Wrappers
  import opened DomainModels

  datatype ChannelEntity = ChannelEntity(
    id: int,
    name: string,
    streamUrl: string,
    iconUrl: Option<string>,
    categoryId: string,
    categoryName: string,
    epgChannelId: Option<string>,
    hasArchive: bool := false,
    archiveDuration: int := 0,
    isFavorite: bool := false,
    lastWatched: int := 0)

  datatype MovieEntity = MovieEntity(
    id: int,
    name: string,
    streamUrl: string,
    posterUrl: Option<string>,
    backdropUrl: Option<string>,
    categoryId: string,
    categoryName: string,
    rating: real := 0.0,
    year: Option<string>,
    duration: Option<string>,
    description: Option<string>,
    genre: Option<string>,
    director: Option<string>,
    cast: Option<string>,
    tmdbId: Option<string>,
    trailerUrl: Option<string>,
    isFavorite: bool := false,
    lastWatched: int := 0)

  datatype TVSeriesEntity = TVSeriesEntity(
    id: int,
    name: string,
    posterUrl: Option<string>,
    backdropUrl: Option<string>,
    categoryId: string,
    categoryName: string,
    rating: real := 0.0,
    year: Option<string>,
    description: Option<string>,
    genre: Option<string>,
    director: Option<string>,
    cast: Option<string>,
    tmdbId: Option<string>,
    trailerUrl: Option<string>,
    totalSeasons: int := 0,
    totalEpisodes: int := 0,
    isFavorite: bool := false,
    lastWatched: int := 0)

  datatype SeasonEntity = SeasonEntity(
    id: int,
    seriesId: int,
    seasonNumber: int,
    name: string,
    overview: Option<string>,
    posterUrl: Option<string>,
    episodeCount: int,
    airDate: Option<string>)

  datatype EpisodeEntity = EpisodeEntity(
    id: string,
    seriesId: int,
    seasonNumber: int,
    episodeNumber: int,
    title: string,
    streamUrl: string,
    overview: Option<string>,
    stillUrl: Option<string>,
    duration: Option<string>,
    airDate: Option<string>,
    rating: real := 0.0,
    tmdbId: Option<string>)

  /** `type` is one of "live", "vod", "series" by convention; nothing enforces it. */
  datatype CategoryEntity = CategoryEntity(id: string, name: string, parentId: int := 0, categoryType: string)

  /** Keyed by its own `id`; `contentType` is "channel", "movie" or "series" by convention. */
  datatype FavoriteEntity = FavoriteEntity(
    id: string,
    contentId: string,
    contentType: string,
    title: string,
    posterUrl: Option<string>,
    addedAt: int)

  datatype WatchHistoryEntity = WatchHistoryEntity(
    id: string,
    contentId: string,
    contentType: ContentType,
    title: string,
    posterUrl: Option<string>,
    lastWatchedPosition: int,
    duration: int,
    lastWatchedAt: int)

  datatype EPGProgramEntity = EPGProgramEntity(
    id: string,
    channelId: string,
    title: string,
    description: Option<string>,
    startTime: int,
    endTime: int,
    language: Option<string>)

  /** The singleton settings row; `blockedCategories` holds a JSON array as text. */
  datatype UserSettingsEntity = UserSettingsEntity(
    id: int := 1,
    theme: string := "SYSTEM",
    playbackQuality: string := "Auto",
    autoPlay: bool := true,
    showSubtitles: bool := false,
    subtitleSize: string := "MEDIUM",
    parentalControlEnabled: bool := false,
    parentalControlPin: Option<string> := None,
    blockedCategories: string := "[]",
    maxRating: Option<string> := None,
    tmdbApiKey: Option<string> := None)

  /** The singleton credentials row. */
  datatype UserCredentialsEntity = UserCredentialsEntity(
    id: int := 1,
    serverUrl: string,
    username: string,
    password: string,
    port: string := "80",
    lastLogin: int)

  /** A settings row built with every default. */
  lemma UserSettingsDefaults()
    ensures var s := UserSettingsEntity();
            && s.id == 1 && s.theme == "SYSTEM" && s.playbackQuality == "Auto"
            && s.autoPlay && !s.showSubtitles && s.subtitleSize == "MEDIUM"
            && !s.parentalControlEnabled && s.parentalControlPin == None
            && s.blockedCategories == "[]" && s.maxRating == None && s.tmdbApiKey == None
  {
  }

  /** A credentials row built from server, user, password and login time. */
  lemma UserCredentialsDefaults(serverUrl: string, username: string, password: string, lastLogin: int)
    ensures var c := UserCredentialsEntity(serverUrl := serverUrl, username := username,
                                           password := password, lastLogin := lastLogin);
            c.id == 1 && c.port == "80"
  {
  }

  /** Channel, movie and series rows start out not favourite and never watched. */
  lemma ContentEntityDefaults(c: ChannelEntity, m: MovieEntity, t: TVSeriesEntity)
    ensures var c' := ChannelEntity(c.id, c.name, c.streamUrl, c.iconUrl, c.categoryId, c.categoryName, c.epgChannelId);
            !c'.hasArchive && c'.archiveDuration == 0 && !c'.isFavorite && c'.lastWatched == 0
    ensures var m' := MovieEntity(m.id, m.name, m.streamUrl, m.posterUrl, m.backdropUrl, m.categoryId, m.categoryName,
                                  year := m.year, duration := m.duration, description := m.description,
                                  genre := m.genre, director := m.director, cast := m.cast,
                                  tmdbId := m.tmdbId, trailerUrl := m.trailerUrl);
            m'.rating == 0.0 && !m'.isFavorite && m'.lastWatched == 0
    ensures var t' := TVSeriesEntity(t.id, t.name, t.posterUrl, t.backdropUrl, t.categoryId, t.categoryName,
                                     year := t.year, description := t.description, genre := t.genre,
                                     director := t.director, cast := t.cast, tmdbId := t.tmdbId,
                                     trailerUrl := t.trailerUrl);
            t'.rating == 0.0 && t'.totalSeasons == 0 && t'.totalEpisodes == 0 && !t'.isFavorite && t'.lastWatched == 0
  {
  }

  // ---------------------------------------------------------------------
  // ContentTypeConverter

  /** How a ContentType column is written. */
  function FromContentType(contentType: ContentType): (s: string)
    ensures s == "LiveTV" || s == "Movie" || s == "Series"
  {
    match contentType
    case LiveTV => "LiveTV"
    case Movie => "Movie"
    case Series => "Series"
  }

  /** How a ContentType column is read back; unknown text reads as LiveTV. */
  function ToContentType(s: string): (contentType: ContentType)
    ensures s != "LiveTV" && s != "Movie" && s != "Series" ==> contentType == LiveTV
  {
    match s
    case "LiveTV" => LiveTV
    case "Movie" => ContentType.Movie
    case "Series" => ContentType.Series
    case _ => LiveTV
  }

  /** Every kind survives a write and a read. */
  lemma ContentTypeRoundTrip(contentType: ContentType)
    ensures ToContentType(FromContentType(contentType)) == contentType
  {
  }

  /** Distinct kinds are written as distinct text. */
  lemma FromContentTypeInjective(a: ContentType, b: ContentType)
    requires FromContentType(a) == FromContentType(b)
    ensures a == b
  {
    ContentTypeRoundTrip(a);
    ContentTypeRoundTrip(b);
  }

  /** Reading then writing gives the text back exactly when it is one of the three literals. */
  lemma StoredTextRoundTrip(s: string)
    ensures FromContentType(ToContentType(s)) == s <==> s == "LiveTV" || s == "Movie" || s == "Series"
  {
  }
}
