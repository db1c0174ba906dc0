/**
 * The data-access objects: each holds one table as a map from primary key
 * to row and answers the queries of its interface. Reads are specified by
 * the rows they must return (see Tables.IsSelection); writes by the new
 * table as a function of the old one.
 */
module IPTVDao {
  import opened Wrappers
  import opened KotlinText
  import opened DomainModels
  import opened DatabaseEntities
  import opened Tables
  import DataMappers

  // ---------------------------------------------------------------------
  // Primary keys, filters and orders of the queries

  function ChannelId(c: ChannelEntity): int { c.id }
  function MovieId(m: MovieEntity): int { m.id }
  function SeriesId(s: TVSeriesEntity): int { s.id }
  function SeasonId(s: SeasonEntity): int { s.id }
  function EpisodeId(e: EpisodeEntity): string { e.id }
  function CategoryId(c: CategoryEntity): string { c.id }
  function FavoriteId(f: FavoriteEntity): string { f.id }
  function HistoryId(h: WatchHistoryEntity): string { h.id }
  function ProgramId(p: EPGProgramEntity): string { p.id }

  function AnyChannel(c: ChannelEntity): bool { true }
  function ChannelInCategory(categoryId: string): ChannelEntity -> bool { (c: ChannelEntity) => c.categoryId == categoryId }
  function FavoriteChannel(c: ChannelEntity): bool { c.isFavorite }
  /** `name LIKE '%' || :query || '%'`, read as a plain substring test. */
  function ChannelNameHas(query: string): ChannelEntity -> bool { (c: ChannelEntity) => Contains(c.name, query) }
  /** `ORDER BY name ASC` */
  function ChannelByName(a: ChannelEntity, b: ChannelEntity): bool { StrLe(a.name, b.name) }
  /** `ORDER BY lastWatched DESC` */
  function ChannelByRecency(a: ChannelEntity, b: ChannelEntity): bool { a.lastWatched >= b.lastWatched }

  function AnyMovie(m: MovieEntity): bool { true }
  function MovieInCategory(categoryId: string): MovieEntity -> bool { (m: MovieEntity) => m.categoryId == categoryId }
  function FavoriteMovie(m: MovieEntity): bool { m.isFavorite }
  function MovieNameHas(query: string): MovieEntity -> bool { (m: MovieEntity) => Contains(m.name, query) }
  /** `rating >= 7.0` */
  function FeaturedMovie(m: MovieEntity): bool { m.rating >= 7.0 }
  function MovieByName(a: MovieEntity, b: MovieEntity): bool { StrLe(a.name, b.name) }
  function MovieByRecency(a: MovieEntity, b: MovieEntity): bool { a.lastWatched >= b.lastWatched }
  /** `ORDER BY rating DESC` */
  function MovieByRating(a: MovieEntity, b: MovieEntity): bool { a.rating >= b.rating }

  function AnySeries(s: TVSeriesEntity): bool { true }
  function SeriesInCategory(categoryId: string): TVSeriesEntity -> bool { (s: TVSeriesEntity) => s.categoryId == categoryId }
  function FavoriteSeries(s: TVSeriesEntity): bool { s.isFavorite }
  function SeriesNameHas(query: string): TVSeriesEntity -> bool { (s: TVSeriesEntity) => Contains(s.name, query) }
  function SeriesByName(a: TVSeriesEntity, b: TVSeriesEntity): bool { StrLe(a.name, b.name) }
  function SeriesByRecency(a: TVSeriesEntity, b: TVSeriesEntity): bool { a.lastWatched >= b.lastWatched }

  function SeasonOf(seriesId: int): SeasonEntity -> bool { (s: SeasonEntity) => s.seriesId == seriesId }
  function SeasonByNumber(a: SeasonEntity, b: SeasonEntity): bool { a.seasonNumber <= b.seasonNumber }

  function EpisodeOf(seriesId: int): EpisodeEntity -> bool { (e: EpisodeEntity) => e.seriesId == seriesId }
  function EpisodeOfSeason(seriesId: int, seasonNumber: int): EpisodeEntity -> bool {
    (e: EpisodeEntity) => e.seriesId == seriesId && e.seasonNumber == seasonNumber
  }
  function EpisodeByNumber(a: EpisodeEntity, b: EpisodeEntity): bool { a.episodeNumber <= b.episodeNumber }
  /** `ORDER BY seasonNumber ASC, episodeNumber ASC` */
  function EpisodeBySeasonThenNumber(a: EpisodeEntity, b: EpisodeEntity): bool {
    a.seasonNumber < b.seasonNumber || (a.seasonNumber == b.seasonNumber && a.episodeNumber <= b.episodeNumber)
  }

  function AnyCategory(c: CategoryEntity): bool { true }
  function CategoryOfType(categoryType: string): CategoryEntity -> bool { (c: CategoryEntity) => c.categoryType == categoryType }
  function CategoryByName(a: CategoryEntity, b: CategoryEntity): bool { StrLe(a.name, b.name) }

  function AnyFavorite(f: FavoriteEntity): bool { true }
  function FavoriteOfType(contentType: string): FavoriteEntity -> bool { (f: FavoriteEntity) => f.contentType == contentType }
  function FavoriteFor(contentId: string, contentType: string): FavoriteEntity -> bool {
    (f: FavoriteEntity) => f.contentId == contentId && f.contentType == contentType
  }
  /** `ORDER BY addedAt DESC` */
  function FavoriteByNewest(a: FavoriteEntity, b: FavoriteEntity): bool { a.addedAt >= b.addedAt }

  function AnyHistory(h: WatchHistoryEntity): bool { true }
  /** `contentType = :contentType` compares the converter's stored text with the argument. */
  function HistoryOfType(contentType: string): WatchHistoryEntity -> bool {
    (h: WatchHistoryEntity) => FromContentType(h.contentType) == contentType
  }
  function HistoryFor(contentId: string): WatchHistoryEntity -> bool { (h: WatchHistoryEntity) => h.contentId == contentId }
  function HistoryOlderThan(timestamp: int): WatchHistoryEntity -> bool { (h: WatchHistoryEntity) => h.lastWatchedAt < timestamp }
  /** `ORDER BY lastWatchedAt DESC` */
  function HistoryByNewest(a: WatchHistoryEntity, b: WatchHistoryEntity): bool { a.lastWatchedAt >= b.lastWatchedAt }

  function ProgramOf(channelId: string): EPGProgramEntity -> bool { (p: EPGProgramEntity) => p.channelId == channelId }
  function ProgramWithin(channelId: string, startTime: int, endTime: int): EPGProgramEntity -> bool {
    (p: EPGProgramEntity) => p.channelId == channelId && p.startTime >= startTime && p.endTime <= endTime
  }
  function ProgramAiringAt(currentTime: int): EPGProgramEntity -> bool {
    (p: EPGProgramEntity) => p.startTime <= currentTime && p.endTime >= currentTime
  }
  function ProgramEndedBefore(timestamp: int): EPGProgramEntity -> bool { (p: EPGProgramEntity) => p.endTime < timestamp }
  /** `ORDER BY startTime ASC` */
  function ProgramByStart(a: EPGProgramEntity, b: EPGProgramEntity): bool { a.startTime <= b.startTime }
  /** No ORDER BY: any order will do. */
  function ProgramInAnyOrder(a: EPGProgramEntity, b: EPGProgramEntity): bool { true }

  /** Ordering by a name column is a total preorder: the byte order of the text. */
  lemma NameOrdersAreTotal()
    ensures TotalPreorder(ChannelByName) && TotalPreorder(MovieByName)
    ensures TotalPreorder(SeriesByName) && TotalPreorder(CategoryByName)
  {
    forall a: string, b: string
      ensures StrLe(a, b) || StrLe(b, a)
    {
      StrLeTotal(a, b);
    }
    forall a: string, b: string, c: string | StrLe(a, b) && StrLe(b, c)
      ensures StrLe(a, c)
    {
      StrLeTransitive(a, b, c);
    }
  }

  /** The orders on numeric columns are total preorders too. */
  lemma NumericOrdersAreTotal()
    ensures TotalPreorder(ChannelByRecency) && TotalPreorder(MovieByRecency) && TotalPreorder(SeriesByRecency)
    ensures TotalPreorder(MovieByRating) && TotalPreorder(SeasonByNumber) && TotalPreorder(EpisodeByNumber)
    ensures TotalPreorder(EpisodeBySeasonThenNumber) && TotalPreorder(FavoriteByNewest)
    ensures TotalPreorder(HistoryByNewest) && TotalPreorder(ProgramByStart) && TotalPreorder(ProgramInAnyOrder)
  {
  }

  // ---------------------------------------------------------------------
  // ChannelDao

  class ChannelDao {
    var rows: map<int, ChannelEntity>

    ghost predicate Valid()
      reads this
    {
      Keyed(rows, ChannelId)
    }

    constructor ()
      ensures Valid() && rows == map[]
    {
      rows := map[];
    }

    method GetAllChannels() returns (r: seq<ChannelEntity>)
      requires Valid()
      ensures IsSelection(rows, ChannelId, AnyChannel, ChannelByName, r)
    {
      NameOrdersAreTotal();
      r := Select(rows, ChannelId, AnyChannel, ChannelByName);
    }

    method GetChannelsByCategory(categoryId: string) returns (r: seq<ChannelEntity>)
      requires Valid()
      ensures IsSelection(rows, ChannelId, ChannelInCategory(categoryId), ChannelByName, r)
    {
      NameOrdersAreTotal();
      r := Select(rows, ChannelId, ChannelInCategory(categoryId), ChannelByName);
    }

    method GetFavoriteChannels() returns (r: seq<ChannelEntity>)
      requires Valid()
      ensures IsSelection(rows, ChannelId, FavoriteChannel, ChannelByName, r)
    {
      NameOrdersAreTotal();
      r := Select(rows, ChannelId, FavoriteChannel, ChannelByName);
    }

    method SearchChannels(query: string) returns (r: seq<ChannelEntity>)
      requires Valid()
      ensures IsSelection(rows, ChannelId, ChannelNameHas(query), ChannelByName, r)
    {
      NameOrdersAreTotal();
      r := Select(rows, ChannelId, ChannelNameHas(query), ChannelByName);
    }

    function GetChannelById(id: int): (r: Option<ChannelEntity>)
      requires Valid()
      reads this
      ensures r.None? <==> id !in rows
      ensures r.Some? ==> r.value == rows[id] && r.value.id == id
    {
      Lookup(rows, ChannelId, id)
    }

    method GetRecentChannels(limit: int := 10) returns (r: seq<ChannelEntity>)
      requires Valid()
      ensures IsLimitedSelection(rows, ChannelId, AnyChannel, ChannelByRecency, limit, r)
    {
      NumericOrdersAreTotal();
      r := SelectLimited(rows, ChannelId, AnyChannel, ChannelByRecency, limit);
    }

    method InsertChannels(channels: seq<ChannelEntity>)
      requires Valid()
      modifies this
      ensures Valid() && rows == UpsertAll(old(rows), ChannelId, channels)
    {
      rows := UpsertAll(rows, ChannelId, channels);
    }

    method InsertChannel(channel: ChannelEntity)
      requires Valid()
      modifies this
      ensures Valid() && rows == Upsert(old(rows), ChannelId, channel)
    {
      rows := Upsert(rows, ChannelId, channel);
    }

    method UpdateChannel(channel: ChannelEntity)
      requires Valid()
      modifies this
      ensures Valid() && rows == UpdateExisting(old(rows), ChannelId, channel)
    {
      rows := UpdateExisting(rows, ChannelId, channel);
    }

    method UpdateFavoriteStatus(id: int, isFavorite: bool)
      requires Valid()
      modifies this
      ensures Valid() && rows.Keys == old(rows).Keys
      ensures id in rows ==> rows[id] == old(rows)[id].(isFavorite := isFavorite)
      ensures forall k :: k in rows && k != id ==> rows[k] == old(rows)[k]
    {
      rows := UpdateColumn(rows, id, (c: ChannelEntity) => c.(isFavorite := isFavorite));
    }

    method UpdateLastWatched(id: int, timestamp: int)
      requires Valid()
      modifies this
      ensures Valid() && rows.Keys == old(rows).Keys
      ensures id in rows ==> rows[id] == old(rows)[id].(lastWatched := timestamp)
      ensures forall k :: k in rows && k != id ==> rows[k] == old(rows)[k]
    {
      rows := UpdateColumn(rows, id, (c: ChannelEntity) => c.(lastWatched := timestamp));
    }

    /** Room deletes by primary key: only `channel.id` matters. */
    method DeleteChannel(channel: ChannelEntity)
      requires Valid()
      modifies this
      ensures Valid() && rows == old(rows) - {channel.id}
    {
      rows := rows - {channel.id};
    }

    method DeleteAllChannels()
      modifies this
      ensures Valid() && rows == map[]
    {
      rows := map[];
    }
  }

  // ---------------------------------------------------------------------
  // MovieDao

  class MovieDao {
    var rows: map<int, MovieEntity>

    ghost predicate Valid()
      reads this
    {
      Keyed(rows, MovieId)
    }

    constructor ()
      ensures Valid() && rows == map[]
    {
      rows := map[];
    }

    method GetAllMovies() returns (r: seq<MovieEntity>)
      requires Valid()
      ensures IsSelection(rows, MovieId, AnyMovie, MovieByName, r)
    {
      NameOrdersAreTotal();
      r := Select(rows, MovieId, AnyMovie, MovieByName);
    }

    method GetMoviesByCategory(categoryId: string) returns (r: seq<MovieEntity>)
      requires Valid()
      ensures IsSelection(rows, MovieId, MovieInCategory(categoryId), MovieByName, r)
    {
      NameOrdersAreTotal();
      r := Select(rows, MovieId, MovieInCategory(categoryId), MovieByName);
    }

    method GetFavoriteMovies() returns (r: seq<MovieEntity>)
      requires Valid()
      ensures IsSelection(rows, MovieId, FavoriteMovie, MovieByName, r)
    {
      NameOrdersAreTotal();
      r := Select(rows, MovieId, FavoriteMovie, MovieByName);
    }

    method SearchMovies(query: string) returns (r: seq<MovieEntity>)
      requires Valid()
      ensures IsSelection(rows, MovieId, MovieNameHas(query), MovieByName, r)
    {
      NameOrdersAreTotal();
      r := Select(rows, MovieId, MovieNameHas(query), MovieByName);
    }

    function GetMovieById(id: int): (r: Option<MovieEntity>)
      requires Valid()
      reads this
      ensures r.None? <==> id !in rows
      ensures r.Some? ==> r.value == rows[id] && r.value.id == id
    {
      Lookup(rows, MovieId, id)
    }

    method GetRecentMovies(limit: int := 10) returns (r: seq<MovieEntity>)
      requires Valid()
      ensures IsLimitedSelection(rows, MovieId, AnyMovie, MovieByRecency, limit, r)
    {
      NumericOrdersAreTotal();
      r := SelectLimited(rows, MovieId, AnyMovie, MovieByRecency, limit);
    }

    /** Movies rated 7.0 or more, best first, at most `limit` of them. */
    method GetFeaturedMovies(limit: int := 20) returns (r: seq<MovieEntity>)
      requires Valid()
      ensures IsLimitedSelection(rows, MovieId, FeaturedMovie, MovieByRating, limit, r)
    {
      NumericOrdersAreTotal();
      r := SelectLimited(rows, MovieId, FeaturedMovie, MovieByRating, limit);
    }

    method InsertMovies(movies: seq<MovieEntity>)
      requires Valid()
      modifies this
      ensures Valid() && rows == UpsertAll(old(rows), MovieId, movies)
    {
      rows := UpsertAll(rows, MovieId, movies);
    }

    method InsertMovie(movie: MovieEntity)
      requires Valid()
      modifies this
      ensures Valid() && rows == Upsert(old(rows), MovieId, movie)
    {
      rows := Upsert(rows, MovieId, movie);
    }

    method UpdateMovie(movie: MovieEntity)
      requires Valid()
      modifies this
      ensures Valid() && rows == UpdateExisting(old(rows), MovieId, movie)
    {
      rows := UpdateExisting(rows, MovieId, movie);
    }

    method UpdateFavoriteStatus(id: int, isFavorite: bool)
      requires Valid()
      modifies this
      ensures Valid() && rows.Keys == old(rows).Keys
      ensures id in rows ==> rows[id] == old(rows)[id].(isFavorite := isFavorite)
      ensures forall k :: k in rows && k != id ==> rows[k] == old(rows)[k]
    {
      rows := UpdateColumn(rows, id, (m: MovieEntity) => m.(isFavorite := isFavorite));
    }

    method UpdateLastWatched(id: int, timestamp: int)
      requires Valid()
      modifies this
      ensures Valid() && rows.Keys == old(rows).Keys
      ensures id in rows ==> rows[id] == old(rows)[id].(lastWatched := timestamp)
      ensures forall k :: k in rows && k != id ==> rows[k] == old(rows)[k]
    {
      rows := UpdateColumn(rows, id, (m: MovieEntity) => m.(lastWatched := timestamp));
    }

    method DeleteMovie(movie: MovieEntity)
      requires Valid()
      modifies this
      ensures Valid() && rows == old(rows) - {movie.id}
    {
      rows := rows - {movie.id};
    }

    method DeleteAllMovies()
      modifies this
      ensures Valid() && rows == map[]
    {
      rows := map[];
    }
  }

  // ---------------------------------------------------------------------
  // TVSeriesDao

  class TVSeriesDao {
    var rows: map<int, TVSeriesEntity>

    ghost predicate Valid()
      reads this
    {
      Keyed(rows, SeriesId)
    }

    constructor ()
      ensures Valid() && rows == map[]
    {
      rows := map[];
    }

    method GetAllSeries() returns (r: seq<TVSeriesEntity>)
      requires Valid()
      ensures IsSelection(rows, SeriesId, AnySeries, SeriesByName, r)
    {
      NameOrdersAreTotal();
      r := Select(rows, SeriesId, AnySeries, SeriesByName);
    }

    method GetSeriesByCategory(categoryId: string) returns (r: seq<TVSeriesEntity>)
      requires Valid()
      ensures IsSelection(rows, SeriesId, SeriesInCategory(categoryId), SeriesByName, r)
    {
      NameOrdersAreTotal();
      r := Select(rows, SeriesId, SeriesInCategory(categoryId), SeriesByName);
    }

    method GetFavoriteSeries() returns (r: seq<TVSeriesEntity>)
      requires Valid()
      ensures IsSelection(rows, SeriesId, FavoriteSeries, SeriesByName, r)
    {
      NameOrdersAreTotal();
      r := Select(rows, SeriesId, FavoriteSeries, SeriesByName);
    }

    method SearchSeries(query: string) returns (r: seq<TVSeriesEntity>)
      requires Valid()
      ensures IsSelection(rows, SeriesId, SeriesNameHas(query), SeriesByName, r)
    {
      NameOrdersAreTotal();
      r := Select(rows, SeriesId, SeriesNameHas(query), SeriesByName);
    }

    function GetSeriesById(id: int): (r: Option<TVSeriesEntity>)
      requires Valid()
      reads this
      ensures r.None? <==> id !in rows
      ensures r.Some? ==> r.value == rows[id] && r.value.id == id
    {
      Lookup(rows, SeriesId, id)
    }

    method GetRecentSeries(limit: int := 10) returns (r: seq<TVSeriesEntity>)
      requires Valid()
      ensures IsLimitedSelection(rows, SeriesId, AnySeries, SeriesByRecency, limit, r)
    {
      NumericOrdersAreTotal();
      r := SelectLimited(rows, SeriesId, AnySeries, SeriesByRecency, limit);
    }

    method InsertSeries(series: seq<TVSeriesEntity>)
      requires Valid()
      modifies this
      ensures Valid() && rows == UpsertAll(old(rows), SeriesId, series)
    {
      rows := UpsertAll(rows, SeriesId, series);
    }

    method InsertSingleSeries(series: TVSeriesEntity)
      requires Valid()
      modifies this
      ensures Valid() && rows == Upsert(old(rows), SeriesId, series)
    {
      rows := Upsert(rows, SeriesId, series);
    }

    method UpdateSeries(series: TVSeriesEntity)
      requires Valid()
      modifies this
      ensures Valid() && rows == UpdateExisting(old(rows), SeriesId, series)
    {
      rows := UpdateExisting(rows, SeriesId, series);
    }

    method UpdateFavoriteStatus(id: int, isFavorite: bool)
      requires Valid()
      modifies this
      ensures Valid() && rows.Keys == old(rows).Keys
      ensures id in rows ==> rows[id] == old(rows)[id].(isFavorite := isFavorite)
      ensures forall k :: k in rows && k != id ==> rows[k] == old(rows)[k]
    {
      rows := UpdateColumn(rows, id, (s: TVSeriesEntity) => s.(isFavorite := isFavorite));
    }

    method UpdateLastWatched(id: int, timestamp: int)
      requires Valid()
      modifies this
      ensures Valid() && rows.Keys == old(rows).Keys
      ensures id in rows ==> rows[id] == old(rows)[id].(lastWatched := timestamp)
      ensures forall k :: k in rows && k != id ==> rows[k] == old(rows)[k]
    {
      rows := UpdateColumn(rows, id, (s: TVSeriesEntity) => s.(lastWatched := timestamp));
    }

    method DeleteSeries(series: TVSeriesEntity)
      requires Valid()
      modifies this
      ensures Valid() && rows == old(rows) - {series.id}
    {
      rows := rows - {series.id};
    }

    method DeleteAllSeries()
      modifies this
      ensures Valid() && rows == map[]
    {
      rows := map[];
    }
  }

  // ---------------------------------------------------------------------
  // SeasonDao

  class SeasonDao {
    var rows: map<int, SeasonEntity>

    ghost predicate Valid()
      reads this
    {
      Keyed(rows, SeasonId)
    }

    constructor ()
      ensures Valid() && rows == map[]
    {
      rows := map[];
    }

    method GetSeasonsBySeriesId(seriesId: int) returns (r: seq<SeasonEntity>)
      requires Valid()
      ensures IsSelection(rows, SeasonId, SeasonOf(seriesId), SeasonByNumber, r)
    {
      NumericOrdersAreTotal();
      r := Select(rows, SeasonId, SeasonOf(seriesId), SeasonByNumber);
    }

    function GetSeasonById(id: int): (r: Option<SeasonEntity>)
      requires Valid()
      reads this
      ensures r.None? <==> id !in rows
      ensures r.Some? ==> r.value == rows[id] && r.value.id == id
    {
      Lookup(rows, SeasonId, id)
    }

    method InsertSeasons(seasons: seq<SeasonEntity>)
      requires Valid()
      modifies this
      ensures Valid() && rows == UpsertAll(old(rows), SeasonId, seasons)
    {
      rows := UpsertAll(rows, SeasonId, seasons);
    }

    method InsertSeason(season: SeasonEntity)
      requires Valid()
      modifies this
      ensures Valid() && rows == Upsert(old(rows), SeasonId, season)
    {
      rows := Upsert(rows, SeasonId, season);
    }

    method UpdateSeason(season: SeasonEntity)
      requires Valid()
      modifies this
      ensures Valid() && rows == UpdateExisting(old(rows), SeasonId, season)
    {
      rows := UpdateExisting(rows, SeasonId, season);
    }

    method DeleteSeason(season: SeasonEntity)
      requires Valid()
      modifies this
      ensures Valid() && rows == old(rows) - {season.id}
    {
      rows := rows - {season.id};
    }

    /** Afterwards no season of the series is left; every other season is untouched. */
    method DeleteSeasonsBySeriesId(seriesId: int)
      requires Valid()
      modifies this
      ensures Valid() && rows == DeleteWhere(old(rows), SeasonOf(seriesId))
      ensures forall k :: k in rows ==> rows[k].seriesId != seriesId
    {
      rows := DeleteWhere(rows, SeasonOf(seriesId));
    }
  }

  // ---------------------------------------------------------------------
  // EpisodeDao

  class EpisodeDao {
    var rows: map<string, EpisodeEntity>

    ghost predicate Valid()
      reads this
    {
      Keyed(rows, EpisodeId)
    }

    constructor ()
      ensures Valid() && rows == map[]
    {
      rows := map[];
    }

    method GetEpisodesBySeasonId(seriesId: int, seasonNumber: int) returns (r: seq<EpisodeEntity>)
      requires Valid()
      ensures IsSelection(rows, EpisodeId, EpisodeOfSeason(seriesId, seasonNumber), EpisodeByNumber, r)
    {
      NumericOrdersAreTotal();
      r := Select(rows, EpisodeId, EpisodeOfSeason(seriesId, seasonNumber), EpisodeByNumber);
    }

    method GetEpisodesBySeriesId(seriesId: int) returns (r: seq<EpisodeEntity>)
      requires Valid()
      ensures IsSelection(rows, EpisodeId, EpisodeOf(seriesId), EpisodeBySeasonThenNumber, r)
    {
      NumericOrdersAreTotal();
      r := Select(rows, EpisodeId, EpisodeOf(seriesId), EpisodeBySeasonThenNumber);
    }

    function GetEpisodeById(id: string): (r: Option<EpisodeEntity>)
      requires Valid()
      reads this
      ensures r.None? <==> id !in rows
      ensures r.Some? ==> r.value == rows[id] && r.value.id == id
    {
      Lookup(rows, EpisodeId, id)
    }

    method InsertEpisodes(episodes: seq<EpisodeEntity>)
      requires Valid()
      modifies this
      ensures Valid() && rows == UpsertAll(old(rows), EpisodeId, episodes)
    {
      rows := UpsertAll(rows, EpisodeId, episodes);
    }

    method InsertEpisode(episode: EpisodeEntity)
      requires Valid()
      modifies this
      ensures Valid() && rows == Upsert(old(rows), EpisodeId, episode)
    {
      rows := Upsert(rows, EpisodeId, episode);
    }

    method UpdateEpisode(episode: EpisodeEntity)
      requires Valid()
      modifies this
      ensures Valid() && rows == UpdateExisting(old(rows), EpisodeId, episode)
    {
      rows := UpdateExisting(rows, EpisodeId, episode);
    }

    method DeleteEpisode(episode: EpisodeEntity)
      requires Valid()
      modifies this
      ensures Valid() && rows == old(rows) - {episode.id}
    {
      rows := rows - {episode.id};
    }

    method DeleteEpisodesBySeriesId(seriesId: int)
      requires Valid()
      modifies this
      ensures Valid() && rows == DeleteWhere(old(rows), EpisodeOf(seriesId))
      ensures forall k :: k in rows ==> rows[k].seriesId != seriesId
    {
      rows := DeleteWhere(rows, EpisodeOf(seriesId));
    }
  }

  // ---------------------------------------------------------------------
  // CategoryDao

  class CategoryDao {
    var rows: map<string, CategoryEntity>

    ghost predicate Valid()
      reads this
    {
      Keyed(rows, CategoryId)
    }

    constructor ()
      ensures Valid() && rows == map[]
    {
      rows := map[];
    }

    method GetCategoriesByType(categoryType: string) returns (r: seq<CategoryEntity>)
      requires Valid()
      ensures IsSelection(rows, CategoryId, CategoryOfType(categoryType), CategoryByName, r)
    {
      NameOrdersAreTotal();
      r := Select(rows, CategoryId, CategoryOfType(categoryType), CategoryByName);
    }

    method GetAllCategories() returns (r: seq<CategoryEntity>)
      requires Valid()
      ensures IsSelection(rows, CategoryId, AnyCategory, CategoryByName, r)
    {
      NameOrdersAreTotal();
      r := Select(rows, CategoryId, AnyCategory, CategoryByName);
    }

    function GetCategoryById(id: string): (r: Option<CategoryEntity>)
      requires Valid()
      reads this
      ensures r.None? <==> id !in rows
      ensures r.Some? ==> r.value == rows[id] && r.value.id == id
    {
      Lookup(rows, CategoryId, id)
    }

    method InsertCategories(categories: seq<CategoryEntity>)
      requires Valid()
      modifies this
      ensures Valid() && rows == UpsertAll(old(rows), CategoryId, categories)
    {
      rows := UpsertAll(rows, CategoryId, categories);
    }

    method InsertCategory(category: CategoryEntity)
      requires Valid()
      modifies this
      ensures Valid() && rows == Upsert(old(rows), CategoryId, category)
    {
      rows := Upsert(rows, CategoryId, category);
    }

    method UpdateCategory(category: CategoryEntity)
      requires Valid()
      modifies this
      ensures Valid() && rows == UpdateExisting(old(rows), CategoryId, category)
    {
      rows := UpdateExisting(rows, CategoryId, category);
    }

    method DeleteCategory(category: CategoryEntity)
      requires Valid()
      modifies this
      ensures Valid() && rows == old(rows) - {category.id}
    {
      rows := rows - {category.id};
    }

    method DeleteCategoriesByType(categoryType: string)
      requires Valid()
      modifies this
      ensures Valid() && rows == DeleteWhere(old(rows), CategoryOfType(categoryType))
      ensures forall k :: k in rows ==> rows[k].categoryType != categoryType
    {
      rows := DeleteWhere(rows, CategoryOfType(categoryType));
    }
  }

  // ---------------------------------------------------------------------
  // FavoriteDao

  class FavoriteDao {
    var rows: map<string, FavoriteEntity>

    ghost predicate Valid()
      reads this
    {
      Keyed(rows, FavoriteId)
    }

    /** Some favorite row records this content; the table's key is the row's own id, so
        nothing stops two rows from recording the same content. */
    ghost predicate HasFavorite(contentId: string, contentType: string)
      reads this
    {
      exists k :: k in rows && FavoriteFor(contentId, contentType)(rows[k])
    }

    constructor ()
      ensures Valid() && rows == map[]
    {
      rows := map[];
    }

    method GetAllFavorites() returns (r: seq<FavoriteEntity>)
      requires Valid()
      ensures IsSelection(rows, FavoriteId, AnyFavorite, FavoriteByNewest, r)
    {
      NumericOrdersAreTotal();
      r := Select(rows, FavoriteId, AnyFavorite, FavoriteByNewest);
    }

    method GetFavoritesByType(contentType: string) returns (r: seq<FavoriteEntity>)
      requires Valid()
      ensures IsSelection(rows, FavoriteId, FavoriteOfType(contentType), FavoriteByNewest, r)
    {
      NumericOrdersAreTotal();
      r := Select(rows, FavoriteId, FavoriteOfType(contentType), FavoriteByNewest);
    }

    /** Some row recording the content, or null when there is none. */
    method GetFavorite(contentId: string, contentType: string) returns (r: Option<FavoriteEntity>)
      requires Valid()
      ensures r.None? <==> !HasFavorite(contentId, contentType)
      ensures r.Some? ==> r.value in rows.Values && r.value.contentId == contentId && r.value.contentType == contentType
    {
      r := FindAny(rows, FavoriteFor(contentId, contentType));
    }

    /** `SELECT EXISTS(...)` */
    method IsFavorite(contentId: string, contentType: string) returns (b: bool)
      requires Valid()
      ensures b <==> HasFavorite(contentId, contentType)
    {
      b := exists k :: k in rows && FavoriteFor(contentId, contentType)(rows[k]);
    }

    method InsertFavorite(favorite: FavoriteEntity)
      requires Valid()
      modifies this
      ensures Valid() && rows == Upsert(old(rows), FavoriteId, favorite)
      ensures HasFavorite(favorite.contentId, favorite.contentType)
    {
      rows := Upsert(rows, FavoriteId, favorite);
      assert FavoriteFor(favorite.contentId, favorite.contentType)(rows[favorite.id]);
    }

    method DeleteFavorite(favorite: FavoriteEntity)
      requires Valid()
      modifies this
      ensures Valid() && rows == old(rows) - {favorite.id}
    {
      rows := rows - {favorite.id};
    }

    /** Removes every row recording the content, so it is no longer a favorite. */
    method DeleteFavoriteByContent(contentId: string, contentType: string)
      requires Valid()
      modifies this
      ensures Valid() && rows == DeleteWhere(old(rows), FavoriteFor(contentId, contentType))
      ensures !HasFavorite(contentId, contentType)
    {
      rows := DeleteWhere(rows, FavoriteFor(contentId, contentType));
    }

    method DeleteAllFavorites()
      modifies this
      ensures Valid() && rows == map[]
      ensures forall contentId, contentType :: !HasFavorite(contentId, contentType)
    {
      rows := map[];
    }
  }

  // ---------------------------------------------------------------------
  // WatchHistoryDao

  class WatchHistoryDao {
    var rows: map<string, WatchHistoryEntity>

    ghost predicate Valid()
      reads this
    {
      Keyed(rows, HistoryId)
    }

    constructor ()
      ensures Valid() && rows == map[]
    {
      rows := map[];
    }

    method GetWatchHistory(limit: int := 50) returns (r: seq<WatchHistoryEntity>)
      requires Valid()
      ensures IsLimitedSelection(rows, HistoryId, AnyHistory, HistoryByNewest, limit, r)
    {
      NumericOrdersAreTotal();
      r := SelectLimited(rows, HistoryId, AnyHistory, HistoryByNewest, limit);
    }

    method GetWatchHistoryByType(contentType: string) returns (r: seq<WatchHistoryEntity>)
      requires Valid()
      ensures IsSelection(rows, HistoryId, HistoryOfType(contentType), HistoryByNewest, r)
    {
      NumericOrdersAreTotal();
      r := Select(rows, HistoryId, HistoryOfType(contentType), HistoryByNewest);
    }

    /** Some entry for the content, or null; `contentId` is not the key, so which of
        several entries comes back is not specified. */
    method GetWatchHistoryItem(contentId: string) returns (r: Option<WatchHistoryEntity>)
      requires Valid()
      ensures r.None? <==> forall k :: k in rows ==> rows[k].contentId != contentId
      ensures r.Some? ==> r.value in rows.Values && r.value.contentId == contentId
    {
      r := FindAny(rows, HistoryFor(contentId));
    }

    method InsertWatchHistoryItem(item: WatchHistoryEntity)
      requires Valid()
      modifies this
      ensures Valid() && rows == Upsert(old(rows), HistoryId, item)
    {
      rows := Upsert(rows, HistoryId, item);
    }

    method UpdateWatchHistoryItem(item: WatchHistoryEntity)
      requires Valid()
      modifies this
      ensures Valid() && rows == UpdateExisting(old(rows), HistoryId, item)
    {
      rows := UpdateExisting(rows, HistoryId, item);
    }

    method DeleteWatchHistoryItem(item: WatchHistoryEntity)
      requires Valid()
      modifies this
      ensures Valid() && rows == old(rows) - {item.id}
    {
      rows := rows - {item.id};
    }

    method DeleteWatchHistoryByContentId(contentId: string)
      requires Valid()
      modifies this
      ensures Valid() && rows == DeleteWhere(old(rows), HistoryFor(contentId))
      ensures forall k :: k in rows ==> rows[k].contentId != contentId
    {
      rows := DeleteWhere(rows, HistoryFor(contentId));
    }

    method DeleteAllWatchHistory()
      modifies this
      ensures Valid() && rows == map[]
    {
      rows := map[];
    }

    /** Drops the entries last watched before `timestamp` and keeps all the others. */
    method DeleteOldWatchHistory(timestamp: int)
      requires Valid()
      modifies this
      ensures Valid() && rows == DeleteWhere(old(rows), HistoryOlderThan(timestamp))
      ensures forall k :: k in rows ==> rows[k].lastWatchedAt >= timestamp
      ensures forall k :: k in old(rows) && old(rows)[k].lastWatchedAt >= timestamp ==> k in rows
    {
      rows := DeleteWhere(rows, HistoryOlderThan(timestamp));
    }
  }

  // ---------------------------------------------------------------------
  // EPGDao

  class EPGDao {
    var rows: map<string, EPGProgramEntity>

    ghost predicate Valid()
      reads this
    {
      Keyed(rows, ProgramId)
    }

    constructor ()
      ensures Valid() && rows == map[]
    {
      rows := map[];
    }

    method GetProgramsByChannelAndTimeRange(channelId: string, startTime: int, endTime: int)
      returns (r: seq<EPGProgramEntity>)
      requires Valid()
      ensures IsSelection(rows, ProgramId, ProgramWithin(channelId, startTime, endTime), ProgramByStart, r)
    {
      NumericOrdersAreTotal();
      r := Select(rows, ProgramId, ProgramWithin(channelId, startTime, endTime), ProgramByStart);
    }

    method GetProgramsByChannel(channelId: string) returns (r: seq<EPGProgramEntity>)
      requires Valid()
      ensures IsSelection(rows, ProgramId, ProgramOf(channelId), ProgramByStart, r)
    {
      NumericOrdersAreTotal();
      r := Select(rows, ProgramId, ProgramOf(channelId), ProgramByStart);
    }

    method GetCurrentPrograms(currentTime: int) returns (r: seq<EPGProgramEntity>)
      requires Valid()
      ensures IsSelection(rows, ProgramId, ProgramAiringAt(currentTime), ProgramInAnyOrder, r)
    {
      NumericOrdersAreTotal();
      r := Select(rows, ProgramId, ProgramAiringAt(currentTime), ProgramInAnyOrder);
    }

    function GetProgramById(id: string): (r: Option<EPGProgramEntity>)
      requires Valid()
      reads this
      ensures r.None? <==> id !in rows
      ensures r.Some? ==> r.value == rows[id] && r.value.id == id
    {
      Lookup(rows, ProgramId, id)
    }

    method InsertPrograms(programs: seq<EPGProgramEntity>)
      requires Valid()
      modifies this
      ensures Valid() && rows == UpsertAll(old(rows), ProgramId, programs)
    {
      rows := UpsertAll(rows, ProgramId, programs);
    }

    method InsertProgram(program: EPGProgramEntity)
      requires Valid()
      modifies this
      ensures Valid() && rows == Upsert(old(rows), ProgramId, program)
    {
      rows := Upsert(rows, ProgramId, program);
    }

    method UpdateProgram(program: EPGProgramEntity)
      requires Valid()
      modifies this
      ensures Valid() && rows == UpdateExisting(old(rows), ProgramId, program)
    {
      rows := UpdateExisting(rows, ProgramId, program);
    }

    method DeleteProgram(program: EPGProgramEntity)
      requires Valid()
      modifies this
      ensures Valid() && rows == old(rows) - {program.id}
    {
      rows := rows - {program.id};
    }

    method DeleteProgramsByChannel(channelId: string)
      requires Valid()
      modifies this
      ensures Valid() && rows == DeleteWhere(old(rows), ProgramOf(channelId))
      ensures forall k :: k in rows ==> rows[k].channelId != channelId
    {
      rows := DeleteWhere(rows, ProgramOf(channelId));
    }

    /** Drops the programs that ended before `timestamp`; a program still airing at any
        time from `timestamp` on survives (see DeleteOldKeepsAiring). */
    method DeleteOldPrograms(timestamp: int)
      requires Valid()
      modifies this
      ensures Valid() && rows == DeleteWhere(old(rows), ProgramEndedBefore(timestamp))
      ensures forall k :: k in rows ==> rows[k].endTime >= timestamp
    {
      rows := DeleteWhere(rows, ProgramEndedBefore(timestamp));
    }

    method DeleteAllPrograms()
      modifies this
      ensures Valid() && rows == map[]
    {
      rows := map[];
    }
  }

  // ---------------------------------------------------------------------
  // Properties across operations

  /** Pruning the guide up to `timestamp` loses none of the programs airing at a later time. */
  lemma DeleteOldKeepsAiring(rows: map<string, EPGProgramEntity>, timestamp: int, currentTime: int)
    requires currentTime >= timestamp
    ensures forall k :: k in rows && ProgramAiringAt(currentTime)(rows[k]) ==>
              k in DeleteWhere(rows, ProgramEndedBefore(timestamp))
  {
  }

  /** The watch-history filter by type, given the converter's text for a type, selects
      exactly the entries of that type; any other text selects nothing. */
  lemma HistoryTypeFilter(t: ContentType, text: string, h: WatchHistoryEntity)
    ensures HistoryOfType(FromContentType(t))(h) <==> h.contentType == t
    ensures text !in {"LiveTV", "Movie", "Series"} ==> !HistoryOfType(text)(h)
  {
    if FromContentType(h.contentType) == FromContentType(t) {
      FromContentTypeInjective(h.contentType, t);
    }
  }

  /** A channel, movie or series saved through its mapper and read back by id comes back
      as the very value that was saved. */
  lemma SavedContentReadsBack(channels: map<int, ChannelEntity>, channel: Channel,
                              movies: map<int, MovieEntity>, movie: Movie,
                              series: map<int, TVSeriesEntity>, show: TVSeries)
    requires Keyed(channels, ChannelId) && Keyed(movies, MovieId) && Keyed(series, SeriesId)
    ensures var stored := Upsert(channels, ChannelId, DataMappers.ChannelToEntity(channel));
            var found := Lookup(stored, ChannelId, channel.id);
            found.Some? && DataMappers.ChannelEntityToDomain(found.value) == channel
    ensures var stored := Upsert(movies, MovieId, DataMappers.MovieToEntity(movie));
            var found := Lookup(stored, MovieId, movie.id);
            found.Some? && DataMappers.MovieEntityToDomain(found.value) == movie
    ensures var stored := Upsert(series, SeriesId, DataMappers.TVSeriesToEntity(show));
            var found := Lookup(stored, SeriesId, show.id);
            found.Some? && DataMappers.TVSeriesEntityToDomain(found.value) == show
  {
  }
}
