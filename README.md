# IPTV player data layer, modelled in Dafny

This project models the data layer of an Android IPTV player. That layer
turns what an Xtream-Codes provider returns (live streams, movies, series,
seasons, episodes, categories and programme-guide entries) into domain
values, and it enriches movies and series with details from the TMDB
metadata API. It stores everything in a Room (SQLite) database and reads it
back. Modelled here:

- **URL helpers** (`XtreamApi`, `TMDBApi`): the stream, catch-up, image and
  YouTube addresses. When the user name, password and extension contain no
  `/`, the `/`-separated segments after the server address give back the
  user name, password, "<id>.<ext>" file name and, for catch-up, the
  duration and start time; the directory segment tells movie, episode and
  live apart, but an unknown kind yields exactly the live URL, so it cannot
  be told from "live". When the extension also contains no `.`, the file
  name splits back into the id and the extension. An image URL determines
  its path.
- **Mappers** (`DataMappers`): provider record → domain value, domain value →
  table row → domain value, and the TMDB enrichment `enhanceWithTMDB`.
  Every mapper states each field it produces, and each row mapper has the
  opposite direction as its partner. The text-valued `takeIf {
  isNotEmpty() }` fields are null exactly for "". `hasArchive` holds exactly
  when `tvArchive == 1`. Stream URLs are the URL helper's. The episode total
  counts every episode of every season bucket. Enrichment replaces exactly the
  fields the details supply, leaves everything else alone and is idempotent.
- **Table rows** (`DatabaseEntities`): the eleven entity shapes with their
  column defaults, and the `ContentType` converter with its round trips.
- **Data-access objects** (`IPTVDao`, on top of the generic `Tables`): nine
  classes, one per DAO interface. Each holds its table as a map from primary
  key to row.
  - Writes have the database's meaning. `REPLACE` inserts are upserts, and a
    batch keeps the last row per key. `@Update` and `@Delete` act on the
    entity's primary key, and an `@Update` of a missing key does nothing.
    `UPDATE … SET` changes one column. `DELETE … WHERE` removes exactly the
    matching rows.
  - A read returns exactly the matching rows, each once, in the query's
    `ORDER BY` order. Ties are unordered, as in SQL. `LIMIT` keeps a best
    prefix, and a negative limit keeps every row, as SQLite does.
  - Text is ordered by character code. Dafny characters are Unicode scalar
    values, so this is the byte order of SQLite's default `BINARY` collation
    over UTF-8.

Kotlin's `Int` and `Long` are unbounded integers here except where the
range matters. The programme-guide mapper multiplies seconds by 1000 in
`Long` arithmetic, so it is modelled with explicit 64-bit wrap-around. It is
exact for every timestamp whose product fits, and a lemma exhibits the wrap
past that. Kotlin's `Double` is `real`. `String.toInt()` is written out
(optional sign, ASCII digits, 32-bit range) and is proved to read back every
`Int` that Kotlin prints.

Modules, one file each: `Wrappers` (nullable values), `KotlinText` (the
Kotlin string and number operations used), `XtreamApi`, `TMDBApi`,
`DomainModels`, `XtreamModels` and `TMDBModels` (the fields of the API
records that the mappers read), `DatabaseEntities`, `DataMappers`, `Tables`
and `IPTVDao`.

The entity column `type` of `CategoryEntity` is called `categoryType`,
because `type` is a reserved word in Dafny.

## Model

| member | source | states |
|---|---|---|
| KotlinText.ToLong | app/src/main/java/com/iptv/player/data/mappers/DataMappers.kt:211-212 | the product as a Kotlin `Long`: always in 64-bit range, congruent to the exact value modulo 2^64, and equal to it whenever it fits |
| KotlinText.IntToString | app/src/main/java/com/iptv/player/data/remote/api/XtreamApi.kt:102 | decimal text of a number in a string template: non-empty, a leading '-' exactly for negatives, digits after it, no '/' or '.' |
| KotlinText.NatToStringValue | app/src/main/java/com/iptv/player/data/remote/api/XtreamApi.kt:102 | the digits printed for a non-negative number read back as that number |
| KotlinText.ParseInt | app/src/main/java/com/iptv/player/data/mappers/DataMappers.kt:176 | `String.toInt()`: a value exactly when the text after an optional sign is non-empty, all decimal digits, and its signed value is within the `Int` range; the value is that signed number |
| KotlinText.ParseIntToString | app/src/main/java/com/iptv/player/data/mappers/DataMappers.kt:176 | every `Int` printed in decimal parses back to itself |
| KotlinText.NonEmpty | app/src/main/java/com/iptv/player/data/mappers/DataMappers.kt:34 | `takeIf { it.isNotEmpty() }`: null exactly for "", the text itself otherwise |
| KotlinText.Take | app/src/main/java/com/iptv/player/data/mappers/DataMappers.kt:446 | `take(n)`: a prefix of the text, of length n or the whole text if shorter |
| KotlinText.Join | app/src/main/java/com/iptv/player/data/mappers/DataMappers.kt:444 | `joinToString`: empty for no items, the item itself for one, and otherwise starts with the first item and ends with the last; what lies between is fixed by the split lemmas below |
| KotlinText.SplitJoin | app/src/main/java/com/iptv/player/data/mappers/DataMappers.kt:444 | joining with a one-character separator that no item contains and splitting again gives the items back |
| KotlinText.SplitJoinAtHead | app/src/main/java/com/iptv/player/data/mappers/DataMappers.kt:444 | with a separator made of a split character followed by text `t`, neither occurring in the items, splitting the join at that character gives the first item and then every later item preceded by `t` |
| KotlinText.CommaSpaceJoinSplits | app/src/main/java/com/iptv/player/data/mappers/DataMappers.kt:444 | the `", "` join used for movie and series genres: when no name contains ',', splitting at ',' gives the first name and then every later name behind one space, so the joined text holds exactly the names, in order, separated by ", " |
| KotlinText.JoinIsEmpty | app/src/main/java/com/iptv/player/data/mappers/DataMappers.kt:444 | `joinToString(", ")` is empty exactly for no items or one empty item |
| KotlinText.StrLeTotal | app/src/main/java/com/iptv/player/data/local/dao/IPTVDao.kt:9 | the text order used by `ORDER BY name` ranks any two names |
| KotlinText.StrLeTransitive | app/src/main/java/com/iptv/player/data/local/dao/IPTVDao.kt:9 | the text order is transitive |
| KotlinText.StrLeAntisymmetric | app/src/main/java/com/iptv/player/data/local/dao/IPTVDao.kt:9 | names that rank both ways are equal |
| XtreamApi.BuildStreamUrl | app/src/main/java/com/iptv/player/data/remote/api/XtreamApi.kt:93-107 | the URL starts with the server address and ends with "." and the extension |
| XtreamApi.UnknownKindIsLive | app/src/main/java/com/iptv/player/data/remote/api/XtreamApi.kt:101-106 | any kind other than "live", "movie" or "series" gives exactly the live URL |
| XtreamApi.StreamUrlSegments | app/src/main/java/com/iptv/player/data/remote/api/XtreamApi.kt:101-106 | after the server address the URL's segments are the kind's directory ("movie", "series" or none), user, password and "<id>.<ext>" |
| XtreamApi.FileNameSegments | app/src/main/java/com/iptv/player/data/remote/api/XtreamApi.kt:102-105 | the last segment splits at '.' into the id and the extension |
| XtreamApi.BuildCatchupUrl | app/src/main/java/com/iptv/player/data/remote/api/XtreamApi.kt:109-118 | the URL starts with the server address and always ends with ".ts" |
| XtreamApi.CatchupUrlSegments | app/src/main/java/com/iptv/player/data/remote/api/XtreamApi.kt:117 | after the server address the segments are "timeshift", user, password, duration, start time and "<id>.ts" |
| TMDBApi.BuildImageUrl | app/src/main/java/com/iptv/player/data/remote/api/TMDBApi.kt:135-139 | no path gives no URL; otherwise the URL is the image base and size followed by exactly the path |
| TMDBApi.ImageHelperDefaults | app/src/main/java/com/iptv/player/data/remote/api/TMDBApi.kt:141-151 | poster, backdrop and profile URLs default to sizes "w500", "w1280" and "w185" |
| TMDBApi.ImageHelpersDelegate | app/src/main/java/com/iptv/player/data/remote/api/TMDBApi.kt:141-151 | with a size given, each helper is the image URL builder itself |
| TMDBApi.ImageUrlInjective | app/src/main/java/com/iptv/player/data/remote/api/TMDBApi.kt:135-139 | for a fixed size, different paths never give the same URL |
| TMDBApi.BuildYouTubeTrailerUrl | app/src/main/java/com/iptv/player/data/remote/api/TMDBApi.kt:153-155 | the watch-page prefix followed by exactly the key |
| TMDBApi.BuildYouTubeThumbnailUrl | app/src/main/java/com/iptv/player/data/remote/api/TMDBApi.kt:157-159 | the thumbnail prefix, exactly the key, then "/maxresdefault.jpg" |
| DatabaseEntities.UserSettingsDefaults | src/main/java/com/iptv/player/data/local/entities/DatabaseEntities.kt:140-153 | a default settings row: id 1, theme "SYSTEM", quality "Auto", auto-play on, subtitles off at "MEDIUM", no parental control, no PIN, "[]" blocked, no rating cap, no API key |
| DatabaseEntities.UserCredentialsDefaults | src/main/java/com/iptv/player/data/local/entities/DatabaseEntities.kt:155-163 | a credentials row defaults to id 1 and port "80" |
| DatabaseEntities.ContentEntityDefaults | src/main/java/com/iptv/player/data/local/entities/DatabaseEntities.kt:11-68 | channel, movie and series rows default to not favourite, never watched, rating 0, no archive, no season or episode totals |
| DatabaseEntities.FromContentType | src/main/java/com/iptv/player/data/local/entities/DatabaseEntities.kt:168-174 | a content kind is stored as "LiveTV", "Movie" or "Series" |
| DatabaseEntities.ToContentType | src/main/java/com/iptv/player/data/local/entities/DatabaseEntities.kt:177-184 | any other stored text reads back as LiveTV |
| DatabaseEntities.ContentTypeRoundTrip | src/main/java/com/iptv/player/data/local/entities/DatabaseEntities.kt:166-185 | every kind survives a write and a read |
| DatabaseEntities.FromContentTypeInjective | src/main/java/com/iptv/player/data/local/entities/DatabaseEntities.kt:168-174 | distinct kinds are stored as distinct text |
| DatabaseEntities.StoredTextRoundTrip | src/main/java/com/iptv/player/data/local/entities/DatabaseEntities.kt:177-184 | reading then writing gives the text back exactly for the three literals |
| DataMappers.FirstOrNull | app/src/main/java/com/iptv/player/data/mappers/DataMappers.kt:118 | `firstOrNull()`: null exactly for an empty list, else its first element |
| DataMappers.LiveStreamToDomain | app/src/main/java/com/iptv/player/data/mappers/DataMappers.kt:16-41 | id, name and category carried over; the live stream URL; icon and guide id null exactly when empty; archive exactly when `tvArchive == 1`; not favourite |
| DataMappers.VodStreamToDomain | app/src/main/java/com/iptv/player/data/mappers/DataMappers.kt:43-76 | the movie URL with the record's extension; poster null exactly when empty; provider rating; every detail field null |
| DataMappers.VodInfoToDomain | app/src/main/java/com/iptv/player/data/mappers/DataMappers.kt:78-111 | the movie URL from the movie data; year and duration kept as given; every other text field null exactly when empty |
| DataMappers.SeriesToDomain | app/src/main/java/com/iptv/player/data/mappers/DataMappers.kt:113-130 | backdrop is the first backdrop path if any; no TMDB id; text fields null exactly when empty; no totals |
| DataMappers.SeriesInfoToDomain | app/src/main/java/com/iptv/player/data/mappers/DataMappers.kt:132-151 | id 0; seasons total is the number of seasons; episodes total is the number of episodes over all season buckets |
| DataMappers.EpisodeCountIsAllEpisodes | app/src/main/java/com/iptv/player/data/mappers/DataMappers.kt:149 | summing the bucket sizes counts exactly the episodes of all buckets |
| DataMappers.EpisodeCountAppend | app/src/main/java/com/iptv/player/data/mappers/DataMappers.kt:149 | the episode count is additive over a split of the buckets |
| DataMappers.SeasonDtoToDomain | app/src/main/java/com/iptv/player/data/mappers/DataMappers.kt:153-164 | the given series id; overview and poster null exactly when empty; air date kept as given |
| DataMappers.EpisodeDtoToDomain | app/src/main/java/com/iptv/player/data/mappers/DataMappers.kt:166-195 | the series URL built from the id parsed as an `Int`; the id text kept; rating is the parsed number or 0.0 when it does not parse |
| DataMappers.EpisodeUrlKeepsCanonicalId | app/src/main/java/com/iptv/player/data/mappers/DataMappers.kt:170-177 | for an id written as Kotlin prints an `Int`, the URL's file name carries that same number |
| DataMappers.CategoryDtoToDomain | app/src/main/java/com/iptv/player/data/mappers/DataMappers.kt:197-203 | id, name and parent id carried over |
| DataMappers.EpgProgramToDomain | app/src/main/java/com/iptv/player/data/mappers/DataMappers.kt:205-215 | start and end are the seconds times 1000 as `Long` values; description and language null exactly when empty |
| DataMappers.EpgMillisecondsExact | app/src/main/java/com/iptv/player/data/mappers/DataMappers.kt:211-212 | whenever the product fits in a `Long`, start and end are exactly the seconds times 1000 |
| DataMappers.EpgMillisecondsWrap | app/src/main/java/com/iptv/player/data/mappers/DataMappers.kt:211 | a start time past the `Long` range does not come out as seconds times 1000 |
| DataMappers.ChannelToEntity | app/src/main/java/com/iptv/player/data/mappers/DataMappers.kt:218-231 | the row has not been watched, and reads back as the same channel |
| DataMappers.MovieToEntity | app/src/main/java/com/iptv/player/data/mappers/DataMappers.kt:233-253 | the row has not been watched, and reads back as the same movie |
| DataMappers.TVSeriesToEntity | app/src/main/java/com/iptv/player/data/mappers/DataMappers.kt:255-275 | the row has not been watched, and reads back as the same series |
| DataMappers.SeasonToEntity | app/src/main/java/com/iptv/player/data/mappers/DataMappers.kt:277-288 | the row reads back as the same season |
| DataMappers.EpisodeToEntity | app/src/main/java/com/iptv/player/data/mappers/DataMappers.kt:290-305 | the row reads back as the same episode |
| DataMappers.CategoryToEntity | app/src/main/java/com/iptv/player/data/mappers/DataMappers.kt:307-314 | the row carries the given category type and reads back as the same category |
| DataMappers.EPGProgramToEntity | app/src/main/java/com/iptv/player/data/mappers/DataMappers.kt:316-326 | the row reads back as the same programme |
| DataMappers.ChannelEntityToDomain | app/src/main/java/com/iptv/player/data/mappers/DataMappers.kt:329-342 | every column of the row except `lastWatched` carried into the same-named field |
| DataMappers.MovieEntityToDomain | app/src/main/java/com/iptv/player/data/mappers/DataMappers.kt:344-364 | every column of the row except `lastWatched` carried into the same-named field |
| DataMappers.TVSeriesEntityToDomain | app/src/main/java/com/iptv/player/data/mappers/DataMappers.kt:366-386 | every column of the row except `lastWatched`, including both totals, carried into the same-named field |
| DataMappers.SeasonEntityToDomain | app/src/main/java/com/iptv/player/data/mappers/DataMappers.kt:388-399 | every column of the row carried into the same-named field |
| DataMappers.EpisodeEntityToDomain | app/src/main/java/com/iptv/player/data/mappers/DataMappers.kt:401-416 | every column of the row carried into the same-named field |
| DataMappers.CategoryEntityToDomain | app/src/main/java/com/iptv/player/data/mappers/DataMappers.kt:418-424 | id, name and parent id carried over; the type column is dropped |
| DataMappers.EPGProgramEntityToDomain | app/src/main/java/com/iptv/player/data/mappers/DataMappers.kt:426-436 | every column of the row carried into the same-named field |
| DataMappers.ContentRowRoundTrip | app/src/main/java/com/iptv/player/data/mappers/DataMappers.kt:329-386 | a channel, movie or series row read and written back loses only its `lastWatched` stamp |
| DataMappers.PlainRowRoundTrip | app/src/main/java/com/iptv/player/data/mappers/DataMappers.kt:388-436 | season, episode, category and programme rows survive a read and a write unchanged |
| DataMappers.GenreNames | app/src/main/java/com/iptv/player/data/mappers/DataMappers.kt:444 | the genre names, in order |
| DataMappers.MergedGenre | app/src/main/java/com/iptv/player/data/mappers/DataMappers.kt:444 | the joined genre names replace the genre, unless there are no genres or one unnamed genre |
| DataMappers.MergedText | app/src/main/java/com/iptv/player/data/mappers/DataMappers.kt:443 | a non-empty overview replaces the description; otherwise it is kept |
| DataMappers.MergedYear | app/src/main/java/com/iptv/player/data/mappers/DataMappers.kt:446 | a release date replaces the year with its first four characters, or with the whole date when it is shorter; no date keeps the year |
| DataMappers.MergedRating | app/src/main/java/com/iptv/player/data/mappers/DataMappers.kt:445 | a positive vote average replaces the rating; otherwise it is kept |
| DataMappers.MergedImage | app/src/main/java/com/iptv/player/data/mappers/DataMappers.kt:441-442 | a built image URL replaces the current one; none keeps it |
| DataMappers.EnhanceMovieWithTMDB | app/src/main/java/com/iptv/player/data/mappers/DataMappers.kt:439-449 | poster ("w500") and backdrop ("w1280") from the paths given; description, genre, rating and year merged; runtime becomes "<n> min"; every other field unchanged |
| DataMappers.EnhanceSeriesWithTMDB | app/src/main/java/com/iptv/player/data/mappers/DataMappers.kt:451-462 | the same merges from the first air date; season and episode totals taken from the details; every other field unchanged |
| DataMappers.EnhanceIdempotent | app/src/main/java/com/iptv/player/data/mappers/DataMappers.kt:439-462 | enriching twice with the same details equals enriching once |
| DataMappers.EnhanceWithNothingKeepsMovie | app/src/main/java/com/iptv/player/data/mappers/DataMappers.kt:439-449 | details carrying nothing leave the movie unchanged |
| Tables.Upsert | app/src/main/java/com/iptv/player/data/local/dao/IPTVDao.kt:30-31 | REPLACE insert: the row is stored under its key, every other row is untouched |
| Tables.LastWithKey | app/src/main/java/com/iptv/player/data/local/dao/IPTVDao.kt:27-28 | the last row of a batch with a given key, or none when no row has it |
| Tables.UpsertAll | app/src/main/java/com/iptv/player/data/local/dao/IPTVDao.kt:27-28 | batch REPLACE insert: the new keys are the old ones plus the batch's; each key holds the batch's last row with that key, or else its old row |
| Tables.UpsertAllSingle | app/src/main/java/com/iptv/player/data/local/dao/IPTVDao.kt:27-31 | inserting a one-row list is inserting that row |
| Tables.UpsertAllIdempotent | app/src/main/java/com/iptv/player/data/local/dao/IPTVDao.kt:27-28 | inserting the same batch twice equals inserting it once |
| Tables.UpdateExisting | app/src/main/java/com/iptv/player/data/local/dao/IPTVDao.kt:33-34 | `@Update`: replaces the row with the entity's key; a missing key changes nothing |
| Tables.UpdateColumn | app/src/main/java/com/iptv/player/data/local/dao/IPTVDao.kt:36-40 | `UPDATE … WHERE id`: changes only the row with that key, and only as given |
| Tables.DeleteWhere | app/src/main/java/com/iptv/player/data/local/dao/IPTVDao.kt:45-46 | `DELETE … WHERE`: exactly the non-matching rows remain, unchanged |
| Tables.DeleteWhereIdempotent | app/src/main/java/com/iptv/player/data/local/dao/IPTVDao.kt:156-157 | nothing a delete matched remains, and deleting again changes nothing |
| Tables.Lookup | app/src/main/java/com/iptv/player/data/local/dao/IPTVDao.kt:21-22 | by primary key: the stored row with that key, or null exactly when there is none |
| Tables.InsertionPoint | app/src/main/java/com/iptv/player/data/local/dao/IPTVDao.kt:9 | a position after every row ranked before the new row and before every row ranked after it |
| Tables.InsertKeepsOrder | app/src/main/java/com/iptv/player/data/local/dao/IPTVDao.kt:9 | inserting there keeps a result sorted and free of repeated rows |
| Tables.Select | app/src/main/java/com/iptv/player/data/local/dao/IPTVDao.kt:9-19 | the scan returns exactly the matching stored rows, once each, in the query's order |
| Tables.SelectLimited | app/src/main/java/com/iptv/player/data/local/dao/IPTVDao.kt:24-25 | with `LIMIT`: a negative limit returns all; otherwise at most that many, and a row left out ranks no earlier than any row returned |
| Tables.FindAny | app/src/main/java/com/iptv/player/data/local/dao/IPTVDao.kt:249-250 | a non-key lookup returns some matching row, or null exactly when none matches |
| IPTVDao.NameOrdersAreTotal | app/src/main/java/com/iptv/player/data/local/dao/IPTVDao.kt:9 | `ORDER BY name` is a total preorder for channels, movies, series and categories |
| IPTVDao.NumericOrdersAreTotal | app/src/main/java/com/iptv/player/data/local/dao/IPTVDao.kt:24 | every numeric `ORDER BY` used (recency, rating, season, episode, date, start time) is a total preorder |
| IPTVDao.ChannelDao.GetAllChannels | app/src/main/java/com/iptv/player/data/local/dao/IPTVDao.kt:9-10 | every channel, once each, ordered by name |
| IPTVDao.ChannelDao.GetChannelsByCategory | app/src/main/java/com/iptv/player/data/local/dao/IPTVDao.kt:12-13 | exactly the channels of the category, ordered by name |
| IPTVDao.ChannelDao.GetFavoriteChannels | app/src/main/java/com/iptv/player/data/local/dao/IPTVDao.kt:15-16 | exactly the favourite channels, ordered by name |
| IPTVDao.ChannelDao.SearchChannels | app/src/main/java/com/iptv/player/data/local/dao/IPTVDao.kt:18-19 | exactly the channels whose name contains the query, ordered by name |
| IPTVDao.ChannelDao.GetChannelById | app/src/main/java/com/iptv/player/data/local/dao/IPTVDao.kt:21-22 | the channel with that id, or null exactly when there is none |
| IPTVDao.ChannelDao.GetRecentChannels | app/src/main/java/com/iptv/player/data/local/dao/IPTVDao.kt:24-25 | the most recently watched channels, latest first, at most `limit` (10 by default) |
| IPTVDao.ChannelDao.InsertChannels | app/src/main/java/com/iptv/player/data/local/dao/IPTVDao.kt:27-28 | the table after a batch REPLACE insert |
| IPTVDao.ChannelDao.InsertChannel | app/src/main/java/com/iptv/player/data/local/dao/IPTVDao.kt:30-31 | the table after a REPLACE insert |
| IPTVDao.ChannelDao.UpdateChannel | app/src/main/java/com/iptv/player/data/local/dao/IPTVDao.kt:33-34 | the table after an update by primary key |
| IPTVDao.ChannelDao.UpdateFavoriteStatus | app/src/main/java/com/iptv/player/data/local/dao/IPTVDao.kt:36-37 | only that channel's favourite flag changes |
| IPTVDao.ChannelDao.UpdateLastWatched | app/src/main/java/com/iptv/player/data/local/dao/IPTVDao.kt:39-40 | only that channel's watch time changes |
| IPTVDao.ChannelDao.DeleteChannel | app/src/main/java/com/iptv/player/data/local/dao/IPTVDao.kt:42-43 | the row with the channel's id is gone, nothing else changes |
| IPTVDao.ChannelDao.DeleteAllChannels | app/src/main/java/com/iptv/player/data/local/dao/IPTVDao.kt:45-46 | the table is empty |
| IPTVDao.MovieDao.GetAllMovies | app/src/main/java/com/iptv/player/data/local/dao/IPTVDao.kt:51-52 | every movie, once each, ordered by name |
| IPTVDao.MovieDao.GetMoviesByCategory | app/src/main/java/com/iptv/player/data/local/dao/IPTVDao.kt:54-55 | exactly the movies of the category, ordered by name |
| IPTVDao.MovieDao.GetFavoriteMovies | app/src/main/java/com/iptv/player/data/local/dao/IPTVDao.kt:57-58 | exactly the favourite movies, ordered by name |
| IPTVDao.MovieDao.SearchMovies | app/src/main/java/com/iptv/player/data/local/dao/IPTVDao.kt:60-61 | exactly the movies whose name contains the query, ordered by name |
| IPTVDao.MovieDao.GetMovieById | app/src/main/java/com/iptv/player/data/local/dao/IPTVDao.kt:63-64 | the movie with that id, or null exactly when there is none |
| IPTVDao.MovieDao.GetRecentMovies | app/src/main/java/com/iptv/player/data/local/dao/IPTVDao.kt:66-67 | the most recently watched movies, latest first, at most `limit` (10 by default) |
| IPTVDao.MovieDao.GetFeaturedMovies | app/src/main/java/com/iptv/player/data/local/dao/IPTVDao.kt:69-70 | movies rated 7.0 or more, best first, at most `limit` (20 by default) |
| IPTVDao.MovieDao.InsertMovies | app/src/main/java/com/iptv/player/data/local/dao/IPTVDao.kt:72-73 | the table after a batch REPLACE insert |
| IPTVDao.MovieDao.InsertMovie | app/src/main/java/com/iptv/player/data/local/dao/IPTVDao.kt:75-76 | the table after a REPLACE insert |
| IPTVDao.MovieDao.UpdateMovie | app/src/main/java/com/iptv/player/data/local/dao/IPTVDao.kt:78-79 | the table after an update by primary key |
| IPTVDao.MovieDao.UpdateFavoriteStatus | app/src/main/java/com/iptv/player/data/local/dao/IPTVDao.kt:81-82 | only that movie's favourite flag changes |
| IPTVDao.MovieDao.UpdateLastWatched | app/src/main/java/com/iptv/player/data/local/dao/IPTVDao.kt:84-85 | only that movie's watch time changes |
| IPTVDao.MovieDao.DeleteMovie | app/src/main/java/com/iptv/player/data/local/dao/IPTVDao.kt:87-88 | the row with the movie's id is gone, nothing else changes |
| IPTVDao.MovieDao.DeleteAllMovies | app/src/main/java/com/iptv/player/data/local/dao/IPTVDao.kt:90-91 | the table is empty |
| IPTVDao.TVSeriesDao.GetAllSeries | app/src/main/java/com/iptv/player/data/local/dao/IPTVDao.kt:96-97 | every series, once each, ordered by name |
| IPTVDao.TVSeriesDao.GetSeriesByCategory | app/src/main/java/com/iptv/player/data/local/dao/IPTVDao.kt:99-100 | exactly the series of the category, ordered by name |
| IPTVDao.TVSeriesDao.GetFavoriteSeries | app/src/main/java/com/iptv/player/data/local/dao/IPTVDao.kt:102-103 | exactly the favourite series, ordered by name |
| IPTVDao.TVSeriesDao.SearchSeries | app/src/main/java/com/iptv/player/data/local/dao/IPTVDao.kt:105-106 | exactly the series whose name contains the query, ordered by name |
| IPTVDao.TVSeriesDao.GetSeriesById | app/src/main/java/com/iptv/player/data/local/dao/IPTVDao.kt:108-109 | the series with that id, or null exactly when there is none |
| IPTVDao.TVSeriesDao.GetRecentSeries | app/src/main/java/com/iptv/player/data/local/dao/IPTVDao.kt:111-112 | the most recently watched series, latest first, at most `limit` (10 by default) |
| IPTVDao.TVSeriesDao.InsertSeries | app/src/main/java/com/iptv/player/data/local/dao/IPTVDao.kt:114-115 | the table after a batch REPLACE insert |
| IPTVDao.TVSeriesDao.InsertSingleSeries | app/src/main/java/com/iptv/player/data/local/dao/IPTVDao.kt:117-118 | the table after a REPLACE insert |
| IPTVDao.TVSeriesDao.UpdateSeries | app/src/main/java/com/iptv/player/data/local/dao/IPTVDao.kt:120-121 | the table after an update by primary key |
| IPTVDao.TVSeriesDao.UpdateFavoriteStatus | app/src/main/java/com/iptv/player/data/local/dao/IPTVDao.kt:123-124 | only that series' favourite flag changes |
| IPTVDao.TVSeriesDao.UpdateLastWatched | app/src/main/java/com/iptv/player/data/local/dao/IPTVDao.kt:126-127 | only that series' watch time changes |
| IPTVDao.TVSeriesDao.DeleteSeries | app/src/main/java/com/iptv/player/data/local/dao/IPTVDao.kt:129-130 | the row with the series' id is gone, nothing else changes |
| IPTVDao.TVSeriesDao.DeleteAllSeries | app/src/main/java/com/iptv/player/data/local/dao/IPTVDao.kt:132-133 | the table is empty |
| IPTVDao.SeasonDao.GetSeasonsBySeriesId | app/src/main/java/com/iptv/player/data/local/dao/IPTVDao.kt:138-139 | exactly the seasons of the series, by season number |
| IPTVDao.SeasonDao.GetSeasonById | app/src/main/java/com/iptv/player/data/local/dao/IPTVDao.kt:141-142 | the season with that id, or null exactly when there is none |
| IPTVDao.SeasonDao.InsertSeasons | app/src/main/java/com/iptv/player/data/local/dao/IPTVDao.kt:144-145 | the table after a batch REPLACE insert |
| IPTVDao.SeasonDao.InsertSeason | app/src/main/java/com/iptv/player/data/local/dao/IPTVDao.kt:147-148 | the table after a REPLACE insert |
| IPTVDao.SeasonDao.UpdateSeason | app/src/main/java/com/iptv/player/data/local/dao/IPTVDao.kt:150-151 | the table after an update by primary key |
| IPTVDao.SeasonDao.DeleteSeason | app/src/main/java/com/iptv/player/data/local/dao/IPTVDao.kt:153-154 | the row with the season's id is gone, nothing else changes |
| IPTVDao.SeasonDao.DeleteSeasonsBySeriesId | app/src/main/java/com/iptv/player/data/local/dao/IPTVDao.kt:156-157 | no season of the series remains; other seasons are untouched |
| IPTVDao.EpisodeDao.GetEpisodesBySeasonId | app/src/main/java/com/iptv/player/data/local/dao/IPTVDao.kt:162-163 | exactly the episodes of that season of the series, by episode number |
| IPTVDao.EpisodeDao.GetEpisodesBySeriesId | app/src/main/java/com/iptv/player/data/local/dao/IPTVDao.kt:165-166 | exactly the episodes of the series, by season and then episode number |
| IPTVDao.EpisodeDao.GetEpisodeById | app/src/main/java/com/iptv/player/data/local/dao/IPTVDao.kt:168-169 | the episode with that id, or null exactly when there is none |
| IPTVDao.EpisodeDao.InsertEpisodes | app/src/main/java/com/iptv/player/data/local/dao/IPTVDao.kt:171-172 | the table after a batch REPLACE insert |
| IPTVDao.EpisodeDao.InsertEpisode | app/src/main/java/com/iptv/player/data/local/dao/IPTVDao.kt:174-175 | the table after a REPLACE insert |
| IPTVDao.EpisodeDao.UpdateEpisode | app/src/main/java/com/iptv/player/data/local/dao/IPTVDao.kt:177-178 | the table after an update by primary key |
| IPTVDao.EpisodeDao.DeleteEpisode | app/src/main/java/com/iptv/player/data/local/dao/IPTVDao.kt:180-181 | the row with the episode's id is gone, nothing else changes |
| IPTVDao.EpisodeDao.DeleteEpisodesBySeriesId | app/src/main/java/com/iptv/player/data/local/dao/IPTVDao.kt:183-184 | no episode of the series remains; other episodes are untouched |
| IPTVDao.CategoryDao.GetCategoriesByType | app/src/main/java/com/iptv/player/data/local/dao/IPTVDao.kt:189-190 | exactly the categories of that type, ordered by name |
| IPTVDao.CategoryDao.GetAllCategories | app/src/main/java/com/iptv/player/data/local/dao/IPTVDao.kt:192-193 | every category, once each, ordered by name |
| IPTVDao.CategoryDao.GetCategoryById | app/src/main/java/com/iptv/player/data/local/dao/IPTVDao.kt:195-196 | the category with that id, or null exactly when there is none |
| IPTVDao.CategoryDao.InsertCategories | app/src/main/java/com/iptv/player/data/local/dao/IPTVDao.kt:198-199 | the table after a batch REPLACE insert |
| IPTVDao.CategoryDao.InsertCategory | app/src/main/java/com/iptv/player/data/local/dao/IPTVDao.kt:201-202 | the table after a REPLACE insert |
| IPTVDao.CategoryDao.UpdateCategory | app/src/main/java/com/iptv/player/data/local/dao/IPTVDao.kt:204-205 | the table after an update by primary key |
| IPTVDao.CategoryDao.DeleteCategory | app/src/main/java/com/iptv/player/data/local/dao/IPTVDao.kt:207-208 | the row with the category's id is gone, nothing else changes |
| IPTVDao.CategoryDao.DeleteCategoriesByType | app/src/main/java/com/iptv/player/data/local/dao/IPTVDao.kt:210-211 | no category of that type remains; the others are untouched |
| IPTVDao.FavoriteDao.GetAllFavorites | app/src/main/java/com/iptv/player/data/local/dao/IPTVDao.kt:216-217 | every favourite, newest first |
| IPTVDao.FavoriteDao.GetFavoritesByType | app/src/main/java/com/iptv/player/data/local/dao/IPTVDao.kt:219-220 | exactly the favourites of that content type, newest first |
| IPTVDao.FavoriteDao.GetFavorite | app/src/main/java/com/iptv/player/data/local/dao/IPTVDao.kt:222-223 | a row recording the content, or null exactly when it is not a favourite |
| IPTVDao.FavoriteDao.IsFavorite | app/src/main/java/com/iptv/player/data/local/dao/IPTVDao.kt:225-226 | true exactly when some row records the content |
| IPTVDao.FavoriteDao.InsertFavorite | app/src/main/java/com/iptv/player/data/local/dao/IPTVDao.kt:228-229 | the table after a REPLACE insert; the content is then a favourite |
| IPTVDao.FavoriteDao.DeleteFavorite | app/src/main/java/com/iptv/player/data/local/dao/IPTVDao.kt:231-232 | the row with the favourite's id is gone, nothing else changes |
| IPTVDao.FavoriteDao.DeleteFavoriteByContent | app/src/main/java/com/iptv/player/data/local/dao/IPTVDao.kt:234-235 | every row recording the content is gone, so it is no longer a favourite |
| IPTVDao.FavoriteDao.DeleteAllFavorites | app/src/main/java/com/iptv/player/data/local/dao/IPTVDao.kt:237-238 | the table is empty and nothing is a favourite |
| IPTVDao.WatchHistoryDao.GetWatchHistory | app/src/main/java/com/iptv/player/data/local/dao/IPTVDao.kt:243-244 | the latest entries first, at most `limit` (50 by default) |
| IPTVDao.WatchHistoryDao.GetWatchHistoryByType | app/src/main/java/com/iptv/player/data/local/dao/IPTVDao.kt:246-247 | exactly the entries whose stored type text equals the argument, latest first |
| IPTVDao.WatchHistoryDao.GetWatchHistoryItem | app/src/main/java/com/iptv/player/data/local/dao/IPTVDao.kt:249-250 | an entry for the content, or null exactly when there is none |
| IPTVDao.WatchHistoryDao.InsertWatchHistoryItem | app/src/main/java/com/iptv/player/data/local/dao/IPTVDao.kt:252-253 | the table after a REPLACE insert |
| IPTVDao.WatchHistoryDao.UpdateWatchHistoryItem | app/src/main/java/com/iptv/player/data/local/dao/IPTVDao.kt:255-256 | the table after an update by primary key |
| IPTVDao.WatchHistoryDao.DeleteWatchHistoryItem | app/src/main/java/com/iptv/player/data/local/dao/IPTVDao.kt:258-259 | the row with the entry's id is gone, nothing else changes |
| IPTVDao.WatchHistoryDao.DeleteWatchHistoryByContentId | app/src/main/java/com/iptv/player/data/local/dao/IPTVDao.kt:261-262 | no entry for the content remains; the others are untouched |
| IPTVDao.WatchHistoryDao.DeleteAllWatchHistory | app/src/main/java/com/iptv/player/data/local/dao/IPTVDao.kt:264-265 | the table is empty |
| IPTVDao.WatchHistoryDao.DeleteOldWatchHistory | app/src/main/java/com/iptv/player/data/local/dao/IPTVDao.kt:267-268 | exactly the entries watched at or after the timestamp remain |
| IPTVDao.HistoryTypeFilter | app/src/main/java/com/iptv/player/data/local/dao/IPTVDao.kt:246-247 | filtering by a kind's stored text selects exactly the entries of that kind; any other text selects none |
| IPTVDao.EPGDao.GetProgramsByChannelAndTimeRange | app/src/main/java/com/iptv/player/data/local/dao/IPTVDao.kt:273-274 | exactly the channel's programmes inside the window, by start time |
| IPTVDao.EPGDao.GetProgramsByChannel | app/src/main/java/com/iptv/player/data/local/dao/IPTVDao.kt:276-277 | exactly the channel's programmes, by start time |
| IPTVDao.EPGDao.GetCurrentPrograms | app/src/main/java/com/iptv/player/data/local/dao/IPTVDao.kt:279-280 | exactly the programmes airing at that time, in no particular order |
| IPTVDao.EPGDao.GetProgramById | app/src/main/java/com/iptv/player/data/local/dao/IPTVDao.kt:282-283 | the programme with that id, or null exactly when there is none |
| IPTVDao.EPGDao.InsertPrograms | app/src/main/java/com/iptv/player/data/local/dao/IPTVDao.kt:285-286 | the table after a batch REPLACE insert |
| IPTVDao.EPGDao.InsertProgram | app/src/main/java/com/iptv/player/data/local/dao/IPTVDao.kt:288-289 | the table after a REPLACE insert |
| IPTVDao.EPGDao.UpdateProgram | app/src/main/java/com/iptv/player/data/local/dao/IPTVDao.kt:291-292 | the table after an update by primary key |
| IPTVDao.EPGDao.DeleteProgram | app/src/main/java/com/iptv/player/data/local/dao/IPTVDao.kt:294-295 | the row with the programme's id is gone, nothing else changes |
| IPTVDao.EPGDao.DeleteProgramsByChannel | app/src/main/java/com/iptv/player/data/local/dao/IPTVDao.kt:297-298 | no programme of the channel remains; the others are untouched |
| IPTVDao.EPGDao.DeleteOldPrograms | app/src/main/java/com/iptv/player/data/local/dao/IPTVDao.kt:300-301 | exactly the programmes ending at or after the timestamp remain |
| IPTVDao.EPGDao.DeleteAllPrograms | app/src/main/java/com/iptv/player/data/local/dao/IPTVDao.kt:303-304 | the table is empty |
| IPTVDao.DeleteOldKeepsAiring | app/src/main/java/com/iptv/player/data/local/dao/IPTVDao.kt:279-280 | pruning the guide up to a time keeps every programme airing at that time or later |
| IPTVDao.SavedContentReadsBack | app/src/main/java/com/iptv/player/data/local/dao/IPTVDao.kt:21-31 | a channel, movie or series saved through its mapper reads back by id as the same value |

## Left out

- Flows and coroutines: each read returns its result once. The re-emission of a `Flow` when the table changes is not modelled, and neither is `suspend`.
- The Retrofit endpoint declarations of the provider and TMDB clients, and the HTTP, JSON and network behind them, are not modelled.
- The Room database class, the dependency-injection modules and the `StringListConverter` (JSON through Gson) are not modelled.
- The user-settings and credentials DAOs are not modelled. Their entities' defaults are.
- Column defaults that read the clock (`addedAt`, `lastWatchedAt`, `lastLogin`) are ordinary parameters; the caller passes the time.
- DataMappers.EpisodeDtoToDomain: requires an id that `toInt()` accepts. For any other id the source throws, and that exception path is not modelled.
- DataMappers.EpisodeDtoToDomain: `toDoubleOrNull` is a parameter, `parseDouble`. Kotlin's floating-point grammar is not modelled.
- DataMappers.SeriesInfoToDomain: the episode total is the exact count. Kotlin's `Int` sum would wrap past 2^31 - 1 episodes.
- KotlinText.ParseInt: accepts ASCII digits only. Kotlin's `toInt` also accepts other Unicode decimal digits.
- IPTVDao.ChannelDao.SearchChannels: matches names containing the query exactly. SQLite's `LIKE` also ignores ASCII case and treats `%` and `_` in the query as wildcards.
- IPTVDao.MovieDao.SearchMovies: the same substring simplification of `LIKE`.
- IPTVDao.TVSeriesDao.SearchSeries: the same substring simplification of `LIKE`.
- Ratings are `real`; NaN and infinities of `Double` are not modelled.
- Other `Int` and `Long` columns (ids, numbers, times other than the guide conversion) are unbounded integers; their 32/64-bit limits are not modelled.
- The provider's `SeriesInfo.episodes` map is a sequence of (season key, episode list) pairs; distinct keys are not enforced, which admits inputs no JSON object produces but leaves every real input representable.
- The provider and TMDB records keep only the fields the mappers read, and Gson's handling of missing fields is not modelled.
