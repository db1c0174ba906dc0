/**
 * The image and trailer URL helpers of the metadata (TMDB) API client. The
 * HTTP endpoint declarations of the same interface are not modelled.
 */
module TMDBApi {
  import opened Wrappers

  const BASE_URL: string := "https://api.themoviedb.org/3/"
  const IMAGE_BASE_URL: string := "https://image.tmdb.org/t/p/"

  const POSTER_SIZE_W185: string := "w185"
  const POSTER_SIZE_W342: string := "w342"
  const POSTER_SIZE_W500: string := "w500"
  const POSTER_SIZE_W780: string := "w780"
  const POSTER_SIZE_ORIGINAL: string := "original"

  const BACKDROP_SIZE_W300: string := "w300"
  const BACKDROP_SIZE_W780: string := "w780"
  const BACKDROP_SIZE_W1280: string := "w1280"
  const BACKDROP_SIZE_ORIGINAL: string := "original"

  const PROFILE_SIZE_W45: string := "w45"
  const PROFILE_SIZE_W185: string := "w185"
  const PROFILE_SIZE_H632: string := "h632"
  const PROFILE_SIZE_ORIGINAL: string := "original"

  const YOUTUBE_WATCH_PREFIX: string := "https://www.youtube.com/watch?v="
  const YOUTUBE_THUMBNAIL_PREFIX: string := "https://img.youtube.com/vi/"
  const YOUTUBE_THUMBNAIL_SUFFIX: string := "/maxresdefault.jpg"

  /** A relative image path becomes a full URL by prefixing the image base
      and the size token, with no separator added; no path gives no URL. */
  function BuildImageUrl(imagePath: Option<string>, size: string := POSTER_SIZE_W500): (url: Option<string>)
    ensures url.None? <==> imagePath.None?
    ensures url.Some? ==> IMAGE_BASE_URL + size <= url.value
    ensures url.Some? ==> url.value[|IMAGE_BASE_URL| + |size|..] == imagePath.value
  {
    match imagePath
    case Some(path) => Some(IMAGE_BASE_URL + size + path)
    case None => None
  }

  function BuildPosterUrl(posterPath: Option<string>, size: string := POSTER_SIZE_W500): Option<string> {
    BuildImageUrl(posterPath, size)
  }

  function BuildBackdropUrl(backdropPath: Option<string>, size: string := BACKDROP_SIZE_W1280): Option<string> {
    BuildImageUrl(backdropPath, size)
  }

  function BuildProfileUrl(profilePath: Option<string>, size: string := PROFILE_SIZE_W185): Option<string> {
    BuildImageUrl(profilePath, size)
  }

  /** The three helpers differ from BuildImageUrl only in their default size. */
  lemma ImageHelperDefaults(path: Option<string>)
    ensures BuildPosterUrl(path) == BuildImageUrl(path, "w500")
    ensures BuildBackdropUrl(path) == BuildImageUrl(path, "w1280")
    ensures BuildProfileUrl(path) == BuildImageUrl(path, "w185")
  {
  }

  /** With an explicit size each helper is BuildImageUrl itself. */
  lemma ImageHelpersDelegate(path: Option<string>, size: string)
    ensures BuildPosterUrl(path, size) == BuildImageUrl(path, size)
    ensures BuildBackdropUrl(path, size) == BuildImageUrl(path, size)
    ensures BuildProfileUrl(path, size) == BuildImageUrl(path, size)
  {
  }

  /** An image URL determines its path once the size token is known, so two
      different paths never give the same URL. */
  lemma ImageUrlInjective(p: Option<string>, q: Option<string>, size: string)
    requires BuildImageUrl(p, size) == BuildImageUrl(q, size)
    ensures p == q
  {
  }

  function BuildYouTubeTrailerUrl(key: string): (url: string)
    ensures YOUTUBE_WATCH_PREFIX <= url && url[|YOUTUBE_WATCH_PREFIX|..] == key
  {
    YOUTUBE_WATCH_PREFIX + key
  }

  function BuildYouTubeThumbnailUrl(key: string): (url: string)
    ensures |url| == |YOUTUBE_THUMBNAIL_PREFIX| + |key| + |YOUTUBE_THUMBNAIL_SUFFIX|
    ensures YOUTUBE_THUMBNAIL_PREFIX <= url
    ensures url[|YOUTUBE_THUMBNAIL_PREFIX|..|url| - |YOUTUBE_THUMBNAIL_SUFFIX|] == key
    ensures url[|url| - |YOUTUBE_THUMBNAIL_SUFFIX|..] == YOUTUBE_THUMBNAIL_SUFFIX
  {
    YOUTUBE_THUMBNAIL_PREFIX + key + YOUTUBE_THUMBNAIL_SUFFIX
  }
}
