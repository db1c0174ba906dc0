/**
 * The two URL helpers of the provider (Xtream-Codes) API client. The HTTP
 * endpoint declarations of the same interface are not modelled.
 */
module XtreamApi {
  import opened KotlinText

  const DEFAULT_EXTENSION: string := "ts"
  const DEFAULT_CATCHUP_DURATION: int := 3600

  /** Playable address of a live channel, a movie or an episode. The content
      kind selects the path template; an unknown kind falls back to the live
      template. Nothing is validated or escaped. */
  function BuildStreamUrl(serverUrl: string, username: string, password: string,
                          streamId: int, kind: string, extension: string := DEFAULT_EXTENSION): (url: string)
    ensures serverUrl <= url
    ensures EndsWith(url, "." + extension)
  {
    FileNameEnds(IntToString(streamId), extension);
    EndsWithAfter(KindDirectory(kind) + "/" + username + "/" + password + "/", FileName(streamId, extension),
                  "." + extension);
    EndsWithAfter(serverUrl, StreamPath(username, password, streamId, kind, extension), "." + extension);
    serverUrl + StreamPath(username, password, streamId, kind, extension)
  }

  /** Everything after the server address:
      "<dir>/<user>/<pass>/<id>.<ext>", where <dir> depends on the kind. */
  function StreamPath(username: string, password: string, streamId: int, kind: string, extension: string): string {
    KindDirectory(kind) + "/" + username + "/" + password + "/" + FileName(streamId, extension)
  }

  /** The last segment, "<id>.<ext>". */
  function FileName(streamId: int, extension: string): string {
    IntToString(streamId) + "." + extension
  }

  lemma FileNameEnds(id: string, extension: string)
    ensures EndsWith(id + "." + extension, "." + extension)
  {
    assert id + "." + extension == id + ("." + extension);
    EndsWithConcat(id, "." + extension);
  }

  /** The directory a content kind adds in front of the credentials:
      "/movie" for movies, "/series" for episodes, none for "live" and for
      every other kind. */
  function KindDirectory(kind: string): string {
    if kind == "live" then ""
    else if kind == "movie" then "/movie"
    else if kind == "series" then "/series"
    else ""
  }

  /** Address of a past time window of a live channel; the suffix is always ".ts". */
  function BuildCatchupUrl(serverUrl: string, username: string, password: string, streamId: int,
                           startTimestamp: int, duration: int := DEFAULT_CATCHUP_DURATION): (url: string)
    ensures serverUrl <= url
    ensures EndsWith(url, ".ts")
  {
    FileNameEnds(IntToString(streamId), "ts");
    EndsWithAfter("/timeshift" + "/" + username + "/" + password + "/" + IntToString(duration) + "/"
      + IntToString(startTimestamp) + "/", FileName(streamId, "ts"), ".ts");
    EndsWithAfter(serverUrl, CatchupPath(username, password, streamId, startTimestamp, duration), ".ts");
    serverUrl + CatchupPath(username, password, streamId, startTimestamp, duration)
  }

  /** "/timeshift/<user>/<pass>/<duration>/<start>/<id>.ts" */
  function CatchupPath(username: string, password: string, streamId: int, startTimestamp: int, duration: int): string {
    "/timeshift" + "/" + username + "/" + password + "/" + IntToString(duration) + "/"
      + IntToString(startTimestamp) + "/" + FileName(streamId, "ts")
  }

  /** Any kind other than the three known ones yields exactly the live URL. */
  lemma UnknownKindIsLive(serverUrl: string, username: string, password: string,
                          streamId: int, kind: string, extension: string)
    requires kind != "live" && kind != "movie" && kind != "series"
    ensures BuildStreamUrl(serverUrl, username, password, streamId, kind, extension)
         == BuildStreamUrl(serverUrl, username, password, streamId, "live", extension)
  {
  }

  /** The last path segment "<id>.<ext>" splits back into the id and the extension. */
  lemma FileNameSegments(streamId: int, extension: string)
    requires '.' !in extension
    ensures SplitOn(IntToString(streamId) + "." + extension, '.') == [IntToString(streamId), extension]
  {
    SplitOnConcat(IntToString(streamId), extension, '.');
    SplitOnPlain(extension, '.');
  }

  lemma FileNameHasNoSlash(streamId: int, extension: string)
    requires '/' !in extension
    ensures '/' !in FileName(streamId, extension)
  {
    var file := FileName(streamId, extension);
    assert forall i :: 0 <= i < |file| ==> file[i] in IntToString(streamId) || file[i] == '.' || file[i] in extension;
  }

  /** Splitting "<first>/<rest>" when `first` has no '/'. */
  lemma SplitSlash(first: string, rest: string)
    requires '/' !in first
    ensures SplitOn(first + "/" + rest, '/') == [first] + SplitOn(rest, '/')
  {
    SplitOnConcat(first, rest, '/');
  }

  /** Splitting "<head>/<a>/<b>/<c>" when none of a, b, c contains '/'. */
  lemma SplitThreeSegments(head: string, a: string, b: string, c: string)
    requires '/' !in a && '/' !in b && '/' !in c
    ensures SplitOn(head + "/" + a + "/" + b + "/" + c, '/') == SplitOn(head, '/') + [a, b, c]
  {
    SplitOnSnoc(head, a, '/');
    SplitOnSnoc(head + "/" + a, b, '/');
    SplitOnSnoc(head + "/" + a + "/" + b, c, '/');
  }

  /** The path after the server address is, segment by segment, the kind's
      directory (if any), the user name, the password and "<id>.<ext>", so
      when the credentials and extension contain no '/', every input can be
      read back from the URL. */
  lemma StreamUrlSegments(serverUrl: string, username: string, password: string,
                          streamId: int, kind: string, extension: string)
    requires '/' !in username && '/' !in password && '/' !in extension
    ensures var url := BuildStreamUrl(serverUrl, username, password, streamId, kind, extension);
            var file := FileName(streamId, extension);
            var segments := SplitOn(url[|serverUrl|..], '/');
            && (kind == "movie" ==> segments == ["", "movie", username, password, file])
            && (kind == "series" ==> segments == ["", "series", username, password, file])
            && (kind != "movie" && kind != "series" ==> segments == ["", username, password, file])
  {
    var path := StreamPath(username, password, streamId, kind, extension);
    assert (serverUrl + path)[|serverUrl|..] == path;
    StreamPathSegments(username, password, streamId, kind, extension);
  }

  lemma StreamPathSegments(username: string, password: string, streamId: int, kind: string, extension: string)
    requires '/' !in username && '/' !in password && '/' !in extension
    ensures SplitOn(StreamPath(username, password, streamId, kind, extension), '/')
         == SplitOn(KindDirectory(kind), '/') + [username, password, FileName(streamId, extension)]
    ensures kind == "movie" ==> SplitOn(KindDirectory(kind), '/') == ["", "movie"]
    ensures kind == "series" ==> SplitOn(KindDirectory(kind), '/') == ["", "series"]
    ensures kind != "movie" && kind != "series" ==> SplitOn(KindDirectory(kind), '/') == [""]
  {
    FileNameHasNoSlash(streamId, extension);
    SplitThreeSegments(KindDirectory(kind), username, password, FileName(streamId, extension));
    KindDirectorySegments(kind);
  }

  lemma KindDirectorySegments(kind: string)
    ensures kind == "movie" ==> SplitOn(KindDirectory(kind), '/') == ["", "movie"]
    ensures kind == "series" ==> SplitOn(KindDirectory(kind), '/') == ["", "series"]
    ensures kind != "movie" && kind != "series" ==> SplitOn(KindDirectory(kind), '/') == [""]
  {
    if kind == "movie" || kind == "series" {
      SplitOnSnoc("", kind, '/');
      assert KindDirectory(kind) == "" + "/" + kind;
    }
  }

  /** Splitting "<head>/<a>/<b>/<c>/<d>/<e>" when none of a..e contains '/'. */
  lemma SplitFiveSegments(head: string, a: string, b: string, c: string, d: string, e: string)
    requires '/' !in a && '/' !in b && '/' !in c && '/' !in d && '/' !in e
    ensures SplitOn(head + "/" + a + "/" + b + "/" + c + "/" + d + "/" + e, '/') == SplitOn(head, '/') + [a, b, c, d, e]
  {
    SplitOnSnoc(head, a, '/');
    SplitOnSnoc(head + "/" + a, b, '/');
    SplitThreeSegments(head + "/" + a + "/" + b, c, d, e);
  }

  /** The catch-up path reads back as "timeshift", user, password, duration,
      start time and "<id>.ts". */
  lemma CatchupUrlSegments(serverUrl: string, username: string, password: string,
                           streamId: int, startTimestamp: int, duration: int)
    requires '/' !in username && '/' !in password
    ensures var url := BuildCatchupUrl(serverUrl, username, password, streamId, startTimestamp, duration);
            SplitOn(url[|serverUrl|..], '/')
              == ["", "timeshift", username, password, IntToString(duration),
                  IntToString(startTimestamp), FileName(streamId, "ts")]
  {
    CatchupPathSegments(username, password, streamId, startTimestamp, duration);
    var url := BuildCatchupUrl(serverUrl, username, password, streamId, startTimestamp, duration);
    assert url[|serverUrl|..] == CatchupPath(username, password, streamId, startTimestamp, duration);
  }

  lemma CatchupPathSegments(username: string, password: string, streamId: int, startTimestamp: int, duration: int)
    requires '/' !in username && '/' !in password
    ensures SplitOn(CatchupPath(username, password, streamId, startTimestamp, duration), '/')
              == ["", "timeshift", username, password, IntToString(duration),
                  IntToString(startTimestamp), FileName(streamId, "ts")]
  {
    FileNameHasNoSlash(streamId, "ts");
    TimeshiftSegments(username, password, IntToString(duration), IntToString(startTimestamp), FileName(streamId, "ts"));
  }

  lemma TimeshiftSegments(username: string, password: string, duration: string, start: string, file: string)
    requires '/' !in username && '/' !in password && '/' !in duration && '/' !in start && '/' !in file
    ensures SplitOn("/timeshift" + "/" + username + "/" + password + "/" + duration + "/" + start + "/" + file, '/')
         == ["", "timeshift", username, password, duration, start, file]
  {
    TimeshiftDirectory();
    SplitUnderHead("/timeshift", ["", "timeshift"], username, password, duration, start, file);
  }

  lemma TimeshiftDirectory()
    ensures SplitOn("/timeshift", '/') == ["", "timeshift"]
  {
    SplitOnSnoc("", "timeshift", '/');
    assert "" + "/" + "timeshift" == "/timeshift";
  }

  lemma SplitUnderHead(head: string, headParts: seq<string>, a: string, b: string, c: string, d: string, e: string)
    requires '/' !in a && '/' !in b && '/' !in c && '/' !in d && '/' !in e
    requires SplitOn(head, '/') == headParts
    ensures SplitOn(head + "/" + a + "/" + b + "/" + c + "/" + d + "/" + e, '/') == headParts + [a, b, c, d, e]
  {
    SplitFiveSegments(head, a, b, c, d, e);
  }
}
