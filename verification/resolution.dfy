/** Track resolution (`Node.get_tracks` and `Node.build_track` in pomice/pool.py).

    A query is first rewritten into a search (`"{search_type}:{query}"`)
    unless it holds a URL or is a local path. It is then routed: a Spotify
    link goes to the Spotify client, a Discord attachment link is loaded and
    retitled after its file name, and anything else is loaded and decoded by
    its `loadType`. The three regular expressions are written out as exact
    segment parsers. The HTTP endpoints and the Spotify client are function
    parameters: `loadTracks(q)` is the node's answer to `/loadtracks` for
    the identifier `q`, `spotifySearch(q)` the Spotify client's answer. */
module TrackResolution {
  import opened Results

  // ---------------------------------------------------------------------------
  // Data
  // ---------------------------------------------------------------------------

  /** The `info` object of a track, as the node sends it. */
  datatype TrackInfo = TrackInfo(
    identifier: string,
    isSeekable: bool,
    author: string,
    length: int,
    isStream: bool,
    position: int,
    sourceName: Option<string>,
    title: string,
    uri: Option<string>,
    thumbnail: Option<string>)

  /** One entry of the node's `tracks` list: the encoded track and its info. */
  datatype BackendTrack = BackendTrack(track: string, info: TrackInfo)

  datatype LoadException = LoadException(message: string, severity: string)

  datatype PlaylistInfo = PlaylistInfo(name: string, selectedTrack: int)

  /** The node's `/loadtracks` response; `None` marks an absent key. */
  datatype LoadResponse = LoadResponse(
    loadType: Option<string>,
    tracks: seq<BackendTrack>,
    playlistInfo: Option<PlaylistInfo>,
    exception: Option<LoadException>)

  /** The node's `/decodetrack` response. */
  datatype DecodeResponse = DecodeResponse(status: int, info: TrackInfo)

  /** A track as the Spotify client reports it. */
  datatype SpotifyTrack = SpotifyTrack(
    id: string, name: string, artists: string, length: int, uri: string, image: Option<string>)

  /** The Spotify client's search result: one track, or a collection
      (album, playlist or artist top tracks). */
  datatype SpotifyResult =
    | SpotifySingle(track: SpotifyTrack)
    | SpotifyCollection(name: string, image: Option<string>, uri: string, tracks: seq<SpotifyTrack>)

  datatype SpotifyCredentials = SpotifyCredentials(clientId: Option<string>, clientSecret: Option<string>)

  /** A playable track: the node's encoded id, its info, whether it came from
      Spotify, and the search type it was found with. */
  datatype Track = Track(trackId: string, info: TrackInfo, spotify: bool, searchType: Option<string>)

  datatype Playlist = Playlist(
    name: string,
    selectedTrack: int,
    tracks: seq<Track>,
    spotify: bool,
    thumbnail: Option<string>,
    uri: Option<string>,
    searchType: Option<string>)

  /** What `get_tracks` returns: a list of tracks, a playlist, or `None`. */
  datatype Outcome = Tracks(tracks: seq<Track>) | PlaylistLoaded(playlist: Playlist) | NoResult

  datatype ResolveError =
    | TrackLoadError(message: string)
    | InvalidSpotifyClientAuthorization
    /** A `KeyError` on a key the response lacks. */
    | MissingKey(key: string)
    /** The `IndexError` of taking the first track of an empty list. */
    | EmptyTrackList
    /** The `AttributeError` of using a Spotify client that was never created. */
    | NoSpotifyClient

  const NoLoadTypeMessage: string := "There was an error while trying to load this track. [NO_LOADTYPE]"
  const NoMatchesMessage: string := "No matches found. [NO_MATCHES]"
  const BuildFailedMessage: string := "Failed to build track. Check if the identifier is correct and try again."

  const NoMatches: string := "NO_MATCHES"
  const LoadFailed: string := "LOAD_FAILED"
  const PlaylistLoadedType: string := "PLAYLIST_LOADED"
  const SearchResult: string := "SEARCH_RESULT"
  const TrackLoaded: string := "TRACK_LOADED"

  const DefaultSearchType: string := "ytsearch"

  // ---------------------------------------------------------------------------
  // The three URL patterns
  // ---------------------------------------------------------------------------

  /** Strips a literal prefix. */
  function AfterPrefix(s: string, p: string): (r: Option<string>)
    ensures r.Some? <==> p <= s
    ensures r.Some? ==> s == p + r.value
  {
    if p <= s then Some(s[|p|..]) else None
  }

  /** `https?://` (the optional `s` is tried first). */
  function AfterScheme(s: string): Option<string> {
    if "https://" <= s then Some(s[8..]) else if "http://" <= s then Some(s[7..]) else None
  }

  /** `.`: any one character but a newline. */
  function AfterAnyChar(s: string): Option<string> {
    if |s| > 0 && s[0] != '\n' then Some(s[1..]) else None
  }

  predicate IsDigit(c: char) { '0' <= c <= '9' }
  predicate IsAlnum(c: char) { IsDigit(c) || 'a' <= c <= 'z' || 'A' <= c <= 'Z' }
  predicate IsFileChar(c: char) { IsAlnum(c) || c == '_' || c == '.' }

  /** The length of the longest prefix of `s` whose characters are all in the class. */
  function Span(s: string, inClass: char -> bool): (n: nat)
    ensures n <= |s|
    ensures forall i :: 0 <= i < n ==> inClass(s[i])
    ensures n < |s| ==> !inClass(s[n])
  {
    if s == [] || !inClass(s[0]) then 0 else 1 + Span(s[1..], inClass)
  }

  /** A greedy `[class]+`: the run and the rest of the string. */
  function Run(s: string, inClass: char -> bool): (r: Option<(string, string)>)
    ensures r.Some? <==> |s| > 0 && inClass(s[0])
    ensures r.Some? ==> |r.value.0| > 0 && s == r.value.0 + r.value.1
  {
    var n := Span(s, inClass);
    if n == 0 then None else Some((s[..n], s[n..]))
  }

  /** `URL_REGEX` matched at the start of `s`: a scheme and at least one more character. */
  predicate UrlAt(s: string) {
    var rest := AfterScheme(s);
    rest.Some? && AfterAnyChar(rest.value).Some?
  }

  /** `URL_REGEX.search(q)`: a URL starts somewhere in `q`. */
  predicate ContainsUrl(q: string) {
    exists k | 0 <= k <= |q| :: UrlAt(q[k..])
  }

  /** `(album|artist|playlist|track)`: the kind and what follows it. */
  function AfterSpotifyKind(s: string): Option<(string, string)> {
    if "album" <= s then Some(("album", s[5..]))
    else if "artist" <= s then Some(("artist", s[6..]))
    else if "playlist" <= s then Some(("playlist", s[8..]))
    else if "track" <= s then Some(("track", s[5..]))
    else None
  }

  /** `SPOTIFY_URL_REGEX.match(q)`: the link's kind and id. */
  function SpotifyLink(q: string): Option<(string, string)> {
    var a :- AfterScheme(q);
    var b :- AfterPrefix(a, "open");
    var c :- AfterAnyChar(b);
    var d :- AfterPrefix(c, "spotify");
    var e :- AfterAnyChar(d);
    var f :- AfterPrefix(e, "com/");
    var kind :- AfterSpotifyKind(f);
    var g :- AfterPrefix(kind.1, "/");
    var id :- Run(g, IsAlnum);
    Some((kind.0, id.0))
  }

  const AttachmentsPath: string := "com/attachments/"

  /** `DISCORD_MP3_URL_REGEX.match(q)`: the `file` group. The digit runs are
      greedy and must be followed by `/`; the file run is the longest run of
      `[a-zA-Z0-9_.]`. */
  function AttachmentFile(q: string): Option<string> {
    var a :- AfterScheme(q);
    var b :- AfterPrefix(a, "cdn");
    var c :- AfterAnyChar(b);
    var d :- AfterPrefix(c, "discordapp");
    var e :- AfterAnyChar(d);
    var f :- AfterPrefix(e, AttachmentsPath);
    var channel :- Run(f, IsDigit);
    var g :- AfterPrefix(channel.1, "/");
    var message :- Run(g, IsDigit);
    var h :- AfterPrefix(message.1, "/");
    var file :- Run(h, IsFileChar);
    Some(file.0)
  }

  // ---------------------------------------------------------------------------
  // Classification
  // ---------------------------------------------------------------------------

  /** The query after the search prefix is applied. */
  function SearchQuery(query: string, searchType: string, local: bool): string {
    if !ContainsUrl(query) && !local then searchType + ":" + query else query
  }

  datatype Route = SpotifyRoute | AttachmentRoute(file: string) | LoadRoute

  /** The branch `get_tracks` takes for an already rewritten query: Spotify
      first, then a Discord attachment, then everything else. */
  function Classify(q: string): Route {
    if SpotifyLink(q).Some? then SpotifyRoute
    else match AttachmentFile(q)
      case Some(file) => AttachmentRoute(file)
      case None => LoadRoute
  }

  // ---------------------------------------------------------------------------
  // Building tracks
  // ---------------------------------------------------------------------------

  /** The track built from a node entry by a search or a playlist. */
  function FromBackend(entry: BackendTrack, searchType: string): Track {
    Track(entry.track, entry.info, false, Some(searchType))
  }

  function FromBackendAll(entries: seq<BackendTrack>, searchType: string): seq<Track> {
    seq(|entries|, i requires 0 <= i < |entries| => FromBackend(entries[i], searchType))
  }

  /** What a track keeps of the node entry it came from. */
  function EntryOf(t: Track): BackendTrack {
    BackendTrack(t.trackId, t.info)
  }

  function Entries(ts: seq<Track>): seq<BackendTrack> {
    seq(|ts|, i requires 0 <= i < |ts| => EntryOf(ts[i]))
  }

  /** The track built from a Spotify track: marked as Spotify, with no
      source name, seekable, not a stream, at position 0. */
  function FromSpotifyTrack(t: SpotifyTrack): (r: Track)
    ensures r.spotify && r.trackId == t.id && r.info.identifier == t.id
    ensures r.info.sourceName.None? && r.info.position == 0
    ensures r.info.isSeekable && !r.info.isStream
    ensures r.info.title == t.name && r.info.author == t.artists
  {
    Track(t.id,
          TrackInfo(identifier := t.id, isSeekable := true, author := t.artists, length := t.length,
                    isStream := false, position := 0, sourceName := None, title := t.name,
                    uri := Some(t.uri), thumbnail := t.image),
          true, None)
  }

  /** The Spotify branch's result: one track in a list, or a playlist. */
  function FromSpotify(res: SpotifyResult): (r: Outcome)
    ensures res.SpotifySingle? ==> r == Tracks([FromSpotifyTrack(res.track)])
    ensures res.SpotifyCollection? ==>
              && r.PlaylistLoaded?
              && r.playlist.name == res.name && r.playlist.selectedTrack == 0
              && r.playlist.spotify && r.playlist.uri == Some(res.uri) && r.playlist.thumbnail == res.image
              && |r.playlist.tracks| == |res.tracks|
              && forall i :: 0 <= i < |res.tracks| ==> r.playlist.tracks[i] == FromSpotifyTrack(res.tracks[i])
  {
    match res
    case SpotifySingle(t) => Tracks([FromSpotifyTrack(t)])
    case SpotifyCollection(name, image, uri, tracks) =>
      PlaylistLoaded(Playlist(
        name := name, selectedTrack := 0,
        tracks := seq(|tracks|, i requires 0 <= i < |tracks| => FromSpotifyTrack(tracks[i])),
        spotify := true, thumbnail := image, uri := Some(uri), searchType := None))
  }

  /** The attachment branch's track: the node's first entry, retitled after
      the URL's file name and tagged as an `http` source. */
  function AttachmentTrack(entry: BackendTrack, file: string): Track {
    Track(entry.track,
          TrackInfo(identifier := entry.info.identifier, isSeekable := true, author := "Unknown",
                    length := entry.info.length, isStream := false, position := 0,
                    sourceName := Some("http"), title := file, uri := entry.info.uri,
                    thumbnail := None),
          false, None)
  }

  // ---------------------------------------------------------------------------
  // Decoding a load response
  // ---------------------------------------------------------------------------

  function FailureMessage(e: LoadException): string {
    e.message + " [" + e.severity + "]"
  }

  /** The `loadType` dispatch at the end of `get_tracks`. */
  function DecodeLoad(data: LoadResponse, searchType: string): (r: Result<Outcome, ResolveError>)
    ensures !Truthy(data.loadType) ==> r == Err(TrackLoadError(NoLoadTypeMessage))
    ensures data.loadType == Some(NoMatches) ==> r == Err(TrackLoadError(NoMatchesMessage))
    ensures data.loadType == Some(LoadFailed) ==>
              r == if data.exception.Some? then Err(TrackLoadError(FailureMessage(data.exception.value)))
                   else Err(MissingKey("exception"))
    ensures data.loadType == Some(PlaylistLoadedType) && data.playlistInfo.None? ==>
              r == Err(MissingKey("playlistInfo"))
    ensures data.loadType == Some(PlaylistLoadedType) && data.playlistInfo.Some? ==>
              && r.Ok? && r.value.PlaylistLoaded?
              && r.value.playlist.name == data.playlistInfo.value.name
              && r.value.playlist.selectedTrack == data.playlistInfo.value.selectedTrack
              && !r.value.playlist.spotify
              && Entries(r.value.playlist.tracks) == data.tracks
    ensures data.loadType == Some(SearchResult) || data.loadType == Some(TrackLoaded) ==>
              && r.Ok? && r.value.Tracks?
              && Entries(r.value.tracks) == data.tracks
              && forall t :: t in r.value.tracks ==> !t.spotify && t.searchType == Some(searchType)
    ensures Truthy(data.loadType)
            && data.loadType.value !in {NoMatches, LoadFailed, PlaylistLoadedType, SearchResult, TrackLoaded} ==>
              r == Ok(NoResult)
  {
    if !Truthy(data.loadType) then Err(TrackLoadError(NoLoadTypeMessage))
    else
      var loadType := data.loadType.value;
      if loadType == NoMatches then Err(TrackLoadError(NoMatchesMessage))
      else if loadType == LoadFailed then
        if data.exception.Some? then Err(TrackLoadError(FailureMessage(data.exception.value)))
        else Err(MissingKey("exception"))
      else if loadType == PlaylistLoadedType then
        if data.playlistInfo.Some? then
          var info := data.playlistInfo.value;
          Ok(PlaylistLoaded(Playlist(
            name := info.name, selectedTrack := info.selectedTrack,
            tracks := FromBackendAll(data.tracks, searchType),
            spotify := false, thumbnail := None, uri := None, searchType := Some(searchType))))
        else Err(MissingKey("playlistInfo"))
      else if loadType == SearchResult || loadType == TrackLoaded then
        Ok(Tracks(FromBackendAll(data.tracks, searchType)))
      else Ok(NoResult)
  }

  // ---------------------------------------------------------------------------
  // get_tracks and build_track
  // ---------------------------------------------------------------------------

  /** A Spotify client is created only when both credentials are truthy. */
  predicate HasSpotifyClient(creds: SpotifyCredentials) {
    Truthy(creds.clientId) && Truthy(creds.clientSecret)
  }

  /** `Node.get_tracks(query, search_type=..., local=...)`. */
  function GetTracks(query: string, creds: SpotifyCredentials,
                     spotifySearch: string -> SpotifyResult, loadTracks: string -> LoadResponse,
                     searchType: string := DefaultSearchType, local: bool := false): (r: Result<Outcome, ResolveError>)
    ensures r == Err(InvalidSpotifyClientAuthorization) || r == Err(NoSpotifyClient) ==>
              SpotifyLink(SearchQuery(query, searchType, local)).Some?
    ensures r == Err(EmptyTrackList) ==> AttachmentFile(SearchQuery(query, searchType, local)).Some?
    ensures r.Ok? && r.value.PlaylistLoaded? && r.value.playlist.spotify ==>
              SpotifyLink(SearchQuery(query, searchType, local)).Some?
  {
    var q := SearchQuery(query, searchType, local);
    match Classify(q)
    case SpotifyRoute =>
      if !Truthy(creds.clientId) && !Truthy(creds.clientSecret) then Err(InvalidSpotifyClientAuthorization)
      else if !HasSpotifyClient(creds) then Err(NoSpotifyClient)
      else Ok(FromSpotify(spotifySearch(q)))
    case AttachmentRoute(file) =>
      var data := loadTracks(q);
      if |data.tracks| == 0 then Err(EmptyTrackList)
      else Ok(Tracks([AttachmentTrack(data.tracks[0], file)]))
    case LoadRoute =>
      DecodeLoad(loadTracks(q), searchType)
  }

  /** `Node.build_track(identifier)`: any status but 200 fails; otherwise the
      track carries the identifier and the decoded info. */
  function BuildTrack(identifier: string, response: DecodeResponse): (r: Result<Track, ResolveError>)
    ensures r.Ok? <==> response.status == 200
    ensures r.Err? ==> r.error == TrackLoadError(BuildFailedMessage)
    ensures r.Ok? ==> EntryOf(r.value) == BackendTrack(identifier, response.info) && !r.value.spotify
  {
    if response.status != 200 then Err(TrackLoadError(BuildFailedMessage))
    else Ok(Track(identifier, response.info, false, None))
  }

  // ---------------------------------------------------------------------------
  // Properties
  // ---------------------------------------------------------------------------

  /** A string that does not start with `h` matches neither the Spotify nor the attachment pattern. */
  lemma NoSchemeNoLink(q: string)
    requires |q| > 0 && q[0] != 'h'
    ensures SpotifyLink(q).None? && AttachmentFile(q).None? && Classify(q) == LoadRoute
  {
    assert !("https://" <= q) && !("http://" <= q);
  }

  /** Search text (no URL, not local) is prefixed with the search type and
      loaded as a search, whatever it says. */
  lemma SearchTextIsPrefixed(query: string, creds: SpotifyCredentials,
                             spotifySearch: string -> SpotifyResult, loadTracks: string -> LoadResponse,
                             searchType: string)
    requires !ContainsUrl(query)
    requires |searchType| > 0 && searchType[0] != 'h'
    ensures GetTracks(query, creds, spotifySearch, loadTracks, searchType, false)
            == DecodeLoad(loadTracks(searchType + ":" + query), searchType)
  {
    NoSchemeNoLink(searchType + ":" + query);
  }

  /** A query holding a URL, or a local path, is loaded as it is when it is
      neither a Spotify nor an attachment link, and decoded by `loadType`. */
  lemma GenericRouteLoads(query: string, creds: SpotifyCredentials,
                          spotifySearch: string -> SpotifyResult, loadTracks: string -> LoadResponse,
                          searchType: string, local: bool)
    requires ContainsUrl(query) || local
    requires SpotifyLink(query).None? && AttachmentFile(query).None?
    ensures GetTracks(query, creds, spotifySearch, loadTracks, searchType, local)
            == DecodeLoad(loadTracks(query), searchType)
  {
    assert SearchQuery(query, searchType, local) == query;
    assert Classify(query) == LoadRoute;
  }

  /** A greedy run over a block of class characters stops exactly where the block ends. */
  lemma {:induction false} SpanOfBlock(s: string, t: string, inClass: char -> bool)
    requires forall i :: 0 <= i < |s| ==> inClass(s[i])
    requires t == [] || !inClass(t[0])
    ensures Span(s + t, inClass) == |s|
    decreases |s|
  {
    if s == [] {
      assert s + t == t;
    } else {
      assert (s + t)[0] == s[0] && (s + t)[1..] == s[1..] + t;
      SpanOfBlock(s[1..], t, inClass);
    }
  }

  lemma RunOfBlock(s: string, t: string, inClass: char -> bool)
    requires |s| > 0 && forall i :: 0 <= i < |s| ==> inClass(s[i])
    requires t == [] || !inClass(t[0])
    ensures Run(s + t, inClass) == Some((s, t))
  {
    SpanOfBlock(s, t, inClass);
    assert (s + t)[..|s|] == s && (s + t)[|s|..] == t;
  }

  /** Stripping a literal prefix from a string that starts with it. */
  lemma PrefixOfConcat(p: string, t: string)
    ensures AfterPrefix(p + t, p) == Some(t)
  {
    assert (p + t)[..|p|] == p;
    assert (p + t)[|p|..] == t;
  }

  lemma AnyCharOfConcat(t: string)
    ensures AfterAnyChar("." + t) == Some(t)
  {
    assert ("." + t)[1..] == t;
  }

  lemma SchemeOfConcat(t: string)
    ensures AfterScheme("https://" + t) == Some(t)
  {
    PrefixOfConcat("https://", t);
  }

  /** `https://cdn.discordapp.com/attachments/{channel}/{message}/{file}{rest}`. */
  function AttachmentUrl(channel: string, message: string, file: string, rest: string): string {
    "https://" + ("cdn" + ("." + ("discordapp" + ("." + (AttachmentsPath +
      (channel + ("/" + (message + ("/" + (file + rest))))))))))
  }

  /** The attachment pattern recognises a URL built from its segments and
      captures the whole file name. */
  lemma AttachmentFileOfUrl(channel: string, message: string, file: string, rest: string)
    requires |channel| > 0 && forall i :: 0 <= i < |channel| ==> IsDigit(channel[i])
    requires |message| > 0 && forall i :: 0 <= i < |message| ==> IsDigit(message[i])
    requires |file| > 0 && forall i :: 0 <= i < |file| ==> IsFileChar(file[i])
    requires rest == [] || !IsFileChar(rest[0])
    ensures AttachmentFile(AttachmentUrl(channel, message, file, rest)) == Some(file)
  {
    var h := file + rest;
    var g := message + ("/" + h);
    var f := channel + ("/" + g);
    var e := AttachmentsPath + f;
    var d := "discordapp" + ("." + e);
    var b := "cdn" + ("." + d);
    SchemeOfConcat(b);
    PrefixOfConcat("cdn", "." + d);
    AnyCharOfConcat(d);
    PrefixOfConcat("discordapp", "." + e);
    AnyCharOfConcat(e);
    PrefixOfConcat(AttachmentsPath, f);
    RunOfBlock(channel, "/" + g, IsDigit);
    PrefixOfConcat("/", g);
    RunOfBlock(message, "/" + h, IsDigit);
    PrefixOfConcat("/", h);
    RunOfBlock(file, rest, IsFileChar);
  }

  /** An attachment URL is a URL, and not a Spotify link. */
  lemma AttachmentUrlIsNotSpotify(channel: string, message: string, file: string, rest: string)
    ensures ContainsUrl(AttachmentUrl(channel, message, file, rest))
    ensures SpotifyLink(AttachmentUrl(channel, message, file, rest)).None?
  {
    var url := AttachmentUrl(channel, message, file, rest);
    var b := url[8..];
    SchemeOfConcat(b);
    assert b[0] == 'c' && b[1] == 'd';
    assert AfterPrefix(b, "open").None?;
    assert url[0..] == url;
    assert UrlAt(url[0..]);
  }

  /** A Discord attachment URL yields exactly one track, titled after the
      file name, from an `http` source by "Unknown", at position 0, carrying
      the node's first entry. */
  lemma AttachmentTrackTitle(channel: string, message: string, file: string, rest: string,
                             creds: SpotifyCredentials, spotifySearch: string -> SpotifyResult,
                             loadTracks: string -> LoadResponse, searchType: string, local: bool)
    requires |channel| > 0 && forall i :: 0 <= i < |channel| ==> IsDigit(channel[i])
    requires |message| > 0 && forall i :: 0 <= i < |message| ==> IsDigit(message[i])
    requires |file| > 0 && forall i :: 0 <= i < |file| ==> IsFileChar(file[i])
    requires rest == [] || !IsFileChar(rest[0])
    ensures var url := AttachmentUrl(channel, message, file, rest);
            var data := loadTracks(url);
            var r := GetTracks(url, creds, spotifySearch, loadTracks, searchType, local);
            && (|data.tracks| == 0 ==> r == Err(EmptyTrackList))
            && (|data.tracks| > 0 ==>
                  && r.Ok? && r.value.Tracks? && |r.value.tracks| == 1
                  && r.value.tracks[0].trackId == data.tracks[0].track
                  && r.value.tracks[0].info.title == file
                  && r.value.tracks[0].info.sourceName == Some("http")
                  && r.value.tracks[0].info.author == "Unknown"
                  && r.value.tracks[0].info.position == 0)
  {
    AttachmentFileOfUrl(channel, message, file, rest);
    AttachmentUrlIsNotSpotify(channel, message, file, rest);
  }

  /** The kind alternatives are tried in turn; none is a prefix of another. */
  lemma SpotifyKindOf(kind: string, t: string)
    requires kind in {"album", "artist", "playlist", "track"}
    ensures AfterSpotifyKind(kind + t) == Some((kind, t))
  {
    PrefixOfConcat(kind, t);
    var s := kind + t;
    if kind == "artist" {
      assert s[1] == 'r';
    } else if kind == "playlist" {
      assert s[0] == 'p';
    } else if kind == "track" {
      assert s[0] == 't';
    }
  }

  /** `https://open.spotify.com/{kind}/{id}{rest}`. */
  function SpotifyUrl(kind: string, id: string, rest: string): string {
    "https://" + ("open" + ("." + ("spotify" + ("." + ("com/" + (kind + ("/" + (id + rest))))))))
  }

  /** The Spotify pattern recognises a link built from a kind and an id. */
  lemma SpotifyLinkOfUrl(kind: string, id: string, rest: string)
    requires kind in {"album", "artist", "playlist", "track"}
    requires |id| > 0 && forall i :: 0 <= i < |id| ==> IsAlnum(id[i])
    requires rest == [] || !IsAlnum(rest[0])
    ensures SpotifyLink(SpotifyUrl(kind, id, rest)) == Some((kind, id))
    ensures ContainsUrl(SpotifyUrl(kind, id, rest))
  {
    var g := id + rest;
    var f := kind + ("/" + g);
    var e := "com/" + f;
    var d := "spotify" + ("." + e);
    var b := "open" + ("." + d);
    var url := SpotifyUrl(kind, id, rest);
    SchemeOfConcat(b);
    PrefixOfConcat("open", "." + d);
    AnyCharOfConcat(d);
    PrefixOfConcat("spotify", "." + e);
    AnyCharOfConcat(e);
    PrefixOfConcat("com/", f);
    SpotifyKindOf(kind, "/" + g);
    PrefixOfConcat("/", g);
    RunOfBlock(id, rest, IsAlnum);
    assert url[0..] == url;
  }

  /** A Spotify link with neither credential fails with
      `InvalidSpotifyClientAuthorization`; with both it is the Spotify
      client's result. */
  lemma SpotifyNeedsCredentials(kind: string, id: string, rest: string, creds: SpotifyCredentials,
                                spotifySearch: string -> SpotifyResult, loadTracks: string -> LoadResponse,
                                searchType: string, local: bool)
    requires kind in {"album", "artist", "playlist", "track"}
    requires |id| > 0 && forall i :: 0 <= i < |id| ==> IsAlnum(id[i])
    requires rest == [] || !IsAlnum(rest[0])
    ensures var url := SpotifyUrl(kind, id, rest);
            var r := GetTracks(url, creds, spotifySearch, loadTracks, searchType, local);
            && (!Truthy(creds.clientId) && !Truthy(creds.clientSecret) ==> r == Err(InvalidSpotifyClientAuthorization))
            && (HasSpotifyClient(creds) ==> r == Ok(FromSpotify(spotifySearch(url))))
  {
    SpotifyLinkOfUrl(kind, id, rest);
  }
}
