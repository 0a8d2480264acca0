/**
 * Mood-based music suggestions: the `useSpotify` hook (its state and the
 * `fetchAuth` / `fetchTracks` transitions), the `Authorization` header it
 * sends, and the suggestions route that maps a mood to a playlist and extracts
 * the playlist's tracks.
 *
 * Every network exchange is a parameter: the answer of the credential route is
 * a `Response` value, the suggestions route and Spotify's playlist endpoint are
 * functions from the request made to the response obtained.
 */
module Spotify {
  import opened Wrappers

  /** `MoodCategory`: the moods the client asks for. */
  datatype MoodCategory = Peaceful | Motivated | Happy

  /** The query-string value axios sends for a mood. */
  function MoodName(m: MoodCategory): string {
    match m
    case Peaceful => "Peaceful"
    case Motivated => "Motivated"
    case Happy => "Happy"
  }

  /** The credential as the hook stores it; `expiresIn` is never read. */
  datatype SpotifyAuth = SpotifyAuth(accessToken: string, tokenType: string, expiresIn: int)

  datatype Track = Track(id: string, name: string, previewUrl: string)

  /** One entry of a playlist's `items`. */
  datatype PlaylistItem = PlaylistItem(track: Track)

  /** The outcome of an HTTP request as the caller sees it: a response body, or
      a rejected request (a network error or an error response). */
  datatype Response<T> = Ok(body: T) | Failed

  // ---------------------------------------------------------------------------
  // The suggestions route
  // ---------------------------------------------------------------------------

  const PeacefulPlaylist: string := "37i9dQZF1DX3rxVfibe1L0"
  const MotivatedPlaylist: string := "37i9dQZF1DXdxcBWuJkbcy"

  /** `moodToPlaylist`: Peaceful and Happy share a playlist. */
  const MoodToPlaylist: map<string, string> :=
    map["Peaceful" := PeacefulPlaylist, "Motivated" := MotivatedPlaylist, "Happy" := PeacefulPlaylist]

  /** `moodToPlaylist[mood || 'Peaceful']`: a missing or empty mood reads as
      Peaceful; any other mood outside the table has no playlist. */
  function PlaylistFor(mood: Option<string>): (r: Option<string>)
    ensures r.Some? <==> mood.None? || mood.value in {"", "Peaceful", "Motivated", "Happy"}
    ensures r == Some(MotivatedPlaylist) <==> mood == Some("Motivated")
    ensures r.Some? && r != Some(MotivatedPlaylist) ==> r == Some(PeacefulPlaylist)
  {
    var key := if mood.None? || mood.value == "" then "Peaceful" else mood.value;
    if key in MoodToPlaylist then Some(MoodToPlaylist[key]) else None
  }

  /** Every mood the client can send names a playlist: Peaceful and Happy the
      same one, Motivated the other. */
  lemma ClientMoodPlaylists(m: MoodCategory)
    ensures PlaylistFor(Some(MoodName(m))) == Some(if m == Motivated then MotivatedPlaylist else PeacefulPlaylist)
  {
  }

  const PlaylistsEndpoint: string := "https://api.spotify.com/v1/playlists/"
  const TracksSuffix: string := "/tracks"

  /** `https://api.spotify.com/v1/playlists/${playlistId}/tracks`; an absent id
      is printed as `undefined` by the template literal. The id can be read
      back from between the fixed prefix and suffix. */
  function PlaylistTracksUrl(playlistId: Option<string>): (url: string)
    ensures var id := if playlistId.Some? then playlistId.value else "undefined";
            && |url| == |PlaylistsEndpoint| + |id| + |TracksSuffix|
            && url[..|PlaylistsEndpoint|] == PlaylistsEndpoint
            && url[|PlaylistsEndpoint|..|url| - |TracksSuffix|] == id
            && url[|url| - |TracksSuffix|..] == TracksSuffix
  {
    PlaylistsEndpoint + (if playlistId.Some? then playlistId.value else "undefined") + TracksSuffix
  }

  /** A request to Spotify's playlist endpoint: its URL and the forwarded `Authorization` header. */
  datatype SpotifyRequest = SpotifyRequest(url: string, authorization: Option<string>)

  /** `response.data.items.map(item => item.track)` */
  function ExtractTracks(items: seq<PlaylistItem>): (tracks: seq<Track>)
    ensures |tracks| == |items|
    ensures forall i :: 0 <= i < |items| ==> tracks[i] == items[i].track
  {
    if items == [] then [] else [items[0].track] + ExtractTracks(items[1..])
  }

  /** `GET /api/spotify-suggestions`: looks the mood up, asks Spotify for the
      playlist with the caller's `Authorization` header unchanged, and answers
      with one track per playlist item, or with an error response. */
  function SuggestionsRoute(mood: Option<string>, token: Option<string>,
                            spotify: SpotifyRequest -> Response<seq<PlaylistItem>>): (r: Response<seq<Track>>)
    ensures var answer := spotify(SpotifyRequest(PlaylistTracksUrl(PlaylistFor(mood)), token));
            && (r.Ok? <==> answer.Ok?)
            && (r.Ok? ==> |r.body| == |answer.body| &&
                          forall i :: 0 <= i < |r.body| ==> r.body[i] == answer.body[i].track)
  {
    var playlistId := PlaylistFor(mood);
    match spotify(SpotifyRequest(PlaylistTracksUrl(playlistId), token))
    case Ok(items) => Ok(ExtractTracks(items))
    case Failed => Failed
  }

  /** For the moods the client sends, the route never asks for the `undefined` playlist. */
  lemma ClientMoodsRequestARealPlaylist(m: MoodCategory, token: Option<string>,
                                        spotify: SpotifyRequest -> Response<seq<PlaylistItem>>)
    ensures var id := if m == Motivated then MotivatedPlaylist else PeacefulPlaylist;
            SuggestionsRoute(Some(MoodName(m)), token, spotify)
            == match spotify(SpotifyRequest(PlaylistTracksUrl(Some(id)), token))
               case Ok(items) => Ok(ExtractTracks(items))
               case Failed => Failed
  {
    ClientMoodPlaylists(m);
  }

  // ---------------------------------------------------------------------------
  // The Authorization header
  // ---------------------------------------------------------------------------

  /** `${auth.tokenType} ${auth.accessToken}` */
  function AuthorizationHeader(auth: SpotifyAuth): (h: string)
    ensures |h| == |auth.tokenType| + 1 + |auth.accessToken|
    ensures h[..|auth.tokenType|] == auth.tokenType
    ensures h[|auth.tokenType|] == ' '
    ensures h[|auth.tokenType| + 1..] == auth.accessToken
  {
    auth.tokenType + " " + auth.accessToken
  }

  /** How a receiver reads the header: the scheme up to the first space, then the credentials. */
  function SplitAtFirstSpace(h: string): (string, string) {
    if h == [] then ([], [])
    else if h[0] == ' ' then ([], h[1..])
    else
      var (scheme, rest) := SplitAtFirstSpace(h[1..]);
      ([h[0]] + scheme, rest)
  }

  lemma {:induction false} SplitAfterScheme(scheme: string, credentials: string)
    requires ' ' !in scheme
    ensures SplitAtFirstSpace(scheme + " " + credentials) == (scheme, credentials)
  {
    if scheme == [] {
      assert scheme + " " + credentials == [' '] + credentials;
    } else {
      assert ' ' !in scheme[1..];
      SplitAfterScheme(scheme[1..], credentials);
      assert (scheme + " " + credentials)[1..] == scheme[1..] + " " + credentials;
      assert [scheme[0]] + scheme[1..] == scheme;
    }
  }

  /** The header round-trips: a token type without spaces (such as `Bearer`)
      and the access token are read back from it. */
  lemma AuthorizationHeaderRoundTrip(auth: SpotifyAuth)
    requires ' ' !in auth.tokenType
    ensures SplitAtFirstSpace(AuthorizationHeader(auth)) == (auth.tokenType, auth.accessToken)
  {
    SplitAfterScheme(auth.tokenType, auth.accessToken);
  }

  // ---------------------------------------------------------------------------
  // The hook
  // ---------------------------------------------------------------------------

  const AuthErrorMessage: string := "Failed to authenticate with Spotify"
  const FetchErrorMessage: string := "Failed to fetch tracks"

  /** What `fetchTracks` sends to `/api/spotify-suggestions`. */
  datatype SuggestionsRequest = SuggestionsRequest(authorization: string, mood: string)

  /** The state of `useSpotify`: `auth`, `tracks`, `isLoading` and `error`. */
  class SpotifyHook {
    var auth: Option<SpotifyAuth>
    var tracks: seq<Track>
    var isLoading: bool
    var error: Option<string>

    /** Between transitions nothing is loading, no track list arrives without a
        credential, and the error is one of the hook's two messages. */
    ghost predicate Valid()
      reads this
    {
      && !isLoading
      && (auth.None? ==> tracks == [])
      && (error.Some? ==> error.value == AuthErrorMessage || error.value == FetchErrorMessage)
    }

    /** The initial `useState` values. */
    constructor ()
      ensures Valid()
      ensures auth == None && tracks == [] && !isLoading && error == None
    {
      auth := None;
      tracks := [];
      isLoading := false;
      error := None;
    }

    /** `fetchAuth`, run by the mount effect with the answer of `POST /api/spotify-auth`. */
    method FetchAuth(response: Response<SpotifyAuth>)
      requires Valid()
      modifies this
      ensures Valid()
      ensures response.Ok? ==> auth == Some(response.body) && error == old(error)
      ensures response.Failed? ==> auth == old(auth) && error == Some(AuthErrorMessage)
      ensures tracks == old(tracks) && isLoading == old(isLoading)
    {
      match response
      case Ok(data) => auth := Some(data);
      case Failed => error := Some(AuthErrorMessage);
    }

    /** `fetchTracks(mood)`, taken as one transition; `server` gives the answer
        of `/api/spotify-suggestions` to the request made. Returns the request
        sent, if any. */
    method FetchTracks(mood: MoodCategory, server: SuggestionsRequest -> Response<seq<Track>>)
      returns (sent: Option<SuggestionsRequest>)
      requires Valid()
      modifies this
      ensures Valid()
      ensures auth == old(auth)
      ensures old(auth).None? ==>
                sent.None? && tracks == old(tracks) && error == old(error) && isLoading == old(isLoading)
      ensures old(auth).Some? ==>
                sent == Some(SuggestionsRequest(AuthorizationHeader(old(auth).value), MoodName(mood)))
      ensures old(auth).Some? && server(sent.value).Ok? ==> tracks == server(sent.value).body && error.None?
      ensures old(auth).Some? && server(sent.value).Failed? ==>
                tracks == old(tracks) && error == Some(FetchErrorMessage)
    {
      if auth.None? {
        return None;
      }
      isLoading := true;
      error := None;
      var request := SuggestionsRequest(AuthorizationHeader(auth.value), MoodName(mood));
      sent := Some(request);
      match server(request) {
        case Ok(body) => tracks := body;
        case Failed => error := Some(FetchErrorMessage);
      }
      isLoading := false;
    }
  }

  /** A component's view of a fresh hook: the mount effect's credential exchange
      answers `authResponse`, then `fetchTracks(mood)` runs twice, answered by
      `server1` and then by `server2`. With no credential neither call sends
      anything; with one, each call sends the header `tokenType accessToken`
      and ends with loading off, and a failed second call keeps the tracks of
      a successful first one. */
  method MountThenFetchTwice(authResponse: Response<SpotifyAuth>, mood: MoodCategory,
                             server1: SuggestionsRequest -> Response<seq<Track>>,
                             server2: SuggestionsRequest -> Response<seq<Track>>)
    returns (first: Option<SuggestionsRequest>, second: Option<SuggestionsRequest>,
             tracks: seq<Track>, isLoading: bool, error: Option<string>)
    ensures !isLoading
    ensures authResponse.Failed? ==>
              first.None? && second.None? && tracks == [] && error == Some(AuthErrorMessage)
    ensures authResponse.Ok? ==>
              var a := authResponse.body;
              var request := SuggestionsRequest(a.tokenType + " " + a.accessToken, MoodName(mood));
              && first == Some(request) && second == Some(request)
              && (server2(request).Ok? ==> tracks == server2(request).body && error.None?)
              && (server2(request).Failed? ==> error == Some(FetchErrorMessage))
              && (server2(request).Failed? ==>
                    tracks == (if server1(request).Ok? then server1(request).body else []))
  {
    var hook := new SpotifyHook();
    hook.FetchAuth(authResponse);
    first := hook.FetchTracks(mood, server1);
    second := hook.FetchTracks(mood, server2);
    tracks, isLoading, error := hook.tracks, hook.isLoading, hook.error;
  }
}
