/** The small request helper the page uses for the two playlist endpoints: it holds an
    access token and a refresh token, and builds the HTTP requests that create a
    playlist and add tracks to it. A request is a value here; sending it is not modelled. */
module SpotifyService {
  import opened Js

  const ApiBase := "https://api.spotify.com/v1"
  const NoAccessToken := "No access token set"
  const NoRefreshToken := "No refresh token set"

  /** The arguments of `createPlaylist`; `desc` and `isPublic` may be omitted. */
  datatype CreateParams = CreateParams(name: string, desc: Option<string>, userId: string, isPublic: Option<bool>)

  /** The arguments of `addTracksToPlaylist`. The playlist id is whatever the caller
      passes, `undefined` included. */
  datatype AddParams = AddParams(playlistId: Option<string>, trackUris: seq<string>)

  /** The JSON body of a request. An omitted `description` is left out of the JSON. */
  datatype Body =
    | CreateBody(name: string, description: Option<string>, isPublic: bool)
    | AddBody(uris: seq<string>, position: int)

  /** An HTTP request as `fetch` is asked to send it. */
  datatype Request = Request(verb: string, url: string, authorization: string, contentType: string, body: Body)

  /** What `addTracksToPlaylist` does: return the sentinel and send nothing, or send. */
  datatype AddResult = NotSent(message: string) | Sent(request: Request)

  /** The `Authorization` header: the token, or "undefined" when none is set. */
  function Bearer(token: Option<string>): string {
    "Bearer " + TemplateText(token)
  }

  function CreateUrlPrefix(): string { ApiBase + "/users/" }
  function CreateUrlSuffix(): string { "/playlists" }
  function AddUrlPrefix(): string { ApiBase + "/playlists/" }
  function AddUrlSuffix(): string { "/tracks" }

  /** `${ApiBase}/users/${userId}/playlists` */
  function CreateUrl(userId: string): string {
    CreateUrlPrefix() + userId + CreateUrlSuffix()
  }

  /** `${ApiBase}/playlists/${playlist_id}/tracks` */
  function AddUrl(playlistId: Option<string>): string {
    AddUrlPrefix() + TemplateText(playlistId) + AddUrlSuffix()
  }

  /** The request `createPlaylist` sends; it is built whether or not a token is set. */
  function CreatePlaylistRequest(token: Option<string>, p: CreateParams): Request {
    Request("POST", CreateUrl(p.userId), Bearer(token), "application/json",
            CreateBody(p.name, p.desc, match p.isPublic case Some(b) => b case None => false))
  }

  /** The request `addTracksToPlaylist` sends once its token guard has passed. */
  function AddTracksRequest(token: Option<string>, p: AddParams): Request {
    Request("POST", AddUrl(p.playlistId), Bearer(token), "application/json", AddBody(p.trackUris, 0))
  }

  /** `addTracksToPlaylist` as a whole: the guard on an unset token, then the request. */
  function AddTracksResult(token: Option<string>, p: AddParams): AddResult {
    if token.None? then NotSent(NoAccessToken) else Sent(AddTracksRequest(token, p))
  }

  /** The part of `url` between `prefix` and `suffix`, when it has that shape. */
  function Between(url: string, prefix: string, suffix: string): (r: Option<string>)
    ensures r.Some? ==> url == prefix + r.value + suffix
  {
    if |prefix| + |suffix| <= |url| && url[..|prefix|] == prefix && url[|url| - |suffix|..] == suffix
    then
      var mid := url[|prefix|..|url| - |suffix|];
      assert url == url[..|prefix|] + mid + url[|url| - |suffix|..];
      Some(mid)
    else None
  }

  /** The user a create-playlist URL is addressed to, read back from the URL. */
  function CreateUrlUser(url: string): Option<string> {
    Between(url, CreateUrlPrefix(), CreateUrlSuffix())
  }

  /** The playlist an add-tracks URL is addressed to, read back from the URL. */
  function AddUrlPlaylist(url: string): Option<string> {
    Between(url, AddUrlPrefix(), AddUrlSuffix())
  }

  /** A create request is addressed to exactly the user it was built for: the user id
      reads back from its URL, so different users get different URLs. */
  lemma CreateTargetsUser(token: Option<string>, p: CreateParams)
    ensures CreateUrlUser(CreatePlaylistRequest(token, p).url) == Some(p.userId)
  {
  }

  /** An add request is addressed to exactly the playlist it was built for. */
  lemma AddTargetsPlaylist(token: Option<string>, p: AddParams)
    ensures AddUrlPlaylist(AddTracksRequest(token, p).url) == Some(TemplateText(p.playlistId))
  {
  }

  /** The two endpoints never share a URL: no add-tracks URL reads as a create URL. */
  lemma EndpointsDistinct(id: Option<string>)
    ensures CreateUrlUser(AddUrl(id)) == None
  {
    var url := AddUrl(id);
    var p := CreateUrlPrefix();
    if |p| <= |url| {
      assert url[|ApiBase| + 1] == 'p';
      assert p[|ApiBase| + 1] == 'u';
    }
  }

  /** The create body takes name and description from the arguments and is public only
      when the caller said so: an omitted flag means private, a given one passes through. */
  lemma CreateBodyFromParams(token: Option<string>, p: CreateParams)
    ensures CreatePlaylistRequest(token, p).body.name == p.name
    ensures CreatePlaylistRequest(token, p).body.description == p.desc
    ensures CreatePlaylistRequest(token, p).body.isPublic <==> p.isPublic == Some(true)
    ensures CreatePlaylistRequest(token, p).verb == "POST"
  {
  }

  /** The token holder of `src/utils/spotifyservice.ts`. The ghost histories record every
      value given to the setters; the fields hold the last one. */
  class Spotify {
    var accessToken: Option<string>
    var refreshToken: Option<string>
    ghost var accessHistory: seq<string>
    ghost var refreshHistory: seq<string>

    ghost predicate Valid()
      reads this
    {
      && (accessToken.None? <==> accessHistory == [])
      && (accessToken.Some? ==> accessToken.value == accessHistory[|accessHistory| - 1])
      && (refreshToken.None? <==> refreshHistory == [])
      && (refreshToken.Some? ==> refreshToken.value == refreshHistory[|refreshHistory| - 1])
    }

    /** A new holder has neither token. */
    constructor ()
      ensures Valid() && accessHistory == [] && refreshHistory == []
      ensures accessToken.None? && refreshToken.None?
    {
      accessToken := None;
      refreshToken := None;
      accessHistory := [];
      refreshHistory := [];
    }

    /** `setAccessToken`: the access token becomes `token`; the refresh token is kept. */
    method SetAccessToken(token: string)
      requires Valid()
      modifies this
      ensures Valid()
      ensures accessToken == Some(token) && accessHistory == old(accessHistory) + [token]
      ensures refreshToken == old(refreshToken) && refreshHistory == old(refreshHistory)
    {
      accessToken := Some(token);
      accessHistory := accessHistory + [token];
    }

    /** `setRefreshToken`: the refresh token becomes `token`; the access token is kept. */
    method SetRefreshToken(token: string)
      requires Valid()
      modifies this
      ensures Valid()
      ensures refreshToken == Some(token) && refreshHistory == old(refreshHistory) + [token]
      ensures accessToken == old(accessToken) && accessHistory == old(accessHistory)
    {
      refreshToken := Some(token);
      refreshHistory := refreshHistory + [token];
    }

    /** `getAccessToken`: the sentinel until a token was set, then the last token set. */
    method GetAccessToken() returns (r: string)
      requires Valid()
      ensures accessHistory == [] ==> r == NoAccessToken
      ensures accessHistory != [] ==> r == accessHistory[|accessHistory| - 1]
    {
      if accessToken.None? {
        return NoAccessToken;
      }
      return accessToken.value;
    }

    /** `getRefreshToken`: the sentinel until a token was set, then the last token set. */
    method GetRefreshToken() returns (r: string)
      requires Valid()
      ensures refreshHistory == [] ==> r == NoRefreshToken
      ensures refreshHistory != [] ==> r == refreshHistory[|refreshHistory| - 1]
    {
      if refreshToken.None? {
        return NoRefreshToken;
      }
      return refreshToken.value;
    }

    /** `createPlaylist`: there is no token guard, so the request is built, addressed to
      the given user, even when no access token is set. */
    method CreatePlaylist(p: CreateParams) returns (req: Request)
      ensures req == CreatePlaylistRequest(accessToken, p)
      ensures CreateUrlUser(req.url) == Some(p.userId)
      ensures accessToken.None? ==> req.authorization == "Bearer undefined"
    {
      req := CreatePlaylistRequest(accessToken, p);
      CreateTargetsUser(accessToken, p);
    }

    /** `addTracksToPlaylist`: with no access token it returns the sentinel and sends
      nothing; otherwise it sends the uris, in the given order, at position 0. */
    method AddTracksToPlaylist(p: AddParams) returns (r: AddResult)
      ensures r == AddTracksResult(accessToken, p)
      ensures r.NotSent? <==> accessToken.None?
      ensures r.NotSent? ==> r.message == NoAccessToken
      ensures r.Sent? ==> r.request.body == AddBody(p.trackUris, 0)
      ensures r.Sent? ==> AddUrlPlaylist(r.request.url) == Some(TemplateText(p.playlistId))
    {
      if accessToken.None? {
        return NotSent(NoAccessToken);
      }
      var req := AddTracksRequest(accessToken, p);
      AddTargetsPlaylist(accessToken, p);
      r := Sent(req);
    }
  }
}
