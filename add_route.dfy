/** `GET|POST /add`: the API-key middleware (`validateApiToken`), which finds the caller's row
    and refreshes an expiring access token, and the handler, which checks the parameters,
    searches for the track, looks up the playlist and adds the track to it. */
module AddRoute {
  import opened Common
  import opened Http
  import opened Store
  import opened Spotify

  const MissingTokenMessage: string := "Error: API key (token) is missing in query parameter or Authorization header."
  const InvalidTokenMessage: string := "Error: Invalid API key (token)."
  const SessionExpiredMessage: string := "Error: Your Spotify session has expired. Please log in again via the dashboard."
  const ReauthenticateMessage: string := "Error: Your Spotify session needs re-authentication. Please log in again via the dashboard."
  const BodyParseMessage: string := "Error: Could not parse request body."
  const MissingQueryMessage: string := "Error: Song query (query) is missing."
  const MissingPlaylistMessage: string := "Error: Playlist name (playlist) is missing."
  const FailedToAddMessage: string := "Error: Failed to add song to playlist."

  function SongNotFoundMessage(query: string): string {
    "Error: Song for query \"" + query + "\" not found on Spotify."
  }

  function PlaylistNotFoundMessage(name: string): string {
    "Error: Playlist \"" + name + "\" not found or not owned by you."
  }

  function AddedMessage(trackName: string, playlistName: string): string {
    "Successfully added \"" + trackName + "\" to \"" + playlistName + "\"."
  }

  /** The 500 body for an error caught by the handler: its message. */
  function InternalErrorMessage(error: string): (m: string)
    ensures m != FailedToAddMessage
  {
    var m := "Internal server error: " + error;
    assert m[0] != FailedToAddMessage[0];
    m
  }

  /** A token expiring within this many seconds is refreshed first. */
  const RefreshWindowSeconds: int := 5 * 60

  predicate NeedsRefresh(expiresAt: int, now: int) {
    expiresAt <= now + RefreshWindowSeconds
  }

  // ---------------------------------------------------------------- token extraction

  /** The value of `apiToken` once the header has been consulted: the `token` query parameter,
      replaced by the second piece of the Authorization header only when the parameter is
      falsy and the header splits on ' ' into two pieces, the first of them "bearer" in any
      case. The value may still be falsy. */
  function ExtractApiToken(tokenParam: Option<string>, authorization: Option<string>): (r: Option<string>)
    ensures Present(tokenParam) ==> r == tokenParam
    ensures !Present(authorization) ==> r == tokenParam
    ensures r != tokenParam ==>
      && !Present(tokenParam) && authorization.Some? && r.Some? && ' ' !in r.value
      && exists scheme :: Lower(scheme) == "bearer" && ' ' !in scheme && authorization.value == scheme + " " + r.value
  {
    if !Present(tokenParam) && Present(authorization) then
      var parts := Split(authorization.value, ' ');
      if |parts| == 2 && Lower(parts[0]) == "bearer" then
        SplitInTwo(authorization.value, ' ', parts[0], parts[1]);
        Some(parts[1])
      else tokenParam
    else tokenParam
  }

  /** A header of the form `<scheme> <key>`, with "bearer" as the scheme in any case and no
      further spaces, supplies the key when the query parameter is absent or empty. */
  lemma BearerHeaderSuppliesKey(tokenParam: Option<string>, scheme: string, key: string)
    requires !Present(tokenParam)
    requires Lower(scheme) == "bearer" && ' ' !in scheme && ' ' !in key
    ensures ExtractApiToken(tokenParam, Some(scheme + " " + key)) == Some(key)
  {
    SplitInTwo(scheme + " " + key, ' ', scheme, key);
    assert |scheme| == 6;
  }

  // ---------------------------------------------------------------- validateApiToken

  /** The token object the SDK is created with. */
  datatype SdkToken = SdkToken(accessToken: string, refreshToken: Option<string>, expiresIn: int, tokenType: string)

  /** The middleware either answers the request itself or passes it on with `currentUser` and
      `spotifySdk` set. */
  datatype Gate = Deny(response: Response) | Admit(currentUser: UserRow, sdk: SdkToken)

  /** The middleware's decision, the refresh calls it made and the users table after it. */
  datatype Checked = Checked(gate: Gate, calls: seq<Call>, users: Users)

  /** `validateApiToken` with the clock at `clockMs`. The refresh endpoint answers
      `refreshResponse`, the UPDATE persisting it ends as `write`, and `refreshAccessToken`
      reads its own clock, `refreshClockMs`. */
  function Validation(users: Users, tokenParam: Option<string>, authorization: Option<string>, clockMs: int,
                      refreshResponse: Option<TokenGrant>, write: Write, refreshClockMs: int): (v: Checked)
    requires WellFormed(users)
    ensures var token := ExtractApiToken(tokenParam, authorization);
      && (!Present(token) ==> v == Checked(Deny(Text(401, MissingTokenMessage)), [], users))
      && (Present(token) && KeyUnused(users, token.value) ==> v == Checked(Deny(Text(403, InvalidTokenMessage)), [], users))
      && (v.gate.Admit? ==>
            && Present(token) && v.gate.currentUser.apiKey == token.value
            && v.gate.currentUser.id in users && users[v.gate.currentUser.id] == v.gate.currentUser
            && v.gate.sdk.expiresIn >= 0 && v.gate.sdk.tokenType == "Bearer")
    ensures v.calls == [] ==> v.users == users
    ensures WellFormed(v.users)
    ensures var token := ExtractApiToken(tokenParam, authorization);
      Present(token) && UserByApiKey(users, token.value).Some? ==>
        var row, now := UserByApiKey(users, token.value).value, clockMs / 1000;
        && (v.calls != [] <==> NeedsRefresh(row.expiresAt, now) && Present(row.refreshToken))
        && (!NeedsRefresh(row.expiresAt, now) ==>
              v == Checked(Admit(row, SdkToken(row.accessToken, row.refreshToken, row.expiresAt - now, "Bearer")), [], users))
        && (NeedsRefresh(row.expiresAt, now) && !Present(row.refreshToken) ==>
              v == Checked(Deny(Text(401, ReauthenticateMessage)), [], users))
        && (NeedsRefresh(row.expiresAt, now) && Present(row.refreshToken) ==>
              var r := Refreshed(users, row.id, row.refreshToken.value, refreshResponse, write, refreshClockMs);
              && v.calls == [RefreshCall(row.refreshToken.value)] && v.users == r.users
              && (r.grant.None? ==> v.gate == Deny(Text(401, SessionExpiredMessage)))
              && (r.grant.Some? ==>
                    var g := r.grant.value;
                    v.gate == Admit(row, SdkToken(g.accessToken, Some(OrElse(g.refreshToken, row.refreshToken.value)), Max(0, g.expiresIn), "Bearer"))))
  {
    var apiToken := ExtractApiToken(tokenParam, authorization);
    if !Present(apiToken) then Checked(Deny(Text(401, MissingTokenMessage)), [], users)
    else
      match UserByApiKey(users, apiToken.value)
      case None => Checked(Deny(Text(403, InvalidTokenMessage)), [], users)
      case Some(user) =>
        var now := clockMs / 1000;
        if !NeedsRefresh(user.expiresAt, now) then
          Checked(Admit(user, SdkToken(user.accessToken, user.refreshToken, Max(0, user.expiresAt - now), "Bearer")), [], users)
        else if !Present(user.refreshToken) then
          Checked(Deny(Text(401, ReauthenticateMessage)), [], users)
        else
          var calls := [RefreshCall(user.refreshToken.value)];
          var refresh := Refreshed(users, user.id, user.refreshToken.value, refreshResponse, write, refreshClockMs);
          match refresh.grant
          case None => Checked(Deny(Text(401, SessionExpiredMessage)), calls, refresh.users)
          case Some(newTokens) =>
            var expiresAt := now + newTokens.expiresIn;
            var refreshToken := OrElse(newTokens.refreshToken, user.refreshToken.value);
            Checked(Admit(user, SdkToken(newTokens.accessToken, Some(refreshToken), Max(0, expiresAt - now), "Bearer")), calls, refresh.users)
  }

  /** `validateApiToken` against the database; `calls` are the refresh requests it sent. */
  method ValidateApiToken(db: Database, tokenParam: Option<string>, authorization: Option<string>, clockMs: int,
                          refreshResponse: Option<TokenGrant>, write: Write, refreshClockMs: int)
    returns (gate: Gate, calls: seq<Call>)
    requires db.Valid()
    modifies db
    ensures db.Valid() && db.sessions == old(db.sessions)
    ensures Checked(gate, calls, db.users) == Validation(old(db.users), tokenParam, authorization, clockMs, refreshResponse, write, refreshClockMs)
  {
    calls := [];
    var apiToken := tokenParam;
    if !Present(apiToken) && Present(authorization) {
      var parts := Split(authorization.value, ' ');
      if |parts| == 2 && Lower(parts[0]) == "bearer" {
        apiToken := Some(parts[1]);
      }
    }
    if !Present(apiToken) {
      return Deny(Text(401, MissingTokenMessage)), calls;
    }
    var user := UserByApiKey(db.users, apiToken.value);
    if user.None? {
      return Deny(Text(403, InvalidTokenMessage)), calls;
    }
    var currentUser := user.value;
    var currentAccessToken := currentUser.accessToken;
    var currentRefreshToken := currentUser.refreshToken;
    var currentExpiresAt := currentUser.expiresAt;
    var now := clockMs / 1000;
    if currentExpiresAt <= now + RefreshWindowSeconds {
      if Present(currentRefreshToken) {
        calls := [RefreshCall(currentRefreshToken.value)];
        var newTokens := RefreshAccessToken(db, currentRefreshToken.value, currentUser.id, refreshResponse, write, refreshClockMs);
        if newTokens.Some? {
          currentAccessToken := newTokens.value.accessToken;
          currentRefreshToken := Some(OrElse(newTokens.value.refreshToken, currentRefreshToken.value));
          currentExpiresAt := now + newTokens.value.expiresIn;
        } else {
          return Deny(Text(401, SessionExpiredMessage)), calls;
        }
      } else {
        return Deny(Text(401, ReauthenticateMessage)), calls;
      }
    }
    gate := Admit(currentUser, SdkToken(currentAccessToken, currentRefreshToken, Max(0, currentExpiresAt - now), "Bearer"));
  }

  /** A persisted refresh that is good for more than the window serves the later requests made
      with the same key: they are admitted with the new access token and call nothing, as long
      as their clock stays more than five minutes before the stored expiry. */
  lemma RefreshServesLaterRequests(users: Users, tokenParam: Option<string>, authorization: Option<string>, clockMs: int,
                                   grant: TokenGrant, refreshClockMs: int,
                                   laterClockMs: int, laterResponse: Option<TokenGrant>, laterWrite: Write, laterRefreshClockMs: int)
    requires WellFormed(users)
    requires Validation(users, tokenParam, authorization, clockMs, Some(grant), Committed, refreshClockMs).calls != []
    requires laterClockMs / 1000 + RefreshWindowSeconds < refreshClockMs / 1000 + grant.expiresIn
    ensures var v := Validation(users, tokenParam, authorization, clockMs, Some(grant), Committed, refreshClockMs);
      var w := Validation(v.users, tokenParam, authorization, laterClockMs, laterResponse, laterWrite, laterRefreshClockMs);
      && v.gate.Admit? && w.gate.Admit?
      && w.calls == [] && w.users == v.users
      && w.gate.currentUser.id == v.gate.currentUser.id
      && w.gate.sdk.accessToken == grant.accessToken
  {
    var v := Validation(users, tokenParam, authorization, clockMs, Some(grant), Committed, refreshClockMs);
    var token := ExtractApiToken(tokenParam, authorization);
    var row := UserByApiKey(users, token.value).value;
    var stored := v.users[row.id];
    assert stored.apiKey == token.value;
    var found := UserByApiKey(v.users, token.value);
    assert found.Some?;
    assert v.users[found.value.id].apiKey == v.users[row.id].apiKey;
    assert found.value == stored;
  }

  // ---------------------------------------------------------------- the handler

  datatype HttpMethod = GET | POST

  /** The result of `c.req.parseBody()` on a POST: its text fields, or the error it threw. */
  datatype Body = Parsed(fields: map<string, string>) | Unparseable(error: string)

  datatype AddRequest = AddRequest(verb: HttpMethod, query: map<string, string>, authorization: Option<string>, body: Body)

  /** A POST whose body cannot be parsed. */
  predicate BodyFails(req: AddRequest) {
    req.verb.POST? && req.body.Unparseable?
  }

  /** `query` and `playlist` are read from the query string on GET and from the body on POST. */
  function Param(req: AddRequest, name: string): (r: Option<string>)
    ensures req.verb.GET? ==> (r.Some? <==> name in req.query) && (r.Some? ==> r.value == req.query[name])
    ensures req.verb.POST? && req.body.Parsed? ==>
      (r.Some? <==> name in req.body.fields) && (r.Some? ==> r.value == req.body.fields[name])
    ensures BodyFails(req) ==> r == None
  {
    if req.verb.GET? then Get(req.query, name)
    else if req.body.Parsed? then Get(req.body.fields, name)
    else None
  }

  /** A GET reads its parameters from the query string alone and a POST from its body alone:
      the other source never matters. */
  lemma ParamSource(req: AddRequest, query: map<string, string>, body: Body, name: string)
    ensures req.verb.POST? ==> Param(req.(query := query), name) == Param(req, name)
    ensures req.verb.GET? ==> Param(req.(body := body), name) == Param(req, name)
  {
  }

  /** Both parameters are readable and non-empty. */
  predicate ParamsGiven(req: AddRequest) {
    !BodyFails(req) && Present(Param(req, "query")) && Present(Param(req, "playlist"))
  }

  /** The playlist-page calls for a sequence of page requests. */
  function PageCalls(requests: seq<PageRequest>): seq<Call> {
    seq(|requests|, i requires 0 <= i < |requests| => PlaylistsCall(requests[i]))
  }

  /** The handler's response and the calls to the music service it made, in order. */
  datatype Outcome = Outcome(response: Response, calls: seq<Call>)

  /** The handler on the search reply `search`, the playlist pages `pages` and the add reply
      `added`. */
  function AddHandled(req: AddRequest, search: SearchResponse, pages: seq<PageResponse>, added: AddResponse): (o: Outcome)
    requires ListingEnds(pages)
    ensures BodyFails(req) ==> o == Outcome(Text(400, BodyParseMessage), [])
    ensures !BodyFails(req) && !Present(Param(req, "query")) ==> o == Outcome(Text(400, MissingQueryMessage), [])
    ensures !BodyFails(req) && Present(Param(req, "query")) && !Present(Param(req, "playlist")) ==>
      o == Outcome(Text(400, MissingPlaylistMessage), [])
    ensures ParamsGiven(req) ==> |o.calls| >= 1 && o.calls[0] == SearchCall(SearchRequestFor(Param(req, "query").value))
    ensures o.response.Status() == 400 <==> !ParamsGiven(req)
    ensures o.response != Text(500, FailedToAddMessage)
  {
    if BodyFails(req) then Outcome(Text(400, BodyParseMessage), [])
    else
      var songQuery, playlistName := Param(req, "query"), Param(req, "playlist");
      if !Present(songQuery) then Outcome(Text(400, MissingQueryMessage), [])
      else if !Present(playlistName) then Outcome(Text(400, MissingPlaylistMessage), [])
      else
        var searched := [SearchCall(SearchRequestFor(songQuery.value))];
        match SearchTrack(search)
        case Err(e) => Outcome(Text(500, InternalErrorMessage(e)), searched)
        case Ok(None) => Outcome(Text(404, SongNotFoundMessage(songQuery.value)), searched)
        case Ok(Some(track)) =>
          var lookup := PlaylistLookup(pages, playlistName.value, 0);
          var looked := searched + PageCalls(PageRequests(lookup.fetched));
          match lookup.result
          case Err(e) => Outcome(Text(500, InternalErrorMessage(e)), looked)
          case Ok(None) => Outcome(Text(404, PlaylistNotFoundMessage(playlistName.value)), looked)
          case Ok(Some(playlist)) =>
            var calls := looked + [AddItemsCall(AddItemsRequest(playlist.id, [track.uri]))];
            match AddTrackToPlaylist(added)
            case Err(e) => Outcome(Text(500, InternalErrorMessage(e)), calls)
            case Ok(snapshotId) =>
              if snapshotId then Outcome(Text(200, AddedMessage(track.name, playlist.name)), calls)
              else Outcome(Text(500, FailedToAddMessage), calls)
  }

  /** With both parameters given: a search that throws or finds nothing ends the request after
      the search call, so the playlists are never listed; a found track leads to the playlist
      lookup, whose page requests follow the search call in order. */
  lemma SearchDecides(req: AddRequest, search: SearchResponse, pages: seq<PageResponse>, added: AddResponse)
    requires ListingEnds(pages) && ParamsGiven(req)
    ensures var o, query := AddHandled(req, search, pages, added), Param(req, "query").value;
      && (search.SearchThrew? ==> o == Outcome(Text(500, InternalErrorMessage(search.error)), [SearchCall(SearchRequestFor(query))]))
      && (SearchTrack(search) == Ok(None) ==>
            o == Outcome(Text(404, SongNotFoundMessage(query)), [SearchCall(SearchRequestFor(query))]))
      && (SearchTrack(search).Ok? && SearchTrack(search).value.Some? ==>
            var l := PlaylistLookup(pages, Param(req, "playlist").value, 0);
            && |o.calls| > l.fetched
            && o.calls[1..l.fetched + 1] == PageCalls(PageRequests(l.fetched)))
  {
    var o := AddHandled(req, search, pages, added);
    if SearchTrack(search).Ok? && SearchTrack(search).value.Some? {
      var l := PlaylistLookup(pages, Param(req, "playlist").value, 0);
      var looked := [SearchCall(SearchRequestFor(Param(req, "query").value))] + PageCalls(PageRequests(l.fetched));
      assert o.calls[..|looked|] == looked;
      assert looked[1..] == PageCalls(PageRequests(l.fetched));
    }
  }

  /** With both parameters given and the track found: a playlist page that throws gives 500
      with its error, and a lookup that ends without a match gives 404; either way the request
      ends after the search call and the page calls, with no add call. */
  lemma PlaylistStageDecides(req: AddRequest, search: SearchResponse, pages: seq<PageResponse>, added: AddResponse)
    requires ListingEnds(pages) && ParamsGiven(req) && SearchTrack(search).Ok? && SearchTrack(search).value.Some?
    ensures var o, name := AddHandled(req, search, pages, added), Param(req, "playlist").value;
      var l := PlaylistLookup(pages, name, 0);
      var looked := [SearchCall(SearchRequestFor(Param(req, "query").value))] + PageCalls(PageRequests(l.fetched));
      && (l.result.Err? ==> o == Outcome(Text(500, InternalErrorMessage(l.result.message)), looked))
      && (l.result == Ok(None) ==> o == Outcome(Text(404, PlaylistNotFoundMessage(name)), looked))
  {
  }

  /** The track is found and then the playlist lookup finds a playlist. */
  predicate BothFound(req: AddRequest, search: SearchResponse, pages: seq<PageResponse>)
    requires ListingEnds(pages)
  {
    && ParamsGiven(req) && SearchTrack(search).Ok? && SearchTrack(search).value.Some?
    && var l := PlaylistLookup(pages, Param(req, "playlist").value, 0);
    l.result.Ok? && l.result.value.Some?
  }

  /** The add call is made exactly when both lookups succeed; it is the last call, adds that
      track's uri to a playlist whose name matches ignoring case, and the request succeeds
      exactly when it does. */
  lemma AddOnlyAfterBothLookups(req: AddRequest, search: SearchResponse, pages: seq<PageResponse>, added: AddResponse)
    requires ListingEnds(pages)
    ensures var o := AddHandled(req, search, pages, added);
      && ((exists i :: 0 <= i < |o.calls| && o.calls[i].AddItemsCall?) <==> BothFound(req, search, pages))
      && (o.response.Status() == 200 <==> BothFound(req, search, pages) && added.ItemsAdded?)
    ensures BothFound(req, search, pages) ==>
      var o := AddHandled(req, search, pages, added);
      var lookup := PlaylistLookup(pages, Param(req, "playlist").value, 0);
      var track, playlist := SearchTrack(search).value.value, lookup.result.value.value;
      && o.calls == [SearchCall(SearchRequestFor(Param(req, "query").value))] + PageCalls(PageRequests(lookup.fetched))
           + [AddItemsCall(AddItemsRequest(playlist.id, [track.uri]))]
      && EqualsIgnoringCase(playlist.name, Param(req, "playlist").value)
      && (added.ItemsAdded? ==> o.response == Text(200, AddedMessage(track.name, playlist.name)))
      && (added.AddThrew? ==> o.response == Text(500, InternalErrorMessage(added.error)))
  {
    var o := AddHandled(req, search, pages, added);
    if ParamsGiven(req) && SearchTrack(search).Ok? && SearchTrack(search).value.Some? {
      var lookup := PlaylistLookup(pages, Param(req, "playlist").value, 0);
      var looked := [SearchCall(SearchRequestFor(Param(req, "query").value))] + PageCalls(PageRequests(lookup.fetched));
      assert forall i :: 0 <= i < |looked| ==> !looked[i].AddItemsCall?;
      if lookup.result.Ok? && lookup.result.value.Some? {
        LookupCharacterization(pages, Param(req, "playlist").value);
        assert o.calls[|o.calls| - 1].AddItemsCall?;
      } else {
        assert o.calls == looked;
      }
    }
  }

  /** The handler `add.on(['GET', 'POST'], '/', ...)`, once the middleware has admitted the
      request. */
  method HandleAdd(req: AddRequest, search: SearchResponse, pages: seq<PageResponse>, added: AddResponse)
    returns (response: Response, calls: seq<Call>)
    requires ListingEnds(pages)
    ensures Outcome(response, calls) == AddHandled(req, search, pages, added)
  {
    calls := [];
    var songQuery: Option<string> := None;
    var playlistName: Option<string> := None;
    if req.verb.GET? {
      songQuery := Get(req.query, "query");
      playlistName := Get(req.query, "playlist");
    } else {
      match req.body
      case Unparseable(_) =>
        return Text(400, BodyParseMessage), calls;
      case Parsed(body) =>
        songQuery := Get(body, "query");
        playlistName := Get(body, "playlist");
    }
    if !Present(songQuery) {
      return Text(400, MissingQueryMessage), calls;
    }
    if !Present(playlistName) {
      return Text(400, MissingPlaylistMessage), calls;
    }
    calls := calls + [SearchCall(SearchRequestFor(songQuery.value))];
    var track := SearchTrack(search);
    if track.Err? {
      return Text(500, InternalErrorMessage(track.message)), calls;
    }
    if track.value.None? {
      return Text(404, SongNotFoundMessage(songQuery.value)), calls;
    }
    var playlist, requests := FindUserPlaylist(pages, playlistName.value);
    calls := calls + PageCalls(requests);
    if playlist.Err? {
      return Text(500, InternalErrorMessage(playlist.message)), calls;
    }
    if playlist.value.None? {
      return Text(404, PlaylistNotFoundMessage(playlistName.value)), calls;
    }
    calls := calls + [AddItemsCall(AddItemsRequest(playlist.value.value.id, [track.value.value.uri]))];
    var snapshotId := AddTrackToPlaylist(added);
    if snapshotId.Err? {
      return Text(500, InternalErrorMessage(snapshotId.message)), calls;
    }
    if snapshotId.value {
      response := Text(200, AddedMessage(track.value.value.name, playlist.value.value.name));
    } else {
      response := Text(500, FailedToAddMessage);
    }
  }

  /** The whole route: the middleware, then the handler if it admits the request. */
  method Add(db: Database, req: AddRequest, clockMs: int, refreshResponse: Option<TokenGrant>, write: Write,
             refreshClockMs: int, search: SearchResponse, pages: seq<PageResponse>, added: AddResponse)
    returns (response: Response, calls: seq<Call>)
    requires db.Valid() && ListingEnds(pages)
    modifies db
    ensures db.Valid() && db.sessions == old(db.sessions)
    ensures var v := Validation(old(db.users), Get(req.query, "token"), req.authorization, clockMs, refreshResponse, write, refreshClockMs);
      && db.users == v.users
      && (v.gate.Deny? ==> response == v.gate.response && calls == v.calls)
      && (v.gate.Admit? ==>
            var o := AddHandled(req, search, pages, added);
            response == o.response && calls == v.calls + o.calls)
  {
    var gate, refreshCalls := ValidateApiToken(db, Get(req.query, "token"), req.authorization, clockMs, refreshResponse, write, refreshClockMs);
    if gate.Deny? {
      return gate.response, refreshCalls;
    }
    var handlerCalls;
    response, handlerCalls := HandleAdd(req, search, pages, added);
    calls := refreshCalls + handlerCalls;
  }

  /** The parameter checks come after the middleware: a request for an expiring key with a
      missing query still has its token refreshed and persisted before it is refused with 400. */
  lemma RefreshPrecedesParameterChecks(users: Users, req: AddRequest, clockMs: int, grant: TokenGrant, refreshClockMs: int,
                                       search: SearchResponse, pages: seq<PageResponse>, added: AddResponse)
    requires WellFormed(users) && ListingEnds(pages)
    requires var token := ExtractApiToken(Get(req.query, "token"), req.authorization);
      && Present(token) && UserByApiKey(users, token.value).Some?
      && NeedsRefresh(UserByApiKey(users, token.value).value.expiresAt, clockMs / 1000)
      && Present(UserByApiKey(users, token.value).value.refreshToken)
    requires !BodyFails(req) && !Present(Param(req, "query"))
    ensures var row := UserByApiKey(users, ExtractApiToken(Get(req.query, "token"), req.authorization).value).value;
      var v := Validation(users, Get(req.query, "token"), req.authorization, clockMs, Some(grant), Committed, refreshClockMs);
      && v.calls == [RefreshCall(row.refreshToken.value)]
      && v.gate.Admit?
      && v.users[row.id].accessToken == grant.accessToken
      && AddHandled(req, search, pages, added).response == Text(400, MissingQueryMessage)
  {
  }
}
