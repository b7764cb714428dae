/** `GET /login` and `GET /callback`: the OAuth authorization-code flow that creates or
    updates the caller's user row and opens a session for it. */
module AuthRoutes {
  import opened Common
  import opened Http
  import opened Store
  import opened Spotify

  const Scopes: seq<string> := ["user-read-private", "playlist-read-private", "playlist-modify-public", "playlist-modify-private"]

  /** 30 days, in seconds. */
  const SessionMaxAge: int := 60 * 60 * 24 * 30

  const DashboardPath: string := "/dashboard"
  const MissingCodeMessage: string := "No authorization code received from Spotify."

  function OAuthErrorMessage(error: string): string {
    "Spotify authentication failed: " + error
  }

  function AuthFailedMessage(error: string): string {
    "Authentication failed: " + error
  }

  /** The redirect URI both routes derive from the request URL's protocol (with its colon) and host. */
  function RedirectUri(protocol: string, host: string): (r: string)
    ensures |r| == |protocol| + |host| + 11
    ensures r[..|protocol|] == protocol && r[|protocol|..|protocol| + 2] == "//"
    ensures r[|protocol| + 2..|r| - 9] == host && r[|r| - 9..] == "/callback"
  {
    var r := protocol + "//" + host + "/callback";
    assert r[|r| - 9..] == "/callback";
    r
  }

  /** The redirect URI determines the protocol and host it was built from. */
  lemma RedirectUriInjective(p1: string, h1: string, p2: string, h2: string)
    requires |p1| == |p2|
    ensures RedirectUri(p1, h1) == RedirectUri(p2, h2) <==> p1 == p2 && h1 == h2
  {
    var r1, r2 := RedirectUri(p1, h1), RedirectUri(p2, h2);
    if r1 == r2 {
      assert p1 == r1[..|p1|];
      assert h1 == r1[|p1| + 2..|r1| - 9];
    }
  }

  /** What `/login` hands to `getAuthorizationUrl`: the redirect URI and the scopes. The URL
      encoding of the authorization URL is not part of this model. */
  datatype AuthorizationRequest = AuthorizationRequest(redirectUri: string, scopes: seq<string>)

  function Login(protocol: string, host: string): (r: AuthorizationRequest)
    ensures r.redirectUri == RedirectUri(protocol, host)
    ensures "user-read-private" in r.scopes && "playlist-read-private" in r.scopes
    ensures "playlist-modify-public" in r.scopes && "playlist-modify-private" in r.scopes
    ensures |r.scopes| == 4
  {
    AuthorizationRequest(RedirectUri(protocol, host), Scopes)
  }

  // ---------------------------------------------------------------- the users upsert

  /** The users-table write of the callback for Spotify user `uid`: an existing row gets the
      exchanged access token, refresh token (absent if none was issued) and expiry, and keeps
      its API key; a missing row is inserted with the fresh key `newKey`. */
  function Upserted(users: Users, uid: UserId, grant: TokenGrant, expiresAt: int, newKey: string): (r: Users)
    ensures r.Keys == users.Keys + {uid}
    ensures forall other :: other in users && other != uid ==> r[other] == users[other]
    ensures uid in users ==> r[uid] == users[uid].(accessToken := grant.accessToken, refreshToken := grant.refreshToken, expiresAt := expiresAt)
    ensures uid !in users ==> r[uid] == UserRow(uid, grant.accessToken, grant.refreshToken, expiresAt, newKey)
    ensures WellFormed(users) && KeyUnused(users, newKey) ==> WellFormed(r)
  {
    if uid in users then SetTokens(users, uid, grant.accessToken, grant.refreshToken, expiresAt)
    else users[uid := UserRow(uid, grant.accessToken, grant.refreshToken, expiresAt, newKey)]
  }

  /** The callback and a refresh treat a missing refresh token differently: when its write
      commits, the callback leaves no refresh token stored, while a refresh keeps the old one. */
  lemma CallbackDropsRefreshTokenRefreshKeepsIt(users: Users, uid: UserId, accessToken: string, expiresIn: int,
                                                clockMs: int, newKey: string)
    requires uid in users && Present(users[uid].refreshToken)
    ensures var grant := TokenGrant(accessToken, expiresIn, None);
      && Upserted(users, uid, grant, clockMs / 1000 + expiresIn, newKey)[uid].refreshToken == None
      && Refreshed(users, uid, users[uid].refreshToken.value, Some(grant), Committed, clockMs).users[uid].refreshToken
           == users[uid].refreshToken
  {
  }

  // ---------------------------------------------------------------- /callback

  /** The callback's response, its calls to the music service, and both tables after it. */
  datatype CallbackResult = CallbackResult(response: Response, calls: seq<Call>, users: Users, sessions: Sessions)

  /** The session cookie and redirect of a successful callback. */
  function SignedIn(sessionId: SessionId): Response {
    Redirect(DashboardPath, [SetSessionCookie(sessionId, SessionMaxAge)])
  }

  /** `/callback?code&error` at `clockMs`. The code exchange answers `exchange`, the profile
      call `profile` (the user id), the users write ends as `upsert`, and the session insert,
      with the generated id `sessionId`, as `sessionInsert`; `newApiKey` is the key generated
      for a new user. Any error after the two parameter checks becomes a 500. */
  function Callbacked(users: Users, sessions: Sessions, code: Option<string>, error: Option<string>,
                      protocol: string, host: string, exchange: Result<TokenGrant>, profile: Result<UserId>,
                      clockMs: int, newApiKey: string, upsert: Write, sessionId: SessionId, sessionInsert: Write): (r: CallbackResult)
    ensures Present(error) ==> r == CallbackResult(Text(400, OAuthErrorMessage(error.value)), [], users, sessions)
    ensures !Present(error) && !Present(code) ==> r == CallbackResult(Text(400, MissingCodeMessage), [], users, sessions)
    ensures !Present(error) && Present(code) ==>
      && r.response.Status() != 400
      && |r.calls| >= 1 && r.calls[0] == ExchangeCall(code.value, RedirectUri(protocol, host))
      && r.calls[1..] == (if exchange.Ok? then [ProfileCall] else [])
    ensures r.response.Status() == 302 <==>
      !Present(error) && Present(code) && exchange.Ok? && profile.Ok? && upsert.Committed? && sessionInsert.Committed?
    ensures r.response.Status() == 302 ==>
      && r.response == SignedIn(sessionId)
      && r.users == Upserted(users, profile.value, exchange.value, clockMs / 1000 + exchange.value.expiresIn, newApiKey)
      && r.sessions == sessions[sessionId := profile.value]
    ensures r.response.Status() != 302 ==> r.sessions == sessions
    ensures r.response.Status() == 500 ==>
      && r.response.Text?
      && (exists e :: r.response.body == AuthFailedMessage(e)
            && (Err(e) == exchange || Err(e) == profile || Failed(e) == upsert || Failed(e) == sessionInsert))
    ensures !Present(error) && Present(code) && exchange.Err? ==>
      r.response == Text(500, AuthFailedMessage(exchange.message)) && r.users == users && r.sessions == sessions
    ensures !Present(error) && Present(code) && exchange.Ok? && profile.Err? ==>
      r.response == Text(500, AuthFailedMessage(profile.message)) && r.users == users && r.sessions == sessions
    ensures !Present(error) && Present(code) && exchange.Ok? && profile.Ok? && upsert.Failed? ==>
      r.response == Text(500, AuthFailedMessage(upsert.error)) && r.users == users && r.sessions == sessions
    ensures !Present(error) && Present(code) && exchange.Ok? && profile.Ok? && upsert.Committed? && sessionInsert.Failed? ==>
      && r.response == Text(500, AuthFailedMessage(sessionInsert.error)) && r.sessions == sessions
      && r.users == Upserted(users, profile.value, exchange.value, clockMs / 1000 + exchange.value.expiresIn, newApiKey)
    ensures r.users == users || (exchange.Ok? && profile.Ok? && upsert.Committed? &&
      r.users == Upserted(users, profile.value, exchange.value, clockMs / 1000 + exchange.value.expiresIn, newApiKey))
  {
    if Present(error) then CallbackResult(Text(400, OAuthErrorMessage(error.value)), [], users, sessions)
    else if !Present(code) then CallbackResult(Text(400, MissingCodeMessage), [], users, sessions)
    else
      var exchanged := [ExchangeCall(code.value, RedirectUri(protocol, host))];
      match exchange
      case Err(e) => CallbackResult(Text(500, AuthFailedMessage(e)), exchanged, users, sessions)
      case Ok(tokenData) =>
        var calls := exchanged + [ProfileCall];
        match profile
        case Err(e) => CallbackResult(Text(500, AuthFailedMessage(e)), calls, users, sessions)
        case Ok(spotifyUserId) =>
          var expiresAt := clockMs / 1000 + tokenData.expiresIn;
          match upsert
          case Failed(e) => CallbackResult(Text(500, AuthFailedMessage(e)), calls, users, sessions)
          case Committed =>
            var upserted := Upserted(users, spotifyUserId, tokenData, expiresAt, newApiKey);
            match sessionInsert
            case Failed(e) => CallbackResult(Text(500, AuthFailedMessage(e)), calls, upserted, sessions)
            case Committed => CallbackResult(SignedIn(sessionId), calls, upserted, sessions[sessionId := spotifyUserId])
  }

  /** After a successful callback the new session authenticates as the signed-in user, whose
      row holds the exchanged access token; an existing user keeps the API key they had. */
  lemma SignInOpensSession(users: Users, sessions: Sessions, code: Option<string>, error: Option<string>,
                           protocol: string, host: string, exchange: Result<TokenGrant>, profile: Result<UserId>,
                           clockMs: int, newApiKey: string, sessionId: SessionId)
    requires WellFormed(users) && KeyUnused(users, newApiKey)
    requires !Present(error) && Present(code) && exchange.Ok? && profile.Ok?
    ensures var r := Callbacked(users, sessions, code, error, protocol, host, exchange, profile,
                                clockMs, newApiKey, Committed, sessionId, Committed);
      && WellFormed(r.users)
      && sessionId in r.sessions && r.sessions[sessionId] in r.users
      && r.users[r.sessions[sessionId]].id == profile.value
      && r.users[profile.value].accessToken == exchange.value.accessToken
      && (profile.value in users ==> r.users[profile.value].apiKey == users[profile.value].apiKey)
      && (profile.value !in users ==> r.users[profile.value].apiKey == newApiKey)
  {
  }

  /** `/login` sends the same redirect URI that `/callback` later presents for the code exchange. */
  lemma LoginAndCallbackAgree(code: string, protocol: string, host: string, users: Users, sessions: Sessions,
                              exchange: Result<TokenGrant>, profile: Result<UserId>, clockMs: int, newApiKey: string,
                              upsert: Write, sessionId: SessionId, sessionInsert: Write)
    requires code != ""
    ensures var r := Callbacked(users, sessions, Some(code), None, protocol, host, exchange, profile,
                                clockMs, newApiKey, upsert, sessionId, sessionInsert);
      r.calls[0] == ExchangeCall(code, Login(protocol, host).redirectUri)
  {
  }

  /** `/callback` against the database. The generated session id is new, and so is the
      generated API key. */
  method Callback(db: Database, code: Option<string>, error: Option<string>, protocol: string, host: string,
                  exchange: Result<TokenGrant>, profile: Result<UserId>, clockMs: int, newApiKey: string,
                  upsert: Write, sessionId: SessionId, sessionInsert: Write)
    returns (response: Response, calls: seq<Call>)
    requires db.Valid() && KeyUnused(db.users, newApiKey) && sessionId !in db.sessions
    modifies db
    ensures db.Valid()
    ensures CallbackResult(response, calls, db.users, db.sessions)
      == Callbacked(old(db.users), old(db.sessions), code, error, protocol, host, exchange, profile,
                    clockMs, newApiKey, upsert, sessionId, sessionInsert)
  {
    ghost var expected := Callbacked(db.users, db.sessions, code, error, protocol, host, exchange, profile,
                                     clockMs, newApiKey, upsert, sessionId, sessionInsert);
    calls := [];
    var redirectUri := RedirectUri(protocol, host);
    if Present(error) {
      assert expected == CallbackResult(Text(400, OAuthErrorMessage(error.value)), calls, db.users, db.sessions);
      return Text(400, OAuthErrorMessage(error.value)), calls;
    }
    if !Present(code) {
      assert expected == CallbackResult(Text(400, MissingCodeMessage), calls, db.users, db.sessions);
      return Text(400, MissingCodeMessage), calls;
    }
    calls := calls + [ExchangeCall(code.value, redirectUri)];
    if exchange.Err? {
      assert expected == CallbackResult(Text(500, AuthFailedMessage(exchange.message)), calls, db.users, db.sessions);
      return Text(500, AuthFailedMessage(exchange.message)), calls;
    }
    var tokenData := exchange.value;
    calls := calls + [ProfileCall];
    if profile.Err? {
      assert expected == CallbackResult(Text(500, AuthFailedMessage(profile.message)), calls, db.users, db.sessions);
      return Text(500, AuthFailedMessage(profile.message)), calls;
    }
    var spotifyUserId := profile.value;
    var expiresAt := clockMs / 1000 + tokenData.expiresIn;
    if upsert.Failed? {
      assert expected == CallbackResult(Text(500, AuthFailedMessage(upsert.error)), calls, db.users, db.sessions);
      return Text(500, AuthFailedMessage(upsert.error)), calls;
    }
    ghost var upserted := Upserted(db.users, spotifyUserId, tokenData, expiresAt, newApiKey);
    if spotifyUserId in db.users {
      db.users := SetTokens(db.users, spotifyUserId, tokenData.accessToken, tokenData.refreshToken, expiresAt);
    } else {
      db.users := db.users[spotifyUserId := UserRow(spotifyUserId, tokenData.accessToken, tokenData.refreshToken, expiresAt, newApiKey)];
    }
    assert db.users == upserted;
    if sessionInsert.Failed? {
      assert expected == CallbackResult(Text(500, AuthFailedMessage(sessionInsert.error)), calls, upserted, old(db.sessions));
      return Text(500, AuthFailedMessage(sessionInsert.error)), calls;
    }
    db.sessions := db.sessions[sessionId := spotifyUserId];
    response := SignedIn(sessionId);
    assert expected == CallbackResult(response, calls, upserted, db.sessions);
  }
}
