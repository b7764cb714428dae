/** `requireAuth`: the dashboard and API routes run only for a `__session` cookie whose
    session row names an existing user. */
module AuthMiddleware {
  import opened Common
  import opened Http
  import opened Store

  /** What the two lookups find for the cookie. */
  datatype Verdict =
    | NoSession                                        // no cookie, or an empty one
    | UnknownSession(sessionId: SessionId)             // no session row with that id
    | OrphanSession(sessionId: SessionId, userId: UserId)  // the session's user row is gone
    | Authenticated(user: UserRow)

  /** `SELECT user_id FROM sessions WHERE id = ?`, then `SELECT * FROM users WHERE id = ?`. */
  function CheckSession(users: Users, sessions: Sessions, cookie: Option<string>): (v: Verdict)
    ensures v.NoSession? <==> !Present(cookie)
    ensures v.UnknownSession? <==> Present(cookie) && cookie.value !in sessions
    ensures v.OrphanSession? <==> Present(cookie) && cookie.value in sessions && sessions[cookie.value] !in users
    ensures v.Authenticated? <==> Present(cookie) && cookie.value in sessions && sessions[cookie.value] in users
    ensures v.UnknownSession? || v.OrphanSession? ==> v.sessionId == cookie.value
    ensures v.OrphanSession? ==> v.userId == sessions[cookie.value]
    ensures v.Authenticated? ==> v.user == users[sessions[cookie.value]]
  {
    if !Present(cookie) then NoSession
    else if cookie.value !in sessions then UnknownSession(cookie.value)
    else
      var userId := sessions[cookie.value];
      if userId !in users then OrphanSession(cookie.value, userId)
      else Authenticated(users[userId])
  }

  /** The middleware stops the request with a response, or lets it through with `currentUser`. */
  datatype Guard = Halt(response: Response) | Proceed(currentUser: UserRow)

  const LoginRedirect: string := "/login"

  /** `requireAuth` with the `__session` cookie `cookie`. The users table is never written; the
      sessions table changes only for a session whose user is gone, and then only that session
      row is deleted. Every stop redirects to the login page, clearing the cookie whenever one
      was sent. */
  method RequireAuth(db: Database, cookie: Option<string>) returns (guard: Guard)
    modifies db
    ensures db.users == old(db.users)
    ensures var v := CheckSession(old(db.users), old(db.sessions), cookie);
      && (v.NoSession? ==> guard == Halt(Redirect(LoginRedirect, [])) && db.sessions == old(db.sessions))
      && (v.UnknownSession? ==> guard == Halt(Redirect(LoginRedirect, [ClearSessionCookie])) && db.sessions == old(db.sessions))
      && (v.OrphanSession? ==>
            && guard == Halt(Redirect(LoginRedirect, [ClearSessionCookie]))
            && db.sessions == old(db.sessions) - {v.sessionId})
      && (v.Authenticated? ==> guard == Proceed(v.user) && db.sessions == old(db.sessions))
  {
    if !Present(cookie) {
      return Halt(Redirect(LoginRedirect, []));
    }
    var sessionId := cookie.value;
    if sessionId !in db.sessions {
      return Halt(Redirect(LoginRedirect, [ClearSessionCookie]));
    }
    var userId := db.sessions[sessionId];
    if userId !in db.users {
      db.sessions := db.sessions - {sessionId};
      return Halt(Redirect(LoginRedirect, [ClearSessionCookie]));
    }
    guard := Proceed(db.users[userId]);
  }

  /** Once a user row is deleted, every session of that user is an orphan, and every other
      session is judged as before. */
  lemma DeletedUserSessionsOrphaned(users: Users, sessions: Sessions, id: UserId, cookie: Option<string>)
    ensures var before, after := CheckSession(users, sessions, cookie), CheckSession(DeleteUser(users, id), sessions, cookie);
      && (Present(cookie) && cookie.value in sessions && sessions[cookie.value] == id ==>
            after == OrphanSession(cookie.value, id))
      && (!(Present(cookie) && cookie.value in sessions && sessions[cookie.value] == id) ==> after == before)
  {
  }

  /** An orphan session is judged unknown once it has been deleted: a second request with the
      same cookie clears it again but changes nothing. */
  lemma OrphanThenUnknown(users: Users, sessions: Sessions, cookie: Option<string>)
    requires CheckSession(users, sessions, cookie).OrphanSession?
    ensures CheckSession(users, sessions - {cookie.value}, cookie) == UnknownSession(cookie.value)
  {
  }
}
