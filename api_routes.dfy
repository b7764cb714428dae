/** `POST /api/generate` and `POST /api/delete`, both behind `requireAuth`: replacing the
    caller's API key and deleting the caller's account. */
module ApiRoutes {
  import opened Common
  import opened Http
  import opened Store
  import opened AuthMiddleware
  import AddRoute
  import Spotify

  const RegeneratedLocation: string := "/dashboard?message=API key regenerated successfully!"
  const RegenerateFailedLocation: string := "/dashboard?error=Failed to regenerate API key."
  const DeletedLocation: string := "/?message=Your account has been successfully deleted."
  const DeleteFailedLocation: string := "/dashboard?error=Failed to delete account."

  /** The cookie `/delete` clears: `user_id` on path `/`. The `__session` cookie is left as it is. */
  const UserIdCookieCleared: SetCookie := DeleteCookie("user_id", "/")

  /** `/generate` for the signed-in `user`: `UPDATE users SET api_key = ? WHERE id = ?` with the
      freshly generated `newApiKey`. Only that row's key changes; the sessions are untouched. */
  method Generate(db: Database, user: UserRow, newApiKey: string, write: Write) returns (response: Response)
    requires db.Valid() && KeyUnused(db.users, newApiKey)
    modifies db
    ensures db.Valid() && db.sessions == old(db.sessions)
    ensures write.Committed? ==> db.users == SetApiKey(old(db.users), user.id, newApiKey) && response == Redirect(RegeneratedLocation, [])
    ensures write.Failed? ==> db.users == old(db.users) && response == Redirect(RegenerateFailedLocation, [])
  {
    if write.Failed? {
      return Redirect(RegenerateFailedLocation, []);
    }
    db.users := SetApiKey(db.users, user.id, newApiKey);
    response := Redirect(RegeneratedLocation, []);
  }

  /** `/delete` for the signed-in `user`: `DELETE FROM users WHERE id = ?`. The sessions table
      is not touched, so the user's sessions remain as orphans. */
  method Delete(db: Database, user: UserRow, write: Write) returns (response: Response)
    requires db.Valid()
    modifies db
    ensures db.Valid() && db.sessions == old(db.sessions)
    ensures write.Committed? ==> db.users == DeleteUser(old(db.users), user.id) && response == Redirect(DeletedLocation, [UserIdCookieCleared])
    ensures write.Failed? ==> db.users == old(db.users) && response == Redirect(DeleteFailedLocation, [])
  {
    if write.Failed? {
      return Redirect(DeleteFailedLocation, []);
    }
    db.users := DeleteUser(db.users, user.id);
    response := Redirect(DeletedLocation, [UserIdCookieCleared]);
  }

  /** `requireAuth` followed by `/generate`: the key changes only for an authenticated session,
      and then only that session's user's key. */
  method GenerateRoute(db: Database, cookie: Option<string>, newApiKey: string, write: Write) returns (response: Response)
    requires db.Valid() && KeyUnused(db.users, newApiKey)
    modifies db
    ensures db.Valid()
    ensures var v := CheckSession(old(db.users), old(db.sessions), cookie);
      && (!v.Authenticated? ==> db.users == old(db.users))
      && (v.NoSession? ==> response == Redirect(LoginRedirect, []) && db.sessions == old(db.sessions))
      && (v.UnknownSession? ==> response == Redirect(LoginRedirect, [ClearSessionCookie]) && db.sessions == old(db.sessions))
      && (v.OrphanSession? ==>
            response == Redirect(LoginRedirect, [ClearSessionCookie]) && db.sessions == old(db.sessions) - {v.sessionId})
      && (v.Authenticated? ==>
            && db.sessions == old(db.sessions)
            && (write.Committed? ==> db.users == SetApiKey(old(db.users), v.user.id, newApiKey) && response == Redirect(RegeneratedLocation, []))
            && (write.Failed? ==> db.users == old(db.users) && response == Redirect(RegenerateFailedLocation, [])))
  {
    var guard := RequireAuth(db, cookie);
    if guard.Halt? {
      return guard.response;
    }
    response := Generate(db, guard.currentUser, newApiKey, write);
  }

  /** `requireAuth` followed by `/delete`: a row is deleted only for an authenticated session,
      and then only that session's user's row. */
  method DeleteRoute(db: Database, cookie: Option<string>, write: Write) returns (response: Response)
    requires db.Valid()
    modifies db
    ensures db.Valid()
    ensures var v := CheckSession(old(db.users), old(db.sessions), cookie);
      && (!v.Authenticated? ==> db.users == old(db.users))
      && (v.NoSession? ==> response == Redirect(LoginRedirect, []) && db.sessions == old(db.sessions))
      && (v.UnknownSession? ==> response == Redirect(LoginRedirect, [ClearSessionCookie]) && db.sessions == old(db.sessions))
      && (v.OrphanSession? ==>
            response == Redirect(LoginRedirect, [ClearSessionCookie]) && db.sessions == old(db.sessions) - {v.sessionId})
      && (v.Authenticated? ==>
            && db.sessions == old(db.sessions)
            && (write.Committed? ==> db.users == DeleteUser(old(db.users), v.user.id) && response == Redirect(DeletedLocation, [UserIdCookieCleared]))
            && (write.Failed? ==> db.users == old(db.users) && response == Redirect(DeleteFailedLocation, [])))
  {
    var guard := RequireAuth(db, cookie);
    if guard.Halt? {
      return guard.response;
    }
    response := Delete(db, guard.currentUser, write);
  }

  /** After `/generate`, `/add` refuses the old key with 403 and still admits the new one for the
      same user. */
  lemma RegeneratedKeyReplacesOldKey(users: Users, id: UserId, newApiKey: string, clockMs: int,
                                     refreshResponse: Option<Spotify.TokenGrant>, write: Write, refreshClockMs: int)
    requires WellFormed(users) && id in users && KeyUnused(users, newApiKey) && newApiKey != ""
    requires users[id].apiKey != ""
    ensures var after := SetApiKey(users, id, newApiKey);
      var old_ := AddRoute.Validation(after, Some(users[id].apiKey), None, clockMs, refreshResponse, write, refreshClockMs);
      var new_ := AddRoute.Validation(after, Some(newApiKey), None, clockMs, refreshResponse, write, refreshClockMs);
      && old_ == AddRoute.Checked(AddRoute.Deny(Text(403, AddRoute.InvalidTokenMessage)), [], after)
      && new_.gate != AddRoute.Deny(Text(403, AddRoute.InvalidTokenMessage))
      && (new_.gate.Admit? ==> new_.gate.currentUser.id == id)
  {
    RotatedKeySelectsOnlyNewRow(users, id, newApiKey);
  }

  /** After `/delete`, `/add` refuses the deleted account's key with 403, and `requireAuth`
      finds every session of the account orphaned. */
  lemma DeletedAccountLocksOut(users: Users, sessions: Sessions, id: UserId, cookie: Option<string>, clockMs: int,
                               refreshResponse: Option<Spotify.TokenGrant>, write: Write, refreshClockMs: int)
    requires WellFormed(users) && id in users && users[id].apiKey != ""
    requires Present(cookie) && cookie.value in sessions && sessions[cookie.value] == id
    ensures var after := DeleteUser(users, id);
      && AddRoute.Validation(after, Some(users[id].apiKey), None, clockMs, refreshResponse, write, refreshClockMs)
           == AddRoute.Checked(AddRoute.Deny(Text(403, AddRoute.InvalidTokenMessage)), [], after)
      && CheckSession(after, sessions, cookie) == OrphanSession(cookie.value, id)
  {
    var after := DeleteUser(users, id);
    forall other | other in after
      ensures after[other].apiKey != users[id].apiKey
    {
      assert after[other] == users[other];
    }
    DeletedUserSessionsOrphaned(users, sessions, id, cookie);
  }
}
