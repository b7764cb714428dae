/** The two D1 tables the routes read and write, as maps keyed by primary key, and the
    single statements the routes run against them. */
module Store {
  import opened Common

  type UserId = string
  type SessionId = string

  /** A row of the `users` table. `refresh_token` may be null: the OAuth callback stores
      whatever the code exchange returned. */
  datatype UserRow = UserRow(
    id: UserId,
    accessToken: string,
    refreshToken: Option<string>,
    expiresAt: int,  // epoch seconds
    apiKey: string)

  /** `users`, keyed by `id`. */
  type Users = map<UserId, UserRow>

  /** `sessions`: the `user_id` of each session `id`. */
  type Sessions = map<SessionId, UserId>

  /** The outcome of one write statement: it ran, or the driver threw. */
  datatype Write = Committed | Failed(error: string)

  /** Every row is stored under its own id, and no two rows share an API key. */
  predicate WellFormed(users: Users) {
    && (forall id :: id in users ==> users[id].id == id)
    && (forall i, j :: i in users && j in users && users[i].apiKey == users[j].apiKey ==> i == j)
  }

  /** No row holds `key`: what a freshly generated API key is taken to be. */
  predicate KeyUnused(users: Users, key: string) {
    forall id :: id in users ==> users[id].apiKey != key
  }

  /** `SELECT * FROM users WHERE api_key = ?` and `.first()`: the row holding the key, if any. */
  function UserByApiKey(users: Users, key: string): (r: Option<UserRow>)
    requires WellFormed(users)
    ensures r.Some? ==> r.value.id in users && users[r.value.id] == r.value && r.value.apiKey == key
    ensures r.None? <==> KeyUnused(users, key)
  {
    if exists id :: id in users && users[id].apiKey == key then
      var id :| id in users && users[id].apiKey == key;
      Some(users[id])
    else
      None
  }

  /** `UPDATE users SET access_token = ?, refresh_token = ?, expires_at = ? WHERE id = ?`.
      Only row `id` changes, and only in its three token columns; without such a row nothing changes. */
  function SetTokens(users: Users, id: UserId, access: string, refresh: Option<string>, expiresAt: int): (r: Users)
    ensures r.Keys == users.Keys
    ensures forall other :: other in users && other != id ==> r[other] == users[other]
    ensures id in users ==>
      && r[id].id == users[id].id && r[id].apiKey == users[id].apiKey
      && r[id].accessToken == access && r[id].refreshToken == refresh && r[id].expiresAt == expiresAt
    ensures WellFormed(users) ==> WellFormed(r)
  {
    if id in users then
      users[id := users[id].(accessToken := access, refreshToken := refresh, expiresAt := expiresAt)]
    else
      users
  }

  /** `UPDATE users SET api_key = ? WHERE id = ?`: only the `api_key` of row `id` changes. A
      key no row holds keeps the keys unique. */
  function SetApiKey(users: Users, id: UserId, key: string): (r: Users)
    ensures r.Keys == users.Keys
    ensures forall other :: other in users && other != id ==> r[other] == users[other]
    ensures id in users ==> r[id] == users[id].(apiKey := key)
    ensures WellFormed(users) && KeyUnused(users, key) ==> WellFormed(r)
  {
    if id in users then users[id := users[id].(apiKey := key)] else users
  }

  /** `DELETE FROM users WHERE id = ?`: row `id` is gone and every other row is as it was. */
  function DeleteUser(users: Users, id: UserId): (r: Users)
    ensures r.Keys == users.Keys - {id}
    ensures forall other :: other in r ==> r[other] == users[other]
    ensures WellFormed(users) ==> WellFormed(r)
  {
    users - {id}
  }

  /** After the key of row `id` is replaced by one no row held, the old key selects no row and
      the new key selects exactly that row. */
  lemma RotatedKeySelectsOnlyNewRow(users: Users, id: UserId, newKey: string)
    requires WellFormed(users) && id in users && KeyUnused(users, newKey)
    ensures var r := SetApiKey(users, id, newKey);
      && WellFormed(r)
      && UserByApiKey(r, users[id].apiKey) == None
      && UserByApiKey(r, newKey) == Some(r[id])
  {
    var r := SetApiKey(users, id, newKey);
    var oldKey := users[id].apiKey;
    forall other | other in r
      ensures r[other].apiKey != oldKey
    {
      if other != id {
        assert r[other] == users[other];
      }
    }
    assert r[id].apiKey == newKey;
  }

  /** The D1 database: both tables, updated in place by the route handlers. */
  class Database {
    var users: Users
    var sessions: Sessions

    predicate Valid()
      reads this
    {
      WellFormed(users)
    }

    constructor (users: Users, sessions: Sessions)
      requires WellFormed(users)
      ensures Valid() && this.users == users && this.sessions == sessions
    {
      this.users := users;
      this.sessions := sessions;
    }
  }
}
