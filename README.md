# playlisturlify, modelled in Dafny

playlisturlify is a small web service that adds a song to one of the caller's music-service
playlists from a single URL: `GET /add?token=<api key>&query=<song>&playlist=<name>`. A POST
may carry `query` and `playlist` in a form body instead. The key is always read from the URL's
`token` parameter, or failing that from an `Authorization: Bearer <key>` header, never from the
body.

The service has three parts:

- Users sign in with the OAuth authorization-code flow (`/login`, `/callback`). This creates
  or updates their row in a D1 `users` table and opens a row in a `sessions` table.
- A signed-in user keeps one API key, which they can regenerate (`/api/generate`). They can
  also delete the account (`/api/delete`). Both routes sit behind the `requireAuth`
  middleware.
- On `/add`, the `validateApiToken` middleware finds the row that holds the key and
  refreshes an access token that is within five minutes of expiry. The handler then
  searches for the track, pages through the caller's playlists 50 at a time, and adds the
  track to the first playlist whose name matches, ignoring case.

A separate helper, `QueryCleaning`, asks a language model up to three times to turn a raw
song title into a cleaned title and artist list. It waits 10 seconds after every unusable
reply.

## How the model is built

- **Outside calls are inputs.** Calls to the music service, the language model, the D1
  driver and the clocks become parameters of the model. Each one is either the reply the
  call gets (`SearchResponse`, `PageResponse`, `AddResponse`, `Option<TokenGrant>`,
  `GenerateReply`) or the outcome of a write (`Write = Committed | Failed(error)`).
- **Calls are recorded.** The calls a route makes are returned as a trace (`seq<Call>`,
  `seq<Event>`). This lets the contracts state which requests are sent, in what order, and
  when none are sent.
- **The database is a class.** The two tables are maps in `Store.Database`, a class that
  the route methods update in place. Its invariant `Valid()` says that every row is stored
  under its own id and that no two rows share an API key.
- **Each stateful route has a specification function.** The function is pure and states
  the route's behaviour: `Spotify.Refreshed`, `AddRoute.Validation`,
  `AddRoute.AddHandled`, `AuthRoutes.Callbacked`, `Spotify.PlaylistLookup` and
  `Ai.Cleaning`. Its properties are proved as its `ensures` and as lemmas. Each method is
  proved to produce exactly what its specification function gives.

The model follows the code where the code and its own comments disagree:

- **A failed token write returns null.** When the UPDATE after a successful refresh fails,
  `refreshAccessToken` returns null (`src/lib/spotify.ts:146-148`). Its comment says the
  token data is still returned. The middleware therefore answers 401 in that case.
- **The refresh runs before any parameter check.** `validateApiToken` runs before the
  handler, so an expiring token is refreshed and persisted even for a request that the
  handler then refuses with 400 (`AddRoute.RefreshPrecedesParameterChecks`).
- **The add handler cannot send its 500.** `addTrackToPlaylist` returns `true` or throws.
  The handler's "Failed to add song to playlist" branch is therefore unreachable
  (`AddRoute.AddHandled` ensures the response is never that one).
- **Some model errors escape.** In `QueryCleaning`, an exception from the model call or
  from `JSON.parse` is not caught, so it escapes to the caller (`Err` in the model). Only
  absent or empty text and invalid or title-less objects are retried.
- **`QueryCleaning` is not called by any route.** It is modelled on its own.
- **The callback does not keep a stored refresh token.** The callback binds the exchanged
  refresh token as it is, and that is `undefined` when the exchange issued none
  (`src/routes/auth.ts:84`, `:98`). What D1 does with an `undefined` bind is outside the
  model: the statement may be rejected, which is the `upsert` write failing. If the write
  commits, the model stores no refresh token, whereas a refresh keeps the old one
  (`AuthRoutes.CallbackDropsRefreshTokenRefreshKeepsIt`).

## Model

| member | source | states |
|---|---|---|
| Common.Lower | src/lib/spotify.ts:175 | `toLowerCase` on ASCII: the length is kept, no upper-case letter remains, and every character that is not an upper-case letter is kept |
| Common.LowerIdempotent | src/lib/spotify.ts:175 | Lowering twice is lowering once |
| Common.SplitInTwo | src/routes/add.ts:31-32 | `split(' ')` gives exactly two pieces iff the string is two space-free strings around one space |
| Store.UserByApiKey | src/routes/add.ts:41-45 | The row found for a key holds that key and is stored under its id; no row is found exactly when no row holds the key |
| Store.SetTokens | src/lib/spotify.ts:136-143 | The token UPDATE changes only the access token, refresh token and expiry of row `id`; all other rows and columns are unchanged, and well-formedness is kept |
| Store.SetApiKey | src/routes/api.ts:20-22 | The key UPDATE changes only the `api_key` of row `id`; a key no row held keeps the keys unique |
| Store.DeleteUser | src/routes/api.ts:38-40 | Row `id` is gone and every other row is unchanged |
| Store.RotatedKeySelectsOnlyNewRow | src/routes/api.ts:18-22 | After a regeneration the old key selects no row and the new key selects exactly the regenerated row |
| Spotify.SearchTrack | src/lib/spotify.ts:158-164 | The first item of a present, non-empty tracks page, otherwise null; an error thrown by the search propagates with its message |
| Spotify.FirstMatch | src/lib/spotify.ts:175 | The index of the first playlist whose name equals the wanted name ignoring case: no earlier one matches, and the one at the index does |
| Spotify.Find | src/lib/spotify.ts:175 | `items.find`: null iff no playlist's name matches ignoring case; otherwise a matching playlist with no match before it |
| Spotify.SearchRequestFor | src/lib/spotify.ts:159 | `sdk.search(query, ['track'], undefined, 1)`: the query as given, type track only, no market, limit 1 |
| Spotify.SearchSendsOnlyTheQuery | src/lib/spotify.ts:159 | Every search asks for one track with no market and sends the query verbatim; two searches are equal iff their queries are |
| Spotify.FindAfterMisses | src/lib/spotify.ts:173-185 | Searching past playlists that do not match is searching what follows them |
| Spotify.PlaylistLookup | src/lib/spotify.ts:169-187 | The lookup from page `k` fetches at least that page and no page beyond the finite listing |
| Spotify.PageRequests | src/lib/spotify.ts:170-174 | The `i`-th page request asks for 50 playlists at offset `50 * i` |
| Spotify.LookupStops | src/lib/spotify.ts:173-186 | Every page fetched before the last had no match and a next page; the last page does not continue; a thrown page gives its error; null only after a page without `next` |
| Spotify.LookupResult | src/lib/spotify.ts:173-186 | A lookup ending on a returned page yields the first name match across all fetched pages, in listing order |
| Spotify.LookupCharacterization | src/lib/spotify.ts:169-187 | The whole lookup from offset 0: where it stops, and that its result is the error of a thrown last page or the first match over the fetched listing |
| Spotify.FindUserPlaylist | src/lib/spotify.ts:169-187 | The paging loop returns the lookup's result and sends exactly the page requests 0, 50, 100, ... of the pages it fetched |
| Spotify.AddTrackToPlaylist | src/lib/spotify.ts:196-203 | `true` when the add call resolves, the call's own error when it throws; never a falsy value |
| Spotify.Refreshed | src/lib/spotify.ts:102-150 | A token is returned iff the refresh is ok and its UPDATE succeeds; only the user's row changes, getting the new access token, the new refresh token or else the old one, and `floor(now/1000) + expires_in`; a failed write returns null and leaves the table as it was |
| Spotify.RefreshAccessToken | src/lib/spotify.ts:102-150 | The database method returns the grant and leaves the users table as `Refreshed` says, sessions untouched and the table well-formed |
| AddRoute.ExtractApiToken | src/routes/add.ts:26-35 | A truthy `token` parameter is used as it is; otherwise a header that splits on ' ' into exactly two pieces, the first "bearer" in any case, supplies the second piece; in every other case the parameter stands |
| AddRoute.BearerHeaderSuppliesKey | src/routes/add.ts:30-34 | A `<scheme> <key>` header with a bearer scheme in any case and no further spaces yields the key when the parameter is falsy |
| AddRoute.InternalErrorMessage | src/routes/add.ts:155 | The 500 body for a caught error is never the "Failed to add" message |
| AddRoute.Validation | src/routes/add.ts:25-98 | A missing key gives 401 and an unknown key 403, neither touching anything; a refresh is called iff the token expires within five minutes and a refresh token is stored; without one, 401 re-authenticate; a failed refresh, 401 session expired; otherwise the row is admitted with the current or refreshed token, expiry clamped at 0 and type "Bearer" |
| AddRoute.ValidateApiToken | src/routes/add.ts:25-98 | The middleware against the database yields exactly `Validation`'s decision, calls and users table, keeping the table well-formed and the sessions untouched |
| AddRoute.RefreshServesLaterRequests | src/routes/add.ts:54-83 | After a persisted refresh, later requests with the same key are admitted with the new access token and refresh nothing while their clock stays outside the five-minute window |
| AddRoute.AddHandled | src/routes/add.ts:100-157 | Unparseable POST body, missing query and missing playlist give their 400s in that order and call nothing; status is 400 iff a parameter is missing; otherwise the search call comes first; the "Failed to add" 500 never occurs |
| AddRoute.Param | src/routes/add.ts:104-118 | On GET a parameter is the query-string entry, on POST the parsed body field, absent when missing; an unparseable body yields none |
| AddRoute.ParamSource | src/routes/add.ts:104-118 | A POST ignores the query string and a GET ignores the body |
| AddRoute.SearchDecides | src/routes/add.ts:131-142 | A search that throws or finds nothing ends the request after the search call alone (500 or 404); a found track is followed by the playlist page calls in order |
| AddRoute.PlaylistStageDecides | src/routes/add.ts:138-141 | With the track found: a page that throws gives 500 with its error, and no match gives 404 with the playlist's name; both end after the search and page calls, with no add call |
| AddRoute.AddOnlyAfterBothLookups | src/routes/add.ts:131-156 | The add call is made iff track and playlist are both found; 200 iff additionally the add succeeds; the full call sequence; the playlist's name matches ignoring case; a thrown add gives 500 with its message |
| AddRoute.HandleAdd | src/routes/add.ts:100-157 | The handler method returns exactly `AddHandled`'s response and calls |
| AddRoute.Add | src/routes/add.ts:100 | The route runs the middleware and, only if it admits, the handler: calls are the refresh calls followed by the handler's, and the users table is the middleware's |
| AddRoute.RefreshPrecedesParameterChecks | src/routes/add.ts:57-83 | An expiring key's token is refreshed and persisted even when the request is then refused for a missing query |
| Ai.AttemptOn | src/lib/ai.ts:59-72 | An attempt is accepted iff its text parses to a truthy, validated object with a non-empty title, and its info is that object read unchanged; it throws iff the call throws or present text does not parse, with the call's or `JSON.parse`'s own error; every other reply is retried |
| Ai.Cleaning | src/lib/ai.ts:55-75 | The retry loop from attempt `k`: a real attempt starts with a call sending the request; a returned SongInfo is either the raw-query fallback or has a non-empty title |
| Ai.Deciding | src/lib/ai.ts:58-73 | The deciding attempt is the first one not retried, or three if all are |
| Ai.CleaningShape | src/lib/ai.ts:55-75 | A call and a 10 000 ms wait for each retried attempt, then the deciding call with no wait; the result is that attempt's info or error, or the raw query with no artists when all three are retried |
| Ai.CallsPerRun | src/lib/ai.ts:58-63 | Between one and three model calls per run, each with the same request |
| Ai.DelayAfterEveryRetry | src/lib/ai.ts:71-72 | A call is followed by something iff its attempt was retried; every wait is 10 000 ms and follows a call; a run decided early ends on a call |
| Ai.FallbackWhenAllRetried | src/lib/ai.ts:75 | Three retried attempts give the raw query as title with no artists, after three calls and three waits |
| Ai.ThirdReplyAccepted | src/lib/ai.ts:58-69 | Two unusable replies and a valid third return the third's info after three calls and two waits |
| Ai.EmptyTitleRetried | src/lib/ai.ts:67 | An object with an empty title passes `SongInfo.validate` but is still retried |
| Ai.DecidedAt | src/lib/ai.ts:58-75 | Once the deciding attempt is known, the run's result and trace follow |
| Ai.AskModel | src/lib/ai.ts:53-75 | The retry loop produces exactly the run `Cleaning` describes for its request |
| Ai.QueryCleaning | src/lib/ai.ts:19-76 | The whole function: every attempt sends the prompt for the query with the fixed model and config, and the result and trace are `Cleaning`'s |
| SongInfoDto.FromValidated | src/dto/SongInfo.ts:5-8 | The SongInfo built from a validated object carries its title and its artists, in order |
| SongInfoDto.Validate | src/dto/SongInfo.ts:11-17 | `SongInfo.validate`: `title` is a string, `artist` is an array and each of its elements is a string; a passing value is an object with both fields |
| SongInfoDto.ValidIffSongInfoFields | src/dto/SongInfo.ts:11-17 | An object passes `validate` iff its `title` and `artist` fields are those of some SongInfo |
| SongInfoDto.ToJsonValidates | src/dto/SongInfo.ts:11-17 | Every SongInfo's JSON passes validation |
| SongInfoDto.FromToJson | src/dto/SongInfo.ts:1-17 | Reading a SongInfo back from its JSON gives the same SongInfo |
| SongInfoDto.ToFromValidated | src/dto/SongInfo.ts:11-17 | A validated object agrees with the JSON of the SongInfo read from it on `title` and `artist` |
| QueryRefinePrompt.ExtractSongDetailsPrompt | src/lib/queryRefinePrompt.ts:1-75 | One user message of two parts, the first the fixed instructions |
| QueryRefinePrompt.QueryRoundTrip | src/lib/queryRefinePrompt.ts:67-72 | The query can be read back verbatim from its prompt |
| QueryRefinePrompt.PromptsDifferOnlyInQuery | src/lib/queryRefinePrompt.ts:1-75 | Two prompts share role, shape and instructions, and are equal iff their queries are |
| AuthMiddleware.CheckSession | src/middleware/auth.ts:24-59 | No cookie, unknown session, orphan session (user row gone) and authenticated are decided by the two lookups, each iff its condition |
| AuthMiddleware.RequireAuth | src/middleware/auth.ts:23-64 | No cookie redirects to /login; an unknown session also clears the cookie; an orphan session also deletes only that session row; otherwise the user proceeds; users are never written |
| AuthMiddleware.DeletedUserSessionsOrphaned | src/middleware/auth.ts:45-58 | After a user row is deleted its sessions are orphans and every other session is judged as before |
| AuthMiddleware.OrphanThenUnknown | src/middleware/auth.ts:53-58 | An orphan session, once deleted, is judged unknown |
| AuthRoutes.RedirectUri | src/routes/auth.ts:21 | The redirect URI is the protocol, "//", the host and "/callback", in that order |
| AuthRoutes.RedirectUriInjective | src/routes/auth.ts:38 | For protocols of equal length, equal redirect URIs come from the same protocol and host |
| AuthRoutes.Login | src/routes/auth.ts:9-29 | /login sends the derived redirect URI and the four scopes for the profile and for reading and modifying playlists |
| AuthRoutes.Upserted | src/routes/auth.ts:65-102 | An existing row gets the exchanged tokens and expiry and keeps its API key; a new row is inserted with the fresh key; all other rows are unchanged |
| AuthRoutes.CallbackDropsRefreshTokenRefreshKeepsIt | src/routes/auth.ts:80-87 | Without an issued refresh token, a callback whose write commits stores no refresh token, while a refresh keeps the stored one |
| AuthRoutes.Callbacked | src/routes/auth.ts:31-117 | An OAuth error, then a missing code, give 400s and touch nothing; otherwise the exchange with the shared redirect URI comes first; 302 to /dashboard with a 30-day session cookie iff exchange, profile and both writes succeed; the first of those steps to fail gives 500 with that step's error, touching neither table, except that a failed session insert keeps the committed upsert; sessions change only on success |
| AuthRoutes.SignInOpensSession | src/routes/auth.ts:76-111 | After a successful callback the new session authenticates the signed-in user, whose row holds the exchanged access token and who keeps an existing API key |
| AuthRoutes.LoginAndCallbackAgree | src/routes/auth.ts:21-55 | The code exchange uses the same redirect URI that /login sends |
| AuthRoutes.Callback | src/routes/auth.ts:31-117 | The callback method yields exactly `Callbacked`'s response, calls and tables, keeping the users table well-formed |
| ApiRoutes.Generate | src/routes/api.ts:13-30 | A committed UPDATE replaces only the user's key and redirects with the success message; a failed one changes nothing |
| ApiRoutes.Delete | src/routes/api.ts:33-52 | A committed DELETE removes only the user's row, clears `user_id` and redirects home; a failed one changes nothing; sessions are not touched |
| ApiRoutes.GenerateRoute | src/routes/api.ts:10-30 | A halted request gets `requireAuth`'s redirect and cookies and its sessions change, only an orphan row deleted, with users untouched; the key changes only for an authenticated session, and only that user's key |
| ApiRoutes.DeleteRoute | src/routes/api.ts:10-52 | A halted request gets `requireAuth`'s redirect and cookies and its sessions change, only an orphan row deleted, with users untouched; a row is deleted only for an authenticated session, and only that user's row |
| ApiRoutes.RegeneratedKeyReplacesOldKey | src/routes/api.ts:18-22 | After regeneration `/add` refuses the old key with 403 and admits the new key for the same user |
| ApiRoutes.DeletedAccountLocksOut | src/routes/api.ts:38-40 | After deletion `/add` refuses the account's key with 403 and its sessions are orphans |

## Left out

- Network faults: a `fetch` that throws, and a failing `response.json()` on the refresh and exchange endpoints, are not modelled. A non-ok refresh is `None` and a failed exchange is `Err`.
- Wire formats are not modelled: the authorization URL's query string, `URLSearchParams`, the `btoa` client credentials and the `Set-Cookie` attribute strings. Cookies are the `SetCookie` values.
- `Lower` folds ASCII letters only. JavaScript's `toLowerCase` also folds the rest of Unicode.
- The 10-second wait of `QueryCleaning` is recorded as a `Delay` event, not taken.
- Logging (`console.*`) is not modelled.
- Concurrency is not modelled, including two requests refreshing the same token at once.
- `nanoid(32)` and `crypto.randomUUID()` are inputs taken to be fresh (`KeyUnused`, `sessionId !in sessions`). Collisions are not modelled.
- JSON numbers are reals. `JSON.parse` is an input function.
- `parseBody` fields that are files, not strings, are not modelled.
- A thrown value that is not an `Error` (formatted with `String(error)`) is not modelled. Every error is its message.
- D1 read failures are not modelled, nor a failing DELETE in `requireAuth`. The writes the routes make are each a `Write` outcome.
- A D1 error for an undefined bind value, as in the callback's refresh-token bind when none was issued, is covered only by the `upsert` outcome.
- The SDK's own automatic refresh, and every SDK call other than search, playlist pages, add items and the profile, are not modelled.
- The routes' mounting (`src/index.tsx`), the dashboard and the HTML renderer are not modelled: they render views and mount the routers.
- Spotify.PlaylistLookup: the page replies are a finite sequence ending on a page that throws or has no `next`, so a listing whose `next` never runs out, which would keep the source's `while (true)` fetching forever, is not modelled. The same assumption is a precondition of Spotify.FindUserPlaylist, AddRoute.AddHandled, AddRoute.HandleAdd and AddRoute.Add.
- Store.UserByApiKey: assumes API keys are unique in the users table, which the code enforces only by generating random keys.
