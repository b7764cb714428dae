/** The calls the service makes to the music service's Web API and accounts endpoint: track
    search, the paginated playlist lookup, adding a track, and refreshing an access token
    together with persisting the refreshed token. */
module Spotify {
  import opened Common
  import opened Store

  const PlaylistPageLimit: int := 50
  const SearchLimit: int := 1

  datatype Track = Track(id: string, uri: string, name: string, artists: seq<string>)

  /** `sdk.search(query, types, market, limit)`. */
  datatype SearchRequest = SearchRequest(query: string, types: seq<string>, market: Option<string>, limit: int)

  /** The search call resolves to a result whose `tracks` page may be missing, or throws. */
  datatype SearchResponse = SearchReturned(tracks: Option<seq<Track>>) | SearchThrew(error: string)

  datatype Playlist = Playlist(id: string, name: string)

  /** One page of the current user's playlists; `next` is the URL of the following page or null. */
  datatype PlaylistPage = PlaylistPage(items: seq<Playlist>, next: Option<string>)

  /** `sdk.currentUser.playlists.playlists(limit, offset)`. */
  datatype PageRequest = PageRequest(limit: int, offset: int)
  datatype PageResponse = PageReturned(page: PlaylistPage) | PageThrew(error: string)

  /** `sdk.playlists.addItemsToPlaylist(playlistId, uris)`. */
  datatype AddItemsRequest = AddItemsRequest(playlistId: string, uris: seq<string>)
  datatype AddResponse = ItemsAdded | AddThrew(error: string)

  /** The body of a successful token response. */
  datatype TokenGrant = TokenGrant(accessToken: string, expiresIn: int, refreshToken: Option<string>)

  /** An outbound call to the music service, recorded in the order a request issues them. */
  datatype Call =
    | RefreshCall(refreshToken: string)                // POST /api/token, grant_type=refresh_token
    | ExchangeCall(code: string, redirectUri: string)  // POST /api/token, grant_type=authorization_code
    | ProfileCall                                      // sdk.currentUser.profile()
    | SearchCall(search: SearchRequest)
    | PlaylistsCall(page: PageRequest)
    | AddItemsCall(add: AddItemsRequest)

  // ---------------------------------------------------------------- searchTrack

  /** The request `searchTrack(sdk, query)` sends: tracks only, no market, one result. */
  function SearchRequestFor(query: string): (r: SearchRequest)
    ensures r.query == query && r.types == ["track"] && r.market == None && r.limit == SearchLimit
  {
    SearchRequest(query, ["track"], None, SearchLimit)
  }

  /** Every search asks for one track with no market; requests differ only in their query,
      which is sent as it is. */
  lemma SearchSendsOnlyTheQuery(q1: string, q2: string)
    ensures var r1, r2 := SearchRequestFor(q1), SearchRequestFor(q2);
      && r1.types == ["track"] && r1.market == None && r1.limit == 1
      && r1.query == q1
      && (r1 == r2 <==> q1 == q2)
  {
  }

  /** `searchTrack`: the first item of a present, non-empty `tracks` page, otherwise null; an
      error thrown by the search call propagates. */
  function SearchTrack(response: SearchResponse): (r: Result<Option<Track>>)
    ensures r.Err? <==> response.SearchThrew?
    ensures r.Err? ==> r.message == response.error
    ensures r.Ok? ==> (r.value.Some? <==> response.tracks.Some? && |response.tracks.value| > 0)
    ensures r.Ok? && r.value.Some? ==> r.value.value == response.tracks.value[0]
  {
    match response
    case SearchThrew(e) => Err(e)
    case SearchReturned(tracks) =>
      if tracks.Some? && |tracks.value| > 0 then Ok(Some(tracks.value[0])) else Ok(None)
  }

  // ---------------------------------------------------------------- findUserPlaylist

  /** `p.name.toLowerCase() === playlistName.toLowerCase()`. */
  predicate NameMatches(p: Playlist, name: string) {
    EqualsIgnoringCase(p.name, name)
  }

  /** The index of the first playlist whose name matches, or `|items|` if none does. */
  function FirstMatch(items: seq<Playlist>, name: string): (k: nat)
    ensures k <= |items|
    ensures forall j :: 0 <= j < k ==> !NameMatches(items[j], name)
    ensures k < |items| ==> NameMatches(items[k], name)
  {
    if items == [] then 0
    else if NameMatches(items[0], name) then 0
    else 1 + FirstMatch(items[1..], name)
  }

  /** `items.find(...)` with the name test above. */
  function Find(items: seq<Playlist>, name: string): (r: Option<Playlist>)
    ensures r.None? <==> forall j :: 0 <= j < |items| ==> !NameMatches(items[j], name)
    ensures r.Some? ==> exists k :: 0 <= k < |items| && items[k] == r.value && NameMatches(r.value, name)
                          && forall j :: 0 <= j < k ==> !NameMatches(items[j], name)
  {
    var k := FirstMatch(items, name);
    if k < |items| then Some(items[k]) else None
  }

  /** Searching past a run of playlists that do not match is searching what follows them. */
  lemma {:induction false} FirstMatchAfterMisses(a: seq<Playlist>, b: seq<Playlist>, name: string)
    requires FirstMatch(a, name) == |a|
    ensures FirstMatch(a + b, name) == |a| + FirstMatch(b, name)
    decreases |a|
  {
    if a == [] {
      assert a + b == b;
    } else {
      assert !NameMatches(a[0], name);
      assert FirstMatch(a[1..], name) == |a| - 1;
      assert (a + b)[0] == a[0];
      assert (a + b)[1..] == a[1..] + b;
      FirstMatchAfterMisses(a[1..], b, name);
    }
  }

  lemma FindAfterMisses(a: seq<Playlist>, b: seq<Playlist>, name: string)
    requires FirstMatch(a, name) == |a|
    ensures Find(a + b, name) == Find(b, name)
  {
    FirstMatchAfterMisses(a, b, name);
    var k := FirstMatch(b, name);
    if k < |b| {
      assert (a + b)[|a| + k] == b[k];
    }
  }

  /** A truthy `next`: the service reports a further page. */
  predicate HasNext(page: PlaylistPage) {
    Present(page.next)
  }

  /** A page after which the loop cannot go on: the call threw or there is no next page. */
  predicate Terminal(response: PageResponse) {
    response.PageThrew? || !HasNext(response.page)
  }

  /** The listing oracle is finite: its last page is terminal. */
  predicate ListingEnds(pages: seq<PageResponse>) {
    |pages| > 0 && Terminal(pages[|pages| - 1])
  }

  /** A page after which the loop asks for the next one: no match and a next page. */
  predicate Continues(response: PageResponse, name: string) {
    response.PageReturned? && Find(response.page.items, name).None? && HasNext(response.page)
  }

  /** The result of `findUserPlaylist` and how many pages it fetched. */
  datatype Lookup = Lookup(result: Result<Option<Playlist>>, fetched: nat)

  /** What `findUserPlaylist` does from the `k`-th page on, `pages[k]` being what the call at
      offset `50 * k` returns. */
  function PlaylistLookup(pages: seq<PageResponse>, name: string, k: nat): (l: Lookup)
    requires ListingEnds(pages) && k < |pages|
    ensures k < l.fetched <= |pages|
    decreases |pages| - k
  {
    match pages[k]
    case PageThrew(e) => Lookup(Err(e), k + 1)
    case PageReturned(page) =>
      var found := Find(page.items, name);
      if found.Some? then Lookup(Ok(found), k + 1)
      else if !HasNext(page) then Lookup(Ok(None), k + 1)
      else PlaylistLookup(pages, name, k + 1)
  }

  /** The first `n` page requests: limit 50 at offsets 0, 50, 100, ... */
  function PageRequests(n: nat): (r: seq<PageRequest>)
    ensures |r| == n
    ensures forall i :: 0 <= i < n ==> r[i] == PageRequest(PlaylistPageLimit, PlaylistPageLimit * i)
  {
    seq(n, i requires 0 <= i < n => PageRequest(PlaylistPageLimit, PlaylistPageLimit * i))
  }

  /** The playlists of one fetched page: none when the call threw. */
  function PageItems(response: PageResponse): seq<Playlist> {
    if response.PageReturned? then response.page.items else []
  }

  /** All playlists of the fetched pages, in listing order. */
  function Listing(responses: seq<PageResponse>): seq<Playlist> {
    if responses == [] then [] else PageItems(responses[0]) + Listing(responses[1..])
  }

  /** The lookup from page `k` on stops at the first page that does not continue: every
      fetched page before it had no match and a next page. A last page that threw gives its
      error, and null comes only from a last page without a next page. */
  lemma {:induction false} LookupStops(pages: seq<PageResponse>, name: string, k: nat)
    requires ListingEnds(pages) && k < |pages|
    ensures var l := PlaylistLookup(pages, name, k);
      var last := pages[l.fetched - 1];
      && (forall j :: k <= j < l.fetched - 1 ==> Continues(pages[j], name))
      && !Continues(last, name)
      && (last.PageThrew? ==> l.result == Err(last.error))
      && (l.result == Ok(None) ==> last.PageReturned? && !HasNext(last.page))
    decreases |pages| - k
  {
    if Continues(pages[k], name) {
      LookupStops(pages, name, k + 1);
    }
  }

  /** Listing a run of pages is listing its first page, then the rest. */
  lemma ListingCons(pages: seq<PageResponse>, k: nat, n: nat)
    requires k < n <= |pages|
    ensures Listing(pages[k..n]) == PageItems(pages[k]) + Listing(pages[k + 1..n])
  {
    var run := pages[k..n];
    assert run[0] == pages[k];
    assert run[1..] == pages[k + 1..n];
  }

  /** A page that continues the lookup adds nothing to what it finds. */
  lemma LookupPastMiss(pages: seq<PageResponse>, name: string, k: nat)
    requires ListingEnds(pages) && k < |pages| && Continues(pages[k], name)
    ensures var l := PlaylistLookup(pages, name, k);
      && l == PlaylistLookup(pages, name, k + 1)
      && Find(Listing(pages[k..l.fetched]), name) == Find(Listing(pages[k + 1..l.fetched]), name)
  {
    var l := PlaylistLookup(pages, name, k);
    var here := PageItems(pages[k]);
    ListingCons(pages, k, l.fetched);
    assert FirstMatch(here, name) == |here|;
    FindAfterMisses(here, Listing(pages[k + 1..l.fetched]), name);
  }

  /** A returned page that stops the lookup decides it by itself. */
  lemma LookupStopsHere(pages: seq<PageResponse>, name: string, k: nat)
    requires ListingEnds(pages) && k < |pages| && !Continues(pages[k], name) && pages[k].PageReturned?
    ensures var l := PlaylistLookup(pages, name, k);
      && l.fetched == k + 1
      && l.result == Ok(Find(Listing(pages[k..l.fetched]), name))
  {
    var here := PageItems(pages[k]);
    ListingCons(pages, k, k + 1);
    assert pages[k + 1..k + 1] == [];
    assert here + [] == here;
  }

  /** A lookup from page `k` on that ends on a returned page yields the first match, in listing
      order, across all the pages it fetched. */
  lemma {:induction false} LookupResult(pages: seq<PageResponse>, name: string, k: nat)
    requires ListingEnds(pages) && k < |pages|
    ensures var l := PlaylistLookup(pages, name, k);
      pages[l.fetched - 1].PageReturned? ==> l.result == Ok(Find(Listing(pages[k..l.fetched]), name))
    decreases |pages| - k
  {
    if Continues(pages[k], name) {
      LookupPastMiss(pages, name, k);
      LookupResult(pages, name, k + 1);
    } else if pages[k].PageReturned? {
      LookupStopsHere(pages, name, k);
    }
  }

  /** The whole lookup: page requests stop at the first page that has a match, has no next
      page or throws, and the result is what that page decides. */
  lemma LookupCharacterization(pages: seq<PageResponse>, name: string)
    requires ListingEnds(pages)
    ensures var l := PlaylistLookup(pages, name, 0);
      var last := pages[l.fetched - 1];
      && (forall j :: 0 <= j < l.fetched - 1 ==> Continues(pages[j], name))
      && !Continues(last, name)
      && (last.PageThrew? ==> l.result == Err(last.error))
      && (last.PageReturned? ==> l.result == Ok(Find(Listing(pages[..l.fetched]), name)))
      && (l.result == Ok(None) ==> last.PageReturned? && !HasNext(last.page))
  {
    LookupStops(pages, name, 0);
    LookupResult(pages, name, 0);
    var l := PlaylistLookup(pages, name, 0);
    assert pages[0..l.fetched] == pages[..l.fetched];
  }

  /** `findUserPlaylist`: pages are requested in order, limit 50 at offsets 0, 50, 100, ...,
      until one holds a match or has no next page; `pages[k]` is the reply at offset `50 * k`. */
  method FindUserPlaylist(pages: seq<PageResponse>, playlistName: string)
    returns (result: Result<Option<Playlist>>, requests: seq<PageRequest>)
    requires ListingEnds(pages)
    ensures var l := PlaylistLookup(pages, playlistName, 0);
      result == l.result && requests == PageRequests(l.fetched)
  {
    var offset := 0;
    var limit := PlaylistPageLimit;
    var k := 0;
    requests := [];
    while true
      invariant 0 <= k < |pages|
      invariant limit == PlaylistPageLimit && offset == PlaylistPageLimit * k
      invariant requests == PageRequests(k)
      invariant PlaylistLookup(pages, playlistName, 0) == PlaylistLookup(pages, playlistName, k)
      decreases |pages| - k
    {
      requests := requests + [PageRequest(limit, offset)];
      assert requests == PageRequests(k + 1);
      var response := pages[k];
      if response.PageThrew? {
        result := Err(response.error);
        return;
      }
      var playlist := Find(response.page.items, playlistName);
      if playlist.Some? {
        result := Ok(playlist);
        return;
      }
      if !HasNext(response.page) {
        break;
      }
      offset := offset + limit;
      k := k + 1;
    }
    result := Ok(None);
  }

  // ---------------------------------------------------------------- addTrackToPlaylist

  /** `addTrackToPlaylist`: true once the add call resolves; an error it throws is rethrown
      unchanged, so the function never returns a falsy value. */
  function AddTrackToPlaylist(response: AddResponse): (r: Result<bool>)
    ensures r.Ok? ==> r.value
    ensures r.Err? <==> response.AddThrew?
    ensures r.Err? ==> r.message == response.error
  {
    match response
    case ItemsAdded => Ok(true)
    case AddThrew(e) => Err(e)
  }

  // ---------------------------------------------------------------- refreshAccessToken

  /** What `refreshAccessToken` returns and the users table after it. */
  datatype Refresh = Refresh(grant: Option<TokenGrant>, users: Users)

  /** `refreshAccessToken` on a token response (`None` when it is not ok), the outcome of the
      UPDATE, and the clock in milliseconds. A token is returned only when both the refresh
      and the write succeed: a failed write returns null although the refresh succeeded. Only
      row `userId` changes, in its token columns: the new access token, the new refresh token
      if one was issued and the old one otherwise, and `floor(clockMs / 1000) + expires_in`. */
  function Refreshed(users: Users, userId: UserId, refreshToken: string, response: Option<TokenGrant>,
                     write: Write, clockMs: int): (r: Refresh)
    ensures r.grant.Some? <==> response.Some? && write.Committed?
    ensures r.grant.Some? ==> r.grant == response
    ensures r.grant.None? ==> r.users == users
    ensures r.users.Keys == users.Keys
    ensures forall other :: other in users && other != userId ==> r.users[other] == users[other]
    ensures r.grant.Some? && userId in users ==>
      var g, row := r.grant.value, r.users[userId];
      && row.id == users[userId].id && row.apiKey == users[userId].apiKey
      && row.accessToken == g.accessToken
      && row.refreshToken == Some(if Present(g.refreshToken) then g.refreshToken.value else refreshToken)
      && row.expiresAt == clockMs / 1000 + g.expiresIn
    ensures WellFormed(users) ==> WellFormed(r.users)
  {
    match response
    case None => Refresh(None, users)
    case Some(g) =>
      match write
      case Failed(_) => Refresh(None, users)
      case Committed =>
        Refresh(Some(g), SetTokens(users, userId, g.accessToken, Some(OrElse(g.refreshToken, refreshToken)), clockMs / 1000 + g.expiresIn))
  }

  /** `refreshAccessToken(refreshToken, ..., userId, db)` against the database. */
  method RefreshAccessToken(db: Database, refreshToken: string, userId: UserId, response: Option<TokenGrant>,
                            write: Write, clockMs: int) returns (grant: Option<TokenGrant>)
    requires db.Valid()
    modifies db
    ensures db.Valid() && db.sessions == old(db.sessions)
    ensures Refresh(grant, db.users) == Refreshed(old(db.users), userId, refreshToken, response, write, clockMs)
  {
    if response.None? {
      return None;
    }
    var newTokenData := response.value;
    var newExpiresAt := clockMs / 1000 + newTokenData.expiresIn;
    if write.Failed? {
      return None;
    }
    db.users := SetTokens(db.users, userId, newTokenData.accessToken, Some(OrElse(newTokenData.refreshToken, refreshToken)), newExpiresAt);
    grant := Some(newTokenData);
  }
}
