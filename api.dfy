/** The data endpoints (backend/app/api.py): each one is gated by the
    session, builds a Spotify client from the stored access token, and
    either forwards a Spotify Web API response or reads the saved stats.
    The Web API calls are inputs: total functions of the request they get,
    whose `Err` stands for the exception the endpoint catches. */
module Api {
  import opened Common
  import opened Encryption
  import opened Models
  import opened State

  /** `spotipy.Spotify(auth=token)`, identified by its token. */
  datatype SpotifyClient = SpotifyClient(auth: string)

  /** `current_user_top_artists` / `current_user_top_tracks` (chosen by
      `itemType`) with their arguments. */
  datatype TopRequest = TopRequest(auth: string, itemType: string, limit: int, timeRange: string)

  /** `current_user_recently_played(limit=limit)` */
  datatype RecentRequest = RecentRequest(auth: string, limit: int)

  const NoClient: string := "Failed to create Spotify client"
  const InvalidItemType: string := "Invalid item type. Must be 'artists' or 'tracks'"

  /** The item types `/top/<item_type>` serves. */
  predicate IsTopItemType(itemType: string) {
    itemType == "artists" || itemType == "tracks"
  }

  /** `request.args.get('time_range', 'medium_term')` */
  function TimeRangeArg(arg: Option<string>): (t: string)
    ensures arg.None? ==> t == "medium_term"
    ensures arg.Some? ==> t == arg.value
  {
    if arg.Some? then arg.value else "medium_term"
  }

  /** `request.args.get('limit', 20, type=int)`; `arg` is `None` when the
      parameter is absent or `int()` rejects it. */
  function LimitArg(arg: Option<int>): (n: int)
    ensures arg.None? ==> n == 20
    ensures arg.Some? ==> n == arg.value
  {
    if arg.Some? then arg.value else 20
  }

  /** What `get_spotify_client(userId)` returns when `_get_fernet()` yields
      `f`: no client for an unknown id or a falsy access token, otherwise a
      client authenticated with the decrypted token. */
  function ClientFor(app: Backend, userId: int, f: Option<Fernet>): (c: Option<SpotifyClient>)
    reads app, app.users, app.crypto
    requires app.Valid()
    ensures app.Get(userId).None? ==> c.None?
    ensures app.Get(userId).Some? ==>
      var token := app.users[app.Get(userId).value].AccessTokenUnder(f);
      (c.Some? <==> Truthy(token)) && (c.Some? ==> c.value.auth == token.value)
  {
    match app.Get(userId)
    case None => None
    case Some(k) =>
      var token := app.users[k].AccessTokenUnder(f);
      if Truthy(token) then Some(SpotifyClient(token.value)) else None
  }

  /** Whether `get_spotify_client(userId)` calls `_get_fernet`. */
  predicate ClientTouchesCipher(app: Backend, userId: int)
    reads app, app.users, app.crypto
    requires app.Valid()
  {
    app.Get(userId).Some? && Truthy(app.users[app.Get(userId).value].accessTokenColumn)
  }

  /** `get_spotify_client(user_id)` (api.py:7-13). The getter runs twice
      when the token is truthy; both reads see the same cipher. */
  method GetSpotifyClient(app: Backend, userId: int, env: Text) returns (client: Option<SpotifyClient>)
    requires app.Valid()
    modifies app.crypto
    ensures app.Valid()
    ensures client == ClientFor(app, userId, Resolve(old(app.crypto.fernet), env))
    ensures app.crypto.fernet == Touched(old(app.crypto.fernet), env, ClientTouchesCipher(app, userId))
  {
    var k := app.Get(userId);
    if k.None? {
      return None;
    }
    var user := app.users[k.value];
    ghost var c0 := app.crypto.fernet;
    var token := user.AccessToken(app.crypto, env);
    if !Truthy(token) {
      return None;
    }
    ResolveTouched(c0, env, true);
    TouchedTwice(c0, env, true, true);
    var auth := user.AccessToken(app.crypto, env);
    return Some(SpotifyClient(auth.value));
  }

  /** `get_profile()` (api.py:16-31). */
  method GetProfile(app: Backend, currentUser: string -> Result<Json>, env: Text) returns (r: Response)
    requires app.Valid()
    modifies app.crypto
    ensures app.Valid()
    ensures SessionUser(app.session).None? ==>
      r == ErrorResponse(401, NotAuthenticated) && app.crypto.fernet == old(app.crypto.fernet)
    ensures SessionUser(app.session).Some? ==>
      app.crypto.fernet ==
        Touched(old(app.crypto.fernet), env, old(ClientTouchesCipher(app, SessionUser(app.session).value)))
    ensures SessionUser(app.session).Some? ==>
      match old(ClientFor(app, SessionUser(app.session).value, Resolve(app.crypto.fernet, env)))
      case None => r == ErrorResponse(500, NoClient)
      case Some(client) =>
        match currentUser(client.auth)
        case Ok(profile) => r == JsonResponse(200, profile)
        case Err(e) => r == ErrorResponse(500, e)
  {
    var userId := SessionUser(app.session);
    if userId.None? {
      return ErrorResponse(401, NotAuthenticated);
    }
    var sp := GetSpotifyClient(app, userId.value, env);
    if sp.None? {
      return ErrorResponse(500, NoClient);
    }
    match currentUser(sp.value.auth)
    case Ok(profile) => r := JsonResponse(200, profile);
    case Err(e) => r := ErrorResponse(500, e);
  }

  /** `get_top_items(item_type)` (api.py:34-75). The item type is checked
      before the session, so an invalid type is a 400 even without a
      session; a successful call saves exactly one stats row. */
  method GetTopItems(app: Backend, itemType: string, timeRangeArg: Option<string>, limitArg: Option<int>,
                     top: TopRequest -> Result<Json>, env: Text, clock: Clock) returns (r: Response)
    requires app.Valid()
    modifies app, app.crypto
    ensures app.Valid()
    ensures app.users == old(app.users) && app.session == old(app.session)
    ensures !IsTopItemType(itemType) ==>
      r == ErrorResponse(400, InvalidItemType) && app.stats == old(app.stats) &&
      app.crypto.fernet == old(app.crypto.fernet)
    ensures IsTopItemType(itemType) && SessionUser(app.session).None? ==>
      r == ErrorResponse(401, NotAuthenticated) && app.stats == old(app.stats) &&
      app.crypto.fernet == old(app.crypto.fernet)
    ensures IsTopItemType(itemType) && SessionUser(app.session).Some? ==>
      app.crypto.fernet ==
        Touched(old(app.crypto.fernet), env, old(ClientTouchesCipher(app, SessionUser(app.session).value)))
    ensures IsTopItemType(itemType) && SessionUser(app.session).Some? ==>
      var userId := SessionUser(app.session).value;
      match old(ClientFor(app, userId, Resolve(app.crypto.fernet, env)))
      case None => r == ErrorResponse(500, NoClient) && app.stats == old(app.stats)
      case Some(client) =>
        match top(TopRequest(client.auth, itemType, LimitArg(limitArg), TimeRangeArg(timeRangeArg)))
        case Err(e) => r == ErrorResponse(500, e) && app.stats == old(app.stats)
        case Ok(items) =>
          r == JsonResponse(200, items) &&
          app.stats == old(app.stats) +
            [UserStats(|old(app.stats)| + 1, userId, TimeRangeArg(timeRangeArg), itemType, items, clock.utc)]
  {
    if !IsTopItemType(itemType) {
      return ErrorResponse(400, InvalidItemType);
    }
    var userId := SessionUser(app.session);
    if userId.None? {
      return ErrorResponse(401, NotAuthenticated);
    }
    var timeRange := TimeRangeArg(timeRangeArg);
    var limit := LimitArg(limitArg);
    var sp := GetSpotifyClient(app, userId.value, env);
    if sp.None? {
      return ErrorResponse(500, NoClient);
    }
    match top(TopRequest(sp.value.auth, itemType, limit, timeRange))
    case Err(e) =>
      r := ErrorResponse(500, e);
    case Ok(items) =>
      var k := app.Get(userId.value);
      app.AddStats(app.users[k.value].id.value, timeRange, itemType, items, clock);
      r := JsonResponse(200, items);
  }

  /** `get_recently_played()` (api.py:78-95): never writes a stats row. */
  method GetRecentlyPlayed(app: Backend, limitArg: Option<int>, recent: RecentRequest -> Result<Json>,
                           env: Text) returns (r: Response)
    requires app.Valid()
    modifies app.crypto
    ensures app.Valid()
    ensures app.stats == old(app.stats) && app.users == old(app.users) && app.session == old(app.session)
    ensures SessionUser(app.session).None? ==>
      r == ErrorResponse(401, NotAuthenticated) && app.crypto.fernet == old(app.crypto.fernet)
    ensures SessionUser(app.session).Some? ==>
      app.crypto.fernet ==
        Touched(old(app.crypto.fernet), env, old(ClientTouchesCipher(app, SessionUser(app.session).value)))
    ensures SessionUser(app.session).Some? ==>
      match old(ClientFor(app, SessionUser(app.session).value, Resolve(app.crypto.fernet, env)))
      case None => r == ErrorResponse(500, NoClient)
      case Some(client) =>
        match recent(RecentRequest(client.auth, LimitArg(limitArg)))
        case Ok(items) => r == JsonResponse(200, items)
        case Err(e) => r == ErrorResponse(500, e)
  {
    var userId := SessionUser(app.session);
    if userId.None? {
      return ErrorResponse(401, NotAuthenticated);
    }
    var limit := LimitArg(limitArg);
    var sp := GetSpotifyClient(app, userId.value, env);
    if sp.None? {
      return ErrorResponse(500, NoClient);
    }
    match recent(RecentRequest(sp.value.auth, limit))
    case Ok(items) => r := JsonResponse(200, items);
    case Err(e) => r := ErrorResponse(500, e);
  }

  // ---------------------------------------------------------------------
  // The saved-stats query (api.py:98-127).
  // ---------------------------------------------------------------------

  /** A row the query keeps: the user's own, and of the requested type and
      time range when those parameters are given (and not empty). */
  predicate InScope(s: UserStats, userId: int, dataType: Option<string>, timeRange: Option<string>) {
    s.userId == userId &&
    (Truthy(dataType) ==> s.dataType == dataType.value) &&
    (Truthy(timeRange) ==> s.timeRange == timeRange.value)
  }

  /** The `filter_by` chain, in table order. */
  function Scope(stats: seq<UserStats>, userId: int, dataType: Option<string>, timeRange: Option<string>): (r: seq<UserStats>)
    ensures |r| <= |stats|
    ensures forall i :: 0 <= i < |r| ==> InScope(r[i], userId, dataType, timeRange)
  {
    if stats == [] then []
    else if InScope(stats[0], userId, dataType, timeRange) then [stats[0]] + Scope(stats[1..], userId, dataType, timeRange)
    else Scope(stats[1..], userId, dataType, timeRange)
  }

  /** Every row of the query's result is in the table and in scope, and
      every row of the table that is in scope is in the result, as often. */
  lemma {:induction false} ScopeExact(stats: seq<UserStats>, userId: int, dataType: Option<string>, timeRange: Option<string>)
    ensures forall s :: s in Scope(stats, userId, dataType, timeRange) <==> s in stats && InScope(s, userId, dataType, timeRange)
    ensures forall s :: InScope(s, userId, dataType, timeRange) ==>
      multiset(Scope(stats, userId, dataType, timeRange))[s] == multiset(stats)[s]
  {
    if stats != [] {
      ScopeExact(stats[1..], userId, dataType, timeRange);
      assert stats == [stats[0]] + stats[1..];
    }
  }

  /** The filter distributes over concatenation: the rows kept from `a`
      come, in their order, before those kept from `b`. */
  lemma {:induction false} ScopeAppend(a: seq<UserStats>, b: seq<UserStats>, userId: int, dataType: Option<string>, timeRange: Option<string>)
    ensures Scope(a + b, userId, dataType, timeRange) == Scope(a, userId, dataType, timeRange) + Scope(b, userId, dataType, timeRange)
  {
    if a == [] {
      assert a + b == b;
    } else {
      var ab := a + b;
      assert ab[0] == a[0] && ab[1..] == a[1..] + b;
      ScopeAppend(a[1..], b, userId, dataType, timeRange);
      var rest := Scope(a[1..], userId, dataType, timeRange);
      var tail := Scope(b, userId, dataType, timeRange);
      if InScope(a[0], userId, dataType, timeRange) {
        assert Scope(ab, userId, dataType, timeRange) == [a[0]] + (rest + tail);
        assert Scope(a, userId, dataType, timeRange) == [a[0]] + rest;
      } else {
        assert Scope(ab, userId, dataType, timeRange) == rest + tail;
        assert Scope(a, userId, dataType, timeRange) == rest;
      }
    }
  }

  /** The query keeps table order: a row of the table ends up between the
      rows kept before it and the rows kept after it, and only when it is
      in scope. */
  lemma ScopeKeepsOrder(a: seq<UserStats>, x: UserStats, b: seq<UserStats>, userId: int, dataType: Option<string>, timeRange: Option<string>)
    ensures Scope(a + [x] + b, userId, dataType, timeRange) ==
      Scope(a, userId, dataType, timeRange) +
      (if InScope(x, userId, dataType, timeRange) then [x] else []) +
      Scope(b, userId, dataType, timeRange)
  {
    var one := Scope([x], userId, dataType, timeRange);
    assert [x][0] == x && [x][1..] == [];
    assert one == (if InScope(x, userId, dataType, timeRange) then [x] else []);
    ScopeAppend(a, [x], userId, dataType, timeRange);
    ScopeAppend(a + [x], b, userId, dataType, timeRange);
  }

  /** Newest first: `created_at` never increases along the sequence. */
  ghost predicate NewestFirst(s: seq<UserStats>) {
    forall i, j :: 0 <= i < j < |s| ==> s[j].createdAt <= s[i].createdAt
  }

  /** Puts `x` before the first row that is not newer than it. */
  function InsertNewestFirst(x: UserStats, s: seq<UserStats>): (r: seq<UserStats>)
    ensures |r| == |s| + 1
  {
    if s == [] || s[0].createdAt <= x.createdAt then [x] + s
    else [s[0]] + InsertNewestFirst(x, s[1..])
  }

  /** `order_by(UserStats.created_at.desc())`. Rows with equal timestamps
      keep their table order. */
  function SortNewestFirst(s: seq<UserStats>): (r: seq<UserStats>)
    ensures |r| == |s|
  {
    if s == [] then [] else InsertNewestFirst(s[0], SortNewestFirst(s[1..]))
  }

  /** No row of `s` is newer than `t`. */
  ghost predicate NoneNewerThan(s: seq<UserStats>, t: int) {
    forall i :: 0 <= i < |s| ==> s[i].createdAt <= t
  }

  lemma {:induction false} InsertNewestFirstBounded(x: UserStats, s: seq<UserStats>, t: int)
    requires x.createdAt <= t && NoneNewerThan(s, t)
    ensures NoneNewerThan(InsertNewestFirst(x, s), t)
  {
    if s != [] && x.createdAt < s[0].createdAt {
      InsertNewestFirstBounded(x, s[1..], t);
    }
  }

  /** A row no older than everything after it extends a newest-first sequence. */
  lemma NewestFirstCons(h: UserStats, s: seq<UserStats>)
    requires NewestFirst(s) && NoneNewerThan(s, h.createdAt)
    ensures NewestFirst([h] + s)
  {
    var r := [h] + s;
    forall i, j | 0 <= i < j < |r|
      ensures r[j].createdAt <= r[i].createdAt
    {
      assert r[j] == s[j - 1];
      if i > 0 {
        assert r[i] == s[i - 1];
      }
    }
  }

  lemma {:induction false} InsertNewestFirstCorrect(x: UserStats, s: seq<UserStats>)
    requires NewestFirst(s)
    ensures NewestFirst(InsertNewestFirst(x, s))
    ensures multiset(InsertNewestFirst(x, s)) == multiset(s) + multiset{x}
  {
    if s == [] || s[0].createdAt <= x.createdAt {
      assert NoneNewerThan(s, x.createdAt) by {
        forall i | 0 <= i < |s|
          ensures s[i].createdAt <= x.createdAt
        {
          assert s[i].createdAt <= s[0].createdAt;
        }
      }
      NewestFirstCons(x, s);
    } else {
      var tail := s[1..];
      var r := InsertNewestFirst(x, tail);
      assert InsertNewestFirst(x, s) == [s[0]] + r;
      assert NewestFirst(tail) by {
        forall i, j | 0 <= i < j < |tail|
          ensures tail[j].createdAt <= tail[i].createdAt
        {
          assert tail[i] == s[i + 1] && tail[j] == s[j + 1];
        }
      }
      InsertNewestFirstCorrect(x, tail);
      assert NoneNewerThan(tail, s[0].createdAt) by {
        forall i | 0 <= i < |tail|
          ensures tail[i].createdAt <= s[0].createdAt
        {
          assert tail[i] == s[i + 1];
        }
      }
      InsertNewestFirstBounded(x, tail, s[0].createdAt);
      NewestFirstCons(s[0], r);
      assert s == [s[0]] + tail;
      assert multiset([s[0]] + r) == multiset{s[0]} + multiset(r);
    }
  }

  lemma {:induction false} SortNewestFirstCorrect(s: seq<UserStats>)
    ensures NewestFirst(SortNewestFirst(s))
    ensures multiset(SortNewestFirst(s)) == multiset(s)
  {
    if s != [] {
      SortNewestFirstCorrect(s[1..]);
      InsertNewestFirstCorrect(s[0], SortNewestFirst(s[1..]));
      assert s == [s[0]] + s[1..];
    }
  }

  /** The rows `get_saved_stats` returns, in order. */
  function SavedStats(stats: seq<UserStats>, userId: int, dataType: Option<string>, timeRange: Option<string>): (r: seq<UserStats>)
    ensures |r| <= |stats|
  {
    SortNewestFirst(Scope(stats, userId, dataType, timeRange))
  }

  /** The result is exactly the user's rows under the optional filters,
      each as often as in the table, newest first. */
  lemma SavedStatsCorrect(stats: seq<UserStats>, userId: int, dataType: Option<string>, timeRange: Option<string>)
    ensures NewestFirst(SavedStats(stats, userId, dataType, timeRange))
    ensures forall s :: s in SavedStats(stats, userId, dataType, timeRange) <==>
      s in stats && InScope(s, userId, dataType, timeRange)
    ensures forall s :: InScope(s, userId, dataType, timeRange) ==>
      multiset(SavedStats(stats, userId, dataType, timeRange))[s] == multiset(stats)[s]
    ensures forall s :: !InScope(s, userId, dataType, timeRange) ==>
      multiset(SavedStats(stats, userId, dataType, timeRange))[s] == 0
  {
    var scoped := Scope(stats, userId, dataType, timeRange);
    SortNewestFirstCorrect(scoped);
    ScopeExact(stats, userId, dataType, timeRange);
    assert forall s :: s in SavedStats(stats, userId, dataType, timeRange) <==> s in multiset(scoped);
  }

  /** The keys of one entry of the `/stats` response. */
  const StatsEntryKeys: set<string> := {"id", "data_type", "time_range", "data", "created_at"}

  /** One entry of the `/stats` response. */
  function StatsEntry(s: UserStats): (e: map<string, Json>)
    ensures e.Keys == StatsEntryKeys
    ensures e["id"] == JInt(s.id) && e["data"] == s.data && e["created_at"] == JTime(s.createdAt)
    ensures e["data_type"] == JStr(s.dataType) && e["time_range"] == JStr(s.timeRange)
  {
    map["id" := JInt(s.id), "data_type" := JStr(s.dataType), "time_range" := JStr(s.timeRange),
        "data" := s.data, "created_at" := JTime(s.createdAt)]
  }

  /** `get_saved_stats()` (api.py:98-127): the for-loop builds one entry per
      row of the query, in the query's order. */
  method GetSavedStats(app: Backend, typeArg: Option<string>, timeRangeArg: Option<string>) returns (r: Response)
    ensures SessionUser(app.session).None? ==> r == ErrorResponse(401, NotAuthenticated)
    ensures SessionUser(app.session).Some? ==>
      var rows := SavedStats(app.stats, SessionUser(app.session).value, typeArg, timeRangeArg);
      r.JsonResponse? && r.status == 200 && r.body.JArr? && |r.body.items| == |rows| &&
      forall i :: 0 <= i < |rows| ==> r.body.items[i] == JObj(StatsEntry(rows[i]))
  {
    var userId := SessionUser(app.session);
    if userId.None? {
      return ErrorResponse(401, NotAuthenticated);
    }
    var stats := SavedStats(app.stats, userId.value, typeArg, timeRangeArg);
    var result: seq<Json> := [];
    var i := 0;
    while i < |stats|
      invariant 0 <= i <= |stats|
      invariant |result| == i
      invariant forall j :: 0 <= j < i ==> result[j] == JObj(StatsEntry(stats[j]))
    {
      result := result + [JObj(StatsEntry(stats[i]))];
      i := i + 1;
    }
    return JsonResponse(200, JArr(result));
  }
}
