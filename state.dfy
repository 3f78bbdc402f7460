/** The state the request handlers share: the `users` and `user_stats`
    tables, the client's Flask session, and the encryption module's globals.
    Rows are never deleted in this backend, so the autoincrement id of the
    row at position i is i + 1. */
module State {
  import opened Common
  import opened Encryption
  import opened Models

  /** The session keys the backend uses: `user_id`, `logged_in`, and the
      `permanent` flag. A missing key is `None`. */
  datatype Session = Session(userId: Option<int>, loggedIn: Option<bool>, permanent: bool)

  const EmptySession: Session := Session(None, None, false)

  /** `session.get('user_id')` when it is truthy. */
  function SessionUser(s: Session): (u: Option<int>)
    ensures u.Some? <==> s.userId.Some? && s.userId.value != 0
    ensures u.Some? ==> u == s.userId
  {
    if s.userId.Some? && s.userId.value != 0 then s.userId else None
  }

  class Backend {
    /** The `users` table, in insertion order. */
    var users: seq<User>
    /** The `user_stats` table, in insertion order. */
    var stats: seq<UserStats>
    var session: Session
    /** `_fernet` and `_encryption_available` of the encryption module. */
    const crypto: KeyCache

    ghost predicate Valid()
      reads this, users, crypto
    {
      crypto.Valid() &&
      (forall i :: 0 <= i < |users| ==> users[i].id == Some(i + 1)) &&
      // the UNIQUE constraint on spotify_id
      (forall i, j :: 0 <= i < j < |users| ==> users[i].spotifyId != users[j].spotifyId) &&
      (forall i :: 0 <= i < |stats| ==> stats[i].id == i + 1)
    }

    constructor ()
      ensures Valid() && fresh(crypto)
      ensures users == [] && stats == [] && session == EmptySession
      ensures crypto.fernet == None
    {
      users := [];
      stats := [];
      session := EmptySession;
      crypto := new KeyCache();
    }

    /** `User.query.get(userId)`: the position of the row with that id. */
    function Get(userId: int): (k: Option<nat>)
      reads this, users, crypto
      requires Valid()
      ensures k.Some? ==> k.value < |users| && users[k.value].id == Some(userId)
      ensures k.None? ==> forall i :: 0 <= i < |users| ==> users[i].id != Some(userId)
    {
      if 1 <= userId <= |users| then Some(userId - 1) else None
    }

    /** `User.query.filter_by(spotify_id=spotifyId).first()` */
    function FindBySpotifyId(spotifyId: string): (k: Option<nat>)
      reads this, users
      ensures k.Some? ==> k.value < |users| && users[k.value].spotifyId == spotifyId
      ensures k.Some? ==> forall i :: 0 <= i < k.value ==> users[i].spotifyId != spotifyId
      ensures k.None? ==> forall i :: 0 <= i < |users| ==> users[i].spotifyId != spotifyId
    {
      FirstWithSpotifyId(users, spotifyId, 0)
    }

    /** `db.session.add(u)` and `commit()` for a new user: the row gets the
        next id and the clock's UTC time for both timestamps, and every row
        already in the table stays as it was. */
    method AddUser(u: User, clock: Clock)
      requires Valid()
      requires u.id.None?
      requires FindBySpotifyId(u.spotifyId).None?
      modifies this, u
      ensures Valid()
      ensures users == old(users) + [u]
      ensures u.Row() == old(u.Row()).(id := Some(|users|), createdAt := Some(clock.utc), updatedAt := Some(clock.utc))
      ensures forall i :: 0 <= i < |old(users)| ==> users[i].Row() == old(users[i].Row())
      ensures stats == old(stats) && session == old(session)
    {
      u.id := Some(|users| + 1);
      u.createdAt := Some(clock.utc);
      u.updatedAt := Some(clock.utc);
      users := users + [u];
    }

    /** `db.session.add(UserStats(...))` and `commit()`: exactly one row at
        the end, with the next id and the clock's UTC time. */
    method AddStats(userId: int, timeRange: string, dataType: string, data: Json, clock: Clock)
      requires Valid()
      modifies this
      ensures Valid()
      ensures stats == old(stats) + [UserStats(|old(stats)| + 1, userId, timeRange, dataType, data, clock.utc)]
      ensures users == old(users) && session == old(session)
    {
      stats := stats + [UserStats(|stats| + 1, userId, timeRange, dataType, data, clock.utc)];
    }
  }

  /** No row of the table changed, and no row was added or removed. */
  twostate predicate RowsUnchanged(b: Backend)
    reads b, b.users
  {
    b.users == old(b.users) &&
    forall i :: 0 <= i < |b.users| ==> b.users[i].Row() == old(b.users[i].Row())
  }

  /** Every row that was in the table, except the one at position k, is as it was. */
  twostate predicate OtherRowsUnchanged(b: Backend, k: nat)
    reads b, b.users
  {
    |old(b.users)| <= |b.users| && b.users[..|old(b.users)|] == old(b.users) &&
    forall i :: 0 <= i < |old(b.users)| && i != k ==> b.users[i].Row() == old(b.users[i].Row())
  }

  /** The first position at or after `from` whose row has `spotifyId`. */
  function FirstWithSpotifyId(users: seq<User>, spotifyId: string, from: nat): (k: Option<nat>)
    reads set i | 0 <= i < |users| :: users[i]
    requires from <= |users|
    ensures k.Some? ==> from <= k.value < |users| && users[k.value].spotifyId == spotifyId
    ensures k.Some? ==> forall i :: from <= i < k.value ==> users[i].spotifyId != spotifyId
    ensures k.None? ==> forall i :: from <= i < |users| ==> users[i].spotifyId != spotifyId
    decreases |users| - from
  {
    if from == |users| then None
    else if users[from].spotifyId == spotifyId then Some(from)
    else FirstWithSpotifyId(users, spotifyId, from + 1)
  }
}
