/** The two tables (backend/database/models.py): `User`, whose token columns
    are encrypted by its property setters and decrypted by its getters, and
    `UserStats`, one saved Spotify response. */
module Models {
  import opened Common
  import opened Encryption

  /** A snapshot of every column of a `users` row. `accessTokenColumn` and
      `refreshTokenColumn` are the stored `_access_token` and
      `_refresh_token`, that is, what `encrypt_token` produced. */
  datatype UserRow = UserRow(
    id: Option<int>,
    spotifyId: string,
    displayName: Text,
    email: Text,
    profileImage: Text,
    accessTokenColumn: Text,
    refreshTokenColumn: Text,
    tokenExpiration: Option<int>,
    createdAt: Option<int>,
    updatedAt: Option<int>)

  /** The keys of `User.to_dict()`. */
  const UserDictKeys: set<string> :=
    {"id", "spotify_id", "display_name", "email", "profile_image", "created_at", "updated_at"}

  class User {
    var id: Option<int>
    var spotifyId: string
    var displayName: Text
    var email: Text
    var profileImage: Text
    var accessTokenColumn: Text
    var refreshTokenColumn: Text
    var tokenExpiration: Option<int>
    var createdAt: Option<int>
    var updatedAt: Option<int>

    function Row(): UserRow
      reads this
    {
      UserRow(id, spotifyId, displayName, email, profileImage,
              accessTokenColumn, refreshTokenColumn, tokenExpiration, createdAt, updatedAt)
    }

    /** `User(spotify_id, ...)`: the plain columns take the arguments, the
        token columns take `encrypt_token` of them (the two setters amount to
        exactly that, access first, then refresh). `id`, `created_at` and
        `updated_at` are left to the database. */
    constructor (crypto: KeyCache, env: Text, spotifyId: string, displayName: Text, email: Text,
                 profileImage: Text, accessToken: Text, refreshToken: Text, tokenExpiration: Option<int>)
      requires crypto.Valid()
      modifies crypto
      ensures crypto.Valid()
      ensures Row() == UserRow(None, spotifyId, displayName, email, profileImage,
                               EncryptValue(Resolve(old(crypto.fernet), env), accessToken),
                               EncryptValue(Resolve(old(crypto.fernet), env), refreshToken),
                               tokenExpiration, None, None)
      ensures crypto.fernet == Touched(old(crypto.fernet), env, Truthy(accessToken) || Truthy(refreshToken))
    {
      this.id := None;
      this.spotifyId := spotifyId;
      this.displayName := displayName;
      this.email := email;
      this.profileImage := profileImage;
      ghost var c0 := crypto.fernet;
      var access := crypto.EncryptToken(env, accessToken);
      ResolveTouched(c0, env, Truthy(accessToken));
      TouchedTwice(c0, env, Truthy(accessToken), Truthy(refreshToken));
      var refresh := crypto.EncryptToken(env, refreshToken);
      this.accessTokenColumn := access;
      this.refreshTokenColumn := refresh;
      this.tokenExpiration := tokenExpiration;
      this.createdAt := None;
      this.updatedAt := None;
    }

    /** The `access_token` getter's value when `_get_fernet()` yields `f`. */
    function AccessTokenUnder(f: Option<Fernet>): Text
      reads this
    {
      DecryptValue(f, accessTokenColumn)
    }

    /** The `refresh_token` getter's value when `_get_fernet()` yields `f`. */
    function RefreshTokenUnder(f: Option<Fernet>): Text
      reads this
    {
      DecryptValue(f, refreshTokenColumn)
    }

    /** The `access_token` getter: `decrypt_token(self._access_token)`. */
    method AccessToken(crypto: KeyCache, env: Text) returns (v: Text)
      requires crypto.Valid()
      modifies crypto
      ensures crypto.Valid()
      ensures v == AccessTokenUnder(Resolve(old(crypto.fernet), env))
      ensures crypto.fernet == Touched(old(crypto.fernet), env, Truthy(accessTokenColumn))
    {
      v := crypto.DecryptToken(env, accessTokenColumn);
    }

    /** The `refresh_token` getter: `decrypt_token(self._refresh_token)`. */
    method RefreshToken(crypto: KeyCache, env: Text) returns (v: Text)
      requires crypto.Valid()
      modifies crypto
      ensures crypto.Valid()
      ensures v == RefreshTokenUnder(Resolve(old(crypto.fernet), env))
      ensures crypto.fernet == Touched(old(crypto.fernet), env, Truthy(refreshTokenColumn))
    {
      v := crypto.DecryptToken(env, refreshTokenColumn);
    }

    /** The `access_token` setter. The column changes and nothing else;
        reading back under the same cipher yields `value`. */
    method SetAccessToken(crypto: KeyCache, env: Text, value: Text)
      requires crypto.Valid()
      modifies this, crypto
      ensures crypto.Valid()
      ensures Row() == old(Row()).(accessTokenColumn := EncryptValue(Resolve(old(crypto.fernet), env), value))
      ensures AccessTokenUnder(Resolve(old(crypto.fernet), env)) == value
      ensures refreshTokenColumn == old(refreshTokenColumn)
      ensures crypto.fernet == Touched(old(crypto.fernet), env, Truthy(value))
    {
      var c := crypto.EncryptToken(env, value);
      accessTokenColumn := c;
      RoundTrip(Resolve(old(crypto.fernet), env), value);
    }

    /** The `refresh_token` setter, symmetric to `SetAccessToken`. */
    method SetRefreshToken(crypto: KeyCache, env: Text, value: Text)
      requires crypto.Valid()
      modifies this, crypto
      ensures crypto.Valid()
      ensures Row() == old(Row()).(refreshTokenColumn := EncryptValue(Resolve(old(crypto.fernet), env), value))
      ensures RefreshTokenUnder(Resolve(old(crypto.fernet), env)) == value
      ensures accessTokenColumn == old(accessTokenColumn)
      ensures crypto.fernet == Touched(old(crypto.fernet), env, Truthy(value))
    {
      var c := crypto.EncryptToken(env, value);
      refreshTokenColumn := c;
      RoundTrip(Resolve(old(crypto.fernet), env), value);
    }

    /** `to_dict()`: the public columns only, never a token. */
    function ToDict(): (d: map<string, Json>)
      reads this
      ensures d.Keys == UserDictKeys
      ensures "access_token" !in d && "refresh_token" !in d && "token_expiration" !in d
      ensures d["spotify_id"] == JStr(spotifyId)
      ensures d["id"] == (if id.Some? then JInt(id.value) else JNull)
      ensures d["display_name"] == TextJson(displayName)
      ensures d["email"] == TextJson(email)
      ensures d["profile_image"] == TextJson(profileImage)
      ensures d["created_at"] == TimeJson(createdAt) && d["updated_at"] == TimeJson(updatedAt)
      ensures createdAt.None? <==> d["created_at"] == JNull
      ensures updatedAt.None? <==> d["updated_at"] == JNull
    {
      map[
        "id" := (if id.Some? then JInt(id.value) else JNull),
        "spotify_id" := JStr(spotifyId),
        "display_name" := TextJson(displayName),
        "email" := TextJson(email),
        "profile_image" := TextJson(profileImage),
        "created_at" := TimeJson(createdAt),
        "updated_at" := TimeJson(updatedAt)
      ]
    }
  }

  /** A `user_stats` row: who asked, for which time range and item type, the
      Spotify response saved as JSON, and the `created_at` the database
      filled in on insert. `UserStats(user_id, time_range, data_type, data)`
      sets the middle four; `id` and `createdAt` come from the insert. */
  datatype UserStats = UserStats(
    id: int,
    userId: int,
    timeRange: string,
    dataType: string,
    data: Json,
    createdAt: int)
}
