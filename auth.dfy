/** The sign-in endpoints (backend/app/auth.py): the OAuth callback that
    upserts the user and opens the session, logout, token refresh, and the
    current-user lookup. The OAuth token exchange, the profile call and the
    refresh call are inputs: total functions of what the code passes them. */
module Auth {
  import opened Common
  import opened Encryption
  import opened Models
  import opened State

  /** The `token_info` dict of spotipy. `refreshToken` is `None` when the
      key is absent and `Some(v)` when it is present with value `v`. */
  datatype TokenInfo = TokenInfo(accessToken: Text, refreshToken: Option<Text>, expiresIn: int)

  /** `sp.current_user()`: `images` is the list of image urls, `None` when
      the key is absent or null. */
  datatype Profile = Profile(id: string, displayName: Text, email: Text, images: Option<seq<string>>)

  const AuthorizationFailed: string := "/error?message=Authorization%20failed"
  const TokenFailed: string := "/error?message=Failed%20to%20get%20access%20token"
  const DashboardUrl: string := "http://127.0.0.1:3000/dashboard"

  /** `user_profile.get('images') and len(user_profile['images']) > 0` */
  predicate HasImages(p: Profile) {
    p.images.Some? && |p.images.value| > 0
  }

  /** The profile image a sign-in leaves: the first image's url when there
      is one, otherwise `current`. */
  function ProfileImageAfter(p: Profile, current: Text): (r: Text)
    ensures HasImages(p) ==> r == Some(p.images.value[0])
    ensures !HasImages(p) ==> r == current
  {
    if HasImages(p) then Some(p.images.value[0]) else current
  }

  /** `token_info.get('refresh_token', current)`: a refresh token that is
      present is taken even when empty; only an absent one keeps `current`. */
  function RefreshTokenFrom(info: TokenInfo, current: Text): (r: Text)
    ensures info.refreshToken.Some? ==> r == info.refreshToken.value
    ensures info.refreshToken.None? ==> r == current
  {
    if info.refreshToken.Some? then info.refreshToken.value else current
  }

  /** `token_info.get('refresh_token')` */
  function ReturnedRefreshToken(info: TokenInfo): (r: Text)
    ensures r == RefreshTokenFrom(info, None)
    ensures info.refreshToken.None? ==> r.None?
  {
    if info.refreshToken.Some? then info.refreshToken.value else None
  }

  /** The token-info and profile a callback works with, when it gets that far. */
  predicate SignInProceeds(code: Option<string>, exchange: string -> Option<TokenInfo>) {
    Truthy(code) && exchange(code.value).Some?
  }

  /** An existing user's row after a successful callback with cipher `f`. */
  function SignedInRow(row: UserRow, info: TokenInfo, profile: Profile, f: Option<Fernet>, clock: Clock): (r: UserRow)
    ensures DecryptValue(f, r.accessTokenColumn) == info.accessToken
    ensures DecryptValue(f, r.refreshTokenColumn) ==
      (if info.refreshToken.Some? then info.refreshToken.value else DecryptValue(f, row.refreshTokenColumn))
    ensures r.tokenExpiration == Some(clock.local + info.expiresIn)
    ensures r.displayName == profile.displayName && r.email == profile.email
    ensures HasImages(profile) ==> r.profileImage == Some(profile.images.value[0])
    ensures !HasImages(profile) ==> r.profileImage == row.profileImage
    ensures r.id == row.id && r.spotifyId == row.spotifyId
    ensures r.createdAt == row.createdAt && r.updatedAt == row.updatedAt
  {
    RoundTrip(f, info.accessToken);
    RoundTrip(f, RefreshTokenFrom(info, DecryptValue(f, row.refreshTokenColumn)));
    row.(accessTokenColumn := EncryptValue(f, info.accessToken),
         refreshTokenColumn := EncryptValue(f, RefreshTokenFrom(info, DecryptValue(f, row.refreshTokenColumn))),
         tokenExpiration := Some(clock.local + info.expiresIn),
         displayName := profile.displayName,
         email := profile.email,
         profileImage := ProfileImageAfter(profile, row.profileImage))
  }

  /** Whether a callback for an existing user calls `_get_fernet` at all:
      the access token is set, the old refresh token is read (the default
      argument of `get` is evaluated first), and the new one is set. */
  predicate SignInTouchesCipher(row: UserRow, info: TokenInfo, f: Option<Fernet>) {
    Truthy(info.accessToken) || Truthy(row.refreshTokenColumn) ||
    Truthy(RefreshTokenFrom(info, DecryptValue(f, row.refreshTokenColumn)))
  }

  /** The row a callback inserts for a new Spotify account, with the id the
      database assigns. */
  function NewUserRow(id: int, info: TokenInfo, profile: Profile, f: Option<Fernet>, clock: Clock): (r: UserRow)
    ensures r.id == Some(id) && r.spotifyId == profile.id
    ensures DecryptValue(f, r.accessTokenColumn) == info.accessToken
    ensures DecryptValue(f, r.refreshTokenColumn) == ReturnedRefreshToken(info)
    ensures info.refreshToken.None? ==> r.refreshTokenColumn == None
    ensures r.tokenExpiration == Some(clock.local + info.expiresIn)
    ensures r.displayName == profile.displayName && r.email == profile.email
    ensures HasImages(profile) ==> r.profileImage == Some(profile.images.value[0])
    ensures !HasImages(profile) ==> r.profileImage == None
    ensures r.createdAt == Some(clock.utc) && r.updatedAt == Some(clock.utc)
  {
    RoundTrip(f, info.accessToken);
    RoundTrip(f, ReturnedRefreshToken(info));
    UserRow(Some(id), profile.id, profile.displayName, profile.email, ProfileImageAfter(profile, None),
            EncryptValue(f, info.accessToken), EncryptValue(f, ReturnedRefreshToken(info)),
            Some(clock.local + info.expiresIn), Some(clock.utc), Some(clock.utc))
  }

  /** When the provider returns no refresh token, signing in an existing
      account under a cipher stores a legacy plaintext refresh token
      encrypted: the eagerly evaluated getter returns it as it is and the
      setter encrypts it, so the column becomes a token of the cipher that
      reads back as the old plaintext. */
  lemma SignInReencryptsLegacy(row: UserRow, info: TokenInfo, profile: Profile, f: Option<Fernet>, clock: Clock)
    requires f.Some? && info.refreshToken.None?
    requires Truthy(row.refreshTokenColumn) && !IsToken(f.value, row.refreshTokenColumn.value)
    ensures var r := SignedInRow(row, info, profile, f, clock);
      Truthy(r.refreshTokenColumn) && IsToken(f.value, r.refreshTokenColumn.value) &&
      DecryptValue(f, r.refreshTokenColumn) == row.refreshTokenColumn
  {
  }

  /** The existing-user branch of `callback` (auth.py:52-62) on one row. */
  method UpdateSignedInUser(user: User, crypto: KeyCache, env: Text, info: TokenInfo, profile: Profile, clock: Clock)
    requires crypto.Valid()
    modifies user, crypto
    ensures crypto.Valid()
    ensures user.Row() == SignedInRow(old(user.Row()), info, profile, Resolve(old(crypto.fernet), env), clock)
    ensures crypto.fernet ==
      Touched(old(crypto.fernet), env, SignInTouchesCipher(old(user.Row()), info, Resolve(old(crypto.fernet), env)))
  {
    ghost var c0 := crypto.fernet;
    ghost var row := user.Row();
    user.SetAccessToken(crypto, env, info.accessToken);
    ResolveTouched(c0, env, Truthy(info.accessToken));
    var current := user.RefreshToken(crypto, env);
    ResolveTouched(c0, env, Truthy(info.accessToken) || Truthy(row.refreshTokenColumn));
    TouchedTwice(c0, env, Truthy(info.accessToken), Truthy(row.refreshTokenColumn));
    user.SetRefreshToken(crypto, env, RefreshTokenFrom(info, current));
    TouchedTwice(c0, env, Truthy(info.accessToken) || Truthy(row.refreshTokenColumn), Truthy(RefreshTokenFrom(info, current)));
    user.tokenExpiration := Some(clock.local + info.expiresIn);
    user.displayName := profile.displayName;
    user.email := profile.email;
    if HasImages(profile) {
      user.profileImage := Some(profile.images.value[0]);
    }
  }

  /** The existing-user branch of `callback` (auth.py:52-62) on the table. */
  method SignInExisting(app: Backend, k: nat, info: TokenInfo, profile: Profile, env: Text, clock: Clock)
    requires app.Valid() && k < |app.users| && app.users[k].spotifyId == profile.id
    modifies app.users[k], app.crypto
    ensures app.Valid()
    ensures OtherRowsUnchanged(app, k)
    ensures app.users[k].Row() ==
      SignedInRow(old(app.users[k].Row()), info, profile, Resolve(old(app.crypto.fernet), env), clock)
    ensures app.crypto.fernet == Touched(old(app.crypto.fernet), env,
      SignInTouchesCipher(old(app.users[k].Row()), info, Resolve(old(app.crypto.fernet), env)))
  {
    UpdateSignedInUser(app.users[k], app.crypto, env, info, profile, clock);
  }

  /** The new-user branch of `callback` (auth.py:63-78): build the user and
      insert it. */
  method SignInNew(app: Backend, info: TokenInfo, profile: Profile, env: Text, clock: Clock) returns (user: User)
    requires app.Valid() && app.FindBySpotifyId(profile.id).None?
    modifies app, app.crypto
    ensures app.Valid()
    ensures app.users == old(app.users) + [user] && fresh(user)
    ensures OtherRowsUnchanged(app, |old(app.users)|)
    ensures user.Row() == NewUserRow(|app.users|, info, profile, Resolve(old(app.crypto.fernet), env), clock)
    ensures app.crypto.fernet == Touched(old(app.crypto.fernet), env,
      Truthy(info.accessToken) || Truthy(ReturnedRefreshToken(info)))
    ensures app.session == old(app.session) && app.stats == old(app.stats)
  {
    var profileImage: Text := None;
    if HasImages(profile) {
      profileImage := Some(profile.images.value[0]);
    }
    user := new User(app.crypto, env, profile.id, profile.displayName, profile.email, profileImage,
                     info.accessToken, ReturnedRefreshToken(info), Some(clock.local + info.expiresIn));
    app.AddUser(user, clock);
  }

  /** The token info of a callback that gets past both error redirects. */
  function SignInInfo(code: Option<string>, exchange: string -> Option<TokenInfo>): TokenInfo
    requires SignInProceeds(code, exchange)
  {
    exchange(code.value).value
  }

  /** The upsert of `callback` (auth.py:46-80): update the row with the
      profile's `spotify_id` if there is one, else insert a new row; the
      result is the row's id. */
  method Upsert(app: Backend, info: TokenInfo, profile: Profile, env: Text, clock: Clock) returns (userId: Option<int>)
    requires app.Valid()
    modifies app, app.users, app.crypto
    ensures app.Valid()
    ensures app.stats == old(app.stats) && app.session == old(app.session)
    ensures old(app.FindBySpotifyId(profile.id)).Some? ==>
      var k := old(app.FindBySpotifyId(profile.id)).value;
      userId == Some(k + 1) &&
      app.users == old(app.users) && OtherRowsUnchanged(app, k) &&
      app.users[k].Row() ==
        SignedInRow(old(app.users[k].Row()), info, profile, Resolve(old(app.crypto.fernet), env), clock) &&
      app.crypto.fernet == Touched(old(app.crypto.fernet), env,
        SignInTouchesCipher(old(app.users[k].Row()), info, Resolve(old(app.crypto.fernet), env)))
    ensures old(app.FindBySpotifyId(profile.id)).None? ==>
      var n := |old(app.users)|;
      userId == Some(n + 1) &&
      |app.users| == n + 1 && OtherRowsUnchanged(app, n) && fresh(app.users[n]) &&
      app.users[n].Row() == NewUserRow(n + 1, info, profile, Resolve(old(app.crypto.fernet), env), clock) &&
      app.crypto.fernet == Touched(old(app.crypto.fernet), env,
        Truthy(info.accessToken) || Truthy(ReturnedRefreshToken(info)))
  {
    var found := app.FindBySpotifyId(profile.id);
    if found.Some? {
      SignInExisting(app, found.value, info, profile, env, clock);
      userId := app.users[found.value].id;
    } else {
      var user := SignInNew(app, info, profile, env, clock);
      userId := user.id;
    }
  }

  /** `callback()` (auth.py:27-88). */
  method Callback(app: Backend, code: Option<string>, exchange: string -> Option<TokenInfo>,
                  currentUser: Text -> Profile, env: Text, clock: Clock) returns (r: Response)
    requires app.Valid()
    modifies app, app.users, app.crypto
    ensures app.Valid()
    ensures app.stats == old(app.stats)
    // no code, or no token: an error redirect and nothing else
    ensures !Truthy(code) ==> r == Redirect(AuthorizationFailed)
    ensures Truthy(code) && exchange(code.value).None? ==> r == Redirect(TokenFailed)
    ensures !SignInProceeds(code, exchange) ==>
      RowsUnchanged(app) && app.session == old(app.session) && app.crypto.fernet == old(app.crypto.fernet)
    // otherwise: the upsert, then the session
    ensures SignInProceeds(code, exchange) ==> r == Redirect(DashboardUrl)
    ensures SignInProceeds(code, exchange) ==>
      var info := SignInInfo(code, exchange);
      var profile := currentUser(info.accessToken);
      old(app.FindBySpotifyId(profile.id)).Some? ==>
        var k := old(app.FindBySpotifyId(profile.id)).value;
        app.users == old(app.users) && OtherRowsUnchanged(app, k) &&
        app.users[k].Row() ==
          SignedInRow(old(app.users[k].Row()), info, profile, Resolve(old(app.crypto.fernet), env), clock) &&
        app.session == Session(Some(k + 1), Some(true), true) &&
        app.crypto.fernet == Touched(old(app.crypto.fernet), env,
          SignInTouchesCipher(old(app.users[k].Row()), info, Resolve(old(app.crypto.fernet), env)))
    ensures SignInProceeds(code, exchange) ==>
      var info := SignInInfo(code, exchange);
      var profile := currentUser(info.accessToken);
      var n := |old(app.users)|;
      old(app.FindBySpotifyId(profile.id)).None? ==>
        |app.users| == n + 1 && OtherRowsUnchanged(app, n) && fresh(app.users[n]) &&
        app.users[n].Row() == NewUserRow(n + 1, info, profile, Resolve(old(app.crypto.fernet), env), clock) &&
        app.session == Session(Some(n + 1), Some(true), true) &&
        app.crypto.fernet == Touched(old(app.crypto.fernet), env,
          Truthy(info.accessToken) || Truthy(ReturnedRefreshToken(info)))
  {
    if !Truthy(code) {
      return Redirect(AuthorizationFailed);
    }
    var tokenInfo := exchange(code.value);
    if tokenInfo.None? {
      return Redirect(TokenFailed);
    }
    var info := tokenInfo.value;
    var profile := currentUser(info.accessToken);
    var userId := Upsert(app, info, profile, env, clock);
    app.session := Session(userId, Some(true), true);
    return Redirect(DashboardUrl);
  }

  /** `logout()` (auth.py:90-94): only `user_id` leaves the session. */
  method Logout(app: Backend) returns (r: Response)
    requires app.Valid()
    modifies app
    ensures app.Valid()
    ensures r == MessageResponse("Logged out successfully")
    ensures app.session == old(app.session).(userId := None)
    ensures app.session.loggedIn == old(app.session.loggedIn)
    ensures app.users == old(app.users) && app.stats == old(app.stats)
  {
    app.session := app.session.(userId := None);
    return MessageResponse("Logged out successfully");
  }

  /** A user's row after a successful refresh with cipher `f`: new access
      token, new expiry, and a new refresh token only when one is returned. */
  function RefreshedRow(row: UserRow, info: TokenInfo, f: Option<Fernet>, clock: Clock): (r: UserRow)
    ensures DecryptValue(f, r.accessTokenColumn) == info.accessToken
    ensures Truthy(ReturnedRefreshToken(info)) ==> DecryptValue(f, r.refreshTokenColumn) == ReturnedRefreshToken(info)
    ensures !Truthy(ReturnedRefreshToken(info)) ==> r.refreshTokenColumn == row.refreshTokenColumn
    ensures r.tokenExpiration == Some(clock.local + info.expiresIn)
    ensures r == row.(accessTokenColumn := r.accessTokenColumn, refreshTokenColumn := r.refreshTokenColumn,
                      tokenExpiration := r.tokenExpiration)
  {
    RoundTrip(f, info.accessToken);
    RoundTrip(f, ReturnedRefreshToken(info));
    row.(accessTokenColumn := EncryptValue(f, info.accessToken),
         refreshTokenColumn := if Truthy(ReturnedRefreshToken(info))
                               then EncryptValue(f, ReturnedRefreshToken(info))
                               else row.refreshTokenColumn,
         tokenExpiration := Some(clock.local + info.expiresIn))
  }

  /** The token update of `refresh_token` (auth.py:110-116) on one row. */
  method ApplyRefresh(user: User, crypto: KeyCache, env: Text, info: TokenInfo, clock: Clock)
    requires crypto.Valid()
    modifies user, crypto
    ensures crypto.Valid()
    ensures user.Row() == RefreshedRow(old(user.Row()), info, Resolve(old(crypto.fernet), env), clock)
    ensures crypto.fernet ==
      Touched(old(crypto.fernet), env, Truthy(info.accessToken) || Truthy(ReturnedRefreshToken(info)))
  {
    ghost var c0 := crypto.fernet;
    user.SetAccessToken(crypto, env, info.accessToken);
    if Truthy(ReturnedRefreshToken(info)) {
      ResolveTouched(c0, env, Truthy(info.accessToken));
      TouchedTwice(c0, env, Truthy(info.accessToken), true);
      user.SetRefreshToken(crypto, env, ReturnedRefreshToken(info));
    }
    user.tokenExpiration := Some(clock.local + info.expiresIn);
  }

  /** `refresh_token()` (auth.py:96-119). */
  method RefreshToken(app: Backend, refresh: string -> TokenInfo, env: Text, clock: Clock) returns (r: Response)
    requires app.Valid()
    modifies app.users, app.crypto
    ensures app.Valid()
    ensures app.session == old(app.session) && app.stats == old(app.stats)
    ensures SessionUser(app.session).None? ==>
      r == ErrorResponse(401, NotAuthenticated) && RowsUnchanged(app) && app.crypto.fernet == old(app.crypto.fernet)
    ensures SessionUser(app.session).Some? && old(app.Get(SessionUser(app.session).value)).None? ==>
      r == ErrorResponse(400, "Invalid user or missing refresh token") &&
      RowsUnchanged(app) && app.crypto.fernet == old(app.crypto.fernet)
    ensures SessionUser(app.session).Some? && old(app.Get(SessionUser(app.session).value)).Some? ==>
      var k := old(app.Get(SessionUser(app.session).value)).value;
      var f := Resolve(old(app.crypto.fernet), env);
      var current := DecryptValue(f, old(app.users[k].refreshTokenColumn));
      (!Truthy(current) ==>
        r == ErrorResponse(400, "Invalid user or missing refresh token") && RowsUnchanged(app) &&
        app.crypto.fernet == Touched(old(app.crypto.fernet), env, Truthy(old(app.users[k].refreshTokenColumn)))) &&
      (Truthy(current) ==>
        r == MessageResponse("Token refreshed successfully") &&
        app.users == old(app.users) && OtherRowsUnchanged(app, k) &&
        app.users[k].Row() == RefreshedRow(old(app.users[k].Row()), refresh(current.value), f, clock) &&
        app.crypto.fernet == f)
  {
    var userId := SessionUser(app.session);
    if userId.None? {
      return ErrorResponse(401, NotAuthenticated);
    }
    var k := app.Get(userId.value);
    if k.None? {
      return ErrorResponse(400, "Invalid user or missing refresh token");
    }
    var user := app.users[k.value];
    ghost var c0 := app.crypto.fernet;
    var current := user.RefreshToken(app.crypto, env);
    if !Truthy(current) {
      return ErrorResponse(400, "Invalid user or missing refresh token");
    }
    ResolveTouched(c0, env, true);
    var again := user.RefreshToken(app.crypto, env);
    var info := refresh(again.value);
    ApplyRefresh(user, app.crypto, env, info, clock);
    TouchedTwice(c0, env, true, true);
    return MessageResponse("Token refreshed successfully");
  }

  /** `get_current_user()` (auth.py:121-132). */
  method GetCurrentUser(app: Backend) returns (r: Response)
    requires app.Valid()
    ensures SessionUser(app.session).None? ==> r == ErrorResponse(401, NotAuthenticated)
    ensures SessionUser(app.session).Some? && app.Get(SessionUser(app.session).value).None? ==>
      r == ErrorResponse(404, "User not found")
    ensures SessionUser(app.session).Some? && app.Get(SessionUser(app.session).value).Some? ==>
      var u := app.users[app.Get(SessionUser(app.session).value).value];
      u.id == SessionUser(app.session) && r == JsonResponse(200, JObj(u.ToDict()))
  {
    var userId := SessionUser(app.session);
    if userId.None? {
      return ErrorResponse(401, NotAuthenticated);
    }
    var k := app.Get(userId.value);
    if k.None? {
      return ErrorResponse(404, "User not found");
    }
    return JsonResponse(200, JObj(app.users[k.value].ToDict()));
  }
}
