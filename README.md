# Statify backend: token storage and session gating

This project models the Flask backend of Statify, a web app that shows a user's Spotify
statistics. The model covers how the backend stores OAuth tokens and decides which requests
it serves. It is one stateful system with four parts:

- **The users table** (`Models.User`, held by `State.Backend.users`). One row per Spotify
  account, with a unique `spotify_id`. Its token columns are encrypted by the property setters
  and decrypted by the getters.
- **The session** (`State.Session`). It holds `user_id`, `logged_in` and the `permanent` flag.
- **The stats log** (`State.Backend.stats`). An append-only sequence of `Models.UserStats`
  rows, each one a saved Spotify response.
- **The encryption wrapper** (`Encryption`). A lazily built, cached Fernet instance
  (`Encryption.KeyCache`, the module globals `_fernet` and `_encryption_available`), plus
  `encrypt_token` and `decrypt_token` with their fallbacks. Empty values pass through. Without
  a usable key both wrappers are the identity. A stored value that is not a ciphertext (legacy
  plaintext) is returned as it is.

The endpoints are methods over a `State.Backend`:

- `Auth.Callback`, `Auth.Logout`, `Auth.RefreshToken` and `Auth.GetCurrentUser`;
- `Api.GetProfile`, `Api.GetTopItems`, `Api.GetRecentlyPlayed` and `Api.GetSavedStats`.

Each method's postcondition ties the new state and the response to the old state. It uses pure
row functions (`Auth.SignedInRow`, `Auth.NewUserRow`, `Auth.RefreshedRow`) for the row updates
and the pure query `Api.SavedStats` for the stats read. Those functions' contracts and the
lemmas beside them state the rules that matter:

- a refresh token is kept when the provider omits one;
- the profile image changes only when images are present;
- expiry is "now + expires_in";
- the item type is checked before authentication;
- saved stats are the user's own rows under the optional filters, sorted newest first.

External pieces are inputs:

- The value of `TOKEN_ENCRYPTION_KEY` is a parameter of each request (`env`). So the model can
  state that a cached cipher is used without reading the variable again.
- `datetime.now()` and `datetime.utcnow()` are the two integer clocks of `Common.Clock`.
- The OAuth exchange, the profile call, the refresh call and the Spotify Web API calls are
  function-valued parameters. The model applies them to exactly the arguments the code passes.
- Fernet is represented by a concrete stand-in. A token is
  `"gAAAAA"` followed by the key and the plaintext (`Encryption.Encrypt`). What the rest of the
  model uses is only the round trip (`Encryption.DecryptEncrypt`) and the predicate "is a valid
  token of this key" (`Encryption.IsToken`).

Within one request the environment value is fixed. Every wrapper call in the request then sees
the same cipher, `Resolve(cached, env)` (`Encryption.ResolveTouched`). The postconditions are
stated in terms of that cipher.

## Model

| member | source | states |
|---|---|---|
| `Encryption.Encrypt` | backend/database/encryption.py:50 | A Fernet encryption yields a valid token of that key, longer than the plaintext |
| `Encryption.Decrypt` | backend/database/encryption.py:62-64 | Decryption succeeds exactly on valid tokens of the key and otherwise raises InvalidToken (None) |
| `Encryption.IsFernetKey` | backend/database/encryption.py:30-36 | `Fernet(key)` accepts exactly a 44-character key: 43 characters of the URL-safe base64 alphabet and a final '=', the encoding of 32 bytes. Any other key takes the invalid-key path. A predicate with no contract of its own; `Encryption.Resolve` states its use |
| `Encryption.DecryptEncrypt` | backend/database/encryption.py:50-63 | Decrypting an encryption under the same key gives back the plaintext |
| `Encryption.Resolve` | backend/database/encryption.py:15-38 | A cached instance is returned whatever the environment holds. Otherwise: no cipher for an absent or empty key, a cipher exactly when the key is valid, and that cipher is built from the key |
| `Encryption.Touched` | backend/database/encryption.py:18-38 | The cache changes only when `_get_fernet` is called, and a cached instance is never replaced |
| `Encryption.ResolveTouched` | backend/database/encryption.py:18-19 | After any call, a later call under the same key value resolves to the same instance |
| `Encryption.TouchedTwice` | backend/database/encryption.py:18-38 | Two calls in a row leave the cache as one call would |
| `Encryption.EncryptValue` | backend/database/encryption.py:41-50 | `encrypt_token` returns an empty or absent value unchanged, is the identity without a cipher, and otherwise stores a valid token |
| `Encryption.DecryptValue` | backend/database/encryption.py:53-67 | `decrypt_token` returns an empty or absent value unchanged, is the identity without a cipher, returns a non-token (legacy plaintext) unchanged, and decrypts a token |
| `Encryption.RoundTrip` | backend/database/encryption.py:41-67 | `decrypt_token(encrypt_token(p)) == p` for every value and every cipher state, no cipher included |
| `Encryption.KeyConfigurations` | backend/database/encryption.py:21-36 | For a first call: with the key absent or invalid both wrappers are the identity; with a valid key a truthy value is stored encrypted; the round trip holds in all three cases |
| `Encryption.KeyCache.constructor` | backend/database/encryption.py:11-12 | At import time there is no cached instance and encryption is unavailable |
| `Encryption.KeyCache.GetFernet` | backend/database/encryption.py:15-38 | `_get_fernet` returns the cached instance unchanged when there is one, and caches a newly built one. A missing or invalid key caches nothing. `_encryption_available` is true exactly when an instance is cached |
| `Encryption.KeyCache.EncryptToken` | backend/database/encryption.py:41-50 | The result is `EncryptValue` under the resolved cipher. The cache is touched only for a truthy value |
| `Encryption.KeyCache.DecryptToken` | backend/database/encryption.py:53-67 | The result is `DecryptValue` under the resolved cipher. The cache is touched only for a truthy value |
| `Models.User.constructor` | backend/database/models.py:38-46 | Plain columns equal the arguments. Token columns hold `encrypt_token` of the arguments, not the raw values. `id` and the timestamps are unset until insert |
| `Models.User.AccessToken` | backend/database/models.py:22-24 | The getter returns `decrypt_token` of the stored column |
| `Models.User.RefreshToken` | backend/database/models.py:30-32 | The getter returns `decrypt_token` of the stored column |
| `Models.User.SetAccessToken` | backend/database/models.py:26-28 | Only the access column changes, to `encrypt_token(v)`. Reading it back yields `v`. The refresh column is untouched |
| `Models.User.SetRefreshToken` | backend/database/models.py:34-36 | Only the refresh column changes, to `encrypt_token(v)`. Reading it back yields `v`. The access column is untouched |
| `Models.User.ToDict` | backend/database/models.py:51-60 | Exactly the keys id, spotify_id, display_name, email, profile_image, created_at and updated_at; no token; an absent timestamp maps to null |
| `State.SessionUser` | backend/app/auth.py:99-100 | The session user is `user_id` when that is present and truthy |
| `State.Backend.constructor` | backend/database/encryption.py:11-12 | A fresh install with a new client starts with empty tables, an empty session and the import-time globals of encryption.py: no cached cipher, encryption unavailable. The database file and the session cookie outlive a process, so every endpoint is specified for any state that meets `Backend.Valid()`, which covers a carried-over database and session |
| `State.Backend.Get` | backend/app/auth.py:103 | `User.query.get` finds the row whose id is the given id, or reports that there is none |
| `State.Backend.FindBySpotifyId` | backend/app/auth.py:47 | `filter_by(spotify_id=...).first()` finds the first row with that `spotify_id`, or reports that there is none |
| `State.FirstWithSpotifyId` | backend/app/auth.py:47 | The scan behind `.first()`: a position it returns holds the `spotify_id` and no earlier position from the start does. `None` means no position from the start holds it |
| `State.Backend.AddUser` | backend/database/models.py:11-20 | Inserting a user whose `spotify_id` is new keeps the table's invariant (at most one row per `spotify_id`, ids by position). The row gets the next id and both timestamps; earlier rows are unchanged |
| `State.Backend.AddStats` | backend/database/models.py:63-80 | Saving a stats row appends exactly one row with the given user, time range, type and data, the next id and the insert time; earlier rows are unchanged |
| `Auth.HasImages` | backend/app/auth.py:61-66 | The test `user_profile.get('images') and len(...) > 0`: the key is present, not null and the list is non-empty. A predicate with no contract of its own; `Auth.ProfileImageAfter` states its use |
| `Auth.ProfileImageAfter` | backend/app/auth.py:61-62 | The profile image becomes the first image url when images are present and is otherwise unchanged |
| `Auth.RefreshTokenFrom` | backend/app/auth.py:55 | A refresh token present in `token_info` is taken (even an empty one); only an absent one keeps the current value |
| `Auth.ReturnedRefreshToken` | backend/app/auth.py:75 | `token_info.get('refresh_token')` (also at line 112) is `get` with default `None`: absent gives none, present gives the value as it is |
| `Auth.SignedInRow` | backend/app/auth.py:50-62 | For an existing user: the access token reads back as the new one; the refresh token reads back as the returned one, or as the old one when none is returned; expiry is now + expires_in; name and email are the profile's; the image changes only with images; the id, `spotify_id` and timestamps are kept |
| `Auth.NewUserRow` | backend/app/auth.py:63-78 | For a new account: the id is the one assigned and `spotify_id` is the profile's; the tokens read back as those returned, with the refresh token none when absent; the image is the first url or none; expiry is now + expires_in |
| `Auth.SignInReencryptsLegacy` | backend/app/auth.py:55 | With a cipher and no returned refresh token, a legacy plaintext refresh token is stored encrypted after sign-in: the column becomes a token of the cipher that reads back as the old plaintext |
| `Auth.UpdateSignedInUser` | backend/app/auth.py:52-62 | The existing-user branch applied to one user object yields `SignedInRow`; the old refresh token is read before the new one is set |
| `Auth.SignInExisting` | backend/app/auth.py:52-62 | The existing-user branch changes that row only |
| `Auth.SignInNew` | backend/app/auth.py:63-78 | The new-user branch appends exactly one fresh row, `NewUserRow`, and keeps the table's invariant |
| `Auth.Upsert` | backend/app/auth.py:46-80 | Finds the row by `spotify_id`; an existing row is updated in place under its own id, otherwise one fresh row is appended with id = old table length + 1; the id returned is that row's, and stats and session are untouched |
| `Auth.Callback` | backend/app/auth.py:27-88 | No code, or no token info: an error redirect, and the table, the session and the cache are unchanged. Otherwise the user is updated or added as above, at most one row per `spotify_id` still holds, and the session gets `user_id` = that row's id, `logged_in` = true and `permanent` |
| `Auth.Logout` | backend/app/auth.py:90-94 | Only `user_id` leaves the session; `logged_in` and both tables are untouched |
| `Auth.RefreshedRow` | backend/app/auth.py:110-116 | The access token reads back as the new one; expiry is now + expires_in; the refresh column changes only when a truthy refresh token is returned; nothing else changes |
| `Auth.ApplyRefresh` | backend/app/auth.py:110-116 | The token update applied to one user object yields `RefreshedRow` |
| `Auth.RefreshToken` | backend/app/auth.py:96-119 | 401 with no session user; 400 when the user is missing or its refresh token is falsy. In those cases the rows are unchanged. Otherwise the refresh call gets the decrypted refresh token and only that row changes, to `RefreshedRow` |
| `Auth.GetCurrentUser` | backend/app/auth.py:121-132 | 401 with no session user, 404 for an unknown id, and otherwise 200 with that user's `to_dict` |
| `Api.IsTopItemType` | backend/app/api.py:41 | The item types served are exactly artists and tracks. A predicate with no contract of its own; `Api.GetTopItems` states the 400 for every other type |
| `Api.TimeRangeArg` | backend/app/api.py:49 | `time_range` defaults to medium_term and otherwise is the given argument |
| `Api.LimitArg` | backend/app/api.py:50 | `limit` defaults to 20 and otherwise is the given argument |
| `Api.ClientFor` | backend/app/api.py:7-13 | No client for an unknown user or a falsy decrypted access token; otherwise a client authenticated with that token |
| `Api.GetSpotifyClient` | backend/app/api.py:7-13 | `get_spotify_client` returns `ClientFor` under the resolved cipher and touches the cache only when the stored token is truthy |
| `Api.GetProfile` | backend/app/api.py:16-31 | 401 with no session user; 500 with no client; otherwise the profile call's result, or 500 with its error |
| `Api.GetTopItems` | backend/app/api.py:34-75 | An item type other than artists/tracks gives 400, before the session is looked at. Then 401 without a session and 500 without a client or on an API error; in those cases the stats log is unchanged. On success the API is called with the defaults applied and exactly one stats row is appended, with the session user's id, the time range, `data_type` = item type and the items |
| `Api.GetRecentlyPlayed` | backend/app/api.py:78-95 | The same gating as the profile endpoint, with the limit default; the stats log, the table and the session are never written |
| `Api.Scope` | backend/app/api.py:108-113 | The `filter_by` chain returns no more rows than the table holds, and every row it returns is in scope. Completeness and multiplicity are `Api.ScopeExact`; table order is `Api.ScopeKeepsOrder` |
| `Api.ScopeAppend` | backend/app/api.py:108-113 | Filtering a concatenation gives the rows kept from the first part, in order, followed by those kept from the second |
| `Api.ScopeKeepsOrder` | backend/app/api.py:108-113 | The query keeps table order: each row of the table appears in the result exactly where it stood relative to the other kept rows, and only when it is in scope |
| `Api.ScopeExact` | backend/app/api.py:108-113 | The filtered query holds exactly the rows of the user, narrowed by type and time range only when these are given, each as often as in the table |
| `Api.InsertNewestFirst` | backend/app/api.py:115 | One step of the newest-first ordering. The result is one row longer than its input. Order and contents are `Api.InsertNewestFirstCorrect` |
| `Api.InsertNewestFirstCorrect` | backend/app/api.py:115 | Inserting into a newest-first sequence keeps it newest first and adds exactly that row |
| `Api.SortNewestFirst` | backend/app/api.py:115 | `order_by(created_at.desc())`. The length is preserved. Being a newest-first permutation is `Api.SortNewestFirstCorrect` |
| `Api.SortNewestFirstCorrect` | backend/app/api.py:115 | `order_by(created_at.desc())` yields a permutation of its input, newest first |
| `Api.SavedStats` | backend/app/api.py:108-115 | The whole saved-stats query: the scoped rows, newest first. There are never more of them than the table holds. Its full specification is `Api.SavedStatsCorrect` |
| `Api.SavedStatsCorrect` | backend/app/api.py:108-115 | The saved-stats query returns exactly the in-scope rows of the user (all of them, each as often as stored, nothing else), newest first |
| `Api.StatsEntry` | backend/app/api.py:119-125 | Each entry has exactly the keys id, data_type, time_range, data and created_at, taken from its row |
| `Api.GetSavedStats` | backend/app/api.py:98-127 | 401 with no session user; otherwise 200 with one entry per row of the query, in the query's order |

## Left out

- Encryption.Encrypt: Fernet's random IV and timestamp are not modelled, so the stand-in is
  deterministic. The exact ciphertexts that appear in the row equalities, through
  `EncryptValue` in `Auth.SignedInRow`, `Auth.NewUserRow`, `Auth.RefreshedRow` and the
  postconditions of `Auth.Upsert`, `Auth.Callback` and `Auth.RefreshToken` built on them,
  come from this stand-in. One example is a refresh column that stays identical when a user
  signs in again and no refresh token is returned; the program instead encrypts the
  decrypted token again and gets a fresh ciphertext. Only the read-back facts
  (`DecryptValue` of a column) and the `IsToken` facts describe the program.
- Encryption.IsFernetKey: accepts the padded 44-character URL-safe base64 form of a 32-byte
  key. Python's lenient base64 decoding also accepts some other spellings of the same bytes.
- The Fernet cryptography itself (AES, HMAC, base64). The stand-in keeps only the interface.
- Api.SortNewestFirstCorrect: SQL leaves the order of rows with equal `created_at`
  unspecified; the model fixes one admissible order. The query keeps table order
  (`Api.ScopeKeepsOrder`), and the insertion sort places a row before the first one not
  newer than it, so ties stay in table order. That stability follows from the definition
  of `Api.InsertNewestFirst`; no lemma states it, and no contract depends on it.
- `updated_at`'s `onupdate` refresh is not modelled. The insert-time defaults of `created_at`
  and `updated_at` are modelled as the request's UTC clock.
- Exceptions raised by the OAuth exchange, the profile call and the refresh call in auth.py,
  and `KeyError`s for a missing `access_token`, `expires_in` or profile `id`, are not handled
  by the code. Flask turns them into a 500. The model treats those calls as total.
- An exception raised by the database commit in `get_top_items` is not modelled. Only the
  Spotify call's error is.
- Auth.Callback: an empty `token_info` dict, which is falsy like `None`, is represented only by
  `None`.
- `login` and `get_spotify_oauth` (backend/app/auth.py:11-25) only build the authorization URL
  from configuration.
- `__repr__`, the `stats` relationship backref, logging, and SQLAlchemy's session and commit
  mechanics.
- Column lengths (`String(64)`, `String(16)`) are not enforced. Dates are integer seconds, and
  `isoformat()` is `Common.JTime`.
- `request.args.get(..., type=int)` parsing is an input: an absent or unconvertible `limit` is
  `None`.
- The Flask session is modelled for one client; cookies, lifetime and concurrency are left out.
- The frontend, the app factory, CORS and configuration (backend/app/__init__.py,
  backend/config/config.py, backend/run.py) are left out. So are the genre and album views,
  which have no backend route in backend/app/api.py.
