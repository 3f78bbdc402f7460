/** Token encryption at rest (backend/database/encryption.py): a lazily
    created, cached Fernet instance and the two wrappers that encrypt
    before a write and decrypt after a read, falling back to the raw value
    when there is no key or the stored value is not a ciphertext. */
module Encryption {
  import opened Common

  // ---------------------------------------------------------------------
  // The cipher. Fernet itself is outside the model; what the backend
  // relies on is an encryption and a decryption under one key such that
  // decryption undoes encryption and rejects everything that is not a
  // token of that key. The definitions below are a concrete witness of
  // exactly that interface.
  // ---------------------------------------------------------------------

  /** A character of the URL-safe base64 alphabet. */
  predicate IsUrlSafeChar(c: char) {
    ('A' <= c <= 'Z') || ('a' <= c <= 'z') || ('0' <= c <= '9') || c == '-' || c == '_'
  }

  /** A key the Fernet constructor accepts: the padded URL-safe base64 form
      of 32 bytes (43 alphabet characters and one '='). */
  predicate IsFernetKey(key: string) {
    |key| == 44 && key[43] == '=' && forall i :: 0 <= i < 43 ==> IsUrlSafeChar(key[i])
  }

  /** A Fernet instance, built from the key it was given. */
  datatype Fernet = Fernet(key: string)

  /** Every Fernet token starts with these six characters: the base64 form
      of the version byte 0x80 followed by the leading zero bytes of the
      64-bit timestamp. */
  const TokenVersion: string := "gAAAAA"

  function Header(f: Fernet): string {
    TokenVersion + f.key
  }

  /** `c` is a token that `f.decrypt` accepts. */
  predicate IsToken(f: Fernet, c: string) {
    |Header(f)| <= |c| && c[..|Header(f)|] == Header(f)
  }

  /** `f.encrypt(p)` */
  function Encrypt(f: Fernet, p: string): (c: string)
    ensures IsToken(f, c)
    ensures |c| > |p|
  {
    Header(f) + p
  }

  /** `f.decrypt(c)`; `None` stands for the `InvalidToken` exception. */
  function Decrypt(f: Fernet, c: string): (r: Option<string>)
    ensures r.Some? <==> IsToken(f, c)
  {
    if IsToken(f, c) then Some(c[|Header(f)|..]) else None
  }

  /** Decryption undoes encryption under the same key. */
  lemma DecryptEncrypt(f: Fernet, p: string)
    ensures Decrypt(f, Encrypt(f, p)) == Some(p)
  {
    assert Encrypt(f, p)[|Header(f)|..] == p;
  }

  // ---------------------------------------------------------------------
  // `_get_fernet`: the lazy key cache (encryption.py:15-38), as a function
  // of the cached instance and the value of TOKEN_ENCRYPTION_KEY.
  // ---------------------------------------------------------------------

  /** What `_get_fernet` returns when `_fernet` is `cached` and the
      environment holds `env` for TOKEN_ENCRYPTION_KEY. */
  function Resolve(cached: Option<Fernet>, env: Text): (f: Option<Fernet>)
    ensures cached.Some? ==> f == cached
    ensures cached.None? && !Truthy(env) ==> f.None?
    ensures cached.None? && Truthy(env) ==> (f.Some? <==> IsFernetKey(env.value))
    ensures cached.None? && f.Some? ==> f.value.key == env.value
  {
    if cached.Some? then cached
    else if !Truthy(env) then None
    else if IsFernetKey(env.value) then Some(Fernet(env.value))
    else None
  }

  /** The cache after a wrapper was called on a value: `_get_fernet` runs
      only when the value is truthy, and its result is what stays cached. */
  function Touched(cached: Option<Fernet>, env: Text, called: bool): (c: Option<Fernet>)
    ensures cached.Some? ==> c == cached
    ensures !called ==> c == cached
  {
    if called then Resolve(cached, env) else cached
  }

  /** Once resolved, a later call under the same environment resolves to the
      same instance: within one request every wrapper sees one cipher. */
  lemma ResolveTouched(cached: Option<Fernet>, env: Text, called: bool)
    ensures Resolve(Touched(cached, env, called), env) == Resolve(cached, env)
  {
  }

  /** Two calls in a row touch the cache as one call would. */
  lemma TouchedTwice(cached: Option<Fernet>, env: Text, a: bool, b: bool)
    ensures Touched(Touched(cached, env, a), env, b) == Touched(cached, env, a || b)
  {
  }

  // ---------------------------------------------------------------------
  // `encrypt_token` and `decrypt_token` (encryption.py:41-67) for a given
  // result `f` of `_get_fernet`.
  // ---------------------------------------------------------------------

  /** `encrypt_token(p)` when `_get_fernet()` yields `f`. */
  function EncryptValue(f: Option<Fernet>, p: Text): (c: Text)
    ensures !Truthy(p) ==> c == p
    ensures f.None? ==> c == p
    ensures f.Some? && Truthy(p) ==> Truthy(c) && IsToken(f.value, c.value)
  {
    if !Truthy(p) then p
    else if f.None? then p
    else Some(Encrypt(f.value, p.value))
  }

  /** `decrypt_token(c)` when `_get_fernet()` yields `f`. */
  function DecryptValue(f: Option<Fernet>, c: Text): (p: Text)
    ensures !Truthy(c) ==> p == c
    ensures f.None? ==> p == c
    ensures f.Some? && Truthy(c) && !IsToken(f.value, c.value) ==> p == c
    ensures f.Some? && Truthy(c) && IsToken(f.value, c.value) ==> Some(Decrypt(f.value, c.value).value) == p
  {
    if !Truthy(c) then c
    else if f.None? then c
    else match Decrypt(f.value, c.value)
      case Some(plain) => Some(plain)
      case None => c
  }

  /** The round trip holds for every value and every cipher state,
      including no cipher at all. */
  lemma RoundTrip(f: Option<Fernet>, p: Text)
    ensures DecryptValue(f, EncryptValue(f, p)) == p
  {
    if Truthy(p) && f.Some? {
      DecryptEncrypt(f.value, p.value);
    }
  }

  /** The three key configurations of a fresh process, as seen by a first
      call: key absent or empty, key invalid, key valid. In the first two both
      wrappers are the identity; in the third a truthy value is stored as a
      token and the round trip still holds. */
  lemma KeyConfigurations(env: Text, p: Text)
    ensures !Truthy(env) ==>
      EncryptValue(Resolve(None, env), p) == p && DecryptValue(Resolve(None, env), p) == p
    ensures Truthy(env) && !IsFernetKey(env.value) ==>
      EncryptValue(Resolve(None, env), p) == p && DecryptValue(Resolve(None, env), p) == p
    ensures Truthy(env) && IsFernetKey(env.value) && Truthy(p) ==>
      EncryptValue(Resolve(None, env), p) == Some(Encrypt(Fernet(env.value), p.value))
    ensures DecryptValue(Resolve(None, env), EncryptValue(Resolve(None, env), p)) == p
  {
    RoundTrip(Resolve(None, env), p);
  }

  // ---------------------------------------------------------------------
  // The module globals `_fernet` and `_encryption_available` and the three
  // functions that use them.
  // ---------------------------------------------------------------------

  class KeyCache {
    /** `_fernet` */
    var fernet: Option<Fernet>
    /** `_encryption_available` */
    var encryptionAvailable: bool

    ghost predicate Valid()
      reads this
    {
      encryptionAvailable <==> fernet.Some?
    }

    /** The globals at import time. */
    constructor ()
      ensures Valid() && fernet == None && !encryptionAvailable
    {
      fernet := None;
      encryptionAvailable := false;
    }

    /** `_get_fernet()` with `env` the current TOKEN_ENCRYPTION_KEY. A cached
        instance is returned without looking at `env`; a missing, empty or
        invalid key leaves nothing cached, so the next call reads it again. */
    method GetFernet(env: Text) returns (f: Option<Fernet>)
      requires Valid()
      modifies this
      ensures Valid()
      ensures f == Resolve(old(fernet), env)
      ensures old(fernet).Some? ==> f == old(fernet)
      ensures fernet == f
    {
      if fernet.Some? {
        return fernet;
      }
      if !Truthy(env) {
        encryptionAvailable := false;
        return None;
      }
      if IsFernetKey(env.value) {
        fernet := Some(Fernet(env.value));
        encryptionAvailable := true;
      } else {
        encryptionAvailable := false;
        return None;
      }
      return fernet;
    }

    /** `encrypt_token(plaintext)` */
    method EncryptToken(env: Text, plaintext: Text) returns (c: Text)
      requires Valid()
      modifies this
      ensures Valid()
      ensures c == EncryptValue(Resolve(old(fernet), env), plaintext)
      ensures fernet == Touched(old(fernet), env, Truthy(plaintext))
    {
      if !Truthy(plaintext) {
        return plaintext;
      }
      var f := GetFernet(env);
      if f.None? {
        return plaintext;
      }
      return Some(Encrypt(f.value, plaintext.value));
    }

    /** `decrypt_token(ciphertext)` */
    method DecryptToken(env: Text, ciphertext: Text) returns (p: Text)
      requires Valid()
      modifies this
      ensures Valid()
      ensures p == DecryptValue(Resolve(old(fernet), env), ciphertext)
      ensures fernet == Touched(old(fernet), env, Truthy(ciphertext))
    {
      if !Truthy(ciphertext) {
        return ciphertext;
      }
      var f := GetFernet(env);
      if f.None? {
        return ciphertext;
      }
      var d := Decrypt(f.value, ciphertext.value);
      if d.Some? {
        return Some(d.value);
      }
      return ciphertext;
    }
  }
}
