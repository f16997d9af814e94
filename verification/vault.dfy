/** The secret vault (vault/vault.go): a map from names to secrets behind a
    master key. The key derivation is modelled exactly; the terminal
    prompts, the AES-GCM sealing and the vault file are abstracted as the
    outcome of one authentication step and of one save, which the caller
    supplies. */
module Vault {
  import opened Wrappers
  import opened LlmTypes

  newtype byte = b: int | 0 <= b < 256

  /** `deriveKey` produces an AES-256 key. */
  const KeySize: nat := 32

  /** The padding byte, ASCII `'0'`. */
  const Pad: byte := 48

  /** `authCacheDuration`. */
  const AuthCacheDuration: int := Minute

  function Padding(n: nat): (p: seq<byte>)
    ensures |p| == n
    ensures forall i :: 0 <= i < n ==> p[i] == Pad
    decreases n
  {
    if n == 0 then [] else [Pad] + Padding(n - 1)
  }

  /** `deriveKey`: the password truncated or padded with `'0'` to 32 bytes. */
  function DeriveKey(pw: seq<byte>): (key: seq<byte>)
    ensures |key| == KeySize
    ensures forall i :: 0 <= i < KeySize && i < |pw| ==> key[i] == pw[i]
    ensures forall i :: |pw| <= i < KeySize ==> key[i] == Pad
  {
    if |pw| >= KeySize then pw[..KeySize] else pw + Padding(KeySize - |pw|)
  }

  /** Two passwords derive the same key exactly when they agree on the
      first 32 bytes once each is padded with `'0'`. */
  lemma SameKeyIff(p1: seq<byte>, p2: seq<byte>)
    ensures DeriveKey(p1) == DeriveKey(p2) <==>
      forall i :: 0 <= i < KeySize ==> Byte(p1, i) == Byte(p2, i)
  {
    var k1, k2 := DeriveKey(p1), DeriveKey(p2);
    assert forall i :: 0 <= i < KeySize ==> k1[i] == Byte(p1, i) && k2[i] == Byte(p2, i);
    if forall i :: 0 <= i < KeySize ==> Byte(p1, i) == Byte(p2, i) {
      assert k1 == k2;
    }
  }

  /** Byte `i` of a password as the key derivation sees it. */
  function Byte(pw: seq<byte>, i: nat): byte {
    if i < |pw| then pw[i] else Pad
  }

  /** Appending `'0'` bytes to a password of at most 32 bytes, or anything
      at all to one of 32 bytes or more, leaves its key unchanged: such
      passwords are interchangeable. */
  lemma PaddingCollides(pw: seq<byte>, n: nat, tail: seq<byte>)
    ensures |pw| <= KeySize ==> DeriveKey(pw + Padding(n)) == DeriveKey(pw)
    ensures |pw| >= KeySize ==> DeriveKey(pw + tail) == DeriveKey(pw)
  {
    if |pw| <= KeySize {
      SameKeyIff(pw + Padding(n), pw);
      assert forall i :: 0 <= i < KeySize ==> Byte(pw + Padding(n), i) == Byte(pw, i);
    }
    if |pw| >= KeySize {
      SameKeyIff(pw + tail, pw);
      assert forall i :: 0 <= i < KeySize ==> Byte(pw + tail, i) == Byte(pw, i);
    }
  }

  /** A derived key is its own key. */
  lemma DeriveKeyIdempotent(pw: seq<byte>)
    ensures DeriveKey(DeriveKey(pw)) == DeriveKey(pw)
  {
  }

  /** "a" and "a0" unlock the same vault. */
  lemma ShortPasswordsCollide()
    ensures DeriveKey([97]) == DeriveKey([97, Pad])
  {
    PaddingCollides([97], 1, []);
    assert [97 as byte] + Padding(1) == [97, Pad];
  }

  // ---------------------------------------------------------------------------
  // State and authentication
  // ---------------------------------------------------------------------------

  datatype VaultError =
    | KeyNotFound(key: string)  // "key %s not found"
    | PromptError(msg: string)  // a failed stat or terminal read
    | SaveError(msg: string)    // encoding, nonce or file write failure
    | DecryptFailed(msg: string) // "failed to decrypt vault: %w"

  /** The vault. `unlocked` says whether a cipher is set (`cipherGCM !=
      nil`); `authedAt` is the instant of the last successful
      authentication, in nanoseconds. */
  datatype Vault = Vault(data: map<string, string>, masterKey: seq<byte>, authedAt: int, unlocked: bool)

  /** `NewVault`: empty and locked. Go's zero `authedAt` is modelled as 0;
      it never matters, since a locked vault always authenticates. */
  function NewVault(): (v: Vault)
    ensures v.data == map[] && !v.unlocked
  {
    Vault(map[], [], 0, false)
  }

  /** What the terminal and the vault file yield when `promptMaster` does
      authenticate: first-time setup (no vault file) with the password
      entered and the result of saving the vault; unlocking an existing
      file with the password entered and the secrets it decrypts to, or
      the error; or a failed stat or password read. */
  datatype AuthStep =
    | Setup(pw: seq<byte>, saved: Option<VaultError>)
    | Unlock(pw: seq<byte>, loaded: Result<map<string, string>, string>)
    | PromptFailed(err: VaultError)

  /** `promptMaster`'s shortcut: unlocked less than a minute ago. */
  predicate AuthCached(v: Vault, now: int) {
    now - v.authedAt < AuthCacheDuration && v.unlocked
  }

  /** `promptMaster`. A cached authentication skips the step entirely.
      Otherwise: setup installs the derived key and saves the vault,
      counting as authenticated only if the save succeeds; unlocking
      installs the derived key and merges the decrypted secrets into the
      map (`json.Unmarshal` into an existing map adds to it), and locks the
      vault again if decryption fails. */
  function PromptMaster(v: Vault, now: int, step: AuthStep): (r: (Vault, Option<VaultError>))
    ensures AuthCached(v, now) ==> r == (v, None)
    ensures r.1.None? ==> r.0.unlocked && (r.0.authedAt == now || AuthCached(v, now))
    ensures r.1.Some? ==> r.0.data == v.data
    ensures !AuthCached(v, now) && step.Unlock? && step.loaded.Success? ==>
      r == (v.(masterKey := DeriveKey(step.pw), unlocked := true, authedAt := now, data := v.data + step.loaded.value), None)
    ensures !AuthCached(v, now) && step.Unlock? && step.loaded.Failure? ==>
      r.0 == v.(masterKey := DeriveKey(step.pw), unlocked := false) && r.1 == Some(DecryptFailed(step.loaded.error))
    ensures !AuthCached(v, now) && step.Setup? ==>
      r.0.masterKey == DeriveKey(step.pw) && r.0.unlocked && r.0.data == v.data && r.1 == step.saved
    ensures !AuthCached(v, now) && step.PromptFailed? ==> r == (v, Some(step.err))
  {
    if AuthCached(v, now) then (v, None)
    else
      match step
      case PromptFailed(e) => (v, Some(e))
      case Setup(pw, saved) =>
        var v1 := v.(masterKey := DeriveKey(pw), unlocked := true);
        if saved.Some? then (v1, saved) else (v1.(authedAt := now), None)
      case Unlock(pw, loaded) =>
        var v1 := v.(masterKey := DeriveKey(pw), unlocked := true);
        match loaded
        case Failure(msg) => (v1.(unlocked := false), Some(DecryptFailed(msg)))
        case Success(m) => (v1.(data := v.data + m, authedAt := now), None)
  }

  /** A successful authentication is reused for one minute: every call in
      `[now, now + 1 minute)` skips the prompt, whatever step it would have
      taken. */
  lemma AuthCacheWindow(v: Vault, now: int, step: AuthStep, t: int, step': AuthStep)
    requires PromptMaster(v, now, step).1.None?
    requires now <= t < now + AuthCacheDuration
    requires !AuthCached(v, now)
    ensures AuthCached(PromptMaster(v, now, step).0, t)
    ensures PromptMaster(PromptMaster(v, now, step).0, t, step') == (PromptMaster(v, now, step).0, None)
  {
  }

  /** A minute or more after the last authentication, the prompt runs
      again even while unlocked. */
  lemma AuthExpires(v: Vault, t: int, step: AuthStep)
    requires t - v.authedAt >= AuthCacheDuration
    ensures !AuthCached(v, t)
    ensures step.PromptFailed? ==> PromptMaster(v, t, step) == (v, Some(step.err))
  {
  }

  // ---------------------------------------------------------------------------
  // Set, Get, Delete
  // ---------------------------------------------------------------------------

  /** `Set`: authenticate, then write the secret in memory and save;
      `saved` is the save's result. The in-memory write stands even when
      the save fails. */
  function Set(v: Vault, now: int, step: AuthStep, key: string, value: string,
               saved: Option<VaultError>): (r: (Vault, Option<VaultError>))
    ensures var auth := PromptMaster(v, now, step);
      && (auth.1.Some? ==> r == auth)
      && (auth.1.None? ==> r.0 == auth.0.(data := auth.0.data[key := value]) && r.1 == saved)
    ensures PromptMaster(v, now, step).1.Some? ==> r.0.data == v.data
    ensures PromptMaster(v, now, step).1.None? ==>
      && key in r.0.data && r.0.data[key] == value
      && (forall k :: k != key ==> (k in r.0.data <==> k in PromptMaster(v, now, step).0.data))
      && (forall k :: k != key && k in r.0.data ==> r.0.data[k] == PromptMaster(v, now, step).0.data[k])
  {
    var (v1, err) := PromptMaster(v, now, step);
    if err.Some? then (v1, err)
    else (v1.(data := v1.data[key := value]), saved)
  }

  /** `Get`: authenticate, then look the secret up; an absent name is an
      error. */
  function Get(v: Vault, now: int, step: AuthStep, key: string): (r: (Vault, Result<string, VaultError>))
    ensures r.0 == PromptMaster(v, now, step).0
    ensures PromptMaster(v, now, step).1.Some? ==> r.1 == Failure(PromptMaster(v, now, step).1.value)
    ensures PromptMaster(v, now, step).1.None? ==>
      var d := PromptMaster(v, now, step).0.data;
      && (key in d ==> r.1 == Success(d[key]))
      && (key !in d ==> r.1 == Failure(KeyNotFound(key)))
  {
    var (v1, err) := PromptMaster(v, now, step);
    if err.Some? then (v1, Failure(err.value))
    else if key in v1.data then (v1, Success(v1.data[key]))
    else (v1, Failure(KeyNotFound(key)))
  }

  /** `Delete`: authenticate, then remove the secret and save. Removing an
      absent name is not an error. */
  function Delete(v: Vault, now: int, step: AuthStep, key: string, saved: Option<VaultError>): (r: (Vault, Option<VaultError>))
    ensures PromptMaster(v, now, step).1.Some? ==> r == PromptMaster(v, now, step) && r.0.data == v.data
    ensures PromptMaster(v, now, step).1.None? ==>
      && r.1 == saved
      && r.0.data == PromptMaster(v, now, step).0.data - {key}
  {
    var (v1, err) := PromptMaster(v, now, step);
    if err.Some? then (v1, err)
    else (v1.(data := v1.data - {key}), saved)
  }

  /** A secret written is read back within the authentication window,
      even when its save failed, and whatever the next prompt would have
      been; other names read as before. */
  lemma SetThenGet(v: Vault, now: int, step: AuthStep, key: string, value: string, saved: Option<VaultError>,
                   t: int, step': AuthStep, other: string)
    requires PromptMaster(v, now, step).1.None?
    requires AuthCached(Set(v, now, step, key, value, saved).0, t)
    requires other != key
    ensures Get(Set(v, now, step, key, value, saved).0, t, step', key).1 == Success(value)
    ensures Get(Set(v, now, step, key, value, saved).0, t, step', other).1
         == Get(PromptMaster(v, now, step).0, t, step', other).1
  {
  }

  /** A deleted secret is gone within the authentication window, and
      deleting it again succeeds when the save does. */
  lemma DeleteThenGet(v: Vault, now: int, step: AuthStep, key: string, saved: Option<VaultError>,
                      t: int, step': AuthStep)
    requires PromptMaster(v, now, step).1.None?
    requires AuthCached(Delete(v, now, step, key, saved).0, t)
    ensures Get(Delete(v, now, step, key, saved).0, t, step', key).1 == Failure(KeyNotFound(key))
    ensures Delete(Delete(v, now, step, key, saved).0, t, step', key, None).1.None?
    ensures Delete(Delete(v, now, step, key, saved).0, t, step', key, None).0 == Delete(v, now, step, key, saved).0
  {
    var v1 := Delete(v, now, step, key, saved).0;
    assert v1.data - {key} == v1.data;
  }

  /** A failed authentication changes no secret, for every operation. */
  lemma AuthFailureKeepsSecrets(v: Vault, now: int, step: AuthStep, key: string, value: string,
                                saved: Option<VaultError>)
    requires PromptMaster(v, now, step).1.Some?
    ensures Set(v, now, step, key, value, saved).0.data == v.data
    ensures Delete(v, now, step, key, saved).0.data == v.data
    ensures Get(v, now, step, key).1.Failure? && Get(v, now, step, key).0.data == v.data
  {
  }
}
