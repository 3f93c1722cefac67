/** src/features/auth/store.ts: the feature-level key store. The private
    key is sealed with crypto.ts under a password derived from the public
    key and handed to a storage service; unlocking asks the platform to
    verify the user, reads the sealed key back and opens it. The storage
    service and the platform verification are foreign: what each call
    resolves to, or throws, is an input. */
module AuthFeature {
  import opened Common
  import opened StoreCommon
  import Crypto

  const PasswordPrefix: string := "lunch-with-gareth-"
  /** `5 * 60 * 1000`. */
  const FiveMinutes: int := 300000

  /** What the storage service's `getKeys` returns when keys exist. */
  datatype SavedKeys = SavedKeys(encryptedPrivateKey: string, publicKey: string)

  /** What `partialize` hands to the persistence layer. */
  datatype PersistedAuth = PersistedAuth(publicKey: Option<string>, isAuthenticated: bool)

  /** The password both `setKeys` and `authenticate` derive from a public key. */
  function Password(publicKey: string): (pw: string)
    ensures StartsWith(pw, PasswordPrefix)
    ensures |pw| <= |PasswordPrefix| + 8
  {
    PasswordPrefix + Slice(publicKey, 0, 8)
  }

  /** The derived password depends on the first eight characters of the
      public key only: two keys that agree there are sealed under the same
      password. */
  lemma PasswordOfPrefix(a: string, b: string)
    requires |a| >= 8 && |b| >= 8 && a[..8] == b[..8]
    ensures Password(a) == Password(b)
  {
  }

  /** What a successful `authenticate` puts in the store: the private key
      as lowercase hex and the public key; None when it returns false. */
  function Unlocked(verified: Result<bool, Thrown>, keys: Result<Option<SavedKeys>, Thrown>, p: Crypto.Primitives)
    : Option<(string, string)>
  {
    if verified != Success(true) then None
    else match keys
      case Failure(_) => None
      case Success(None) => None
      case Success(Some(saved)) =>
        match Crypto.DecryptPrivateKey(p, saved.encryptedPrivateKey, Password(saved.publicKey))
        case Failure(_) => None
        case Success(privateKey) => Some((Hex(privateKey), saved.publicKey))
  }

  /** Unlocking fails whenever the user is not verified or no keys are stored. */
  lemma UnlockNeedsVerificationAndKeys(verified: Result<bool, Thrown>, keys: Result<Option<SavedKeys>, Thrown>, p: Crypto.Primitives)
    requires Unlocked(verified, keys, p).Some?
    ensures verified == Success(true)
    ensures keys.Success? && keys.value.Some?
    ensures Unlocked(verified, keys, p).value.1 == keys.value.value.publicKey
  {
  }

  /** What `setKeys` sealed is what `authenticate` opens: the saved blob,
      read back, unlocks to the hex of the same private key. */
  lemma SetKeysThenUnlock(p: Crypto.Primitives, privateKey: seq<byte>, publicKey: string, salt: seq<byte>, iv: seq<byte>)
    requires Crypto.Lawful(p)
    requires |salt| == Crypto.SaltLength && |iv| == Crypto.IvLength
    requires privateKey != []
    ensures var blob := p.btoa(salt + iv + Crypto.Ciphertext(p, privateKey, Password(publicKey), salt, iv));
            Unlocked(Success(true), Success(Some(SavedKeys(blob, publicKey))), p) == Some((Hex(privateKey), publicKey))
  {
    Crypto.DecryptEncrypt(p, privateKey, Password(publicKey), salt, iv);
  }

  /** True once the last unlock is more than five minutes old. */
  predicate Expired(lastBiometricAuth: int, now: int)
  {
    now - lastBiometricAuth > FiveMinutes
  }

  /** Exactly five minutes after the last unlock the store is not yet
      expired, one millisecond more and it is; expiry is never undone by
      the clock moving on, and a locked store (timestamp 0) is expired at
      any later clock reading past five minutes. */
  lemma ExpiryWindow(lastBiometricAuth: int, now: int, later: int)
    ensures !Expired(lastBiometricAuth, lastBiometricAuth + 300000)
    ensures Expired(lastBiometricAuth, lastBiometricAuth + 300001)
    ensures Expired(lastBiometricAuth, now) && now <= later ==> Expired(lastBiometricAuth, later)
    ensures now > 300000 ==> Expired(0, now)
  {
  }

  class AuthStore {
    var privateKey: Option<string>
    var publicKey: Option<string>
    var isAuthenticated: bool
    var biometricLocked: bool
    var lastBiometricAuth: int

    /** The initial state: no keys, locked. */
    constructor()
      ensures privateKey == None && publicKey == None
      ensures !isAuthenticated && biometricLocked && lastBiometricAuth == 0
    {
      privateKey := None;
      publicKey := None;
      isAuthenticated := false;
      biometricLocked := true;
      lastBiometricAuth := 0;
    }

    /** The state after a reload: the persisted fields over the initial
        state; the private key is never among them. */
    constructor Rehydrate(saved: PersistedAuth)
      ensures publicKey == saved.publicKey && isAuthenticated == saved.isAuthenticated
      ensures privateKey == None && biometricLocked && lastBiometricAuth == 0
    {
      privateKey := None;
      publicKey := saved.publicKey;
      isAuthenticated := saved.isAuthenticated;
      biometricLocked := true;
      lastBiometricAuth := 0;
    }

    /** `partialize`: the public key and the authenticated flag. */
    function Persisted(): PersistedAuth
      reads this
    {
      PersistedAuth(publicKey, isAuthenticated)
    }

    /** `setKeys`: the key is sealed under the derived password (`salt` and
        `iv` are the random bytes crypto.ts draws) and saved with the public
        key; `saveKeys` gives what the storage service's save resolves to.
        On success the store is unlocked for that public key; a failed save is rethrown and
        nothing changes. */
    method SetKeys(privateKey: seq<byte>, publicKey: string, p: Crypto.Primitives, salt: seq<byte>, iv: seq<byte>,
                   saveKeys: (string, string) -> Result<(), Thrown>, now: int)
      returns (blob: string, r: Result<(), Thrown>)
      requires |salt| == Crypto.SaltLength && |iv| == Crypto.IvLength
      modifies this
      ensures blob == p.btoa(salt + iv + Crypto.Ciphertext(p, privateKey, Password(publicKey), salt, iv))
      ensures r == saveKeys(blob, publicKey)
      ensures r.Success? ==>
        this.publicKey == Some(publicKey) && isAuthenticated && !biometricLocked && lastBiometricAuth == now &&
        this.privateKey == old(this.privateKey)
      ensures r.Failure? ==> unchanged(this)
    {
      var password := Password(publicKey);
      blob := Crypto.EncryptPrivateKey(p, privateKey, password, salt, iv);
      r := saveKeys(blob, publicKey);
      if r.Success? {
        this.publicKey := Some(publicKey);
        isAuthenticated := true;
        biometricLocked := false;
        lastBiometricAuth := now;
      }
    }

    /** `clearKeys`: once the storage service has cleared the keys, every
        field returns to the locked, empty state; a failure is rethrown
        before anything changes. */
    method ClearKeys(cleared: Result<(), Thrown>) returns (r: Result<(), Thrown>)
      modifies this
      ensures r == cleared
      ensures r.Success? ==> privateKey == None && publicKey == None && !isAuthenticated &&
                             biometricLocked && lastBiometricAuth == 0
      ensures r.Failure? ==> unchanged(this)
    {
      r := cleared;
      if r.Success? {
        privateKey := None;
        publicKey := None;
        isAuthenticated := false;
        biometricLocked := true;
        lastBiometricAuth := 0;
      }
    }

    /** `authenticate`: `verified` is what the platform verification
        resolved to and `keys` what the storage service returned. */
    method Authenticate(verified: Result<bool, Thrown>, keys: Result<Option<SavedKeys>, Thrown>, p: Crypto.Primitives, now: int)
      returns (ok: bool)
      modifies this
      ensures ok <==> Unlocked(verified, keys, p).Some?
      ensures ok ==> privateKey == Some(Unlocked(verified, keys, p).value.0) &&
                     publicKey == Some(Unlocked(verified, keys, p).value.1) &&
                     isAuthenticated && !biometricLocked && lastBiometricAuth == now
      ensures !ok ==> unchanged(this)
    {
      if verified.Failure? || !verified.value {
        return false;
      }
      if keys.Failure? || keys.value.None? {
        return false;
      }
      var saved := keys.value.value;
      var password := Password(saved.publicKey);
      var unsealed := Crypto.DecryptPrivateKey(p, saved.encryptedPrivateKey, password);
      if unsealed.Failure? {
        return false;
      }
      privateKey := Some(Hex(unsealed.value));
      publicKey := Some(saved.publicKey);
      isAuthenticated := true;
      biometricLocked := false;
      lastBiometricAuth := now;
      ok := true;
    }

    /** `lock`: the decrypted key is dropped and the store locked; the
        public key, and the authenticated flag, stay. */
    method Lock()
      modifies this
      ensures privateKey == None && biometricLocked && lastBiometricAuth == 0
      ensures publicKey == old(publicKey) && isAuthenticated == old(isAuthenticated)
    {
      privateKey := None;
      biometricLocked := true;
      lastBiometricAuth := 0;
    }

    /** `isExpired` at the clock reading `now`. */
    function IsExpired(now: int): bool
      reads this
    {
      Expired(lastBiometricAuth, now)
    }
  }
}
