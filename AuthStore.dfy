/** src/store/auth.ts: the signed-in user, the password-sealed keys kept on
    the device, and when the user last proved their presence. Key decoding
    (NostrClient.decodeKey), the device-password cipher
    (CryptoManager.encryptData/decryptData) and the biometric prompt are
    foreign and arrive as inputs; the clock is the `now` parameter. */
module AuthStore {
  import opened Common
  import opened Models
  import opened StoreCommon
  import BillSplit
  import Relays
  import Contacts

  /** Five minutes, in milliseconds. */
  const BiometricTimeout: int := 300000

  /** What decodeKey reports for an nsec or hex key. */
  datatype DecodedKey = DecodedKey(privateKey: Option<seq<byte>>, publicKey: string)

  /** The foreign collaborators; a Failure carries the message of what
      they throw. */
  datatype KeyServices = KeyServices(
    decodeKey: string -> Result<DecodedKey, string>,
    encryptData: (string, string) -> Result<string, string>,
    decryptData: (string, string) -> Result<string, string>)

  /** The fields a `Partial<NostrProfile>` carries; None is an absent key. */
  datatype ProfilePatch = ProfilePatch(
    pubkey: Option<string>,
    name: Option<string>,
    displayName: Option<string>,
    picture: Option<string>,
    nip05: Option<string>,
    about: Option<string>)

  /** What `partialize` hands to the persistence layer. */
  datatype PersistedAuth = PersistedAuth(currentUser: Option<NostrProfile>, storedKeys: seq<StoredKey>)

  // ---------------------------------------------------------------- key list

  /** `keys.filter(k => k.pubkey !== pubkey)`. */
  function WithoutKey(keys: seq<StoredKey>, pubkey: string): seq<StoredKey>
  {
    Filter(keys, (k: StoredKey) => k.pubkey != pubkey)
  }

  /** `keys.find(k => k.pubkey === pubkey)`: the first key of that pubkey. */
  function FindKey(keys: seq<StoredKey>, pubkey: string): (r: Option<StoredKey>)
    ensures r.Some? ==> r.value in keys && r.value.pubkey == pubkey
    ensures r.Some? ==> exists i :: 0 <= i < |keys| && keys[i] == r.value &&
                                    forall j :: 0 <= j < i ==> keys[j].pubkey != pubkey
    ensures r.None? <==> forall k :: k in keys ==> k.pubkey != pubkey
  {
    if keys == [] then None
    else if keys[0].pubkey == pubkey then Some(keys[0])
    else
      var r := FindKey(keys[1..], pubkey);
      if r.Some? then
        ghost var i :| 0 <= i < |keys[1..]| && keys[1..][i] == r.value &&
                       forall j :: 0 <= j < i ==> keys[1..][j].pubkey != pubkey;
        assert keys[i + 1] == r.value;
        r
      else r
  }

  /** The key list after importing `key`: every older key of the same
      pubkey dropped, the new one appended. */
  function ImportedKeys(keys: seq<StoredKey>, key: StoredKey): seq<StoredKey>
  {
    WithoutKey(keys, key.pubkey) + [key]
  }

  /** No pubkey has two stored keys. */
  predicate OneKeyPerPubkey(keys: seq<StoredKey>)
  {
    forall i, j :: 0 <= i < j < |keys| ==> keys[i].pubkey != keys[j].pubkey
  }

  /** Removing a pubkey's keys does not change which key is found for another. */
  lemma {:induction false} FindKeyWithout(keys: seq<StoredKey>, removed: string, pubkey: string)
    requires removed != pubkey
    ensures FindKey(WithoutKey(keys, removed), pubkey) == FindKey(keys, pubkey)
  {
    if keys != [] {
      var keep := (k: StoredKey) => k.pubkey != removed;
      assert keys == [keys[0]] + keys[1..];
      FilterAppend([keys[0]], keys[1..], keep);
      FindKeyWithout(keys[1..], removed, pubkey);
      if keys[0].pubkey == removed {
        assert WithoutKey(keys, removed) == WithoutKey(keys[1..], removed);
      } else {
        var w := WithoutKey(keys, removed);
        assert w == [keys[0]] + WithoutKey(keys[1..], removed);
        assert w[1..] == WithoutKey(keys[1..], removed);
      }
    }
  }

  /** After an import the new key is the last, the only one of its pubkey,
      and the one found for it; the key found for any other pubkey is the
      one found before; and a list with one key per pubkey keeps that shape. */
  lemma ImportedKeysShape(keys: seq<StoredKey>, key: StoredKey)
    ensures var r := ImportedKeys(keys, key);
            r[|r| - 1] == key &&
            (forall i :: 0 <= i < |r| - 1 ==> r[i].pubkey != key.pubkey) &&
            FindKey(r, key.pubkey) == Some(key) &&
            (forall p :: p != key.pubkey ==> FindKey(r, p) == FindKey(keys, p)) &&
            (OneKeyPerPubkey(keys) ==> OneKeyPerPubkey(r))
  {
    var w := WithoutKey(keys, key.pubkey);
    var r := ImportedKeys(keys, key);
    assert forall i :: 0 <= i < |w| ==> w[i] in w;
    assert r[..|w|] == w;
    forall p | p != key.pubkey
      ensures FindKey(r, p) == FindKey(keys, p)
    {
      FindKeyAppend(w, [key], p);
      FindKeyWithout(keys, key.pubkey, p);
    }
    FindKeyAppend(w, [key], key.pubkey);
    if OneKeyPerPubkey(keys) {
      WithoutKeyUnique(keys, key.pubkey);
    }
  }

  /** Looking past a prefix that has no key of the pubkey. */
  lemma {:induction false} FindKeyAppend(a: seq<StoredKey>, b: seq<StoredKey>, pubkey: string)
    ensures FindKey(a + b, pubkey) == if FindKey(a, pubkey).Some? then FindKey(a, pubkey) else FindKey(b, pubkey)
  {
    if a == [] {
      assert a + b == b;
    } else {
      assert (a + b)[1..] == a[1..] + b;
      FindKeyAppend(a[1..], b, pubkey);
    }
  }

  /** Filtering keeps the one-key-per-pubkey shape. */
  lemma {:induction false} WithoutKeyUnique(keys: seq<StoredKey>, pubkey: string)
    requires OneKeyPerPubkey(keys)
    ensures OneKeyPerPubkey(WithoutKey(keys, pubkey))
  {
    if keys != [] {
      var keep := (k: StoredKey) => k.pubkey != pubkey;
      assert keys == [keys[0]] + keys[1..];
      FilterAppend([keys[0]], keys[1..], keep);
      assert OneKeyPerPubkey(keys[1..]) by {
        forall i, j | 0 <= i < j < |keys[1..]| ensures keys[1..][i].pubkey != keys[1..][j].pubkey {
          assert keys[1..][i] == keys[i + 1] && keys[1..][j] == keys[j + 1];
        }
      }
      WithoutKeyUnique(keys[1..], pubkey);
      var rest := WithoutKey(keys[1..], pubkey);
      var w := WithoutKey(keys, pubkey);
      if keep(keys[0]) {
        assert w == [keys[0]] + rest;
        forall j | 0 < j < |w| ensures w[0].pubkey != w[j].pubkey {
          assert w[j] == rest[j - 1];
          assert rest[j - 1] in rest;
          assert rest[j - 1] in keys[1..];
          var m :| 0 <= m < |keys[1..]| && keys[1..][m] == rest[j - 1];
          assert keys[m + 1] == rest[j - 1];
        }
        forall i, j | 0 <= i < j < |w| ensures w[i].pubkey != w[j].pubkey {
          if i > 0 {
            assert w[i] == rest[i - 1] && w[j] == rest[j - 1];
          }
        }
      } else {
        assert w == rest;
      }
    }
  }

  // ---------------------------------------------------------------- profile

  /** A profile holding only the pubkey. */
  function BareProfile(pubkey: string): NostrProfile
  {
    NostrProfile(pubkey, None, None, None, None, None)
  }

  /** `{ ...profile, ...patch }`. */
  function MergeProfile(p: NostrProfile, u: ProfilePatch): NostrProfile
  {
    NostrProfile(Over(p.pubkey, u.pubkey), Over(p.name, if u.name.Some? then Some(u.name) else None),
                 Over(p.displayName, if u.displayName.Some? then Some(u.displayName) else None),
                 Over(p.picture, if u.picture.Some? then Some(u.picture) else None),
                 Over(p.nip05, if u.nip05.Some? then Some(u.nip05) else None),
                 Over(p.about, if u.about.Some? then Some(u.about) else None))
  }

  /** An empty patch leaves the profile as it was, a patch applied twice is
      applied once, and every field the patch carries is taken from it. */
  lemma MergeProfileLaws(p: NostrProfile, u: ProfilePatch)
    ensures MergeProfile(p, ProfilePatch(None, None, None, None, None, None)) == p
    ensures MergeProfile(MergeProfile(p, u), u) == MergeProfile(p, u)
    ensures u.pubkey.Some? ==> MergeProfile(p, u).pubkey == u.pubkey.value
    ensures u.pubkey.None? ==> MergeProfile(p, u).pubkey == p.pubkey
    ensures u.name.Some? ==> MergeProfile(p, u).name == u.name
    ensures u.name.None? ==> MergeProfile(p, u).name == p.name
  {
  }

  // ---------------------------------------------------------------- outcomes

  /** The key `importKey` stores, or the message it throws. */
  function ImportedKey(privateKey: string, devicePassword: string, k: KeyServices, now: int): (r: Result<StoredKey, string>)
    ensures r.Success? <==>
      k.decodeKey(privateKey).Success? && k.decodeKey(privateKey).value.privateKey.Some? &&
      k.encryptData(Hex(k.decodeKey(privateKey).value.privateKey.value), devicePassword).Success?
    ensures r.Success? ==>
      r.value.pubkey == k.decodeKey(privateKey).value.publicKey &&
      r.value.createdAt == now && r.value.lastUsed == now
    ensures r.Failure? ==> StartsWith(r.error, "Failed to import key: ")
  {
    var prefix := "Failed to import key: ";
    match k.decodeKey(privateKey)
    case Failure(m) => Failure(prefix + m)
    case Success(decoded) =>
      if decoded.privateKey.None? then Failure(prefix + "Invalid private key")
      else match k.encryptData(Hex(decoded.privateKey.value), devicePassword)
        case Failure(m) => Failure(prefix + m)
        case Success(sealed) => Success(StoredKey(decoded.publicKey, sealed, now, now))
  }

  /** Whether `authenticate` accepts the password: a current user, a key
      stored for them, and a key that the password decrypts. */
  function PasswordAccepted(user: Option<NostrProfile>, keys: seq<StoredKey>, devicePassword: string, k: KeyServices): bool
  {
    user.Some? && |keys| > 0 &&
    match FindKey(keys, user.value.pubkey)
    case None => false
    case Some(key) => k.decryptData(key.encryptedPrivateKey, devicePassword).Success?
  }

  /** What `getDecryptedPrivateKey` returns: the current user's key,
      decrypted and decoded, or nothing. */
  function DecryptedKey(user: Option<NostrProfile>, keys: seq<StoredKey>, devicePassword: string, k: KeyServices): Option<seq<byte>>
  {
    if user.None? then None
    else match FindKey(keys, user.value.pubkey)
      case None => None
      case Some(key) =>
        match k.decryptData(key.encryptedPrivateKey, devicePassword)
        case Failure(_) => None
        case Success(hex) =>
          match k.decodeKey(hex)
          case Failure(_) => None
          case Success(decoded) => decoded.privateKey
  }

  /** A password that yields the private key is one `authenticate` accepts. */
  lemma DecryptedKeyIsAccepted(user: Option<NostrProfile>, keys: seq<StoredKey>, devicePassword: string, k: KeyServices)
    requires DecryptedKey(user, keys, devicePassword, k).Some?
    ensures PasswordAccepted(user, keys, devicePassword, k)
  {
  }

  /** The laws the cipher and the decoder are relied on for: decryption
      undoes encryption under the same password, and decoding a hex key
      reads its bytes back. */
  ghost predicate KeyLaws(k: KeyServices)
  {
    (forall text, pw :: k.encryptData(text, pw).Success? ==> k.decryptData(k.encryptData(text, pw).value, pw) == Success(text)) &&
    (forall bs: seq<byte> :: |bs| == 32 ==> k.decodeKey(Hex(bs)).Success? && k.decodeKey(Hex(bs)).value.privateKey == Some(bs))
  }

  /** After a successful import, the same password authenticates the new
      user and gives back the 32 bytes that were imported. */
  lemma ImportThenUnlock(keys: seq<StoredKey>, privateKey: string, devicePassword: string, k: KeyServices, now: int)
    requires KeyLaws(k)
    requires ImportedKey(privateKey, devicePassword, k, now).Success?
    requires |k.decodeKey(privateKey).value.privateKey.value| == 32
    ensures var key := ImportedKey(privateKey, devicePassword, k, now).value;
            var user := Some(BareProfile(key.pubkey));
            PasswordAccepted(user, ImportedKeys(keys, key), devicePassword, k) &&
            DecryptedKey(user, ImportedKeys(keys, key), devicePassword, k) == k.decodeKey(privateKey).value.privateKey
  {
    var key := ImportedKey(privateKey, devicePassword, k, now).value;
    ImportedKeysShape(keys, key);
    var bs := k.decodeKey(privateKey).value.privateKey.value;
    assert k.decryptData(key.encryptedPrivateKey, devicePassword) == Success(Hex(bs));
  }

  /** True once the last proof of presence is more than five minutes old. */
  predicate BiometricExpired(lastBiometricAuth: int, now: int)
  {
    now - lastBiometricAuth > BiometricTimeout
  }

  /** Exactly five minutes after the last proof is still inside the
      window, one millisecond more is not, and once outside the window a
      later clock reading stays outside. */
  lemma BiometricWindow(lastBiometricAuth: int, now: int, later: int)
    ensures !BiometricExpired(lastBiometricAuth, lastBiometricAuth + 300000)
    ensures BiometricExpired(lastBiometricAuth, lastBiometricAuth + 300001)
    ensures BiometricExpired(lastBiometricAuth, now) && now <= later ==> BiometricExpired(lastBiometricAuth, later)
  {
  }

  // ---------------------------------------------------------------- store

  class AuthStore {
    var isAuthenticated: bool
    var currentUser: Option<NostrProfile>
    var storedKeys: seq<StoredKey>
    var lastBiometricAuth: int
    var servicesInitialized: bool

    /** The initial state: nobody signed in, no keys. */
    constructor()
      ensures !isAuthenticated && currentUser == None && storedKeys == []
      ensures lastBiometricAuth == 0 && !servicesInitialized
    {
      isAuthenticated := false;
      currentUser := None;
      storedKeys := [];
      lastBiometricAuth := 0;
      servicesInitialized := false;
    }

    /** The state after a reload: the persisted user and keys over the
        initial state, so the user is signed out until they authenticate. */
    constructor Rehydrate(saved: PersistedAuth)
      ensures currentUser == saved.currentUser && storedKeys == saved.storedKeys
      ensures !isAuthenticated && lastBiometricAuth == 0 && !servicesInitialized
    {
      isAuthenticated := false;
      currentUser := saved.currentUser;
      storedKeys := saved.storedKeys;
      lastBiometricAuth := 0;
      servicesInitialized := false;
    }

    /** `partialize`: only the user and the sealed keys are persisted. */
    function Persisted(): PersistedAuth
      reads this
    {
      PersistedAuth(currentUser, storedKeys)
    }

    /** `importKey`: on success the key replaces any earlier key of its
        pubkey, the user becomes that pubkey and is signed in; on failure
        the message is thrown and nothing changes. */
    method ImportKey(privateKey: string, devicePassword: string, k: KeyServices, now: int) returns (r: Result<(), string>)
      modifies this
      ensures var imported := ImportedKey(privateKey, devicePassword, k, now);
              match imported
              case Failure(e) =>
                r == Failure(e) && unchanged(this)
              case Success(key) =>
                r.Success? && storedKeys == ImportedKeys(old(storedKeys), key) &&
                currentUser == Some(BareProfile(key.pubkey)) && isAuthenticated &&
                lastBiometricAuth == old(lastBiometricAuth) && servicesInitialized == old(servicesInitialized)
    {
      var prefix := "Failed to import key: ";
      var decoded := k.decodeKey(privateKey);
      if decoded.Failure? {
        return Failure(prefix + decoded.error);
      }
      if decoded.value.privateKey.None? {
        return Failure(prefix + "Invalid private key");
      }
      var pubkey := decoded.value.publicKey;
      var privateKeyHex := Hex(decoded.value.privateKey.value);
      var sealed := k.encryptData(privateKeyHex, devicePassword);
      if sealed.Failure? {
        return Failure(prefix + sealed.error);
      }
      var storedKey := StoredKey(pubkey, sealed.value, now, now);
      storedKeys := WithoutKey(storedKeys, pubkey) + [storedKey];
      currentUser := Some(BareProfile(pubkey));
      isAuthenticated := true;
      r := Success(());
    }

    /** `authenticate`: the device password is checked by decrypting the
        current user's key; on success the user is signed in and the
        presence timestamp renewed, otherwise nothing changes. */
    method Authenticate(devicePassword: string, k: KeyServices, now: int) returns (ok: bool)
      modifies this
      ensures ok == PasswordAccepted(old(currentUser), old(storedKeys), devicePassword, k)
      ensures ok ==> isAuthenticated && lastBiometricAuth == now
      ensures !ok ==> isAuthenticated == old(isAuthenticated) && lastBiometricAuth == old(lastBiometricAuth)
      ensures currentUser == old(currentUser) && storedKeys == old(storedKeys)
      ensures servicesInitialized == old(servicesInitialized)
    {
      if currentUser.None? || |storedKeys| == 0 {
        return false;
      }
      var currentKey := FindKey(storedKeys, currentUser.value.pubkey);
      if currentKey.None? {
        return false;
      }
      var decrypted := k.decryptData(currentKey.value.encryptedPrivateKey, devicePassword);
      if decrypted.Failure? {
        return false;
      }
      isAuthenticated := true;
      lastBiometricAuth := now;
      ok := true;
    }

    /** `authenticateWithBiometric`: `biometric` is what the platform
        prompt resolved to, or what it threw. */
    method AuthenticateWithBiometric(biometric: Result<bool, string>, now: int) returns (ok: bool)
      modifies this
      ensures ok <==> biometric == Success(true)
      ensures ok ==> isAuthenticated && lastBiometricAuth == now
      ensures !ok ==> isAuthenticated == old(isAuthenticated) && lastBiometricAuth == old(lastBiometricAuth)
      ensures currentUser == old(currentUser) && storedKeys == old(storedKeys)
      ensures servicesInitialized == old(servicesInitialized)
    {
      ok := false;
      if biometric.Success? && biometric.value {
        isAuthenticated := true;
        lastBiometricAuth := now;
        ok := true;
      }
    }

    /** `logout`: signed out with the presence timestamp cleared; the user
        and the sealed keys stay for the next sign-in. */
    method Logout()
      modifies this
      ensures !isAuthenticated && lastBiometricAuth == 0
      ensures currentUser == old(currentUser) && storedKeys == old(storedKeys)
      ensures servicesInitialized == old(servicesInitialized)
    {
      isAuthenticated := false;
      lastBiometricAuth := 0;
    }

    /** `updateProfile`: the patch is merged into the current user; with no
        user there is nothing to merge into. */
    method UpdateProfile(u: ProfilePatch)
      modifies this
      ensures currentUser == if old(currentUser).Some? then Some(MergeProfile(old(currentUser).value, u)) else None
      ensures isAuthenticated == old(isAuthenticated) && storedKeys == old(storedKeys)
      ensures lastBiometricAuth == old(lastBiometricAuth) && servicesInitialized == old(servicesInitialized)
    {
      if currentUser.Some? {
        currentUser := Some(MergeProfile(currentUser.value, u));
      }
    }

    /** `needsBiometricAuth` at the clock reading `now`. */
    function NeedsBiometricAuth(now: int): bool
      reads this
    {
      BiometricExpired(lastBiometricAuth, now)
    }

    /** `getDecryptedPrivateKey`: a read of the state; the decrypted key is
        returned to the caller and is never a field of the store. */
    function GetDecryptedPrivateKey(devicePassword: string, k: KeyServices): Option<seq<byte>>
      reads this
    {
      DecryptedKey(currentUser, storedKeys, devicePassword, k)
    }

    /** `initializeServices`: the bill-split service is initialised for the
        current user's pubkey, then the flag is set. */
    method InitializeServices(service: BillSplit.BillSplitService, relayQuery: Relays.RelayListQuery,
                              follows: Contacts.FollowQuery, profiles: Contacts.ProfileQuery, now: int)
      requires service.Valid() && service.contacts.Valid()
      modifies this, service.relays, service.store, service.contacts
      ensures service.Valid() && service.contacts.Valid()
      ensures var userPubkey := if old(currentUser).Some? then Some(old(currentUser).value.pubkey) else None;
              var start := Relays.StartingRelays(old(service.store.settings));
              if Truthy(userPubkey) then
                var user := Relays.UserRelayList(start, userPubkey.value, relayQuery);
                service.relays.relays == (if |user| > 0 then Relays.Merged(start, user) else start) &&
                BillSplit.FollowListLoaded(old(service.contacts.contacts), old(service.contacts.order), old(service.contacts.followList),
                                           service.contacts.contacts, service.contacts.order, service.contacts.followList,
                                           userPubkey.value, Relays.UrlList(Relays.WriteRelays(service.relays.relays)),
                                           follows, profiles, now)
              else
                service.relays.relays == start &&
                service.contacts.contacts == old(service.contacts.contacts) && service.contacts.order == old(service.contacts.order) &&
                service.contacts.followList == old(service.contacts.followList)
      ensures service.store.receipts == old(service.store.receipts) && service.store.images == old(service.store.images)
      ensures service.store.auditLog == old(service.store.auditLog)
      ensures servicesInitialized
      ensures isAuthenticated == old(isAuthenticated) && currentUser == old(currentUser)
      ensures storedKeys == old(storedKeys) && lastBiometricAuth == old(lastBiometricAuth)
    {
      var userPubkey := if currentUser.Some? then Some(currentUser.value.pubkey) else None;
      service.Initialize(userPubkey, relayQuery, follows, profiles, now);
      servicesInitialized := true;
    }

    /** `deleteStoredKey`: every key of the pubkey is dropped; when it is
        the current user's, the user is cleared and signed out. */
    method DeleteStoredKey(pubkey: string)
      modifies this
      ensures storedKeys == WithoutKey(old(storedKeys), pubkey)
      ensures var mine := old(currentUser).Some? && old(currentUser).value.pubkey == pubkey;
              currentUser == (if mine then None else old(currentUser)) &&
              isAuthenticated == (if mine then false else old(isAuthenticated))
      ensures lastBiometricAuth == old(lastBiometricAuth) && servicesInitialized == old(servicesInitialized)
    {
      var mine := currentUser.Some? && currentUser.value.pubkey == pubkey;
      storedKeys := WithoutKey(storedKeys, pubkey);
      if mine {
        currentUser := None;
        isAuthenticated := false;
      }
    }
  }

  /** Deleting another pubkey's key does not change whether a password is
      accepted for the current user; deleting the user's own key means no
      password is accepted until a key is imported again. */
  lemma DeleteKeepsOthers(user: Option<NostrProfile>, keys: seq<StoredKey>, pubkey: string, devicePassword: string, k: KeyServices)
    ensures user.Some? && user.value.pubkey != pubkey && |WithoutKey(keys, pubkey)| > 0 ==>
              PasswordAccepted(user, WithoutKey(keys, pubkey), devicePassword, k) == PasswordAccepted(user, keys, devicePassword, k)
    ensures user.Some? && user.value.pubkey == pubkey ==>
              !PasswordAccepted(user, WithoutKey(keys, pubkey), devicePassword, k)
  {
    if user.Some? && user.value.pubkey != pubkey {
      FindKeyWithout(keys, pubkey, user.value.pubkey);
    }
  }
}
