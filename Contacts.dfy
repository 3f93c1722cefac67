/** src/lib/contacts.ts: the contact directory. Contacts are kept in a map
    keyed by pubkey (iterated in insertion order, as a JavaScript Map is),
    beside the set of followed pubkeys. What the relays answer to the
    follow-list (kind 3) and profile (kind 0) queries is an input, as are
    the urls of the write relays and the clock. */
module Contacts {
  import opened Common
  import opened Models
  import StoreCommon

  /** A profile with the directory's own fields; an absent `isFollowing` or
      `addedManually` is false. */
  datatype Contact = Contact(profile: NostrProfile, isFollowing: bool, lastSeen: int, addedManually: bool)

  /** The tags of the last kind 3 event a relay sent before EOSE, or its failure. */
  type FollowQuery = (string, string) -> Result<seq<seq<string>>, string>
  /** The profiles a relay returned for the requested pubkeys before EOSE,
      an error or the timeout, or the failure to open the socket at all. */
  type ProfileQuery = (string, seq<string>) -> Result<seq<NostrProfile>, string>

  /** `/^[0-9a-f]{64}$/i`. */
  predicate IsValidPubkey(pubkey: string)
  {
    |pubkey| == 64 && AllHex(pubkey)
  }

  /** The check ignores case, and lowercasing a valid key gives 64
      lowercase hex digits: the form a QR code's key is stored under. */
  lemma ValidPubkeyIgnoresCase(pubkey: string)
    ensures IsValidPubkey(Lower(pubkey)) <==> IsValidPubkey(pubkey)
    ensures IsValidPubkey(pubkey) ==> AllLowerHex(Lower(pubkey))
  {
    forall i | 0 <= i < |pubkey|
      ensures IsHexChar(Lower(pubkey)[i]) <==> IsHexChar(pubkey[i])
      ensures IsHexChar(pubkey[i]) ==> IsLowerHexChar(Lower(pubkey)[i])
    {
      assert Lower(pubkey)[i] == LowerChar(pubkey[i]);
    }
  }

  /** The follows in a kind 3 event: the second entry of every `p` tag that has a non-empty one. */
  function Follows(tags: seq<seq<string>>): (r: seq<string>)
    ensures forall x :: x in r ==> x != ""
  {
    if tags == [] then []
    else (if |tags[0]| >= 2 && tags[0][0] == "p" && tags[0][1] != "" then [tags[0][1]] else []) + Follows(tags[1..])
  }

  /** The contact stored for a fetched profile. */
  function FromProfile(p: NostrProfile, followList: set<string>, now: int): Contact
  {
    Contact(p, p.pubkey in followList, now, false)
  }

  /** `map.set(key, c)`: a new key goes to the end of the iteration order,
      an existing one keeps its place. */
  function Put(m: map<string, Contact>, order: seq<string>, c: Contact): (map<string, Contact>, seq<string>)
  {
    (m[c.profile.pubkey := c], if c.profile.pubkey in m then order else order + [c.profile.pubkey])
  }

  /** Storing one contact keeps the directory consistent and adds its key. */
  lemma PutConsistent(m: map<string, Contact>, order: seq<string>, c: Contact)
    requires Consistent(m, order)
    ensures Consistent(Put(m, order, c).0, Put(m, order, c).1)
    ensures Put(m, order, c).0.Keys == m.Keys + {c.profile.pubkey}
  {
    var k := c.profile.pubkey;
    if k !in m {
      var o := order + [k];
      forall i, j | 0 <= i < j < |o| ensures o[i] != o[j] {
        if j == |order| {
          assert o[i] == order[i] && order[i] in m;
        }
      }
    }
  }

  /** The directory after storing each fetched profile in turn. */
  function ApplyProfiles(m: map<string, Contact>, order: seq<string>, profiles: seq<NostrProfile>,
                         followList: set<string>, now: int): (map<string, Contact>, seq<string>)
  {
    if profiles == [] then (m, order)
    else
      var (m', order') := ApplyProfiles(m, order, profiles[..|profiles| - 1], followList, now);
      Put(m', order', FromProfile(profiles[|profiles| - 1], followList, now))
  }

  /** The profiles of the first relay that answers with at least one;
      relays that fail or answer with none are passed over. */
  function FirstProfiles(urls: seq<string>, pubkeys: seq<string>, query: ProfileQuery): seq<NostrProfile>
  {
    if urls == [] then []
    else match query(urls[0], pubkeys)
      case Success(ps) => if |ps| > 0 then ps else FirstProfiles(urls[1..], pubkeys, query)
      case Failure(_) => FirstProfiles(urls[1..], pubkeys, query)
  }

  /** The follows of the first relay that answers with at least one. */
  function FirstFollows(urls: seq<string>, pubkey: string, query: FollowQuery): seq<string>
  {
    if urls == [] then []
    else match query(urls[0], pubkey)
      case Success(tags) => if |Follows(tags)| > 0 then Follows(tags) else FirstFollows(urls[1..], pubkey, query)
      case Failure(_) => FirstFollows(urls[1..], pubkey, query)
  }

  /** The directory's consistency: every key is stored under its own
      pubkey, and the order lists each key exactly once. */
  ghost predicate Consistent(m: map<string, Contact>, order: seq<string>)
  {
    (forall k :: k in m ==> m[k].profile.pubkey == k) &&
    (forall k :: k in m <==> k in order) &&
    (forall i, j :: 0 <= i < j < |order| ==> order[i] != order[j])
  }

  /** Storing profiles keeps the directory consistent, stores every fetched
      pubkey, keeps every earlier key and adds no other. */
  lemma {:induction false} ApplyProfilesConsistent(m: map<string, Contact>, order: seq<string>, profiles: seq<NostrProfile>,
                                                   followList: set<string>, now: int)
    requires Consistent(m, order)
    ensures var (m', order') := ApplyProfiles(m, order, profiles, followList, now);
            Consistent(m', order') &&
            (forall k :: k in m' <==> k in m || exists i :: 0 <= i < |profiles| && profiles[i].pubkey == k)
  {
    if profiles != [] {
      var init := profiles[..|profiles| - 1];
      var last := profiles[|profiles| - 1];
      ApplyProfilesConsistent(m, order, init, followList, now);
      var (m1, order1) := ApplyProfiles(m, order, init, followList, now);
      var (m2, order2) := Put(m1, order1, FromProfile(last, followList, now));
      PutConsistent(m1, order1, FromProfile(last, followList, now));
      assert m2.Keys == m1.Keys + {last.pubkey};
      forall k | k in m2 ensures k in m || exists i :: 0 <= i < |profiles| && profiles[i].pubkey == k {
        if k !in m && k != last.pubkey {
          var i :| 0 <= i < |init| && init[i].pubkey == k;
          assert profiles[i].pubkey == k;
        }
      }
      forall k | (exists i :: 0 <= i < |profiles| && profiles[i].pubkey == k) ensures k in m2 {
        var i :| 0 <= i < |profiles| && profiles[i].pubkey == k;
        if i < |init| {
          assert init[i].pubkey == k;
        }
      }
    }
  }

  /** A key the fetch newly stored holds the contact made from one of the
      fetched profiles with that key. */
  lemma {:induction false} ApplyProfilesStores(m: map<string, Contact>, order: seq<string>, profiles: seq<NostrProfile>,
                                               followList: set<string>, now: int, k: string)
    requires k !in m && k in ApplyProfiles(m, order, profiles, followList, now).0
    ensures exists i :: 0 <= i < |profiles| && profiles[i].pubkey == k &&
                        ApplyProfiles(m, order, profiles, followList, now).0[k] == FromProfile(profiles[i], followList, now)
  {
    var init := profiles[..|profiles| - 1];
    var last := profiles[|profiles| - 1];
    var m1 := ApplyProfiles(m, order, init, followList, now).0;
    if last.pubkey != k {
      ApplyProfilesStores(m, order, init, followList, now, k);
      var i :| 0 <= i < |init| && init[i].pubkey == k && m1[k] == FromProfile(init[i], followList, now);
      assert profiles[i] == init[i];
    }
  }

  /** The contact stored for a key typed in by hand when no relay knows its profile. */
  function BasicContact(pubkey: string, now: int): Contact
  {
    Contact(NostrProfile(pubkey, None, None, None, None, None), false, now, true)
  }

  /** `addContactByPubkey` from the directory `(m0, o0)` to `(m, o)` with
      result `r`: an invalid key is refused and a known one returned, both
      changing nothing; otherwise the profiles are fetched and stored, and
      the key's contact is then marked as added by hand, or, when no relay
      knew it, a bare contact is stored at the end of the order. */
  ghost predicate AddedByPubkey(m0: map<string, Contact>, o0: seq<string>, m: map<string, Contact>, o: seq<string>,
                                followList: set<string>, pubkey: string, writeUrls: seq<string>, query: ProfileQuery,
                                now: int, r: Result<Contact, string>)
  {
    if !IsValidPubkey(pubkey) then r == Failure("Invalid pubkey format") && m == m0 && o == o0
    else if pubkey in m0 then r == Success(m0[pubkey]) && m == m0 && o == o0
    else
      var fetched := ApplyProfiles(m0, o0, FirstProfiles(writeUrls, [pubkey], query), followList, now);
      if pubkey in fetched.0 then
        m == fetched.0[pubkey := fetched.0[pubkey].(addedManually := true)] && o == fetched.1 && r == Success(m[pubkey])
      else
        m == fetched.0[pubkey := BasicContact(pubkey, now)] && o == fetched.1 + [pubkey] && r == Success(BasicContact(pubkey, now))
  }

  /** A new valid key ends up stored and returned, marked as added by
      hand, holding either a profile a relay returned for it or nothing but
      the key. */
  lemma AddedContactIsFetchedOrBasic(m0: map<string, Contact>, o0: seq<string>, m: map<string, Contact>, o: seq<string>,
                                     followList: set<string>, pubkey: string, writeUrls: seq<string>, query: ProfileQuery,
                                     now: int, r: Result<Contact, string>)
    requires AddedByPubkey(m0, o0, m, o, followList, pubkey, writeUrls, query, now, r)
    requires IsValidPubkey(pubkey) && pubkey !in m0
    ensures r.Success? && pubkey in m && m[pubkey] == r.value && r.value.addedManually
    ensures r.value == BasicContact(pubkey, now) ||
            exists i :: 0 <= i < |FirstProfiles(writeUrls, [pubkey], query)| &&
                        FirstProfiles(writeUrls, [pubkey], query)[i].pubkey == pubkey &&
                        r.value == FromProfile(FirstProfiles(writeUrls, [pubkey], query)[i], followList, now).(addedManually := true)
  {
    var profiles := FirstProfiles(writeUrls, [pubkey], query);
    var fetched := ApplyProfiles(m0, o0, profiles, followList, now);
    if pubkey in fetched.0 {
      ApplyProfilesStores(m0, o0, profiles, followList, now, pubkey);
      var i :| 0 <= i < |profiles| && profiles[i].pubkey == pubkey &&
               fetched.0[pubkey] == FromProfile(profiles[i], followList, now);
      assert m[pubkey] == FromProfile(profiles[i], followList, now).(addedManually := true);
      assert r.value == FromProfile(FirstProfiles(writeUrls, [pubkey], query)[i], followList, now).(addedManually := true);
      assert exists j :: 0 <= j < |FirstProfiles(writeUrls, [pubkey], query)| &&
                        FirstProfiles(writeUrls, [pubkey], query)[j].pubkey == pubkey &&
                        r.value == FromProfile(FirstProfiles(writeUrls, [pubkey], query)[j], followList, now).(addedManually := true);
    } else {
      assert m[pubkey] == BasicContact(pubkey, now);
    }
  }

  /** `getDisplayName` when nothing better is known: the first eight and
      the last eight characters around `...`. */
  function ShortKey(pubkey: string): (r: string)
    ensures |pubkey| >= 8 ==> |r| == 19 && r[..8] == pubkey[..8] && r[11..] == pubkey[|pubkey| - 8..]
  {
    Slice(pubkey, 0, 8) + "..." + pubkey[(if |pubkey| >= 8 then |pubkey| - 8 else 0)..]
  }

  /** The search predicate: the lowercased name, display name, NIP-05
      address or pubkey contains the lowercased query. An absent field never
      matches; a present empty one matches the empty query. */
  predicate Matches(c: Contact, lowercaseQuery: string)
  {
    (c.profile.name.Some? && Contains(Lower(c.profile.name.value), lowercaseQuery)) ||
    (c.profile.displayName.Some? && Contains(Lower(c.profile.displayName.value), lowercaseQuery)) ||
    (c.profile.nip05.Some? && Contains(Lower(c.profile.nip05.value), lowercaseQuery)) ||
    Contains(Lower(c.profile.pubkey), lowercaseQuery)
  }

  /** `Array.from(m.values())` when `keys` is the map's insertion order. */
  function Listed(m: map<string, Contact>, keys: seq<string>): seq<Contact>
  {
    if keys == [] then []
    else (if keys[0] in m then [m[keys[0]]] else []) + Listed(m, keys[1..])
  }

  /** No two contacts of the list share a pubkey, so each appears once. */
  predicate OncePerKey(cs: seq<Contact>)
  {
    forall i, j :: 0 <= i < j < |cs| ==> cs[i].profile.pubkey != cs[j].profile.pubkey
  }

  /** The search test as a function value. */
  function MatchesQuery(lowercaseQuery: string): Contact -> bool
  {
    (c: Contact) => Matches(c, lowercaseQuery)
  }

  const Followed: Contact -> bool := (c: Contact) => c.isFollowing
  const NotFollowed: Contact -> bool := (c: Contact) => !c.isFollowing

  lemma {:induction false} ListedAll(m: map<string, Contact>, keys: seq<string>)
    requires forall i :: 0 <= i < |keys| ==> keys[i] in m
    ensures |Listed(m, keys)| == |keys|
    ensures forall i :: 0 <= i < |keys| ==> Listed(m, keys)[i] == m[keys[i]]
  {
    if keys != [] {
      ListedAll(m, keys[1..]);
    }
  }

  lemma {:induction false} DistinctKeysCard(keys: seq<string>)
    requires forall i, j :: 0 <= i < j < |keys| ==> keys[i] != keys[j]
    ensures |set k | k in keys| == |keys|
  {
    if keys != [] {
      DistinctKeysCard(keys[1..]);
      assert (set k | k in keys) == {keys[0]} + (set k | k in keys[1..]);
      assert keys[0] !in keys[1..];
    }
  }

  /** In a consistent directory the listing holds every contact of the map
      once, one per key. */
  lemma ListedConsistent(m: map<string, Contact>, order: seq<string>)
    requires Consistent(m, order)
    ensures |Listed(m, order)| == |m|
    ensures OncePerKey(Listed(m, order))
    ensures forall c :: c in Listed(m, order) <==> c in m.Values
  {
    ListedAll(m, order);
    DistinctKeysCard(order);
    assert (set k | k in order) == m.Keys;
    var l := Listed(m, order);
    forall c | c in m.Values
      ensures c in l
    {
      var k :| k in m && m[k] == c;
      var i :| 0 <= i < |order| && order[i] == k;
      assert l[i] == c;
    }
  }

  /** The contacts under `keys`, in that order, that satisfy `keep`. */
  function Select(m: map<string, Contact>, keys: seq<string>, keep: Contact -> bool): (r: seq<Contact>)
    ensures forall c :: c in r <==> exists i :: 0 <= i < |keys| && keys[i] in m && m[keys[i]] == c && keep(c)
    ensures forall i :: 0 <= i < |r| ==> keep(r[i])
  {
    if keys == [] then []
    else
      var rest := Select(m, keys[1..], keep);
      if keys[0] in m && keep(m[keys[0]]) then [m[keys[0]]] + rest else rest
  }

  /** Selecting under the keys is `filter` over the map's values listed in
      the keys' order: the kept contacts stay in that order. */
  lemma {:induction false} SelectIsFilter(m: map<string, Contact>, keys: seq<string>, keep: Contact -> bool)
    ensures Select(m, keys, keep) == StoreCommon.Filter(Listed(m, keys), keep)
  {
    if keys != [] {
      SelectIsFilter(m, keys[1..], keep);
      var head := if keys[0] in m then [m[keys[0]]] else [];
      StoreCommon.FilterAppend(head, Listed(m, keys[1..]), keep);
    }
  }

  /** Filtering keeps each contact once. */
  lemma {:induction false} FilterOncePerKey(cs: seq<Contact>, keep: Contact -> bool)
    requires OncePerKey(cs)
    ensures OncePerKey(StoreCommon.Filter(cs, keep))
  {
    if cs != [] {
      FilterOncePerKey(cs[1..], keep);
      var rest := StoreCommon.Filter(cs[1..], keep);
      forall x | x in rest
        ensures x.profile.pubkey != cs[0].profile.pubkey
      {
        var i :| 0 <= i < |cs[1..]| && cs[1..][i] == x;
        assert cs[i + 1] == x;
      }
      if keep(cs[0]) {
        var r := StoreCommon.Filter(cs, keep);
        assert r == [cs[0]] + rest;
        forall i, j | 0 <= i < j < |r|
          ensures r[i].profile.pubkey != r[j].profile.pubkey
        {
          assert r[j] == rest[j - 1];
          assert r[j] in rest;
          if i > 0 {
            assert r[i] == rest[i - 1];
          }
        }
      }
    }
  }

  /** The followed contacts, then the others, hold each contact once. */
  lemma FollowsFirstOncePerKey(cs: seq<Contact>)
    requires OncePerKey(cs)
    ensures OncePerKey(StoreCommon.Filter(cs, Followed) + StoreCommon.Filter(cs, NotFollowed))
  {
    var a := StoreCommon.Filter(cs, Followed);
    var b := StoreCommon.Filter(cs, NotFollowed);
    FilterOncePerKey(cs, Followed);
    FilterOncePerKey(cs, NotFollowed);
    var r := a + b;
    forall i, j | 0 <= i < j < |r|
      ensures r[i].profile.pubkey != r[j].profile.pubkey
    {
      if i < |a| && |a| <= j {
        assert r[i] in a && r[j] in b;
        var p :| 0 <= p < |cs| && cs[p] == r[i];
        var q :| 0 <= q < |cs| && cs[q] == r[j];
        assert p != q;
      } else if |a| <= i {
        assert r[i] == b[i - |a|] && r[j] == b[j - |a|];
      }
    }
  }

  /** The followed contacts, then the others, are a permutation of the
      map's values with each contact once. */
  lemma AllContactsPermutation(m: map<string, Contact>, order: seq<string>)
    requires Consistent(m, order)
    ensures var r := Select(m, order, Followed) + Select(m, order, NotFollowed);
            |r| == |m| && multiset(r) == multiset(Listed(m, order)) && OncePerKey(r)
  {
    var l := Listed(m, order);
    SelectIsFilter(m, order, Followed);
    SelectIsFilter(m, order, NotFollowed);
    ListedConsistent(m, order);
    StoreCommon.FilterPartition(l, Followed, NotFollowed);
    FollowsFirstOncePerKey(l);
    var r := Select(m, order, Followed) + Select(m, order, NotFollowed);
    assert multiset(r) == multiset(l);
    assert |r| == |multiset(r)| == |multiset(l)| == |l|;
  }

  /** What a QR code holds: a bech32 `npub1...`, 64 hex digits, a
      `nostr:` URI, or something else. */
  datatype QrKind = Npub | RawHex | NostrUri | Unrecognized

  function ClassifyQr(qrData: string): QrKind
  {
    if StartsWith(qrData, "npub1") then Npub
    else if |qrData| == 64 && AllHex(qrData) then RawHex
    else if StartsWith(qrData, "nostr:") then NostrUri
    else Unrecognized
  }

  /** `/nostr:(npub1[a-z0-9]+)/` finds a match somewhere in the string. */
  predicate HasNostrNpub(s: string)
  {
    exists i :: 0 <= i <= |s| - 12 && OccursAt(s, "nostr:npub1", i) && (IsDigit(s[i + 11]) || 'a' <= s[i + 11] <= 'z')
  }

  class ContactManager {
    var contacts: map<string, Contact>
    /** The Map's iteration order: keys in order of first insertion. */
    var order: seq<string>
    var followList: set<string>

    ghost predicate Valid()
      reads this
    {
      Consistent(contacts, order)
    }

    constructor()
      ensures Valid()
      ensures contacts == map[] && order == [] && followList == {}
    {
      contacts := map[];
      order := [];
      followList := {};
    }

    /** `getContact`. */
    function GetContact(pubkey: string): (r: Option<Contact>)
      reads this
      ensures r.Some? <==> pubkey in contacts
      ensures r.Some? ==> r.value == contacts[pubkey]
    {
      if pubkey in contacts then Some(contacts[pubkey]) else None
    }

    /** Asks the write relays in turn for the profiles of `pubkeys`, stores
        each profile of the first relay that returns any (marking whether it
        is followed, stamping `now`), and stops there. */
    method FetchProfiles(writeUrls: seq<string>, pubkeys: seq<string>, query: ProfileQuery, now: int)
      requires Valid()
      modifies this
      ensures Valid()
      ensures (contacts, order) == ApplyProfiles(old(contacts), old(order), FirstProfiles(writeUrls, pubkeys, query), followList, now)
      ensures followList == old(followList)
    {
      var i := 0;
      var done := false;
      while i < |writeUrls| && !done
        invariant 0 <= i <= |writeUrls|
        invariant Valid() && followList == old(followList)
        invariant !done ==> FirstProfiles(writeUrls, pubkeys, query) == FirstProfiles(writeUrls[i..], pubkeys, query)
        invariant !done ==> contacts == old(contacts) && order == old(order)
        invariant done ==> (contacts, order) == ApplyProfiles(old(contacts), old(order), FirstProfiles(writeUrls, pubkeys, query), followList, now)
        decreases |writeUrls| - i, if done then 0 else 1
      {
        assert writeUrls[i..][1..] == writeUrls[i + 1..];
        match query(writeUrls[i], pubkeys) {
          case Failure(_) =>
          case Success(profiles) =>
            if |profiles| > 0 {
              StoreProfiles(profiles, now);
              done := true;
            }
        }
        i := i + 1;
      }
    }

    /** Stores each profile in turn. */
    method StoreProfiles(profiles: seq<NostrProfile>, now: int)
      requires Valid()
      modifies this
      ensures Valid()
      ensures (contacts, order) == ApplyProfiles(old(contacts), old(order), profiles, followList, now)
      ensures followList == old(followList)
    {
      for j := 0 to |profiles|
        invariant (contacts, order) == ApplyProfiles(old(contacts), old(order), profiles[..j], followList, now)
        invariant followList == old(followList)
      {
        assert profiles[..j + 1][..j] == profiles[..j];
        var contact := FromProfile(profiles[j], followList, now);
        if contact.profile.pubkey !in contacts {
          order := order + [contact.profile.pubkey];
        }
        contacts := contacts[contact.profile.pubkey := contact];
      }
      assert profiles[..|profiles|] == profiles;
      ApplyProfilesConsistent(old(contacts), old(order), profiles, followList, now);
    }

    /** Asks the write relays in turn for the user's follow list; the
        follows of the first relay that has any are added to the follow set
        and their profiles fetched. */
    method LoadFollowList(userPubkey: string, writeUrls: seq<string>, follows: FollowQuery, profiles: ProfileQuery, now: int)
      requires Valid()
      modifies this
      ensures Valid()
      ensures var found := FirstFollows(writeUrls, userPubkey, follows);
              followList == old(followList) + (set x | x in found) &&
              (contacts, order) ==
                if |found| > 0 then ApplyProfiles(old(contacts), old(order), FirstProfiles(writeUrls, found, profiles), followList, now)
                else (old(contacts), old(order))
    {
      var i := 0;
      var done := false;
      while i < |writeUrls| && !done
        invariant 0 <= i <= |writeUrls|
        invariant Valid()
        invariant !done ==> FirstFollows(writeUrls, userPubkey, follows) == FirstFollows(writeUrls[i..], userPubkey, follows)
        invariant !done ==> followList == old(followList) && contacts == old(contacts) && order == old(order)
        invariant done ==> var found := FirstFollows(writeUrls, userPubkey, follows);
                  |found| > 0 && followList == old(followList) + (set x | x in found) &&
                  (contacts, order) == ApplyProfiles(old(contacts), old(order), FirstProfiles(writeUrls, found, profiles), followList, now)
        decreases |writeUrls| - i, if done then 0 else 1
      {
        assert writeUrls[i..][1..] == writeUrls[i + 1..];
        match follows(writeUrls[i], userPubkey) {
          case Failure(_) =>
          case Success(tags) =>
            var found := Follows(tags);
            followList := followList + set x | x in found;
            if |found| > 0 {
              FetchProfiles(writeUrls, found, profiles, now);
              done := true;
            }
        }
        i := i + 1;
      }
    }

    /** Adds a contact typed in by hand. An invalid key is refused; a known
        one is returned as it is; otherwise the profile is fetched and, when
        found, marked as added by hand, and when not found a bare contact is
        stored. */
    method AddContactByPubkey(pubkey: string, writeUrls: seq<string>, query: ProfileQuery, now: int)
        returns (r: Result<Contact, string>)
      requires Valid()
      modifies this
      ensures Valid()
      ensures followList == old(followList)
      ensures !IsValidPubkey(pubkey) ==> r == Failure("Invalid pubkey format") && contacts == old(contacts) && order == old(order)
      ensures IsValidPubkey(pubkey) && pubkey in old(contacts) ==>
                r == Success(old(contacts)[pubkey]) && contacts == old(contacts) && order == old(order)
      ensures IsValidPubkey(pubkey) && pubkey !in old(contacts) ==>
                r.Success? && r.value.addedManually && r.value.profile.pubkey == pubkey &&
                pubkey in contacts && contacts[pubkey] == r.value
      ensures IsValidPubkey(pubkey) && pubkey !in old(contacts) &&
              pubkey !in ApplyProfiles(old(contacts), old(order), FirstProfiles(writeUrls, [pubkey], query), followList, now).0 ==>
                r == Success(BasicContact(pubkey, now))
      ensures AddedByPubkey(old(contacts), old(order), contacts, order, followList, pubkey, writeUrls, query, now, r)
    {
      if !IsValidPubkey(pubkey) {
        return Failure("Invalid pubkey format");
      }
      if pubkey in contacts {
        return Success(contacts[pubkey]);
      }
      FetchProfiles(writeUrls, [pubkey], query, now);
      if pubkey in contacts {
        var contact := contacts[pubkey].(addedManually := true);
        contacts := contacts[pubkey := contact];
        return Success(contact);
      }
      var basic := BasicContact(pubkey, now);
      contacts := contacts[pubkey := basic];
      order := order + [pubkey];
      return Success(basic);
    }

    /** Adds the contact a QR code names. Only raw hex keys get through:
        bech32 decoding always fails, so `npub1...` and `nostr:` codes are
        refused, as is anything else. */
    method AddContactFromQR(qrData: string, writeUrls: seq<string>, query: ProfileQuery, now: int)
        returns (r: Result<Contact, string>)
      requires Valid()
      modifies this
      ensures Valid()
      ensures followList == old(followList)
      ensures ClassifyQr(qrData) != RawHex ==> contacts == old(contacts) && order == old(order)
      ensures ClassifyQr(qrData) == Npub ==> r == Failure("Invalid npub format")
      ensures ClassifyQr(qrData) == NostrUri && HasNostrNpub(qrData) ==> r == Failure("Failed to decode npub format")
      ensures ClassifyQr(qrData) == NostrUri && !HasNostrNpub(qrData) ==> r == Failure("Invalid nostr URI format")
      ensures ClassifyQr(qrData) == Unrecognized ==> r == Failure("Unrecognized QR code format")
      ensures ClassifyQr(qrData) == RawHex ==>
                r.Success? && r.value.profile.pubkey == Lower(qrData) && Lower(qrData) in contacts &&
                AddedByPubkey(old(contacts), old(order), contacts, order, followList, Lower(qrData), writeUrls, query, now, r)
    {
      match ClassifyQr(qrData) {
        case Npub =>
          r := Failure("Invalid npub format");
        case RawHex =>
          assert IsValidPubkey(Lower(qrData));
          r := AddContactByPubkey(Lower(qrData), writeUrls, query, now);
        case NostrUri =>
          if HasNostrNpub(qrData) {
            r := Failure("Failed to decode npub format");
          } else {
            r := Failure("Invalid nostr URI format");
          }
        case Unrecognized =>
          r := Failure("Unrecognized QR code format");
      }
    }

    /** Display name, else name, else NIP-05 address, else the shortened key. */
    function GetDisplayName(pubkey: string): (r: string)
      reads this
      ensures pubkey !in contacts ==> r == ShortKey(pubkey)
      ensures pubkey in contacts && Truthy(contacts[pubkey].profile.displayName) ==> r == contacts[pubkey].profile.displayName.value
      ensures pubkey in contacts && !Truthy(contacts[pubkey].profile.displayName) && Truthy(contacts[pubkey].profile.name) ==>
                r == contacts[pubkey].profile.name.value
      ensures (pubkey in contacts && !Truthy(contacts[pubkey].profile.displayName) && !Truthy(contacts[pubkey].profile.name) &&
               Truthy(contacts[pubkey].profile.nip05)) ==> r == contacts[pubkey].profile.nip05.value
      ensures (pubkey in contacts && !Truthy(contacts[pubkey].profile.displayName) && !Truthy(contacts[pubkey].profile.name) &&
               !Truthy(contacts[pubkey].profile.nip05)) ==> r == ShortKey(pubkey)
    {
      if pubkey !in contacts then ShortKey(pubkey)
      else
        var p := contacts[pubkey].profile;
        if Truthy(p.displayName) then p.displayName.value
        else if Truthy(p.name) then p.name.value
        else if Truthy(p.nip05) then p.nip05.value
        else ShortKey(pubkey)
    }

    /** The contacts that match the query: `filter` over the map's values
      in insertion order, so each match once and in that order. */
    function SearchContacts(query: string): (r: seq<Contact>)
      reads this
      requires Valid()
      ensures forall c :: c in r <==> c in contacts.Values && Matches(c, Lower(query))
      ensures r == StoreCommon.Filter(Listed(contacts, order), MatchesQuery(Lower(query)))
      ensures OncePerKey(r)
    {
      SelectIsFilter(contacts, order, MatchesQuery(Lower(query)));
      ListedConsistent(contacts, order);
      FilterOncePerKey(Listed(contacts, order), MatchesQuery(Lower(query)));
      Select(contacts, order, MatchesQuery(Lower(query)))
    }

    /** The followed contacts, each once. */
    function GetFollowList(): (r: seq<Contact>)
      reads this
      requires Valid()
      ensures forall c :: c in r <==> c in contacts.Values && c.isFollowing
      ensures multiset(r) == multiset(StoreCommon.Filter(Listed(contacts, order), Followed))
      ensures OncePerKey(r)
    {
      SelectIsFilter(contacts, order, Followed);
      ListedConsistent(contacts, order);
      FilterOncePerKey(Listed(contacts, order), Followed);
      Select(contacts, order, Followed)
    }

    /** All contacts, each once, the followed ones first: a permutation of
      the map's values. */
    function GetAllContacts(): (r: seq<Contact>)
      reads this
      requires Valid()
      ensures forall c :: c in r <==> c in contacts.Values
      ensures |r| == |contacts|
      ensures multiset(r) == multiset(Listed(contacts, order))
      ensures OncePerKey(r)
      ensures forall i, j :: 0 <= i < j < |r| && r[j].isFollowing ==> r[i].isFollowing
    {
      AllContactsPermutation(contacts, order);
      Select(contacts, order, Followed) + Select(contacts, order, NotFollowed)
    }

    method Clear()
      modifies this
      ensures Valid()
      ensures contacts == map[] && order == [] && followList == {}
    {
      contacts := map[];
      order := [];
      followList := {};
    }
  }
}
