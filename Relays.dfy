/** src/lib/relays.ts: the relay registry. The working list starts from the
    saved settings or the defaults, may be extended from the user's NIP-65
    relay list (kind 10002, `r` tags), and is edited in place. Each relay's
    answer to the relay-list query is an input. */
module Relays {
  import opened Common
  import opened Models
  import opened StoreCommon
  import Storage

  const MaxRelays: nat := 10

  const DefaultRelays: seq<Relay> := [
    Relay("wss://relay.damus.io", true, true),
    Relay("wss://nos.lol", true, true),
    Relay("wss://relay.nostr.band", true, true),
    Relay("wss://nostr.wine", true, true),
    Relay("wss://relay.snort.social", true, true)
  ]

  /** The settings saveRelays starts from when none are stored. */
  const BlankSettings: Settings := Settings([], System, true, Lunch, "USD")

  function Urls(rs: seq<Relay>): (r: set<string>)
    ensures forall x :: x in r <==> exists i :: 0 <= i < |rs| && rs[i].url == x
  {
    set i | 0 <= i < |rs| :: rs[i].url
  }

  lemma UrlsAppend(xs: seq<Relay>, ys: seq<Relay>)
    ensures Urls(xs + ys) == Urls(xs) + Urls(ys)
  {
    forall x | x in Urls(xs + ys) ensures x in Urls(xs) + Urls(ys) {
      var i :| 0 <= i < |xs + ys| && (xs + ys)[i].url == x;
      if i >= |xs| {
        assert ys[i - |xs|].url == x;
      }
    }
    forall x | x in Urls(xs) ensures x in Urls(xs + ys) {
      var i :| 0 <= i < |xs| && xs[i].url == x;
      assert (xs + ys)[i].url == x;
    }
    forall x | x in Urls(ys) ensures x in Urls(xs + ys) {
      var i :| 0 <= i < |ys| && ys[i].url == x;
      assert (xs + ys)[i + |xs|].url == x;
    }
  }

  // ---------------------------------------------------------------- NIP-65 tags

  /** One `r` tag: the url is the second entry and must be non-empty; no
      marker (or an empty one) means read and write, `read` read only,
      `write` write only. */
  function ParseRelayTag(tag: seq<string>): (r: Option<Relay>)
  {
    if |tag| >= 2 && tag[0] == "r" && tag[1] != "" then
      var marker := if |tag| > 2 then tag[2] else "";
      Some(Relay(tag[1], marker == "" || marker == "read", marker == "" || marker == "write"))
    else None
  }

  /** The relays named by the `r` tags of a relay-list event, in tag order. */
  function ParseRelayTags(tags: seq<seq<string>>): (r: seq<Relay>)
    ensures |r| <= |tags|
  {
    if tags == [] then []
    else
      (match ParseRelayTag(tags[0]) case Some(x) => [x] case None => []) + ParseRelayTags(tags[1..])
  }

  lemma {:induction false} ParseRelayTagsAppend(xs: seq<seq<string>>, ys: seq<seq<string>>)
    ensures ParseRelayTags(xs + ys) == ParseRelayTags(xs) + ParseRelayTags(ys)
  {
    if xs == [] {
      assert xs + ys == ys;
    } else {
      assert (xs + ys)[1..] == xs[1..] + ys;
      ParseRelayTagsAppend(xs[1..], ys);
    }
  }

  /** The markers: none is read+write, `read` and `write` are one-way, and
      any other marker gives a relay that is neither; tags that are not `r`
      or carry no url yield nothing. */
  lemma RelayTagMarkers(url: string, other: string, name: string)
    requires url != "" && other != "" && other != "read" && other != "write"
    ensures ParseRelayTags([["r", url]]) == [Relay(url, true, true)]
    ensures ParseRelayTags([["r", url, "read"]]) == [Relay(url, true, false)]
    ensures ParseRelayTags([["r", url, "write"]]) == [Relay(url, false, true)]
    ensures ParseRelayTags([["r", url, other]]) == [Relay(url, false, false)]
    ensures name != "r" ==> ParseRelayTags([[name, url]]) == []
    ensures ParseRelayTags([["r"]]) == [] && ParseRelayTags([["r", ""]]) == []
  {
  }

  // ---------------------------------------------------------------- dedup

  /** The entry at index i is the first one with its url. */
  predicate FirstOfUrl(rs: seq<Relay>, i: nat)
    requires i < |rs|
  {
    forall k :: 0 <= k < i ==> rs[k].url != rs[i].url
  }

  /** Reference definition: keep exactly the entries that are the first with their url. */
  function KeepFirsts(rs: seq<Relay>): (r: seq<Relay>)
    ensures |r| <= |rs|
  {
    if rs == [] then []
    else KeepFirsts(rs[..|rs| - 1]) + (if FirstOfUrl(rs, |rs| - 1) then [rs[|rs| - 1]] else [])
  }

  /** KeepFirsts keeps every url and adds none. */
  lemma {:induction false} KeepFirstsUrls(rs: seq<Relay>)
    ensures Urls(KeepFirsts(rs)) == Urls(rs)
  {
    if rs != [] {
      var init := rs[..|rs| - 1];
      var last := rs[|rs| - 1];
      KeepFirstsUrls(init);
      assert Urls([last]) == {last.url} by {
        assert [last][0].url == last.url;
      }
      assert Urls(rs) == Urls(init) + {last.url} by {
        assert rs == init + [last];
        UrlsAppend(init, [last]);
      }
      if FirstOfUrl(rs, |rs| - 1) {
        assert KeepFirsts(rs) == KeepFirsts(init) + [last];
        UrlsAppend(KeepFirsts(init), [last]);
      } else {
        var k :| 0 <= k < |rs| - 1 && rs[k].url == last.url;
        assert init[k].url == last.url;
        assert last.url in Urls(init);
        assert KeepFirsts(rs) == KeepFirsts(init);
      }
    }
  }

  /** KeepFirsts keeps one entry per url. */
  lemma {:induction false} KeepFirstsDistinct(rs: seq<Relay>)
    ensures forall i, j :: 0 <= i < j < |KeepFirsts(rs)| ==> KeepFirsts(rs)[i].url != KeepFirsts(rs)[j].url
  {
    if rs != [] {
      var init := rs[..|rs| - 1];
      var last := rs[|rs| - 1];
      KeepFirstsDistinct(init);
      if FirstOfUrl(rs, |rs| - 1) {
        KeepFirstsUrls(init);
        assert last.url !in Urls(KeepFirsts(init)) by {
          forall i | 0 <= i < |init| ensures init[i].url != last.url {
            assert init[i] == rs[i];
          }
        }
        var r := KeepFirsts(rs);
        assert r == KeepFirsts(init) + [last];
        forall i | 0 <= i < |r| - 1 ensures r[i].url != last.url {
          assert r[i] == KeepFirsts(init)[i];
        }
      }
    }
  }

  /** KeepFirsts adds no entry. */
  lemma {:induction false} KeepFirstsSubset(rs: seq<Relay>)
    ensures forall x :: x in KeepFirsts(rs) ==> x in rs
  {
    if rs != [] {
      var init := rs[..|rs| - 1];
      KeepFirstsSubset(init);
      forall x | x in init ensures x in rs {
        var k :| 0 <= k < |init| && init[k] == x;
        assert rs[k] == x;
      }
    }
  }

  /** KeepFirsts keeps one entry per url, every url, and nothing new. */
  lemma KeepFirstsProperties(rs: seq<Relay>)
    ensures Urls(KeepFirsts(rs)) == Urls(rs)
    ensures forall i, j :: 0 <= i < j < |KeepFirsts(rs)| ==> KeepFirsts(rs)[i].url != KeepFirsts(rs)[j].url
    ensures forall x :: x in KeepFirsts(rs) ==> x in rs
  {
    KeepFirstsUrls(rs);
    KeepFirstsDistinct(rs);
    KeepFirstsSubset(rs);
  }

  /** `relays.filter(...)` with a `seen` set: keeps the first entry of each url, in order. */
  /** One step of the `seen`-set filter: the next entry is kept exactly
      when its url has not been seen, and its url joins the seen set. */
  lemma DedupStep(relays: seq<Relay>, i: nat, r: seq<Relay>, seen: set<string>)
    requires i < |relays| && r == KeepFirsts(relays[..i]) && seen == Urls(relays[..i])
    ensures KeepFirsts(relays[..i + 1]) == if relays[i].url in seen then r else r + [relays[i]]
    ensures Urls(relays[..i + 1]) == seen + {relays[i].url}
  {
    var pre := relays[..i + 1];
    assert pre[..i] == relays[..i];
    assert FirstOfUrl(pre, i) <==> relays[i].url !in Urls(relays[..i]) by {
      if relays[i].url in Urls(relays[..i]) {
        var k :| 0 <= k < i && relays[..i][k].url == relays[i].url;
        assert pre[k].url == pre[i].url;
      }
    }
    assert pre == relays[..i] + [relays[i]];
    UrlsAppend(relays[..i], [relays[i]]);
    assert Urls([relays[i]]) == {relays[i].url} by {
      assert [relays[i]][0].url == relays[i].url;
    }
  }

  method DeduplicateRelays(relays: seq<Relay>) returns (r: seq<Relay>)
    ensures r == KeepFirsts(relays)
  {
    var seen: set<string> := {};
    r := [];
    for i := 0 to |relays|
      invariant r == KeepFirsts(relays[..i])
      invariant seen == Urls(relays[..i])
    {
      DedupStep(relays, i, r, seen);
      if relays[i].url !in seen {
        r := r + [relays[i]];
      }
      seen := seen + {relays[i].url};
    }
    assert relays[..|relays|] == relays;
  }

  // ---------------------------------------------------------------- filters

  function IsRead(r: Relay): bool { r.read }

  function IsWrite(r: Relay): bool { r.write }

  /** `relays.filter(r => r.read)`. */
  function ReadRelays(rs: seq<Relay>): seq<Relay>
  {
    Filter(rs, IsRead)
  }

  /** `relays.filter(r => r.write)`. */
  function WriteRelays(rs: seq<Relay>): seq<Relay>
  {
    Filter(rs, IsWrite)
  }

  /** The filters work entry by entry, so they keep the list's order. */
  lemma FiltersAppend(xs: seq<Relay>, ys: seq<Relay>)
    ensures ReadRelays(xs + ys) == ReadRelays(xs) + ReadRelays(ys)
    ensures WriteRelays(xs + ys) == WriteRelays(xs) + WriteRelays(ys)
  {
    FilterAppend(xs, ys, IsRead);
    FilterAppend(xs, ys, IsWrite);
  }

  function UrlList(rs: seq<Relay>): (r: seq<string>)
    ensures |r| == |rs|
    ensures forall i :: 0 <= i < |rs| ==> r[i] == rs[i].url
  {
    seq(|rs|, i requires 0 <= i < |rs| => rs[i].url)
  }

  // ---------------------------------------------------------------- list edits

  /** Every entry whose url was not there before, in order. */
  function NewRelays(user: seq<Relay>, existing: set<string>): seq<Relay>
  {
    if user == [] then []
    else (if user[0].url in existing then [] else [user[0]]) + NewRelays(user[1..], existing)
  }

  /** The new entries are exactly the user's entries whose url was not there before. */
  lemma {:induction false} NewRelaysMembers(user: seq<Relay>, existing: set<string>)
    ensures forall x :: x in NewRelays(user, existing) <==> x in user && x.url !in existing
  {
    if user != [] {
      NewRelaysMembers(user[1..], existing);
      assert user == [user[0]] + user[1..];
    }
  }

  lemma {:induction false} NewRelaysSnoc(user: seq<Relay>, x: Relay, existing: set<string>)
    ensures NewRelays(user + [x], existing) == NewRelays(user, existing) + (if x.url in existing then [] else [x])
  {
    var tail := if x.url in existing then [] else [x];
    if user == [] {
      assert user + [x] == [x];
      assert [x][1..] == [];
    } else {
      var head := if user[0].url in existing then [] else [user[0]];
      assert (user + [x])[0] == user[0] && (user + [x])[1..] == user[1..] + [x];
      assert NewRelays(user + [x], existing) == head + NewRelays(user[1..] + [x], existing);
      NewRelaysSnoc(user[1..], x, existing);
      assert head + (NewRelays(user[1..], existing) + tail) == (head + NewRelays(user[1..], existing)) + tail;
    }
  }

  /** One more user relay: it is appended exactly when its url is new. */
  lemma MergeStep(before: seq<Relay>, user: seq<Relay>, i: nat, existing: set<string>)
    requires i < |user|
    ensures before + NewRelays(user[..i + 1], existing)
         == if user[i].url in existing then before + NewRelays(user[..i], existing)
            else before + NewRelays(user[..i], existing) + [user[i]]
  {
    var added := NewRelays(user[..i], existing);
    assert user[..i + 1] == user[..i] + [user[i]];
    NewRelaysSnoc(user[..i], user[i], existing);
    if user[i].url in existing {
      assert added + [] == added;
    } else {
      assert before + (added + [user[i]]) == before + added + [user[i]];
    }
  }

  /** The list after merging the user's relays: the absent ones are
      appended (checked against the urls present before the merge), then
      the whole list is cut to ten entries. */
  function Merged(existing: seq<Relay>, user: seq<Relay>): seq<Relay>
  {
    var all := existing + NewRelays(user, Urls(existing));
    if |all| > MaxRelays then all[..MaxRelays] else all
  }

  /** The merge keeps the existing entries as a prefix (as many as fit in
      ten), adds only relays with new urls, and never leaves more than ten. */
  lemma MergedProperties(existing: seq<Relay>, user: seq<Relay>)
    ensures |Merged(existing, user)| <= MaxRelays
    ensures var m := Merged(existing, user);
            var keep := if |existing| <= MaxRelays then |existing| else MaxRelays;
            |m| >= keep && m[..keep] == existing[..keep]
    ensures forall i :: |existing| <= i < |Merged(existing, user)| ==>
              Merged(existing, user)[i] in user && Merged(existing, user)[i].url !in Urls(existing)
  {
    var all := existing + NewRelays(user, Urls(existing));
    NewRelaysMembers(user, Urls(existing));
    forall i | |existing| <= i < |all|
      ensures all[i] in NewRelays(user, Urls(existing))
    {
      assert all[i] == NewRelays(user, Urls(existing))[i - |existing|];
    }
  }

  /** addRelay: appended when its url is absent, otherwise nothing changes. */
  function Added(rs: seq<Relay>, relay: Relay): (r: seq<Relay>)
    ensures relay.url in Urls(rs) ==> r == rs
    ensures relay.url !in Urls(rs) ==> r == rs + [relay]
  {
    if exists i :: 0 <= i < |rs| && rs[i].url == relay.url then rs else rs + [relay]
  }

  /** removeRelay: every entry with the url goes, the others stay in order. */
  function Removed(rs: seq<Relay>, url: string): (r: seq<Relay>)
    ensures url !in Urls(r)
    ensures forall x :: x in r <==> x in rs && x.url != url
  {
    if rs == [] then [] else (if rs[0].url == url then [] else [rs[0]]) + Removed(rs[1..], url)
  }

  lemma {:induction false} RemovedAppend(xs: seq<Relay>, ys: seq<Relay>, url: string)
    ensures Removed(xs + ys, url) == Removed(xs, url) + Removed(ys, url)
  {
    if xs == [] {
      assert xs + ys == ys;
    } else {
      assert (xs + ys)[1..] == xs[1..] + ys;
      RemovedAppend(xs[1..], ys, url);
    }
  }

  lemma {:induction false} RemovedAbsent(rs: seq<Relay>, url: string)
    requires url !in Urls(rs)
    ensures Removed(rs, url) == rs
  {
    if rs != [] {
      assert rs[0].url != url;
      assert url !in Urls(rs[1..]) by {
        forall i | 0 <= i < |rs[1..]| ensures rs[1..][i].url != url {
          assert rs[1..][i] == rs[i + 1];
        }
      }
      RemovedAbsent(rs[1..], url);
    }
  }

  /** A `Partial<Relay>`: the fields it sets. */
  datatype RelayPatch = RelayPatch(url: Option<string>, read: Option<bool>, write: Option<bool>)

  /** `{ ...relay, ...updates }`. */
  function Patched(r: Relay, u: RelayPatch): (p: Relay)
    ensures u.url.None? ==> p.url == r.url
    ensures u.url.Some? ==> p.url == u.url.value
    ensures u.read.None? ==> p.read == r.read
    ensures u.read.Some? ==> p.read == u.read.value
    ensures u.write.None? ==> p.write == r.write
    ensures u.write.Some? ==> p.write == u.write.value
  {
    Relay(
      match u.url case Some(x) => x case None => r.url,
      match u.read case Some(x) => x case None => r.read,
      match u.write case Some(x) => x case None => r.write)
  }

  /** `findIndex(r => r.url === url)`. */
  function FindUrl(rs: seq<Relay>, url: string): (r: Option<nat>)
    ensures r.Some? ==> r.value < |rs| && rs[r.value].url == url &&
                        forall k :: 0 <= k < r.value ==> rs[k].url != url
    ensures r.None? ==> url !in Urls(rs)
  {
    if rs == [] then None
    else if rs[0].url == url then Some(0)
    else match FindUrl(rs[1..], url)
      case None => None
      case Some(k) => Some(k + 1)
  }

  // ---------------------------------------------------------------- the manager

  /** The answer of one relay to the relay-list query: the tags of the
      kind 10002 events it sent before EOSE, or the failure (timeout,
      socket error, unparsable message). */
  type RelayListQuery = (string, string) -> Result<seq<seq<string>>, string>

  /** The relays gathered from the write relays `urls`, in order; a relay
      whose query fails contributes nothing. */
  function Gathered(urls: seq<string>, pubkey: string, query: RelayListQuery): seq<Relay>
  {
    if urls == [] then []
    else
      var init := Gathered(urls[..|urls| - 1], pubkey, query);
      match query(urls[|urls| - 1], pubkey)
      case Success(tags) => init + ParseRelayTags(tags)
      case Failure(_) => init
  }

  class RelayManager {
    var relays: seq<Relay>

    constructor()
      ensures relays == DefaultRelays
    {
      relays := DefaultRelays;
    }

    /** `getRelays` returns a copy; `getReadRelays`/`getWriteRelays` filter. */
    function GetRelays(): (r: seq<Relay>)
      reads this
      ensures r == relays
    {
      relays
    }

    function GetReadRelays(): (r: seq<Relay>)
      reads this
      ensures forall x :: x in r <==> x in relays && x.read
    {
      ReadRelays(relays)
    }

    function GetWriteRelays(): (r: seq<Relay>)
      reads this
      ensures forall x :: x in r <==> x in relays && x.write
    {
      WriteRelays(relays)
    }

    method AddRelay(relay: Relay)
      modifies this
      ensures relays == Added(old(relays), relay)
    {
      var present := false;
      for i := 0 to |relays|
        invariant present <==> exists k :: 0 <= k < i && relays[k].url == relay.url
      {
        if relays[i].url == relay.url {
          present := true;
        }
      }
      if !present {
        relays := relays + [relay];
      }
    }

    method RemoveRelay(url: string)
      modifies this
      ensures relays == Removed(old(relays), url)
    {
      relays := Removed(relays, url);
    }

    /** Patches the first entry with the url; no entry, no change. */
    method UpdateRelay(url: string, updates: RelayPatch)
      modifies this
      ensures FindUrl(old(relays), url).None? ==> relays == old(relays)
      ensures FindUrl(old(relays), url).Some? ==>
                var k := FindUrl(old(relays), url).value;
                relays == old(relays)[k := Patched(old(relays)[k], updates)]
    {
      match FindUrl(relays, url) {
        case None =>
        case Some(index) =>
          relays := relays[index := Patched(relays[index], updates)];
      }
    }

    /** Appends each user relay whose url was absent before the merge, then
      keeps at most ten entries. */
    method MergeUserRelays(userRelays: seq<Relay>)
      modifies this
      ensures relays == Merged(old(relays), userRelays)
    {
      var existingUrls := Urls(relays);
      ghost var before := relays;
      for i := 0 to |userRelays|
        invariant relays == before + NewRelays(userRelays[..i], existingUrls)
      {
        MergeStep(before, userRelays, i, existingUrls);
        if userRelays[i].url !in existingUrls {
          relays := relays + [userRelays[i]];
        }
      }
      assert userRelays[..|userRelays|] == userRelays;
      if |relays| > MaxRelays {
        relays := relays[..MaxRelays];
      }
    }

    /** Queries every write relay in turn for the user's relay list,
      skipping the ones that fail, and removes repeated urls. */
    method FetchUserRelayList(pubkey: string, query: RelayListQuery) returns (r: seq<Relay>)
      ensures r == UserRelayList(relays, pubkey, query)
    {
      var relayUrls := UrlList(WriteRelays(relays));
      var userRelays: seq<Relay> := [];
      for i := 0 to |relayUrls|
        invariant userRelays == Gathered(relayUrls[..i], pubkey, query)
      {
        assert relayUrls[..i + 1][..i] == relayUrls[..i];
        match query(relayUrls[i], pubkey) {
          case Success(tags) =>
            userRelays := userRelays + ParseRelayTags(tags);
          case Failure(_) =>
        }
      }
      assert relayUrls[..|relayUrls|] == relayUrls;
      r := DeduplicateRelays(userRelays);
    }

    /** Writes the list into the stored settings, or into blank settings. */
    method SaveRelays(store: Storage.StorageManager)
      modifies store
      ensures store.settings == Some(SettingsWith(old(store.settings), relays))
      ensures store.receipts == old(store.receipts) && store.images == old(store.images)
      ensures store.auditLog == old(store.auditLog)
    {
      store.SaveSettings(SettingsWith(store.GetSettings(), relays));
    }

    /** Starts from the saved list when it is non-empty, else the defaults;
      with a user key, merges and saves the fetched list when it is non-empty. */
    method Initialize(store: Storage.StorageManager, userPubkey: Option<string>, query: RelayListQuery)
      modifies this, store
      ensures !Truthy(userPubkey) || |UserRelayList(StartingRelays(old(store.settings)), userPubkey.value, query)| == 0 ==>
                relays == StartingRelays(old(store.settings)) && store.settings == old(store.settings)
      ensures Truthy(userPubkey) && |UserRelayList(StartingRelays(old(store.settings)), userPubkey.value, query)| > 0 ==>
                relays == Merged(StartingRelays(old(store.settings)),
                                 UserRelayList(StartingRelays(old(store.settings)), userPubkey.value, query)) &&
                store.settings == Some(SettingsWith(old(store.settings), relays))
      ensures store.receipts == old(store.receipts) && store.images == old(store.images)
      ensures store.auditLog == old(store.auditLog)
    {
      var settings := store.GetSettings();
      relays := StartingRelays(settings);
      if Truthy(userPubkey) {
        var userRelays := FetchUserRelayList(userPubkey.value, query);
        if |userRelays| > 0 {
          MergeUserRelays(userRelays);
          SaveRelays(store);
        }
      }
    }
  }

  /** What fetchUserRelayList returns for the working list `current`. */
  function UserRelayList(current: seq<Relay>, pubkey: string, query: RelayListQuery): seq<Relay>
  {
    KeepFirsts(Gathered(UrlList(WriteRelays(current)), pubkey, query))
  }

  /** The stored settings (or blank ones) with the relay list replaced. */
  function SettingsWith(stored: Option<Settings>, relays: seq<Relay>): (r: Settings)
    ensures r.relays == relays
    ensures stored.Some? ==> r == stored.value.(relays := relays)
    ensures stored.None? ==> r.theme == System && r.biometricEnabled && r.defaultMealType == Lunch && r.defaultCurrency == "USD"
  {
    (match stored case Some(s) => s case None => BlankSettings).(relays := relays)
  }

  /** The saved list when there is a non-empty one, else the defaults. */
  function StartingRelays(settings: Option<Settings>): (r: seq<Relay>)
    ensures settings.Some? && |settings.value.relays| > 0 ==> r == settings.value.relays
    ensures !(settings.Some? && |settings.value.relays| > 0) ==> r == DefaultRelays
  {
    if settings.Some? && |settings.value.relays| > 0 then settings.value.relays else DefaultRelays
  }
}
