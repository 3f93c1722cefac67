/** src/features/contacts/store.ts: the contact list the screens show, with
    its loading flag and last error. Each action awaits the storage service
    (foreign: what each call resolves to, or throws, is an input) and then
    installs the new list or records the error. A contact is identified by
    its pubkey. */
module ContactsFeature {
  import opened Common
  import opened StoreCommon
  import Contacts

  type Contact = Contacts.Contact

  /** The fields a `Partial<Contact>` carries; None is an absent key. */
  datatype ContactPatch = ContactPatch(
    pubkey: Option<string>,
    name: Option<string>,
    displayName: Option<string>,
    picture: Option<string>,
    nip05: Option<string>,
    about: Option<string>,
    isFollowing: Option<bool>,
    lastSeen: Option<int>,
    addedManually: Option<bool>)

  const NoChanges: ContactPatch := ContactPatch(None, None, None, None, None, None, None, None, None)

  function Present(v: Option<string>): Option<Option<string>>
  {
    if v.Some? then Some(v) else None
  }

  /** `{ ...c, ...updates }`. */
  function MergeContact(c: Contact, u: ContactPatch): Contact
  {
    var p := c.profile;
    Contacts.Contact(
      p.(pubkey := Over(p.pubkey, u.pubkey), name := Over(p.name, Present(u.name)),
         displayName := Over(p.displayName, Present(u.displayName)), picture := Over(p.picture, Present(u.picture)),
         nip05 := Over(p.nip05, Present(u.nip05)), about := Over(p.about, Present(u.about))),
      Over(c.isFollowing, u.isFollowing), Over(c.lastSeen, u.lastSeen), Over(c.addedManually, u.addedManually))
  }

  /** An empty patch changes nothing, a patch applied twice is applied
      once, and a patch without a pubkey keeps the contact's pubkey. */
  lemma MergeContactLaws(c: Contact, u: ContactPatch)
    ensures MergeContact(c, NoChanges) == c
    ensures MergeContact(MergeContact(c, u), u) == MergeContact(c, u)
    ensures u.pubkey.None? ==> MergeContact(c, u).profile.pubkey == c.profile.pubkey
  {
  }

  function PubkeyOf(c: Contact): string
  {
    c.profile.pubkey
  }

  /** `contacts.map(c => c.pubkey === pubkey ? { ...c, ...updates } : c)`. */
  function UpdatedContacts(cs: seq<Contact>, pubkey: string, u: ContactPatch): seq<Contact>
  {
    MapWhere(cs, (c: Contact) => PubkeyOf(c) == pubkey, (c: Contact) => MergeContact(c, u))
  }

  /** `contacts.filter(c => c.pubkey !== pubkey)`. */
  function WithoutContact(cs: seq<Contact>, pubkey: string): seq<Contact>
  {
    Filter(cs, (c: Contact) => PubkeyOf(c) != pubkey)
  }

  /** How many entries carry the pubkey. */
  function CountOf(cs: seq<Contact>, pubkey: string): (n: nat)
    ensures n <= |cs|
    ensures n == 0 <==> forall i :: 0 <= i < |cs| ==> PubkeyOf(cs[i]) != pubkey
  {
    if cs == [] then 0 else (if PubkeyOf(cs[0]) == pubkey then 1 else 0) + CountOf(cs[1..], pubkey)
  }

  lemma {:induction false} CountOfAppend(a: seq<Contact>, b: seq<Contact>, pubkey: string)
    ensures CountOf(a + b, pubkey) == CountOf(a, pubkey) + CountOf(b, pubkey)
  {
    if a == [] {
      assert a + b == b;
    } else {
      assert (a + b)[1..] == a[1..] + b;
      CountOfAppend(a[1..], b, pubkey);
    }
  }

  /** Adding does not look for an existing entry: the list grows by one
      entry of the pubkey even when it already holds one. */
  lemma AddKeepsDuplicates(cs: seq<Contact>, contact: Contact)
    ensures CountOf(cs + [contact], PubkeyOf(contact)) == CountOf(cs, PubkeyOf(contact)) + 1
    ensures (exists i :: 0 <= i < |cs| && PubkeyOf(cs[i]) == PubkeyOf(contact)) ==>
              CountOf(cs + [contact], PubkeyOf(contact)) >= 2
  {
    CountOfAppend(cs, [contact], PubkeyOf(contact));
    assert CountOf([contact], PubkeyOf(contact)) == 1 by {
      assert [contact][1..] == [];
    }
  }

  /** An update keeps the list's length and order, merges into exactly the
      entries with the pubkey and leaves the others as they were. */
  lemma UpdateTouchesOnlyMatching(cs: seq<Contact>, pubkey: string, u: ContactPatch)
    ensures |UpdatedContacts(cs, pubkey, u)| == |cs|
    ensures forall i :: 0 <= i < |cs| ==>
              UpdatedContacts(cs, pubkey, u)[i] == if PubkeyOf(cs[i]) == pubkey then MergeContact(cs[i], u) else cs[i]
  {
  }

  /** A delete removes every entry of the pubkey, duplicates included,
      keeps the others in order, and undoes an add of a new pubkey. */
  lemma {:induction false} DeleteRemovesAll(cs: seq<Contact>, pubkey: string)
    ensures CountOf(WithoutContact(cs, pubkey), pubkey) == 0
    ensures forall c :: c in WithoutContact(cs, pubkey) <==> c in cs && PubkeyOf(c) != pubkey
    ensures CountOf(cs, pubkey) == 0 ==> WithoutContact(cs, pubkey) == cs
  {
    var w := WithoutContact(cs, pubkey);
    forall i | 0 <= i < |w| ensures PubkeyOf(w[i]) != pubkey {
      assert w[i] in w;
    }
    if CountOf(cs, pubkey) == 0 {
      FilterKeepsAll(cs, (c: Contact) => PubkeyOf(c) != pubkey);
    }
  }

  lemma AddThenDelete(cs: seq<Contact>, contact: Contact)
    requires CountOf(cs, PubkeyOf(contact)) == 0
    ensures WithoutContact(cs + [contact], PubkeyOf(contact)) == cs
  {
    var keep := (c: Contact) => PubkeyOf(c) != PubkeyOf(contact);
    FilterAppend(cs, [contact], keep);
    DeleteRemovesAll(cs, PubkeyOf(contact));
    assert Filter([contact], keep) == [] by {
      assert [contact][1..] == [];
    }
  }

  class ContactStore {
    var contacts: seq<Contact>
    var loading: bool
    var error: Option<string>

    constructor()
      ensures contacts == [] && !loading && error == None
    {
      contacts := [];
      loading := false;
      error := None;
    }

    /** `loadContacts`: `fetched` is what getAllContacts resolved to. The
        list is replaced on success and kept on failure, where the error is
        recorded and not rethrown. */
    method LoadContacts(fetched: Result<seq<Contact>, Thrown>)
      modifies this
      ensures !loading
      ensures fetched.Success? ==> contacts == fetched.value && error == None
      ensures fetched.Failure? ==> contacts == old(contacts) &&
                                   error == Some(ErrorMessage(fetched.error, "Failed to load contacts"))
    {
      loading, error := true, None;
      if fetched.Success? {
        contacts, loading := fetched.value, false;
      } else {
        error, loading := Some(ErrorMessage(fetched.error, "Failed to load contacts")), false;
      }
    }

    /** `addContact`: after a successful save the contact is appended; a
        failure is recorded and rethrown. */
    method AddContact(contact: Contact, saved: Result<(), Thrown>) returns (r: Result<(), Thrown>)
      modifies this
      ensures r == saved && !loading
      ensures r.Success? ==> contacts == old(contacts) + [contact] && error == None
      ensures r.Failure? ==> contacts == old(contacts) &&
                             error == Some(ErrorMessage(r.error, "Failed to add contact"))
    {
      loading, error := true, None;
      r := saved;
      if r.Success? {
        contacts, loading := contacts + [contact], false;
      } else {
        error, loading := Some(ErrorMessage(r.error, "Failed to add contact")), false;
      }
    }

    /** `updateContact`: after a successful storage update the patch is
        merged into the entries with the pubkey; a failure is recorded and
        rethrown. */
    method UpdateContact(pubkey: string, updates: ContactPatch, saved: Result<(), Thrown>) returns (r: Result<(), Thrown>)
      modifies this
      ensures r == saved && !loading
      ensures r.Success? ==> contacts == UpdatedContacts(old(contacts), pubkey, updates) && error == None
      ensures r.Failure? ==> contacts == old(contacts) &&
                             error == Some(ErrorMessage(r.error, "Failed to update contact"))
    {
      loading, error := true, None;
      r := saved;
      if r.Success? {
        contacts, loading := UpdatedContacts(contacts, pubkey, updates), false;
      } else {
        error, loading := Some(ErrorMessage(r.error, "Failed to update contact")), false;
      }
    }

    /** `deleteContact`: after a successful storage delete the entries
        with the pubkey are dropped; a failure is recorded and rethrown. */
    method DeleteContact(pubkey: string, deleted: Result<(), Thrown>) returns (r: Result<(), Thrown>)
      modifies this
      ensures r == deleted && !loading
      ensures r.Success? ==> contacts == WithoutContact(old(contacts), pubkey) && error == None
      ensures r.Failure? ==> contacts == old(contacts) &&
                             error == Some(ErrorMessage(r.error, "Failed to delete contact"))
    {
      loading, error := true, None;
      r := deleted;
      if r.Success? {
        contacts, loading := WithoutContact(contacts, pubkey), false;
      } else {
        error, loading := Some(ErrorMessage(r.error, "Failed to delete contact")), false;
      }
    }
  }
}
