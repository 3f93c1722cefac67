/** src/lib/storage.ts: the local receipt, image, settings and audit stores.
    Each IndexedDB object store becomes a field of the manager: receipts and
    images are keyed by id, settings is the single `app_settings` record,
    and the audit log is kept in the order entries were added. */
module Storage {
  import opened Common
  import opened Models
  import opened StoreCommon
  import Events
  import Rounding

  datatype SyncStatus = Local | Published | Failed

  /** A receipt with its local metadata. */
  datatype StoredReceipt = StoredReceipt(receipt: Receipt, imageBlob: Option<seq<byte>>, syncStatus: SyncStatus)

  datatype AuditAction = Create | Update | MarkPaid | Publish

  /** The `details` record of each kind of audit entry the app writes. */
  datatype AuditDetails =
    | CreateDetails(totalFiat: real, currency: string, totalSats: int, participantCount: int, flow: Flow)
    | PublishDetails(relayResults: seq<Events.RelayResult>)
    | PaymentDetails(pubkey: string, oldPaidSats: int, newPaidSats: int, payMethod: Events.PaymentMethod)
    | PaidReplyDetails(pubkey: string, paidSats: int, payMethod: Events.PaymentMethod)

  datatype AuditLogEntry = AuditLogEntry(
    id: string,
    timestamp: int,
    action: AuditAction,
    receiptId: string,
    eventId: Option<string>,
    details: AuditDetails)

  function CreatedAt(s: StoredReceipt): int { s.receipt.createdAt }

  function Timestamp(e: AuditLogEntry): int { e.timestamp }

  /** `getAuditLog`'s selection: every entry when the id is absent or
      empty, else the entries of that receipt, in log order. */
  function AuditFilter(log: seq<AuditLogEntry>, receiptId: Option<string>): seq<AuditLogEntry>
  {
    Filter(log, (e: AuditLogEntry) => Selected(e, receiptId))
  }

  /** The entry belongs to the selection: no id, an empty id, or its own receipt's id. */
  predicate Selected(e: AuditLogEntry, receiptId: Option<string>)
  {
    !Truthy(receiptId) || e.receiptId == receiptId.value
  }

  /** The status rule of `updateParticipantPayment`: `paid` once the share
      is reached, `partial` for any positive amount below it, else `pending`. */
  function StoredStatus(paidSats: int, shareSats: int): (s: PaymentStatus)
    ensures s != Overpaid
    ensures s == Paid <==> paidSats >= shareSats
    ensures s == Partial <==> shareSats > paidSats > 0
    ensures s == Pending <==> paidSats < shareSats && paidSats <= 0
  {
    if paidSats >= shareSats then Paid
    else if paidSats > 0 then Partial
    else Pending
  }

  /** For a positive share and an amount between nothing and the share, the
      storage rule and the rounding module's rule agree. */
  lemma StoredStatusAgreesWithRounding(p: Participant, paidSats: int)
    requires p.shareSats > 0 && 0 <= paidSats <= p.shareSats
    ensures StoredStatus(paidSats, p.shareSats) == Rounding.CalculatePaymentStatus(p.(paidSats := paidSats))
  {
  }

  /** They part ways above the share (the storage rule never says
      `overpaid`) and for a zero share with nothing paid (the storage rule
      says `paid`). */
  lemma StoredStatusDiverges(p: Participant)
    ensures p.shareSats >= 0 && p.paidSats > p.shareSats ==>
      StoredStatus(p.paidSats, p.shareSats) == Paid && Rounding.CalculatePaymentStatus(p) == Overpaid
    ensures p.shareSats == 0 && p.paidSats == 0 ==>
      StoredStatus(p.paidSats, p.shareSats) == Paid && Rounding.CalculatePaymentStatus(p) == Pending
  {
  }

  /** The index of the first participant with this pubkey (`Array.find`). */
  function FindParticipant(ps: seq<Participant>, pubkey: string): (r: Option<nat>)
    ensures r.Some? ==> r.value < |ps| && ps[r.value].pubkey == pubkey
                        && forall j :: 0 <= j < r.value ==> ps[j].pubkey != pubkey
    ensures r.None? ==> forall j :: 0 <= j < |ps| ==> ps[j].pubkey != pubkey
  {
    if ps == [] then None
    else if ps[0].pubkey == pubkey then Some(0)
    else
      var rest := FindParticipant(ps[1..], pubkey);
      if rest.Some? then Some(rest.value + 1) else None
  }

  /** The receipt with participant `k` paid `paidSats` and re-statused. */
  function WithPayment(s: StoredReceipt, k: nat, paidSats: int): (r: StoredReceipt)
    requires k < |s.receipt.participants|
    ensures r.syncStatus == s.syncStatus && r.imageBlob == s.imageBlob
    ensures r.receipt == s.receipt.(participants := r.receipt.participants)
    ensures |r.receipt.participants| == |s.receipt.participants|
    ensures forall j :: 0 <= j < |r.receipt.participants| && j != k ==> r.receipt.participants[j] == s.receipt.participants[j]
    ensures r.receipt.participants[k].pubkey == s.receipt.participants[k].pubkey
    ensures r.receipt.participants[k].shareSats == s.receipt.participants[k].shareSats
    ensures r.receipt.participants[k].paidSats == paidSats
    ensures r.receipt.participants[k].status == StoredStatus(paidSats, s.receipt.participants[k].shareSats)
  {
    var p := s.receipt.participants[k];
    var q := p.(paidSats := paidSats, status := StoredStatus(paidSats, p.shareSats));
    s.(receipt := s.receipt.(participants := s.receipt.participants[k := q]))
  }

  /** What the receipt listing has gathered once the ids in `keys` are
      left: each record whose id is done is in `rs` exactly once, nothing
      else is, and `rs` is newest first. */
  ghost predicate Collected(m: map<string, StoredReceipt>, keys: set<string>, rs: seq<StoredReceipt>)
  {
    keys <= m.Keys &&
    |rs| + |keys| == |m| &&
    (forall s :: s in rs ==> s in m.Values) &&
    (forall id :: id in m && id !in keys ==> m[id] in rs) &&
    SortedDesc(rs, CreatedAt)
  }

  /** Inserting the record of one more id keeps the listing collected. */
  lemma CollectStep(m: map<string, StoredReceipt>, keys: set<string>, rs: seq<StoredReceipt>, id: string)
    requires Collected(m, keys, rs) && id in keys
    ensures Collected(m, keys - {id}, InsertDesc(m[id], rs, CreatedAt))
  {
    var next := InsertDesc(m[id], rs, CreatedAt);
    InsertDescSorted(m[id], rs, CreatedAt);
    forall s ensures s in next <==> s in rs || s == m[id] {
      assert s in next <==> s in multiset(next);
      assert s in rs <==> s in multiset(rs);
    }
  }

  class StorageManager {
    var receipts: map<string, StoredReceipt>
    var images: map<string, seq<byte>>
    var settings: Option<Settings>
    var auditLog: seq<AuditLogEntry>

    /** The receipts store is keyed by the receipt's own id. */
    ghost predicate Valid()
      reads this
    {
      forall id :: id in receipts ==> receipts[id].receipt.id == id
    }

    constructor()
      ensures Valid()
      ensures receipts == map[] && images == map[] && settings == None && auditLog == []
    {
      receipts := map[];
      images := map[];
      settings := None;
      auditLog := [];
    }

    /** `saveReceipt`: an upsert under the receipt's id. */
    method SaveReceipt(r: StoredReceipt)
      requires Valid()
      modifies this
      ensures Valid()
      ensures receipts == old(receipts)[r.receipt.id := r]
      ensures GetReceipt(r.receipt.id) == Some(r)
      ensures images == old(images) && settings == old(settings) && auditLog == old(auditLog)
    {
      receipts := receipts[r.receipt.id := r];
    }

    /** `getReceipt`: the last record saved under this id, if any. */
    function GetReceipt(id: string): (r: Option<StoredReceipt>)
      reads this
      ensures r.Some? <==> id in receipts
      ensures r.Some? ==> r.value == receipts[id]
    {
      if id in receipts then Some(receipts[id]) else None
    }

    /** `getAllReceipts`: every stored receipt, newest `createdAt` first. */
    method GetAllReceipts() returns (rs: seq<StoredReceipt>)
      ensures |rs| == |receipts|
      ensures forall s :: s in rs <==> s in receipts.Values
      ensures SortedDesc(rs, CreatedAt)
    {
      rs := [];
      var keys := receipts.Keys;
      while keys != {}
        invariant Collected(receipts, keys, rs)
        decreases |keys|
      {
        var id :| id in keys;
        CollectStep(receipts, keys, rs, id);
        rs := InsertDesc(receipts[id], rs, CreatedAt);
        keys := keys - {id};
      }
    }

    /** `updateReceiptStatus`: only the sync status of an existing receipt changes. */
    method UpdateReceiptStatus(id: string, status: SyncStatus) returns (r: Result<(), string>)
      requires Valid()
      modifies this
      ensures Valid()
      ensures id !in old(receipts) ==> r == Failure("Receipt " + id + " not found") && receipts == old(receipts)
      ensures id in old(receipts) ==> r.Success? && receipts == old(receipts)[id := old(receipts)[id].(syncStatus := status)]
      ensures images == old(images) && settings == old(settings) && auditLog == old(auditLog)
    {
      var receipt := GetReceipt(id);
      if receipt.None? {
        return Failure("Receipt " + id + " not found");
      }
      SaveReceipt(receipt.value.(syncStatus := status));
      r := Success(());
    }

    /** `updateReceiptEventId`: the event id and the `published` status are set together. */
    method UpdateReceiptEventId(id: string, eventId: string) returns (r: Result<(), string>)
      requires Valid()
      modifies this
      ensures Valid()
      ensures id !in old(receipts) ==> r == Failure("Receipt " + id + " not found") && receipts == old(receipts)
      ensures id in old(receipts) ==> r.Success? && receipts == old(receipts)[id :=
        old(receipts)[id].(receipt := old(receipts)[id].receipt.(noteEventId := Some(eventId)), syncStatus := Published)]
      ensures images == old(images) && settings == old(settings) && auditLog == old(auditLog)
    {
      var receipt := GetReceipt(id);
      if receipt.None? {
        return Failure("Receipt " + id + " not found");
      }
      var s := receipt.value;
      SaveReceipt(s.(receipt := s.receipt.(noteEventId := Some(eventId)), syncStatus := Published));
      r := Success(());
    }

    /** `renameReceiptImage`: the image URI becomes `rcpt_<eventId>.png`; an unknown id is ignored. */
    method RenameReceiptImage(receiptId: string, eventId: string)
      requires Valid()
      modifies this
      ensures Valid()
      ensures receiptId !in old(receipts) ==> receipts == old(receipts)
      ensures receiptId in old(receipts) ==> receipts == old(receipts)[receiptId :=
        old(receipts)[receiptId].(receipt := old(receipts)[receiptId].receipt.(imageUri := "rcpt_" + eventId + ".png"))]
      ensures images == old(images) && settings == old(settings) && auditLog == old(auditLog)
    {
      var receipt := GetReceipt(receiptId);
      if receipt.None? {
        return;
      }
      var s := receipt.value;
      SaveReceipt(s.(receipt := s.receipt.(imageUri := "rcpt_" + eventId + ".png")));
    }

    method SaveImage(id: string, blob: seq<byte>)
      modifies this
      ensures images == old(images)[id := blob]
      ensures receipts == old(receipts) && settings == old(settings) && auditLog == old(auditLog)
    {
      images := images[id := blob];
    }

    function GetImage(id: string): (r: Option<seq<byte>>)
      reads this
      ensures r.Some? <==> id in images
      ensures r.Some? ==> r.value == images[id]
    {
      if id in images then Some(images[id]) else None
    }

    method SaveSettings(s: Settings)
      modifies this
      ensures settings == Some(s)
      ensures receipts == old(receipts) && images == old(images) && auditLog == old(auditLog)
    {
      settings := Some(s);
    }

    function GetSettings(): Option<Settings>
      reads this
    {
      settings
    }

    /** `addAuditEntry`: the entry gets a fresh id and the current time and is appended. */
    method AddAuditEntry(action: AuditAction, receiptId: string, eventId: Option<string>, details: AuditDetails,
                         newId: string, now: int)
      modifies this
      ensures auditLog == old(auditLog) + [AuditLogEntry(newId, now, action, receiptId, eventId, details)]
      ensures receipts == old(receipts) && images == old(images) && settings == old(settings)
    {
      auditLog := auditLog + [AuditLogEntry(newId, now, action, receiptId, eventId, details)];
    }

    /** `getAuditLog`: the selected entries, newest timestamp first. */
    method GetAuditLog(receiptId: Option<string>) returns (es: seq<AuditLogEntry>)
      ensures multiset(es) == multiset(AuditFilter(auditLog, receiptId))
      ensures SortedDesc(es, Timestamp)
    {
      es := [];
      for i := 0 to |auditLog|
        invariant es == SortedSelection(auditLog[..i], receiptId)
      {
        assert auditLog[..i + 1][..i] == auditLog[..i];
        if Selected(auditLog[i], receiptId) {
          es := InsertDesc(auditLog[i], es, Timestamp);
        }
      }
      assert auditLog[..|auditLog|] == auditLog;
      SortedSelectionMeaning(auditLog, receiptId);
    }

    /** `updateParticipantPayment`: the first participant with this pubkey
        gets the new amount and the status rule, the receipt is saved, and
        one `mark_paid` entry with the old and new amounts is appended. */
    method UpdateParticipantPayment(receiptId: string, pubkey: string, paidSats: int, payMethod: Events.PaymentMethod,
                                    auditId: string, now: int) returns (r: Result<(), string>)
      requires Valid()
      modifies this
      ensures Valid()
      ensures receiptId !in old(receipts) ==>
        r == Failure("Receipt " + receiptId + " not found")
        && receipts == old(receipts) && auditLog == old(auditLog)
      ensures receiptId in old(receipts) && FindParticipant(old(receipts)[receiptId].receipt.participants, pubkey).None? ==>
        r == Failure("Participant " + pubkey + " not found in receipt " + receiptId)
        && receipts == old(receipts) && auditLog == old(auditLog)
      ensures receiptId in old(receipts) && FindParticipant(old(receipts)[receiptId].receipt.participants, pubkey).Some? ==>
        var s := old(receipts)[receiptId];
        var k := FindParticipant(s.receipt.participants, pubkey).value;
        r.Success?
        && receipts == old(receipts)[receiptId := WithPayment(s, k, paidSats)]
        && auditLog == old(auditLog) + [AuditLogEntry(auditId, now, MarkPaid, receiptId, None,
                                                      PaymentDetails(pubkey, s.receipt.participants[k].paidSats, paidSats, payMethod))]
      ensures images == old(images) && settings == old(settings)
    {
      var receipt := GetReceipt(receiptId);
      if receipt.None? {
        return Failure("Receipt " + receiptId + " not found");
      }
      var s := receipt.value;
      var found := FindParticipant(s.receipt.participants, pubkey);
      if found.None? {
        return Failure("Participant " + pubkey + " not found in receipt " + receiptId);
      }
      var k := found.value;
      var oldPaidSats := s.receipt.participants[k].paidSats;
      SaveReceipt(WithPayment(s, k, paidSats));
      AddAuditEntry(MarkPaid, receiptId, None, PaymentDetails(pubkey, oldPaidSats, paidSats, payMethod), auditId, now);
      r := Success(());
    }
  }

  lemma AuditFilterSnoc(log: seq<AuditLogEntry>, e: AuditLogEntry, receiptId: Option<string>)
    ensures AuditFilter(log + [e], receiptId)
         == AuditFilter(log, receiptId) + (if Selected(e, receiptId) then [e] else [])
  {
    FilterAppend(log, [e], (x: AuditLogEntry) => Selected(x, receiptId));
    assert [e][1..] == [];
  }

  /** The selection as getAuditLog builds it: each selected entry, in log
      order, inserted in front of the first older one. */
  function SortedSelection(log: seq<AuditLogEntry>, receiptId: Option<string>): seq<AuditLogEntry>
  {
    if log == [] then []
    else
      var e := log[|log| - 1];
      var prev := SortedSelection(log[..|log| - 1], receiptId);
      if Selected(e, receiptId) then InsertDesc(e, prev, Timestamp) else prev
  }

  /** That selection holds the selected entries, newest first. */
  lemma {:induction false} SortedSelectionMeaning(log: seq<AuditLogEntry>, receiptId: Option<string>)
    ensures multiset(SortedSelection(log, receiptId)) == multiset(AuditFilter(log, receiptId))
    ensures SortedDesc(SortedSelection(log, receiptId), Timestamp)
  {
    if log != [] {
      var front, e := log[..|log| - 1], log[|log| - 1];
      assert log == front + [e];
      SortedSelectionMeaning(front, receiptId);
      AuditFilterSnoc(front, e, receiptId);
      if Selected(e, receiptId) {
        InsertDescSorted(e, SortedSelection(front, receiptId), Timestamp);
      }
    }
  }

  /** Adding an entry never edits the log: the old log is a prefix of the new one. */
  lemma AuditAppendOnly(log: seq<AuditLogEntry>, e: AuditLogEntry, receiptId: Option<string>)
    ensures (log + [e])[..|log|] == log
    ensures Selected(e, receiptId) ==>
      multiset(AuditFilter(log + [e], receiptId)) == multiset(AuditFilter(log, receiptId)) + multiset{e}
    ensures !Selected(e, receiptId) ==>
      AuditFilter(log + [e], receiptId) == AuditFilter(log, receiptId)
  {
    AuditFilterSnoc(log, e, receiptId);
  }
}
