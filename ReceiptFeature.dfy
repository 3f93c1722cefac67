/** src/features/receipt/store.ts: the receipt list the screens show, with
    its loading flag and last error. Every action sets `loading` and clears
    `error`, awaits the storage service, and then either installs the new
    list or records the error; the service is foreign, so what each of its
    calls resolves to, or throws, is an input. */
module ReceiptFeature {
  import opened Common
  import opened Models
  import opened StoreCommon

  /** The fields a `Partial<Receipt>` carries; None is an absent key. */
  datatype ReceiptPatch = ReceiptPatch(
    id: Option<string>,
    createdAt: Option<int>,
    imageUri: Option<string>,
    rhash: Option<string>,
    amountFiat: Option<real>,
    currency: Option<string>,
    amountSats: Option<int>,
    fxRate: Option<int>,
    fxSource: Option<string>,
    fxTimestamp: Option<int>,
    mealType: Option<MealType>,
    participants: Option<seq<Participant>>,
    splitJson: Option<string>,
    flow: Option<Flow>,
    noteEventId: Option<string>)

  const NoChanges: ReceiptPatch :=
    ReceiptPatch(None, None, None, None, None, None, None, None, None, None, None, None, None, None, None)

  /** `{ ...r, ...updates }`. */
  function MergeReceipt(r: Receipt, u: ReceiptPatch): Receipt
  {
    Receipt(Over(r.id, u.id), Over(r.createdAt, u.createdAt), Over(r.imageUri, u.imageUri), Over(r.rhash, u.rhash),
            Over(r.amountFiat, u.amountFiat), Over(r.currency, u.currency), Over(r.amountSats, u.amountSats),
            Over(r.fxRate, u.fxRate), Over(r.fxSource, u.fxSource), Over(r.fxTimestamp, u.fxTimestamp),
            Over(r.mealType, u.mealType), Over(r.participants, u.participants), Over(r.splitJson, u.splitJson),
            Over(r.flow, u.flow), if u.noteEventId.Some? then u.noteEventId else r.noteEventId)
  }

  /** An empty patch changes nothing, a patch applied twice is applied
      once, and a patch without an id keeps the receipt's id. */
  lemma MergeReceiptLaws(r: Receipt, u: ReceiptPatch)
    ensures MergeReceipt(r, NoChanges) == r
    ensures MergeReceipt(MergeReceipt(r, u), u) == MergeReceipt(r, u)
    ensures u.id.None? ==> MergeReceipt(r, u).id == r.id
    ensures u.participants.None? ==> MergeReceipt(r, u).participants == r.participants
  {
  }

  /** `receipts.map(r => r.id === id ? { ...r, ...updates } : r)`. */
  function UpdatedReceipts(rs: seq<Receipt>, id: string, u: ReceiptPatch): seq<Receipt>
  {
    MapWhere(rs, (r: Receipt) => r.id == id, (r: Receipt) => MergeReceipt(r, u))
  }

  /** `receipts.filter(r => r.id !== id)`. */
  function WithoutReceipt(rs: seq<Receipt>, id: string): seq<Receipt>
  {
    Filter(rs, (r: Receipt) => r.id != id)
  }

  /** An update keeps the list's length and order, merges into exactly the
      receipts with the id and leaves every other receipt as it was. */
  lemma UpdateTouchesOnlyMatching(rs: seq<Receipt>, id: string, u: ReceiptPatch)
    ensures |UpdatedReceipts(rs, id, u)| == |rs|
    ensures forall i :: 0 <= i < |rs| ==>
              UpdatedReceipts(rs, id, u)[i] == if rs[i].id == id then MergeReceipt(rs[i], u) else rs[i]
    ensures (forall i :: 0 <= i < |rs| ==> rs[i].id != id) ==> UpdatedReceipts(rs, id, u) == rs
  {
  }

  /** A delete removes exactly the receipts with the id, keeps the others
      in their order (it distributes over concatenation), and changes
      nothing when no receipt has the id. */
  lemma DeleteRemovesExactly(a: seq<Receipt>, b: seq<Receipt>, id: string)
    ensures forall r :: r in WithoutReceipt(a, id) <==> r in a && r.id != id
    ensures WithoutReceipt(a + b, id) == WithoutReceipt(a, id) + WithoutReceipt(b, id)
    ensures (forall i :: 0 <= i < |a| ==> a[i].id != id) ==> WithoutReceipt(a, id) == a
  {
    FilterAppend(a, b, (r: Receipt) => r.id != id);
    if forall i :: 0 <= i < |a| ==> a[i].id != id {
      FilterKeepsAll(a, (r: Receipt) => r.id != id);
    }
  }

  /** Adding a receipt whose id is new and then deleting that id gives the
      list back. */
  lemma AddThenDelete(rs: seq<Receipt>, receipt: Receipt)
    requires forall i :: 0 <= i < |rs| ==> rs[i].id != receipt.id
    ensures WithoutReceipt([receipt] + rs, receipt.id) == rs
  {
    DeleteRemovesExactly([receipt] + rs, [], receipt.id);
    DeleteRemovesExactly([receipt], rs, receipt.id);
    DeleteRemovesExactly(rs, [], receipt.id);
    assert WithoutReceipt([receipt], receipt.id) == [];
  }

  class ReceiptStore {
    var receipts: seq<Receipt>
    var loading: bool
    var error: Option<string>

    constructor()
      ensures receipts == [] && !loading && error == None
    {
      receipts := [];
      loading := false;
      error := None;
    }

    /** `loadReceipts`: `fetched` is what getAllReceipts resolved to. The
        list is replaced on success and kept on failure, where the error
        is recorded and not rethrown. */
    method LoadReceipts(fetched: Result<seq<Receipt>, Thrown>)
      modifies this
      ensures !loading
      ensures fetched.Success? ==> receipts == fetched.value && error == None
      ensures fetched.Failure? ==> receipts == old(receipts) &&
                                   error == Some(ErrorMessage(fetched.error, "Failed to load receipts"))
    {
      loading, error := true, None;
      if fetched.Success? {
        receipts, loading := fetched.value, false;
      } else {
        error, loading := Some(ErrorMessage(fetched.error, "Failed to load receipts")), false;
      }
    }

    /** `addReceipt`: after a successful save the receipt goes in front; a
        failed save leaves the list, records the error and is rethrown. */
    method AddReceipt(receipt: Receipt, saved: Result<(), Thrown>) returns (r: Result<(), Thrown>)
      modifies this
      ensures r == saved && !loading
      ensures r.Success? ==> receipts == [receipt] + old(receipts) && error == None
      ensures r.Failure? ==> receipts == old(receipts) &&
                             error == Some(ErrorMessage(r.error, "Failed to add receipt"))
    {
      loading, error := true, None;
      r := saved;
      if r.Success? {
        receipts, loading := [receipt] + receipts, false;
      } else {
        error, loading := Some(ErrorMessage(r.error, "Failed to add receipt")), false;
      }
    }

    /** `updateReceipt`: after a successful storage update the patch is
        merged into the receipts with the id; a failure is recorded and
        rethrown. */
    method UpdateReceipt(id: string, updates: ReceiptPatch, saved: Result<(), Thrown>) returns (r: Result<(), Thrown>)
      modifies this
      ensures r == saved && !loading
      ensures r.Success? ==> receipts == UpdatedReceipts(old(receipts), id, updates) && error == None
      ensures r.Failure? ==> receipts == old(receipts) &&
                             error == Some(ErrorMessage(r.error, "Failed to update receipt"))
    {
      loading, error := true, None;
      r := saved;
      if r.Success? {
        receipts, loading := UpdatedReceipts(receipts, id, updates), false;
      } else {
        error, loading := Some(ErrorMessage(r.error, "Failed to update receipt")), false;
      }
    }

    /** `deleteReceipt`: after a successful storage delete the receipts
        with the id are dropped; a failure is recorded and rethrown. */
    method DeleteReceipt(id: string, deleted: Result<(), Thrown>) returns (r: Result<(), Thrown>)
      modifies this
      ensures r == deleted && !loading
      ensures r.Success? ==> receipts == WithoutReceipt(old(receipts), id) && error == None
      ensures r.Failure? ==> receipts == old(receipts) &&
                             error == Some(ErrorMessage(r.error, "Failed to delete receipt"))
    {
      loading, error := true, None;
      r := deleted;
      if r.Success? {
        receipts, loading := WithoutReceipt(receipts, id), false;
      } else {
        error, loading := Some(ErrorMessage(r.error, "Failed to delete receipt")), false;
      }
    }

    /** `searchReceipts`: `search` is the storage service's search; its
        answer replaces the list, and a failure is recorded, not rethrown. */
    method SearchReceipts(query: string, status: Option<string>,
                          search: (string, Option<string>) -> Result<seq<Receipt>, Thrown>)
      modifies this
      ensures !loading
      ensures search(query, status).Success? ==> receipts == search(query, status).value && error == None
      ensures search(query, status).Failure? ==>
                receipts == old(receipts) &&
                error == Some(ErrorMessage(search(query, status).error, "Failed to search receipts"))
    {
      loading, error := true, None;
      var found := search(query, status);
      if found.Success? {
        receipts, loading := found.value, false;
      } else {
        error, loading := Some(ErrorMessage(found.error, "Failed to search receipts")), false;
      }
    }
  }
}
