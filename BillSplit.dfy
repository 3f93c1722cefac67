/** src/lib/billSplit.ts: the bill-split orchestration. A request takes the
    FX rate, converts the total, saves the receipt locally with a `create`
    audit entry, signs a payment-request note with the decrypted key,
    publishes it to the write relays and records the outcome; a payment is
    recorded locally and answered with a signed reply. The equal-split and
    validation helpers are pure.

    The clock, the random UUIDs, the price sources, key decryption, hex
    parsing, signing, NIP-04 encryption, JSON rendering and the relays'
    answers are inputs (`Draws`, `Services`). */
module BillSplit {
  import opened Common
  import opened Models
  import Rounding
  import Fx
  import Events
  import Storage
  import Relays
  import Contacts
  import Ids

  // ---------------------------------------------------------------- split arithmetic

  /** JavaScript `%` for a positive divisor: the sign follows the dividend. */
  function JsRem(a: int, n: int): (r: int)
    requires n > 0
    ensures a >= 0 ==> r == a % n && 0 <= r < n
    ensures a < 0 ==> -n < r <= 0
  {
    if a >= 0 then a % n else -((-a) % n)
  }

  /** `n` shares of `base`, the first `extra` of them one higher. */
  function Bumped(base: int, extra: int, n: nat): (r: seq<int>)
    ensures |r| == n
    ensures forall i :: 0 <= i < n ==> r[i] == base + (if i < extra then 1 else 0)
  {
    if n == 0 then [] else Bumped(base, extra, n - 1) + [base + (if n - 1 < extra then 1 else 0)]
  }

  lemma {:induction false} BumpedSum(base: int, extra: int, n: nat)
    requires 0 <= extra <= n
    ensures Sum(Bumped(base, extra, n)) == n * base + extra
  {
    if n > 0 {
      if extra == n {
        SumConstant(Bumped(base, extra, n), base + 1);
        assert n * (base + 1) == n * base + n;
      } else {
        BumpedSum(base, extra, n - 1);
        SumAppend(Bumped(base, extra, n - 1), [base]);
        assert Sum([base]) == base;
        assert (n - 1) * base + base == n * base;
      }
    }
  }

  /** The shares calculateEqualSplit returns, as a value. */
  function EqualShares(totalSats: int, n: nat): (r: seq<int>)
    ensures |r| == n
  {
    if n == 0 then [] else Bumped(totalSats / n, JsRem(totalSats, n), n)
  }

  /** `calculateEqualSplit`: every share is `floor(total / n)`, and the first
      `total % n` (JavaScript remainder) get one more, so a non-negative
      total is shared out exactly; a negative total that does not divide
      leaves every share at the floor and the sum below the total. */
  method CalculateEqualSplit(totalSats: int, participantCount: nat) returns (shares: seq<int>)
    ensures shares == EqualShares(totalSats, participantCount)
    ensures |shares| == participantCount
    ensures forall i :: 0 <= i < |shares| ==>
      shares[i] == totalSats / participantCount + (if i < JsRem(totalSats, participantCount) then 1 else 0)
    ensures totalSats >= 0 && participantCount > 0 ==> Sum(shares) == totalSats
    ensures totalSats < 0 && participantCount > 0 && totalSats % participantCount != 0 ==>
      Sum(shares) == participantCount * (totalSats / participantCount) < totalSats
  {
    if participantCount == 0 {
      return [];
    }
    var n := participantCount;
    var base := totalSats / n;
    var remainder := JsRem(totalSats, n);
    var a := new int[n](_ => base);
    var i := 0;
    while i < remainder
      invariant 0 <= i <= n
      invariant remainder > 0 ==> i <= remainder
      invariant remainder <= 0 ==> i == 0
      invariant forall j :: 0 <= j < n ==> a[j] == base + (if j < i then 1 else 0)
    {
      a[i] := a[i] + 1;
      i := i + 1;
    }
    shares := a[..];
    assert forall j :: 0 <= j < n ==> shares[j] == Bumped(base, remainder, n)[j];
    assert shares == Bumped(base, remainder, n);
    EqualSharesMeaning(totalSats, n);
  }

  /** The shares of an equal split one by one, and their sum: exactly the
      total when it is not negative, `n * floor(total / n)` otherwise, which
      falls short of a negative total that `n` does not divide. */
  lemma EqualSharesMeaning(totalSats: int, n: nat)
    requires n > 0
    ensures forall i :: 0 <= i < n ==>
      EqualShares(totalSats, n)[i] == totalSats / n + (if i < JsRem(totalSats, n) then 1 else 0)
    ensures totalSats >= 0 ==> Sum(EqualShares(totalSats, n)) == totalSats
    ensures totalSats < 0 ==> Sum(EqualShares(totalSats, n)) == n * (totalSats / n)
    ensures totalSats < 0 && totalSats % n != 0 ==> n * (totalSats / n) < totalSats
  {
    EqualSharesTotal(totalSats, n);
    Rounding.DivMod(totalSats, n);
  }

  /** The sum of an equal split: exactly the total when it is not negative,
      `n * floor(total / n)` otherwise. */
  lemma EqualSharesTotal(totalSats: int, n: nat)
    requires n > 0
    ensures totalSats >= 0 ==> Sum(EqualShares(totalSats, n)) == totalSats
    ensures totalSats < 0 ==> Sum(EqualShares(totalSats, n)) == n * (totalSats / n)
  {
    var base := totalSats / n;
    var extra := JsRem(totalSats, n);
    if totalSats >= 0 {
      BumpedSum(base, extra, n);
    } else {
      SumConstant(Bumped(base, extra, n), base);
    }
  }

  /** `validateSplit`: the shares may under-allocate but never exceed the total. */
  function ValidateSplit(totalSats: int, participantShares: seq<int>): bool
  {
    Sum(participantShares) <= totalSats
  }

  /** Every equal split among at least one participant passes validation,
      whatever the total. */
  lemma EqualSplitIsValid(totalSats: int, n: nat)
    requires n > 0
    ensures ValidateSplit(totalSats, EqualShares(totalSats, n))
  {
    EqualSharesTotal(totalSats, n);
    Rounding.DivMod(totalSats, n);
  }

  /** An all-zero split of a non-negative total is valid: validation alone
      does not reject it. */
  lemma ZeroSplitIsValid(totalSats: int, n: nat)
    requires totalSats >= 0
    ensures ValidateSplit(totalSats, seq(n, _ => 0))
  {
    SumConstant(seq(n, _ => 0), 0);
  }

  /** A split whose sum exceeds the total is rejected, and any pointwise
      smaller split of a valid one is valid too. */
  lemma ValidateSplitMonotone(totalSats: int, xs: seq<int>, ys: seq<int>)
    requires |xs| == |ys| && forall i :: 0 <= i < |xs| ==> xs[i] <= ys[i]
    requires ValidateSplit(totalSats, ys)
    ensures ValidateSplit(totalSats, xs)
  {
    SumMonotone(xs, ys);
  }

  /** The splitters of the second generation pass the same validation. */
  lemma RoundingSplitsAreValid(totalSats: int, participants: seq<Participant>, customShares: seq<real>)
    requires |participants| > 0
    ensures ValidateSplit(totalSats, Shares(Rounding.SplitEqual(totalSats, participants)))
    ensures totalSats >= 0 && |participants| <= |customShares| &&
            (forall i :: 0 <= i < |customShares| ==> customShares[i] >= 0.0) && SumReal(customShares) > 0.0 ==>
            ValidateSplit(totalSats, Shares(Rounding.SplitCustom(totalSats, participants, customShares)))
  {
    Rounding.SplitEqualTotal(totalSats, participants);
    if totalSats >= 0 && |participants| <= |customShares| &&
       (forall i :: 0 <= i < |customShares| ==> customShares[i] >= 0.0) && SumReal(customShares) > 0.0 {
      Rounding.SplitCustomNeverOverAllocates(totalSats, participants, customShares);
    }
  }

  // ---------------------------------------------------------------- request inputs

  /** A bill-split request: the photo's bytes when there is one, the fiat
      total, the currency code, the meal, pubkey and share per participant,
      the flow and the meal's time in milliseconds. */
  datatype BillSplitRequest = BillSplitRequest(
    imageBlob: Option<seq<byte>>,
    totalFiat: real,
    currency: string,
    mealType: MealType,
    participants: seq<(string, int)>,
    flow: Flow,
    datetime: int)

  datatype BillSplitResult = BillSplitResult(
    success: bool,
    receiptId: string,
    requestId: string,
    eventId: Option<string>,
    error: Option<string>,
    fxRate: Fx.FxRate)

  /** What one request draws from its surroundings: the clock (one reading
      for the whole call), the price sources' answers and the UUIDs that
      crypto.randomUUID hands out for the receipt, the request id, the image
      hash stand-in and the two audit entries. */
  datatype Draws = Draws(
    now: nat,
    prices: seq<Result<Fx.Price, string>>,
    feeds: seq<Option<map<string, real>>>,
    receiptUuid: string,
    requestUuid: string,
    rhashUuid: string,
    createAuditId: string,
    publishAuditId: string)

  /** The collaborators: SHA-256; CryptoManager.decryptData (the hex text of
      the key, or the message it throws); utils.hexToBytes; signEvent (the
      signed event, or the message it throws); JSON.stringify of the split;
      the event encoders; NIP-04 encryption; and the relays' answers. */
  datatype Services = Services(
    sha256: seq<byte> -> seq<byte>,
    decryptData: (string, string) -> Result<string, string>,
    hexToBytes: string -> Result<seq<byte>, string>,
    sign: (Events.UnsignedEvent, seq<byte>) -> Result<Events.SignedEvent, string>,
    splitJson: Events.SplitData -> string,
    codecs: Events.Codecs,
    encrypt: Events.Nip04Encrypt,
    network: Events.Network)

  // ---------------------------------------------------------------- request pieces

  /** The participants of a new request: keys and shares copied in input
      order, nothing paid, every one pending. */
  function NewParticipants(entries: seq<(string, int)>): (r: seq<Participant>)
    ensures |r| == |entries|
    ensures forall i :: 0 <= i < |r| ==> r[i].pubkey == entries[i].0 && r[i].shareSats == entries[i].1
    ensures forall i :: 0 <= i < |r| ==> r[i].paidSats == 0 && r[i].status == Pending
  {
    seq(|entries|, i requires 0 <= i < |entries| => Participant(entries[i].0, entries[i].1, 0, Pending))
  }

  /** A new request owes the shares as given and, nothing being paid, is
      `open` with every participant `pending` by the status rule. */
  lemma NewRequestIsOpen(entries: seq<(string, int)>)
    ensures var ps := NewParticipants(entries);
            Rounding.GetTotalPaid(ps) == 0 && Rounding.GetOverallStatus(ps) == Rounding.Open &&
            (forall i :: 0 <= i < |ps| ==> Rounding.CalculatePaymentStatus(ps[i]) == Pending) &&
            Rounding.GetTotalOwed(ps) == Sum(seq(|entries|, i requires 0 <= i < |entries| => entries[i].1))
  {
    var ps := NewParticipants(entries);
    SumConstant(Paids(ps), 0);
    assert Shares(ps) == seq(|entries|, i requires 0 <= i < |entries| => entries[i].1);
  }

  /** The receipt hash: the image's digest when a photo was supplied, else a fresh UUID. */
  function Rhash(request: BillSplitRequest, d: Draws, s: Services): string
  {
    match request.imageBlob
    case Some(blob) => Ids.HashReceiptImage(s.sha256, blob)
    case None => d.rhashUuid
  }

  /** The receipt a request creates, before it is published. */
  function NewReceipt(request: BillSplitRequest, rate: Fx.FxRate, d: Draws, s: Services): (r: Receipt)
    requires Ids.IsUuid(d.receiptUuid)
    ensures r.id == d.receiptUuid && r.imageUri == "receipt_" + d.receiptUuid + ".png"
    ensures r.amountSats == Fx.ConvertToSats(request.totalFiat, rate)
    ensures r.fxRate == rate.rate && r.fxSource == rate.source && r.fxTimestamp == rate.timestamp
    ensures r.participants == NewParticipants(request.participants) && r.noteEventId == None
  {
    var id := Ids.GenerateReceiptId(d.receiptUuid);
    Receipt(id, request.datetime, "receipt_" + id + ".png", Rhash(request, d, s), request.totalFiat, request.currency,
            Fx.ConvertToSats(request.totalFiat, rate), rate.rate, rate.source, rate.timestamp, request.mealType,
            NewParticipants(request.participants), s.splitJson(Events.SplitData(request.participants, request.flow)),
            request.flow, None)
  }

  /** The event data of a request: its id, the new receipt, the rate and the meal's name. */
  function RequestData(request: BillSplitRequest, rate: Fx.FxRate, d: Draws, s: Services): Events.PaymentRequestEventData
    requires Ids.IsUuid(d.receiptUuid)
  {
    Events.PaymentRequestEventData(Ids.GenerateRequestId(d.now, d.requestUuid), NewReceipt(request, rate, d, s), rate,
                                   MealName(request.mealType))
  }

  /** The `create` audit entry of a request. */
  function CreateEntry(request: BillSplitRequest, rate: Fx.FxRate, d: Draws): Storage.AuditLogEntry
  {
    Storage.AuditLogEntry(d.createAuditId, d.now, Storage.Create, d.receiptUuid, None,
                          Storage.CreateDetails(request.totalFiat, request.currency, Fx.ConvertToSats(request.totalFiat, rate),
                                                |request.participants|, request.flow))
  }

  /** The unsigned payment-request note createPaymentRequestEvent builds. */
  function RequestEvent(data: Events.PaymentRequestEventData, pubkey: string, codecs: Events.Codecs): Events.UnsignedEvent
  {
    Events.UnsignedEvent(1, data.mealType + " request",
                         Events.FixedRequestTags(data, codecs) + Events.PTags(data.receipt.participants), pubkey)
  }

  /** The private key: decrypt the stored blob, then parse the hex; the
      message of the first step that throws otherwise. */
  function PrivateKey(s: Services, storedKey: StoredKey, devicePassword: string): (r: Result<seq<byte>, string>)
    ensures s.decryptData(storedKey.encryptedPrivateKey, devicePassword).Failure? ==>
      r == Failure(s.decryptData(storedKey.encryptedPrivateKey, devicePassword).error)
  {
    match s.decryptData(storedKey.encryptedPrivateKey, devicePassword)
    case Failure(m) => Failure(m)
    case Success(hex) => s.hexToBytes(hex)
  }

  /** The key and the signed request note, or the message of the first throw. */
  function SignedRequest(s: Services, storedKey: StoredKey, devicePassword: string, data: Events.PaymentRequestEventData)
    : Result<(seq<byte>, Events.SignedEvent), string>
  {
    match PrivateKey(s, storedKey, devicePassword)
    case Failure(m) => Failure(m)
    case Success(key) =>
      match s.sign(RequestEvent(data, storedKey.pubkey, s.codecs), key)
      case Failure(m) => Failure(m)
      case Success(signed) => Success((key, signed))
  }

  /** `", "`-joined codes. */
  function Join(xs: seq<string>): string
  {
    if xs == [] then "" else if |xs| == 1 then xs[0] else xs[0] + ", " + Join(xs[1..])
  }

  /** The message of the error getCurrentRate throws. A failed source is
      reported with the text of what it threw; no source at all reads
      `undefined`. */
  function FxErrorMessage(e: Fx.FxError): string
  {
    match e
    case UnsupportedCurrency(c) => "Currency " + c + " is not supported. Supported currencies: " + Join(Fx.SupportedCurrencies)
    case AllSourcesFailed(last) =>
      "All FX sources failed. Last error: " +
      match last
      case None => "undefined"
      case Some(FetchFailed(source, cause)) => "Failed to fetch from " + source + ": " + cause
      case Some(CurrencyNotFound(c)) => "Failed to get currency rate for " + c + ": Error: Currency " + c + " not found in rates"
  }

  /** The catch branch: no ids, the message, and a zero manual rate. */
  function Aborted(currency: string, message: string, now: int): (r: BillSplitResult)
    ensures !r.success && r.receiptId == "" && r.requestId == "" && r.eventId == None
    ensures r.error == Some(message) && r.fxRate.rate == 0 && r.fxRate.source == "Manual Entry"
  {
    BillSplitResult(false, "", "", None, Some(message), Fx.CreateManualRate(currency, 0, now))
  }

  // ---------------------------------------------------------------- notifications

  /** What became of the notice to one participant: the DM could not be
      built (encryption threw), could not be signed, or was published. */
  datatype Notice =
    | NotCreated(error: string)
    | NotSigned(error: string)
    | Sent(id: string, result: Events.PublishResult)

  function NoticeFor(p: Participant, data: Events.PaymentRequestEventData, eventId: string, key: seq<byte>,
                     senderPubkey: string, s: Services, urls: seq<string>): Notice
  {
    match Events.CreateRecipientDM(p, data, eventId, key, senderPubkey, s.codecs, s.encrypt)
    case Failure(m) => NotCreated(m)
    case Success(dm) =>
      match s.sign(dm, key)
      case Failure(m) => NotSigned(m)
      case Success(signed) => Sent(signed.id, Events.Publish(urls, signed.id, s.network))
  }

  /** The sockets one notice leaves open: those of its relays that connected. */
  function NoticeOpened(n: Notice, urls: seq<string>, network: Events.Network): set<string>
  {
    if n.Sent? then Events.ConnectedUrls(urls, n.id, network) else {}
  }

  /** The sockets the notices leave open. */
  function NoticeSockets(ps: seq<Participant>, data: Events.PaymentRequestEventData, eventId: string, key: seq<byte>,
                         senderPubkey: string, s: Services, urls: seq<string>): set<string>
  {
    if ps == [] then {}
    else
      NoticeSockets(ps[..|ps| - 1], data, eventId, key, senderPubkey, s, urls) +
      NoticeOpened(NoticeFor(ps[|ps| - 1], data, eventId, key, senderPubkey, s, urls), urls, s.network)
  }

  lemma NoticeSocketsSnoc(ps: seq<Participant>, i: nat, data: Events.PaymentRequestEventData, eventId: string,
                          key: seq<byte>, senderPubkey: string, s: Services, urls: seq<string>)
    requires i < |ps|
    ensures NoticeSockets(ps[..i + 1], data, eventId, key, senderPubkey, s, urls)
         == NoticeSockets(ps[..i], data, eventId, key, senderPubkey, s, urls) +
            NoticeOpened(NoticeFor(ps[i], data, eventId, key, senderPubkey, s, urls), urls, s.network)
  {
    var q := ps[..i + 1];
    assert q[..|q| - 1] == ps[..i];
    assert q[|q| - 1] == ps[i];
  }

  lemma NoticesSnoc(notices: seq<Notice>, n: Notice, ps: seq<Participant>, i: nat, data: Events.PaymentRequestEventData,
                    eventId: string, key: seq<byte>, senderPubkey: string, s: Services, urls: seq<string>)
    requires i < |ps| && |notices| == i
    requires forall j :: 0 <= j < i ==> notices[j] == NoticeFor(ps[j], data, eventId, key, senderPubkey, s, urls)
    requires n == NoticeFor(ps[i], data, eventId, key, senderPubkey, s, urls)
    ensures forall j :: 0 <= j < i + 1 ==> (notices + [n])[j] == NoticeFor(ps[j], data, eventId, key, senderPubkey, s, urls)
  {
    forall j | 0 <= j < i + 1
      ensures (notices + [n])[j] == NoticeFor(ps[j], data, eventId, key, senderPubkey, s, urls)
    {
      if j < i {
        assert (notices + [n])[j] == notices[j];
      }
    }
  }

  // ---------------------------------------------------------------- request outcome

  /** The store as a request sees it. */
  datatype StoreState = StoreState(
    receipts: map<string, Storage.StoredReceipt>,
    images: map<string, seq<byte>>,
    auditLog: seq<Storage.AuditLogEntry>)

  /** The result of a request and the state it leaves: the store, the event
      manager's relay list and its open sockets. */
  datatype CreateOutcome = CreateOutcome(
    result: BillSplitResult,
    store: StoreState,
    eventRelays: seq<string>,
    sockets: set<string>)

  /** The store after step 7 and 8: the receipt saved `local`, the image
      saved when supplied, and the `create` entry appended. */
  function SavedLocally(st: StoreState, request: BillSplitRequest, rate: Fx.FxRate, d: Draws, s: Services): StoreState
    requires Ids.IsUuid(d.receiptUuid)
  {
    var receipt := NewReceipt(request, rate, d, s);
    StoreState(st.receipts[receipt.id := Storage.StoredReceipt(receipt, request.imageBlob, Storage.Local)],
               if request.imageBlob.Some? then st.images[receipt.id := request.imageBlob.value] else st.images,
               st.auditLog + [CreateEntry(request, rate, d)])
  }

  /** createBillSplitRequest as a value, from the rate lookup's result, the
      store, the relay manager's list and the event manager's state. */
  function RequestOutcome(rate: Result<Fx.FxRate, Fx.FxError>, st: StoreState, relays: seq<Relay>,
                          eventRelays: seq<string>, sockets: set<string>,
                          request: BillSplitRequest, storedKey: StoredKey, devicePassword: string,
                          d: Draws, s: Services): CreateOutcome
    requires Ids.IsUuid(d.receiptUuid)
  {
    match rate
    case Failure(e) => CreateOutcome(Aborted(request.currency, FxErrorMessage(e), d.now), st, eventRelays, sockets)
    case Success(fxRate) =>
      var data := RequestData(request, fxRate, d, s);
      var id := data.receipt.id;
      var saved := SavedLocally(st, request, fxRate, d, s);
      match SignedRequest(s, storedKey, devicePassword, data)
      case Failure(m) => CreateOutcome(Aborted(request.currency, m, d.now), saved, eventRelays, sockets)
      case Success((key, signed)) =>
        PublishOutcome(saved, data, fxRate, key, storedKey.pubkey, signed, Relays.UrlList(Relays.WriteRelays(relays)), request, d, s)
  }

  /** Steps 11 to 14: the signed note goes to the write relays `urls`; an
      accepted note marks the saved receipt published and notifies the
      participants, a rejected one marks it failed. */
  function PublishOutcome(saved: StoreState, data: Events.PaymentRequestEventData, fxRate: Fx.FxRate, key: seq<byte>,
                          senderPubkey: string, signed: Events.SignedEvent, urls: seq<string>, request: BillSplitRequest,
                          d: Draws, s: Services): CreateOutcome
  {
    Settled(saved, data, fxRate, key, senderPubkey, urls, Events.Publish(urls, signed.id, s.network),
            Events.ConnectedUrls(urls, signed.id, s.network), request, d, s)
  }

  /** Steps 12 to 14 once the relays to `urls` have answered `p`, leaving
      the sockets `connected` open. */
  function Settled(saved: StoreState, data: Events.PaymentRequestEventData, fxRate: Fx.FxRate, key: seq<byte>,
                   senderPubkey: string, urls: seq<string>, p: Events.PublishResult, connected: set<string>,
                   request: BillSplitRequest, d: Draws, s: Services): CreateOutcome
  {
    var id := data.receipt.id;
    if p.success && Truthy(p.eventId) then
      var eventId := p.eventId.value;
      var published := Storage.StoredReceipt(
        data.receipt.(noteEventId := Some(eventId), imageUri := "rcpt_" + eventId + ".png"),
        request.imageBlob, Storage.Published);
      var entry := Storage.AuditLogEntry(d.publishAuditId, d.now, Storage.Publish, id, Some(eventId),
                                         Storage.PublishDetails(p.relayResults));
      CreateOutcome(BillSplitResult(true, id, data.requestId, Some(eventId), None, fxRate),
                    StoreState(saved.receipts[id := published], saved.images, saved.auditLog + [entry]),
                    urls,
                    connected + NoticeSockets(data.receipt.participants, data, eventId, key, senderPubkey, s, urls))
    else
      var failed := Storage.StoredReceipt(data.receipt, request.imageBlob, Storage.Failed);
      CreateOutcome(BillSplitResult(false, id, data.requestId, None,
                                    Some(if Truthy(p.error) then p.error.value else "Failed to publish event"), fxRate),
                    StoreState(saved.receipts[id := failed], saved.images, saved.auditLog),
                    urls, connected)
  }

  /** Without a rate nothing is saved and nothing is sent: the result has
      empty ids, the error's message and a zero manual rate. */
  lemma NoRateSavesNothing(e: Fx.FxError, st: StoreState, relays: seq<Relay>, eventRelays: seq<string>, sockets: set<string>,
                           request: BillSplitRequest, storedKey: StoredKey, devicePassword: string, d: Draws, s: Services)
    requires Ids.IsUuid(d.receiptUuid)
    ensures var o := RequestOutcome(Failure(e), st, relays, eventRelays, sockets, request, storedKey, devicePassword, d, s);
            o.store == st && o.eventRelays == eventRelays && o.sockets == sockets &&
            !o.result.success && o.result.receiptId == "" && o.result.error == Some(FxErrorMessage(e))
  {
  }

  /** With a rate, the receipt is saved `local` with a `create` entry before
      the key is touched; the image is stored exactly when one was supplied. */
  lemma SavedBeforeSigning(rate: Fx.FxRate, st: StoreState, relays: seq<Relay>, eventRelays: seq<string>, sockets: set<string>,
                           request: BillSplitRequest, storedKey: StoredKey, devicePassword: string, d: Draws, s: Services)
    requires Ids.IsUuid(d.receiptUuid)
    ensures var o := RequestOutcome(Success(rate), st, relays, eventRelays, sockets, request, storedKey, devicePassword, d, s);
            var id := d.receiptUuid;
            id in o.store.receipts &&
            o.store.receipts[id].receipt.participants == NewParticipants(request.participants) &&
            o.store.receipts[id].imageBlob == request.imageBlob &&
            (forall other :: other != id ==> (other in o.store.receipts <==> other in st.receipts)) &&
            (forall other :: other != id && other in st.receipts ==> o.store.receipts[other] == st.receipts[other]) &&
            (id in o.store.images <==> request.imageBlob.Some? || id in st.images) &&
            (request.imageBlob.Some? ==> o.store.images[id] == request.imageBlob.value) &&
            |o.store.auditLog| >= |st.auditLog| + 1 &&
            o.store.auditLog[..|st.auditLog| + 1] == st.auditLog + [CreateEntry(request, rate, d)]
  {
    var data := RequestData(request, rate, d, s);
    var saved := SavedLocally(st, request, rate, d, s);
    var o := RequestOutcome(Success(rate), st, relays, eventRelays, sockets, request, storedKey, devicePassword, d, s);
    var id := d.receiptUuid;
    assert data.receipt.id == id;
    assert saved.receipts == st.receipts[id := Storage.StoredReceipt(data.receipt, request.imageBlob, Storage.Local)];
    assert saved.auditLog == st.auditLog + [CreateEntry(request, rate, d)];
    var signed := SignedRequest(s, storedKey, devicePassword, data);
    if signed.Success? {
      var urls := Relays.UrlList(Relays.WriteRelays(relays));
      assert o == PublishOutcome(saved, data, rate, signed.value.0, storedKey.pubkey, signed.value.1, urls, request, d, s);
      PublishKeepsRecord(saved, data, rate, signed.value.0, storedKey.pubkey, signed.value.1, urls, request, d, s);
      assert o.store.auditLog[..|st.auditLog| + 1] == o.store.auditLog[..|saved.auditLog|];
    } else {
      assert o.store == saved;
    }
  }

  /** When the key or the signature fails, the saved record stays `local`,
      nothing is published and the result carries empty ids and the message. */
  lemma SigningFailureLeavesLocal(rate: Fx.FxRate, st: StoreState, relays: seq<Relay>, eventRelays: seq<string>, sockets: set<string>,
                                  request: BillSplitRequest, storedKey: StoredKey, devicePassword: string, d: Draws, s: Services)
    requires Ids.IsUuid(d.receiptUuid)
    requires SignedRequest(s, storedKey, devicePassword, RequestData(request, rate, d, s)).Failure?
    ensures var o := RequestOutcome(Success(rate), st, relays, eventRelays, sockets, request, storedKey, devicePassword, d, s);
            d.receiptUuid in o.store.receipts &&
            o.store.receipts[d.receiptUuid].syncStatus == Storage.Local &&
            o.store.auditLog == st.auditLog + [CreateEntry(request, rate, d)] &&
            o.eventRelays == eventRelays && o.sockets == sockets &&
            o.result == Aborted(request.currency, SignedRequest(s, storedKey, devicePassword, RequestData(request, rate, d, s)).error, d.now)
  {
    var data := RequestData(request, rate, d, s);
    var saved := SavedLocally(st, request, rate, d, s);
    assert data.receipt.id == d.receiptUuid;
    assert saved.receipts == st.receipts[d.receiptUuid := Storage.StoredReceipt(data.receipt, request.imageBlob, Storage.Local)];
    assert saved.auditLog == st.auditLog + [CreateEntry(request, rate, d)];
  }

  /** Steps 11 to 14 only rewrite the record of the request's own receipt
      (keeping its participants and image) and only append to the audit
      log; the images and every other record stay. */
  lemma PublishKeepsRecord(saved: StoreState, data: Events.PaymentRequestEventData, fxRate: Fx.FxRate, key: seq<byte>,
                           senderPubkey: string, signed: Events.SignedEvent, urls: seq<string>,
                           request: BillSplitRequest, d: Draws, s: Services)
    ensures var o := PublishOutcome(saved, data, fxRate, key, senderPubkey, signed, urls, request, d, s);
            var id := data.receipt.id;
            id in o.store.receipts &&
            o.store.receipts[id].receipt.participants == data.receipt.participants &&
            o.store.receipts[id].imageBlob == request.imageBlob &&
            (forall other :: other != id ==> (other in o.store.receipts <==> other in saved.receipts)) &&
            (forall other :: other != id && other in saved.receipts ==> o.store.receipts[other] == saved.receipts[other]) &&
            o.store.images == saved.images &&
            |o.store.auditLog| >= |saved.auditLog| && o.store.auditLog[..|saved.auditLog|] == saved.auditLog
  {
    var o := PublishOutcome(saved, data, fxRate, key, senderPubkey, signed, urls, request, d, s);
    var p := Events.Publish(urls, signed.id, s.network);
    if p.success && Truthy(p.eventId) {
      assert o.store.auditLog[..|saved.auditLog|] == saved.auditLog;
    }
  }

  /** When a relay accepts the note (and reports a non-empty id), the receipt
      gets the note's id, is `published` and its image is renamed; a
      `publish` entry is appended; the result is a success carrying the id.
      When none accepts, the receipt is `failed`, the result a failure that
      keeps both ids. Either way the event manager now targets `urls`. */
  lemma PublishOutcomeMeaning(saved: StoreState, data: Events.PaymentRequestEventData, fxRate: Fx.FxRate, key: seq<byte>,
                              senderPubkey: string, signed: Events.SignedEvent, urls: seq<string>,
                              request: BillSplitRequest, d: Draws, s: Services)
    ensures var o := PublishOutcome(saved, data, fxRate, key, senderPubkey, signed, urls, request, d, s);
            var id := data.receipt.id;
            var accepted := exists i :: 0 <= i < |urls| && Events.RelayOutcome(urls[i], s.network(urls[i], signed.id), signed.id).success;
            o.eventRelays == urls && o.store.images == saved.images &&
            (accepted && signed.id != "" ==>
              o.result == BillSplitResult(true, id, data.requestId, Some(signed.id), None, fxRate) &&
              o.store.receipts == saved.receipts[id := Storage.StoredReceipt(
                data.receipt.(noteEventId := Some(signed.id), imageUri := "rcpt_" + signed.id + ".png"),
                request.imageBlob, Storage.Published)] &&
              o.store.auditLog == saved.auditLog +
                [Storage.AuditLogEntry(d.publishAuditId, d.now, Storage.Publish, id, Some(signed.id),
                                       Storage.PublishDetails(Events.Publish(urls, signed.id, s.network).relayResults))]) &&
            (!accepted ==>
              o.result == BillSplitResult(false, id, data.requestId, None, Some("Failed to publish to any relay"), fxRate) &&
              o.store.receipts == saved.receipts[id := Storage.StoredReceipt(data.receipt, request.imageBlob, Storage.Failed)] &&
              o.store.auditLog == saved.auditLog &&
              o.sockets == Events.ConnectedUrls(urls, signed.id, s.network))
  {
    var p := Events.Publish(urls, signed.id, s.network);
    Events.PublishMeaning(urls, signed.id, s.network);
    if p.success {
      PublishAccepted(saved, data, fxRate, key, senderPubkey, signed, urls, request, d, s);
    } else {
      PublishRejected(saved, data, fxRate, key, senderPubkey, signed, urls, request, d, s);
    }
  }

  lemma PublishAccepted(saved: StoreState, data: Events.PaymentRequestEventData, fxRate: Fx.FxRate, key: seq<byte>,
                        senderPubkey: string, signed: Events.SignedEvent, urls: seq<string>,
                        request: BillSplitRequest, d: Draws, s: Services)
    requires Events.Publish(urls, signed.id, s.network).success
    ensures var o := PublishOutcome(saved, data, fxRate, key, senderPubkey, signed, urls, request, d, s);
            var id := data.receipt.id;
            o.eventRelays == urls && o.store.images == saved.images &&
            (signed.id != "" ==>
              o.result == BillSplitResult(true, id, data.requestId, Some(signed.id), None, fxRate) &&
              o.store.receipts == saved.receipts[id := Storage.StoredReceipt(
                data.receipt.(noteEventId := Some(signed.id), imageUri := "rcpt_" + signed.id + ".png"),
                request.imageBlob, Storage.Published)] &&
              o.store.auditLog == saved.auditLog +
                [Storage.AuditLogEntry(d.publishAuditId, d.now, Storage.Publish, id, Some(signed.id),
                                       Storage.PublishDetails(Events.Publish(urls, signed.id, s.network).relayResults))] &&
              o.sockets == Events.ConnectedUrls(urls, signed.id, s.network) +
                           NoticeSockets(data.receipt.participants, data, signed.id, key, senderPubkey, s, urls))
  {
    Events.PublishMeaning(urls, signed.id, s.network);
  }

  lemma PublishRejected(saved: StoreState, data: Events.PaymentRequestEventData, fxRate: Fx.FxRate, key: seq<byte>,
                        senderPubkey: string, signed: Events.SignedEvent, urls: seq<string>,
                        request: BillSplitRequest, d: Draws, s: Services)
    requires var p := Events.Publish(urls, signed.id, s.network); !(p.success && Truthy(p.eventId))
    ensures var o := PublishOutcome(saved, data, fxRate, key, senderPubkey, signed, urls, request, d, s);
            var p := Events.Publish(urls, signed.id, s.network);
            var id := data.receipt.id;
            o.eventRelays == urls && o.store.images == saved.images &&
            o.result == BillSplitResult(false, id, data.requestId, None,
                                        Some(if Truthy(p.error) then p.error.value else "Failed to publish event"), fxRate) &&
            (!p.success ==> o.result.error == Some("Failed to publish to any relay")) &&
            o.store.receipts == saved.receipts[id := Storage.StoredReceipt(data.receipt, request.imageBlob, Storage.Failed)] &&
            o.store.auditLog == saved.auditLog &&
            o.sockets == Events.ConnectedUrls(urls, signed.id, s.network)
  {
    Events.PublishMeaning(urls, signed.id, s.network);
  }

  /** The notices cannot change what a request returns or what it stores:
      whatever NIP-04 encryption does, the outcome is the same apart from
      the sockets the notices open. */
  lemma NoticesDoNotChangeResult(rate: Result<Fx.FxRate, Fx.FxError>, st: StoreState, relays: seq<Relay>,
                                 eventRelays: seq<string>, sockets: set<string>, request: BillSplitRequest,
                                 storedKey: StoredKey, devicePassword: string, d: Draws, s: Services,
                                 encrypt: Events.Nip04Encrypt)
    requires Ids.IsUuid(d.receiptUuid)
    ensures var o1 := RequestOutcome(rate, st, relays, eventRelays, sockets, request, storedKey, devicePassword, d, s);
            var o2 := RequestOutcome(rate, st, relays, eventRelays, sockets, request, storedKey, devicePassword, d,
                                     s.(encrypt := encrypt));
            o1.result == o2.result && o1.store == o2.store && o1.eventRelays == o2.eventRelays
  {
    var s2 := s.(encrypt := encrypt);
    if rate.Success? {
      var fxRate := rate.value;
      var data := RequestData(request, fxRate, d, s);
      assert RequestData(request, fxRate, d, s2) == data;
      assert SavedLocally(st, request, fxRate, d, s2) == SavedLocally(st, request, fxRate, d, s);
      assert SignedRequest(s2, storedKey, devicePassword, data) == SignedRequest(s, storedKey, devicePassword, data);
      var signed := SignedRequest(s, storedKey, devicePassword, data);
      if signed.Success? {
        PublishIgnoresEncrypt(SavedLocally(st, request, fxRate, d, s), data, fxRate, signed.value.0, storedKey.pubkey,
                              signed.value.1, Relays.UrlList(Relays.WriteRelays(relays)), request, d, s, encrypt);
      }
    }
  }

  /** Steps 11 to 14 store and return the same whatever NIP-04 encryption does. */
  lemma PublishIgnoresEncrypt(saved: StoreState, data: Events.PaymentRequestEventData, fxRate: Fx.FxRate, key: seq<byte>,
                              senderPubkey: string, signed: Events.SignedEvent, urls: seq<string>,
                              request: BillSplitRequest, d: Draws, s: Services, encrypt: Events.Nip04Encrypt)
    ensures var o1 := PublishOutcome(saved, data, fxRate, key, senderPubkey, signed, urls, request, d, s);
            var o2 := PublishOutcome(saved, data, fxRate, key, senderPubkey, signed, urls, request, d, s.(encrypt := encrypt));
            o1.result == o2.result && o1.store == o2.store && o1.eventRelays == o2.eventRelays
  {
  }

  // ---------------------------------------------------------------- payment outcome

  /** The result of markParticipantPaid and the state it leaves. */
  datatype MarkOutcome = MarkOutcome(
    result: Result<(), string>,
    receipts: map<string, Storage.StoredReceipt>,
    auditLog: seq<Storage.AuditLogEntry>,
    sockets: set<string>)

  /** markParticipantPaid as a value, from the store, the event manager's
      relays and sockets, the payment and the ids and clock it draws. */
  function MarkOutcomeOf(receipts: map<string, Storage.StoredReceipt>, auditLog: seq<Storage.AuditLogEntry>,
                         eventRelays: seq<string>, sockets: set<string>,
                         receiptId: string, pubkey: string, paidSats: int, payMethod: Events.PaymentMethod,
                         devicePassword: string, storedKey: StoredKey, s: Services,
                         paymentAuditId: string, replyAuditId: string, now: int): MarkOutcome
  {
    if receiptId !in receipts || !Truthy(receipts[receiptId].receipt.noteEventId) then
      MarkOutcome(Failure("Receipt not found or not published"), receipts, auditLog, sockets)
    else
      var stored := receipts[receiptId];
      match Storage.FindParticipant(stored.receipt.participants, pubkey)
      case None =>
        MarkOutcome(Failure("Participant " + pubkey + " not found in receipt " + receiptId), receipts, auditLog, sockets)
      case Some(k) =>
        var participant := stored.receipt.participants[k];
        var paidReceipts := receipts[receiptId := Storage.WithPayment(stored, k, paidSats)];
        var paidLog := auditLog + [Storage.AuditLogEntry(paymentAuditId, now, Storage.MarkPaid, receiptId, None,
                                     Storage.PaymentDetails(pubkey, participant.paidSats, paidSats, payMethod))];
        match PrivateKey(s, storedKey, devicePassword)
        case Failure(m) => MarkOutcome(Failure(m), paidReceipts, paidLog, sockets)
        case Success(key) =>
          var reply := Events.CreatePaidReplyEvent(stored.receipt.noteEventId.value, stored.receipt.id,
                                                   participant.(paidSats := paidSats), payMethod, storedKey.pubkey);
          match s.sign(reply, key)
          case Failure(m) => MarkOutcome(Failure(m), paidReceipts, paidLog, sockets)
          case Success(signed) =>
            var p := Events.Publish(eventRelays, signed.id, s.network);
            MarkOutcome(Success(()), paidReceipts,
                        if p.success then
                          paidLog + [Storage.AuditLogEntry(replyAuditId, now, Storage.MarkPaid, receiptId, p.eventId,
                                                           Storage.PaidReplyDetails(pubkey, paidSats, payMethod))]
                        else paidLog,
                        sockets + Events.ConnectedUrls(eventRelays, signed.id, s.network))
  }

  /** A receipt that is missing or was never published is refused and nothing changes. */
  lemma MarkPaidNeedsPublishedReceipt(receipts: map<string, Storage.StoredReceipt>, auditLog: seq<Storage.AuditLogEntry>,
                                      eventRelays: seq<string>, sockets: set<string>, receiptId: string, pubkey: string,
                                      paidSats: int, payMethod: Events.PaymentMethod, devicePassword: string,
                                      storedKey: StoredKey, s: Services, paymentAuditId: string, replyAuditId: string, now: int)
    requires receiptId !in receipts || !Truthy(receipts[receiptId].receipt.noteEventId)
    ensures MarkOutcomeOf(receipts, auditLog, eventRelays, sockets, receiptId, pubkey, paidSats, payMethod,
                          devicePassword, storedKey, s, paymentAuditId, replyAuditId, now)
         == MarkOutcome(Failure("Receipt not found or not published"), receipts, auditLog, sockets)
  {
  }

  /** For a published receipt and a known payer, the payment is recorded
      (one `mark_paid` entry with the old and new amounts) whatever happens
      to the key or the reply afterwards. */
  lemma MarkPaidLogsPayment(receipts: map<string, Storage.StoredReceipt>, auditLog: seq<Storage.AuditLogEntry>,
                            eventRelays: seq<string>, sockets: set<string>, receiptId: string, pubkey: string,
                            paidSats: int, payMethod: Events.PaymentMethod, devicePassword: string,
                            storedKey: StoredKey, s: Services, paymentAuditId: string, replyAuditId: string, now: int)
    requires receiptId in receipts && Truthy(receipts[receiptId].receipt.noteEventId)
    requires Storage.FindParticipant(receipts[receiptId].receipt.participants, pubkey).Some?
    ensures var o := MarkOutcomeOf(receipts, auditLog, eventRelays, sockets, receiptId, pubkey, paidSats, payMethod,
                                devicePassword, storedKey, s, paymentAuditId, replyAuditId, now);
            var stored := receipts[receiptId];
            var k := Storage.FindParticipant(stored.receipt.participants, pubkey).value;
            o.receipts == receipts[receiptId := Storage.WithPayment(stored, k, paidSats)] &&
            o.receipts[receiptId].receipt.participants[k].paidSats == paidSats &&
            |o.auditLog| >= |auditLog| + 1 &&
            o.auditLog[..|auditLog| + 1] == auditLog + [Storage.AuditLogEntry(paymentAuditId, now, Storage.MarkPaid, receiptId, None,
                                          Storage.PaymentDetails(pubkey, stored.receipt.participants[k].paidSats, paidSats, payMethod))]
  {
    var o := MarkOutcomeOf(receipts, auditLog, eventRelays, sockets, receiptId, pubkey, paidSats, payMethod,
                           devicePassword, storedKey, s, paymentAuditId, replyAuditId, now);
    var stored := receipts[receiptId];
    var k := Storage.FindParticipant(stored.receipt.participants, pubkey).value;
    var paidLog := auditLog + [Storage.AuditLogEntry(paymentAuditId, now, Storage.MarkPaid, receiptId, None,
                                 Storage.PaymentDetails(pubkey, stored.receipt.participants[k].paidSats, paidSats, payMethod))];
    assert o.auditLog == paidLog || o.auditLog == paidLog + [o.auditLog[|o.auditLog| - 1]];
    assert o.auditLog[..|auditLog| + 1] == paidLog;
  }

  /** The call succeeds exactly when the reply gets signed, and a second
      `mark_paid` entry, carrying the reply's id, is written exactly when
      some relay accepts the reply. */
  lemma MarkPaidRecordsPayment(receipts: map<string, Storage.StoredReceipt>, auditLog: seq<Storage.AuditLogEntry>,
                               eventRelays: seq<string>, sockets: set<string>, receiptId: string, pubkey: string,
                               paidSats: int, payMethod: Events.PaymentMethod, devicePassword: string,
                               storedKey: StoredKey, s: Services, paymentAuditId: string, replyAuditId: string, now: int)
    requires receiptId in receipts && Truthy(receipts[receiptId].receipt.noteEventId)
    requires Storage.FindParticipant(receipts[receiptId].receipt.participants, pubkey).Some?
    ensures var o := MarkOutcomeOf(receipts, auditLog, eventRelays, sockets, receiptId, pubkey, paidSats, payMethod,
                                   devicePassword, storedKey, s, paymentAuditId, replyAuditId, now);
            var stored := receipts[receiptId];
            var k := Storage.FindParticipant(stored.receipt.participants, pubkey).value;
            var key := PrivateKey(s, storedKey, devicePassword);
            var reply := Events.CreatePaidReplyEvent(stored.receipt.noteEventId.value, stored.receipt.id,
                                                     stored.receipt.participants[k].(paidSats := paidSats), payMethod, storedKey.pubkey);
            (o.result.Success? <==> key.Success? && s.sign(reply, key.value).Success?) &&
            (o.result.Success? ==>
              var id := s.sign(reply, key.value).value.id;
              var accepted := (exists i :: 0 <= i < |eventRelays| &&
                                 Events.RelayOutcome(eventRelays[i], s.network(eventRelays[i], id), id).success);
              |o.auditLog| == |auditLog| + (if accepted then 2 else 1) &&
              (accepted ==>
                 o.auditLog[|auditLog| + 1] ==
                 Storage.AuditLogEntry(replyAuditId, now, Storage.MarkPaid, receiptId, Some(id),
                                       Storage.PaidReplyDetails(pubkey, paidSats, payMethod))))
  {
    MarkPaidLogsPayment(receipts, auditLog, eventRelays, sockets, receiptId, pubkey, paidSats, payMethod, devicePassword,
                        storedKey, s, paymentAuditId, replyAuditId, now);
    var stored := receipts[receiptId];
    var k := Storage.FindParticipant(stored.receipt.participants, pubkey).value;
    var key := PrivateKey(s, storedKey, devicePassword);
    if key.Success? {
      var reply := Events.CreatePaidReplyEvent(stored.receipt.noteEventId.value, stored.receipt.id,
                                               stored.receipt.participants[k].(paidSats := paidSats), payMethod, storedKey.pubkey);
      if s.sign(reply, key.value).Success? {
        Events.PublishMeaning(eventRelays, s.sign(reply, key.value).value.id, s.network);
      }
    }
  }

  /** With no relay configured the reply goes nowhere, yet the call still
      succeeds once the reply is signed, and only the payment entry is logged. */
  lemma MarkPaidWithoutRelays(receipts: map<string, Storage.StoredReceipt>, auditLog: seq<Storage.AuditLogEntry>,
                              sockets: set<string>, receiptId: string, pubkey: string,
                              paidSats: int, payMethod: Events.PaymentMethod, devicePassword: string,
                              storedKey: StoredKey, s: Services, paymentAuditId: string, replyAuditId: string, now: int)
    requires receiptId in receipts && Truthy(receipts[receiptId].receipt.noteEventId)
    requires Storage.FindParticipant(receipts[receiptId].receipt.participants, pubkey).Some?
    requires MarkOutcomeOf(receipts, auditLog, [], sockets, receiptId, pubkey, paidSats, payMethod,
                           devicePassword, storedKey, s, paymentAuditId, replyAuditId, now).result.Success?
    ensures var o := MarkOutcomeOf(receipts, auditLog, [], sockets, receiptId, pubkey, paidSats, payMethod,
                                   devicePassword, storedKey, s, paymentAuditId, replyAuditId, now);
            |o.auditLog| == |auditLog| + 1 && o.sockets == sockets
  {
    MarkPaidRecordsPayment(receipts, auditLog, [], sockets, receiptId, pubkey, paidSats, payMethod, devicePassword,
                           storedKey, s, paymentAuditId, replyAuditId, now);
  }

  /** The contact book after loadFollowList: the follows found on the first
      write relay that has any join the follow set, and their profiles are
      fetched and stored. */
  ghost predicate FollowListLoaded(contacts0: map<string, Contacts.Contact>, order0: seq<string>, follow0: set<string>,
                                   contacts1: map<string, Contacts.Contact>, order1: seq<string>, follow1: set<string>,
                                   userPubkey: string, urls: seq<string>, follows: Contacts.FollowQuery,
                                   profiles: Contacts.ProfileQuery, now: int)
  {
    var found := Contacts.FirstFollows(urls, userPubkey, follows);
    follow1 == follow0 + (set x | x in found) &&
    (contacts1, order1) ==
      if |found| > 0 then Contacts.ApplyProfiles(contacts0, order0, Contacts.FirstProfiles(urls, found, profiles), follow1, now)
      else (contacts0, order0)
  }

  // ---------------------------------------------------------------- the service

  /** The orchestration service: an event manager of its own, and the
      store, FX manager, relay manager and contact manager it shares with
      the rest of the app. */
  class BillSplitService {
    const store: Storage.StorageManager
    const fx: Fx.FxManager
    const relays: Relays.RelayManager
    const contacts: Contacts.ContactManager
    const events: Events.EventManager

    /** The shared store keeps every receipt under its own id. */
    ghost predicate Valid()
      reads this, store
    {
      store.Valid()
    }

    /** A new service starts with an event manager that has no relays. */
    constructor(store: Storage.StorageManager, fx: Fx.FxManager, relays: Relays.RelayManager,
                contacts: Contacts.ContactManager)
      ensures this.store == store && this.fx == fx && this.relays == relays && this.contacts == contacts
      ensures fresh(events) && events.relays == [] && events.sockets == {}
    {
      this.store := store;
      this.fx := fx;
      this.relays := relays;
      this.contacts := contacts;
      events := new Events.EventManager([]);
    }

    /** `createBillSplitRequest`, step by step; the end state and the result
        are those of RequestOutcome. */
    method CreateBillSplitRequest(request: BillSplitRequest, devicePassword: string, storedKey: StoredKey,
                                  d: Draws, s: Services) returns (r: BillSplitResult)
      requires Valid()
      requires |d.prices| == |Fx.FxSources| && |d.feeds| == |Fx.FxSources|
      requires Ids.IsUuid(d.receiptUuid)
      modifies fx, store, events
      ensures Valid()
      ensures var rate := Fx.CurrentRate(old(fx.cache), old(fx.conversionCache), request.currency, d.prices, d.feeds, d.now);
              fx.cache == rate.cache && fx.conversionCache == rate.conv
      ensures var rate := Fx.CurrentRate(old(fx.cache), old(fx.conversionCache), request.currency, d.prices, d.feeds, d.now);
              var o := RequestOutcome(rate.result, StoreState(old(store.receipts), old(store.images), old(store.auditLog)),
                                      relays.relays, old(events.relays), old(events.sockets),
                                      request, storedKey, devicePassword, d, s);
              r == o.result && StoreState(store.receipts, store.images, store.auditLog) == o.store &&
              events.relays == o.eventRelays && events.sockets == o.sockets
      ensures store.settings == old(store.settings)
    {
      var rate := fx.GetCurrentRate(request.currency, d.prices, d.feeds, d.now);
      if rate.Failure? {
        return Aborted(request.currency, FxErrorMessage(rate.error), d.now);
      }
      var fxRate := rate.value;
      var data := RequestData(request, fxRate, d, s);
      SaveLocally(request, fxRate, d, s);
      var key := PrivateKey(s, storedKey, devicePassword);
      if key.Failure? {
        return Aborted(request.currency, key.error, d.now);
      }
      var unsigned := Events.CreatePaymentRequestEvent(data, storedKey.pubkey, s.codecs);
      assert unsigned == RequestEvent(data, storedKey.pubkey, s.codecs);
      var signed := s.sign(unsigned, key.value);
      if signed.Failure? {
        return Aborted(request.currency, signed.error, d.now);
      }
      r := PublishRequest(data, fxRate, key.value, storedKey.pubkey, signed.value, request, d, s);
    }

    /** Steps 7 and 8: save the receipt `local`, the image when there is
        one, and the `create` entry. */
    method SaveLocally(request: BillSplitRequest, fxRate: Fx.FxRate, d: Draws, s: Services)
      requires Valid()
      requires Ids.IsUuid(d.receiptUuid)
      modifies store
      ensures Valid()
      ensures StoreState(store.receipts, store.images, store.auditLog)
           == SavedLocally(StoreState(old(store.receipts), old(store.images), old(store.auditLog)), request, fxRate, d, s)
      ensures store.settings == old(store.settings)
    {
      var receipt := NewReceipt(request, fxRate, d, s);
      store.SaveReceipt(Storage.StoredReceipt(receipt, request.imageBlob, Storage.Local));
      if request.imageBlob.Some? {
        store.SaveImage(receipt.id, request.imageBlob.value);
      }
      store.AddAuditEntry(Storage.Create, receipt.id, None,
                          Storage.CreateDetails(request.totalFiat, request.currency, receipt.amountSats,
                                                |receipt.participants|, request.flow),
                          d.createAuditId, d.now);
    }

    /** Steps 11 to 14 on a receipt saved `local`. */
    method PublishRequest(data: Events.PaymentRequestEventData, fxRate: Fx.FxRate, key: seq<byte>, senderPubkey: string,
                          signed: Events.SignedEvent, request: BillSplitRequest, d: Draws, s: Services)
        returns (r: BillSplitResult)
      requires Valid()
      requires data.receipt.id in store.receipts
      requires store.receipts[data.receipt.id] == Storage.StoredReceipt(data.receipt, request.imageBlob, Storage.Local)
      modifies store, events
      ensures Valid()
      ensures var o := PublishOutcome(StoreState(old(store.receipts), old(store.images), old(store.auditLog)), data, fxRate,
                                      key, senderPubkey, signed, Relays.UrlList(Relays.WriteRelays(relays.relays)),
                                      request, d, s);
              r == o.result && StoreState(store.receipts, store.images, store.auditLog) == o.store &&
              events.relays == o.eventRelays && events.sockets == o.sockets
      ensures store.settings == old(store.settings)
    {
      var urls := Relays.UrlList(relays.GetWriteRelays());
      events.SetRelays(urls);
      var published := events.PublishEvent(signed, s.network);
      assert events.sockets == Events.ConnectedUrls(urls, signed.id, s.network);
      ghost var saved := StoreState(store.receipts, store.images, store.auditLog);
      r := Settle(data, fxRate, key, senderPubkey, published, request, d, s);
      assert PublishOutcome(saved, data, fxRate, key, senderPubkey, signed, urls, request, d, s)
          == Settled(saved, data, fxRate, key, senderPubkey, urls, published,
                     Events.ConnectedUrls(urls, signed.id, s.network), request, d, s);
    }

    /** Steps 12 to 14 on the relays' answer `published`: an accepted note
        marks the receipt published and notifies every participant, a
        rejected one marks the receipt failed. */
    method Settle(data: Events.PaymentRequestEventData, fxRate: Fx.FxRate, key: seq<byte>, senderPubkey: string,
                  published: Events.PublishResult, request: BillSplitRequest, d: Draws, s: Services)
        returns (r: BillSplitResult)
      requires Valid()
      requires data.receipt.id in store.receipts
      requires store.receipts[data.receipt.id] == Storage.StoredReceipt(data.receipt, request.imageBlob, Storage.Local)
      modifies store, events
      ensures Valid()
      ensures var o := Settled(StoreState(old(store.receipts), old(store.images), old(store.auditLog)), data, fxRate,
                               key, senderPubkey, old(events.relays), published, old(events.sockets), request, d, s);
              r == o.result && StoreState(store.receipts, store.images, store.auditLog) == o.store &&
              events.relays == o.eventRelays && events.sockets == o.sockets
      ensures store.settings == old(store.settings)
    {
      var receiptId := data.receipt.id;
      if published.success && Truthy(published.eventId) {
        var eventId := published.eventId.value;
        MarkPublished(data, eventId, published.relayResults, request, d);
        var _ := SendRecipientNotifications(data, eventId, key, senderPubkey, s);
        r := BillSplitResult(true, receiptId, data.requestId, Some(eventId), None, fxRate);
      } else {
        var _ := store.UpdateReceiptStatus(receiptId, Storage.Failed);
        r := BillSplitResult(false, receiptId, data.requestId, None,
                             Some(if Truthy(published.error) then published.error.value else "Failed to publish event"), fxRate);
      }
    }

    /** Step 12 and 13: the saved receipt gets the note's id, the
        `published` status and the renamed image; a `publish` entry follows. */
    method MarkPublished(data: Events.PaymentRequestEventData, eventId: string, relayResults: seq<Events.RelayResult>,
                         request: BillSplitRequest, d: Draws)
      requires Valid()
      requires data.receipt.id in store.receipts
      requires store.receipts[data.receipt.id] == Storage.StoredReceipt(data.receipt, request.imageBlob, Storage.Local)
      modifies store
      ensures Valid()
      ensures store.receipts == old(store.receipts)[data.receipt.id := Storage.StoredReceipt(
                data.receipt.(noteEventId := Some(eventId), imageUri := "rcpt_" + eventId + ".png"),
                request.imageBlob, Storage.Published)]
      ensures store.auditLog == old(store.auditLog) + [Storage.AuditLogEntry(d.publishAuditId, d.now, Storage.Publish,
                                                       data.receipt.id, Some(eventId), Storage.PublishDetails(relayResults))]
      ensures store.images == old(store.images) && store.settings == old(store.settings)
    {
      var receiptId := data.receipt.id;
      var _ := store.UpdateReceiptEventId(receiptId, eventId);
      store.RenameReceiptImage(receiptId, eventId);
      store.AddAuditEntry(Storage.Publish, receiptId, Some(eventId), Storage.PublishDetails(relayResults),
                          d.publishAuditId, d.now);
    }

    /** `sendRecipientNotifications`: one notice per participant, in order;
        a notice that cannot be built or signed is skipped and the loop goes
        on. Returns what became of each notice (the source only logs the
        failures). */
    method SendRecipientNotifications(data: Events.PaymentRequestEventData, eventId: string, key: seq<byte>,
                                      senderPubkey: string, s: Services) returns (notices: seq<Notice>)
      modifies events
      ensures |notices| == |data.receipt.participants|
      ensures forall i :: 0 <= i < |notices| ==>
        notices[i] == NoticeFor(data.receipt.participants[i], data, eventId, key, senderPubkey, s, events.relays)
      ensures events.relays == old(events.relays)
      ensures events.sockets == old(events.sockets) +
        NoticeSockets(data.receipt.participants, data, eventId, key, senderPubkey, s, events.relays)
    {
      var ps := data.receipt.participants;
      var urls := events.relays;
      notices := [];
      for i := 0 to |ps|
        invariant events.relays == urls
        invariant |notices| == i
        invariant forall j :: 0 <= j < i ==> notices[j] == NoticeFor(ps[j], data, eventId, key, senderPubkey, s, urls)
        invariant events.sockets == old(events.sockets) + NoticeSockets(ps[..i], data, eventId, key, senderPubkey, s, urls)
      {
        ghost var before := events.sockets;
        var n := SendNotice(ps[i], data, eventId, key, senderPubkey, s);
        NoticeSocketsSnoc(ps, i, data, eventId, key, senderPubkey, s, urls);
        UnionAssoc(old(events.sockets), NoticeSockets(ps[..i], data, eventId, key, senderPubkey, s, urls),
                   NoticeOpened(n, urls, s.network));
        assert events.sockets == before + NoticeOpened(n, urls, s.network);
        NoticesSnoc(notices, n, ps, i, data, eventId, key, senderPubkey, s, urls);
        notices := notices + [n];
      }
      assert ps[..|ps|] == ps;
    }

    /** One iteration: build the DM, sign it, publish it; a throw skips the rest. */
    method SendNotice(p: Participant, data: Events.PaymentRequestEventData, eventId: string, key: seq<byte>,
                      senderPubkey: string, s: Services) returns (n: Notice)
      modifies events
      ensures n == NoticeFor(p, data, eventId, key, senderPubkey, s, events.relays)
      ensures events.relays == old(events.relays)
      ensures events.sockets == old(events.sockets) + NoticeOpened(n, events.relays, s.network)
    {
      var dm := Events.CreateRecipientDM(p, data, eventId, key, senderPubkey, s.codecs, s.encrypt);
      if dm.Failure? {
        return NotCreated(dm.error);
      }
      var signed := s.sign(dm.value, key);
      if signed.Failure? {
        return NotSigned(signed.error);
      }
      var result := events.PublishEvent(signed.value, s.network);
      n := Sent(signed.value.id, result);
    }

    /** `markParticipantPaid`, step by step; the end state and the result are
        those of MarkOutcomeOf. */
    method MarkParticipantPaid(receiptId: string, pubkey: string, paidSats: int, payMethod: Events.PaymentMethod,
                               devicePassword: string, storedKey: StoredKey, s: Services,
                               paymentAuditId: string, replyAuditId: string, now: int) returns (r: Result<(), string>)
      requires Valid()
      modifies store, events
      ensures Valid()
      ensures var o := MarkOutcomeOf(old(store.receipts), old(store.auditLog), old(events.relays), old(events.sockets),
                                     receiptId, pubkey, paidSats, payMethod, devicePassword, storedKey, s,
                                     paymentAuditId, replyAuditId, now);
              r == o.result && store.receipts == o.receipts && store.auditLog == o.auditLog && events.sockets == o.sockets
      ensures store.images == old(store.images) && store.settings == old(store.settings)
      ensures events.relays == old(events.relays)
    {
      var stored := store.GetReceipt(receiptId);
      if stored.None? || !Truthy(stored.value.receipt.noteEventId) {
        return Failure("Receipt not found or not published");
      }
      var receipt := stored.value.receipt;
      var updated := store.UpdateParticipantPayment(receiptId, pubkey, paidSats, payMethod, paymentAuditId, now);
      if updated.Failure? {
        return Failure(updated.error);
      }
      var found := Storage.FindParticipant(receipt.participants, pubkey);
      assert found.Some?;
      var participant := receipt.participants[found.value];
      var key := PrivateKey(s, storedKey, devicePassword);
      if key.Failure? {
        return Failure(key.error);
      }
      var requestId := receipt.id;
      var reply := Events.CreatePaidReplyEvent(receipt.noteEventId.value, requestId, participant.(paidSats := paidSats),
                                               payMethod, storedKey.pubkey);
      var signed := s.sign(reply, key.value);
      if signed.Failure? {
        return Failure(signed.error);
      }
      var published := events.PublishEvent(signed.value, s.network);
      if published.success {
        store.AddAuditEntry(Storage.MarkPaid, receiptId, published.eventId, Storage.PaidReplyDetails(pubkey, paidSats, payMethod),
                            replyAuditId, now);
      }
      r := Success(());
    }

    /** `initialize`: the relay manager loads its list (merging the user's
        own list when a key is given), then the user's follow list is read
        from the resulting write relays. */
    method Initialize(userPubkey: Option<string>, relayQuery: Relays.RelayListQuery, follows: Contacts.FollowQuery,
                      profiles: Contacts.ProfileQuery, now: int)
      requires Valid() && contacts.Valid()
      modifies relays, store, contacts
      ensures Valid() && contacts.Valid()
      ensures !Truthy(userPubkey) ==> relays.relays == Relays.StartingRelays(old(store.settings))
      ensures Truthy(userPubkey) ==>
        var start := Relays.StartingRelays(old(store.settings));
        var user := Relays.UserRelayList(start, userPubkey.value, relayQuery);
        relays.relays == (if |user| > 0 then Relays.Merged(start, user) else start)
      ensures !Truthy(userPubkey) ==>
        contacts.contacts == old(contacts.contacts) && contacts.order == old(contacts.order) &&
        contacts.followList == old(contacts.followList)
      ensures Truthy(userPubkey) ==>
        FollowListLoaded(old(contacts.contacts), old(contacts.order), old(contacts.followList),
                         contacts.contacts, contacts.order, contacts.followList,
                         userPubkey.value, Relays.UrlList(Relays.WriteRelays(relays.relays)), follows, profiles, now)
      ensures store.receipts == old(store.receipts) && store.images == old(store.images)
      ensures store.auditLog == old(store.auditLog)
    {
      ghost var contacts0, order0, follow0 := contacts.contacts, contacts.order, contacts.followList;
      relays.Initialize(store, userPubkey, relayQuery);
      assert contacts.contacts == contacts0 && contacts.order == order0 && contacts.followList == follow0;
      if Truthy(userPubkey) {
        var urls := Relays.UrlList(relays.GetWriteRelays());
        contacts.LoadFollowList(userPubkey.value, urls, follows, profiles, now);
        assert FollowListLoaded(contacts0, order0, follow0, contacts.contacts, contacts.order, contacts.followList,
                                userPubkey.value, urls, follows, profiles, now);
      }
    }

    /** `disconnect`: the event manager's sockets are closed. */
    method Disconnect()
      modifies events
      ensures events.sockets == {} && events.relays == old(events.relays)
    {
      events.Disconnect();
    }
  }
}
