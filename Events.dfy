/** src/lib/events.ts: the Nostr events the app emits (NIP-01 envelopes of
    kind 1 for the payment request and the paid reply, kind 4 for the
    NIP-04 direct message), and the rule that turns the relays' `OK`
    answers into one publish result. Signing, NIP-04 encryption, JSON and
    base64 encoding and date rendering are injected; each relay's
    connection and message stream is an input. */
module Events {
  import opened Common
  import opened Models
  import Fx

  /** An event before signing. `created_at` is chosen by the event factory,
      which is not part of this model. */
  datatype UnsignedEvent = UnsignedEvent(kind: int, content: string, tags: seq<seq<string>>, pubkey: string)

  /** A signed event: the envelope, its id and its signature. */
  datatype SignedEvent = SignedEvent(event: UnsignedEvent, id: string, sig: string)

  datatype PaymentRequestEventData = PaymentRequestEventData(requestId: string, receipt: Receipt, fxRate: Fx.FxRate, mealType: string)

  /** What `encodeSplitData` serialises before base64: pubkey and share per participant, and the flow. */
  datatype SplitData = SplitData(participants: seq<(string, int)>, flow: Flow)

  /** The JSON body of a direct message; `kind` is its `type` field. */
  datatype DmPayload = DmPayload(
    kind: string,
    requestId: string,
    mealType: string,
    yourShare: int,
    totalAmount: int,
    currency: string,
    requestEventId: string,
    message: string)

  /** The encoders the TypeScript runtime provides: ISO date rendering of a
      millisecond timestamp, `btoa(JSON.stringify(split))`, and
      `JSON.stringify` of a direct-message body. */
  datatype Codecs = Codecs(isoDate: int -> string, splitBase64: SplitData -> string, dmJson: DmPayload -> string)

  datatype PaymentMethod = Zap | Manual

  function MethodName(m: PaymentMethod): string
  {
    match m
    case Zap => "zap"
    case Manual => "manual"
  }

  // ---------------------------------------------------------------- tag lookup

  /** The first tag with the given name. */
  function FindTag(tags: seq<seq<string>>, name: string): (r: Option<seq<string>>)
    ensures r.Some? ==> |r.value| > 0 && r.value[0] == name && r.value in tags
  {
    if tags == [] then None
    else if |tags[0]| > 0 && tags[0][0] == name then Some(tags[0])
    else FindTag(tags[1..], name)
  }

  /** A tag is found at the first position carrying its name. */
  lemma {:induction false} FindTagAt(tags: seq<seq<string>>, name: string, k: nat)
    requires k < |tags| && |tags[k]| > 0 && tags[k][0] == name
    requires forall j :: 0 <= j < k ==> !(|tags[j]| > 0 && tags[j][0] == name)
    ensures FindTag(tags, name) == Some(tags[k])
  {
    if k > 0 {
      FindTagAt(tags[1..], name, k - 1);
    }
  }

  lemma {:induction false} FindTagAppend(xs: seq<seq<string>>, ys: seq<seq<string>>, name: string)
    requires FindTag(xs, name).Some?
    ensures FindTag(xs + ys, name) == FindTag(xs, name)
  {
    if !(|xs[0]| > 0 && xs[0][0] == name) {
      assert (xs + ys)[1..] == xs[1..] + ys;
      FindTagAppend(xs[1..], ys, name);
    }
  }

  /** The values of all `p` tags, in order. */
  function PTagValues(tags: seq<seq<string>>): seq<string>
  {
    if tags == [] then []
    else if |tags[0]| >= 2 && tags[0][0] == "p" then [tags[0][1]] + PTagValues(tags[1..])
    else PTagValues(tags[1..])
  }

  lemma {:induction false} NoPTags(tags: seq<seq<string>>)
    requires forall j :: 0 <= j < |tags| ==> |tags[j]| > 0 && tags[j][0] != "p"
    ensures PTagValues(tags) == []
  {
    if tags != [] {
      NoPTags(tags[1..]);
    }
  }

  lemma {:induction false} PTagValuesAppend(xs: seq<seq<string>>, ys: seq<seq<string>>)
    ensures PTagValues(xs + ys) == PTagValues(xs) + PTagValues(ys)
  {
    if xs == [] {
      assert xs + ys == ys;
    } else {
      assert (xs + ys)[1..] == xs[1..] + ys;
      PTagValuesAppend(xs[1..], ys);
    }
  }

  // ---------------------------------------------------------------- payment request

  /** `formatFxRate`: rate, source and ISO timestamp. */
  function FormatFxRate(fxRate: Fx.FxRate, codecs: Codecs): (r: seq<string>)
    ensures |r| == 3 && ParseDecimal(r[0]) == fxRate.rate && r[1] == fxRate.source
    ensures r[2] == codecs.isoDate(fxRate.timestamp)
  {
    DecimalRoundTrip(fxRate.rate);
    [DecimalString(fxRate.rate), fxRate.source, codecs.isoDate(fxRate.timestamp)]
  }

  /** The split data of a receipt: pubkey and share per participant, and the flow. */
  function SplitDataOf(receipt: Receipt): (r: SplitData)
    ensures |r.participants| == |receipt.participants| && r.flow == receipt.flow
    ensures forall i :: 0 <= i < |r.participants| ==>
      r.participants[i] == (receipt.participants[i].pubkey, receipt.participants[i].shareSats)
  {
    SplitData(seq(|receipt.participants|, i requires 0 <= i < |receipt.participants| =>
                    (receipt.participants[i].pubkey, receipt.participants[i].shareSats)),
              receipt.flow)
  }

  /** The nine fixed tags of a payment request, in wire order. */
  function FixedRequestTags(data: PaymentRequestEventData, codecs: Codecs): seq<seq<string>>
  {
    [ ["rid", data.requestId],
      ["rhash", data.receipt.rhash],
      ["amount", DecimalString(data.receipt.amountSats)],
      ["ccy", data.receipt.currency],
      ["fx"] + FormatFxRate(data.fxRate, codecs),
      ["split", FlowName(data.receipt.flow), codecs.splitBase64(SplitDataOf(data.receipt))],
      ["meal", data.mealType],
      ["privacy", "no-location"],
      ["flow", FlowName(data.receipt.flow)] ]
  }

  /** The names of the fixed tags, in wire order. */
  const RequestTagNames: seq<string> := ["rid", "rhash", "amount", "ccy", "fx", "split", "meal", "privacy", "flow"]

  /** The fixed tags carry their names in this order, the `fx` tag holds
      exactly rate, source and timestamp, and the privacy marker is `no-location`. */
  lemma FixedTagLayout(data: PaymentRequestEventData, codecs: Codecs)
    ensures |FixedRequestTags(data, codecs)| == 9
    ensures forall j :: 0 <= j < 9 ==> |FixedRequestTags(data, codecs)[j]| > 0 && FixedRequestTags(data, codecs)[j][0] == RequestTagNames[j]
    ensures FixedRequestTags(data, codecs)[4] == ["fx", DecimalString(data.fxRate.rate), data.fxRate.source, codecs.isoDate(data.fxRate.timestamp)]
    ensures FixedRequestTags(data, codecs)[7] == ["privacy", "no-location"]
  {
  }

  /** In a tag list that starts with tags of distinct known names, each name finds its own tag. */
  lemma NamedAt(tags: seq<seq<string>>, names: seq<string>, k: nat)
    requires |names| <= |tags| && k < |names|
    requires forall j :: 0 <= j < |names| ==> |tags[j]| > 0 && tags[j][0] == names[j]
    requires forall i, j :: 0 <= i < j < |names| ==> names[i] != names[j]
    ensures FindTag(tags, names[k]) == Some(tags[k])
  {
    FindTagAt(tags, names[k], k);
  }

  /** One `p` tag per participant, in participant order. */
  function PTags(ps: seq<Participant>): (r: seq<seq<string>>)
    ensures |r| == |ps|
    ensures forall i :: 0 <= i < |ps| ==> r[i] == ["p", ps[i].pubkey]
  {
    seq(|ps|, i requires 0 <= i < |ps| => ["p", ps[i].pubkey])
  }

  /** What a reader of a request event extracts from it. */
  datatype RequestSummary = RequestSummary(
    requestId: string, rhash: string, amountSats: int, currency: string,
    flow: string, meal: string, privacy: string, recipients: seq<string>)

  /** The first value of the first tag with the given name. */
  function TagValue(tags: seq<seq<string>>, name: string): Option<string>
  {
    var t := FindTag(tags, name);
    if t.Some? && |t.value| >= 2 then Some(t.value[1]) else None
  }

  /** Reads a request back by tag name, as a client of the protocol does. */
  function DecodeRequest(e: UnsignedEvent): Option<RequestSummary>
  {
    var rid := TagValue(e.tags, "rid");
    var rhash := TagValue(e.tags, "rhash");
    var amount := TagValue(e.tags, "amount");
    var ccy := TagValue(e.tags, "ccy");
    var flow := TagValue(e.tags, "flow");
    var meal := TagValue(e.tags, "meal");
    var privacy := TagValue(e.tags, "privacy");
    if e.kind != 1 || rid.None? || rhash.None? || amount.None? || ccy.None? || flow.None? || meal.None? || privacy.None? then None
    else Some(RequestSummary(rid.value, rhash.value, ParseDecimal(amount.value), ccy.value,
                             flow.value, meal.value, privacy.value, PTagValues(e.tags)))
  }

  /** `createPaymentRequestEvent`: content is only the meal type, the nine
      fixed tags come first, then one `p` tag per participant. */
  method CreatePaymentRequestEvent(data: PaymentRequestEventData, pubkey: string, codecs: Codecs) returns (e: UnsignedEvent)
    ensures e.kind == 1 && e.pubkey == pubkey
    ensures e.content == data.mealType + " request"
    ensures |e.tags| == 9 + |data.receipt.participants|
    ensures e.tags[..9] == FixedRequestTags(data, codecs)
    ensures forall i :: 0 <= i < |data.receipt.participants| ==> e.tags[9 + i] == ["p", data.receipt.participants[i].pubkey]
    ensures e.tags == FixedRequestTags(data, codecs) + PTags(data.receipt.participants)
  {
    var content := data.mealType + " request";
    var tags := FixedRequestTags(data, codecs);
    var ps := data.receipt.participants;
    for i := 0 to |ps|
      invariant |tags| == 9 + i
      invariant tags == FixedRequestTags(data, codecs) + PTags(ps[..i])
    {
      assert PTags(ps[..i + 1]) == PTags(ps[..i]) + [["p", ps[i].pubkey]];
      tags := tags + [["p", ps[i].pubkey]];
    }
    assert ps[..|ps|] == ps;
    e := UnsignedEvent(1, content, tags, pubkey);
  }

  /** A request event reads back as what was put into it: the ids, the
      amount through its decimal rendering, the currency, the flow, the
      meal, the privacy marker and the recipients in order. */
  lemma RequestRoundTrip(data: PaymentRequestEventData, pubkey: string, codecs: Codecs, content: string)
    ensures DecodeRequest(UnsignedEvent(1, content, FixedRequestTags(data, codecs) + PTags(data.receipt.participants), pubkey))
         == Some(RequestSummary(data.requestId, data.receipt.rhash, data.receipt.amountSats, data.receipt.currency,
                                FlowName(data.receipt.flow), data.mealType, "no-location", Pubkeys(data.receipt.participants)))
  {
    RequestTagsFound(data, codecs);
    RequestRecipients(data, codecs);
    DecimalRoundTrip(data.receipt.amountSats);
  }

  /** Every fixed name finds its own tag in a request, ahead of the `p` tags. */
  lemma RequestTagsFound(data: PaymentRequestEventData, codecs: Codecs)
    ensures var tags := FixedRequestTags(data, codecs) + PTags(data.receipt.participants);
      TagValue(tags, "rid") == Some(data.requestId) && TagValue(tags, "rhash") == Some(data.receipt.rhash)
      && TagValue(tags, "amount") == Some(DecimalString(data.receipt.amountSats))
      && TagValue(tags, "ccy") == Some(data.receipt.currency) && TagValue(tags, "meal") == Some(data.mealType)
      && TagValue(tags, "privacy") == Some("no-location") && TagValue(tags, "flow") == Some(FlowName(data.receipt.flow))
  {
    var fixed := FixedRequestTags(data, codecs);
    var tags := fixed + PTags(data.receipt.participants);
    FixedTagLayout(data, codecs);
    assert forall j :: 0 <= j < 9 ==> tags[j] == fixed[j];
    forall k | 0 <= k < 9
      ensures FindTag(tags, RequestTagNames[k]) == Some(fixed[k])
    {
      NamedAt(tags, RequestTagNames, k);
    }
    assert RequestTagNames[0] == "rid" && RequestTagNames[1] == "rhash" && RequestTagNames[2] == "amount";
    assert RequestTagNames[3] == "ccy" && RequestTagNames[6] == "meal" && RequestTagNames[7] == "privacy";
    assert RequestTagNames[8] == "flow";
  }

  /** The recipients of a request are its participants' pubkeys, in order. */
  lemma RequestRecipients(data: PaymentRequestEventData, codecs: Codecs)
    ensures PTagValues(FixedRequestTags(data, codecs) + PTags(data.receipt.participants)) == Pubkeys(data.receipt.participants)
  {
    var fixed := FixedRequestTags(data, codecs);
    FixedTagLayout(data, codecs);
    NoPTags(fixed);
    PTagValuesAppend(fixed, PTags(data.receipt.participants));
    PTagsValues(data.receipt.participants);
  }

  lemma {:induction false} PTagsValues(ps: seq<Participant>)
    ensures PTagValues(PTags(ps)) == Pubkeys(ps)
  {
    if ps != [] {
      assert PTags(ps) == [["p", ps[0].pubkey]] + PTags(ps[1..]);
      assert Pubkeys(ps) == [ps[0].pubkey] + Pubkeys(ps[1..]);
      assert PTags(ps)[1..] == PTags(ps[1..]);
      PTagsValues(ps[1..]);
    }
  }

  // ---------------------------------------------------------------- paid reply

  /** `createPaidReplyEvent`. */
  function CreatePaidReplyEvent(originalEventId: string, requestId: string, paidParticipant: Participant,
                                payMethod: PaymentMethod, pubkey: string): (e: UnsignedEvent)
    ensures e.kind == 1 && e.pubkey == pubkey && |e.tags| == 4
    ensures e.tags[0] == ["e", originalEventId, "reply"] && e.tags[1] == ["rid", requestId]
    ensures |e.tags[2]| == 3 && e.tags[2][..2] == ["paid", paidParticipant.pubkey]
    ensures ParseDecimal(e.tags[2][2]) == paidParticipant.paidSats
    ensures e.tags[3] == ["method", MethodName(payMethod)]
  {
    DecimalRoundTrip(paidParticipant.paidSats);
    var amount := DecimalString(paidParticipant.paidSats);
    UnsignedEvent(1, "Payment received: " + amount + " sats",
                  [["e", originalEventId, "reply"], ["rid", requestId], ["paid", paidParticipant.pubkey, amount], ["method", MethodName(payMethod)]],
                  pubkey)
  }

  datatype PaidReply = PaidReply(originalEventId: string, requestId: string, payer: string, paidSats: int, payMethod: string)

  function DecodePaidReply(e: UnsignedEvent): Option<PaidReply>
  {
    var ev := FindTag(e.tags, "e");
    var rid := FindTag(e.tags, "rid");
    var paid := FindTag(e.tags, "paid");
    var m := FindTag(e.tags, "method");
    if e.kind != 1 || ev.None? || rid.None? || paid.None? || m.None? then None
    else if |ev.value| < 3 || ev.value[2] != "reply" || |rid.value| < 2 || |paid.value| < 3 || |m.value| < 2 then None
    else Some(PaidReply(ev.value[1], rid.value[1], paid.value[1], ParseDecimal(paid.value[2]), m.value[1]))
  }

  /** Each of the four tags a paid reply carries is the one its name finds. */
  lemma PaidReplyTagsFound(originalEventId: string, requestId: string, p: Participant, payMethod: PaymentMethod, pubkey: string)
    ensures var t := CreatePaidReplyEvent(originalEventId, requestId, p, payMethod, pubkey).tags;
            FindTag(t, "e") == Some(t[0]) && FindTag(t, "rid") == Some(t[1]) &&
            FindTag(t, "paid") == Some(t[2]) && FindTag(t, "method") == Some(t[3])
  {
    var t := CreatePaidReplyEvent(originalEventId, requestId, p, payMethod, pubkey).tags;
    assert t[0][0] == "e" && t[1][0] == "rid" && t[2][0] == "paid" && t[3][0] == "method";
    FindTagAt(t, "e", 0);
    FindTagAt(t, "rid", 1);
    FindTagAt(t, "paid", 2);
    FindTagAt(t, "method", 3);
  }

  /** A paid reply reads back as the reply it encodes. */
  lemma PaidReplyRoundTrip(originalEventId: string, requestId: string, p: Participant, payMethod: PaymentMethod, pubkey: string)
    ensures DecodePaidReply(CreatePaidReplyEvent(originalEventId, requestId, p, payMethod, pubkey))
         == Some(PaidReply(originalEventId, requestId, p.pubkey, p.paidSats, MethodName(payMethod)))
  {
    var e := CreatePaidReplyEvent(originalEventId, requestId, p, payMethod, pubkey);
    PaidReplyTagsFound(originalEventId, requestId, p, payMethod, pubkey);
    DecodeFoundTags(e, e.tags[0], e.tags[1], e.tags[2], e.tags[3]);
    assert e.tags[0][1] == originalEventId && e.tags[1][1] == requestId;
    assert e.tags[2][1] == p.pubkey && e.tags[3][1] == MethodName(payMethod);
  }

  /** Decoding reads the fields off the tags the four names find. */
  lemma DecodeFoundTags(e: UnsignedEvent, ev: seq<string>, rid: seq<string>, paid: seq<string>, m: seq<string>)
    requires e.kind == 1
    requires FindTag(e.tags, "e") == Some(ev) && FindTag(e.tags, "rid") == Some(rid)
    requires FindTag(e.tags, "paid") == Some(paid) && FindTag(e.tags, "method") == Some(m)
    requires |ev| >= 3 && ev[2] == "reply" && |rid| >= 2 && |paid| >= 3 && |m| >= 2
    ensures DecodePaidReply(e) == Some(PaidReply(ev[1], rid[1], paid[1], ParseDecimal(paid[2]), m[1]))
  {
  }

  // ---------------------------------------------------------------- direct message

  /** The body of the direct message to one recipient. */
  function DmPayloadFor(recipient: Participant, data: PaymentRequestEventData, requestEventId: string): DmPayload
  {
    DmPayload("payment_request", data.requestId, data.mealType, recipient.shareSats, data.receipt.amountSats, data.receipt.currency, requestEventId,
              "You have a payment request for " + data.mealType + ": " + DecimalString(recipient.shareSats) + " sats")
  }

  /** NIP-04 encryption: sender key, recipient pubkey, plaintext to ciphertext, or the error it throws. */
  type Nip04Encrypt = (seq<byte>, string, string) -> Result<string, string>

  /** `createRecipientDM`: a kind 4 event whose content is the encrypted
      body, addressed by a `p` tag and carrying the request id. */
  function CreateRecipientDM(recipient: Participant, data: PaymentRequestEventData, requestEventId: string,
                             senderKey: seq<byte>, senderPubkey: string, codecs: Codecs, encrypt: Nip04Encrypt): (r: Result<UnsignedEvent, string>)
    ensures var sealed := encrypt(senderKey, recipient.pubkey, codecs.dmJson(DmPayloadFor(recipient, data, requestEventId)));
      match sealed
      case Failure(err) => r == Failure(err)
      case Success(ct) =>
        r.Success? && r.value.kind == 4 && r.value.content == ct && r.value.pubkey == senderPubkey
        && r.value.tags == [["p", recipient.pubkey], ["rid", data.requestId]]
  {
    var plaintext := codecs.dmJson(DmPayloadFor(recipient, data, requestEventId));
    match encrypt(senderKey, recipient.pubkey, plaintext)
    case Failure(err) => Failure(err)
    case Success(ct) => Success(UnsignedEvent(4, ct, [["p", recipient.pubkey], ["rid", data.requestId]], senderPubkey))
  }

  // ---------------------------------------------------------------- publishing

  /** A relay message after `JSON.parse`: an `OK` answer, anything else, or text that does not parse. */
  datatype Inbound =
    | OkMessage(eventId: string, accepted: bool, message: Option<string>)
    | OtherMessage
    | Unparsable(parseError: string)

  /** What happens at one relay: the connection fails (by error or by the
      five-second timeout), or it opens and these messages arrive before
      the ten-second timeout. */
  datatype RelayTrace =
    | ConnectFailed(timedOut: bool)
    | Connected(messages: seq<Inbound>)

  /** The outcome at each relay for each event id. */
  type Network = (string, string) -> RelayTrace

  datatype RelayResult = RelayResult(relay: string, success: bool, error: Option<string>)

  datatype PublishResult = PublishResult(success: bool, eventId: Option<string>, error: Option<string>, relayResults: seq<RelayResult>)

  /** The first decisive message decides: an `OK` for this event id, or a
      message that does not parse. `OK`s for other ids and other messages
      are skipped; with no decisive message the relay times out. */
  function ReadReplies(url: string, messages: seq<Inbound>, id: string): (r: RelayResult)
    ensures r.relay == url
    ensures r.success <==> exists i :: 0 <= i < |messages| && messages[i].OkMessage? && messages[i].eventId == id && messages[i].accepted
                                       && Undecided(messages[..i], id)
  {
    if messages == [] then RelayResult(url, false, Some("Timeout"))
    else
      var rest := ReadReplies(url, messages[1..], id);
      match messages[0]
      case OkMessage(mid, accepted, message) =>
        if mid == id then
          assert forall i :: 0 < i < |messages| ==> !Undecided(messages[..i], id) by {
            forall i | 0 < i < |messages| ensures !Undecided(messages[..i], id) {
              assert messages[..i][0] == messages[0];
            }
          }
          if accepted then RelayResult(url, true, None)
          else RelayResult(url, false, Some(if Truthy(message) then message.value else "Unknown error"))
        else
          UndecidedShift(messages, id);
          rest
      case OtherMessage =>
        UndecidedShift(messages, id);
        rest
      case Unparsable(err) =>
        assert forall i :: 0 < i < |messages| ==> !Undecided(messages[..i], id) by {
          forall i | 0 < i < |messages| ensures !Undecided(messages[..i], id) {
            assert messages[..i][0] == messages[0];
          }
        }
        RelayResult(url, false, Some(err))
  }

  /** No message in the prefix decides the outcome for this id. */
  predicate Undecided(prefix: seq<Inbound>, id: string)
  {
    forall j :: 0 <= j < |prefix| ==> !(prefix[j].OkMessage? && prefix[j].eventId == id) && !prefix[j].Unparsable?
  }

  lemma UndecidedShift(messages: seq<Inbound>, id: string)
    requires messages != [] && Undecided(messages[..1], id)
    ensures forall i :: 0 <= i < |messages| - 1 ==> (Undecided(messages[1..][..i], id) <==> Undecided(messages[..i + 1], id))
  {
    forall i | 0 <= i < |messages| - 1
      ensures Undecided(messages[1..][..i], id) <==> Undecided(messages[..i + 1], id)
    {
      assert messages[..i + 1] == messages[..1] + messages[1..][..i];
    }
  }

  /** The result for one relay. */
  function RelayOutcome(url: string, trace: RelayTrace, id: string): (r: RelayResult)
    ensures r.relay == url
    ensures r.success ==> trace.Connected?
  {
    match trace
    case ConnectFailed(timedOut) =>
      RelayResult(url, false, Some(if timedOut then "Connection timeout: " + url else "Failed to connect to relay: " + url))
    case Connected(messages) => ReadReplies(url, messages, id)
  }

  /** An `OK` for another event is ignored. */
  lemma OtherIdsIgnored(url: string, messages: seq<Inbound>, id: string, other: string, accepted: bool, message: Option<string>)
    requires other != id
    ensures ReadReplies(url, [OkMessage(other, accepted, message)] + messages, id) == ReadReplies(url, messages, id)
  {
    assert ([OkMessage(other, accepted, message)] + messages)[1..] == messages;
  }

  function CountSuccesses(results: seq<RelayResult>): (n: nat)
    ensures n <= |results|
    ensures n > 0 <==> exists i :: 0 <= i < |results| && results[i].success
  {
    if results == [] then 0
    else
      var rest := CountSuccesses(results[1..]);
      assert forall i :: 0 < i < |results| ==> results[i] == results[1..][i - 1];
      (if results[0].success then 1 else 0) + rest
  }

  function RelayResults(relays: seq<string>, id: string, network: Network): (r: seq<RelayResult>)
    ensures |r| == |relays|
    ensures forall i :: 0 <= i < |relays| ==> r[i] == RelayOutcome(relays[i], network(relays[i], id), id)
  {
    seq(|relays|, i requires 0 <= i < |relays| => RelayOutcome(relays[i], network(relays[i], id), id))
  }

  /** `publishEvent` as a value: the per-relay results in relay order and their aggregate. */
  function Publish(relays: seq<string>, id: string, network: Network): PublishResult
  {
    var results := RelayResults(relays, id, network);
    var successCount := CountSuccesses(results);
    PublishResult(successCount > 0,
                  if successCount > 0 then Some(id) else None,
                  if successCount == 0 then Some("Failed to publish to any relay") else None,
                  results)
  }

  /** Success iff some relay accepted this event; the id is reported only
      then, and the error text only otherwise; one result per relay. */
  lemma PublishMeaning(relays: seq<string>, id: string, network: Network)
    ensures var r := Publish(relays, id, network);
      && |r.relayResults| == |relays|
      && (forall i :: 0 <= i < |relays| ==> r.relayResults[i] == RelayOutcome(relays[i], network(relays[i], id), id))
      && (r.success <==> exists i :: 0 <= i < |relays| && RelayOutcome(relays[i], network(relays[i], id), id).success)
      && r.eventId == (if r.success then Some(id) else None)
      && r.error == (if r.success then None else Some("Failed to publish to any relay"))
  {
  }

  /** Publishing to no relay at all fails. */
  lemma PublishNoRelays(id: string, network: Network)
    ensures Publish([], id, network) == PublishResult(false, None, Some("Failed to publish to any relay"), [])
  {
  }

  /** The relays whose connection opened. */
  function ConnectedUrls(relays: seq<string>, id: string, network: Network): set<string>
  {
    if relays == [] then {}
    else
      var last := relays[|relays| - 1];
      ConnectedUrls(relays[..|relays| - 1], id, network) + (if network(last, id).Connected? then {last} else {})
  }

  /** A socket is kept exactly for the relays whose connection opened. */
  lemma {:induction false} ConnectedUrlsMembers(relays: seq<string>, id: string, network: Network)
    ensures forall url :: url in ConnectedUrls(relays, id, network) <==>
      exists i :: 0 <= i < |relays| && relays[i] == url && network(url, id).Connected?
  {
    if relays != [] {
      var init := relays[..|relays| - 1];
      ConnectedUrlsMembers(init, id, network);
      assert forall i :: 0 <= i < |init| ==> init[i] == relays[i];
    }
  }

  lemma RelayResultsSnoc(relays: seq<string>, url: string, id: string, network: Network)
    ensures RelayResults(relays + [url], id, network) == RelayResults(relays, id, network) + [RelayOutcome(url, network(url, id), id)]
  {
  }

  lemma ConnectedUrlsSnoc(relays: seq<string>, url: string, id: string, network: Network)
    ensures ConnectedUrls(relays + [url], id, network)
         == ConnectedUrls(relays, id, network) + (if network(url, id).Connected? then {url} else {})
  {
    assert (relays + [url])[..|relays|] == relays;
  }

  /** One more relay in publishing order: its result follows the earlier
      ones, and its socket joins theirs when it connected. */
  lemma PublishStep(urls: seq<string>, i: nat, id: string, network: Network)
    requires i < |urls|
    ensures RelayResults(urls[..i + 1], id, network)
         == RelayResults(urls[..i], id, network) + [RelayOutcome(urls[i], network(urls[i], id), id)]
    ensures ConnectedUrls(urls[..i + 1], id, network)
         == ConnectedUrls(urls[..i], id, network) + (if network(urls[i], id).Connected? then {urls[i]} else {})
  {
    assert urls[..i + 1] == urls[..i] + [urls[i]];
    RelayResultsSnoc(urls[..i], urls[i], id, network);
    ConnectedUrlsSnoc(urls[..i], urls[i], id, network);
  }

  /** The relay list and the open sockets of one event manager. */
  class EventManager {
    var relays: seq<string>
    var sockets: set<string>

    constructor(relays: seq<string>)
      ensures this.relays == relays && sockets == {}
    {
      this.relays := relays;
      sockets := {};
    }

    /** `setRelays`: replace the list and close every socket. */
    method SetRelays(relays: seq<string>)
      modifies this
      ensures this.relays == relays && sockets == {}
    {
      this.relays := relays;
      sockets := {};
    }

    method Disconnect()
      modifies this
      ensures sockets == {} && relays == old(relays)
    {
      sockets := {};
    }

    /** One relay: connect (the socket is kept when it opens), send, and read the answer. */
    method PublishTo(url: string, id: string, network: Network) returns (outcome: RelayResult)
      modifies this
      ensures outcome == RelayOutcome(url, network(url, id), id)
      ensures relays == old(relays)
      ensures sockets == old(sockets) + (if network(url, id).Connected? then {url} else {})
    {
      var trace := network(url, id);
      if trace.Connected? {
        sockets := sockets + {url};
      }
      outcome := RelayOutcome(url, trace, id);
    }

    /** `publishEvent` over the current relays; every relay that opened keeps its socket. */
    method PublishEvent(signed: SignedEvent, network: Network) returns (r: PublishResult)
      modifies this
      ensures r == Publish(relays, signed.id, network)
      ensures relays == old(relays)
      ensures sockets == old(sockets) + ConnectedUrls(relays, signed.id, network)
    {
      var urls := relays;
      var results: seq<RelayResult> := [];
      var successCount := 0;
      var i := 0;
      while i < |urls|
        invariant 0 <= i <= |urls|
        invariant relays == urls
        invariant results == RelayResults(urls[..i], signed.id, network)
        invariant successCount == CountSuccesses(results)
        invariant sockets == old(sockets) + ConnectedUrls(urls[..i], signed.id, network)
      {
        var url := urls[i];
        PublishStep(urls, i, signed.id, network);
        ghost var before := sockets;
        var outcome := PublishTo(url, signed.id, network);
        UnionAssoc(old(sockets), ConnectedUrls(urls[..i], signed.id, network),
                   if network(url, signed.id).Connected? then {url} else {});
        assert sockets == before + (if network(url, signed.id).Connected? then {url} else {});
        CountSnoc(results, outcome);
        results := results + [outcome];
        if outcome.success {
          successCount := successCount + 1;
        }
        i := i + 1;
      }
      assert urls[..i] == urls;
      assert results == RelayResults(urls, signed.id, network);
      r := PublishResult(successCount > 0,
                         if successCount > 0 then Some(signed.id) else None,
                         if successCount == 0 then Some("Failed to publish to any relay") else None,
                         results);
    }
  }

  lemma {:induction false} CountSnoc(results: seq<RelayResult>, x: RelayResult)
    ensures CountSuccesses(results + [x]) == CountSuccesses(results) + (if x.success then 1 else 0)
  {
    if results != [] {
      assert (results + [x])[1..] == results[1..] + [x];
      CountSnoc(results[1..], x);
    } else {
      assert results + [x] == [x];
    }
  }
}
