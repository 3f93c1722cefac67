/** The records of src/types/models.ts, plus the payment status
    vocabulary shared by the splitters and the receipt store. */
module Models {
  import opened Common

  /** The four statuses a participant can be in. The stored record type
      only names the first three; the second-generation rules in
      rounding.ts add `overpaid`. */
  datatype PaymentStatus = Pending | Partial | Paid | Overpaid

  datatype Participant = Participant(pubkey: string, shareSats: int, paidSats: int, status: PaymentStatus)

  datatype MealType = Breakfast | Lunch | Dinner | Other

  function MealName(m: MealType): string
  {
    match m
    case Breakfast => "Breakfast"
    case Lunch => "Lunch"
    case Dinner => "Dinner"
    case Other => "Other"
  }

  /** Who pays: 'i-pay-all' | 'they-pay-all' | 'split'. */
  datatype Flow = IPayAll | TheyPayAll | Split

  function FlowName(f: Flow): string
  {
    match f
    case IPayAll => "i-pay-all"
    case TheyPayAll => "they-pay-all"
    case Split => "split"
  }

  datatype Receipt = Receipt(
    id: string,
    createdAt: int,
    imageUri: string,
    rhash: string,
    amountFiat: real,
    currency: string,
    amountSats: int,
    fxRate: int,
    fxSource: string,
    fxTimestamp: int,
    mealType: MealType,
    participants: seq<Participant>,
    splitJson: string,
    flow: Flow,
    noteEventId: Option<string>)

  datatype Relay = Relay(url: string, read: bool, write: bool)

  datatype StoredKey = StoredKey(pubkey: string, encryptedPrivateKey: string, createdAt: int, lastUsed: int)

  /** A profile; an absent optional field is None. */
  datatype NostrProfile = NostrProfile(
    pubkey: string,
    name: Option<string>,
    displayName: Option<string>,
    picture: Option<string>,
    nip05: Option<string>,
    about: Option<string>)

  datatype Theme = Light | Dark | System

  datatype Settings = Settings(
    relays: seq<Relay>,
    theme: Theme,
    biometricEnabled: bool,
    defaultMealType: MealType,
    defaultCurrency: string)

  /** JavaScript truthiness of an optional string: present and non-empty. */
  predicate Truthy(s: Option<string>)
  {
    s.Some? && s.value != ""
  }

  /** The shares, paid amounts and keys of a participant list, in order. */
  function Shares(ps: seq<Participant>): (r: seq<int>)
    ensures |r| == |ps|
    ensures forall i :: 0 <= i < |ps| ==> r[i] == ps[i].shareSats
  {
    seq(|ps|, i requires 0 <= i < |ps| => ps[i].shareSats)
  }

  function Paids(ps: seq<Participant>): (r: seq<int>)
    ensures |r| == |ps|
    ensures forall i :: 0 <= i < |ps| ==> r[i] == ps[i].paidSats
  {
    seq(|ps|, i requires 0 <= i < |ps| => ps[i].paidSats)
  }

  function Pubkeys(ps: seq<Participant>): (r: seq<string>)
    ensures |r| == |ps|
    ensures forall i :: 0 <= i < |ps| ==> r[i] == ps[i].pubkey
  {
    seq(|ps|, i requires 0 <= i < |ps| => ps[i].pubkey)
  }
}
