/** src/lib/rounding.ts: the second generation of splitters and the
    payment-status rules. Pure functions over participant lists. */
module Rounding {
  import opened Common
  import opened Models

  /** A participant with the given share, nothing paid yet. */
  function Fresh(p: Participant, share: int): Participant
  {
    Participant(p.pubkey, share, 0, Pending)
  }

  /** Every participant gets `floor(total / n)`; the remainder is dropped.
      An empty list stays empty (the division by zero never reaches a participant). */
  function SplitEqual(totalSats: int, participants: seq<Participant>): (r: seq<Participant>)
    ensures |r| == |participants|
    ensures forall i :: 0 <= i < |r| ==>
      r[i].pubkey == participants[i].pubkey && r[i].paidSats == 0 && r[i].status == Pending
    ensures forall i :: 0 <= i < |r| ==> r[i].shareSats * |r| <= totalSats < (r[i].shareSats + 1) * |r|
  {
    if |participants| == 0 then []
    else
      var per := totalSats / |participants|;
      seq(|participants|, i requires 0 <= i < |participants| => Fresh(participants[i], per))
  }

  /** The shares of an equal split add up to the total minus `total mod n`:
      never more than the total, short by less than one share per participant. */
  lemma SplitEqualTotal(totalSats: int, participants: seq<Participant>)
    requires |participants| > 0
    ensures GetTotalOwed(SplitEqual(totalSats, participants)) == totalSats - totalSats % |participants|
    ensures GetTotalOwed(SplitEqual(totalSats, participants)) <= totalSats
    ensures totalSats - GetTotalOwed(SplitEqual(totalSats, participants)) < |participants|
    ensures GetTotalPaid(SplitEqual(totalSats, participants)) == 0
    ensures GetOverallStatus(SplitEqual(totalSats, participants)) == Open
  {
    var n := |participants|;
    var r := SplitEqual(totalSats, participants);
    SumConstant(Shares(r), totalSats / n);
    SumConstant(Paids(r), 0);
    DivMod(totalSats, n);
  }

  lemma DivMod(a: int, n: nat)
    requires n > 0
    ensures a == (a / n) * n + a % n
    ensures 0 <= a % n < n
  {
  }

  /** The share of one weight: `floor(total * (w / W))`. */
  function CustomShare(totalSats: int, w: real, totalWeight: real): int
    requires totalWeight != 0.0
  {
    (totalSats as real * (w / totalWeight)).Floor
  }

  /** Shares by weight. Participant i takes weight i; the total weight
      is the sum of all weights given, also any beyond the participants. */
  function SplitCustom(totalSats: int, participants: seq<Participant>, customShares: seq<real>): (r: seq<Participant>)
    requires |participants| <= |customShares|
    requires SumReal(customShares) != 0.0
    ensures |r| == |participants|
    ensures forall i :: 0 <= i < |r| ==>
      r[i].pubkey == participants[i].pubkey && r[i].paidSats == 0 && r[i].status == Pending
    ensures forall i :: 0 <= i < |r| ==>
      r[i].shareSats as real <= totalSats as real * (customShares[i] / SumReal(customShares)) < r[i].shareSats as real + 1.0
  {
    var w := SumReal(customShares);
    seq(|participants|, i requires 0 <= i < |participants| => Fresh(participants[i], CustomShare(totalSats, customShares[i], w)))
  }

  /** The floored shares of a run of weights against one total weight. */
  function CustomShares(totalSats: int, ws: seq<real>, w: real): (r: seq<int>)
    requires w != 0.0
    ensures |r| == |ws|
    ensures forall i :: 0 <= i < |ws| ==> r[i] == CustomShare(totalSats, ws[i], w)
  {
    seq(|ws|, i requires 0 <= i < |ws| => CustomShare(totalSats, ws[i], w))
  }

  /** The floored shares of a run of weights never exceed the exact shares. */
  lemma {:induction false} CustomSharesBelowExact(totalSats: int, ws: seq<real>, w: real)
    requires w > 0.0
    ensures Sum(CustomShares(totalSats, ws, w)) as real <= totalSats as real * SumReal(ws) / w
  {
    var xs := CustomShares(totalSats, ws, w);
    if ws != [] {
      assert xs[1..] == CustomShares(totalSats, ws[1..], w);
      CustomSharesBelowExact(totalSats, ws[1..], w);
      var t := totalSats as real;
      assert xs[0] as real <= t * (ws[0] / w);
      Distribute(t, ws[0], SumReal(ws[1..]), w);
    }
  }

  lemma Distribute(t: real, a: real, b: real, w: real)
    requires w > 0.0
    ensures t * (a / w) + t * b / w == t * (a + b) / w
  {
    calc {
      t * (a / w) + t * b / w;
      t * a / w + t * b / w;
      (t * a + t * b) / w;
      t * (a + b) / w;
    }
  }

  lemma ScaledFractionAtMostOne(t: real, a: real, w: real)
    requires t >= 0.0 && w > 0.0 && a <= w
    ensures t * a / w <= t
  {
    assert t * a <= t * w;
    assert t * w / w == t;
  }

  /** With non-negative weights of positive sum, a custom split never allocates more than the total. */
  lemma SplitCustomNeverOverAllocates(totalSats: int, participants: seq<Participant>, customShares: seq<real>)
    requires totalSats >= 0
    requires |participants| <= |customShares|
    requires forall i :: 0 <= i < |customShares| ==> customShares[i] >= 0.0
    requires SumReal(customShares) > 0.0
    ensures GetTotalOwed(SplitCustom(totalSats, participants, customShares)) <= totalSats
    ensures GetTotalPaid(SplitCustom(totalSats, participants, customShares)) == 0
  {
    var n := |participants|;
    var w := SumReal(customShares);
    var r := SplitCustom(totalSats, participants, customShares);
    var used := customShares[..n];
    UsedWeightsAtMostTotal(customShares, n);
    assert Shares(r) == CustomShares(totalSats, used, w);
    CustomSharesAtMostTotal(totalSats, used, w);
    SumConstant(Paids(r), 0);
  }

  lemma CustomSharesAtMostTotal(totalSats: int, ws: seq<real>, w: real)
    requires totalSats >= 0 && w > 0.0 && SumReal(ws) <= w
    ensures Sum(CustomShares(totalSats, ws, w)) <= totalSats
  {
    CustomSharesBelowExact(totalSats, ws, w);
    ScaledFractionAtMostOne(totalSats as real, SumReal(ws), w);
  }

  lemma UsedWeightsAtMostTotal(ws: seq<real>, n: nat)
    requires n <= |ws|
    requires forall i :: 0 <= i < |ws| ==> ws[i] >= 0.0
    ensures SumReal(ws[..n]) <= SumReal(ws)
  {
    assert ws == ws[..n] + ws[n..];
    SumRealAppend(ws[..n], ws[n..]);
    SumRealNonNegative(ws[n..]);
  }

  /** `pending` when nothing is paid, `partial` below the share,
      `paid` at the share, `overpaid` above it. */
  function CalculatePaymentStatus(participant: Participant): (r: PaymentStatus)
    ensures r == Pending <==> participant.paidSats == 0
    ensures r == Partial <==> participant.paidSats != 0 && participant.paidSats < participant.shareSats
    ensures r == Paid <==> participant.paidSats != 0 && participant.paidSats == participant.shareSats
    ensures r == Overpaid <==> participant.paidSats != 0 && participant.paidSats > participant.shareSats
  {
    if participant.paidSats == 0 then Pending
    else if participant.paidSats < participant.shareSats then Partial
    else if participant.paidSats == participant.shareSats then Paid
    else Overpaid
  }

  function GetTotalOwed(participants: seq<Participant>): int
  {
    Sum(Shares(participants))
  }

  function GetTotalPaid(participants: seq<Participant>): int
  {
    Sum(Paids(participants))
  }

  /** Totals of a list are the totals of its parts. */
  lemma TotalsAppend(ps: seq<Participant>, qs: seq<Participant>)
    ensures GetTotalOwed(ps + qs) == GetTotalOwed(ps) + GetTotalOwed(qs)
    ensures GetTotalPaid(ps + qs) == GetTotalPaid(ps) + GetTotalPaid(qs)
  {
    assert Shares(ps + qs) == Shares(ps) + Shares(qs);
    assert Paids(ps + qs) == Paids(ps) + Paids(qs);
    SumAppend(Shares(ps), Shares(qs));
    SumAppend(Paids(ps), Paids(qs));
  }

  datatype OverallStatus = Open | PartiallyPaid | Settled | OverpaidOverall

  /** `open` with nothing paid, `partial` below the total owed, `settled` at it, `overpaid` above. */
  function GetOverallStatus(participants: seq<Participant>): (r: OverallStatus)
    ensures r == Open <==> GetTotalPaid(participants) == 0
    ensures r == PartiallyPaid <==> GetTotalPaid(participants) != 0 && GetTotalPaid(participants) < GetTotalOwed(participants)
    ensures r == Settled <==> GetTotalPaid(participants) != 0 && GetTotalPaid(participants) == GetTotalOwed(participants)
    ensures r == OverpaidOverall <==> GetTotalPaid(participants) != 0 && GetTotalPaid(participants) > GetTotalOwed(participants)
  {
    var owed := GetTotalOwed(participants);
    var paid := GetTotalPaid(participants);
    if paid == 0 then Open
    else if paid < owed then PartiallyPaid
    else if paid == owed then Settled
    else OverpaidOverall
  }

  /** When every participant with a positive share is individually `paid`,
      the request as a whole is `settled`. */
  lemma {:induction false} AllPaidIsSettled(participants: seq<Participant>)
    requires |participants| > 0
    requires forall i :: 0 <= i < |participants| ==>
      participants[i].shareSats > 0 && CalculatePaymentStatus(participants[i]) == Paid
    ensures GetOverallStatus(participants) == Settled
  {
    assert Paids(participants) == Shares(participants);
    PositiveSum(Shares(participants));
  }

  lemma {:induction false} PositiveSum(xs: seq<int>)
    requires |xs| > 0
    requires forall i :: 0 <= i < |xs| ==> xs[i] > 0
    ensures Sum(xs) > 0
  {
    if |xs| > 1 {
      PositiveSum(xs[1..]);
    }
  }

  /** Someone still short of their share, while nobody pays beyond theirs,
      keeps the request from being `settled`. */
  lemma {:induction false} OneShortIsNotSettled(participants: seq<Participant>, k: nat)
    requires k < |participants|
    requires participants[k].paidSats < participants[k].shareSats
    requires forall i :: 0 <= i < |participants| ==> participants[i].paidSats <= participants[i].shareSats
    ensures GetOverallStatus(participants) != Settled
    ensures GetOverallStatus(participants) != OverpaidOverall
  {
    StrictlyBelow(Paids(participants), Shares(participants), k);
  }

  lemma {:induction false} StrictlyBelow(xs: seq<int>, ys: seq<int>, k: nat)
    requires |xs| == |ys| && k < |xs|
    requires forall i :: 0 <= i < |xs| ==> xs[i] <= ys[i]
    requires xs[k] < ys[k]
    ensures Sum(xs) < Sum(ys)
  {
    if k == 0 {
      SumMonotone(xs[1..], ys[1..]);
    } else {
      StrictlyBelow(xs[1..], ys[1..], k - 1);
    }
  }
}
