/** src/lib/ids.ts: request ids (a base-36 timestamp, an underscore and
    sixteen hex digits of a random UUID) and the hex rendering of SHA-256
    digests. The clock, the UUID generator and the digest are inputs. */
module Ids {
  import opened Common
  import Crypto

  /** The positions of the four hyphens of a UUID. */
  predicate HyphenAt(i: int)
  {
    i == 8 || i == 13 || i == 18 || i == 23
  }

  /** A UUID as crypto.randomUUID renders it: 36 characters, hyphens at
      positions 8, 13, 18 and 23, lowercase hex digits elsewhere. */
  predicate IsUuid(u: string)
  {
    |u| == 36 &&
    forall i :: 0 <= i < 36 ==> if HyphenAt(i) then u[i] == '-' else IsLowerHexChar(u[i])
  }

  /** `s.replace(/-/g, '')`. */
  function RemoveHyphens(s: string): (r: string)
    ensures forall i :: 0 <= i < |r| ==> r[i] != '-'
    ensures |r| <= |s|
  {
    if s == [] then []
    else (if s[0] == '-' then [] else [s[0]]) + RemoveHyphens(s[1..])
  }

  lemma {:induction false} RemoveHyphensAppend(a: string, b: string)
    ensures RemoveHyphens(a + b) == RemoveHyphens(a) + RemoveHyphens(b)
  {
    if a == [] {
      assert a + b == b;
    } else {
      assert (a + b)[1..] == a[1..] + b;
      RemoveHyphensAppend(a[1..], b);
    }
  }

  /** A group of hex digits followed by a hyphen loses only the hyphen. */
  lemma StripGroup(x: string, y: string)
    requires AllLowerHex(x)
    ensures RemoveHyphens(x + "-" + y) == x + RemoveHyphens(y)
  {
    var z := "-" + y;
    assert x + "-" + y == x + z;
    RemoveHyphensAppend(x, z);
    RemoveHyphensOfHex(x);
    assert z[0] == '-' && z[1..] == y;
    assert RemoveHyphens(z) == RemoveHyphens(y);
  }

  lemma {:induction false} RemoveHyphensOfHex(s: string)
    requires AllLowerHex(s)
    ensures RemoveHyphens(s) == s
  {
    if s != [] {
      RemoveHyphensOfHex(s[1..]);
    }
  }

  /** A hyphen-free stretch of a UUID is lowercase hex. */
  lemma UuidGroup(u: string, a: nat, b: nat)
    requires IsUuid(u) && a <= b <= 36
    requires forall i :: a <= i < b ==> !HyphenAt(i)
    ensures AllLowerHex(u[a..b])
  {
    forall i | 0 <= i < b - a
      ensures IsLowerHexChar(u[a..b][i])
    {
      assert u[a..b][i] == u[a + i];
      assert !HyphenAt(a + i);
    }
  }

  lemma AllLowerHexAppend(a: string, b: string)
    requires AllLowerHex(a) && AllLowerHex(b)
    ensures AllLowerHex(a + b)
  {
    forall i | 0 <= i < |a + b|
      ensures IsLowerHexChar((a + b)[i])
    {
      if i < |a| {
        assert (a + b)[i] == a[i];
      } else {
        assert (a + b)[i] == b[i - |a|];
      }
    }
  }

  /** A UUID is its five groups joined by hyphens. */
  lemma UuidShape(u: string)
    requires IsUuid(u)
    ensures u == u[0..8] + "-" + (u[9..13] + "-" + (u[14..18] + "-" + (u[19..23] + "-" + u[24..36])))
  {
    assert HyphenAt(8) && HyphenAt(13) && HyphenAt(18) && HyphenAt(23);
  }

  /** The 32 hex digits of a UUID. */
  lemma UuidDigits(u: string)
    requires IsUuid(u)
    ensures |RemoveHyphens(u)| == 32
    ensures AllLowerHex(RemoveHyphens(u))
  {
    var g1, g2, g3, g4, e := u[0..8], u[9..13], u[14..18], u[19..23], u[24..36];
    UuidGroup(u, 0, 8);
    UuidGroup(u, 9, 13);
    UuidGroup(u, 14, 18);
    UuidGroup(u, 19, 23);
    UuidGroup(u, 24, 36);
    UuidShape(u);
    RemoveHyphensOfHex(e);
    StripGroup(g4, e);
    StripGroup(g3, g4 + "-" + e);
    StripGroup(g2, g3 + "-" + (g4 + "-" + e));
    StripGroup(g1, g2 + "-" + (g3 + "-" + (g4 + "-" + e)));
    assert RemoveHyphens(u) == g1 + (g2 + (g3 + (g4 + e)));
    AllLowerHexAppend(g4, e);
    AllLowerHexAppend(g3, g4 + e);
    AllLowerHexAppend(g2, g3 + (g4 + e));
    AllLowerHexAppend(g1, g2 + (g3 + (g4 + e)));
  }

  /** The first `_` after a run with none is the one right after the run. */
  lemma {:induction false} IndexAfterPrefix(t: string, rest: string)
    requires forall i :: 0 <= i < |t| ==> t[i] != '_'
    ensures IndexOf(t + "_" + rest, '_') == Some(|t|)
  {
    if t != [] {
      assert (t + "_" + rest)[1..] == t[1..] + "_" + rest;
      IndexAfterPrefix(t[1..], rest);
    }
  }

  /** `${Date.now().toString(36)}_${uuid without hyphens, first 16}` for
      the clock reading `now` and the UUID `uuid`. */
  function GenerateRequestId(now: nat, uuid: string): string
  {
    Radix(now, 36) + "_" + Slice(RemoveHyphens(uuid), 0, 16)
  }

  /** The index of the first occurrence of `c`. */
  function IndexOf(s: string, c: char): (r: Option<nat>)
    ensures r.Some? ==> r.value < |s| && s[r.value] == c && forall j :: 0 <= j < r.value ==> s[j] != c
    ensures r.None? ==> forall j :: 0 <= j < |s| ==> s[j] != c
  {
    if s == [] then None
    else if s[0] == c then Some(0)
    else match IndexOf(s[1..], c)
      case None => None
      case Some(k) => Some(k + 1)
  }

  /** Reads a request id back: the base-36 timestamp before the first
      underscore and the random part after it. */
  function ParseRequestId(id: string): Option<(int, string)>
  {
    match IndexOf(id, '_')
    case None => None
    case Some(k) => Some((ParseRadix(id[..k], 36), id[k + 1..]))
  }

  /** A request id has the timestamp's digits, then `_`, then sixteen
      lowercase hex digits; the digits contain no underscore, so the id
      splits uniquely and gives back the clock reading and the UUID's first
      sixteen digits. */
  lemma RequestIdFormat(now: nat, uuid: string)
    requires IsUuid(uuid)
    ensures var id := GenerateRequestId(now, uuid);
            var k := |Radix(now, 36)|;
            |id| == k + 17 && id[k] == '_' && AllLowerHex(id[k + 1..]) &&
            ParseRequestId(id) == Some((now, Slice(RemoveHyphens(uuid), 0, 16)))
  {
    var id := GenerateRequestId(now, uuid);
    var t := Radix(now, 36);
    var k := |t|;
    UuidDigits(uuid);
    RadixDigits(now, 36);
    RadixRoundTrip(now, 36);
    assert id[..k] == t;
    assert id[k + 1..] == RemoveHyphens(uuid)[..16];
    assert id == t + "_" + RemoveHyphens(uuid)[..16];
    IndexAfterPrefix(t, RemoveHyphens(uuid)[..16]);
  }

  /** Two request ids are equal only when their clock readings and their
      random parts are. */
  lemma RequestIdInjective(now1: nat, uuid1: string, now2: nat, uuid2: string)
    requires IsUuid(uuid1) && IsUuid(uuid2)
    requires GenerateRequestId(now1, uuid1) == GenerateRequestId(now2, uuid2)
    ensures now1 == now2
    ensures Slice(RemoveHyphens(uuid1), 0, 16) == Slice(RemoveHyphens(uuid2), 0, 16)
  {
    RequestIdFormat(now1, uuid1);
    RequestIdFormat(now2, uuid2);
  }

  /** `crypto.randomUUID()`: the receipt id is the UUID itself. */
  function GenerateReceiptId(uuid: string): (r: string)
    requires IsUuid(uuid)
    ensures |r| == 36 && r[8] == '-'
  {
    uuid
  }

  /** The digest bytes rendered as two lowercase hex digits each and joined;
      hashReceiptImage digests the image bytes, hashData the UTF-8 bytes of a string. */
  function HashReceiptImage(sha256: seq<byte> -> seq<byte>, imageBytes: seq<byte>): string
  {
    Hex(sha256(imageBytes))
  }

  function HashData(sha256: seq<byte> -> seq<byte>, utf8: string -> seq<byte>, data: string): string
  {
    Hex(sha256(utf8(data)))
  }

  /** A 32-byte digest becomes 64 lowercase hex characters, from which the
      digest reads back; both hash functions render the same way. */
  lemma DigestRendering(sha256: seq<byte> -> seq<byte>, utf8: string -> seq<byte>, imageBytes: seq<byte>, data: string)
    requires forall m :: |sha256(m)| == 32
    ensures |HashReceiptImage(sha256, imageBytes)| == 64 && AllLowerHex(HashReceiptImage(sha256, imageBytes))
    ensures |HashData(sha256, utf8, data)| == 64 && AllLowerHex(HashData(sha256, utf8, data))
    ensures Crypto.HexPairs(HashReceiptImage(sha256, imageBytes)) == sha256(imageBytes)
    ensures Crypto.HexPairs(HashData(sha256, utf8, data)) == sha256(utf8(data))
    ensures utf8(data) == imageBytes ==> HashData(sha256, utf8, data) == HashReceiptImage(sha256, imageBytes)
  {
    Crypto.HexPairsRoundTrip(sha256(imageBytes));
    Crypto.HexPairsRoundTrip(sha256(utf8(data)));
  }
}
