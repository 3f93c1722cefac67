/** Shared vocabulary of the model: optional values, results, sums, the
    ASCII string helpers the TypeScript code gets from its runtime
    (toLowerCase, startsWith, includes, Number.toString(radix)) and the
    two-digit hex rendering of bytes used by the key vault and the hasher. */
module Common {

  datatype Option<+T> = None | Some(value: T)

  /** A value or the error a TypeScript `throw` would have carried. */
  datatype Result<+T, +E> = Success(value: T) | Failure(error: E)

  /** A byte of a Uint8Array. */
  type byte = x: int | 0 <= x < 256

  // ---------------------------------------------------------------- sums

  /** `xs.reduce((a, b) => a + b, 0)`. */
  function Sum(xs: seq<int>): int
  {
    if xs == [] then 0 else xs[0] + Sum(xs[1..])
  }

  lemma {:induction false} SumAppend(xs: seq<int>, ys: seq<int>)
    ensures Sum(xs + ys) == Sum(xs) + Sum(ys)
  {
    if xs == [] {
      assert xs + ys == ys;
    } else {
      assert (xs + ys)[1..] == xs[1..] + ys;
      SumAppend(xs[1..], ys);
    }
  }

  /** Sum of a sequence whose elements are all the same value. */
  lemma {:induction false} SumConstant(xs: seq<int>, c: int)
    requires forall i :: 0 <= i < |xs| ==> xs[i] == c
    ensures Sum(xs) == |xs| * c
  {
    if xs != [] {
      SumConstant(xs[1..], c);
    }
  }

  /** Pointwise smaller sequences have a smaller sum. */
  lemma {:induction false} SumMonotone(xs: seq<int>, ys: seq<int>)
    requires |xs| == |ys|
    requires forall i :: 0 <= i < |xs| ==> xs[i] <= ys[i]
    ensures Sum(xs) <= Sum(ys)
  {
    if xs != [] {
      SumMonotone(xs[1..], ys[1..]);
    }
  }

  /** Sum over reals, for the weights of a custom split. */
  function SumReal(xs: seq<real>): real
  {
    if xs == [] then 0.0 else xs[0] + SumReal(xs[1..])
  }

  lemma {:induction false} SumRealAppend(xs: seq<real>, ys: seq<real>)
    ensures SumReal(xs + ys) == SumReal(xs) + SumReal(ys)
  {
    if xs == [] {
      assert xs + ys == ys;
    } else {
      assert (xs + ys)[1..] == xs[1..] + ys;
      SumRealAppend(xs[1..], ys);
    }
  }

  lemma {:induction false} SumRealNonNegative(xs: seq<real>)
    requires forall i :: 0 <= i < |xs| ==> xs[i] >= 0.0
    ensures SumReal(xs) >= 0.0
  {
    if xs != [] {
      SumRealNonNegative(xs[1..]);
    }
  }

  // ---------------------------------------------------------------- ASCII

  predicate IsAscii(s: string)
  {
    forall i :: 0 <= i < |s| ==> s[i] as int < 128
  }

  predicate IsDigit(c: char) { '0' <= c <= '9' }

  predicate IsHexChar(c: char)
  {
    IsDigit(c) || 'a' <= c <= 'f' || 'A' <= c <= 'F'
  }

  predicate IsLowerHexChar(c: char)
  {
    IsDigit(c) || 'a' <= c <= 'f'
  }

  predicate AllHex(s: string)
  {
    forall i :: 0 <= i < |s| ==> IsHexChar(s[i])
  }

  predicate AllLowerHex(s: string)
  {
    forall i :: 0 <= i < |s| ==> IsLowerHexChar(s[i])
  }

  /** `toLowerCase` on ASCII letters; every other character is kept. */
  function LowerChar(c: char): char
  {
    if 'A' <= c <= 'Z' then (c as int + 32) as char else c
  }

  function UpperChar(c: char): char
  {
    if 'a' <= c <= 'z' then (c as int - 32) as char else c
  }

  function Lower(s: string): (r: string)
    ensures |r| == |s|
    ensures forall i :: 0 <= i < |s| ==> r[i] == LowerChar(s[i])
  {
    seq(|s|, i requires 0 <= i < |s| => LowerChar(s[i]))
  }

  function Upper(s: string): (r: string)
    ensures |r| == |s|
    ensures forall i :: 0 <= i < |s| ==> r[i] == UpperChar(s[i])
  {
    seq(|s|, i requires 0 <= i < |s| => UpperChar(s[i]))
  }

  predicate StartsWith(s: string, prefix: string)
  {
    |prefix| <= |s| && s[..|prefix|] == prefix
  }

  /** `s.includes(sub)`. */
  predicate Contains(s: string, sub: string)
  {
    exists i :: 0 <= i <= |s| - |sub| && OccursAt(s, sub, i)
  }

  predicate OccursAt(s: string, sub: string, i: int)
    requires 0 <= i <= |s| - |sub|
  {
    s[i..i + |sub|] == sub
  }

  /** Set union regroups freely. */
  lemma UnionAssoc<T>(a: set<T>, b: set<T>, c: set<T>)
    ensures a + b + c == a + (b + c)
  {
  }

  /** JavaScript `s.slice(start, end)` for non-negative bounds: both are clamped to the length. */
  function Slice<T>(s: seq<T>, start: nat, end: nat): (r: seq<T>)
    ensures |r| <= |s|
    ensures forall i :: 0 <= i < |r| ==> start + i < |s| && r[i] == s[start + i]
  {
    var e := if end <= |s| then end else |s|;
    var b := if start <= e then start else e;
    s[b..e]
  }

  /** How much `slice` keeps: everything from `start` up to the clamped end,
      and nothing when `start` lies past it. */
  lemma SliceBounds<T>(s: seq<T>, start: nat, end: nat)
    ensures start <= end <= |s| ==> Slice(s, start, end) == s[start..end]
    ensures start <= |s| <= end ==> Slice(s, start, end) == s[start..]
    ensures end < start || |s| < start ==> Slice(s, start, end) == []
  {
  }

  // ---------------------------------------------------------------- radix rendering

  /** The digit characters of `Number.prototype.toString(radix)`. */
  function DigitChar(d: nat): (c: char)
    requires d < 36
  {
    if d < 10 then ('0' as int + d) as char else ('a' as int + d - 10) as char
  }

  /** Inverse of DigitChar; -1 for a character that is no digit. */
  function DigitValue(c: char): int
  {
    if '0' <= c <= '9' then c as int - '0' as int
    else if 'a' <= c <= 'z' then c as int - 'a' as int + 10
    else if 'A' <= c <= 'Z' then c as int - 'A' as int + 10
    else -1
  }

  lemma DigitValueOfChar(d: nat)
    requires d < 36
    ensures DigitValue(DigitChar(d)) == d
  {
  }

  /** `n.toString(base)` for a non-negative integer. */
  function Radix(n: nat, base: nat): (r: string)
    requires 2 <= base <= 36
    decreases n
  {
    if n < base then [DigitChar(n)]
    else DivShrinks(n, base); Radix(n / base, base) + [DigitChar(n % base)]
  }

  /** The value of a digit string read most significant digit first. */
  function ParseRadix(s: string, base: nat): int
    requires 2 <= base <= 36
  {
    if s == [] then 0 else ParseRadix(s[..|s| - 1], base) * base + DigitValue(s[|s| - 1])
  }

  lemma ParseRadixSnoc(t: string, c: char, base: nat)
    requires 2 <= base <= 36
    ensures ParseRadix(t + [c], base) == ParseRadix(t, base) * base + DigitValue(c)
  {
    assert (t + [c])[..|t + [c]| - 1] == t;
  }

  /** Integer division by a base of at least two shrinks a number that is
      at least the base, and the quotient and remainder recompose it. */
  lemma DivShrinks(n: nat, base: nat)
    requires 2 <= base <= n
    ensures 0 < n / base < n && n % base < base
    ensures n == (n / base) * base + n % base
  {
    var q, r := n / base, n % base;
    assert n == q * base + r;
    MulGrows(q, base);
  }

  lemma {:induction false} MulGrows(q: nat, b: nat)
    requires b >= 2
    ensures q * b >= 2 * q
    decreases q
  {
    if q > 0 {
      MulGrows(q - 1, b);
      assert q * b == (q - 1) * b + b;
    }
  }

  lemma {:induction false} RadixRoundTrip(n: nat, base: nat)
    requires 2 <= base <= 36
    ensures Radix(n, base) != []
    ensures ParseRadix(Radix(n, base), base) == n
    decreases n
  {
    if n < base {
      DigitValueOfChar(n);
      ParseRadixSnoc([], DigitChar(n), base);
      assert [] + [DigitChar(n)] == Radix(n, base);
    } else {
      DivShrinks(n, base);
      var q, d := n / base, n % base;
      assert Radix(n, base) == Radix(q, base) + [DigitChar(d)];
      RadixRoundTrip(q, base);
      DigitValueOfChar(d);
      ParseRadixSnoc(Radix(q, base), DigitChar(d), base);
    }
  }

  lemma DigitCharRange(d: nat)
    requires d < 36
    ensures IsDigit(DigitChar(d)) || 'a' <= DigitChar(d) <= 'z'
  {
  }

  lemma {:induction false} RadixDigits(n: nat, base: nat)
    requires 2 <= base <= 36
    ensures forall i :: 0 <= i < |Radix(n, base)| ==> IsDigit(Radix(n, base)[i]) || 'a' <= Radix(n, base)[i] <= 'z'
    decreases n
  {
    if n < base {
      DigitCharRange(n);
    } else {
      DivShrinks(n, base);
      var q, d := n / base, n % base;
      var front := Radix(q, base);
      assert Radix(n, base) == front + [DigitChar(d)];
      RadixDigits(q, base);
      DigitCharRange(d);
      forall i | 0 <= i < |front| + 1
        ensures IsDigit((front + [DigitChar(d)])[i]) || 'a' <= (front + [DigitChar(d)])[i] <= 'z'
      {
        if i < |front| {
          assert (front + [DigitChar(d)])[i] == front[i];
        }
      }
    }
  }

  /** `n.toString()` for any integer. */
  function DecimalString(n: int): string
  {
    if n < 0 then "-" + Radix(-n, 10) else Radix(n, 10)
  }

  /** Reads back what DecimalString wrote. */
  function ParseDecimal(s: string): int
  {
    if |s| > 0 && s[0] == '-' then -ParseRadix(s[1..], 10) else ParseRadix(s, 10)
  }

  lemma DecimalRoundTrip(n: int)
    ensures ParseDecimal(DecimalString(n)) == n
  {
    if n < 0 {
      RadixRoundTrip(-n, 10);
      assert DecimalString(n)[1..] == Radix(-n, 10);
    } else {
      RadixRoundTrip(n, 10);
      RadixDigits(n, 10);
      assert IsDigit(Radix(n, 10)[0]) || 'a' <= Radix(n, 10)[0] <= 'z';
    }
  }

  // ---------------------------------------------------------------- hex rendering of bytes

  /** `b.toString(16).padStart(2, '0')`. */
  function ByteHex(b: byte): (r: string)
    ensures |r| == 2 && AllLowerHex(r)
  {
    [DigitChar(b / 16), DigitChar(b % 16)]
  }

  /** Bytes rendered as lowercase hex, two digits per byte, joined. */
  function Hex(bs: seq<byte>): (r: string)
    ensures |r| == 2 * |bs|
    ensures AllLowerHex(r)
  {
    if bs == [] then [] else ByteHex(bs[0]) + Hex(bs[1..])
  }

  lemma {:induction false} HexAt(bs: seq<byte>, k: nat)
    requires k < |bs|
    ensures Hex(bs)[2 * k..2 * k + 2] == ByteHex(bs[k])
  {
    if k > 0 {
      HexAt(bs[1..], k - 1);
      assert Hex(bs)[2 * k..2 * k + 2] == Hex(bs[1..])[2 * (k - 1)..2 * (k - 1) + 2];
    }
  }

  lemma {:induction false} HexAppend(xs: seq<byte>, ys: seq<byte>)
    ensures Hex(xs + ys) == Hex(xs) + Hex(ys)
  {
    if xs == [] {
      assert xs + ys == ys;
    } else {
      assert (xs + ys)[1..] == xs[1..] + ys;
      HexAppend(xs[1..], ys);
    }
  }

  // ---------------------------------------------------------------- sorting newest first

  /** Elements ordered by a non-increasing key (`sort((a, b) => key(b) - key(a))`). */
  ghost predicate SortedDesc<T>(s: seq<T>, key: T -> int)
  {
    forall i, j :: 0 <= i < j < |s| ==> key(s[i]) >= key(s[j])
  }

  /** Insert `x` in front of the first element whose key is smaller. */
  function InsertDesc<T>(x: T, s: seq<T>, key: T -> int): (r: seq<T>)
    ensures |r| == |s| + 1
    ensures multiset(r) == multiset(s) + multiset{x}
  {
    if s == [] || key(s[0]) < key(x) then [x] + s
    else
      assert s == [s[0]] + s[1..];
      [s[0]] + InsertDesc(x, s[1..], key)
  }

  lemma {:induction false} InsertDescSorted<T>(x: T, s: seq<T>, key: T -> int)
    requires SortedDesc(s, key)
    ensures SortedDesc(InsertDesc(x, s, key), key)
  {
    if s != [] && key(s[0]) >= key(x) {
      InsertDescSorted(x, s[1..], key);
      var r := InsertDesc(x, s, key);
      var t := InsertDesc(x, s[1..], key);
      assert r == [s[0]] + t;
      forall j | 0 < j < |r| ensures key(r[0]) >= key(r[j]) {
        assert r[j] in multiset(t);
        assert r[j] in multiset(s[1..]) + multiset{x};
        if r[j] != x {
          assert r[j] in s[1..];
        }
      }
    }
  }
}
