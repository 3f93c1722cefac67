/** src/lib/crypto.ts: password protection of the private key. The key is
    rendered as lowercase hex, sealed with AES-GCM under a key derived from
    the password by PBKDF2, and stored as base64 of salt ‖ iv ‖ ciphertext.
    The primitives themselves (PBKDF2 of RFC 8018 section 5.2, AES-GCM of
    NIST SP 800-38D, UTF-8 and base64) are injected, together with the laws
    the model relies on. */
module Crypto {
  import opened Common

  const SaltLength: nat := 16
  const IvLength: nat := 12
  /** PBKDF2 parameters shared by both directions: 100000 iterations of
      HMAC-SHA-256, deriving an AES-GCM key of 256 bits. */
  const Pbkdf2Iterations: nat := 100000
  const KeyBits: nat := 256

  /** The foreign primitives.
      `deriveKey(passwordBytes, salt, iterations)` is PBKDF2-SHA-256 to a 256-bit key;
      `seal(key, iv, plaintext)` is AES-GCM encryption (ciphertext ‖ tag);
      `open(key, iv, data)` is AES-GCM decryption, None when authentication fails;
      `utf8`/`utf8Decode` are TextEncoder/TextDecoder; `btoa`/`atob` the base64
      wrapping of a byte string, `atob` None on malformed input. */
  datatype Primitives = Primitives(
    deriveKey: (seq<byte>, seq<byte>, nat) -> seq<byte>,
    seal: (seq<byte>, seq<byte>, seq<byte>) -> seq<byte>,
    open: (seq<byte>, seq<byte>, seq<byte>) -> Option<seq<byte>>,
    utf8: string -> seq<byte>,
    utf8Decode: seq<byte> -> string,
    btoa: seq<byte> -> string,
    atob: string -> Option<seq<byte>>)

  /** The laws assumed of the primitives: AES-GCM opens what it sealed under
      the same key and iv; a key derived from a different password does not
      authenticate (the AEAD integrity assumption, with PBKDF2 taken as
      injective on passwords); UTF-8 and base64 decode what they encode. */
  ghost predicate Lawful(p: Primitives)
  {
    (forall k, iv, m :: p.open(k, iv, p.seal(k, iv, m)) == Some(m)) &&
    (forall pw1, pw2, salt, iv, m :: pw1 != pw2 ==>
      p.open(p.deriveKey(p.utf8(pw2), salt, Pbkdf2Iterations), iv,
             p.seal(p.deriveKey(p.utf8(pw1), salt, Pbkdf2Iterations), iv, m)) == None) &&
    (forall s :: p.utf8Decode(p.utf8(s)) == s) &&
    (forall bs :: p.atob(p.btoa(bs)) == Some(bs))
  }

  datatype CryptoError =
    | InvalidBase64        // atob throws
    | DecryptionFailed     // crypto.subtle.decrypt rejects
    | NoHexDigits          // `match` finds no chunk, so `!` then `.map` throws

  // ---------------------------------------------------------------- hex codec

  /** The line terminators, which `.` in a regular expression does not match. */
  predicate IsLineTerminator(c: char)
  {
    c == '\n' || c == '\r' || c == '\U{2028}' || c == '\U{2029}'
  }

  /** The white space other than line terminators that `parseInt` skips
      before the digits: tab, vertical tab, form feed, the byte order mark
      and the space separators. */
  predicate IsInlineSpace(c: char)
  {
    c == '\t' || c == '\U{000B}' || c == '\U{000C}' || c == '\U{FEFF}' ||
    c == ' ' || c == '\U{00A0}' || c == '\U{1680}' || '\U{2000}' <= c <= '\U{200A}' ||
    c == '\U{202F}' || c == '\U{205F}' || c == '\U{3000}'
  }

  /** `parseInt(chunk, 16)` stored into a Uint8Array, for a chunk of one or
      two characters without a line terminator. Leading white space and a
      sign are read before the hex digits, and reading stops at the first
      other character. A negative value is stored modulo 256. A chunk with
      no digit is NaN, which the array stores as 0. */
  function HexChunkValue(chunk: string): (b: byte)
    requires 1 <= |chunk| <= 2
  {
    if IsHexChar(chunk[0]) then
      if |chunk| == 2 && IsHexChar(chunk[1]) then DigitValue(chunk[0]) * 16 + DigitValue(chunk[1])
      else DigitValue(chunk[0])
    else if |chunk| == 2 && IsHexChar(chunk[1]) && (IsInlineSpace(chunk[0]) || chunk[0] == '+') then DigitValue(chunk[1])
    else if |chunk| == 2 && IsHexChar(chunk[1]) && chunk[0] == '-' then (0 - DigitValue(chunk[1])) % 256
    else 0
  }

  /** The matches of `s.match(/.{1,2}/g)`: line terminators are skipped, and
      each run of other characters is cut into pairs, its last character
      alone when the run is odd. */
  function HexChunks(s: string): (r: seq<string>)
    ensures forall i :: 0 <= i < |r| ==> 1 <= |r[i]| <= 2
    decreases |s|
  {
    if |s| == 0 then []
    else if IsLineTerminator(s[0]) then HexChunks(s[1..])
    else if |s| == 1 || IsLineTerminator(s[1]) then [s[..1]] + HexChunks(s[1..])
    else [s[..2]] + HexChunks(s[2..])
  }

  /** The bytes of `s.match(/.{1,2}/g).map(c => parseInt(c, 16))`. */
  function HexPairs(s: string): (r: seq<byte>)
    ensures |r| == |HexChunks(s)|
    ensures forall i :: 0 <= i < |r| ==> r[i] == HexChunkValue(HexChunks(s)[i])
  {
    var chunks := HexChunks(s);
    seq(|chunks|, i requires 0 <= i < |chunks| => HexChunkValue(chunks[i]))
  }

  /** Without line terminators the text is cut into pairs from the start:
      one byte per two characters, rounding up. */
  lemma {:induction false} HexChunksOfPlainText(s: string)
    requires forall i :: 0 <= i < |s| ==> !IsLineTerminator(s[i])
    ensures |HexChunks(s)| == (|s| + 1) / 2
    ensures forall k :: 0 <= k < |HexChunks(s)| ==> HexChunks(s)[k] == s[2 * k..if 2 * k + 2 <= |s| then 2 * k + 2 else |s|]
    decreases |s|
  {
    if |s| >= 2 {
      HexChunksOfPlainText(s[2..]);
      var r := HexChunks(s);
      assert r == [s[..2]] + HexChunks(s[2..]);
      forall k | 1 <= k < |r|
        ensures r[k] == s[2 * k..if 2 * k + 2 <= |s| then 2 * k + 2 else |s|]
      {
        assert r[k] == HexChunks(s[2..])[k - 1];
      }
    }
  }

  /** `match` finds no chunk exactly when every character is a line terminator. */
  lemma {:induction false} HexChunksEmpty(s: string)
    ensures HexChunks(s) == [] <==> forall i :: 0 <= i < |s| ==> IsLineTerminator(s[i])
    decreases |s|
  {
    if |s| > 0 {
      HexChunksEmpty(s[1..]);
      if IsLineTerminator(s[0]) {
        if forall i :: 0 <= i < |s[1..]| ==> IsLineTerminator(s[1..][i]) {
          forall i | 0 <= i < |s| ensures IsLineTerminator(s[i]) {
            if i > 0 { assert s[i] == s[1..][i - 1]; }
          }
        } else {
          var i :| 0 <= i < |s[1..]| && !IsLineTerminator(s[1..][i]);
          assert !IsLineTerminator(s[i + 1]);
        }
      }
    }
  }

  /** The hex parse of decryptPrivateKey: a text with no chunk makes `.map`
      throw on the null match. */
  function HexDecode(s: string): (r: Result<seq<byte>, CryptoError>)
    ensures r.Failure? <==> forall i :: 0 <= i < |s| ==> IsLineTerminator(s[i])
    ensures r.Success? ==> r.value == HexPairs(s) && |r.value| > 0
  {
    HexChunksEmpty(s);
    if HexChunks(s) == [] then Failure(NoHexDigits) else Success(HexPairs(s))
  }

  /** Two characters other than line terminators form one chunk. */
  lemma OnePairChunk(s: string)
    requires |s| == 2 && !IsLineTerminator(s[0]) && !IsLineTerminator(s[1])
    ensures HexChunks(s) == [s]
  {
    assert s[..2] == s;
    assert s[2..] == [];
  }

  /** A sign or a leading space is read before the digit; a negative value
      is stored modulo 256. */
  lemma HexDecodeSigned()
    ensures HexDecode("-f") == Success([241])
    ensures HexDecode(" f") == Success([15]) && HexDecode("+f") == Success([15])
  {
    OnePairChunk("-f");
    assert HexChunkValue("-f") == 241;
    assert HexPairs("-f") == [241];
    OnePairChunk(" f");
    assert HexChunkValue(" f") == 15;
    assert HexPairs(" f") == [15];
    OnePairChunk("+f");
    assert HexPairs("+f") == [15];
  }

  /** Line terminators are skipped, and a text of line terminators alone
      has no chunk. */
  lemma HexDecodeLineTerminators()
    ensures HexDecode("ab\ncd") == Success([0xab, 0xcd])
    ensures HexDecode("\n") == Failure(NoHexDigits)
  {
    var s := "ab\ncd";
    OnePairChunk("cd");
    assert s[..2] == "ab" && s[2..] == "\ncd" && "\ncd"[1..] == "cd";
    assert HexChunks(s) == ["ab", "cd"];
    assert HexChunkValue("ab") == 0xab && HexChunkValue("cd") == 0xcd;
    assert HexPairs(s) == [0xab, 0xcd];
    assert "\n"[1..] == [];
    assert HexChunks("\n") == [];
  }

  lemma ByteHexValue(b: byte)
    ensures HexChunkValue(ByteHex(b)) == b
  {
    DigitValueOfChar(b / 16);
    DigitValueOfChar(b % 16);
  }

  /** Reading back the two-digit rendering gives the bytes again. */
  lemma HexPairsRoundTrip(bs: seq<byte>)
    ensures HexPairs(Hex(bs)) == bs
  {
    var h := Hex(bs);
    HexChunksOfPlainText(h);
    var r := HexPairs(h);
    forall k | 0 <= k < |bs|
      ensures r[k] == bs[k]
    {
      HexAt(bs, k);
      ByteHexValue(bs[k]);
    }
  }

  /** The hex parse inverts the rendering exactly for a non-empty key; the
      empty key renders as the empty string, which the parse rejects. */
  lemma HexDecodeRoundTrip(bs: seq<byte>)
    ensures bs != [] ==> HexDecode(Hex(bs)) == Success(bs)
    ensures bs == [] ==> HexDecode(Hex(bs)) == Failure(NoHexDigits)
  {
    HexPairsRoundTrip(bs);
  }

  /** Distinct byte strings have distinct renderings. */
  lemma HexInjective(xs: seq<byte>, ys: seq<byte>)
    requires Hex(xs) == Hex(ys)
    ensures xs == ys
  {
    HexPairsRoundTrip(xs);
    HexPairsRoundTrip(ys);
  }

  // ---------------------------------------------------------------- framing

  /** What AES-GCM produces for the private key under the password and salt. */
  function Ciphertext(p: Primitives, privateKey: seq<byte>, password: string, salt: seq<byte>, iv: seq<byte>): seq<byte>
  {
    var key := p.deriveKey(p.utf8(password), salt, Pbkdf2Iterations);
    p.seal(key, iv, p.utf8(Hex(privateKey)))
  }

  /** `combined.slice(0, 16)`, `combined.slice(16, 28)`, `combined.slice(28)`. */
  function SplitBlob(combined: seq<byte>): (r: (seq<byte>, seq<byte>, seq<byte>))
    ensures r.0 + r.1 + r.2 == combined
  {
    (Slice(combined, 0, SaltLength), Slice(combined, SaltLength, SaltLength + IvLength),
     Slice(combined, SaltLength + IvLength, |combined|))
  }

  /** Splitting salt ‖ iv ‖ ciphertext recovers the three parts whenever the
      salt and iv have their fixed lengths. */
  lemma SplitBlobFraming(salt: seq<byte>, iv: seq<byte>, ct: seq<byte>)
    requires |salt| == SaltLength && |iv| == IvLength
    ensures SplitBlob(salt + iv + ct) == (salt, iv, ct)
  {
    var c := salt + iv + ct;
    assert c[0..16] == salt;
    assert c[16..28] == iv;
    assert c[28..] == ct;
  }

  /** Seals the private key under the password. `salt` and `iv` are the
      values crypto.getRandomValues fills in (16 and 12 bytes); the three
      parts are copied into one buffer, which is then base64-wrapped. */
  /** `Uint8Array.prototype.set(src, offset)`: the bytes of `src` are
      copied in from `offset` and every other byte keeps its value. */
  method SetBytes(buffer: array<byte>, src: seq<byte>, offset: nat)
    requires offset + |src| <= buffer.Length
    modifies buffer
    ensures forall j :: 0 <= j < |src| ==> buffer[offset + j] == src[j]
    ensures forall j :: 0 <= j < buffer.Length && !(offset <= j < offset + |src|) ==> buffer[j] == old(buffer[j])
  {
    for i := 0 to |src|
      invariant forall j :: 0 <= j < i ==> buffer[offset + j] == src[j]
      invariant forall j :: 0 <= j < buffer.Length && !(offset <= j < offset + i) ==> buffer[j] == old(buffer[j])
    {
      buffer[offset + i] := src[i];
    }
  }

  method EncryptPrivateKey(p: Primitives, privateKey: seq<byte>, password: string, salt: seq<byte>, iv: seq<byte>)
      returns (blob: string)
    requires |salt| == SaltLength && |iv| == IvLength
    ensures blob == p.btoa(salt + iv + Ciphertext(p, privateKey, password, salt, iv))
  {
    var hexKey := Hex(privateKey);
    var key := p.deriveKey(p.utf8(password), salt, Pbkdf2Iterations);
    var encrypted := p.seal(key, iv, p.utf8(hexKey));
    var buffer := new byte[|salt| + |iv| + |encrypted|];
    var offset := |salt| + |iv|;
    SetBytes(buffer, salt, 0);
    SetBytes(buffer, iv, |salt|);
    SetBytes(buffer, encrypted, offset);
    assert buffer[..] == salt + iv + encrypted by {
      forall j | 0 <= j < buffer.Length ensures buffer[j] == (salt + iv + encrypted)[j] {
      }
    }
    blob := p.btoa(buffer[..]);
  }

  /** Opens a blob with the password: base64-decode, split at 16 and 28,
      derive the key from the embedded salt, decrypt, decode the UTF-8 hex
      text and parse it two characters at a time. */
  function DecryptPrivateKey(p: Primitives, encryptedKey: string, password: string): (r: Result<seq<byte>, CryptoError>)
    ensures p.atob(encryptedKey).None? ==> r == Failure(InvalidBase64)
  {
    match p.atob(encryptedKey)
    case None => Failure(InvalidBase64)
    case Some(combined) =>
      var (salt, iv, data) := SplitBlob(combined);
      var key := p.deriveKey(p.utf8(password), salt, Pbkdf2Iterations);
      match p.open(key, iv, data)
      case None => Failure(DecryptionFailed)
      case Some(plain) => HexDecode(p.utf8Decode(plain))
  }

  /** Decrypting with the same password gives the private key back. */
  lemma DecryptEncrypt(p: Primitives, privateKey: seq<byte>, password: string, salt: seq<byte>, iv: seq<byte>)
    requires Lawful(p)
    requires |salt| == SaltLength && |iv| == IvLength
    requires privateKey != []
    ensures DecryptPrivateKey(p, p.btoa(salt + iv + Ciphertext(p, privateKey, password, salt, iv)), password)
            == Success(privateKey)
  {
    var ct := Ciphertext(p, privateKey, password, salt, iv);
    SplitBlobFraming(salt, iv, ct);
    HexDecodeRoundTrip(privateKey);
  }

  /** A different password never yields bytes. */
  lemma WrongPasswordFails(p: Primitives, privateKey: seq<byte>, password: string, other: string, salt: seq<byte>, iv: seq<byte>)
    requires Lawful(p)
    requires |salt| == SaltLength && |iv| == IvLength
    requires other != password
    ensures DecryptPrivateKey(p, p.btoa(salt + iv + Ciphertext(p, privateKey, password, salt, iv)), other)
            == Failure(DecryptionFailed)
  {
    var ct := Ciphertext(p, privateKey, password, salt, iv);
    SplitBlobFraming(salt, iv, ct);
  }

  /** An empty key is sealed without complaint but cannot be opened again:
      its hex text is empty and the parse finds nothing. */
  lemma EmptyKeyDoesNotRoundTrip(p: Primitives, password: string, salt: seq<byte>, iv: seq<byte>)
    requires Lawful(p)
    requires |salt| == SaltLength && |iv| == IvLength
    ensures DecryptPrivateKey(p, p.btoa(salt + iv + Ciphertext(p, [], password, salt, iv)), password)
            == Failure(NoHexDigits)
  {
    var ct := Ciphertext(p, [], password, salt, iv);
    SplitBlobFraming(salt, iv, ct);
  }
}
