/** Hexadecimal text for salts, digests and encrypted passwords. */
module HexCodec {
  import opened Prelude

  type byte = x: int | 0 <= x < 256

  const LOWER: string := "0123456789abcdef"
  const UPPER: string := "0123456789ABCDEF"
  const DIGEST_BYTES := 32

  type Digest = d: seq<byte> | |d| == DIGEST_BYTES witness seq(DIGEST_BYTES, _ => 0)

  predicate Alphabet(digits: string) {
    digits == LOWER || digits == UPPER
  }

  // --- Specification of the two encoders ---

  /** Two digits per byte, high digit first, padded with '0'. */
  function Encode(v: seq<byte>, digits: string): (s: string)
    requires Alphabet(digits)
    ensures |s| == 2 * |v|
  {
    seq(2 * |v|, (i: int) requires 0 <= i < 2 * |v| =>
      if i % 2 == 0 then digits[v[i / 2] / 16] else digits[v[i / 2] % 16])
  }

  // --- Specification of the two decoders ---

  predicate IsHex(c: char) {
    '0' <= c <= '9' || 'a' <= c <= 'f' || 'A' <= c <= 'F'
  }

  function HexValue(c: char): (v: nat)
    requires IsHex(c)
    ensures v < 16
  {
    if '0' <= c <= '9' then c as int - '0' as int
    else if 'a' <= c <= 'f' then c as int - 'a' as int + 10
    else c as int - 'A' as int + 10
  }

  predicate IsSpace(c: char) {
    c == ' ' || '\t' <= c <= '\r'
  }

  /** The low byte of `strtoul(s, nullptr, 16)` for the one- and two-character pieces that the decoders cut. */
  function LowByte(s: string): byte
    requires 1 <= |s| <= 2
  {
    if IsHex(s[0]) then
      if |s| == 2 && IsHex(s[1]) then 16 * HexValue(s[0]) + HexValue(s[1]) else HexValue(s[0])
    else if |s| == 2 && IsHex(s[1]) && (IsSpace(s[0]) || s[0] == '+') then HexValue(s[1])
    else if |s| == 2 && IsHex(s[1]) && s[0] == '-' then (256 - HexValue(s[1])) % 256
    else 0
  }

  /** The piece that `str.substr(2 * k, 2)` cuts out. */
  function Piece(s: string, k: nat): string
    requires 2 * k < |s|
  {
    s[2 * k..if 2 * k + 2 <= |s| then 2 * k + 2 else |s|]
  }

  function Decode(s: string): (v: seq<byte>)
    ensures |v| == (|s| + 1) / 2
  {
    seq((|s| + 1) / 2, (k: int) requires 0 <= k < (|s| + 1) / 2 => LowByte(Piece(s, k)))
  }

  /** An odd-length salt string is rejected and decodes to nothing. */
  function DecodeSalt(s: string): seq<byte> {
    if |s| % 2 == 0 then Decode(s) else []
  }

  // --- The loops of the program ---

  /** `bytesToString`, and so `sha256ToString` and `saltToString`. */
  method BytesToString(v: seq<byte>) returns (s: string)
    ensures s == Encode(v, UPPER)
  {
    s := "";
    var i := 0;
    while i < |v|
      invariant 0 <= i <= |v|
      invariant s == Encode(v[..i], UPPER)
    {
      s := s + [UPPER[v[i] / 16], UPPER[v[i] % 16]];
      i := i + 1;
    }
    assert v[..i] == v;
  }

  /** `byteVectorToString` and `byteArrayToString`. */
  method ByteVectorToString(v: seq<byte>) returns (s: string)
    ensures s == Encode(v, LOWER)
  {
    s := "";
    for i := 0 to |v|
      invariant s == Encode(v[..i], LOWER)
    {
      s := s + [LOWER[v[i] / 16], LOWER[v[i] % 16]];
    }
    assert v[..|v|] == v;
  }

  /** `None`: a build with asserts stops on odd-length text; one without decodes the lone last digit on its own. */
  method HexStringToByteVector(s: string, asserts: bool) returns (r: Option<seq<byte>>)
    ensures r == if asserts && |s| % 2 != 0 then None else Some(Decode(s))
  {
    if asserts && |s| % 2 != 0 {
      return None;
    }
    var v: seq<byte> := [];
    var i := 0;
    while i < |s|
      invariant 0 <= i <= |s| + 1 && (i > |s| ==> i % 2 == 0) && i % 2 == 0
      invariant |v| == i / 2 <= |Decode(s)| && v == Decode(s)[..i / 2]
    {
      assert i == 2 * (i / 2);
      v := v + [LowByte(Piece(s, i / 2))];
      i := i + 2;
    }
    assert v == Decode(s);
    return Some(v);
  }

  method StringToSalt(s: string) returns (v: seq<byte>)
    ensures v == if |s| % 2 == 0 then Decode(s) else []
    ensures v == DecodeSalt(s)
  {
    v := [];
    if |s| % 2 != 0 {
      return;
    }
    for i := 0 to |s| / 2
      invariant v == Decode(s)[..i]
    {
      v := v + [LowByte(s[i * 2..i * 2 + 2])];
    }
  }

  /** Fills a fixed 32-byte array; a string that is too short leaves its contents unspecified. */
  method StringToSHA256(s: string) returns (ret: array<byte>)
    ensures fresh(ret) && ret.Length == DIGEST_BYTES
    ensures |s| >= 2 * DIGEST_BYTES ==> ret[..] == Decode(s)[..DIGEST_BYTES]
  {
    ret := new byte[DIGEST_BYTES];
    if |s| < 2 * DIGEST_BYTES {
      return;
    }
    for i := 0 to ret.Length
      invariant ret[..i] == Decode(s)[..i]
    {
      ret[i] := LowByte(s[i * 2..i * 2 + 2]);
    }
  }

  // --- Round trips ---

  lemma DigitsAreHex(digits: string, n: nat)
    requires Alphabet(digits) && n < 16
    ensures IsHex(digits[n]) && HexValue(digits[n]) == n
  {
  }

  /** The alphabets: digits in both, then capitals in the one and small letters in the other. */
  lemma AlphabetCases(n: nat)
    requires n < 16
    ensures if n < 10 then UPPER[n] == LOWER[n] == '0' + n as char
            else UPPER[n] == 'A' + (n - 10) as char && LOWER[n] == 'a' + (n - 10) as char
  {
  }

  /** Two digits for each byte, the high one first, as the two encoders write them. */
  lemma EncodedBytes()
    ensures Encode([0xAB, 0x0F, 0x7], UPPER) == "AB0F07" && Encode([0xAB, 0x0F, 0x7], LOWER) == "ab0f07"
  {
    var v: seq<byte> := [0xAB, 0x0F, 0x7];
    assert 0xAB / 16 == 10 && 0xAB % 16 == 11;
    EncodedPair(v, UPPER, 0);
    EncodedPair(v, UPPER, 1);
    EncodedPair(v, UPPER, 2);
    EncodedPair(v, LOWER, 0);
    EncodedPair(v, LOWER, 1);
    EncodedPair(v, LOWER, 2);
  }

  lemma EncodedPair(v: seq<byte>, digits: string, k: nat)
    requires Alphabet(digits) && k < |v|
    ensures Encode(v, digits)[2 * k] == digits[v[k] / 16] && Encode(v, digits)[2 * k + 1] == digits[v[k] % 16]
  {
  }

  /** What `strtoul` makes of pieces that are not two digits: it stops at the first character it cannot use. */
  lemma OddPieces(c: char, d: char)
    requires IsHex(c) && !IsHex(d)
    ensures LowByte([c]) == HexValue(c) && LowByte([c, d]) == HexValue(c)
    ensures LowByte([' ', c]) == HexValue(c) && LowByte(['+', c]) == HexValue(c) && LowByte(['-', c]) == (256 - HexValue(c)) % 256
    ensures LowByte([d]) == 0 && LowByte([d, d]) == 0 && LowByte(['z', c]) == 0
  {
  }

  /** Decoding inverts both encoders, for every byte sequence. */
  lemma DecodeEncode(v: seq<byte>, digits: string)
    requires Alphabet(digits)
    ensures Decode(Encode(v, digits)) == v
    ensures DecodeSalt(Encode(v, digits)) == v
  {
    var s := Encode(v, digits);
    forall k | 0 <= k < |v|
      ensures Decode(s)[k] == v[k]
    {
      DigitsAreHex(digits, v[k] / 16);
      DigitsAreHex(digits, v[k] % 16);
      assert s[2 * k] == digits[v[k] / 16];
      assert s[2 * k + 1] == digits[v[k] % 16];
      assert Piece(s, k) == [s[2 * k], s[2 * k + 1]];
    }
  }

  lemma EncodeInjective(v: seq<byte>, w: seq<byte>, digits: string)
    requires Alphabet(digits)
    ensures Encode(v, digits) == Encode(w, digits) <==> v == w
  {
    DecodeEncode(v, digits);
    DecodeEncode(w, digits);
  }

  /** A string's hex digits written in the given alphabet, every other character kept. */
  function WithCase(s: string, digits: string): (r: string)
    requires Alphabet(digits)
    ensures |r| == |s|
  {
    seq(|s|, (i: int) requires 0 <= i < |s| => if IsHex(s[i]) then digits[HexValue(s[i])] else s[i])
  }

  lemma EncodedIsHex(v: seq<byte>, digits: string, i: nat)
    requires Alphabet(digits) && i < 2 * |v|
    ensures IsHex(Encode(v, digits)[i])
  {
    DigitsAreHex(digits, v[i / 2] / 16);
    DigitsAreHex(digits, v[i / 2] % 16);
  }

  lemma DecodedPiece(s: string, k: nat)
    requires 2 * k + 1 < |s| && IsHex(s[2 * k]) && IsHex(s[2 * k + 1])
    ensures Decode(s)[k] / 16 == HexValue(s[2 * k]) && Decode(s)[k] % 16 == HexValue(s[2 * k + 1])
  {
    assert Piece(s, k) == [s[2 * k], s[2 * k + 1]];
    var hi, lo := HexValue(s[2 * k]), HexValue(s[2 * k + 1]);
    assert Decode(s)[k] == 16 * hi + lo;
    assert (16 * hi + lo) / 16 == hi && (16 * hi + lo) % 16 == lo;
  }

  /**
   * In a build without asserts the two decoders give the same bytes exactly on the strings of even length; on
   * hex text of either case these are the values of its pairs of digits.
   */
  lemma DecodersAgree(s: string)
    ensures DecodeSalt(s) == Decode(s) <==> |s| % 2 == 0
    ensures |s| % 2 != 0 ==> DecodeSalt(s) == []
    ensures |s| % 2 == 0 && (forall i :: 0 <= i < |s| ==> IsHex(s[i])) ==>
              forall k :: 0 <= k < |DecodeSalt(s)| ==>
                IsHex(s[2 * k]) && IsHex(s[2 * k + 1]) && DecodeSalt(s)[k] == 16 * HexValue(s[2 * k]) + HexValue(s[2 * k + 1])
  {
    if |s| % 2 != 0 {
      assert |Decode(s)| > 0;
    } else if forall i :: 0 <= i < |s| ==> IsHex(s[i]) {
      forall k | 0 <= k < |Decode(s)|
        ensures IsHex(s[2 * k]) && IsHex(s[2 * k + 1]) && Decode(s)[k] == 16 * HexValue(s[2 * k]) + HexValue(s[2 * k + 1])
      {
        DecodedPiece(s, k);
      }
    }
  }

  /** Re-encoding a decoded string gives it back, up to case, exactly when it was hex text of even length. */
  lemma EncodeDecode(s: string, digits: string)
    requires Alphabet(digits)
    ensures Encode(Decode(s), digits) == WithCase(s, digits)
            <==> |s| % 2 == 0 && forall i :: 0 <= i < |s| ==> IsHex(s[i])
  {
    var e, w := Encode(Decode(s), digits), WithCase(s, digits);
    if |s| % 2 == 0 && forall i :: 0 <= i < |s| ==> IsHex(s[i]) {
      forall i | 0 <= i < |s|
        ensures e[i] == w[i]
      {
        DecodedPiece(s, i / 2);
        assert i == 2 * (i / 2) || i == 2 * (i / 2) + 1;
      }
    }
    if e == w {
      forall i | 0 <= i < |s|
        ensures IsHex(s[i])
      {
        EncodedIsHex(Decode(s), digits, i);
      }
    }
  }
}

/** The stored credential and the password check. */
module Credentials {
  import opened HexCodec

  /** RSA decryption and PBKDF2 (section 5.2 of RFC 8018), which this model leaves uninterpreted. */
  datatype Crypto = Crypto(decrypt: seq<byte> -> string, digest: (string, seq<byte>) -> Digest)

  /** A stored credential: the digest and the salt, both as hex text. */
  datatype Stored = Stored(password: string, salt: string)

  /** The credential that `initDB` writes. */
  function Enrol(crypto: Crypto, password: string, salt: seq<byte>): Stored {
    Stored(Encode(crypto.digest(password, salt), UPPER), Encode(salt, UPPER))
  }

  /** The comparison at the heart of `processLoginAttempt`. */
  predicate Accepts(crypto: Crypto, stored: Stored, encrypted: seq<byte>) {
    stored.password == Encode(crypto.digest(crypto.decrypt(encrypted), DecodeSalt(stored.salt)), UPPER)
  }

  /** The password check of a server that holds these keys. */
  function Checker(crypto: Crypto): (Stored, seq<byte>) -> bool {
    (stored: Stored, encrypted: seq<byte>) => Accepts(crypto, stored, encrypted)
  }

  method CheckPassword(crypto: Crypto, stored: Stored, encrypted: seq<byte>) returns (ok: bool)
    ensures ok == Accepts(crypto, stored, encrypted)
  {
    var salt := StringToSalt(stored.salt);
    var hash := BytesToString(crypto.digest(crypto.decrypt(encrypted), salt));
    ok := stored.password == hash;
  }

  /** An enrolled credential accepts exactly the passwords with the enrolled digest under the enrolled salt. */
  lemma CredentialRoundTrip(crypto: Crypto, password: string, salt: seq<byte>, encrypted: seq<byte>)
    ensures Accepts(crypto, Enrol(crypto, password, salt), encrypted)
            <==> crypto.digest(crypto.decrypt(encrypted), salt) == crypto.digest(password, salt)
  {
    DecodeEncode(salt, UPPER);
    EncodeInjective(crypto.digest(password, salt), crypto.digest(crypto.decrypt(encrypted), salt), UPPER);
  }

  /** A stored digest that is not canonical (64 upper-case digits) locks its owner out: no password is accepted. */
  lemma AcceptedDigestIsCanonical(crypto: Crypto, stored: Stored, encrypted: seq<byte>)
    requires Accepts(crypto, stored, encrypted)
    ensures |stored.password| == 2 * DIGEST_BYTES && stored.password == WithCase(stored.password, UPPER)
    ensures Decode(stored.password) == crypto.digest(crypto.decrypt(encrypted), DecodeSalt(stored.salt))
  {
    var d := crypto.digest(crypto.decrypt(encrypted), DecodeSalt(stored.salt));
    DecodeEncode(d, UPPER);
    forall i | 0 <= i < |stored.password|
      ensures stored.password[i] == WithCase(stored.password, UPPER)[i]
    {
      DigitsAreHex(UPPER, d[i / 2] / 16);
      DigitsAreHex(UPPER, d[i / 2] % 16);
    }
  }
}
