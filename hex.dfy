/**
 * Base 16 encoding as in section 8 of RFC 4648: sodium_bin2hex and the text form
 * of hash_hmac write lower-case digits; sodium_hex2bin reads either case and
 * rejects an odd length or any other character.
 */
module Hex {
  import opened Wrappers
  import opened Bytes

  /** The ASCII code of the lower-case hex digit for n. */
  function Digit(n: nat): (c: byte)
    requires n < 16
    ensures DigitValue(c) == Some(n)
  {
    if n < 10 then (48 + n) as byte else (87 + n) as byte
  }

  /** The value of one hex digit of either case, if c is one. */
  function DigitValue(c: byte): (v: Option<nat>)
    ensures v.Some? ==> v.value < 16
  {
    if 48 <= c <= 57 then Some(c as nat - 48)
    else if 97 <= c <= 102 then Some(c as nat - 87)
    else if 65 <= c <= 70 then Some(c as nat - 55)
    else None
  }

  /** True of the text sodium_bin2hex writes: lower-case digits only. */
  predicate IsLowerHex(h: Bytes) {
    forall i :: 0 <= i < |h| ==> (48 <= h[i] <= 57 || 97 <= h[i] <= 102)
  }

  function Encode(b: Bytes): (h: Bytes)
    ensures |h| == 2 * |b|
    ensures IsLowerHex(h)
  {
    if b == [] then []
    else [Digit(b[0] as nat / 16), Digit(b[0] as nat % 16)] + Encode(b[1..])
  }

  function Decode(h: Bytes): (r: Option<Bytes>)
    ensures r.Some? ==> |h| == 2 * |r.value|
    decreases |h|
  {
    if h == [] then Some([])
    else if |h| == 1 then None
    else
      match (DigitValue(h[0]), DigitValue(h[1]), Decode(h[2..]))
      case (Some(hi), Some(lo), Some(rest)) => Some([(hi * 16 + lo) as byte] + rest)
      case _ => None
  }

  /** Decoding undoes encoding for every byte string. */
  lemma {:induction false} DecodeEncode(b: Bytes)
    ensures Decode(Encode(b)) == Some(b)
  {
    if b != [] {
      var hi, lo := b[0] as nat / 16, b[0] as nat % 16;
      var h := Encode(b);
      assert h[0] == Digit(hi) && h[1] == Digit(lo);
      assert h[2..] == Encode(b[1..]);
      DecodeEncode(b[1..]);
      assert (hi * 16 + lo) as byte == b[0];
      assert [b[0]] + b[1..] == b;
    }
  }

  /** Encoding is a homomorphism for concatenation. */
  lemma {:induction false} EncodeAppend(a: Bytes, b: Bytes)
    ensures Encode(a + b) == Encode(a) + Encode(b)
  {
    if a != [] {
      assert (a + b)[1..] == a[1..] + b;
      EncodeAppend(a[1..], b);
    } else {
      assert a + b == b;
    }
  }

  /** Different byte strings never share a hex text. */
  lemma EncodeInjective(a: Bytes, b: Bytes)
    requires Encode(a) == Encode(b)
    ensures a == b
  {
    DecodeEncode(a);
    DecodeEncode(b);
  }
}
