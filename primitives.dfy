/**
 * The foreign calls the engines make, as parameters. Each is a record of
 * functions; a ghost predicate states the one property of it that the model
 * relies on (a round trip, or that a MAC tells messages apart). No property is
 * assumed anywhere: lemmas that need one take it as a precondition.
 */
module Primitives {
  import opened Wrappers
  import opened Bytes

  /** base64_encode, base64_decode($s, true) (strict) and base64_decode($s) (lenient); false is None. */
  datatype Base64 = Base64(
    encode: Bytes -> Bytes,
    decodeStrict: Bytes -> Option<Bytes>,
    decode: Bytes -> Option<Bytes>)

  /** Section 4 of RFC 4648: strict decoding inverts encoding, and lenient decoding agrees with strict decoding wherever the latter succeeds. */
  ghost predicate Base64Sound(b: Base64) {
    && (forall x :: b.decodeStrict(b.encode(x)) == Some(x))
    && (forall s :: b.decodeStrict(s).Some? ==> b.decode(s) == b.decodeStrict(s))
  }

  /** What json_decode($text, true) yields, seen through the three keys the CBC engine reads; NotAnArray covers null and scalars. */
  datatype DecodedPayload =
    | NotAnArray
    | Fields(iv: Option<Bytes>, value: Option<Bytes>, mac: Option<Bytes>)

  /** json_encode(compact('iv', 'value', 'mac')) (None when json_last_error() is set) and json_decode($text, true). */
  datatype Json = Json(
    encodePayload: (Bytes, Bytes, Bytes) -> Option<Bytes>,
    decodePayload: Bytes -> DecodedPayload)

  /** RFC 8259: decoding a text that json_encode produced gives back the three members. */
  ghost predicate JsonSound(j: Json) {
    forall iv, value, mac :: j.encodePayload(iv, value, mac).Some? ==>
      j.decodePayload(j.encodePayload(iv, value, mac).value) == Fields(Some(iv), Some(value), Some(mac))
  }

  /** PHP serialize and unserialize over the caller's value type V. */
  datatype Serializer<!V> = Serializer(serialize: V -> Bytes, unserialize: Bytes -> V)

  ghost predicate SerializerSound<V(!new)>(s: Serializer<V>) {
    forall v :: s.unserialize(s.serialize(v)) == v
  }

  /**
   * openssl_encrypt / openssl_decrypt with options 0 (base64 text out and in),
   * arguments (cipher, key, iv, data); false is None. The modes are CBC as in
   * section 6.2 of NIST SP 800-38A.
   */
  datatype Cbc = Cbc(
    encrypt: (string, Bytes, Bytes, Bytes) -> Option<Bytes>,
    decrypt: (string, Bytes, Bytes, Bytes) -> Option<Bytes>)

  ghost predicate CbcSound(c: Cbc) {
    forall cipher, key, iv, m :: c.encrypt(cipher, key, iv, m).Some? ==>
      c.decrypt(cipher, key, iv, c.encrypt(cipher, key, iv, m).value) == Some(m)
  }

  /** The libsodium AEAD constructions the Sodium engines call. */
  datatype AeadAlg = Aes256Gcm | ChaCha20Poly1305 | ChaCha20Poly1305Ietf | XChaCha20Poly1305Ietf

  /** sodium_crypto_aead_*_encrypt and _decrypt, arguments (construction, key, nonce, ad, data); false is None. */
  datatype Aead = Aead(
    seal: (AeadAlg, Bytes, Bytes, Bytes, Bytes) -> Bytes,
    open: (AeadAlg, Bytes, Bytes, Bytes, Bytes) -> Option<Bytes>)

  ghost predicate AeadSound(a: Aead) {
    forall alg, key, nonce, ad, m :: a.open(alg, key, nonce, ad, a.seal(alg, key, nonce, ad, m)) == Some(m)
  }

  /** The idealisation behind "a payload made under one key does not open under another". */
  ghost predicate AeadRejectsOtherKeys(a: Aead, k1: Bytes, k2: Bytes) {
    forall alg, nonce, ad, m :: a.open(alg, k2, nonce, ad, a.seal(alg, k1, nonce, ad, m)).None?
  }

  /**
   * hash_hmac('sha256', $message, $key, true), arguments (key, message): HMAC
   * as in RFC 2104 over SHA-256 of FIPS 180-4, 32 raw bytes.
   */
  type Hmac = (Bytes, Bytes) -> Bytes

  /** The idealisation the MAC comparison needs: under one key, different messages get different tags. */
  ghost predicate HmacInjective(h: Hmac) {
    forall key, m1, m2 :: h(key, m1) == h(key, m2) ==> m1 == m2
  }

  /** Two keys never produce the same tag for the same message. */
  ghost predicate KeysSeparated(h: Hmac, k1: Bytes, k2: Bytes) {
    forall m :: h(k1, m) != h(k2, m)
  }

  /** Every foreign call the engines make. */
  datatype Crypto = Crypto(b64: Base64, json: Json, cbc: Cbc, hmac: Hmac, aead: Aead)
}
