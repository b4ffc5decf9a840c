/**
 * The libsodium AEAD engine (Engines/SodiumEngine.php). A payload is the
 * lower-case hex text of nonce ++ AEAD(message), where the nonce also serves
 * as the associated data. The framing functions (nonce length, splitting,
 * sealing and opening) are shared with the sodium schema, which repeats them.
 */
module SodiumEngine {
  import opened Wrappers
  import opened Bytes
  import opened Primitives
  import BaseEngine
  import Hex

  const ENGINE_NAME: string := "sodium"
  const AES_256_GCM: string := "AES-256-GCM"
  const CHACHA: string := "CHACHA-20-POLY-1305"
  const CHACHA_IETF: string := "CHACHA-20-POLY-1305-IETF"
  const X_CHACHA_IETF: string := "XCHACHA-20-POLY-1305-IETF"

  /** Every construction's KEYBYTES is 32. */
  const KEY_BYTES: nat := 32

  const Table: BaseEngine.CipherTable :=
    BaseEngine.CipherTable(
      [AES_256_GCM, CHACHA, CHACHA_IETF, X_CHACHA_IETF],
      map[AES_256_GCM := KEY_BYTES, CHACHA := KEY_BYTES, CHACHA_IETF := KEY_BYTES, X_CHACHA_IETF := KEY_BYTES],
      X_CHACHA_IETF)

  const ENCRYPT_FAILED: string := "Could not encrypt the data"
  const DECRYPT_FAILED: string := "Could not decrypt the data"
  const INVALID_HEX: string := "invalid hex string"
  const BAD_NONCE: string := "nonce has the wrong size"

  predicate Known(cipher: string) {
    cipher == AES_256_GCM || cipher == CHACHA || cipher == CHACHA_IETF || cipher == X_CHACHA_IETF
  }

  /** getNonceLength: each construction's NPUBBYTES, and 0 for anything else. */
  function NonceLength(cipher: string): (n: nat)
    ensures Known(cipher) <==> n > 0
    ensures cipher == X_CHACHA_IETF ==> n == 24
    ensures cipher == CHACHA ==> n == 8
    ensures cipher == AES_256_GCM || cipher == CHACHA_IETF ==> n == 12
  {
    if cipher == AES_256_GCM then 12
    else if cipher == CHACHA then 8
    else if cipher == CHACHA_IETF then 12
    else if cipher == X_CHACHA_IETF then 24
    else 0
  }

  /** The libsodium construction each cipher name selects in doEncrypt and doDecrypt. */
  function Algorithm(cipher: string): (alg: Option<AeadAlg>)
    ensures alg.Some? <==> Known(cipher)
  {
    if cipher == AES_256_GCM then Some(Aes256Gcm)
    else if cipher == CHACHA then Some(ChaCha20Poly1305)
    else if cipher == CHACHA_IETF then Some(ChaCha20Poly1305Ietf)
    else if cipher == X_CHACHA_IETF then Some(XChaCha20Poly1305Ietf)
    else None
  }

  /** Distinct cipher names select distinct constructions. */
  lemma AlgorithmInjective(c1: string, c2: string)
    requires Algorithm(c1).Some? && Algorithm(c1) == Algorithm(c2)
    ensures c1 == c2
  {
  }

  /** supported: AES-256-GCM needs hardware support; otherwise the base check on the key-length table. */
  predicate Supported(aesAvailable: bool, key: Bytes, cipher: string) {
    if cipher == AES_256_GCM && !aesAvailable then false
    else BaseEngine.Supported(Table, key, cipher)
  }

  datatype State = State(key: Bytes, cipher: string)

  /** An engine holds one of the four ciphers and a 32-byte key. */
  type Engine = e: State | BaseEngine.Supported(Table, e.key, e.cipher)
    witness State(seq(32, _ => 0 as byte), X_CHACHA_IETF)

  /** __construct($key, $cipher = null); `aesAvailable` is sodium_crypto_aead_aes256gcm_is_available(). */
  function New(aesAvailable: bool, key: Bytes, cipher: Option<string>): (r: Result<Engine, Error>)
    ensures r.Ok? <==> Supported(aesAvailable, key, BaseEngine.ResolveCipher(Table, cipher))
    ensures r.Ok? ==> r.value.key == key && r.value.cipher == BaseEngine.ResolveCipher(Table, cipher)
    ensures r.Err? ==> r.error == RuntimeError(BaseEngine.UnsupportedMessage(Table))
  {
    var c := BaseEngine.ResolveCipher(Table, cipher);
    if Supported(aesAvailable, key, c) then Ok(State(key, c))
    else Err(RuntimeError(BaseEngine.UnsupportedMessage(Table)))
  }

  /** The accepted pairs: any of the four ciphers (XChaCha20 by default) with a 32-byte key, AES-256-GCM only on hardware that has it. */
  lemma AcceptedPairs(aesAvailable: bool, key: Bytes, cipher: Option<string>)
    ensures New(aesAvailable, key, cipher).Ok? <==>
      var c := cipher.GetOr(X_CHACHA_IETF);
      Known(c) && |key| == 32 && (c == AES_256_GCM ==> aesAvailable)
  {
  }

  /** getKey */
  function GetKey(e: Engine): (k: Bytes)
    ensures k == e.key
    ensures |k| == KEY_BYTES && Known(e.cipher)
  {
    e.key
  }

  /** generateKey (inherited): 32 random bytes for any of the four ciphers. */
  function GenerateKey(cipher: Option<string>, random: RandomSource): (r: Result<Bytes, Error>)
    ensures r.Ok? <==> Known(BaseEngine.ResolveCipher(Table, cipher))
    ensures r.Ok? ==> |r.value| == KEY_BYTES
  {
    BaseEngine.GenerateKey(Table, cipher, random)
  }

  /**
   * A generated key is accepted by the constructor for the same cipher, except
   * that generateKey does not ask whether AES-256-GCM has hardware support.
   */
  lemma GeneratedKeyAccepted(aesAvailable: bool, cipher: Option<string>, random: RandomSource)
    requires GenerateKey(cipher, random).Ok?
    ensures New(aesAvailable, GenerateKey(cipher, random).value, cipher).Ok? <==>
      (aesAvailable || BaseEngine.ResolveCipher(Table, cipher) != AES_256_GCM)
  {
  }

  /** extractNonce: the first getNonceLength() bytes (the whole payload if it is shorter). */
  function ExtractNonce(payload: Bytes, cipher: string): (nonce: Bytes)
    ensures |payload| >= NonceLength(cipher) ==> nonce == payload[..NonceLength(cipher)]
    ensures |payload| < NonceLength(cipher) ==> nonce == payload
    ensures |nonce| == NonceLength(cipher) <==> |payload| >= NonceLength(cipher)
  {
    Substr(payload, 0, NonceLength(cipher))
  }

  /** extractCipherText: everything after the nonce. */
  function ExtractCipherText(payload: Bytes, cipher: string): (ct: Bytes)
    ensures |payload| >= NonceLength(cipher) ==> ct == payload[NonceLength(cipher)..]
    ensures |payload| <= NonceLength(cipher) ==> ct == []
  {
    Substr(payload, NonceLength(cipher), |payload|)
  }

  /** Splitting a framed payload gives back the nonce and the sealed text it was made from. */
  lemma SplitFrame(nonce: Bytes, sealed: Bytes, cipher: string)
    requires |nonce| == NonceLength(cipher)
    ensures ExtractNonce(nonce + sealed, cipher) == nonce
    ensures ExtractCipherText(nonce + sealed, cipher) == sealed
  {
    assert (nonce + sealed)[..|nonce|] == nonce;
    assert (nonce + sealed)[|nonce|..] == sealed;
  }

  /** The two parts of any payload put it back together; a payload shorter than a nonce is all nonce. */
  lemma SplitJoin(payload: Bytes, cipher: string)
    ensures ExtractNonce(payload, cipher) + ExtractCipherText(payload, cipher) == payload
  {
    if |payload| >= NonceLength(cipher) {
      assert payload[..NonceLength(cipher)] + payload[NonceLength(cipher)..] == payload;
    } else {
      assert payload + [] == payload;
    }
  }

  /** doEncrypt: nonce ++ AEAD(message) with the nonce as associated data; false (None) for an unknown cipher. */
  function DoEncrypt(a: Aead, key: Bytes, cipher: string, message: Bytes, nonce: Bytes): (r: Option<Bytes>)
    ensures r.Some? <==> Known(cipher)
    ensures r.Some? ==> |r.value| >= |nonce| && r.value[..|nonce|] == nonce
    ensures r.Some? ==> r.value[|nonce|..] == a.seal(Algorithm(cipher).value, key, nonce, nonce, message)
  {
    match Algorithm(cipher)
    case None => None
    case Some(alg) => Some(nonce + a.seal(alg, key, nonce, nonce, message))
  }

  /**
   * doDecrypt: Ok(None) is libsodium's false (authentication failed, or an
   * unknown cipher); a payload too short to hold a nonce makes the binding
   * throw a SodiumException about the nonce size.
   */
  function DoDecrypt(a: Aead, key: Bytes, cipher: string, payload: Bytes): (r: Result<Option<Bytes>, Error>)
    ensures r.Err? <==> Known(cipher) && |payload| < NonceLength(cipher)
    ensures r.Err? ==> r.error == SodiumFailure(BAD_NONCE)
    ensures r == Ok(None) || r.Err? || Algorithm(cipher).Some?
  {
    var nonce := ExtractNonce(payload, cipher);
    var ct := ExtractCipherText(payload, cipher);
    match Algorithm(cipher)
    case None => Ok(None)
    case Some(alg) =>
      if |nonce| != NonceLength(cipher) then Err(SodiumFailure(BAD_NONCE))
      else Ok(a.open(alg, key, nonce, nonce, ct))
  }

  /** encrypt($value, false) of either sodium class, whose only difference is the message `failure`. */
  function Seal(a: Aead, key: Bytes, cipher: string, message: Bytes, nonce: Bytes, failure: string): (r: Result<Bytes, Error>)
    ensures r.Ok? <==> Known(cipher)
    ensures r.Ok? ==> Hex.IsLowerHex(r.value)
    ensures r.Ok? ==> r.value == Hex.Encode(nonce + a.seal(Algorithm(cipher).value, key, nonce, nonce, message))
    ensures r.Err? ==> r.error == EncryptError(failure)
  {
    match DoEncrypt(a, key, cipher, message, nonce)
    case None => Err(EncryptError(failure))
    case Some(raw) => Ok(Hex.Encode(raw))
  }

  /** decrypt($payload, false) of either sodium class. */
  function Open(a: Aead, key: Bytes, cipher: string, payload: Bytes, failure: string): (r: Result<Bytes, Error>)
    ensures r.Err? ==> r.error in {SodiumFailure(INVALID_HEX), SodiumFailure(BAD_NONCE), DecryptError(failure)}
  {
    match Hex.Decode(payload)
    case None => Err(SodiumFailure(INVALID_HEX))
    case Some(raw) =>
      match DoDecrypt(a, key, cipher, raw)
      case Err(err) => Err(err)
      case Ok(None) => Err(DecryptError(failure))
      case Ok(Some(m)) => Ok(m)
  }

  /** Opening what was sealed under the same key and cipher gives the message back. */
  lemma SealOpen(a: Aead, key: Bytes, cipher: string, message: Bytes, nonce: Bytes, f1: string, f2: string)
    requires AeadSound(a) && Known(cipher)
    requires |nonce| == NonceLength(cipher)
    ensures Open(a, key, cipher, Seal(a, key, cipher, message, nonce, f1).value, f2) == Ok(message)
  {
    var alg := Algorithm(cipher).value;
    var sealed := a.seal(alg, key, nonce, nonce, message);
    Hex.DecodeEncode(nonce + sealed);
    SplitFrame(nonce, sealed, cipher);
  }

  /** Whatever Open accepts is an authenticated AEAD opening of the payload's own nonce and remainder. */
  lemma OpenAuthenticated(a: Aead, key: Bytes, cipher: string, payload: Bytes, failure: string)
    requires Open(a, key, cipher, payload, failure).Ok?
    ensures
      var raw := Hex.Decode(payload).value;
      var n := NonceLength(cipher);
      && Known(cipher) && |raw| >= n
      && a.open(Algorithm(cipher).value, key, raw[..n], raw[..n], raw[n..]) == Some(Open(a, key, cipher, payload, failure).value)
  {
  }

  /** Which error Open reports: the two SodiumExceptions exactly for bad hex and for a payload shorter than a nonce, the DecryptException otherwise. */
  lemma OpenErrors(a: Aead, key: Bytes, cipher: string, payload: Bytes, failure: string)
    requires Known(cipher)
    ensures Open(a, key, cipher, payload, failure) == Err(SodiumFailure(INVALID_HEX)) <==> Hex.Decode(payload).None?
    ensures Open(a, key, cipher, payload, failure) == Err(SodiumFailure(BAD_NONCE)) <==>
      Hex.Decode(payload).Some? && |Hex.Decode(payload).value| < NonceLength(cipher)
    ensures Open(a, key, cipher, payload, failure) == Err(DecryptError(failure)) <==>
      Hex.Decode(payload).Some? && |Hex.Decode(payload).value| >= NonceLength(cipher)
      && a.open(Algorithm(cipher).value, key, Hex.Decode(payload).value[..NonceLength(cipher)],
                Hex.Decode(payload).value[..NonceLength(cipher)], Hex.Decode(payload).value[NonceLength(cipher)..]).None?
  {
  }

  /** Two encryptions with different nonces never produce the same payload. */
  lemma DistinctNonces(a: Aead, key: Bytes, cipher: string, m1: Bytes, m2: Bytes, n1: Bytes, n2: Bytes, failure: string)
    requires Known(cipher) && |n1| == NonceLength(cipher) && |n2| == NonceLength(cipher) && n1 != n2
    ensures Seal(a, key, cipher, m1, n1, failure) != Seal(a, key, cipher, m2, n2, failure)
  {
    var r1 := DoEncrypt(a, key, cipher, m1, n1).value;
    var r2 := DoEncrypt(a, key, cipher, m2, n2).value;
    assert r1[..|n1|] == n1 && r2[..|n2|] == n2;
    if Hex.Encode(r1) == Hex.Encode(r2) {
      Hex.EncodeInjective(r1, r2);
    }
  }

  /** The payload is twice as long as nonce ++ sealed text, one hex digit per half byte. */
  lemma PayloadLength(a: Aead, key: Bytes, cipher: string, message: Bytes, nonce: Bytes, failure: string)
    requires Known(cipher)
    ensures |Seal(a, key, cipher, message, nonce, failure).value| ==
      2 * (|nonce| + |a.seal(Algorithm(cipher).value, key, nonce, nonce, message)|)
  {
  }

  /** generateNonce: random_bytes(getNonceLength()). */
  function GenerateNonce(e: Engine, random: RandomSource): (nonce: Bytes)
    ensures |nonce| == NonceLength(e.cipher) && |nonce| > 0
  {
    random(NonceLength(e.cipher))
  }

  /** encryptString: never fails for a constructed engine; `nonce` is generateNonce()'s random_bytes(getNonceLength()). */
  function EncryptString(e: Engine, a: Aead, message: Bytes, nonce: Bytes): (r: Result<Bytes, Error>)
    requires |nonce| == NonceLength(e.cipher)
    ensures r.Ok? && Hex.IsLowerHex(r.value)
    ensures r.value == Hex.Encode(nonce + a.seal(Algorithm(e.cipher).value, e.key, nonce, nonce, message))
  {
    Seal(a, e.key, e.cipher, message, nonce, ENCRYPT_FAILED)
  }

  /** encrypt($value) with serialization. */
  function Encrypt<V>(e: Engine, a: Aead, s: Serializer<V>, value: V, nonce: Bytes): (r: Result<Bytes, Error>)
    requires |nonce| == NonceLength(e.cipher)
    ensures r.Ok? && Hex.IsLowerHex(r.value)
    ensures r.value == Hex.Encode(nonce + a.seal(Algorithm(e.cipher).value, e.key, nonce, nonce, s.serialize(value)))
  {
    EncryptString(e, a, s.serialize(value), nonce)
  }

  /** decryptString */
  function DecryptString(e: Engine, a: Aead, payload: Bytes): (r: Result<Bytes, Error>)
    ensures r.Err? ==> r.error in {SodiumFailure(INVALID_HEX), SodiumFailure(BAD_NONCE), DecryptError(DECRYPT_FAILED)}
  {
    Open(a, e.key, e.cipher, payload, DECRYPT_FAILED)
  }

  /** decrypt($payload) with unserialization. */
  function Decrypt<V>(e: Engine, a: Aead, s: Serializer<V>, payload: Bytes): (r: Result<V, Error>)
    ensures r.Err? ==> r.error in {SodiumFailure(INVALID_HEX), SodiumFailure(BAD_NONCE), DecryptError(DECRYPT_FAILED)}
  {
    match DecryptString(e, a, payload)
    case Err(err) => Err(err)
    case Ok(m) => Ok(s.unserialize(m))
  }

  /** decryptString(encryptString(m)) == m for each of the four ciphers. */
  lemma RoundTripString(e: Engine, a: Aead, message: Bytes, nonce: Bytes)
    requires AeadSound(a) && |nonce| == NonceLength(e.cipher)
    ensures DecryptString(e, a, EncryptString(e, a, message, nonce).value) == Ok(message)
  {
    SealOpen(a, e.key, e.cipher, message, nonce, ENCRYPT_FAILED, DECRYPT_FAILED);
  }

  /** decrypt(encrypt(v)) == v. */
  lemma RoundTrip<V(!new)>(e: Engine, a: Aead, s: Serializer<V>, value: V, nonce: Bytes)
    requires AeadSound(a) && SerializerSound(s) && |nonce| == NonceLength(e.cipher)
    ensures Decrypt(e, a, s, Encrypt(e, a, s, value, nonce).value) == Ok(value)
  {
    RoundTripString(e, a, s.serialize(value), nonce);
  }

  /** A payload made under one key is refused with a DecryptException by an engine with another key. */
  lemma DifferentKeyRejected(e1: Engine, e2: Engine, a: Aead, message: Bytes, nonce: Bytes)
    requires e1.cipher == e2.cipher && AeadRejectsOtherKeys(a, e1.key, e2.key)
    requires |nonce| == NonceLength(e1.cipher)
    ensures DecryptString(e2, a, EncryptString(e1, a, message, nonce).value) == Err(DecryptError(DECRYPT_FAILED))
  {
    var alg := Algorithm(e1.cipher).value;
    var sealed := a.seal(alg, e1.key, nonce, nonce, message);
    Hex.DecodeEncode(nonce + sealed);
    SplitFrame(nonce, sealed, e1.cipher);
  }
}
