/**
 * The stand-alone sodium schema (Schema/SodiumSchema.php). It carries the same
 * framing as the sodium engine, but checks ciphers against its own list,
 * derives key lengths from a switch (-1 for an unknown cipher), and ends its
 * error messages with a full stop.
 */
module SodiumSchema {
  import opened Wrappers
  import opened Bytes
  import opened Primitives
  import SE = SodiumEngine
  import Hex

  const AVAILABLE_CIPHERS: seq<string> := [SE.AES_256_GCM, SE.CHACHA, SE.CHACHA_IETF, SE.X_CHACHA_IETF]

  const ENCRYPT_FAILED: string := "Could not encrypt the data."
  const DECRYPT_FAILED: string := "Could not decrypt the data."

  function UnsupportedMessage(): string {
    "The only supported ciphers are " + SE.AES_256_GCM + ", " + SE.CHACHA + ", " + SE.CHACHA_IETF + ", " + SE.X_CHACHA_IETF + " with the correct key lengths."
  }

  /** in_array($cipher, AVAILABLE_CIPHERS): the list holds exactly the four cipher names. */
  lemma AvailableIsKnown(cipher: string)
    ensures cipher in AVAILABLE_CIPHERS <==> SE.Known(cipher)
  {
  }

  /** getKeyLength: KEYBYTES (32) for the four ciphers, -1 for anything else. */
  function GetKeyLength(cipher: string): (n: int)
    ensures n == 32 <==> SE.Known(cipher)
    ensures n == -1 <==> !SE.Known(cipher)
  {
    if cipher == SE.AES_256_GCM then 32
    else if cipher == SE.CHACHA then 32
    else if cipher == SE.CHACHA_IETF || cipher == SE.X_CHACHA_IETF then 32
    else -1
  }

  /** supported: listed cipher, then hardware for AES-256-GCM, then key length. */
  predicate Supported(aesAvailable: bool, key: Bytes, cipher: string) {
    if cipher !in AVAILABLE_CIPHERS then false
    else if cipher == SE.AES_256_GCM && !aesAvailable then false
    else |key| == GetKeyLength(cipher)
  }

  /** The schema's check accepts exactly what the sodium engine's check accepts. */
  lemma SupportedAgreesWithEngine(aesAvailable: bool, key: Bytes, cipher: string)
    ensures Supported(aesAvailable, key, cipher) <==> SE.Supported(aesAvailable, key, cipher)
  {
  }

  datatype State = State(key: Bytes, cipher: string)

  type Schema = s: State | SE.Known(s.cipher) && |s.key| == 32
    witness State(seq(32, _ => 0 as byte), SE.X_CHACHA_IETF)

  /** __construct($key, $cipher = XCHACHA-20-POLY-1305-IETF); None is the omitted argument. */
  function New(aesAvailable: bool, key: Bytes, cipher: Option<string>): (r: Result<Schema, Error>)
    ensures r.Ok? <==> Supported(aesAvailable, key, cipher.GetOr(SE.X_CHACHA_IETF))
    ensures r.Ok? ==> r.value.key == key && r.value.cipher == cipher.GetOr(SE.X_CHACHA_IETF)
    ensures r.Err? ==> r.error == RuntimeError(UnsupportedMessage())
  {
    var c := cipher.GetOr(SE.X_CHACHA_IETF);
    if Supported(aesAvailable, key, c) then Ok(State(key, c))
    else Err(RuntimeError(UnsupportedMessage()))
  }

  /** getKey */
  function GetKey(s: Schema): (k: Bytes)
    ensures k == s.key
    ensures |k| == GetKeyLength(s.cipher)
  {
    s.key
  }

  /** generateKey: random_bytes(getKeyLength($cipher)); for an unknown cipher the length is -1 and random_bytes throws. */
  function GenerateKey(cipher: Option<string>, random: RandomSource): (r: Result<Bytes, Error>)
    ensures r.Ok? <==> SE.Known(cipher.GetOr(SE.X_CHACHA_IETF))
    ensures r.Ok? ==> |r.value| == GetKeyLength(cipher.GetOr(SE.X_CHACHA_IETF))
    ensures r.Err? ==> r.error == ValueError(RANDOM_LENGTH)
  {
    RandomBytes(random, GetKeyLength(cipher.GetOr(SE.X_CHACHA_IETF)))
  }

  /** A generated key is accepted for the same cipher, AES-256-GCM needing hardware support. */
  lemma GeneratedKeyAccepted(aesAvailable: bool, cipher: Option<string>, random: RandomSource)
    requires GenerateKey(cipher, random).Ok?
    ensures New(aesAvailable, GenerateKey(cipher, random).value, cipher).Ok? <==>
      (aesAvailable || cipher.GetOr(SE.X_CHACHA_IETF) != SE.AES_256_GCM)
  {
  }

  /** generateNonce: random_bytes(getNonceLength()). */
  function GenerateNonce(s: Schema, random: RandomSource): (nonce: Bytes)
    ensures |nonce| == SE.NonceLength(s.cipher) && |nonce| > 0
  {
    random(SE.NonceLength(s.cipher))
  }

  /** encryptString: hex(nonce ++ AEAD(message)); `nonce` is generateNonce()'s random_bytes(getNonceLength()). */
  function EncryptString(s: Schema, a: Aead, message: Bytes, nonce: Bytes): (r: Result<Bytes, Error>)
    requires |nonce| == SE.NonceLength(s.cipher)
    ensures r.Ok? && Hex.IsLowerHex(r.value)
    ensures r.value == Hex.Encode(nonce + a.seal(SE.Algorithm(s.cipher).value, s.key, nonce, nonce, message))
  {
    SE.Seal(a, s.key, s.cipher, message, nonce, ENCRYPT_FAILED)
  }

  function Encrypt<V>(s: Schema, a: Aead, ser: Serializer<V>, value: V, nonce: Bytes): (r: Result<Bytes, Error>)
    requires |nonce| == SE.NonceLength(s.cipher)
    ensures r.Ok? && Hex.IsLowerHex(r.value)
    ensures r.value == Hex.Encode(nonce + a.seal(SE.Algorithm(s.cipher).value, s.key, nonce, nonce, ser.serialize(value)))
  {
    EncryptString(s, a, ser.serialize(value), nonce)
  }

  /** decryptString: failed authentication is "Could not decrypt the data."; bad hex and short payloads are SodiumExceptions. */
  function DecryptString(s: Schema, a: Aead, payload: Bytes): (r: Result<Bytes, Error>)
    ensures r.Err? ==> r.error in {SodiumFailure(SE.INVALID_HEX), SodiumFailure(SE.BAD_NONCE), DecryptError(DECRYPT_FAILED)}
  {
    SE.Open(a, s.key, s.cipher, payload, DECRYPT_FAILED)
  }

  function Decrypt<V>(s: Schema, a: Aead, ser: Serializer<V>, payload: Bytes): (r: Result<V, Error>)
    ensures r.Err? ==> r.error in {SodiumFailure(SE.INVALID_HEX), SodiumFailure(SE.BAD_NONCE), DecryptError(DECRYPT_FAILED)}
  {
    match DecryptString(s, a, payload)
    case Err(err) => Err(err)
    case Ok(m) => Ok(ser.unserialize(m))
  }

  /** decrypt(encrypt(v)) == v. */
  lemma RoundTrip<V(!new)>(s: Schema, a: Aead, ser: Serializer<V>, value: V, nonce: Bytes)
    requires AeadSound(a) && SerializerSound(ser) && |nonce| == SE.NonceLength(s.cipher)
    ensures Decrypt(s, a, ser, Encrypt(s, a, ser, value, nonce).value) == Ok(value)
  {
    SE.SealOpen(a, s.key, s.cipher, ser.serialize(value), nonce, ENCRYPT_FAILED, DECRYPT_FAILED);
  }

  /** A schema and an engine built from the same key and cipher read each other's payloads: the wire format is the same. */
  lemma InteroperatesWithEngine(s: Schema, e: SE.Engine, a: Aead, message: Bytes, nonce: Bytes)
    requires AeadSound(a) && s.key == e.key && s.cipher == e.cipher
    requires |nonce| == SE.NonceLength(s.cipher)
    ensures EncryptString(s, a, message, nonce) == SE.EncryptString(e, a, message, nonce)
    ensures SE.DecryptString(e, a, EncryptString(s, a, message, nonce).value) == Ok(message)
  {
    SE.RoundTripString(e, a, message, nonce);
  }
}
