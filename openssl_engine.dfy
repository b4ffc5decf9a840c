/**
 * The CBC encrypt-then-MAC engine (Engines/OpenSslEngine.php). A payload is
 * base64(JSON{iv: base64(nonce), value: CBC output, mac: hex HMAC-SHA256 of
 * iv ++ value under the encryption key}). Decryption checks the shape, then
 * the MAC (blinded double-HMAC comparison), then runs the cipher.
 */
module OpenSslEngine {
  import opened Wrappers
  import opened Bytes
  import opened Primitives
  import BaseEngine
  import Hex

  const ENGINE_NAME: string := "openssl"
  const AES_128_CBC: string := "AES-128-CBC"
  const AES_256_CBC: string := "AES-256-CBC"

  const Table: BaseEngine.CipherTable :=
    BaseEngine.CipherTable([AES_128_CBC, AES_256_CBC], map[AES_128_CBC := 16, AES_256_CBC := 32], AES_128_CBC)

  const ENCRYPT_FAILED: string := "Could not encrypt the data"
  const PAYLOAD_INVALID: string := "The payload is invalid"
  const MAC_INVALID: string := "The MAC is invalid"
  const DECRYPT_FAILED: string := "Could not decrypt the data"

  datatype State = State(key: Bytes, cipher: string)

  /** An engine exists only for a key and cipher that passed the constructor's check; neither field is ever reassigned. */
  type Engine = e: State | BaseEngine.Supported(Table, e.key, e.cipher)
    witness State(seq(16, _ => 0 as byte), AES_128_CBC)

  /** __construct($key, $cipher = null) */
  function New(key: Bytes, cipher: Option<string>): (r: Result<Engine, Error>)
    ensures r.Ok? <==> BaseEngine.Supported(Table, key, BaseEngine.ResolveCipher(Table, cipher))
    ensures r.Ok? ==> r.value.key == key && r.value.cipher == BaseEngine.ResolveCipher(Table, cipher)
    ensures r.Err? ==> r.error == RuntimeError(BaseEngine.UnsupportedMessage(Table))
  {
    var c := BaseEngine.ResolveCipher(Table, cipher);
    if BaseEngine.Supported(Table, key, c) then Ok(State(key, c))
    else Err(RuntimeError(BaseEngine.UnsupportedMessage(Table)))
  }

  /** Exactly two key/cipher pairs are accepted: a 16-byte key for AES-128-CBC (the default) and a 32-byte key for AES-256-CBC. */
  lemma AcceptedPairs(key: Bytes, cipher: Option<string>)
    ensures New(key, cipher).Ok? <==>
      var c := cipher.GetOr(AES_128_CBC);
      (c == AES_128_CBC && |key| == 16) || (c == AES_256_CBC && |key| == 32)
  {
  }

  /** getKey */
  function GetKey(e: Engine): (k: Bytes)
    ensures |k| == 16 || |k| == 32
  {
    e.key
  }

  /** The constructor's key comes back unchanged from getKey. */
  lemma GetKeyReturnsConstructorKey(key: Bytes, cipher: Option<string>)
    requires New(key, cipher).Ok?
    ensures GetKey(New(key, cipher).value) == key
  {
  }

  /** generateKey (inherited): KEY_LENGTHS[cipher] random bytes. */
  function GenerateKey(cipher: Option<string>, random: RandomSource): (r: Result<Bytes, Error>)
    ensures r.Ok? ==> New(r.value, cipher).Ok?
    ensures r.Err? <==> BaseEngine.ResolveCipher(Table, cipher) !in Table.keyLengths
  {
    BaseEngine.GenerateKey(Table, cipher, random)
  }

  /** openssl_cipher_iv_length: the block size of AES, 16 bytes, for both CBC ciphers; false (None) for anything else. */
  function CbcIvLength(cipher: string): Option<nat> {
    if cipher == AES_128_CBC || cipher == AES_256_CBC then Some(16) else None
  }

  /** getNonceLength */
  function NonceLength(e: Engine): (n: nat)
    ensures n == 16
  {
    CbcIvLength(e.cipher).value
  }

  /** generateNonce: random_bytes(getNonceLength()), the IV that encrypt uses. */
  function GenerateNonce(e: Engine, random: RandomSource): (iv: Bytes)
    ensures |iv| == NonceLength(e)
  {
    random(NonceLength(e))
  }

  /** hash: the hex HMAC-SHA256 of iv ++ value, keyed by the encryption key itself. */
  function Hash(e: Engine, c: Crypto, iv: Bytes, value: Bytes): (mac: Bytes)
    ensures Hex.Decode(mac) == Some(c.hmac(e.key, iv + value))
    ensures Hex.IsLowerHex(mac) && mac == Hex.Encode(c.hmac(e.key, iv + value))
  {
    Hex.DecodeEncode(c.hmac(e.key, iv + value));
    Hex.Encode(c.hmac(e.key, iv + value))
  }

  /** encrypt($value, false) = encryptString($value); `iv` is the fresh random_bytes(getNonceLength()). */
  function EncryptString(e: Engine, c: Crypto, plaintext: Bytes, iv: Bytes): (r: Result<Bytes, Error>)
    requires |iv| == NonceLength(e)
    ensures r.Err? ==> r.error == EncryptError(ENCRYPT_FAILED)
  {
    match c.cbc.encrypt(e.cipher, e.key, iv, plaintext)
    case None => Err(EncryptError(ENCRYPT_FAILED))
    case Some(value) =>
      var ivText := c.b64.encode(iv);
      var mac := Hash(e, c, ivText, value);
      match c.json.encodePayload(ivText, value, mac)
      case None => Err(EncryptError(ENCRYPT_FAILED))
      case Some(json) => Ok(c.b64.encode(json))
  }

  /** encrypt($value) with serialization. */
  function Encrypt<V>(e: Engine, c: Crypto, s: Serializer<V>, value: V, iv: Bytes): (r: Result<Bytes, Error>)
    requires |iv| == NonceLength(e)
    ensures r.Err? ==> r.error == EncryptError(ENCRYPT_FAILED)
  {
    EncryptString(e, c, s.serialize(value), iv)
  }

  /** json_decode(base64_decode($payload), true); a failed base64 decode reaches json_decode as ''. */
  function DecodePayload(c: Crypto, payload: Bytes): DecodedPayload {
    c.json.decodePayload(c.b64.decode(payload).GetOr([]))
  }

  /** validPayload: an array with iv, value and mac set, whose iv strictly decodes to exactly the IV length (strlen(false) is 0). */
  predicate ValidPayload(e: Engine, c: Crypto, d: DecodedPayload) {
    && d.Fields? && d.iv.Some? && d.value.Some? && d.mac.Some?
    && match c.b64.decodeStrict(d.iv.value)
       case None => false
       case Some(raw) => |raw| == NonceLength(e)
  }

  /** calculateMac: the HMAC, keyed by the blinding bytes, of the recomputed hex MAC. */
  function CalculateMac(e: Engine, c: Crypto, iv: Bytes, value: Bytes, blind: Bytes): Bytes {
    c.hmac(blind, Hash(e, c, iv, value))
  }

  /** validMac: hash_equals(HMAC(blind, received mac), calculateMac). */
  predicate ValidMac(e: Engine, c: Crypto, iv: Bytes, value: Bytes, mac: Bytes, blind: Bytes) {
    c.hmac(blind, mac) == CalculateMac(e, c, iv, value, blind)
  }

  /** With HMAC telling messages apart, the blinded comparison accepts exactly the recomputed MAC, whatever the blinding bytes. */
  lemma ValidMacIff(e: Engine, c: Crypto, iv: Bytes, value: Bytes, mac: Bytes, blind: Bytes)
    requires HmacInjective(c.hmac)
    ensures ValidMac(e, c, iv, value, mac, blind) <==> mac == Hash(e, c, iv, value)
  {
  }

  datatype Envelope = Envelope(iv: Bytes, value: Bytes, mac: Bytes)

  /** getJsonPayload: shape first ("The payload is invalid"), then the MAC ("The MAC is invalid"). */
  function GetJsonPayload(e: Engine, c: Crypto, payload: Bytes, blind: Bytes): (r: Result<Envelope, Error>)
    ensures r.Ok? ==> ValidPayload(e, c, DecodePayload(c, payload))
    ensures r.Ok? ==> ValidMac(e, c, r.value.iv, r.value.value, r.value.mac, blind)
    ensures r.Err? ==> r.error == DecryptError(PAYLOAD_INVALID) || r.error == DecryptError(MAC_INVALID)
  {
    var d := DecodePayload(c, payload);
    if !ValidPayload(e, c, d) then Err(DecryptError(PAYLOAD_INVALID))
    else if !ValidMac(e, c, d.iv.value, d.value.value, d.mac.value, blind) then Err(DecryptError(MAC_INVALID))
    else Ok(Envelope(d.iv.value, d.value.value, d.mac.value))
  }

  /** decrypt($payload, false) = decryptString($payload); `blind` is the random_bytes(16) drawn by validMac. */
  function DecryptString(e: Engine, c: Crypto, payload: Bytes, blind: Bytes): (r: Result<Bytes, Error>)
    requires |blind| == 16
    ensures r.Err? ==> r.error.DecryptError?
  {
    match GetJsonPayload(e, c, payload, blind)
    case Err(err) => Err(err)
    case Ok(env) =>
      match c.cbc.decrypt(e.cipher, e.key, c.b64.decode(env.iv).GetOr([]), env.value)
      case None => Err(DecryptError(DECRYPT_FAILED))
      case Some(m) => Ok(m)
  }

  /** decrypt($payload) with unserialization. */
  function Decrypt<V>(e: Engine, c: Crypto, s: Serializer<V>, payload: Bytes, blind: Bytes): (r: Result<V, Error>)
    requires |blind| == 16
    ensures r.Err? ==> r.error.DecryptError?
  {
    match DecryptString(e, c, payload, blind)
    case Err(err) => Err(err)
    case Ok(m) => Ok(s.unserialize(m))
  }

  /** What a payload made by encrypt carries: the base64 IV, the cipher output, and a hex MAC of both under the key. */
  lemma EncryptWireFormat(e: Engine, c: Crypto, plaintext: Bytes, iv: Bytes)
    requires Base64Sound(c.b64) && JsonSound(c.json)
    requires |iv| == NonceLength(e)
    requires EncryptString(e, c, plaintext, iv).Ok?
    ensures
      var d := DecodePayload(c, EncryptString(e, c, plaintext, iv).value);
      && d.Fields? && d.iv == Some(c.b64.encode(iv)) && d.value.Some? && d.mac.Some?
      && c.cbc.encrypt(e.cipher, e.key, iv, plaintext) == d.value
      && Hex.Decode(d.mac.value) == Some(c.hmac(e.key, c.b64.encode(iv) + d.value.value))
      && d.mac == Some(Hex.Encode(c.hmac(e.key, c.b64.encode(iv) + d.value.value)))
  {
    var value := c.cbc.encrypt(e.cipher, e.key, iv, plaintext).value;
    var ivText := c.b64.encode(iv);
    var json := c.json.encodePayload(ivText, value, Hash(e, c, ivText, value)).value;
    assert c.b64.decodeStrict(c.b64.encode(json)) == Some(json);
  }

  /** decryptString(encryptString(m)) == m, for any blinding bytes. */
  lemma RoundTripString(e: Engine, c: Crypto, plaintext: Bytes, iv: Bytes, blind: Bytes)
    requires Base64Sound(c.b64) && JsonSound(c.json) && CbcSound(c.cbc)
    requires |iv| == NonceLength(e) && |blind| == 16
    requires EncryptString(e, c, plaintext, iv).Ok?
    ensures DecryptString(e, c, EncryptString(e, c, plaintext, iv).value, blind) == Ok(plaintext)
  {
    var value := c.cbc.encrypt(e.cipher, e.key, iv, plaintext).value;
    var ivText := c.b64.encode(iv);
    var json := c.json.encodePayload(ivText, value, Hash(e, c, ivText, value)).value;
    assert c.b64.decodeStrict(c.b64.encode(json)) == Some(json);
    assert c.b64.decodeStrict(ivText) == Some(iv);
    assert ValidPayload(e, c, DecodePayload(c, c.b64.encode(json)));
  }

  /** decrypt(encrypt(v)) == v. */
  lemma RoundTrip<V(!new)>(e: Engine, c: Crypto, s: Serializer<V>, value: V, iv: Bytes, blind: Bytes)
    requires Base64Sound(c.b64) && JsonSound(c.json) && CbcSound(c.cbc) && SerializerSound(s)
    requires |iv| == NonceLength(e) && |blind| == 16
    requires Encrypt(e, c, s, value, iv).Ok?
    ensures Decrypt(e, c, s, Encrypt(e, c, s, value, iv).value, blind) == Ok(value)
  {
    RoundTripString(e, c, s.serialize(value), iv, blind);
  }

  /** A malformed payload is refused as "The payload is invalid" before the MAC or the cipher is consulted: the outcome is the same whatever HMAC and cipher are plugged in. */
  lemma ShapeCheckedFirst(e: Engine, c: Crypto, payload: Bytes, blind: Bytes, hmac': Hmac, cbc': Cbc)
    requires |blind| == 16
    requires !ValidPayload(e, c, DecodePayload(c, payload))
    ensures DecryptString(e, c, payload, blind) == Err(DecryptError(PAYLOAD_INVALID))
    ensures DecryptString(e, c.(hmac := hmac', cbc := cbc'), payload, blind) == Err(DecryptError(PAYLOAD_INVALID))
  {
    var c' := c.(hmac := hmac', cbc := cbc');
    assert DecodePayload(c', payload) == DecodePayload(c, payload);
  }

  /** A well-formed payload whose MAC does not match is refused as "The MAC is invalid" and never reaches openssl_decrypt. */
  lemma MacCheckedBeforeCipher(e: Engine, c: Crypto, payload: Bytes, blind: Bytes, cbc': Cbc)
    requires |blind| == 16 && HmacInjective(c.hmac)
    requires ValidPayload(e, c, DecodePayload(c, payload))
    requires var d := DecodePayload(c, payload); d.mac.value != Hash(e, c, d.iv.value, d.value.value)
    ensures DecryptString(e, c, payload, blind) == Err(DecryptError(MAC_INVALID))
    ensures DecryptString(e, c.(cbc := cbc'), payload, blind) == Err(DecryptError(MAC_INVALID))
  {
    var c' := c.(cbc := cbc');
    var d := DecodePayload(c, payload);
    assert DecodePayload(c', payload) == d;
    ValidMacIff(e, c, d.iv.value, d.value.value, d.mac.value, blind);
  }

  /** Plaintext is returned only for a well-formed payload whose MAC is the recomputed one, and it is exactly what the cipher yields. */
  lemma PlaintextOnlyWhenAuthentic(e: Engine, c: Crypto, payload: Bytes, blind: Bytes)
    requires |blind| == 16 && HmacInjective(c.hmac)
    requires DecryptString(e, c, payload, blind).Ok?
    ensures
      var d := DecodePayload(c, payload);
      && ValidPayload(e, c, d)
      && d.mac.value == Hash(e, c, d.iv.value, d.value.value)
      && c.cbc.decrypt(e.cipher, e.key, c.b64.decode(d.iv.value).GetOr([]), d.value.value)
         == Some(DecryptString(e, c, payload, blind).value)
  {
    var d := DecodePayload(c, payload);
    ValidMacIff(e, c, d.iv.value, d.value.value, d.mac.value, blind);
  }

  /** A payload made under one key fails the MAC check under any other key, when HMAC separates the two keys. */
  lemma DifferentKeyFailsMac(e1: Engine, e2: Engine, c: Crypto, plaintext: Bytes, iv: Bytes, blind: Bytes)
    requires Base64Sound(c.b64) && JsonSound(c.json) && HmacInjective(c.hmac)
    requires KeysSeparated(c.hmac, e1.key, e2.key)
    requires |iv| == NonceLength(e1) && |blind| == 16
    requires EncryptString(e1, c, plaintext, iv).Ok?
    ensures DecryptString(e2, c, EncryptString(e1, c, plaintext, iv).value, blind) == Err(DecryptError(MAC_INVALID))
  {
    var payload := EncryptString(e1, c, plaintext, iv).value;
    EncryptWireFormat(e1, c, plaintext, iv);
    var d := DecodePayload(c, payload);
    assert c.b64.decodeStrict(d.iv.value) == Some(iv);
    assert ValidPayload(e2, c, d);
    var msg := d.iv.value + d.value.value;
    assert Hex.Decode(d.mac.value) == Some(c.hmac(e1.key, msg));
    assert Hex.Decode(Hash(e2, c, d.iv.value, d.value.value)) == Some(c.hmac(e2.key, msg));
    assert c.hmac(e1.key, msg) != c.hmac(e2.key, msg);
    assert d.mac.value != Hash(e2, c, d.iv.value, d.value.value);
    ValidMacIff(e2, c, d.iv.value, d.value.value, d.mac.value, blind);
  }
}
