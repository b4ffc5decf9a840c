# Cryptographer, modelled in Dafny

This project models the core of Cryptographer, a Laravel package for symmetric encryption. The model covers:

- **The two encryption engines.**
  - `OpenSslEngine` does AES-CBC encryption with an HMAC-SHA256 tag inside a base64 JSON envelope.
  - `SodiumEngine` does libsodium AEAD with the nonce prefixed to the ciphertext, hex-encoded.
- **The schema variant of the sodium engine**, `SodiumSchema`.
- **The cipher and key-length bookkeeping** that `Engines/Engine.php` and `Schema/Schema.php` share.
- **The three key drivers.** The local driver holds the key itself. The two AWS KMS drivers hold a wrapped data key and unwrap it on first use.
- **The two managers.**
  - `EncryptionManager` resolves a named configuration, builds and caches one engine per name, and forwards encryption to the default engine.
  - `KeyManager` does the same for key drivers.
  - Both keep a static registry that generates keys by engine and key-driver name.

Foreign code becomes parameters of the model:

- **Cryptographic primitives** (openssl CBC, HMAC-SHA256, the sodium AEAD constructions, base64, JSON, PHP serialization) are records of functions. Their expected behaviour is stated as predicates: `Base64Sound`, `JsonSound`, `CbcSound`, `AeadSound`, `SerializerSound`, `HmacInjective`, `KeysSeparated`, `AeadRejectsOtherKeys`. These predicates appear only as preconditions of lemmas and of `EncryptionManager.ManagerRoundTrip`.
- **The AWS KMS client** is a record of functions (`Kms.Client`). Its one assumed property is `Kms.ReEncryptKeepsPlaintext`.
- **`random_bytes`** is a `RandomSource`: a function that answers a length `n` of at least 1 with exactly `n` bytes. `Bytes.RandomBytes` adds the `ValueError` that `random_bytes` raises for a length below 1; where the length is fixed and positive (a key of a tabled length, a nonce, an IV), the source is called directly. Where a single nonce or blinding string is drawn, it is a parameter with a length precondition.
- **The clock** is an integer `now`.
- **Hex** (`sodium_bin2hex`, `sodium_hex2bin`, the text output of `hash_hmac`) is defined concretely, after section 8 of RFC 4648.

Engines are immutable values: a subset type over a state record whose invariant is the constructor's `supported` check. Construction is a function returning a `Result`, and a thrown exception is its `Err` value. The AWS drivers cache the unwrapped key in a field, so they are classes. So are the managers, whose engine and driver caches are fields. A ghost counter or log on these classes records how often a KMS call or a construction happened, which lets contracts state "at most once".

## Model

| member | source | states |
|---|---|---|
| BaseEngine.ResolveCipher | src/Wizofgoz/Cryptographer/Engines/Engine.php:100-107 | a missing cipher becomes the class's default cipher; a given one is kept unchanged |
| BaseEngine.ResolveCipherIdempotent | src/Wizofgoz/Cryptographer/Schema/Schema.php:57-64 | resolving an already resolved cipher changes nothing |
| BaseEngine.Supported | src/Wizofgoz/Cryptographer/Engines/Engine.php:117-122 | the cipher is a key of the key-length table and the key's byte length is exactly its entry |
| BaseEngine.SupportedDependsOnLength | src/Wizofgoz/Cryptographer/Engines/Engine.php:117-122 | support depends only on the key's length, and a cipher outside the key-length table is never supported |
| BaseEngine.GenerateKey | src/Wizofgoz/Cryptographer/Engines/Engine.php:134-143 | succeeds exactly when the resolved cipher is in the table, and the key it yields is supported for that cipher; otherwise it fails with "<cipher> is not a supported cipher." |
| Bytes.Substr | src/Wizofgoz/Cryptographer/Engines/SodiumEngine.php:214-229 | 8-bit substring: never longer than asked or than the input; the exact slice when it fits, the tail from the start when the length overhangs the end, empty past the end |
| Bytes.RandomBytes | src/Wizofgoz/Cryptographer/KeyDrivers/LocalKeyDriver.php:25 | random_bytes: exactly the requested number of bytes for a length of at least 1, and the ValueError "must be greater than 0" for any smaller length |
| Hex.Digit | src/Wizofgoz/Cryptographer/Engines/SodiumEngine.php:54-65 | every lower-case digit written reads back as its value |
| Hex.DigitValue | src/Wizofgoz/Cryptographer/Engines/SodiumEngine.php:150-161 | a character read as a digit has a value below 16 |
| Hex.Encode | src/Wizofgoz/Cryptographer/Engines/SodiumEngine.php:54-65 | the text is twice as long as the bytes and uses lower-case digits only |
| Hex.Decode | src/Wizofgoz/Cryptographer/Engines/SodiumEngine.php:150-161 | accepted text is exactly twice as long as the bytes it yields |
| Hex.DecodeEncode | src/Wizofgoz/Cryptographer/Engines/SodiumEngine.php:54-65 | decoding undoes encoding for every byte string |
| Hex.EncodeAppend | src/Wizofgoz/Cryptographer/Engines/SodiumEngine.php:118-138 | encoding a concatenation concatenates the encodings |
| Hex.EncodeInjective | src/Wizofgoz/Cryptographer/Engines/SodiumEngine.php:150-161 | different byte strings never share a hex text |
| OpenSslEngine.New | src/Wizofgoz/Cryptographer/Engines/Engine.php:36-49 | construction succeeds exactly for a supported key and cipher, keeps both, and otherwise throws the "only supported ciphers" RuntimeException |
| OpenSslEngine.AcceptedPairs | src/Wizofgoz/Cryptographer/Engines/OpenSslEngine.php:12-24 | the accepted pairs are exactly AES-128-CBC with 16 bytes and AES-256-CBC with 32, defaulting to AES-128-CBC |
| OpenSslEngine.GetKey | src/Wizofgoz/Cryptographer/Engines/Engine.php:169-172 | the key of a constructed engine is 16 or 32 bytes long |
| OpenSslEngine.GetKeyReturnsConstructorKey | src/Wizofgoz/Cryptographer/Engines/Engine.php:36-49 | getKey returns the key the engine was constructed with |
| OpenSslEngine.DecodePayload | src/Wizofgoz/Cryptographer/Engines/OpenSslEngine.php:157-159 | json_decode of the base64 decoding, with a failed decoding read as the empty string |
| OpenSslEngine.ValidPayload | src/Wizofgoz/Cryptographer/Engines/OpenSslEngine.php:182-186 | an array with iv, value and mac set whose iv strictly base64-decodes to exactly the IV length |
| OpenSslEngine.CalculateMac | src/Wizofgoz/Cryptographer/Engines/OpenSslEngine.php:214-219 | the HMAC, keyed by the blinding bytes, of the recomputed MAC of iv and value |
| OpenSslEngine.ValidMac | src/Wizofgoz/Cryptographer/Engines/OpenSslEngine.php:197-204 | the HMAC of the received mac under the blinding bytes equals the calculated one |
| OpenSslEngine.GenerateKey | src/Wizofgoz/Cryptographer/Engines/Engine.php:134-143 | a generated key is accepted by the constructor for the same cipher; generation fails exactly for a cipher outside the table |
| OpenSslEngine.NonceLength | src/Wizofgoz/Cryptographer/Engines/OpenSslEngine.php:27-30 | the IV is 16 bytes for both CBC ciphers |
| OpenSslEngine.GenerateNonce | src/Wizofgoz/Cryptographer/Engines/Engine.php:159-162 | the IV drawn has the engine's nonce length |
| OpenSslEngine.Hash | src/Wizofgoz/Cryptographer/Engines/OpenSslEngine.php:142-145 | the MAC text is the lower-case hex of the HMAC under the engine key over iv followed by value, as hash_hmac writes it |
| OpenSslEngine.ValidMacIff | src/Wizofgoz/Cryptographer/Engines/OpenSslEngine.php:197-219 | the blinded double-HMAC comparison accepts a MAC exactly when it equals the recomputed hash (for an injective HMAC) |
| OpenSslEngine.GetJsonPayload | src/Wizofgoz/Cryptographer/Engines/OpenSslEngine.php:157-173 | an accepted payload has the right shape and a valid MAC; a refusal is "The payload is invalid" or "The MAC is invalid" |
| OpenSslEngine.EncryptString | src/Wizofgoz/Cryptographer/Engines/OpenSslEngine.php:83-86 | the only failure is the "Could not encrypt the data" EncryptException |
| OpenSslEngine.Encrypt | src/Wizofgoz/Cryptographer/Engines/OpenSslEngine.php:43-71 | serializes first; the only failure is the "Could not encrypt the data" EncryptException |
| OpenSslEngine.DecryptString | src/Wizofgoz/Cryptographer/Engines/OpenSslEngine.php:129-132 | every failure is a DecryptException |
| OpenSslEngine.Decrypt | src/Wizofgoz/Cryptographer/Engines/OpenSslEngine.php:99-117 | every failure is a DecryptException |
| OpenSslEngine.EncryptWireFormat | src/Wizofgoz/Cryptographer/Engines/OpenSslEngine.php:43-71 | the payload is base64 JSON with iv = base64(IV), value = the CBC ciphertext, and mac = the lower-case hex text of the HMAC over base64(IV) + value |
| OpenSslEngine.RoundTripString | src/Wizofgoz/Cryptographer/Engines/OpenSslEngine.php:83-132 | decryptString recovers any string that encryptString encrypted, whatever blinding bytes are drawn |
| OpenSslEngine.RoundTrip | src/Wizofgoz/Cryptographer/Engines/OpenSslEngine.php:43-117 | decrypt with unserialize recovers any value that encrypt with serialize encrypted |
| OpenSslEngine.ShapeCheckedFirst | src/Wizofgoz/Cryptographer/Engines/OpenSslEngine.php:157-166 | a malformed payload is refused as invalid whatever HMAC and cipher are plugged in, so neither is consulted |
| OpenSslEngine.MacCheckedBeforeCipher | src/Wizofgoz/Cryptographer/Engines/OpenSslEngine.php:99-117 | a well-formed payload with a wrong MAC is refused as "The MAC is invalid" whatever cipher is plugged in, so nothing is decrypted |
| OpenSslEngine.PlaintextOnlyWhenAuthentic | src/Wizofgoz/Cryptographer/Engines/OpenSslEngine.php:99-117 | any plaintext returned came from a well-formed payload whose MAC equals the recomputed hash, and is the CBC decryption of its value |
| OpenSslEngine.DifferentKeyFailsMac | src/Wizofgoz/Cryptographer/Engines/OpenSslEngine.php:197-204 | a payload made under one key is refused as "The MAC is invalid" under another key |
| SodiumEngine.NonceLength | src/Wizofgoz/Cryptographer/Engines/SodiumEngine.php:87-107 | 24 bytes for XChaCha20-Poly1305-IETF, 8 for ChaCha20-Poly1305, 12 for AES-256-GCM and ChaCha20-Poly1305-IETF; positive exactly for a known cipher |
| SodiumEngine.Algorithm | src/Wizofgoz/Cryptographer/Engines/SodiumEngine.php:118-138 | a construction is chosen exactly for the four known ciphers |
| SodiumEngine.AlgorithmInjective | src/Wizofgoz/Cryptographer/Engines/SodiumEngine.php:184-205 | different ciphers never select the same construction |
| SodiumEngine.Supported | src/Wizofgoz/Cryptographer/Engines/SodiumEngine.php:34-41 | AES-256-GCM is refused without hardware support; every other case is the base key-length check |
| SodiumEngine.New | src/Wizofgoz/Cryptographer/Engines/SodiumEngine.php:34-41 | construction succeeds exactly for a supported key and cipher, keeps both, and otherwise throws the "only supported ciphers" RuntimeException |
| SodiumEngine.AcceptedPairs | src/Wizofgoz/Cryptographer/Engines/SodiumEngine.php:34-41 | accepted exactly when the cipher (default XChaCha20) is known, the key is 32 bytes, and AES-256-GCM is used only when the hardware offers it |
| SodiumEngine.GetKey | src/Wizofgoz/Cryptographer/Engines/Engine.php:169-172 | returns the key the engine was constructed with, which is 32 bytes, and its cipher is known |
| SodiumEngine.GenerateKey | src/Wizofgoz/Cryptographer/Engines/Engine.php:134-143 | succeeds exactly for a known cipher, with a 32-byte key |
| SodiumEngine.GeneratedKeyAccepted | src/Wizofgoz/Cryptographer/Engines/SodiumEngine.php:34-41 | a generated key is accepted by the constructor unless the cipher is AES-256-GCM without hardware support |
| SodiumEngine.ExtractNonce | src/Wizofgoz/Cryptographer/Engines/SodiumEngine.php:214-217 | the nonce is the payload's first nonce-length bytes, or the whole payload when it is shorter; it has full length exactly when the payload is long enough |
| SodiumEngine.ExtractCipherText | src/Wizofgoz/Cryptographer/Engines/SodiumEngine.php:226-229 | the ciphertext is everything after the nonce, empty for a payload no longer than a nonce |
| SodiumEngine.SplitFrame | src/Wizofgoz/Cryptographer/Engines/SodiumEngine.php:214-229 | splitting nonce followed by sealed text gives back the nonce and the sealed text |
| SodiumEngine.SplitJoin | src/Wizofgoz/Cryptographer/Engines/SodiumEngine.php:214-229 | for every payload, nonce and ciphertext concatenate back to the payload |
| SodiumEngine.DoEncrypt | src/Wizofgoz/Cryptographer/Engines/SodiumEngine.php:118-138 | yields a result exactly for a known cipher: the nonce followed by the AEAD seal of the message under the key and nonce, with the nonce as associated data |
| SodiumEngine.DoDecrypt | src/Wizofgoz/Cryptographer/Engines/SodiumEngine.php:184-205 | fails with the wrong-nonce-size SodiumException exactly for a known cipher and a payload shorter than a nonce; an unknown cipher yields false |
| SodiumEngine.Seal | src/Wizofgoz/Cryptographer/Engines/SodiumEngine.php:54-65 | succeeds exactly for a known cipher, with the lower-case hex of the nonce followed by the seal of the message with the nonce as associated data; otherwise throws the given EncryptException |
| SodiumEngine.Open | src/Wizofgoz/Cryptographer/Engines/SodiumEngine.php:150-161 | the only failures are invalid hex, a wrong nonce size, and the given DecryptException |
| SodiumEngine.SealOpen | src/Wizofgoz/Cryptographer/Engines/SodiumEngine.php:54-161 | opening a sealed message recovers it, for a sound AEAD |
| SodiumEngine.OpenAuthenticated | src/Wizofgoz/Cryptographer/Engines/SodiumEngine.php:184-205 | a plaintext is returned only when the AEAD opens the ciphertext under the prefixed nonce, which is also the associated data |
| SodiumEngine.OpenErrors | src/Wizofgoz/Cryptographer/Engines/SodiumEngine.php:150-205 | invalid hex, too short a payload, and AEAD rejection each produce their own error, and only they do |
| SodiumEngine.DistinctNonces | src/Wizofgoz/Cryptographer/Engines/SodiumEngine.php:118-138 | encryptions under different nonces never give the same payload |
| SodiumEngine.PayloadLength | src/Wizofgoz/Cryptographer/Engines/SodiumEngine.php:54-65 | the payload is twice as long as nonce plus sealed text |
| SodiumEngine.GenerateNonce | src/Wizofgoz/Cryptographer/Engines/Engine.php:159-162 | the nonce drawn has the cipher's positive nonce length |
| SodiumEngine.EncryptString | src/Wizofgoz/Cryptographer/Engines/SodiumEngine.php:77-80 | always succeeds for a constructed engine, with hex(nonce ++ seal(cipher, key, nonce, associated data = nonce, message)) |
| SodiumEngine.Encrypt | src/Wizofgoz/Cryptographer/Engines/SodiumEngine.php:54-65 | always succeeds for a constructed engine, with hex(nonce ++ seal(cipher, key, nonce, associated data = nonce, serialized value)) |
| SodiumEngine.DecryptString | src/Wizofgoz/Cryptographer/Engines/SodiumEngine.php:172-175 | the only failures are invalid hex, a wrong nonce size and "Could not decrypt the data" |
| SodiumEngine.Decrypt | src/Wizofgoz/Cryptographer/Engines/SodiumEngine.php:150-161 | the only failures are invalid hex, a wrong nonce size and "Could not decrypt the data" |
| SodiumEngine.RoundTripString | src/Wizofgoz/Cryptographer/Engines/SodiumEngine.php:77-80 | decryptString recovers what encryptString encrypted |
| SodiumEngine.RoundTrip | src/Wizofgoz/Cryptographer/Engines/SodiumEngine.php:54-65 | decrypt with unserialize recovers any value that encrypt with serialize encrypted |
| SodiumEngine.DifferentKeyRejected | src/Wizofgoz/Cryptographer/Engines/SodiumEngine.php:184-205 | a payload sealed under one key fails to decrypt under another, for an AEAD that rejects other keys |
| SodiumSchema.AvailableIsKnown | src/Wizofgoz/Cryptographer/Schema/SodiumSchema.php:17-22 | the schema's available ciphers are exactly the engine's known ciphers |
| SodiumSchema.GetKeyLength | src/Wizofgoz/Cryptographer/Schema/SodiumSchema.php:92-108 | 32 exactly for a known cipher, -1 exactly for any other |
| SodiumSchema.Supported | src/Wizofgoz/Cryptographer/Schema/SodiumSchema.php:70-83 | the cipher is one of the available ones, AES-256-GCM has hardware support, and the key has the cipher's key length |
| SodiumSchema.SupportedAgreesWithEngine | src/Wizofgoz/Cryptographer/Schema/SodiumSchema.php:70-83 | the schema's supported check accepts exactly what the engine's does |
| SodiumSchema.New | src/Wizofgoz/Cryptographer/Schema/SodiumSchema.php:48-60 | construction succeeds exactly for a supported key and cipher (default XChaCha20), keeps both, and otherwise throws the schema's RuntimeException |
| SodiumSchema.GetKey | src/Wizofgoz/Cryptographer/Schema/SodiumSchema.php:329-332 | returns the key the schema was constructed with, whose length is the cipher's key length |
| SodiumSchema.GenerateKey | src/Wizofgoz/Cryptographer/Schema/SodiumSchema.php:119-122 | a key of the cipher's length for a known cipher; otherwise random_bytes(-1) fails with its ValueError |
| SodiumSchema.GeneratedKeyAccepted | src/Wizofgoz/Cryptographer/Schema/SodiumSchema.php:70-83 | a generated key is accepted unless the cipher is AES-256-GCM without hardware support |
| SodiumSchema.GenerateNonce | src/Wizofgoz/Cryptographer/Schema/SodiumSchema.php:197-200 | the nonce has the cipher's positive nonce length |
| SodiumSchema.EncryptString | src/Wizofgoz/Cryptographer/Schema/SodiumSchema.php:158-161 | always succeeds for a constructed schema, with hex(nonce ++ seal(cipher, key, nonce, associated data = nonce, message)) |
| SodiumSchema.Encrypt | src/Wizofgoz/Cryptographer/Schema/SodiumSchema.php:135-146 | always succeeds for a constructed schema, with hex(nonce ++ seal(cipher, key, nonce, associated data = nonce, serialized value)) |
| SodiumSchema.DecryptString | src/Wizofgoz/Cryptographer/Schema/SodiumSchema.php:265-268 | the only failures are invalid hex, a wrong nonce size and "Could not decrypt the data." |
| SodiumSchema.Decrypt | src/Wizofgoz/Cryptographer/Schema/SodiumSchema.php:243-254 | the only failures are invalid hex, a wrong nonce size and "Could not decrypt the data." |
| SodiumSchema.RoundTrip | src/Wizofgoz/Cryptographer/Schema/SodiumSchema.php:135-254 | decrypt recovers any value the schema encrypted |
| SodiumSchema.InteroperatesWithEngine | src/Wizofgoz/Cryptographer/Schema/SodiumSchema.php:211-298 | the schema produces the engine's payload for the same key, cipher and nonce, and the engine decrypts it |
| Kms.DecryptRequestFor | src/Wizofgoz/Cryptographer/KeyDrivers/AwsKeyDriver.php:180-193 | the request carries the wrapped key as blob, and the encryption context exactly when the options set one |
| LocalKeyDriver.New | src/Wizofgoz/Cryptographer/KeyDrivers/LocalKeyDriver.php:11-14 | the driver returns the key it was built with |
| LocalKeyDriver.GetKey | src/Wizofgoz/Cryptographer/KeyDrivers/LocalKeyDriver.php:28-31 | the key held by the driver |
| LocalKeyDriver.OptionsIgnored | src/Wizofgoz/Cryptographer/KeyDrivers/LocalKeyDriver.php:11-14 | the options do not affect the driver |
| LocalKeyDriver.GenerateKey | src/Wizofgoz/Cryptographer/KeyDrivers/LocalKeyDriver.php:23-26 | succeeds exactly for a length of at least 1, with a key of that length; a smaller length gives random_bytes' ValueError |
| LocalKeyDriver.ClearMemory | src/Wizofgoz/Cryptographer/KeyDrivers/LocalKeyDriver.php:39-41 | clearing memory leaves the key unchanged |
| LocalKeyDriver.IsKeyRotatable | tests/Unit/LocalKeyDriverTest.php:20-25 | a local key is never rotatable |
| LocalKeyDriver.ReEncrypt | tests/Unit/LocalKeyDriverTest.php:27-33 | re-encryption returns the key itself |
| LocalKeyDriver.KeyStable | src/Wizofgoz/Cryptographer/KeyDrivers/LocalKeyDriver.php:28-41 | after any number of clearMemory calls, getKey and reEncrypt still return the constructor's key |
| AwsKeyDriver.ResolveRegion | src/Wizofgoz/Cryptographer/KeyDrivers/AwsKeyDriver.php:44-60 | the region option is used when set; otherwise there is none |
| AwsKeyDriver.HasMasterKey | src/Wizofgoz/Cryptographer/KeyDrivers/AwsKeyDriver.php:31 | the master-key option is set and is not the empty string |
| AwsKeyDriver.ArnGivesNoRegion | src/Wizofgoz/Cryptographer/KeyDrivers/AwsKeyDriver.php:51-58 | an ARN master key without a region option still yields no region |
| AwsKeyDriver.ClientConfigFor | src/Wizofgoz/Cryptographer/KeyDrivers/AwsKeyDriver.php:35-39 | the client gets the resolved region and the profile option, defaulting to "default" |
| AwsKeyDriver.IsPast | src/Wizofgoz/Cryptographer/KeyDrivers/AwsKeyDriver.php:84-91 | a date strictly before now; a missing date is not past |
| AwsKeyDriver.Deleted | src/Wizofgoz/Cryptographer/KeyDrivers/AwsKeyDriver.php:82-86 | the key is pending deletion and has a deletion date that is past |
| AwsKeyDriver.MaterialExpired | src/Wizofgoz/Cryptographer/KeyDrivers/AwsKeyDriver.php:89-92 | the key material is external, expires, and its ValidTo date is past |
| AwsKeyDriver.IsKeyViable | src/Wizofgoz/Cryptographer/KeyDrivers/AwsKeyDriver.php:77-104 | viable exactly when the key is not deleted, its material has not expired, and it is neither disabled nor unavailable; otherwise one of the four RuntimeExceptions |
| AwsKeyDriver.ViabilityCheckOrder | src/Wizofgoz/Cryptographer/KeyDrivers/AwsKeyDriver.php:77-104 | deletion is reported first, then expired material, then the disabled and unavailable states |
| AwsKeyDriver.ViableStates | src/Wizofgoz/Cryptographer/KeyDrivers/AwsKeyDriver.php:20-24 | an enabled or pending-import key with live material is viable |
| AwsKeyDriver.ConstructionCheck | src/Wizofgoz/Cryptographer/KeyDrivers/AwsKeyDriver.php:26-42 | construction succeeds exactly with a non-empty master key and a viable described key, and yields the client configuration |
| AwsKeyDriver.MasterKeyCheckedFirst | tests/Unit/AwsKeyDriverTest.php:62-66 | without a master key construction fails with the same RuntimeException whatever KMS answers, so KMS is not consulted |
| AwsKeyDriver.DataKeyRequestFor | src/Wizofgoz/Cryptographer/KeyDrivers/AwsKeyDriver.php:117-136 | the request asks for the given byte count under the master key, with the context option or an empty one |
| AwsKeyDriver.GenerateKey | src/Wizofgoz/Cryptographer/KeyDrivers/AwsKeyDriver.php:117-136 | fails with the driver's own InvalidArgumentException for an empty master key and with the SDK's missing-KeyId error for an absent one; otherwise returns the wrapped data key KMS generates for the request |
| AwsKeyDriver.ReEncryptRequestFor | src/Wizofgoz/Cryptographer/KeyDrivers/AwsKeyDriver.php:151-159 | the request re-wraps the driver's key under the non-empty master key |
| AwsKeyDriver.AwsKeyDriver.constructor | src/Wizofgoz/Cryptographer/KeyDrivers/AwsKeyDriver.php:26-42 | a new driver keeps key and options, holds no plaintext and has made no KMS call |
| AwsKeyDriver.AwsKeyDriver.New | src/Wizofgoz/Cryptographer/KeyDrivers/AwsKeyDriver.php:26-42 | builds a fresh valid driver exactly when the construction checks pass, and otherwise reports their error |
| AwsKeyDriver.AwsKeyDriver.GetKey | src/Wizofgoz/Cryptographer/KeyDrivers/AwsKeyDriver.php:166-173 | returns the cached plaintext when present; otherwise makes one KMS decrypt and caches its result |
| AwsKeyDriver.AwsKeyDriver.DecryptKey | src/Wizofgoz/Cryptographer/KeyDrivers/AwsKeyDriver.php:180-193 | the plaintext is what KMS decrypts for the wrapped key and context |
| AwsKeyDriver.AwsKeyDriver.IsKeyRotatable | src/Wizofgoz/Cryptographer/KeyDrivers/AwsKeyDriver.php:141-144 | a KMS key is always rotatable |
| AwsKeyDriver.AwsKeyDriver.ReEncrypt | src/Wizofgoz/Cryptographer/KeyDrivers/AwsKeyDriver.php:151-159 | returns the blob KMS re-encrypts for the driver's key and master key |
| AwsKeyDriver.AwsKeyDriver.ClearMemory | src/Wizofgoz/Cryptographer/KeyDrivers/AwsKeyDriver.php:202-211 | the cache is emptied; with sodium loaded and nothing cached, sodium_memzero fails on null |
| AwsKeyDriver.GetKeyDecryptsOnce | src/Wizofgoz/Cryptographer/KeyDrivers/AwsKeyDriver.php:166-173 | two getKey calls return the same key with at most one KMS decrypt, and none when a key was cached |
| AwsKeyDriver.ClearThenGetKey | src/Wizofgoz/Cryptographer/KeyDrivers/AwsKeyDriver.php:166-211 | after clearMemory, getKey decrypts again and returns what KMS decrypts |
| AwsKeyDriver.RotationKeepsPlaintext | tests/Unit/AwsKeyDriverTest.php:75-82 | a driver built on the re-encrypted blob unwraps the same data key, for no or an empty encryption context |
| LegacyAwsKeyDriver.ClientConfigFor | src/Wizofgoz/Cryptographer/KeyDrivers/awsKeyDriver.php:16-25 | the client uses the "default" profile and the region option |
| LegacyAwsKeyDriver.GenerateKey | src/Wizofgoz/Cryptographer/KeyDrivers/awsKeyDriver.php:34-37 | succeeds exactly for a length of at least 1, with a key of that length; a smaller length gives random_bytes' ValueError |
| LegacyAwsKeyDriver.LegacyAwsKeyDriver.constructor | src/Wizofgoz/Cryptographer/KeyDrivers/awsKeyDriver.php:16-25 | keeps key and options, builds its client, and holds no plaintext |
| LegacyAwsKeyDriver.LegacyAwsKeyDriver.GetKey | src/Wizofgoz/Cryptographer/KeyDrivers/awsKeyDriver.php:42-49 | returns the cached plaintext when present; otherwise makes one KMS decrypt and caches its result |
| LegacyAwsKeyDriver.LegacyAwsKeyDriver.DecryptKey | src/Wizofgoz/Cryptographer/KeyDrivers/awsKeyDriver.php:54-67 | the plaintext is what KMS decrypts for the wrapped key and context |
| LegacyAwsKeyDriver.LegacyAwsKeyDriver.ClearMemory | src/Wizofgoz/Cryptographer/KeyDrivers/awsKeyDriver.php:76-80 | the cache is emptied |
| LegacyAwsKeyDriver.GetKeyDecryptsOnce | src/Wizofgoz/Cryptographer/KeyDrivers/awsKeyDriver.php:42-49 | two getKey calls return the same key with at most one KMS decrypt |
| LegacyAwsKeyDriver.ClearThenGetKey | src/Wizofgoz/Cryptographer/KeyDrivers/awsKeyDriver.php:42-80 | after clearMemory, getKey decrypts again and returns what KMS decrypts |
| ManagerConfig.ResolveName | src/Wizofgoz/Cryptographer/EncryptionManager.php:66 | a null, empty or "0" name falls back to the default; any other name is kept |
| ManagerConfig.ResolveNameIdempotent | src/Wizofgoz/Cryptographer/KeyManager.php:90 | resolving a resolved name changes nothing |
| ManagerConfig.Resolve | src/Wizofgoz/Cryptographer/EncryptionManager.php:66 | a truthy name is kept without computing the default; a falsy one yields the default, or the error computing it throws |
| ManagerConfig.ResolveAgrees | src/Wizofgoz/Cryptographer/EncryptionManager.php:66-96 | with the default at hand, driver()'s resolution and configuration()'s agree |
| ManagerConfig.Falsy | src/Wizofgoz/Cryptographer/EncryptionManager.php:66 | PHP falsiness of a driver name: null, the empty string or "0" |
| ManagerConfig.DecodeKey | src/Wizofgoz/Cryptographer/EncryptionManager.php:110-112 | a "base64:" key is base64-decoded after the prefix; any other key is kept as is |
| ManagerConfig.EmptyKey | src/Wizofgoz/Cryptographer/EncryptionManager.php:115-116 | PHP empty() on the key: null, the empty string or "0" |
| ManagerConfig.Configuration | src/Wizofgoz/Cryptographer/EncryptionManager.php:94-123 | an unknown name is "not configured"; an empty key after decoding is refused; otherwise the entry with its decoded key |
| ManagerConfig.Configure | src/Wizofgoz/Cryptographer/EncryptionManager.php:64-67 | driver() before its cache: the default's error when resolving needs it, otherwise configuration of the resolved name; a truthy name goes straight to configuration |
| ManagerConfig.ExplicitNameSkipsDefault | src/Wizofgoz/Cryptographer/KeyManager.php:88-91 | for a truthy name the outcome does not depend on the default, so a missing key or driver list cannot break it |
| ManagerConfig.ConfigurationResult | src/Wizofgoz/Cryptographer/KeyManager.php:118-147 | a successful configuration is the named entry's engine and cipher with a non-empty key |
| ManagerConfig.Base64KeyRoundTrip | src/Wizofgoz/Cryptographer/Console/KeyGenerateCommand.php:107-109 | a key written as "base64:" + base64(k) is configured as k itself, or refused when k is empty |
| ManagerConfig.UndecodableKeyRefused | src/Wizofgoz/Cryptographer/KeyManager.php:134-144 | a "base64:" key that does not decode is refused as missing |
| ManagerConfig.DefaultDriver | src/Wizofgoz/Cryptographer/EncryptionManager.php:336-341 | array_keys of an absent cryptographer.drivers throws a TypeError, even when a default is set; otherwise the configured default driver, else the first configured driver, present exactly when any is configured |
| ManagerConfig.DefaultKey | src/Wizofgoz/Cryptographer/KeyManager.php:221-225 | the configured default key when set; otherwise a TypeError when cryptographer.keys is absent, else its first name, present exactly when there is one |
| ManagerConfig.StudlyKey | src/Wizofgoz/Cryptographer/EncryptionManager.php:147-149 | the method-lookup key has no separators or upper-case letters and is no longer than the name |
| ManagerConfig.StudlyKeyAppend | src/Wizofgoz/Cryptographer/KeyManager.php:168-170 | the lookup key of a concatenation is the concatenation of the lookup keys |
| ManagerConfig.StudlyKeyNoSeparators | src/Wizofgoz/Cryptographer/EncryptionManager.php:147-149 | a name without separators looks up its lower-cased letters |
| ManagerConfig.SeparatorIgnored | src/Wizofgoz/Cryptographer/KeyManager.php:168-170 | inserting '-', '_' or ' ' anywhere does not change the method found |
| KeyManager.CreateDriver | src/Wizofgoz/Cryptographer/KeyManager.php:158-176 | a custom creator is called when registered; otherwise the engine is not supported, or recursion never ends for a name whose studly form is empty |
| KeyManager.OnlyCustomCreatorsBuild | src/Wizofgoz/Cryptographer/KeyManager.php:158-176 | every driver built comes from a registered custom creator |
| KeyManager.KeyManager.constructor | src/Wizofgoz/Cryptographer/KeyManager.php:47-50 | starts with no custom creators and no cached drivers |
| KeyManager.KeyManager.Extend | src/Wizofgoz/Cryptographer/KeyManager.php:199-204 | registers the creator under the name, returns the manager, and leaves the cache alone |
| KeyManager.KeyManager.Driver | src/Wizofgoz/Cryptographer/KeyManager.php:88-107 | an error computing the default name or a configuration error is returned; a cached driver is returned unchanged; otherwise one is created and cached on success |
| KeyManager.DriverTwice | src/Wizofgoz/Cryptographer/KeyManager.php:88-107 | asking twice for the same name gives the same driver, builds at most once, and keeps every cached driver |
| KeyManager.GenerateKeyFor | src/Wizofgoz/Cryptographer/KeyManager.php:63-77 | an unregistered driver and an undefined class each have their own error; the local classes succeed exactly for a length of at least 1, with a key of that length, and give random_bytes' ValueError otherwise; the KMS driver, given no master key, is always refused |
| KeyManager.KeyDriverRegistry.constructor | src/Wizofgoz/Cryptographer/KeyManager.php:58-61 | the registry starts empty |
| KeyManager.KeyDriverRegistry.RegisterDriver | src/Wizofgoz/Cryptographer/KeyManager.php:58-61 | the driver name now maps to the class, replacing any earlier one |
| KeyManager.KeyDriverRegistry.GenerateKey | src/Wizofgoz/Cryptographer/KeyManager.php:63-77 | generates by the current registry |
| KeyManager.RegisterThenGenerate | src/Wizofgoz/Cryptographer/KeyManager.php:58-77 | generation fails before a local driver is registered; after, it succeeds exactly for a length of at least 1, with a key of that length, and gives random_bytes' ValueError otherwise |
| EncryptionManager.InstanceKey | src/Wizofgoz/Cryptographer/EncryptionManager.php:326-329 | the key the engine was constructed with, 16 or 32 bytes long |
| EncryptionManager.InstanceEncryptString | src/Wizofgoz/Cryptographer/EncryptionManager.php:262-265 | only the OpenSSL engine can fail to encrypt, with its EncryptException |
| EncryptionManager.InstanceDecryptString | src/Wizofgoz/Cryptographer/EncryptionManager.php:291-294 | every failure is a DecryptException or a SodiumException |
| EncryptionManager.InstanceEncrypt | src/Wizofgoz/Cryptographer/EncryptionManager.php:248-251 | only the OpenSSL engine can fail to encrypt |
| EncryptionManager.InstanceDecrypt | src/Wizofgoz/Cryptographer/EncryptionManager.php:277-280 | every failure is a DecryptException or a SodiumException |
| EncryptionManager.InstanceRoundTrip | src/Wizofgoz/Cryptographer/EncryptionManager.php:262-294 | either engine's decryptString recovers what its encryptString encrypted |
| EncryptionManager.InstanceRoundTripValue | src/Wizofgoz/Cryptographer/EncryptionManager.php:248-280 | either engine's decrypt recovers any value its encrypt encrypted |
| EncryptionManager.CreateOpenSslEngine | src/Wizofgoz/Cryptographer/EncryptionManager.php:179-182 | builds the OpenSSL engine with the key and configured cipher exactly when that engine accepts them |
| EncryptionManager.CreateSodiumEngine | src/Wizofgoz/Cryptographer/EncryptionManager.php:192-199 | fails with a RuntimeException without the sodium extension; otherwise builds the sodium engine exactly when it accepts key and cipher |
| EncryptionManager.BuiltInRoute | src/Wizofgoz/Cryptographer/EncryptionManager.php:147-149 | a name routes to createOpenSslEngine or createSodiumEngine exactly when its lookup key is "openssl" or "sodium" |
| EncryptionManager.RouteIgnoresSpelling | src/Wizofgoz/Cryptographer/EncryptionManager.php:147-149 | names with the same lookup key route alike |
| EncryptionManager.OpenSslRouted | config/cryptographer.php:29-37 | the configured engine name "openssl" selects the OpenSSL engine |
| EncryptionManager.MixedCaseRouted | src/Wizofgoz/Cryptographer/EncryptionManager.php:147-149 | "OpenSSL" selects the OpenSSL engine too |
| EncryptionManager.SeparatedRouted | src/Wizofgoz/Cryptographer/EncryptionManager.php:147-149 | "open_ssl" selects the OpenSSL engine too |
| EncryptionManager.SodiumRouted | config/cryptographer.php:29-37 | the engine name "sodium" selects the sodium engine |
| EncryptionManager.CreateEngine | src/Wizofgoz/Cryptographer/EncryptionManager.php:134-155 | a failing key lookup ends createDriver with its error before any creator runs; otherwise a custom creator wins, then the built-in route decides, and an unknown name is "not supported" |
| EncryptionManager.BuiltInEngineMatchesConfig | src/Wizofgoz/Cryptographer/EncryptionManager.php:134-199 | a built-in engine is built only after the key lookup succeeded, and carries the looked-up key and the configured cipher or its default |
| EncryptionManager.EncryptionManager.constructor | src/Wizofgoz/Cryptographer/EncryptionManager.php:50-53 | starts with no custom creators and no cached engines |
| EncryptionManager.EncryptionManager.Extend | src/Wizofgoz/Cryptographer/EncryptionManager.php:304-309 | registers the creator under the name, returns the manager, and leaves the cache alone |
| EncryptionManager.EncryptionManager.Driver | src/Wizofgoz/Cryptographer/EncryptionManager.php:64-83 | returns what driver() yields in the old state (the configuration error, the cached engine, or a newly created one, cached on success); creators are unchanged, old entries are kept and only the resolved name can be added |
| EncryptionManager.EncryptionManager.EncryptString | src/Wizofgoz/Cryptographer/EncryptionManager.php:262-265 | the default engine's encryptString; creators are unchanged, old cache entries are kept and at most the default name is added; a driver() error is returned as is |
| EncryptionManager.EncryptionManager.DecryptString | src/Wizofgoz/Cryptographer/EncryptionManager.php:291-294 | the default engine's decryptString; creators are unchanged, old cache entries are kept and at most the default name is added; a driver() error is returned as is |
| EncryptionManager.EncryptionManager.Encrypt | src/Wizofgoz/Cryptographer/EncryptionManager.php:248-251 | the default engine's encrypt; creators are unchanged, old cache entries are kept and at most the default name is added; a driver() error is returned as is |
| EncryptionManager.EncryptionManager.Decrypt | src/Wizofgoz/Cryptographer/EncryptionManager.php:277-280 | the default engine's decrypt; creators are unchanged, old cache entries are kept and at most the default name is added; a driver() error is returned as is |
| EncryptionManager.EncryptionManager.GetKey | src/Wizofgoz/Cryptographer/EncryptionManager.php:326-329 | the default engine's key; creators are unchanged, old cache entries are kept and at most the default name is added; a driver() error is returned as is |
| EncryptionManager.ManagerRoundTrip | src/Wizofgoz/Cryptographer/EncryptionManager.php:262-294 | for managers whose engines are the built-in ones: when the manager encrypts a string, decrypting the payload through the manager gives it back |
| EncryptionManager.KeyLength | src/Wizofgoz/Cryptographer/EncryptionManager.php:222-236 | the key length the engine class lists for the resolved cipher, present exactly when the cipher is in its table |
| EncryptionManager.GenerateKeyFor | src/Wizofgoz/Cryptographer/EncryptionManager.php:222-236 | an unregistered engine and an undefined class each have their own error; a cipher outside the engine's key-length table gives its "not a supported cipher" error; otherwise the key driver generates a key of the engine's length |
| EncryptionManager.GenerateKeyIgnoresOptions | src/Wizofgoz/Cryptographer/EncryptionManager.php:222-236 | the additional options never change the key generated |
| EncryptionManager.GeneratedKeyFitsEngine | src/Wizofgoz/Cryptographer/EncryptionManager.php:222-236 | a key generated locally for a built-in engine is accepted by that engine for the same cipher, barring AES-256-GCM without hardware |
| EncryptionManager.EngineRegistry.constructor | src/Wizofgoz/Cryptographer/EncryptionManager.php:207-210 | the registry starts empty |
| EncryptionManager.EngineRegistry.RegisterEngine | src/Wizofgoz/Cryptographer/EncryptionManager.php:207-210 | the engine name now maps to the class, replacing any earlier one |
| EncryptionManager.EngineRegistry.GenerateKey | src/Wizofgoz/Cryptographer/EncryptionManager.php:222-236 | generates by the current engine and key-driver registries |

## Left out

- I/O and the framework. Not modelled: the console commands, the service provider, the facade, the helper functions, Laravel's container, the `__call` forwarding of both managers, and `getDrivers`.
- OpenSSL, HMAC-SHA256, the sodium AEAD constructions, base64, JSON and PHP serialization are foreign. They are parameters, and their behaviour is assumed only through the named predicates.
- The exact texts of exceptions thrown inside foreign functions are not modelled; a SodiumException carries a short reason instead. The sodium hex and nonce-size failures are SodiumExceptions, not DecryptExceptions, because the engines do not catch them.
- KMS network faults and `KmsException` are not modelled. Nor is the TTL of `Cache::remember` for key metadata: the metadata is a function of the key, and the cache is invisible.
- Carbon date parsing is not modelled: dates are integers, and "is past" means earlier than `now`.
- AwsKeyDriver.IsKeyViable: the model reads the DescribeKey metadata as the code indexes it, with `KeyState`, `DeletionDate`, `Origin`, `ExpirationModel` and `ValidTo` at the top level of the result. The KMS DescribeKey response nests these fields under `KeyMetadata`, so against the real SDK each field reads as null and none of the four checks can fail. The model states the checks the code evidently intends, not that vacuous behaviour.
- AwsKeyDriver.IsPast: a missing date is treated as not past. Carbon would parse it as the current instant, which is past by the time it is compared; so the model lets an external key with expiring material but no `ValidTo` pass, where the source would report it rotated.
- `Arr::get` dot-notation is not modelled; option and configuration keys are plain names.
- EncryptionManager.CreateEngine: the engine key is modelled as `keyLookup`, a function from the configured key to key bytes or an error; `CreateEngine` returns that error before any creator runs. As written, `$keyManager->key($config['key'])` (`EncryptionManager.php:139`) goes through `KeyManager::__call` (`KeyManager.php:235-238`): it first runs `KeyManager::driver()` for the default key, with all of its errors (among them the `TypeError` of `ManagerConfig.DefaultKey` under the shipped configuration), and then calls `key()` on the driver, which no key driver in this repository defines. Even a `key()` would hand the engine an object that `Engine.php:39` casts with `(string)`. So with this repository's classes `createDriver` always throws at that line, which is the `keyLookup` that always fails. The Ok outcomes of `EncryptionManager.EncryptionManager.Driver`, its five forwarders, `EncryptionManager.BuiltInEngineMatchesConfig` and `EncryptionManager.ManagerRoundTrip` describe the manager the package's tests expect (a lookup that succeeds with the key bytes), not anything the code as written reaches.
- `getKeyLength`, which `EncryptionManager::generateKey` calls, is not defined on the engine classes. It is modelled as the lookup in `KEY_LENGTHS` of the resolved cipher.
- EncryptionManager.GenerateKeyFor: the additional options are accepted and dropped, as written. `KeyManager::generateKey` passes no options either, so an AWS key driver gets no master key and is always refused.
- AwsKeyDriver.ResolveRegion: the ARN branch passes the `explode` arguments in the wrong order and writes the region into a local copy, so it never yields a region. The model keeps that behaviour.
- AwsKeyDriver.ReEncryptRequestFor: the re-encrypt request carries no source encryption context. So `RotationKeepsPlaintext` is stated only for drivers with no context or an empty one.
- LocalKeyDriver.IsKeyRotatable and LocalKeyDriver.ReEncrypt: the class does not define them, although the `KeyDriver` interface demands them. They are modelled as the interface and the unit tests describe them.
- KeyManager.CreateDriver: an engine name whose studly form is empty makes `createDriver` call itself without end. This is modelled as a `Fatal` error, not as divergence.
- The shipped configuration file names its default `'default'`, while the code reads `default-driver`, `default-key` and `cryptographer.keys`. The model follows the code: with the shipped file, `KeyManager`'s default lookup reads an absent `cryptographer.keys` and meets the `TypeError` of `ManagerConfig.DefaultKey`.
- The legacy `awsKeyDriver` class name differs only in case from `AwsKeyDriver`, so PHP cannot load both. Both are modelled as separate modules.
- LocalKeyDriver: the class cannot be loaded. It implements `KeyDriver` (`Contracts/KeyDriver.php:9-15`) but defines neither `reEncrypt` nor `isKeyRotatable`, and its `generateKey($length)` drops the interface's `$additionalOptions` parameter; each is a fatal error when the class is declared. The model follows the interface and the class's unit test instead: it gives the driver working `GetKey`, `GenerateKey`, `ClearMemory`, `IsKeyRotatable` and `ReEncrypt`.
- LegacyAwsKeyDriver: the class cannot be loaded, for the same reasons: it implements `KeyDriver` without `reEncrypt` or `isKeyRotatable`, with a `generateKey($length)` that drops `$additionalOptions`. The model gives it the behaviour its own methods describe.
- SodiumSchema.New: an explicit null cipher is not modelled; `None` stands for the omitted argument and its default.
- OpenSslEngine.GetJsonPayload: JSON fields that are present but not strings are treated as missing.
- Concurrency, and the timing of the blinded MAC comparison, are not modelled.
- EncryptionManager.CreateEngine: a creator registered with `extend` is modelled as returning one of the two built-in engines. The source accepts a closure that returns any object, and such an engine's behaviour is not modelled.
- EncryptionManager.ManagerRoundTrip: the round trip is proved only for managers whose engines are the built-in ones, since a custom engine may do anything.
- The model follows PHP 8: `random_bytes` below 1 raises a `ValueError` and `array_keys(null)` a `TypeError`, whatever error handler is installed.
- PHP warnings and notices are treated as non-fatal, which is PHP's default; under Laravel's error handler they would become an `ErrorException`. This matters at two places. `$arnPieces[3]` in `KeyDrivers/AwsKeyDriver.php:58` reads a missing index and yields null. `reset(array_keys(...))` in `KeyManager.php:224` passes a value where a reference is expected, and still yields the first key.
- AwsKeyDriver.GenerateKey: an absent master key reaches the AWS SDK as a null KeyId. The model takes the SDK's input validation to refuse that request with an `InvalidArgumentException`; the SDK itself is not part of this model.
- The OpenSSL schema used by one unit test is not part of this model; `Schema/Schema.php` repeats `Engines/Engine.php` and is covered by the `BaseEngine` module.
