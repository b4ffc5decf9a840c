/**
 * The KMS-backed key driver (KeyDrivers/AwsKeyDriver.php). The stored key is a
 * data key wrapped by a KMS master key; the plaintext is fetched lazily with
 * Decrypt and cached in `plaintextKey` until clearMemory wipes it.
 */
module AwsKeyDriver {
  import opened Wrappers
  import opened Bytes
  import opened Kms

  const KEY_STATE_ENABLED: string := "Enabled"
  const KEY_STATE_DISABLED: string := "Disabled"
  const KEY_STATE_PENDING_IMPORT: string := "PendingImport"
  const KEY_STATE_PENDING_DELETION: string := "PendingDeletion"
  const KEY_STATE_UNAVAILABLE: string := "Unavailable"

  const MISSING_MASTER_KEY: string := "master key option is missing or empty"
  const DELETED: string := "master key has been deleted"
  const ROTATED: string := "master key has been rotated and local key needs to be updated"
  const DISABLED: string := "master key is disabled"
  const UNAVAILABLE: string := "master key is unavailable"
  const MASTER_KEY_REQUIRED: string := "option \"master-key\" is required for AWS KMS managed keys"
  const NOT_A_STRING: string := "a PHP string is required"
  /** The AWS SDK's input validation refuses a request whose KeyId is null. */
  const KEY_ID_MISSING: string := "[KeyId]" + " is missing and is a required parameter"

  /** The constructor's guard: the master-key option is set and not ''. */
  predicate HasMasterKey(options: KeyOptions) {
    options.masterKey.Some? && options.masterKey.value != ""
  }

  /**
   * resolveRegion as it behaves: the region option when set, and null
   * otherwise. Its ARN branch splits the string ':' on the master key (the
   * arguments of explode are swapped) and stores the piece in a local copy of
   * the options, so it contributes nothing.
   */
  function ResolveRegion(options: KeyOptions): (region: Option<string>)
    ensures options.region.Some? ==> region == options.region
    ensures options.region.None? ==> region.None?
  {
    options.region
  }

  /** An ARN master key without a region option yields no region at all. */
  lemma ArnGivesNoRegion(options: KeyOptions)
    requires options.region.None? && options.masterKey.Some?
    requires |options.masterKey.value| >= 3 && options.masterKey.value[..3] == "arn"
    ensures ResolveRegion(options).None?
  {
  }

  /** The KmsClient the constructor builds. */
  function ClientConfigFor(options: KeyOptions): (c: ClientConfig)
    ensures c.region == ResolveRegion(options)
    ensures c.profile == options.profile.GetOr("default")
  {
    ClientConfig(options.profile.GetOr("default"), ResolveRegion(options))
  }

  /** Carbon::parse($date)->isPast(): an instant before now; the model treats a missing date as not past. */
  predicate IsPast(date: Option<int>, now: int) {
    date.Some? && date.value < now
  }

  /** The master key is scheduled for deletion and the deletion date has passed. */
  predicate Deleted(meta: KeyMeta, now: int) {
    meta.keyState == KEY_STATE_PENDING_DELETION && meta.deletionDate.Some? && IsPast(meta.deletionDate, now)
  }

  /** Imported key material with an expiry that has passed. */
  predicate MaterialExpired(meta: KeyMeta, now: int) {
    meta.origin == "External" && meta.expirationModel == Some("KEY_MATERIAL_EXPIRES") && IsPast(meta.validTo, now)
  }

  /** isKeyViable on the described key: four checks, each throwing its own RuntimeException, in this order. */
  function IsKeyViable(meta: KeyMeta, now: int): (r: Result<bool, Error>)
    ensures r.Ok? ==> r.value
    ensures r.Ok? <==> !Deleted(meta, now) && !MaterialExpired(meta, now)
                        && meta.keyState != KEY_STATE_DISABLED && meta.keyState != KEY_STATE_UNAVAILABLE
    ensures r.Err? ==> r.error in {RuntimeError(DELETED), RuntimeError(ROTATED), RuntimeError(DISABLED), RuntimeError(UNAVAILABLE)}
  {
    if Deleted(meta, now) then Err(RuntimeError(DELETED))
    else if MaterialExpired(meta, now) then Err(RuntimeError(ROTATED))
    else if meta.keyState == KEY_STATE_DISABLED then Err(RuntimeError(DISABLED))
    else if meta.keyState == KEY_STATE_UNAVAILABLE then Err(RuntimeError(UNAVAILABLE))
    else Ok(true)
  }

  /** Which error wins when several checks fail: deletion, then expired material, then the two states. */
  lemma ViabilityCheckOrder(meta: KeyMeta, now: int)
    ensures Deleted(meta, now) ==> IsKeyViable(meta, now) == Err(RuntimeError(DELETED))
    ensures !Deleted(meta, now) && MaterialExpired(meta, now) ==> IsKeyViable(meta, now) == Err(RuntimeError(ROTATED))
    ensures !MaterialExpired(meta, now) && meta.keyState == KEY_STATE_DISABLED ==> IsKeyViable(meta, now) == Err(RuntimeError(DISABLED))
    ensures !MaterialExpired(meta, now) && meta.keyState == KEY_STATE_UNAVAILABLE ==> IsKeyViable(meta, now) == Err(RuntimeError(UNAVAILABLE))
  {
  }

  /** Enabled and PendingImport keys, and keys pending deletion with no past date, pass unless their imported material has expired. */
  lemma ViableStates(meta: KeyMeta, now: int)
    requires !MaterialExpired(meta, now)
    requires meta.keyState in {KEY_STATE_ENABLED, KEY_STATE_PENDING_IMPORT}
          || (meta.keyState == KEY_STATE_PENDING_DELETION && !IsPast(meta.deletionDate, now))
    ensures IsKeyViable(meta, now) == Ok(true)
  {
  }

  /** The constructor's checks before the object exists: the master-key guard first, then viability of the described key. */
  function ConstructionCheck(options: KeyOptions, kms: Client, now: int): (r: Result<ClientConfig, Error>)
    ensures r.Ok? <==> HasMasterKey(options) && IsKeyViable(kms.describeKey(options.masterKey.value), now).Ok?
    ensures !HasMasterKey(options) ==> r == Err(RuntimeError(MISSING_MASTER_KEY))
    ensures r.Ok? ==> r.value == ClientConfigFor(options)
  {
    if !HasMasterKey(options) then Err(RuntimeError(MISSING_MASTER_KEY))
    else
      match IsKeyViable(kms.describeKey(options.masterKey.value), now)
      case Err(e) => Err(e)
      case Ok(_) => Ok(ClientConfigFor(options))
  }

  /** A missing or empty master key is refused before KMS is asked anything: the outcome is the same for every KMS. */
  lemma MasterKeyCheckedFirst(options: KeyOptions, k1: Client, k2: Client, now: int)
    requires !HasMasterKey(options)
    ensures ConstructionCheck(options, k1, now) == ConstructionCheck(options, k2, now) == Err(RuntimeError(MISSING_MASTER_KEY))
  {
  }

  /** generateKey's request: context defaults to [], KeyId is the master-key option, NumberOfBytes the length. */
  function DataKeyRequestFor(length: int, options: KeyOptions): (r: DataKeyRequest)
    ensures r.numberOfBytes == length && r.keyId == options.masterKey
    ensures options.context.None? ==> r.encryptionContext == map[]
    ensures options.context.Some? ==> r.encryptionContext == options.context.value
  {
    DataKeyRequest(options.context.GetOr(map[]), options.masterKey, length)
  }

  /**
   * generateKey($length, $additionalOptions): a master key that is exactly ''
   * is refused by the method itself; an absent one reaches the client as a
   * null KeyId, which the SDK's validation refuses before any request is sent.
   */
  function GenerateKey(length: int, options: KeyOptions, kms: Client): (r: Result<Bytes, Error>)
    ensures r.Ok? <==> HasMasterKey(options)
    ensures options.masterKey == Some("") ==> r == Err(InvalidArgument(MASTER_KEY_REQUIRED))
    ensures options.masterKey.None? ==> r == Err(InvalidArgument(KEY_ID_MISSING))
    ensures r.Ok? ==> r.value == kms.generateDataKeyWithoutPlaintext(DataKeyRequestFor(length, options))
  {
    if options.masterKey == Some("") then Err(InvalidArgument(MASTER_KEY_REQUIRED))
    else if options.masterKey.None? then Err(InvalidArgument(KEY_ID_MISSING))
    else Ok(kms.generateDataKeyWithoutPlaintext(DataKeyRequestFor(length, options)))
  }

  /** reEncrypt's request: the stored blob, destined for the master key. */
  function ReEncryptRequestFor(key: Bytes, options: KeyOptions): (r: ReEncryptRequest)
    requires HasMasterKey(options)
    ensures r.ciphertextBlob == key && r.destinationKeyId == options.masterKey.value && r.destinationKeyId != ""
  {
    ReEncryptRequest(key, options.masterKey.value)
  }

  class AwsKeyDriver {
    /** The wrapped data key. */
    const key: Bytes
    const options: KeyOptions
    const client: ClientConfig
    /** The cached plaintext data key; None is PHP's unset or null. */
    var plaintextKey: Option<Bytes>
    /** How many Decrypt requests this driver has sent. */
    ghost var decryptCalls: nat

    /** The construction guard holds for every driver. */
    predicate Valid() {
      HasMasterKey(options) && client == ClientConfigFor(options)
    }

    /** Field initialisation once ConstructionCheck has passed. */
    constructor (key: Bytes, options: KeyOptions)
      requires HasMasterKey(options)
      ensures Valid()
      ensures this.key == key && this.options == options
      ensures plaintextKey.None? && decryptCalls == 0
    {
      this.key := key;
      this.options := options;
      this.client := ClientConfigFor(options);
      plaintextKey := None;
      decryptCalls := 0;
    }

    /** __construct($key, $options): the guard and the viability check, then a driver with nothing decrypted yet. */
    static method New(key: Bytes, options: KeyOptions, kms: Client, now: int) returns (r: Result<AwsKeyDriver, Error>)
      ensures r.Ok? <==> ConstructionCheck(options, kms, now).Ok?
      ensures r.Err? ==> r.error == ConstructionCheck(options, kms, now).error
      ensures r.Ok? ==> fresh(r.value) && r.value.Valid() && r.value.key == key && r.value.options == options
      ensures r.Ok? ==> r.value.plaintextKey.None? && r.value.decryptCalls == 0
    {
      match ConstructionCheck(options, kms, now)
      case Err(e) =>
        r := Err(e);
      case Ok(_) =>
        var d := new AwsKeyDriver(key, options);
        r := Ok(d);
    }

    /** getKey: Decrypt on the first call (or the first after clearMemory), the cached plaintext afterwards. */
    method GetKey(kms: Client) returns (k: Bytes)
      modifies this
      ensures old(plaintextKey).Some? ==> k == old(plaintextKey).value && decryptCalls == old(decryptCalls)
      ensures old(plaintextKey).None? ==> k == kms.decrypt(DecryptRequestFor(key, options)) && decryptCalls == old(decryptCalls) + 1
      ensures plaintextKey == Some(k)
    {
      if plaintextKey.None? {
        var plain := DecryptKey(kms);
        plaintextKey := Some(plain);
        decryptCalls := decryptCalls + 1;
      }
      k := plaintextKey.value;
    }

    /** decryptKey: one Decrypt request for the stored blob. */
    method DecryptKey(kms: Client) returns (plain: Bytes)
      ensures plain == kms.decrypt(DecryptRequestFor(key, options))
    {
      plain := kms.decrypt(DecryptRequestFor(key, options));
    }

    /** isKeyRotatable: always true. */
    method IsKeyRotatable() returns (b: bool)
      ensures b
    {
      b := true;
    }

    /** reEncrypt: the blob KMS returns for the stored key re-wrapped under the master key; no field changes. */
    method ReEncrypt(kms: Client) returns (blob: Bytes)
      requires Valid()
      ensures blob == kms.reEncrypt(ReEncryptRequestFor(key, options))
    {
      blob := kms.reEncrypt(ReEncryptRequestFor(key, options));
    }

    /**
     * clearMemory: with the sodium extension, sodium_memzero, which wipes the
     * string and leaves null but throws a SodiumException when nothing is
     * cached; without it, overwrite with 20 random bytes, then null.
     */
    method ClearMemory(sodiumLoaded: bool, random: RandomSource) returns (err: Option<Error>)
      modifies this
      ensures plaintextKey.None? && decryptCalls == old(decryptCalls)
      ensures err.Some? <==> sodiumLoaded && old(plaintextKey).None?
      ensures err.Some? ==> err.value == SodiumFailure(NOT_A_STRING)
    {
      if sodiumLoaded {
        if plaintextKey.None? {
          return Some(SodiumFailure(NOT_A_STRING));
        }
        plaintextKey := None;
      } else {
        plaintextKey := Some(random(20));
        plaintextKey := None;
      }
      err := None;
    }
  }

  /** Repeated getKey calls return the same key and send Decrypt at most once. */
  method GetKeyDecryptsOnce(d: AwsKeyDriver, kms1: Client, kms2: Client) returns (k1: Bytes, k2: Bytes)
    modifies d
    ensures k1 == k2
    ensures d.decryptCalls <= old(d.decryptCalls) + 1
    ensures old(d.plaintextKey).Some? ==> d.decryptCalls == old(d.decryptCalls)
  {
    k1 := d.GetKey(kms1);
    k2 := d.GetKey(kms2);
  }

  /** After clearMemory the next getKey sends Decrypt again and, with the same KMS, recovers the same plaintext. */
  method ClearThenGetKey(d: AwsKeyDriver, kms: Client, sodiumLoaded: bool, random: RandomSource) returns (k1: Bytes, k2: Bytes)
    modifies d
    ensures k2 == kms.decrypt(DecryptRequestFor(d.key, d.options))
    ensures old(d.plaintextKey).None? ==> k1 == k2
    ensures d.decryptCalls == old(d.decryptCalls) + 1 + (if old(d.plaintextKey).None? then 1 else 0)
  {
    k1 := d.GetKey(kms);
    var _ := d.ClearMemory(sodiumLoaded, random);
    k2 := d.GetKey(kms);
  }

  /**
   * A driver built on the blob reEncrypt returns reads the same plaintext
   * data key, when the context option is unset or empty (reEncrypt sends no
   * source context).
   */
  lemma RotationKeepsPlaintext(key: Bytes, options: KeyOptions, kms: Client)
    requires HasMasterKey(options) && (options.context.None? || options.context == Some(map[]))
    requires ReEncryptKeepsPlaintext(kms)
    ensures kms.decrypt(DecryptRequestFor(kms.reEncrypt(ReEncryptRequestFor(key, options)), options))
         == kms.decrypt(DecryptRequestFor(key, options))
  {
    var dest := options.masterKey.value;
    var ctx := options.context;
    assert ReEncryptRequestFor(key, options) == ReEncryptRequest(key, dest);
    var blob := kms.reEncrypt(ReEncryptRequest(key, dest));
    assert DecryptRequestFor(blob, options) == DecryptRequest(blob, ctx);
    assert DecryptRequestFor(key, options) == DecryptRequest(key, ctx);
    assert kms.decrypt(DecryptRequest(kms.reEncrypt(ReEncryptRequest(key, dest)), ctx)) == kms.decrypt(DecryptRequest(key, ctx));
  }
}
