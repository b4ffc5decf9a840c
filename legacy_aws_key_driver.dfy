/**
 * The older KMS key driver (KeyDrivers/awsKeyDriver.php): no construction
 * checks, keys generated locally, and the same lazy plaintext cache as the
 * current driver.
 */
module LegacyAwsKeyDriver {
  import opened Wrappers
  import opened Bytes
  import opened Kms

  /** The KmsClient it builds: profile 'default' and the region option as given. */
  function ClientConfigFor(options: KeyOptions): (c: ClientConfig)
    ensures c.profile == "default" && c.region == options.region
  {
    ClientConfig("default", options.region)
  }

  /** generateKey($length): random_bytes($length), which refuses a length below 1; KMS is not involved. */
  function GenerateKey(length: int, random: RandomSource): (r: Result<Bytes, Error>)
    ensures r.Ok? <==> length >= 1
    ensures r.Ok? ==> |r.value| == length
    ensures r.Err? ==> r.error == ValueError(RANDOM_LENGTH)
  {
    RandomBytes(random, length)
  }

  class LegacyAwsKeyDriver {
    const key: Bytes
    const options: KeyOptions
    const client: ClientConfig
    var plaintextKey: Option<Bytes>
    ghost var decryptCalls: nat

    /** __construct($key, $options): both stored verbatim, nothing checked, nothing fetched. */
    constructor (key: Bytes, options: KeyOptions)
      ensures this.key == key && this.options == options && client == ClientConfigFor(options)
      ensures plaintextKey.None? && decryptCalls == 0
    {
      this.key := key;
      this.options := options;
      this.client := ClientConfigFor(options);
      plaintextKey := None;
      decryptCalls := 0;
    }

    /** getKey: Decrypt only when nothing is cached. */
    method GetKey(kms: Client) returns (k: Bytes)
      modifies this
      ensures old(plaintextKey).Some? ==> k == old(plaintextKey).value && decryptCalls == old(decryptCalls)
      ensures old(plaintextKey).None? ==> k == kms.decrypt(DecryptRequestFor(key, options)) && decryptCalls == old(decryptCalls) + 1
      ensures plaintextKey == Some(k)
    {
      if plaintextKey.None? {
        var plain := DecryptKey(kms);
        plaintextKey := Some(plain);
        decryptCalls := decryptCalls + 1;
      }
      k := plaintextKey.value;
    }

    /** decryptKey: the stored blob, with EncryptionContext only when the context option is set. */
    method DecryptKey(kms: Client) returns (plain: Bytes)
      ensures plain == kms.decrypt(DecryptRequestFor(key, options))
    {
      plain := kms.decrypt(DecryptRequestFor(key, options));
    }

    /** clearMemory: overwrite with 20 random bytes, then null. */
    method ClearMemory(random: RandomSource)
      modifies this
      ensures plaintextKey.None? && decryptCalls == old(decryptCalls)
    {
      plaintextKey := Some(random(20));
      plaintextKey := None;
    }
  }

  /** Repeated getKey calls return the same key and send Decrypt at most once. */
  method GetKeyDecryptsOnce(d: LegacyAwsKeyDriver, kms1: Client, kms2: Client) returns (k1: Bytes, k2: Bytes)
    modifies d
    ensures k1 == k2
    ensures d.decryptCalls <= old(d.decryptCalls) + 1
    ensures old(d.plaintextKey).Some? ==> d.decryptCalls == old(d.decryptCalls)
  {
    k1 := d.GetKey(kms1);
    k2 := d.GetKey(kms2);
  }

  /** After clearMemory the next getKey decrypts again. */
  method ClearThenGetKey(d: LegacyAwsKeyDriver, kms: Client, random: RandomSource) returns (k: Bytes)
    modifies d
    ensures k == kms.decrypt(DecryptRequestFor(d.key, d.options))
    ensures d.decryptCalls == old(d.decryptCalls) + 1
  {
    d.ClearMemory(random);
    k := d.GetKey(kms);
  }
}
