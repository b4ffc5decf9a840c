/**
 * The plaintext key driver (KeyDrivers/LocalKeyDriver.php): it holds the key
 * it was given and hands it back.
 */
module LocalKeyDriver {
  import opened Wrappers
  import opened Bytes
  import Kms

  datatype Driver = Driver(key: Bytes)

  /** __construct($key, $options): the options are ignored. */
  function New(key: Bytes, options: Kms.KeyOptions): (d: Driver)
    ensures GetKey(d) == key
  {
    Driver(key)
  }

  /** Construction looks at the key only: any two option sets give the same driver. */
  lemma OptionsIgnored(key: Bytes, o1: Kms.KeyOptions, o2: Kms.KeyOptions)
    ensures New(key, o1) == New(key, o2)
  {
  }

  function GetKey(d: Driver): Bytes {
    d.key
  }

  /** generateKey($length): random_bytes($length), which refuses a length below 1. */
  function GenerateKey(length: int, random: RandomSource): (r: Result<Bytes, Error>)
    ensures r.Ok? <==> length >= 1
    ensures r.Ok? ==> |r.value| == length
    ensures r.Err? ==> r.error == ValueError(RANDOM_LENGTH)
  {
    RandomBytes(random, length)
  }

  /** clearMemory: the key is always plaintext here, so nothing is cleared. */
  function ClearMemory(d: Driver): (d': Driver)
    ensures GetKey(d') == GetKey(d)
  {
    d
  }

  /** The key-driver interface's isKeyRotatable, which this class does not define: a local key is not rotatable. */
  function IsKeyRotatable(d: Driver): (b: bool)
    ensures !b
  {
    false
  }

  /** The key-driver interface's reEncrypt, which this class does not define: the stored key, unchanged. */
  function ReEncrypt(d: Driver): (k: Bytes)
    ensures k == GetKey(d)
  {
    d.key
  }

  /** Whatever sequence of getKey, clearMemory and reEncrypt follows construction, the key seen is the constructor's. */
  lemma {:induction false} KeyStable(key: Bytes, options: Kms.KeyOptions, clears: nat)
    ensures GetKey(ClearIterated(New(key, options), clears)) == key
    ensures ReEncrypt(ClearIterated(New(key, options), clears)) == key
  {
    if clears > 0 {
      KeyStable(key, options, clears - 1);
    }
  }

  function ClearIterated(d: Driver, n: nat): Driver {
    if n == 0 then d else ClearMemory(ClearIterated(d, n - 1))
  }
}
