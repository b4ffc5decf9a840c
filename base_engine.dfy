/**
 * The logic shared by every engine (Engines/Engine.php) and repeated verbatim
 * by the abstract schema (Schema/Schema.php): cipher defaulting, the key-length
 * table check and key generation.
 */
module BaseEngine {
  import opened Wrappers
  import opened Bytes

  /** KEY_LENGTHS (in declaration order) and DEFAULT_CIPHER of one engine class. */
  datatype CipherTable = CipherTable(ciphers: seq<string>, keyLengths: map<string, nat>, defaultCipher: string)

  function Join(xs: seq<string>, sep: string): string {
    if xs == [] then "" else if |xs| == 1 then xs[0] else xs[0] + sep + Join(xs[1..], sep)
  }

  /** The message of the RuntimeException the constructor throws. */
  function UnsupportedMessage(t: CipherTable): string {
    "The only supported ciphers are " + Join(t.ciphers, ", ") + " with the correct key lengths."
  }

  /** resolveCipher: null becomes DEFAULT_CIPHER, anything else is kept. */
  function ResolveCipher(t: CipherTable, cipher: Option<string>): (r: string)
    ensures cipher.None? ==> r == t.defaultCipher
    ensures cipher.Some? ==> r == cipher.value
  {
    cipher.GetOr(t.defaultCipher)
  }

  /** Resolving an already resolved cipher changes nothing. */
  lemma ResolveCipherIdempotent(t: CipherTable, cipher: Option<string>)
    ensures ResolveCipher(t, Some(ResolveCipher(t, cipher))) == ResolveCipher(t, cipher)
  {
  }

  /** supported: the cipher is a key of the table and the key has exactly its byte length. */
  predicate Supported(t: CipherTable, key: Bytes, cipher: string) {
    cipher in t.keyLengths && |key| == t.keyLengths[cipher]
  }

  /** supported looks only at the key's length, and never accepts a cipher outside the table. */
  lemma SupportedDependsOnLength(t: CipherTable, k1: Bytes, k2: Bytes, cipher: string)
    ensures |k1| == |k2| ==> (Supported(t, k1, cipher) <==> Supported(t, k2, cipher))
    ensures cipher !in t.keyLengths ==> !Supported(t, k1, cipher)
  {
  }

  /** generateKey: KEY_LENGTHS[cipher] random bytes, or InvalidArgumentException for a cipher outside the table. */
  function GenerateKey(t: CipherTable, cipher: Option<string>, random: RandomSource): (r: Result<Bytes, Error>)
    ensures r.Ok? <==> ResolveCipher(t, cipher) in t.keyLengths
    ensures r.Ok? ==> Supported(t, r.value, ResolveCipher(t, cipher))
    ensures r.Err? ==> r.error == InvalidArgument(ResolveCipher(t, cipher) + " is not a supported cipher.")
  {
    var c := ResolveCipher(t, cipher);
    if c !in t.keyLengths then Err(InvalidArgument(c + " is not a supported cipher."))
    else Ok(random(t.keyLengths[c]))
  }
}
