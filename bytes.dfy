/** Byte strings, as PHP strings are, and the random source that stands in for random_bytes. */
module Bytes {
  import opened Wrappers

  newtype byte = x: int | 0 <= x < 256

  type Bytes = seq<byte>

  /**
   * The bytes random_bytes($n) returns for a length it accepts (n >= 1):
   * exactly n of them. What it answers for 0 is never used; RandomBytes
   * adds the refusal of lengths below 1.
   */
  type RandomSource = f: nat -> Bytes | forall n: nat :: |f(n)| == n
    witness (n: nat) => seq(n, _ => 0 as byte)

  const RANDOM_LENGTH: string := "random_bytes()" + ": Argument #1 ($length) must be greater than 0"

  /** random_bytes($length) for any integer: a ValueError below 1, else $length fresh bytes. */
  function RandomBytes(random: RandomSource, length: int): (r: Result<Bytes, Error>)
    ensures r.Ok? <==> length >= 1
    ensures r.Ok? ==> |r.value| == length
    ensures r.Err? ==> r.error == ValueError(RANDOM_LENGTH)
  {
    if length < 1 then Err(ValueError(RANDOM_LENGTH)) else Ok(random(length))
  }

  predicate StartsWith(s: Bytes, prefix: Bytes) {
    |prefix| <= |s| && s[..|prefix|] == prefix
  }

  /** The ASCII text "base64:". */
  const BASE64_PREFIX: Bytes := [98, 97, 115, 101, 54, 52, 58]

  /** The ASCII text "0", which PHP's empty() treats as empty. */
  const ZERO_TEXT: Bytes := [48]

  /** PHP mb_substr($s, $start, $len, '8bit') for non-negative $start and $len. */
  function Substr(s: Bytes, start: nat, len: nat): (r: Bytes)
    ensures |r| <= len && |r| <= |s|
    ensures start + len <= |s| ==> r == s[start..start + len]
    ensures start >= |s| ==> r == []
    ensures start <= |s| < start + len ==> r == s[start..]
  {
    if start >= |s| then [] else if start + len <= |s| then s[start..start + len] else s[start..]
  }
}
