/**
 * The AWS Key Management Service as the key drivers see it: an oracle that
 * answers the four requests they send. Network faults (KmsException) are not
 * modelled; the request shapes are.
 */
module Kms {
  import opened Wrappers
  import opened Bytes

  /** An EncryptionContext: string keys to string values. */
  type Context = map<string, string>

  /** The DescribeKey fields isKeyViable reads; dates are instants on the same integer clock as `now`. */
  datatype KeyMeta = KeyMeta(
    keyState: string,
    deletionDate: Option<int>,
    origin: string,
    expirationModel: Option<string>,
    validTo: Option<int>)

  /** Decrypt: CiphertextBlob, and EncryptionContext only when one is sent. */
  datatype DecryptRequest = DecryptRequest(ciphertextBlob: Bytes, encryptionContext: Option<Context>)

  /** ReEncrypt: CiphertextBlob and DestinationKeyId. */
  datatype ReEncryptRequest = ReEncryptRequest(ciphertextBlob: Bytes, destinationKeyId: string)

  /** GenerateDataKeyWithoutPlaintext: KeyId is null when the caller gave no master key. */
  datatype DataKeyRequest = DataKeyRequest(encryptionContext: Context, keyId: Option<string>, numberOfBytes: int)

  /** DescribeKey by KeyId, Decrypt's Plaintext, ReEncrypt's and GenerateDataKeyWithoutPlaintext's CiphertextBlob. */
  datatype Client = Client(
    describeKey: string -> KeyMeta,
    decrypt: DecryptRequest -> Bytes,
    reEncrypt: ReEncryptRequest -> Bytes,
    generateDataKeyWithoutPlaintext: DataKeyRequest -> Bytes)

  /** Re-encrypting a blob under another master key keeps the data key it wraps, for blobs made with no (or an empty) encryption context. */
  ghost predicate ReEncryptKeepsPlaintext(c: Client) {
    forall blob, dest, ctx: Option<Context> | ctx.None? || ctx == Some(map[]) ::
      c.decrypt(DecryptRequest(c.reEncrypt(ReEncryptRequest(blob, dest)), ctx)) == c.decrypt(DecryptRequest(blob, ctx))
  }

  /** The options array a KMS-backed key driver is built with; None is an unset or null entry. */
  datatype KeyOptions = KeyOptions(
    masterKey: Option<string>,
    region: Option<string>,
    profile: Option<string>,
    context: Option<Context>)

  /** The KmsClient settings: profile (default 'default') and region; the version is always 'latest'. */
  datatype ClientConfig = ClientConfig(profile: string, region: Option<string>)

  /** decryptKey's request: the stored blob, with the context option's value only when that option is set. */
  function DecryptRequestFor(key: Bytes, options: KeyOptions): (r: DecryptRequest)
    ensures r.ciphertextBlob == key
    ensures r.encryptionContext.Some? <==> options.context.Some?
    ensures options.context.Some? ==> r.encryptionContext.value == options.context.value
  {
    DecryptRequest(key, options.context)
  }
}
