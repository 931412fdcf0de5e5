/**
 * The provider-facing types of the crypto layer: parameter records, error codes and
 * the two parameter validators, whose bodies are not part of this model.
 */
module Crypto {
  import opened Results
  import opened Sjcl

  /** Portable text encoding of bytes (base64url when produced by the provider). */
  type Base64String = string

  /** The error codes the provider itself raises. */
  datatype ErrorCode = InvalidCipherParams | EncryptionFailed | DecryptionFailed | NotSupported

  /** What a provider operation can throw. */
  datatype Failure =
    | Err(code: ErrorCode)     // `new Err(code)`
    | Message(text: string)    // a bare thrown string
    | Raised(thrown: Thrown)   // an exception from inside SJCL, passed on unchanged

  /** How to turn a passphrase into a key; `salt` may be missing. */
  datatype KeyDerivationParams = KeyDerivationParams(
    algorithm: string,
    salt: Option<Base64String>,
    iterations: int,
    keySize: int
  )

  /** How to encrypt; `iv` and `additionalData` may be missing. */
  datatype CipherParams = CipherParams(
    cipherType: string,
    algorithm: string,
    iv: Option<Base64String>,
    additionalData: Option<Base64String>,
    tagSize: int
  )

  /** The result shape of key-pair generation. */
  datatype KeyPair = KeyPair(privateKey: Base64String, publicKey: Base64String)

  /**
   * `validateKeyDerivationParams` and `validateCipherParams`: `None` when the
   * parameters pass, `Some(e)` when the validator throws `e`.
   */
  datatype Validators = Validators(
    keyDerivation: KeyDerivationParams -> Option<Failure>,
    cipher: CipherParams -> Option<Failure>
  )
}
