# SJCL crypto provider — a Dafny model

This project models `SJCLProvider`, the crypto provider of the credential store's core package. The provider implements no cryptography of its own. It is a dispatch-and-gating layer over the vendored SJCL library. It checks its arguments, decodes the portable text encoding (base64url, falling back to standard base64), and calls SJCL's PBKDF2, AES-CCM and random generators. It turns any failure inside the `try` body of `encrypt` or `decrypt` (past both checks) into ENCRYPTION_FAILED or DECRYPTION_FAILED. Failures inside `deriveKey`, `randomBytes` and `randomKey` propagate as SJCL raised them.

SJCL is not part of this model. Each of its entry points is an uninterpreted function that can return a value or throw. These functions are fields of the `Sjcl.Library` datatype, which every operation that calls SJCL takes as a parameter. The two parameter validators, `validateKeyDerivationParams` and `validateCipherParams`, come from the crypto module, which is also not part of this model. They are fields of `Crypto.Validators`: a validator either passes or throws its own error. Exceptions are modelled as a `Result`. Each operation except `isAvailable` returns a `Calls.Run`: its result together with the ordered list of every call it made outside itself (validators, codecs, primitives), each with its arguments. That list is what makes three things statable: the order of the checks, which calls a failed check prevents, and the exact arguments a primitive receives.

Files:
- `results.dfy`: `Option` and `Result`.
- `sjcl.dfy`: SJCL's bit arrays, exceptions and entry points (`Library`).
- `crypto.dfy`: parameter records, error codes, the `Failure` a provider operation throws, and the validators.
- `calls.dfy`: the call record (`Call`, `Run`), the primitive calls of a record (`Primitives`) and the helpers that thread the record through code that may throw.
- `sjcl_provider.dfy`: the provider's operations and the lemmas about them.

## Model

| member | source | states |
|---|---|---|
| SjclProvider.BitsToBase64 | packages/core/src/sjcl-provider.ts:19 | Exactly one call, to `sjcl.codec.base64url.fromBits` on the given bits. Its text or its exception is passed on unchanged. |
| SjclProvider.Base64ToBits | packages/core/src/sjcl-provider.ts:20-26 | base64url is always tried first. When it decodes, its bits are the answer and standard base64 is never called. When it throws, standard base64's bits are the answer. The call throws exactly when both decoders throw, and then with standard base64's exception, unchanged. Decoding reaches no primitive. |
| SjclProvider.Utf8ToBits | packages/core/src/sjcl-provider.ts:27 | Exactly one call, to `sjcl.codec.utf8String.toBits` on the given text. Its bits or its exception are passed on unchanged. |
| SjclProvider.IsAvailable | packages/core/src/sjcl-provider.ts:30-32 | Always true. |
| SjclProvider.RandomBytes | packages/core/src/sjcl-provider.ts:34-39 | A byte count that is not a multiple of 4 throws exactly the provider's own message, and the generator is not called. Otherwise the generator is called first, once, for `bytes / 4` words (4 × words = bytes). That is the only primitive call. If the generator throws, its exception is passed on unchanged. Otherwise the outcome is the encoder's on those words: their base64url text, or the encoder's exception unchanged. |
| SjclProvider.DeriveKey | packages/core/src/sjcl-provider.ts:41-46 | The validator runs before anything else. If it throws, its error is passed on as it is and nothing else is called: no encoding, no decoding, no PBKDF2. The provider makes up no error of its own: every failure is either the validator's error or an SJCL exception. Past the validator, a password UTF-8 cannot encode throws the encoder's exception unchanged, and a salt neither decoder accepts throws the decoding's exception unchanged. |
| SjclProvider.Pbkdf2KeyPrimitives | packages/core/src/sjcl-provider.ts:44-45 | Past the validator, PBKDF2 is the only primitive. It is called once exactly when the password and the salt can be converted, and not at all otherwise. Its arguments are the password's UTF-8 bits, the decoded salt, exactly `params.iterations` and exactly `params.keySize`. If PBKDF2 throws, its exception is the outcome, unchanged. Otherwise the outcome is the encoder's on PBKDF2's output: the key's base64url text, or the encoder's exception. |
| SjclProvider.DeriveKeyPrimitives | packages/core/src/sjcl-provider.ts:41-46 | PBKDF2 is the only primitive, called at most once. It is never called when the validator refuses. It is called exactly when the validator accepts and the password and salt can be converted. Its arguments are the password's UTF-8 bits, the decoded salt, exactly `params.iterations` and exactly `params.keySize`. The outcome is then PBKDF2's exception unchanged, or the encoder's outcome on PBKDF2's output. |
| SjclProvider.DeriveKeyDependsOnlyOn | packages/core/src/sjcl-provider.ts:44-45 | Once both parameter sets pass the validator, two sets that agree on salt, iteration count and key size give the same result and make the same calls after validation. |
| SjclProvider.RandomKey | packages/core/src/sjcl-provider.ts:48-50 | Exactly one call to `sjcl.randomBytes`, asking for n / 8 bytes, unrounded. With no argument it asks for 32 bytes (256 bits). The generator's answer or exception is passed on unchanged. |
| SjclProvider.Decrypt | packages/core/src/sjcl-provider.ts:52-75 | Any cipher other than symmetric AES-CCM throws INVALID_CIPHER_PARAMS, and nothing is called, not even the validator. Otherwise the validator runs first. Its error passes through unchanged, and nothing else is called. After both checks, every failure throws the one DECRYPTION_FAILED, whatever the cause. The call succeeds exactly when the `try` body does, and then returns the body's text. |
| SjclProvider.DecryptPrimitives | packages/core/src/sjcl-provider.ts:62-71 | No primitive runs when either check refuses. Past both checks, the AES key setup runs on the decoded key exactly when the key decodes. One CCM decryption follows exactly when that setup succeeds and the ciphertext, IV and additional data all decode. It gets the cipher that setup built, the decoded ciphertext, the decoded IV, the decoded additional data and exactly `params.tagSize`. The call returns the base64url encoding of that decryption's output when the decryption and the encoder both succeed. In every other case it throws DECRYPTION_FAILED. |
| SjclProvider.Encrypt | packages/core/src/sjcl-provider.ts:77-101 | Any cipher other than symmetric AES-CCM throws INVALID_CIPHER_PARAMS, and nothing is called, not even the validator. Otherwise the validator runs first. Its error passes through unchanged, and nothing else is called. After both checks, every failure throws the one ENCRYPTION_FAILED, whatever the cause. The call succeeds exactly when the `try` body does, and then returns the body's text. |
| SjclProvider.EncryptPrimitives | packages/core/src/sjcl-provider.ts:88-97 | No primitive runs when either check refuses. Past both checks, the AES key setup runs on the decoded key exactly when the key decodes. One CCM encryption follows exactly when that setup succeeds and the plaintext, IV and additional data all decode. It gets the cipher that setup built, the decoded plaintext, the decoded IV, the decoded additional data and exactly `params.tagSize`. The call returns the base64url encoding of that encryption's output when the encryption and the encoder both succeed. In every other case it throws ENCRYPTION_FAILED. |
| SjclProvider.AesCcmPrimitives | packages/core/src/sjcl-provider.ts:62-71 | The `try` body shared by encrypt and decrypt makes at most two primitive calls. The AES key setup runs on the decoded key exactly when the key decodes. The CCM call of its direction follows exactly when the setup succeeds and the data, IV and additional data decode. It runs on the decoded inputs with the requested tag size. The body succeeds exactly when that CCM call and the encoding of its output succeed, and then returns the encoded output. |
| SjclProvider.CcmWithPrimitives | packages/core/src/sjcl-provider.ts:64-70 | After the key setup, at most one primitive call follows: the CCM operation. It is made exactly when the data, IV and additional data all decode. It runs on the given cipher, the decoded data, the decoded IV, the decoded additional data and exactly `params.tagSize`. The rest succeeds exactly when that call and the encoding of its output succeed, and then returns the encoded output. |
| SjclProvider.GenerateKeyPair | packages/core/src/sjcl-provider.ts:103-105 | Always throws NOT_SUPPORTED, and no primitive is called. |

Notes on what the code does where a reader might expect otherwise:
- `randomBytes` throws a bare string ("Number of bytes must be dividable by 4"). It does not throw an error object with an invalid-argument code. The model's failure is `Message(...)`.
- `deriveKey` does not rewrite failures inside the codecs or PBKDF2 into a key-derivation error code. They propagate as raised by SJCL (`Raised(...)`). Only the validator produces a parameter error.
- `encrypt` and `decrypt` check the cipher type and algorithm before the validator runs, not as part of it.

## Left out

- SJCL's internals (AES, CCM, PBKDF2, the base64, base64url and UTF-8 codecs, the random generator) are uninterpreted functions. No round trip (`decrypt(encrypt(x)) == x`, `decode(encode(b)) == b`), no tamper detection and no determinism of AES-CCM is assumed or proved, because none of it is established by the provider's own code.
- The bodies of `validateKeyDerivationParams` and `validateCipherParams` are not part of this model. The legal tag sizes, IV lengths, iteration counts and key sizes are therefore not stated.
- Randomness quality is not modelled. A `Library` value fixes what the generators hand out for one call, so repeated calls that return different values are not modelled.
- The `async`/`Promise` wrapping is not modelled, because none of these methods suspends. A rejected promise is modelled as a thrown failure.
- JavaScript numbers are modelled as integers, with `randomKey`'s `n / 8` as an exact rational. NaN, infinities and non-integer byte counts passed to `randomBytes` are left out. On integers, JavaScript's truncating `%` and Dafny's Euclidean `%` agree on whether the count is a multiple of 4, and `bytes / 4` is then exact.
- The optional fields `salt`, `iv` and `additionalData` are `Option` values. TypeScript's `!` does nothing at run time, so a missing field reaches the SJCL decoder as `undefined`. What the decoder then does is up to the library.
- The model assumes that `sjcl.randomBytes` (called by `randomKey`) returns an encoded string. The vendored SJCL is not part of this model, and the provider passes the value on untouched, so its exact type does not affect any contract here.
- The `CryptoProvider` interface, and the choice among providers, are not part of this model. Only this one binding is modelled.
- The Electron shell and the UI record field are not part of this model. They are windowing, settings and presentation code.
