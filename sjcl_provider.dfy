/**
 * The SJCL-backed crypto provider: a dispatch-and-gating layer over SJCL. Every
 * operation is a function of the library it calls, the validators, and its arguments,
 * and returns its outcome together with the calls it made, so that the order of the
 * checks and the calls a failed check prevents can be stated.
 */
module SjclProvider {
  import opened Results
  import opened Sjcl
  import opened Crypto
  import opened Calls

  type Key = Base64String
  type SymmetricKey = Base64String
  type PlainText = Base64String
  type CipherText = Base64String

  /** What `randomBytes` throws for a byte count that is not a multiple of 4. */
  const NotDividableBy4: string := "Number of bytes must be dividable by 4"

  /** The only cipher the provider accepts. */
  predicate SupportedCipher(params: CipherParams) {
    params.cipherType == "symmetric" && params.algorithm == "AES-CCM"
  }

  // ---------------------------------------------------------------------------
  // Codec shorthands

  /** `bitsToBase64`: SJCL's base64url encoder. */
  function BitsToBase64(lib: Library, bits: BitArray): (r: Run<Base64String>)
    // one call to the encoder, whose text or exception is passed on unchanged
    ensures r.calls == [UrlEncode(bits)] && r.result == Propagated(lib.base64urlFromBits(bits))
  {
    Invoke(UrlEncode(bits), lib.base64urlFromBits(bits))
  }

  /** `utf8ToBits`: SJCL's UTF-8 encoder. */
  function Utf8ToBits(lib: Library, text: string): (r: Run<BitArray>)
    // one call to the encoder, whose bits or exception are passed on unchanged
    ensures r.calls == [Utf8Encode(text)] && r.result == Propagated(lib.utf8StringToBits(text))
  {
    Invoke(Utf8Encode(text), lib.utf8StringToBits(text))
  }

  /** `base64ToBits`: base64url first; only if that throws, standard base64. */
  function Base64ToBits(lib: Library, encoded: Option<Base64String>): (r: Run<BitArray>)
    // the URL-safe decoder is always tried first
    ensures |r.calls| > 0 && r.calls[0] == UrlDecode(encoded)
    // whenever it decodes, its bits are the answer and standard base64 is never tried
    ensures lib.base64urlToBits(encoded).Success? ==>
              r.result == Success(lib.base64urlToBits(encoded).value) && StdDecode(encoded) !in r.calls
    // when it throws, standard base64's bits are the answer
    ensures lib.base64urlToBits(encoded).Failure? && lib.base64ToBits(encoded).Success? ==>
              r.result == Success(lib.base64ToBits(encoded).value)
    // it throws exactly when both decoders do, and then with standard base64's exception
    ensures r.result.Failure? <==> lib.base64urlToBits(encoded).Failure? && lib.base64ToBits(encoded).Failure?
    ensures r.result.Failure? ==> r.result.error == Raised(lib.base64ToBits(encoded).error)
    // decoding touches no cryptographic primitive
    ensures Primitives(r.calls) == []
  {
    match lib.base64urlToBits(encoded)
    case Success(bits) => Run(Success(bits), [UrlDecode(encoded)])
    case Failure(_) =>
      var fallback := Invoke(StdDecode(encoded), lib.base64ToBits(encoded));
      PrimitivesAppend([UrlDecode(encoded)], fallback.calls);
      Run(fallback.result, [UrlDecode(encoded)] + fallback.calls)
  }

  // ---------------------------------------------------------------------------
  // SJCLProvider

  /** `isAvailable`: SJCL is always there. */
  function IsAvailable(): (r: bool)
    ensures r
  {
    true
  }

  /** `randomBytes`: `bytes / 4` random words, base64url-encoded. */
  function RandomBytes(lib: Library, bytes: int): (r: Run<Base64String>)
    // a count that is not a multiple of 4 is refused with the provider's own message,
    // before the generator is asked for anything
    ensures bytes % 4 != 0 <==> r.result == Failure(Message(NotDividableBy4))
    ensures bytes % 4 != 0 ==> r.calls == []
    // otherwise the generator is asked, once and first, for exactly bytes / 4 words
    ensures bytes % 4 == 0 ==> |r.calls| > 0 && r.calls[0] == DrawWords(bytes / 4, 0) && 4 * r.calls[0].words == bytes
    ensures bytes % 4 == 0 ==> Primitives(r.calls) == [DrawWords(bytes / 4, 0)]
    // an exception of the generator is passed on unchanged; otherwise the outcome is the
    // encoder's on those words: their base64url text, or the encoder's exception unchanged
    ensures bytes % 4 == 0 && lib.randomWords(bytes / 4, 0).Failure? ==>
              r.result == Failure(Raised(lib.randomWords(bytes / 4, 0).error))
    ensures bytes % 4 == 0 && lib.randomWords(bytes / 4, 0).Success? ==>
              r.result == Propagated(lib.base64urlFromBits(lib.randomWords(bytes / 4, 0).value))
  {
    if bytes % 4 != 0 then
      Run(Failure(Message(NotDividableBy4)), [])
    else
      var words := Invoke(DrawWords(bytes / 4, 0), lib.randomWords(bytes / 4, 0));
      if words.result.Failure? then Abort(words)
      else
        var encoded := BitsToBase64(lib, words.result.value);
        PrimitivesAppend(words.calls, encoded.calls);
        After(words.calls, encoded)
  }

  /** `deriveKey`: validate, then PBKDF2 over the password's UTF-8 bits and the decoded salt. */
  function DeriveKey(lib: Library, checks: Validators, password: string, params: KeyDerivationParams): (r: Run<SymmetricKey>)
    // the validator runs before anything else
    ensures |r.calls| > 0 && r.calls[0] == ValidateKdf(params)
    // a rejection is passed on as it is, and nothing else is called: no decoding, no PBKDF2
    ensures checks.keyDerivation(params).Some? ==>
              r.result == Failure(checks.keyDerivation(params).value) && r.calls == [ValidateKdf(params)]
    // the provider coins no error of its own: it is the validator's, or SJCL's
    ensures r.result.Failure? ==>
              checks.keyDerivation(params) == Some(r.result.error) || r.result.error.Raised?
    // a password UTF-8 cannot encode: the encoder's exception, unchanged
    ensures checks.keyDerivation(params).None? && lib.utf8StringToBits(password).Failure? ==>
              r.result == Failure(Raised(lib.utf8StringToBits(password).error))
    // a salt neither decoder accepts: the decoding's exception, unchanged
    ensures checks.keyDerivation(params).None? && lib.utf8StringToBits(password).Success?
            && Base64ToBits(lib, params.salt).result.Failure? ==>
              r.result == Failure(Base64ToBits(lib, params.salt).result.error)
  {
    match checks.keyDerivation(params)
    case Some(e) => Run(Failure(e), [ValidateKdf(params)])
    case None => After([ValidateKdf(params)], Pbkdf2Key(lib, password, params))
  }

  /** The key derivation proper: PBKDF2 over the password's UTF-8 bits and the decoded salt, base64url-encoded. */
  function Pbkdf2Key(lib: Library, password: string, params: KeyDerivationParams): Run<SymmetricKey> {
    var passwordBits := Utf8ToBits(lib, password);
    if passwordBits.result.Failure? then Abort(passwordBits) else
    var saltBits := Base64ToBits(lib, params.salt);
    if saltBits.result.Failure? then After(passwordBits.calls, Abort(saltBits)) else
    var pw, salt := passwordBits.result.value, saltBits.result.value;
    var k := Invoke(Pbkdf2(pw, salt, params.iterations, params.keySize), lib.pbkdf2(pw, salt, params.iterations, params.keySize));
    if k.result.Failure? then After(passwordBits.calls + saltBits.calls, Abort(k)) else
    After(passwordBits.calls + saltBits.calls + k.calls, BitsToBase64(lib, k.result.value))
  }

  /** `randomKey(n = 256)`: `n / 8` random bytes, where `/` is JavaScript's division of numbers. */
  function RandomKey(lib: Library, n: Option<int>): (r: Run<SymmetricKey>)
    // without an argument, 256 bits, that is 32 bytes, are asked for
    ensures n.None? ==> r.calls == [DrawBytes(32.0)]
    // with one, n / 8 bytes, unrounded
    ensures n.Some? ==> |r.calls| == 1 && r.calls[0].DrawBytes? && 8.0 * r.calls[0].bytes == n.value as real
    // the generator's answer, or its exception, is passed on unchanged
    ensures |r.calls| == 1 && r.calls[0].DrawBytes? && (r.result.Success? <==> lib.randomBytes(r.calls[0].bytes).Success?)
    ensures r.result.Success? ==> lib.randomBytes(r.calls[0].bytes) == Success(r.result.value)
    ensures r.result.Failure? ==> r.result.error == Raised(lib.randomBytes(r.calls[0].bytes).error)
  {
    var bits := match n case Some(b) => b case None => 256;
    Invoke(DrawBytes(bits as real / 8.0), lib.randomBytes(bits as real / 8.0))
  }

  /** Which way the CCM primitive runs. */
  datatype Direction = Encrypting | Decrypting

  /** The CCM call of a direction. */
  function CcmCall(direction: Direction, cipher: AesCipher, data: BitArray, iv: BitArray, adata: BitArray, tagSize: int): Call {
    match direction
    case Encrypting => CcmEncrypt(cipher, data, iv, adata, tagSize)
    case Decrypting => CcmDecrypt(cipher, data, iv, adata, tagSize)
  }

  /** The CCM primitive of a direction. */
  function CcmOutcome(lib: Library, direction: Direction, cipher: AesCipher, data: BitArray, iv: BitArray, adata: BitArray, tagSize: int): Result<BitArray, Thrown> {
    match direction
    case Encrypting => lib.ccmEncrypt(cipher, data, iv, adata, tagSize)
    case Decrypting => lib.ccmDecrypt(cipher, data, iv, adata, tagSize)
  }

  /**
   * The body of the `try` in `encrypt` and `decrypt`: decode the key and build the AES
   * cipher from it, then run CCM over the decoded data.
   */
  function AesCcm(lib: Library, direction: Direction, key: Key, data: Base64String, params: CipherParams): Run<Base64String> {
    var keyBits := Base64ToBits(lib, Some(key));
    if keyBits.result.Failure? then Abort(keyBits) else
    var cipher := Invoke(AesInit(keyBits.result.value), lib.newAes(keyBits.result.value));
    if cipher.result.Failure? then After(keyBits.calls, Abort(cipher)) else
    After(keyBits.calls + cipher.calls, CcmWith(lib, direction, cipher.result.value, data, params))
  }

  /** Decode the data, IV and additional data, run CCM with the tag size, encode its output. */
  function CcmWith(lib: Library, direction: Direction, cipher: AesCipher, data: Base64String, params: CipherParams): Run<Base64String> {
    var dataBits := Base64ToBits(lib, Some(data));
    if dataBits.result.Failure? then Abort(dataBits) else
    var iv := Base64ToBits(lib, params.iv);
    if iv.result.Failure? then After(dataBits.calls, Abort(iv)) else
    var adata := Base64ToBits(lib, params.additionalData);
    if adata.result.Failure? then After(dataBits.calls + iv.calls, Abort(adata)) else
    var d, v, a := dataBits.result.value, iv.result.value, adata.result.value;
    var out := Invoke(CcmCall(direction, cipher, d, v, a, params.tagSize), CcmOutcome(lib, direction, cipher, d, v, a, params.tagSize));
    if out.result.Failure? then After(dataBits.calls + iv.calls + adata.calls, Abort(out)) else
    After(dataBits.calls + iv.calls + adata.calls + out.calls, BitsToBase64(lib, out.result.value))
  }

  /** `encrypt`: AES-CCM only; validate; any failure of SJCL becomes ENCRYPTION_FAILED. */
  function Encrypt(lib: Library, checks: Validators, key: Key, pt: PlainText, params: CipherParams): (r: Run<CipherText>)
    // any other cipher is refused before the validator or anything else is called
    ensures !SupportedCipher(params) ==> r.result == Failure(Err(InvalidCipherParams)) && r.calls == []
    // then the validator runs first, and its rejection is passed on unchanged, with nothing else called
    ensures SupportedCipher(params) ==> |r.calls| > 0 && r.calls[0] == ValidateCipher(params)
    ensures SupportedCipher(params) && checks.cipher(params).Some? ==>
              r.result == Failure(checks.cipher(params).value) && r.calls == [ValidateCipher(params)]
    // past both checks, every failure, whatever its cause, is the one ENCRYPTION_FAILED
    ensures SupportedCipher(params) && checks.cipher(params).None? && r.result.Failure? ==>
              r.result.error == Err(EncryptionFailed)
    // and a success is the AES-CCM encryption
    ensures r.result.Success? ==>
              && SupportedCipher(params) && checks.cipher(params).None?
              && r.result == AesCcm(lib, Encrypting, key, pt, params).result
    // and whenever the AES-CCM encryption succeeds past both checks, so does the call, with its text
    ensures SupportedCipher(params) && checks.cipher(params).None? && AesCcm(lib, Encrypting, key, pt, params).result.Success? ==>
              r.result == AesCcm(lib, Encrypting, key, pt, params).result
  {
    if !SupportedCipher(params) then
      Run(Failure(Err(InvalidCipherParams)), [])
    else
      match checks.cipher(params)
      case Some(e) => Run(Failure(e), [ValidateCipher(params)])
      case None => After([ValidateCipher(params)], Catch(AesCcm(lib, Encrypting, key, pt, params), EncryptionFailed))
  }

  /** `decrypt`: AES-CCM only; validate; any failure of SJCL becomes DECRYPTION_FAILED. */
  function Decrypt(lib: Library, checks: Validators, key: Key, ct: CipherText, params: CipherParams): (r: Run<PlainText>)
    // any other cipher is refused before the validator or anything else is called
    ensures !SupportedCipher(params) ==> r.result == Failure(Err(InvalidCipherParams)) && r.calls == []
    // then the validator runs first, and its rejection is passed on unchanged, with nothing else called
    ensures SupportedCipher(params) ==> |r.calls| > 0 && r.calls[0] == ValidateCipher(params)
    ensures SupportedCipher(params) && checks.cipher(params).Some? ==>
              r.result == Failure(checks.cipher(params).value) && r.calls == [ValidateCipher(params)]
    // past both checks, every failure, whatever its cause, is the one DECRYPTION_FAILED
    ensures SupportedCipher(params) && checks.cipher(params).None? && r.result.Failure? ==>
              r.result.error == Err(DecryptionFailed)
    // and a success is the AES-CCM decryption
    ensures r.result.Success? ==>
              && SupportedCipher(params) && checks.cipher(params).None?
              && r.result == AesCcm(lib, Decrypting, key, ct, params).result
    // and whenever the AES-CCM decryption succeeds past both checks, so does the call, with its text
    ensures SupportedCipher(params) && checks.cipher(params).None? && AesCcm(lib, Decrypting, key, ct, params).result.Success? ==>
              r.result == AesCcm(lib, Decrypting, key, ct, params).result
  {
    if !SupportedCipher(params) then
      Run(Failure(Err(InvalidCipherParams)), [])
    else
      match checks.cipher(params)
      case Some(e) => Run(Failure(e), [ValidateCipher(params)])
      case None => After([ValidateCipher(params)], Catch(AesCcm(lib, Decrypting, key, ct, params), DecryptionFailed))
  }

  /** `generateKeyPair`: never supported by this provider. */
  function GenerateKeyPair(): (r: Run<KeyPair>)
    ensures r.result == Failure(Err(NotSupported))
    ensures Primitives(r.calls) == []
  {
    Run(Failure(Err(NotSupported)), [])
  }

  // ---------------------------------------------------------------------------
  // Which primitives run, with which arguments

  /**
   * The primitive calls of an AES-CCM run past both checks: the AES key setup on the
   * decoded key, made whenever the key decodes; then the CCM operation of the direction
   * on the cipher that setup built, the decoded data, IV and additional data, and exactly
   * the requested tag size, made whenever the setup succeeds and all three decode.
   */
  ghost predicate CcmPrimitives(lib: Library, direction: Direction, key: Key, data: Base64String, params: CipherParams, p: seq<Call>) {
    && |p| <= 2
    && (Base64ToBits(lib, Some(key)).result.Success? <==> |p| >= 1)
    && (|p| >= 1 ==> p[0].AesInit? && Base64ToBits(lib, Some(key)).result == Success(p[0].key))
    && (|p| >= 1 ==>
          (|p| == 2 <==>
             && lib.newAes(p[0].key).Success?
             && Base64ToBits(lib, Some(data)).result.Success?
             && Base64ToBits(lib, params.iv).result.Success?
             && Base64ToBits(lib, params.additionalData).result.Success?))
    && (|p| == 2 ==>
          && (p[1].CcmEncrypt? || p[1].CcmDecrypt?)
          && p[1] == CcmCall(direction, p[1].cipher, p[1].data, p[1].iv, p[1].adata, params.tagSize)
          && lib.newAes(p[0].key) == Success(p[1].cipher)
          && Base64ToBits(lib, Some(data)).result == Success(p[1].data)
          && Base64ToBits(lib, params.iv).result == Success(p[1].iv)
          && Base64ToBits(lib, params.additionalData).result == Success(p[1].adata))
  }

  /** The base64url text of what the CCM call `c` returned, when CCM and the encoder both succeeded. */
  ghost function CcmOutputOf(lib: Library, direction: Direction, c: Call): Option<Base64String> {
    if c.CcmEncrypt? || c.CcmDecrypt? then
      match CcmOutcome(lib, direction, c.cipher, c.data, c.iv, c.adata, c.tagSize)
      case Failure(_) => None
      case Success(bits) => lib.base64urlFromBits(bits).ToOption()
    else None
  }

  /** The text an AES-CCM run whose primitive calls are `p` produced, if any: that of its CCM call. */
  ghost function CcmOutput(lib: Library, direction: Direction, p: seq<Call>): Option<Base64String> {
    if |p| == 2 then CcmOutputOf(lib, direction, p[1]) else None
  }

  /**
   * The part after the key setup makes exactly one CCM call when the data, IV and
   * additional data decode, and none otherwise; it succeeds exactly when that call and
   * the encoding of its output succeed, with the encoded output.
   */
  lemma CcmWithPrimitives(lib: Library, direction: Direction, cipher: AesCipher, data: Base64String, params: CipherParams)
    ensures var r := CcmWith(lib, direction, cipher, data, params);
            var p := Primitives(r.calls);
            && |p| <= 1
            && (|p| == 1 <==>
                  && Base64ToBits(lib, Some(data)).result.Success?
                  && Base64ToBits(lib, params.iv).result.Success?
                  && Base64ToBits(lib, params.additionalData).result.Success?)
            && (|p| == 1 ==>
                  && (p[0].CcmEncrypt? || p[0].CcmDecrypt?)
                  && p[0] == CcmCall(direction, cipher, p[0].data, p[0].iv, p[0].adata, params.tagSize)
                  && Base64ToBits(lib, Some(data)).result == Success(p[0].data)
                  && Base64ToBits(lib, params.iv).result == Success(p[0].iv)
                  && Base64ToBits(lib, params.additionalData).result == Success(p[0].adata))
            && r.result.ToOption() == (if |p| == 1 then CcmOutputOf(lib, direction, p[0]) else None)
  {
    var dataBits := Base64ToBits(lib, Some(data));
    if dataBits.result.Success? {
      var iv := Base64ToBits(lib, params.iv);
      if iv.result.Failure? {
        PrimitivesAppend(dataBits.calls, iv.calls);
      } else {
        var adata := Base64ToBits(lib, params.additionalData);
        PrimitivesAppend(dataBits.calls, iv.calls);
        PrimitivesAppend(dataBits.calls + iv.calls, adata.calls);
        if adata.result.Success? {
          var d, v, a := dataBits.result.value, iv.result.value, adata.result.value;
          var out := Invoke(CcmCall(direction, cipher, d, v, a, params.tagSize), CcmOutcome(lib, direction, cipher, d, v, a, params.tagSize));
          var before := dataBits.calls + iv.calls + adata.calls;
          assert Primitives(out.calls) == [CcmCall(direction, cipher, d, v, a, params.tagSize)];
          PrimitivesAppend(before, out.calls);
          if out.result.Success? {
            var encoded := BitsToBase64(lib, out.result.value);
            assert Primitives(encoded.calls) == [];
            PrimitivesAppend(before + out.calls, encoded.calls);
          }
        }
      }
    }
  }

  /**
   * The `try` body of `encrypt` and `decrypt` makes the AES-CCM primitive calls and no
   * other, and succeeds exactly when its CCM call and the encoding of that call's output
   * succeed, with the encoded output.
   */
  lemma AesCcmPrimitives(lib: Library, direction: Direction, key: Key, data: Base64String, params: CipherParams)
    ensures var r := AesCcm(lib, direction, key, data, params);
            && CcmPrimitives(lib, direction, key, data, params, Primitives(r.calls))
            && r.result.ToOption() == CcmOutput(lib, direction, Primitives(r.calls))
  {
    var keyBits := Base64ToBits(lib, Some(key));
    if keyBits.result.Success? {
      var cipher := Invoke(AesInit(keyBits.result.value), lib.newAes(keyBits.result.value));
      assert Primitives(cipher.calls) == [AesInit(keyBits.result.value)];
      PrimitivesAppend(keyBits.calls, cipher.calls);
      if cipher.result.Success? {
        var rest := CcmWith(lib, direction, cipher.result.value, data, params);
        CcmWithPrimitives(lib, direction, cipher.result.value, data, params);
        PrimitivesAppend(keyBits.calls + cipher.calls, rest.calls);
      }
    }
  }

  /**
   * `encrypt` reaches no primitive when either check refuses. Past both checks it sets up
   * AES whenever the key decodes and runs one CCM encryption whenever that setup succeeds
   * and the plaintext, IV and additional data decode, on those inputs and the requested
   * tag size; it returns that encryption's encoded output when CCM and the encoder
   * succeed, and ENCRYPTION_FAILED otherwise.
   */
  lemma EncryptPrimitives(lib: Library, checks: Validators, key: Key, pt: PlainText, params: CipherParams)
    ensures var r := Encrypt(lib, checks, key, pt, params);
            var p := Primitives(r.calls);
            && (!SupportedCipher(params) || checks.cipher(params).Some? ==> p == [])
            && (SupportedCipher(params) && checks.cipher(params).None? ==>
                  && CcmPrimitives(lib, Encrypting, key, pt, params, p)
                  && r.result == match CcmOutput(lib, Encrypting, p)
                                 case Some(ct) => Success(ct)
                                 case None => Failure(Err(EncryptionFailed)))
  {
    if SupportedCipher(params) && checks.cipher(params).None? {
      var body := AesCcm(lib, Encrypting, key, pt, params);
      AesCcmPrimitives(lib, Encrypting, key, pt, params);
      PrimitivesAppend([ValidateCipher(params)], body.calls);
    }
  }

  /**
   * `decrypt` reaches no primitive when either check refuses. Past both checks it sets up
   * AES whenever the key decodes and runs one CCM decryption whenever that setup succeeds
   * and the ciphertext, IV and additional data decode, on those inputs and the requested
   * tag size; it returns that decryption's encoded output when CCM and the encoder
   * succeed, and DECRYPTION_FAILED otherwise.
   */
  lemma DecryptPrimitives(lib: Library, checks: Validators, key: Key, ct: CipherText, params: CipherParams)
    ensures var r := Decrypt(lib, checks, key, ct, params);
            var p := Primitives(r.calls);
            && (!SupportedCipher(params) || checks.cipher(params).Some? ==> p == [])
            && (SupportedCipher(params) && checks.cipher(params).None? ==>
                  && CcmPrimitives(lib, Decrypting, key, ct, params, p)
                  && r.result == match CcmOutput(lib, Decrypting, p)
                                 case Some(pt) => Success(pt)
                                 case None => Failure(Err(DecryptionFailed)))
  {
    if SupportedCipher(params) && checks.cipher(params).None? {
      var body := AesCcm(lib, Decrypting, key, ct, params);
      AesCcmPrimitives(lib, Decrypting, key, ct, params);
      PrimitivesAppend([ValidateCipher(params)], body.calls);
    }
  }

  /**
   * What `deriveKey` does past the validator reaches PBKDF2 exactly when the password and
   * salt can be converted, then once, with the converted values and the requested
   * iteration count and key size. Its outcome is then PBKDF2's exception unchanged, or the
   * encoder's outcome on PBKDF2's output.
   */
  lemma Pbkdf2KeyPrimitives(lib: Library, password: string, params: KeyDerivationParams)
    ensures var r := Pbkdf2Key(lib, password, params);
            var p := Primitives(r.calls);
            && |p| <= 1
            && (|p| == 1 <==> lib.utf8StringToBits(password).Success? && Base64ToBits(lib, params.salt).result.Success?)
            && (|p| == 1 ==>
                  && p[0].Pbkdf2?
                  && p[0].iterations == params.iterations && p[0].keySize == params.keySize
                  && lib.utf8StringToBits(password) == Success(p[0].password)
                  && Base64ToBits(lib, params.salt).result == Success(p[0].salt)
                  && var k := lib.pbkdf2(p[0].password, p[0].salt, p[0].iterations, p[0].keySize);
                     && (k.Failure? ==> r.result == Failure(Raised(k.error)))
                     && (k.Success? ==> r.result == Propagated(lib.base64urlFromBits(k.value))))
  {
    var passwordBits := Utf8ToBits(lib, password);
    if passwordBits.result.Success? {
      var saltBits := Base64ToBits(lib, params.salt);
      PrimitivesAppend(passwordBits.calls, saltBits.calls);
      if saltBits.result.Success? {
        var pw, salt := passwordBits.result.value, saltBits.result.value;
        var k := Invoke(Pbkdf2(pw, salt, params.iterations, params.keySize), lib.pbkdf2(pw, salt, params.iterations, params.keySize));
        assert Primitives(k.calls) == [Pbkdf2(pw, salt, params.iterations, params.keySize)];
        PrimitivesAppend(passwordBits.calls + saltBits.calls, k.calls);
        if k.result.Success? {
          var encoded := BitsToBase64(lib, k.result.value);
          assert Primitives(encoded.calls) == [];
          PrimitivesAppend(passwordBits.calls + saltBits.calls + k.calls, encoded.calls);
        }
      }
    }
  }

  /**
   * `deriveKey` reaches PBKDF2 at most once: never when the validator refuses, always when
   * the password and salt could be converted, and then with the password's UTF-8 bits, the
   * decoded salt and exactly the requested iteration count and key size. Its outcome is
   * then PBKDF2's exception unchanged, or the encoder's outcome on PBKDF2's output.
   */
  lemma DeriveKeyPrimitives(lib: Library, checks: Validators, password: string, params: KeyDerivationParams)
    ensures var r := DeriveKey(lib, checks, password, params);
            var p := Primitives(r.calls);
            && (checks.keyDerivation(params).Some? ==> p == [])
            && |p| <= 1
            && (|p| == 1 <==>
                  && checks.keyDerivation(params).None?
                  && lib.utf8StringToBits(password).Success?
                  && Base64ToBits(lib, params.salt).result.Success?)
            && (|p| == 1 ==>
                  && p[0].Pbkdf2?
                  && p[0].iterations == params.iterations && p[0].keySize == params.keySize
                  && lib.utf8StringToBits(password) == Success(p[0].password)
                  && Base64ToBits(lib, params.salt).result == Success(p[0].salt)
                  && var k := lib.pbkdf2(p[0].password, p[0].salt, p[0].iterations, p[0].keySize);
                     && (k.Failure? ==> r.result == Failure(Raised(k.error)))
                     && (k.Success? ==> r.result == Propagated(lib.base64urlFromBits(k.value))))
  {
    if checks.keyDerivation(params).None? {
      Pbkdf2KeyPrimitives(lib, password, params);
      PrimitivesAppend([ValidateKdf(params)], Pbkdf2Key(lib, password, params).calls);
    }
  }

  /**
   * Key derivation is deterministic in the password, the salt, the iteration count and
   * the key size: once the validator accepts, nothing else of the parameters matters.
   */
  lemma DeriveKeyDependsOnlyOn(lib: Library, checks: Validators, password: string, p1: KeyDerivationParams, p2: KeyDerivationParams)
    requires checks.keyDerivation(p1).None? && checks.keyDerivation(p2).None?
    requires p1.salt == p2.salt && p1.iterations == p2.iterations && p1.keySize == p2.keySize
    ensures DeriveKey(lib, checks, password, p1).result == DeriveKey(lib, checks, password, p2).result
    ensures DeriveKey(lib, checks, password, p1).calls[1..] == DeriveKey(lib, checks, password, p2).calls[1..]
  {
  }
}
