/**
 * The record of what a provider operation calls outside itself, in order, and the
 * small combinators that thread that record through straight-line code that may throw.
 */
module Calls {
  import opened Results
  import opened Sjcl
  import opened Crypto

  /** One call out of the provider, with the arguments it was given. */
  datatype Call =
    | ValidateKdf(kdf: KeyDerivationParams)
    | ValidateCipher(cipherParams: CipherParams)
    | Utf8Encode(text: string)
    | UrlDecode(encoded: Option<Base64String>)
    | StdDecode(encoded: Option<Base64String>)
    | UrlEncode(bits: BitArray)
    | Pbkdf2(password: BitArray, salt: BitArray, iterations: int, keySize: int)
    | AesInit(key: BitArray)
    | CcmEncrypt(cipher: AesCipher, data: BitArray, iv: BitArray, adata: BitArray, tagSize: int)
    | CcmDecrypt(cipher: AesCipher, data: BitArray, iv: BitArray, adata: BitArray, tagSize: int)
    | DrawWords(words: int, paranoia: int)
    | DrawBytes(bytes: real)
  {
    /** The cryptographic primitives and random generators, as opposed to codecs and validators. */
    predicate IsPrimitive() {
      Pbkdf2? || AesInit? || CcmEncrypt? || CcmDecrypt? || DrawWords? || DrawBytes?
    }
  }

  /** The outcome of an operation together with every outside call it made. */
  datatype Run<+T> = Run(result: Result<T, Failure>, calls: seq<Call>)

  /** The primitive calls of a trace, in order. */
  function Primitives(calls: seq<Call>): (r: seq<Call>)
  {
    if calls == [] then []
    else if calls[0].IsPrimitive() then [calls[0]] + Primitives(calls[1..])
    else Primitives(calls[1..])
  }

  /** Primitives of two traces run one after the other. */
  lemma {:induction false} PrimitivesAppend(a: seq<Call>, b: seq<Call>)
    ensures Primitives(a + b) == Primitives(a) + Primitives(b)
  {
    if a == [] {
      assert a + b == b;
    } else {
      assert (a + b)[1..] == a[1..] + b;
      PrimitivesAppend(a[1..], b);
    }
  }

  /** What the provider makes of a library call's outcome when it does not catch: its value, or its exception unchanged. */
  function Propagated<T>(outcome: Result<T, Thrown>): Result<T, Failure> {
    match outcome
    case Success(v) => Success(v)
    case Failure(t) => Failure(Raised(t))
  }

  /** One call outside the provider: recorded, and whatever it throws propagates unchanged. */
  function Invoke<T>(call: Call, outcome: Result<T, Thrown>): Run<T> {
    Run(Propagated(outcome), [call])
  }

  /** A throw that skips the rest of the code: the same error, the same calls. */
  function Abort<T, U>(r: Run<T>): Run<U>
    requires r.result.Failure?
  {
    Run(Failure(r.result.error), r.calls)
  }

  /** `r`, preceded by the calls made before it. */
  function After<T>(earlier: seq<Call>, r: Run<T>): Run<T> {
    Run(r.result, earlier + r.calls)
  }

  /** `try { body } catch { throw new Err(code) }`. */
  function Catch<T>(body: Run<T>, code: ErrorCode): Run<T> {
    match body.result
    case Failure(_) => Run(Failure(Err(code)), body.calls)
    case Success(_) => body
  }
}
