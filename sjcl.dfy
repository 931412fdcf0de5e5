/**
 * The slice of the vendored SJCL library that the provider calls. None of its code
 * is part of this model: every entry point is an uninterpreted function, handed to
 * the provider as a field of `Library`, that may return a value or throw.
 */
module Sjcl {
  import opened Results

  /** One 32-bit word of an SJCL bit array. */
  newtype Word = x: int | 0 <= x < 0x1_0000_0000

  /** SJCL's bit array: a sequence of words (how a partial last word is marked is SJCL's business). */
  type BitArray = seq<Word>

  /** Whatever SJCL throws; the provider never looks inside it. */
  datatype Thrown = Thrown(name: string, message: string)

  /** The object built by `new sjcl.cipher.aes(key)`; its key schedule stays inside SJCL. */
  datatype AesCipher = AesCipher(handle: nat)

  /**
   * SJCL's entry points as seen by one call of the provider. The random generators are
   * values here too: a `Library` fixes what the generator hands out for that call.
   */
  datatype Library = Library(
    base64urlFromBits: BitArray -> Result<string, Thrown>,                                  // sjcl.codec.base64url.fromBits
    base64urlToBits: Option<string> -> Result<BitArray, Thrown>,                            // sjcl.codec.base64url.toBits
    base64ToBits: Option<string> -> Result<BitArray, Thrown>,                               // sjcl.codec.base64.toBits
    utf8StringToBits: string -> Result<BitArray, Thrown>,                                   // sjcl.codec.utf8String.toBits
    pbkdf2: (BitArray, BitArray, int, int) -> Result<BitArray, Thrown>,                     // sjcl.misc.pbkdf2
    newAes: BitArray -> Result<AesCipher, Thrown>,                                          // new sjcl.cipher.aes
    ccmEncrypt: (AesCipher, BitArray, BitArray, BitArray, int) -> Result<BitArray, Thrown>, // sjcl.mode.ccm.encrypt
    ccmDecrypt: (AesCipher, BitArray, BitArray, BitArray, int) -> Result<BitArray, Thrown>, // sjcl.mode.ccm.decrypt
    randomWords: (int, int) -> Result<BitArray, Thrown>,                                    // sjcl.random.randomWords
    randomBytes: real -> Result<string, Thrown>                                             // sjcl.randomBytes
  )
}
