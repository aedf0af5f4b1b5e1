/**
 * The cryptographic primitives the security handlers call (MD5, SHA-1,
 * SHA-2, RC4 and AES in CBC mode) are opaque here: each is a function value
 * whose type records only the facts the handlers rely on — digest lengths,
 * that RC4 with a fixed key undoes itself, and that AES-CBC decryption
 * inverts encryption on whole blocks.
 */
module Primitives {
  import opened Bytes

  type Bytes16 = s: seq<byte> | |s| == 16 witness Zeros(16)
  type Bytes20 = s: seq<byte> | |s| == 20 witness Zeros(20)
  type Bytes32 = s: seq<byte> | |s| == 32 witness Zeros(32)
  type Bytes48 = s: seq<byte> | |s| == 48 witness Zeros(48)
  type Bytes64 = s: seq<byte> | |s| == 64 witness Zeros(64)

  /** MD5 (RFC 1321). */
  type Digest16 = seq<byte> -> Bytes16
  /** SHA-1 (FIPS 180-4). */
  type Digest20 = seq<byte> -> Bytes20
  /** SHA-256. */
  type Digest32 = seq<byte> -> Bytes32
  /** SHA-384. */
  type Digest48 = seq<byte> -> Bytes48
  /** SHA-512. */
  type Digest64 = seq<byte> -> Bytes64

  /** RC4 as `rc4(key, data)`: a keystream XOR, so it keeps the length and is an involution. */
  ghost predicate IsStreamCipher(f: (seq<byte>, seq<byte>) -> seq<byte>) {
    (forall k, d :: |f(k, d)| == |d|) &&
    (forall k, d {:trigger f(k, f(k, d))} :: f(k, f(k, d)) == d)
  }

  type Rc4 = f: (seq<byte>, seq<byte>) -> seq<byte> | IsStreamCipher(f)
    witness (k: seq<byte>, d: seq<byte>) => d

  /** AES in CBC mode without padding, as `f(key, data, iv)`; whole blocks keep their length. */
  type AesCbc = f: (seq<byte>, seq<byte>, seq<byte>) -> seq<byte> | forall k, d, iv :: |d| % 16 == 0 ==> |f(k, d, iv)| == |d|
    witness (k: seq<byte>, d: seq<byte>, iv: seq<byte>) => d

  /** Decryption undoes encryption under the same key and IV, on whole blocks. */
  ghost predicate Inverts(decrypt: AesCbc, encrypt: AesCbc) {
    forall k, d, iv {:trigger decrypt(k, encrypt(k, d, iv), iv)} :: |d| % 16 == 0 ==> decrypt(k, encrypt(k, d, iv), iv) == d
  }

  /** AES in CBC mode with PKCS#7 padding, as `f(key, data, iv)`; it accepts data of any length. */
  type AesCbcPadded = (seq<byte>, seq<byte>, seq<byte>) -> seq<byte>

  /** Padded decryption undoes padded encryption under the same key and IV. */
  ghost predicate InvertsPadded(decrypt: AesCbcPadded, encrypt: AesCbcPadded) {
    forall k, d, iv {:trigger decrypt(k, encrypt(k, d, iv), iv)} :: |iv| == 16 ==> decrypt(k, encrypt(k, d, iv), iv) == d
  }
}
