/**
 * Byte-level helpers of the PDF standard and public-key security handlers:
 * password padding and normalisation, the layout of the 48-byte /O and /U
 * entries of revision 6, the "mod 3" step of the revision 6 hash, per-object
 * key derivation for the legacy handlers, the public-key envelope content and
 * the revision 6 /Perms block.
 */
module CryptBytes {
  import opened Wrappers
  import opened Bytes
  import opened Primitives

  /** Outcome of a password or credential check. */
  datatype AuthResult = Failed | User | Owner

  /** The exceptions the security handlers raise, one per distinct cause. */
  datatype CryptError =
    | PermissionsTampered     // the file key does not decrypt /Perms as expected
    | KeyLengthOutOfRange     // a legacy handler with a key length outside [5, 16]
    | NoCryptFilterConfig     // a handler without crypt filters
    | BadEntryLengths         // /O, /U, /OE, /UE or /Perms of the wrong length
    | AuthenticationFailed    // a key was asked for after a failed authentication
    | NotAuthenticated        // a key was asked for before authenticating
    | MissingFileId           // a legacy check without the first file identifier
    | PermsOutOfRange         // /P does not pack as a 32-bit integer
    | UnsupportedRevision     // the legacy builder was asked for revision 6
    | UnsupportedKeyLength    // an AES crypt filter with a key of neither 16 nor 32 bytes
    | RecipientsNotAllowed    // recipients added to a non-default public-key filter
    | RecipientsLocked        // recipients added once the key is derived, or without a seed
    | ShortSeed               // a seed of other than 20 bytes reached the envelope content
    | NoSeed                  // the public-key file key derived without a seed
    | UnknownCryptFilter      // a crypt filter name not in /CF
    | MalformedEntry          // a dictionary entry missing or of the wrong kind
    | UnsupportedMethod       // a /CFM this code does not implement
    | KeyLengthNotByteMultiple // a /Length that is not a multiple of 8
    | IdentityNotSerialisable // the identity crypt filter has no dictionary
    | UnsupportedSubFilter    // a public-key handler of version 4 or up without /adbe.pkcs7.s5
    | WrongHandlerKind        // a crypt filter bound to a handler of the other kind (`TypeError`)

  /** The result of a password check, and the file key on success. */
  datatype Outcome = Outcome(result: AuthResult, key: Option<seq<byte>>)

  /** The 32-byte padding string of Algorithm 2 in section 7.6.3.3 of ISO 32000-1. */
  const Padding: seq<byte> := [
    0x28, 0xbf, 0x4e, 0x5e, 0x4e, 0x75, 0x8a, 0x41, 0x64, 0x00, 0x4e, 0x56,
    0xff, 0xfa, 0x01, 0x08, 0x2e, 0x2e, 0x00, 0xb6, 0xd0, 0x68, 0x3e, 0x80,
    0x2f, 0x0c, 0xa9, 0xfe, 0x64, 0x53, 0x69, 0x7a]

  /** A password padded (or truncated) to exactly 32 bytes. */
  function PadPassword(pw: seq<byte>): (r: seq<byte>)
    ensures |r| == 32
    ensures |pw| >= 32 ==> r == pw[..32]
    ensures |pw| < 32 ==> r[..|pw|] == pw && r[|pw|..] == Padding[..32 - |pw|]
  {
    (pw + Padding)[..32]
  }

  /** Padding a password that is already 32 bytes long leaves it unchanged. */
  lemma PadPasswordIdempotent(pw: seq<byte>)
    ensures PadPassword(PadPassword(pw)) == PadPassword(pw)
  {
  }

  /** Legacy handlers use at most the first 32 bytes of a byte-string password. */
  function NormaliseLegacyPassword(pw: seq<byte>): (r: seq<byte>)
    ensures |r| <= 32 && r <= pw
    ensures |pw| <= 32 ==> r == pw
  {
    Prefix(pw, 32)
  }

  /** Revision 6 uses at most the first 127 bytes of a byte-string password. */
  function NormaliseR6Password(pw: seq<byte>): (r: seq<byte>)
    ensures |r| <= 127 && r <= pw
    ensures |pw| <= 127 ==> r == pw
  {
    Prefix(pw, 127)
  }

  lemma NormaliseIdempotent(pw: seq<byte>)
    ensures NormaliseLegacyPassword(NormaliseLegacyPassword(pw)) == NormaliseLegacyPassword(pw)
    ensures NormaliseR6Password(NormaliseR6Password(pw)) == NormaliseR6Password(pw)
  {
  }

  /** A revision 6 /O or /U entry: a 32-byte hash, an 8-byte validation salt and an 8-byte key salt. */
  datatype R6KeyEntry = R6KeyEntry(hashValue: seq<byte>, validationSalt: seq<byte>, keySalt: seq<byte>)
  {
    ghost predicate WellFormed() {
      |hashValue| == 32 && |validationSalt| == 8 && |keySalt| == 8
    }

    function ToBytes(): (r: seq<byte>)
      requires WellFormed()
      ensures |r| == 48
    {
      hashValue + validationSalt + keySalt
    }
  }

  /** Splitting a 48-byte entry; the source asserts the length. */
  function R6KeyEntryFromBytes(entry: seq<byte>): (r: R6KeyEntry)
    requires |entry| == 48
    ensures r.WellFormed()
    ensures r.ToBytes() == entry
  {
    R6KeyEntry(entry[..32], entry[32..40], entry[40..48])
  }

  /** Splitting the concatenation of the three parts gives the parts back. */
  lemma R6KeyEntryRoundTrip(e: R6KeyEntry)
    requires e.WellFormed()
    ensures R6KeyEntryFromBytes(e.ToBytes()) == e
  {
    var b := e.ToBytes();
    assert b[..32] == e.hashValue;
    assert b[32..40] == e.validationSalt;
    assert b[40..48] == e.keySalt;
  }

  /** The sum of the bytes, each reduced modulo 3, reduced modulo 3. */
  function BytesMod3(s: seq<byte>): (r: nat)
    ensures r < 3
  {
    SumMod3Terms(s) % 3
  }

  function SumMod3Terms(s: seq<byte>): nat {
    if s == [] then 0 else SumMod3Terms(s[..|s| - 1]) + s[|s| - 1] % 3
  }

  /**
   * Algorithm 2.B of section 7.6.4.3.4 of ISO 32000-2 asks for the big-endian
   * value of the bytes modulo 3; because 256 is 1 modulo 3, summing the bytes
   * gives the same residue.
   */
  lemma {:induction false} BytesMod3IsBigEndianMod3(s: seq<byte>)
    ensures BytesMod3(s) == FromBE(s) % 3
  {
    BigEndianCongruent(s);
  }

  lemma {:induction false} BigEndianCongruent(s: seq<byte>)
    ensures (FromBE(s) - SumMod3Terms(s)) % 3 == 0
  {
    if s != [] {
      var p := s[..|s| - 1];
      var b := s[|s| - 1];
      BigEndianCongruent(p);
      var d := FromBE(p) - SumMod3Terms(p);
      assert FromBE(s) - SumMod3Terms(s) == 3 * (85 * FromBE(p)) + d + (b - b % 3);
    }
  }

  /**
   * The input of the per-object key digest of Algorithm 1 in section 7.6.2 of
   * ISO 32000-1: the file key, the low three bytes of the object number and
   * the low two bytes of the generation number (little-endian), then "sAlT"
   * for AES.
   */
  function ObjectKeyInput(sharedKey: seq<byte>, idnum: int, generation: int, useAes: bool): (r: seq<byte>)
    requires IsInt32(idnum) && IsInt32(generation)
    ensures |r| == |sharedKey| + 5 + (if useAes then 4 else 0)
    ensures r[..|sharedKey|] == sharedKey
    ensures r[|sharedKey|..|sharedKey| + 3] == PackInt32LE(idnum)[..3]
    ensures r[|sharedKey| + 3..|sharedKey| + 5] == PackInt32LE(generation)[..2]
    ensures useAes ==> r[|sharedKey| + 5..] == SaltSuffix
  {
    var key := sharedKey + PackInt32LE(idnum)[..3] + PackInt32LE(generation)[..2];
    if useAes then key + SaltSuffix else key
  }

  /** The bytes of "sAlT". */
  const SaltSuffix: seq<byte> := [0x73, 0x41, 0x6c, 0x54]

  /** The per-object key of the RC4 and AES-128 handlers. */
  function LegacyObjectKey(md5: Digest16, sharedKey: seq<byte>, idnum: int, generation: int, useAes: bool): (r: seq<byte>)
    requires IsInt32(idnum) && IsInt32(generation)
    ensures |r| == if |sharedKey| + 5 < 16 then |sharedKey| + 5 else 16
    ensures r <= md5(ObjectKeyInput(sharedKey, idnum, generation, useAes))
  {
    var n := if |sharedKey| + 5 < 16 then |sharedKey| + 5 else 16;
    md5(ObjectKeyInput(sharedKey, idnum, generation, useAes))[..n]
  }

  /** Objects that differ in number modulo 2^24 are keyed from different digest inputs. */
  lemma ObjectKeyInputSeparatesObjects(sharedKey: seq<byte>, id1: int, id2: int, gen: int, useAes: bool)
    requires IsInt32(id1) && IsInt32(id2) && IsInt32(gen)
    requires PackInt32LE(id1)[..3] != PackInt32LE(id2)[..3]
    ensures ObjectKeyInput(sharedKey, id1, gen, useAes) != ObjectKeyInput(sharedKey, id2, gen, useAes)
  {
    var a := ObjectKeyInput(sharedKey, id1, gen, useAes);
    var b := ObjectKeyInput(sharedKey, id2, gen, useAes);
    assert a[|sharedKey|..|sharedKey| + 3] != b[|sharedKey|..|sharedKey| + 3];
  }

  /**
   * The content enveloped for each recipient by the public-key handler: the
   * 20-byte seed, followed by the permission flags (int32, little-endian)
   * when asked for. The source asserts the seed length.
   */
  function EnvelopeContent(seed: seq<byte>, perms: int, includePermissions: bool): (r: seq<byte>)
    requires |seed| == 20
    requires includePermissions ==> IsInt32(perms)
    ensures |r| == if includePermissions then 24 else 20
    ensures r[..20] == seed
    ensures includePermissions ==> UnpackInt32LE(r[20..]) == perms
  {
    seed + (if includePermissions then PackInt32LE(perms) else [])
  }

  /** Every permission granted: the /P value the builders write. */
  const AllPerms: int := -4

  /** The permission flags the revision 6 builder writes: every permission granted. */
  const AllPermsBytes: seq<byte> := [0xfc, 0xff, 0xff, 0xff]

  lemma AllPermsValue()
    ensures UnpackInt32LE(AllPermsBytes) == -4
  {
    assert FromLE(AllPermsBytes) == 0xffff_fffc by {
      assert AllPermsBytes[1..][1..][1..][1..] == [];
    }
  }

  /**
   * The 16-byte plaintext of the revision 6 /Perms entry: flags, four 0xff
   * bytes, 'T' (metadata encrypted), "adb" and four random bytes.
   */
  function PermsBlock(random4: seq<byte>): (r: seq<byte>)
    requires |random4| == 4
    ensures |r| == 16
    ensures r[..4] == AllPermsBytes && r[8] == 0x54 && r[9..12] == [0x61, 0x64, 0x62]
  {
    AllPermsBytes + [0xff, 0xff, 0xff, 0xff] + [0x54, 0x61, 0x64, 0x62] + random4
  }

  /** The metadata flag byte 8 of a decrypted /Perms block stands for, if any. */
  function ExpectedPerms8(b: byte): (r: Option<bool>)
    ensures r == Some(true) <==> b == 0x54
    ensures r == Some(false) <==> b == 0x46
  {
    if b == 0x54 then Some(true) else if b == 0x46 then Some(false) else None
  }

  /**
   * The check of a decrypted /Perms block: "adb" at bytes 9-11, the flags in
   * bytes 0-3 equal to /P, and byte 8 a known flag equal to /EncryptMetadata.
   */
  predicate PermsOk(decrypted: seq<byte>, perms: int, encryptMetadata: bool)
    requires |decrypted| == 16
  {
    decrypted[9..12] == [0x61, 0x64, 0x62] &&
    perms == UnpackInt32LE(decrypted[..4]) &&
    ExpectedPerms8(decrypted[8]) == Some(encryptMetadata)
  }

  /** A block written by the builder passes the check against /P = -4 with metadata encrypted. */
  lemma PermsBlockAccepted(random4: seq<byte>)
    requires |random4| == 4
    ensures PermsOk(PermsBlock(random4), -4, true)
    ensures !PermsOk(PermsBlock(random4), -4, false)
  {
    AllPermsValue();
  }

  /** A block whose byte 8 is neither 'T' nor 'F' fails the check whatever the flags. */
  lemma PermsUnknownFlagRejected(decrypted: seq<byte>, perms: int, encryptMetadata: bool)
    requires |decrypted| == 16 && decrypted[8] != 0x54 && decrypted[8] != 0x46
    ensures !PermsOk(decrypted, perms, encryptMetadata)
  {
  }
}
