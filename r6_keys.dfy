/**
 * The AES-256 standard security handler (revision 6): the iterated hash of
 * Algorithm 2.B in section 7.6.4.3.4 of ISO 32000-2, the construction of the
 * /U, /UE, /O, /OE and /Perms entries, and Algorithm 2.A (authentication and
 * the /Perms check).
 */
module R6Keys {
  import opened Wrappers
  import opened Bytes
  import opened Primitives
  import opened CryptBytes

  /** The primitives revision 6 uses: SHA-256/384/512 and AES-CBC without padding. */
  datatype R6Crypto = R6Crypto(
    sha256: Digest32, sha384: Digest48, sha512: Digest64,
    encrypt: AesCbc, decrypt: AesCbc)

  /** SHA-256, -384 or -512 of `e`, picked by its first 16 bytes modulo 3. */
  function RoundHash(c: R6Crypto, e: seq<byte>): (r: seq<byte>)
    requires |e| >= 16
    ensures |r| == 32 || |r| == 48 || |r| == 64
  {
    match BytesMod3(e[..16])
    case 0 => c.sha256(e)
    case 1 => c.sha384(e)
    case _ => c.sha512(e)
  }

  lemma Repeat64Blocks(x: seq<byte>)
    ensures |Repeat(x, 64)| % 16 == 0
  {
    assert |Repeat(x, 64)| == 16 * (4 * |x|);
  }

  /** One round's AES input: `(pw + k + u) * 64`, a whole number of blocks. */
  function RoundInput(pw: seq<byte>, k: seq<byte>, u: seq<byte>): (r: seq<byte>)
    requires |k| >= 32
    ensures |r| % 16 == 0 && |r| >= 64 * 32
  {
    Repeat64Blocks(pw + k + u);
    Repeat(pw + k + u, 64)
  }

  /** One round's AES-128-CBC output, keyed and seeded by the current hash. */
  function RoundCipher(c: R6Crypto, pw: seq<byte>, u: seq<byte>, k: seq<byte>): (e: seq<byte>)
    requires |k| >= 32
    ensures |e| % 16 == 0 && |e| >= 64 * 32
  {
    c.encrypt(k[..16], RoundInput(pw, k, u), k[16..32])
  }

  datatype RoundOut = RoundOut(k: seq<byte>, lastByte: byte)

  function Round(c: R6Crypto, pw: seq<byte>, u: seq<byte>, k: seq<byte>): (s: RoundOut)
    requires |k| >= 32
    ensures |s.k| >= 32
  {
    var e := RoundCipher(c, pw, u, k);
    RoundOut(RoundHash(c, e), e[|e| - 1])
  }

  /** The state the loop of Algorithm 2.B ends in: the hash and the number of rounds run. */
  datatype HashRun = HashRun(k: seq<byte>, rounds: nat)

  /**
   * The loop of Algorithm 2.B from round `roundNo` with current hash `k`:
   * rounds continue while fewer than 64 have run or the last byte of the
   * previous AES output exceeds the round number minus 32.
   */
  function R6Loop(c: R6Crypto, pw: seq<byte>, u: seq<byte>, k: seq<byte>, roundNo: nat, lastByte: byte): (r: HashRun)
    requires |k| >= 32 && roundNo <= 287
    ensures |r.k| == 32
    ensures 64 <= r.rounds <= 287 && r.rounds >= roundNo
    decreases 288 - roundNo
  {
    if roundNo < 64 || lastByte > roundNo - 32 then
      var s := Round(c, pw, u, k);
      R6Loop(c, pw, u, s.k, roundNo + 1, s.lastByte)
    else
      HashRun(k[..32], roundNo)
  }

  /** Algorithm 2.B: the 32-byte hash of a password, an 8-byte salt and (for the owner) the 48-byte /U entry. */
  function R6Hash(c: R6Crypto, pw: seq<byte>, salt: seq<byte>, u: seq<byte>): (r: seq<byte>)
    requires |salt| == 8 && (|u| == 0 || |u| == 48)
    ensures |r| == 32
  {
    R6Loop(c, pw, u, c.sha256(pw + salt + u), 0, 0).k
  }

  /** Algorithm 2.B runs at least 64 and at most 287 rounds. */
  lemma R6HashRoundBounds(c: R6Crypto, pw: seq<byte>, salt: seq<byte>, u: seq<byte>)
    requires |salt| == 8 && (|u| == 0 || |u| == 48)
    ensures var run := R6Loop(c, pw, u, c.sha256(pw + salt + u), 0, 0);
            64 <= run.rounds <= 287
  {
  }

  method ComputeR6Hash(c: R6Crypto, pw: seq<byte>, salt: seq<byte>, u: seq<byte>) returns (r: seq<byte>)
    requires |salt| == 8 && (|u| == 0 || |u| == 48)
    ensures r == R6Hash(c, pw, salt, u)
  {
    var k: seq<byte> := c.sha256(pw + salt + u);
    ghost var k0 := k;
    var roundNo: nat := 0;
    var lastByte: byte := 0;
    while roundNo < 64 || lastByte > roundNo - 32
      invariant |k| >= 32 && roundNo <= 287
      invariant R6Loop(c, pw, u, k, roundNo, lastByte) == R6Loop(c, pw, u, k0, 0, 0)
      decreases 288 - roundNo
    {
      var s := Round(c, pw, u, k);
      k, lastByte, roundNo := s.k, s.lastByte, roundNo + 1;
    }
    r := k[..32];
  }

  /** The revision 6 entries of an encryption dictionary. */
  datatype R6Entries = R6Entries(
    o: seq<byte>, u: seq<byte>, oe: seq<byte>, ue: seq<byte>,
    encryptedPerms: seq<byte>, perms: int, encryptMetadata: bool)
  {
    /** The lengths the handler's constructor insists on for revision 6. */
    predicate WellFormed() {
      |o| == 48 && |u| == 48 && |oe| == 32 && |ue| == 32 && |encryptedPerms| == 16
    }
  }

  /** The random values the revision 6 builder draws. */
  datatype R6Randomness = R6Randomness(
    fileKey: seq<byte>, uValidationSalt: seq<byte>, uKeySalt: seq<byte>,
    oValidationSalt: seq<byte>, oKeySalt: seq<byte>, permsFiller: seq<byte>)
  {
    predicate WellFormed() {
      |fileKey| == 32 && |uValidationSalt| == 8 && |uKeySalt| == 8 &&
      |oValidationSalt| == 8 && |oKeySalt| == 8 && |permsFiller| == 4
    }
  }

  /** The /U entry: the user password's hash, its validation salt and its key salt. */
  function UserEntry(c: R6Crypto, userPw: seq<byte>, rnd: R6Randomness): (r: R6KeyEntry)
    requires rnd.WellFormed()
    ensures r.WellFormed()
  {
    R6KeyEntry(R6Hash(c, userPw, rnd.uValidationSalt, []), rnd.uValidationSalt, rnd.uKeySalt)
  }

  /** The /O entry: the owner password's hash (over the /U entry too), its validation salt and its key salt. */
  function OwnerEntry(c: R6Crypto, ownerPw: seq<byte>, rnd: R6Randomness, u: seq<byte>): (r: R6KeyEntry)
    requires rnd.WellFormed() && |u| == 48
    ensures r.WellFormed()
  {
    R6KeyEntry(R6Hash(c, ownerPw, rnd.oValidationSalt, u), rnd.oValidationSalt, rnd.oKeySalt)
  }

  /** Building the revision 6 entries; a missing user password defaults to the owner password. */
  function BuildR6(c: R6Crypto, owner: seq<byte>, user: Option<seq<byte>>, rnd: R6Randomness): (r: R6Entries)
    requires rnd.WellFormed()
    ensures r.WellFormed() && r.perms == -4 && r.encryptMetadata
  {
    var ownerPw := NormaliseR6Password(owner);
    var userPw := if user.Some? then NormaliseR6Password(user.value) else ownerPw;
    var zeroIv := Zeros(16);
    var uEntry := UserEntry(c, userPw, rnd).ToBytes();
    var ue := c.encrypt(R6Hash(c, userPw, rnd.uKeySalt, []), rnd.fileKey, zeroIv);
    var oEntry := OwnerEntry(c, ownerPw, rnd, uEntry).ToBytes();
    var oe := c.encrypt(R6Hash(c, ownerPw, rnd.oKeySalt, uEntry), rnd.fileKey, zeroIv);
    AllPermsValue();
    var encryptedPerms := c.encrypt(rnd.fileKey, PermsBlock(rnd.permsFiller), zeroIv);
    R6Entries(oEntry, uEntry, oe, ue, encryptedPerms, UnpackInt32LE(AllPermsBytes), true)
  }

  /** Whether `pw` reproduces the hash of an entry; `u` is /U for the owner check and empty for the user check. */
  predicate PasswordMatches(c: R6Crypto, pw: seq<byte>, entry: seq<byte>, u: seq<byte>)
    requires |entry| == 48 && (|u| == 0 || |u| == 48)
  {
    var split := R6KeyEntryFromBytes(entry);
    R6Hash(c, pw, split.validationSalt, u) == split.hashValue
  }

  /** The file key recovered from /OE or /UE with the intermediate key of `pw`. */
  function DeriveFileKey(c: R6Crypto, pw: seq<byte>, entry: seq<byte>, encrypted: seq<byte>, u: seq<byte>): (r: seq<byte>)
    requires |entry| == 48 && |encrypted| == 32 && (|u| == 0 || |u| == 48)
    ensures |r| == 32
  {
    var split := R6KeyEntryFromBytes(entry);
    c.decrypt(R6Hash(c, pw, split.keySalt, u), encrypted, Zeros(16))
  }

  /** Algorithm 2.A: owner check first, then user check, then the /Perms check (an error when it fails). */
  function R6Check(c: R6Crypto, e: R6Entries, pw: seq<byte>): (r: Result<Outcome, CryptError>)
    requires e.WellFormed()
    ensures r.Ok? && r.value.result != Failed ==>
      r.value.key.Some? && PermsOk(c.decrypt(r.value.key.value, e.encryptedPerms, Zeros(16)), e.perms, e.encryptMetadata)
    ensures r.Err? ==> r.error == PermissionsTampered
    ensures r.Ok? ==> (r.value.result == Failed <==> r.value.key == None)
  {
    var outcome :=
      if PasswordMatches(c, pw, e.o, e.u) then
        Outcome(Owner, Some(DeriveFileKey(c, pw, e.o, e.oe, e.u)))
      else if PasswordMatches(c, pw, e.u, []) then
        Outcome(User, Some(DeriveFileKey(c, pw, e.u, e.ue, [])))
      else
        Outcome(Failed, None);
    if outcome.key == None then Ok(outcome)
    else if PermsOk(c.decrypt(outcome.key.value, e.encryptedPerms, Zeros(16)), e.perms, e.encryptMetadata) then Ok(outcome)
    else Err(PermissionsTampered)
  }

  /**
   * Which password gives which result under algorithm 2.A: one matching /O
   * (hashed with /U) is the owner's, with the key recovered from /OE;
   * otherwise one matching /U is the user's, with the key from /UE;
   * otherwise authentication fails. A key found stands only if /Perms
   * decrypts under it to a block that passes the check.
   */
  lemma R6CheckOutcome(c: R6Crypto, e: R6Entries, pw: seq<byte>)
    requires e.WellFormed()
    ensures PasswordMatches(c, pw, e.o, e.u) ==>
      var key := DeriveFileKey(c, pw, e.o, e.oe, e.u);
      R6Check(c, e, pw) == (if PermsOk(c.decrypt(key, e.encryptedPerms, Zeros(16)), e.perms, e.encryptMetadata)
                            then Ok(Outcome(Owner, Some(key))) else Err(PermissionsTampered))
    ensures !PasswordMatches(c, pw, e.o, e.u) && PasswordMatches(c, pw, e.u, []) ==>
      var key := DeriveFileKey(c, pw, e.u, e.ue, []);
      R6Check(c, e, pw) == (if PermsOk(c.decrypt(key, e.encryptedPerms, Zeros(16)), e.perms, e.encryptMetadata)
                            then Ok(Outcome(User, Some(key))) else Err(PermissionsTampered))
    ensures !PasswordMatches(c, pw, e.o, e.u) && !PasswordMatches(c, pw, e.u, []) ==> R6Check(c, e, pw) == Ok(Outcome(Failed, None))
  {
  }

  /** Checks `pw` against the hash and validation salt of a /U or /O entry. */
  method MatchPassword(c: R6Crypto, pw: seq<byte>, entry: seq<byte>, u: seq<byte>) returns (b: bool)
    requires |entry| == 48 && (|u| == 0 || |u| == 48)
    ensures b == PasswordMatches(c, pw, entry, u)
  {
    var split := R6KeyEntryFromBytes(entry);
    var h := ComputeR6Hash(c, pw, split.validationSalt, u);
    b := h == split.hashValue;
  }

  /** Decrypts /OE or /UE with the intermediate key of `pw` and the entry's key salt. */
  method RecoverFileKey(c: R6Crypto, pw: seq<byte>, entry: seq<byte>, encrypted: seq<byte>, u: seq<byte>) returns (r: seq<byte>)
    requires |entry| == 48 && |encrypted| == 32 && (|u| == 0 || |u| == 48)
    ensures r == DeriveFileKey(c, pw, entry, encrypted, u)
  {
    var split := R6KeyEntryFromBytes(entry);
    var interm := ComputeR6Hash(c, pw, split.keySalt, u);
    r := c.decrypt(interm, encrypted, Zeros(16));
  }

  /** Algorithm 2.A on a credential, which is first normalised and truncated. */
  function R6Authenticate(c: R6Crypto, e: R6Entries, credential: seq<byte>): Result<Outcome, CryptError>
    requires e.WellFormed()
  {
    R6Check(c, e, NormaliseR6Password(credential))
  }

  method AuthenticateR6(c: R6Crypto, e: R6Entries, credential: seq<byte>) returns (r: Result<Outcome, CryptError>)
    requires e.WellFormed()
    ensures r == R6Authenticate(c, e, credential)
  {
    var pw := NormaliseR6Password(credential);
    var outcome;
    var ownerOk := MatchPassword(c, pw, e.o, e.u);
    if ownerOk {
      var key := RecoverFileKey(c, pw, e.o, e.oe, e.u);
      outcome := Outcome(Owner, Some(key));
    } else {
      var userOk := MatchPassword(c, pw, e.u, []);
      if userOk {
        var key := RecoverFileKey(c, pw, e.u, e.ue, []);
        outcome := Outcome(User, Some(key));
      } else {
        return Ok(Outcome(Failed, None));
      }
    }
    var decrypted := c.decrypt(outcome.key.value, e.encryptedPerms, Zeros(16));
    if PermsOk(decrypted, e.perms, e.encryptMetadata) {
      r := Ok(outcome);
    } else {
      r := Err(PermissionsTampered);
    }
  }

  /** The salts the builder drew are where the /U and /O entries keep them. */
  lemma BuiltEntriesSplit(c: R6Crypto, owner: seq<byte>, user: Option<seq<byte>>, rnd: R6Randomness)
    requires rnd.WellFormed()
    ensures var e := BuildR6(c, owner, user, rnd);
            var oSplit := R6KeyEntryFromBytes(e.o);
            var uSplit := R6KeyEntryFromBytes(e.u);
            oSplit.validationSalt == rnd.oValidationSalt && oSplit.keySalt == rnd.oKeySalt &&
            uSplit.validationSalt == rnd.uValidationSalt && uSplit.keySalt == rnd.uKeySalt
  {
    var ownerPw := NormaliseR6Password(owner);
    var userPw := if user.Some? then NormaliseR6Password(user.value) else ownerPw;
    var uEntry := UserEntry(c, userPw, rnd);
    R6KeyEntryRoundTrip(uEntry);
    R6KeyEntryRoundTrip(OwnerEntry(c, ownerPw, rnd, uEntry.ToBytes()));
  }

  /** The owner password of freshly built entries authenticates as the owner with the drawn file key. */
  lemma BuildThenOwnerAuthenticatesR6(c: R6Crypto, owner: seq<byte>, user: Option<seq<byte>>, rnd: R6Randomness)
    requires rnd.WellFormed() && Inverts(c.decrypt, c.encrypt)
    ensures R6Authenticate(c, BuildR6(c, owner, user, rnd), owner) == Ok(Outcome(Owner, Some(rnd.fileKey)))
  {
    var e := BuildR6(c, owner, user, rnd);
    var ownerPw := NormaliseR6Password(owner);
    NormaliseIdempotent(owner);
    BuiltEntriesSplit(c, owner, user, rnd);
    assert PasswordMatches(c, ownerPw, e.o, e.u);
    assert DeriveFileKey(c, ownerPw, e.o, e.oe, e.u) == rnd.fileKey;
    PermsDecryptToBlock(c, rnd);
  }

  /**
   * The user password of freshly built entries authenticates as the user with
   * the drawn file key, unless it also passes the owner check.
   */
  lemma BuildThenUserAuthenticatesR6(c: R6Crypto, owner: seq<byte>, user: seq<byte>, rnd: R6Randomness)
    requires rnd.WellFormed() && Inverts(c.decrypt, c.encrypt)
    requires !PasswordMatches(c, NormaliseR6Password(user), BuildR6(c, owner, Some(user), rnd).o, BuildR6(c, owner, Some(user), rnd).u)
    ensures R6Authenticate(c, BuildR6(c, owner, Some(user), rnd), user) == Ok(Outcome(User, Some(rnd.fileKey)))
  {
    var e := BuildR6(c, owner, Some(user), rnd);
    var userPw := NormaliseR6Password(user);
    NormaliseIdempotent(user);
    BuiltEntriesSplit(c, owner, Some(user), rnd);
    assert PasswordMatches(c, userPw, e.u, []);
    assert DeriveFileKey(c, userPw, e.u, e.ue, []) == rnd.fileKey;
    PermsDecryptToBlock(c, rnd);
  }

  /** A user password equal (after normalisation) to the owner password authenticates as the owner. */
  lemma SharedPasswordAuthenticatesAsOwner(c: R6Crypto, owner: seq<byte>, user: seq<byte>, rnd: R6Randomness)
    requires rnd.WellFormed() && Inverts(c.decrypt, c.encrypt)
    requires NormaliseR6Password(user) == NormaliseR6Password(owner)
    ensures R6Authenticate(c, BuildR6(c, owner, Some(user), rnd), user) == Ok(Outcome(Owner, Some(rnd.fileKey)))
  {
    BuildThenOwnerAuthenticatesR6(c, owner, Some(user), rnd);
  }

  /** The builder's /Perms entry decrypts under the file key to the block it encrypted, which passes the check. */
  lemma PermsDecryptToBlock(c: R6Crypto, rnd: R6Randomness)
    requires rnd.WellFormed() && Inverts(c.decrypt, c.encrypt)
    ensures c.decrypt(rnd.fileKey, c.encrypt(rnd.fileKey, PermsBlock(rnd.permsFiller), Zeros(16)), Zeros(16))
         == PermsBlock(rnd.permsFiller)
    ensures PermsOk(PermsBlock(rnd.permsFiller), -4, true)
  {
    PermsBlockAccepted(rnd.permsFiller);
  }
}
