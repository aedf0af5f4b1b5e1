/**
 * Key and entry computations of the RC4/AES-128 standard security handler
 * (revisions 2, 3 and 4): Algorithms 2 to 7 of section 7.6.3 of
 * ISO 32000-1. Each loop of the original is a method proved equal to a
 * recursive specification function; the lemmas relate building the /O and
 * /U entries to authenticating against them.
 */
module LegacyKeys {
  import opened Wrappers
  import opened Bytes
  import opened Primitives
  import opened CryptBytes

  /** Every byte of `key` XORed with the round counter `i`. */
  function XorKey(key: seq<byte>, i: nat): (r: seq<byte>)
    requires i < 256
    ensures |r| == |key|
    ensures forall j :: 0 <= j < |key| ==> r[j] == Xor(key[j], i)
  {
    seq(|key|, j requires 0 <= j < |key| => Xor(key[j], i))
  }

  lemma XorKeyZero(key: seq<byte>)
    ensures XorKey(key, 0) == key
  {
    forall j | 0 <= j < |key| {
      XorZero(key[j]);
    }
  }

  /** `n` rounds of `h := md5(h[:keylen])`. */
  function Md5ChainPrefix(md5: Digest16, h: seq<byte>, keylen: nat, n: nat): (r: seq<byte>)
    ensures n > 0 ==> |r| == 16
  {
    if n == 0 then h else md5(Prefix(Md5ChainPrefix(md5, h, keylen, n - 1), keylen))
  }

  /** `n` rounds of `h := md5(h)`. */
  function Md5Chain(md5: Digest16, h: seq<byte>, n: nat): (r: seq<byte>)
    ensures n > 0 ==> |r| == 16
  {
    if n == 0 then h else md5(Md5Chain(md5, h, n - 1))
  }

  /** RC4 with the keys `key ^ 1`, ..., `key ^ n`, in that order. */
  function Rc4Up(rc4: Rc4, key: seq<byte>, v: seq<byte>, n: nat): (r: seq<byte>)
    requires n < 256
    ensures |r| == |v|
  {
    if n == 0 then v else rc4(XorKey(key, n), Rc4Up(rc4, key, v, n - 1))
  }

  /** RC4 with the keys `key ^ (n-1)`, ..., `key ^ 0`, in that order. */
  function Rc4Down(rc4: Rc4, key: seq<byte>, v: seq<byte>, n: nat): (r: seq<byte>)
    requires n <= 256
    ensures |r| == |v|
    decreases n
  {
    if n == 0 then v else Rc4Down(rc4, key, rc4(XorKey(key, n - 1), v), n - 1)
  }

  /** Running the rounds downwards from `n` to 0 undoes rounds 1 to `n` and then applies the plain key. */
  lemma {:induction false} Rc4DownUndoesUp(rc4: Rc4, key: seq<byte>, v: seq<byte>, n: nat)
    requires n < 256
    ensures Rc4Down(rc4, key, Rc4Up(rc4, key, v, n), n + 1) == rc4(key, v)
  {
    if n == 0 {
      XorKeyZero(key);
    } else {
      var k := XorKey(key, n);
      assert rc4(k, Rc4Up(rc4, key, v, n)) == Rc4Up(rc4, key, v, n - 1);
      Rc4DownUndoesUp(rc4, key, v, n - 1);
    }
  }

  /** The loop `for i in range(1, n + 1): val = rc4(key ^ i, val)`. */
  method ApplyRc4Up(rc4: Rc4, key: seq<byte>, v: seq<byte>, n: nat) returns (r: seq<byte>)
    requires n < 256
    ensures r == Rc4Up(rc4, key, v, n)
  {
    r := v;
    for i := 1 to n + 1
      invariant r == Rc4Up(rc4, key, v, i - 1)
    {
      r := rc4(XorKey(key, i), r);
    }
  }

  /** The loop `for i in range(n - 1, -1, -1): val = rc4(key ^ i, val)`. */
  method ApplyRc4Down(rc4: Rc4, key: seq<byte>, v: seq<byte>, n: nat) returns (r: seq<byte>)
    requires n <= 256
    ensures r == Rc4Down(rc4, key, v, n)
  {
    r := v;
    var i := n;
    while i > 0
      invariant 0 <= i <= n
      invariant Rc4Down(rc4, key, r, i) == Rc4Down(rc4, key, v, n)
    {
      r := rc4(XorKey(key, i - 1), r);
      i := i - 1;
    }
  }

  /** The digest input of Algorithm 2: padded password, /O, /P, first file ID, and 0xFFFFFFFF when metadata is left in clear (revision 4 and up). */
  function FileKeyInput(pw: seq<byte>, rev: int, ownerEntry: seq<byte>, p: int, id1: seq<byte>, encryptMetadata: bool): (r: seq<byte>)
    requires IsInt32(p)
    ensures |r| == 32 + |ownerEntry| + 4 + |id1| + (if rev >= 4 && !encryptMetadata then 4 else 0)
    ensures r[..32] == PadPassword(pw)
  {
    PadPassword(pw) + ownerEntry + PackInt32LE(p) + id1
      + (if rev >= 4 && !encryptMetadata then [0xff, 0xff, 0xff, 0xff] else [])
  }

  /** Algorithm 2: the file encryption key derived from a password. */
  function FileKey(md5: Digest16, pw: seq<byte>, rev: int, keylen: nat, ownerEntry: seq<byte>, p: int, id1: seq<byte>, encryptMetadata: bool): seq<byte>
    requires IsInt32(p)
  {
    var h := md5(FileKeyInput(pw, rev, ownerEntry, p, id1, encryptMetadata));
    Prefix(if rev >= 3 then Md5ChainPrefix(md5, h, keylen, 50) else h, keylen)
  }

  /** The file key has the requested length, at most the 16 bytes of an MD5 digest. */
  lemma FileKeyLength(md5: Digest16, pw: seq<byte>, rev: int, keylen: nat, ownerEntry: seq<byte>, p: int, id1: seq<byte>, encryptMetadata: bool)
    requires IsInt32(p)
    ensures |FileKey(md5, pw, rev, keylen, ownerEntry, p, id1, encryptMetadata)| == if keylen < 16 then keylen else 16
  {
  }

  /** Only the first 32 bytes of a password and its padding enter the file key. */
  lemma FileKeyPaddedPassword(md5: Digest16, pw: seq<byte>, rev: int, keylen: nat, ownerEntry: seq<byte>, p: int, id1: seq<byte>, encryptMetadata: bool)
    requires IsInt32(p)
    ensures FileKey(md5, PadPassword(pw), rev, keylen, ownerEntry, p, id1, encryptMetadata)
         == FileKey(md5, pw, rev, keylen, ownerEntry, p, id1, encryptMetadata)
  {
    PadPasswordIdempotent(pw);
  }

  method ComputeFileKey(md5: Digest16, pw: seq<byte>, rev: int, keylen: nat, ownerEntry: seq<byte>, p: int, id1: seq<byte>, encryptMetadata: bool)
    returns (key: seq<byte>)
    requires IsInt32(p)
    ensures key == FileKey(md5, pw, rev, keylen, ownerEntry, p, id1, encryptMetadata)
  {
    var h := md5(FileKeyInput(pw, rev, ownerEntry, p, id1, encryptMetadata));
    if rev >= 3 {
      ghost var h0 := h;
      for i := 0 to 50
        invariant h == Md5ChainPrefix(md5, h0, keylen, i)
      {
        h := md5(Prefix(h, keylen));
      }
    }
    key := Prefix(h, keylen);
  }

  /** Steps 1 to 4 of Algorithm 3: the RC4 key derived from the owner password. */
  function OwnerKey(md5: Digest16, pw: seq<byte>, rev: int, keylen: nat): seq<byte> {
    var h := md5(PadPassword(pw));
    Prefix(if rev >= 3 then Md5Chain(md5, h, 50) else h, keylen)
  }

  method ComputeOwnerKey(md5: Digest16, pw: seq<byte>, rev: int, keylen: nat) returns (key: seq<byte>)
    ensures key == OwnerKey(md5, pw, rev, keylen)
  {
    var h := md5(PadPassword(pw));
    if rev >= 3 {
      ghost var h0 := h;
      for i := 0 to 50
        invariant h == Md5Chain(md5, h0, i)
      {
        h := md5(h);
      }
    }
    key := Prefix(h, keylen);
  }

  /** Algorithm 3: the /O entry, the padded user password encrypted under the owner key. */
  function OValue(md5: Digest16, rc4: Rc4, owner: seq<byte>, user: seq<byte>, rev: int, keylen: nat): seq<byte> {
    var key := OwnerKey(md5, owner, rev, keylen);
    var v := rc4(key, PadPassword(user));
    if rev >= 3 then Rc4Up(rc4, key, v, 19) else v
  }

  lemma OValueLength(md5: Digest16, rc4: Rc4, owner: seq<byte>, user: seq<byte>, rev: int, keylen: nat)
    ensures |OValue(md5, rc4, owner, user, rev, keylen)| == 32
  {
  }

  method ComputeOValue(md5: Digest16, rc4: Rc4, owner: seq<byte>, user: seq<byte>, rev: int, keylen: nat) returns (o: seq<byte>)
    ensures o == OValue(md5, rc4, owner, user, rev, keylen)
  {
    var key := ComputeOwnerKey(md5, owner, rev, keylen);
    o := rc4(key, PadPassword(user));
    if rev >= 3 {
      o := ApplyRc4Up(rc4, key, o, 19);
    }
  }

  /** A /U entry together with the file key it was computed from. */
  datatype UserEntry = UserEntry(u: seq<byte>, key: seq<byte>)

  /** Algorithm 4 (revision 2): the padding string encrypted under a 5-byte file key. */
  function UValueR2(md5: Digest16, rc4: Rc4, pw: seq<byte>, ownerEntry: seq<byte>, p: int, id1: seq<byte>): (r: UserEntry)
    requires IsInt32(p)
    ensures |r.u| == 32
  {
    var key := FileKey(md5, pw, 2, 5, ownerEntry, p, id1, true);
    UserEntry(rc4(key, Padding), key)
  }

  /**
   * Algorithm 5 (revisions 3 and 4): MD5 of the padding and the first file
   * ID, encrypted in 20 RC4 rounds, followed by 16 zero bytes. The file key
   * is always derived as if metadata were encrypted.
   */
  function UValueR34(md5: Digest16, rc4: Rc4, pw: seq<byte>, rev: int, keylen: nat, ownerEntry: seq<byte>, p: int, id1: seq<byte>): (r: UserEntry)
    requires IsInt32(p)
    ensures |r.u| == 32 && r.u[16..] == Zeros(16)
  {
    var key := FileKey(md5, pw, rev, keylen, ownerEntry, p, id1, true);
    var v := rc4(key, md5(Padding + id1));
    UserEntry(Rc4Up(rc4, key, v, 19) + Zeros(16), key)
  }

  method ComputeUValueR34(md5: Digest16, rc4: Rc4, pw: seq<byte>, rev: int, keylen: nat, ownerEntry: seq<byte>, p: int, id1: seq<byte>)
    returns (r: UserEntry)
    requires IsInt32(p)
    ensures r == UValueR34(md5, rc4, pw, rev, keylen, ownerEntry, p, id1)
  {
    var key := ComputeFileKey(md5, pw, rev, keylen, ownerEntry, p, id1, true);
    var v := rc4(key, md5(Padding + id1));
    v := ApplyRc4Up(rc4, key, v, 19);
    r := UserEntry(v + Zeros(16), key);
  }

  /** The parts of the encryption dictionary the legacy password checks read. */
  datatype LegacyEntries = LegacyEntries(rev: int, keylen: nat, o: seq<byte>, u: seq<byte>, p: int)

  /** Whether `pw` reproduces /U (all of it for revision 2, the first 16 bytes otherwise), and the key it yields. */
  function UserPasswordCheck(md5: Digest16, rc4: Rc4, e: LegacyEntries, id1: seq<byte>, pw: seq<byte>): (r: (bool, seq<byte>))
    requires IsInt32(e.p)
  {
    if e.rev == 2 then
      var t := UValueR2(md5, rc4, pw, e.o, e.p, id1);
      (t.u == e.u, t.key)
    else
      var t := UValueR34(md5, rc4, pw, e.rev, e.keylen, e.o, e.p, id1);
      (Prefix(t.u, 16) == Prefix(e.u, 16), t.key)
  }

  method CheckUserPassword(md5: Digest16, rc4: Rc4, e: LegacyEntries, id1: seq<byte>, pw: seq<byte>) returns (ok: bool, key: seq<byte>)
    requires IsInt32(e.p)
    ensures (ok, key) == UserPasswordCheck(md5, rc4, e, id1, pw)
  {
    if e.rev == 2 {
      var t := UValueR2(md5, rc4, pw, e.o, e.p, id1);
      ok, key := t.u == e.u, t.key;
    } else {
      var t := ComputeUValueR34(md5, rc4, pw, e.rev, e.keylen, e.o, e.p, id1);
      ok, key := Prefix(t.u, 16) == Prefix(e.u, 16), t.key;
    }
  }

  /** Algorithm 7, steps 1 and 2: the user password recovered from /O with a purported owner password. */
  function RecoverUserPassword(md5: Digest16, rc4: Rc4, e: LegacyEntries, ownerPw: seq<byte>): seq<byte> {
    var key := OwnerKey(md5, ownerPw, e.rev, e.keylen);
    if e.rev == 2 then rc4(key, e.o) else Rc4Down(rc4, key, e.o, 20)
  }

  method ComputeRecoveredUserPassword(md5: Digest16, rc4: Rc4, e: LegacyEntries, ownerPw: seq<byte>) returns (userPw: seq<byte>)
    ensures userPw == RecoverUserPassword(md5, rc4, e, ownerPw)
  {
    var key := ComputeOwnerKey(md5, ownerPw, e.rev, e.keylen);
    if e.rev == 2 {
      userPw := rc4(key, e.o);
    } else {
      userPw := ApplyRc4Down(rc4, key, e.o, 20);
    }
  }

  /** Recovering from an /O entry built with the same owner password gives the padded user password. */
  lemma OwnerRecoversUser(md5: Digest16, rc4: Rc4, owner: seq<byte>, user: seq<byte>, e: LegacyEntries)
    requires e.rev == 2 || e.rev == 3 || e.rev == 4
    requires e.o == OValue(md5, rc4, owner, user, e.rev, e.keylen)
    ensures RecoverUserPassword(md5, rc4, e, owner) == PadPassword(user)
  {
    var key := OwnerKey(md5, owner, e.rev, e.keylen);
    if e.rev != 2 {
      Rc4DownUndoesUp(rc4, key, rc4(key, PadPassword(user)), 19);
    }
  }

  /** Algorithms 6 and 7: try `pw` as the user password, then as the owner password. */
  function LegacyAuthenticate(md5: Digest16, rc4: Rc4, e: LegacyEntries, id1: seq<byte>, pw: seq<byte>): (r: Outcome)
    requires IsInt32(e.p)
    ensures r.result == Failed <==> r.key == None
    ensures r.result == User ==> UserPasswordCheck(md5, rc4, e, id1, pw).0
  {
    var (userOk, key) := UserPasswordCheck(md5, rc4, e, id1, pw);
    if userOk then Outcome(User, Some(key))
    else
      var (ownerOk, key2) := UserPasswordCheck(md5, rc4, e, id1, RecoverUserPassword(md5, rc4, e, pw));
      if ownerOk then Outcome(Owner, Some(key2)) else Outcome(Failed, None)
  }

  method Authenticate(md5: Digest16, rc4: Rc4, e: LegacyEntries, id1: seq<byte>, pw: seq<byte>) returns (r: Outcome)
    requires IsInt32(e.p)
    ensures r == LegacyAuthenticate(md5, rc4, e, id1, pw)
  {
    var userOk, key := CheckUserPassword(md5, rc4, e, id1, pw);
    if userOk {
      return Outcome(User, Some(key));
    }
    var recovered := ComputeRecoveredUserPassword(md5, rc4, e, pw);
    var ownerOk, key2 := CheckUserPassword(md5, rc4, e, id1, recovered);
    if ownerOk {
      return Outcome(Owner, Some(key2));
    }
    return Outcome(Failed, None);
  }

  /** The /O and /U entries and file key the legacy builder computes from normalised passwords. */
  function BuildEntries(md5: Digest16, rc4: Rc4, rev: int, keylen: nat, id1: seq<byte>, owner: seq<byte>, user: seq<byte>): (r: (LegacyEntries, seq<byte>))
    requires rev == 2 || rev == 3 || rev == 4
    ensures |r.0.o| == 32 && |r.0.u| == 32
    ensures r.0.rev == rev && r.0.keylen == keylen && r.0.p == AllPerms
  {
    var o := OValue(md5, rc4, owner, user, rev, keylen);
    var ue := if rev == 2 then UValueR2(md5, rc4, user, o, AllPerms, id1)
              else UValueR34(md5, rc4, user, rev, keylen, o, AllPerms, id1);
    (LegacyEntries(rev, keylen, o, ue.u, AllPerms), ue.key)
  }

  /** The legacy builder's computation of /O, /U and the file key. */
  method ComputeEntries(md5: Digest16, rc4: Rc4, rev: int, keylen: nat, id1: seq<byte>, owner: seq<byte>, user: seq<byte>)
    returns (e: LegacyEntries, key: seq<byte>)
    requires rev == 2 || rev == 3 || rev == 4
    ensures (e, key) == BuildEntries(md5, rc4, rev, keylen, id1, owner, user)
  {
    var o := ComputeOValue(md5, rc4, owner, user, rev, keylen);
    var ue: UserEntry;
    if rev == 2 {
      ue := UValueR2(md5, rc4, user, o, AllPerms, id1);
    } else {
      ue := ComputeUValueR34(md5, rc4, user, rev, keylen, o, AllPerms, id1);
    }
    e := LegacyEntries(rev, keylen, o, ue.u, AllPerms);
    key := ue.key;
  }

  /** Any password with the same padded form as the built user password passes the user check, yielding the built key. */
  lemma BuiltUserCheckPasses(md5: Digest16, rc4: Rc4, rev: int, keylen: nat, id1: seq<byte>, owner: seq<byte>, user: seq<byte>, pw: seq<byte>)
    requires rev == 2 || rev == 3 || rev == 4
    requires rev == 2 ==> keylen == 5
    requires PadPassword(pw) == PadPassword(user)
    ensures var (e, key) := BuildEntries(md5, rc4, rev, keylen, id1, owner, user);
            UserPasswordCheck(md5, rc4, e, id1, pw) == (true, key)
  {
    var (e, key) := BuildEntries(md5, rc4, rev, keylen, id1, owner, user);
    FileKeyPaddedPassword(md5, pw, rev, keylen, e.o, AllPerms, id1, true);
    FileKeyPaddedPassword(md5, user, rev, keylen, e.o, AllPerms, id1, true);
  }

  /** The user password of a freshly built dictionary authenticates as the user, with the built key. */
  lemma BuildThenUserAuthenticates(md5: Digest16, rc4: Rc4, rev: int, keylen: nat, id1: seq<byte>, owner: seq<byte>, user: seq<byte>)
    requires rev == 2 || rev == 3 || rev == 4
    requires rev == 2 ==> keylen == 5
    ensures var (e, key) := BuildEntries(md5, rc4, rev, keylen, id1, owner, user);
            LegacyAuthenticate(md5, rc4, e, id1, user) == Outcome(User, Some(key))
  {
    BuiltUserCheckPasses(md5, rc4, rev, keylen, id1, owner, user, user);
  }

  /**
   * The owner password of a freshly built dictionary never fails; when it is
   * not taken for the user password it authenticates as the owner with the
   * built key.
   */
  lemma BuildThenOwnerAuthenticates(md5: Digest16, rc4: Rc4, rev: int, keylen: nat, id1: seq<byte>, owner: seq<byte>, user: seq<byte>)
    requires rev == 2 || rev == 3 || rev == 4
    requires rev == 2 ==> keylen == 5
    ensures var (e, key) := BuildEntries(md5, rc4, rev, keylen, id1, owner, user);
            var r := LegacyAuthenticate(md5, rc4, e, id1, owner);
            r.result != Failed && (r.result == Owner ==> r.key == Some(key))
  {
    var (e, key) := BuildEntries(md5, rc4, rev, keylen, id1, owner, user);
    OwnerRecoversUser(md5, rc4, owner, user, e);
    var recovered := RecoverUserPassword(md5, rc4, e, owner);
    PadPasswordIdempotent(user);
    BuiltUserCheckPasses(md5, rc4, rev, keylen, id1, owner, user, recovered);
  }
}
