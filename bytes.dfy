/**
 * Byte strings and the integer packings the PDF code performs with Python's
 * `struct` module: `struct.pack('<i', x)` (four bytes, little-endian, two's
 * complement), `struct.unpack('<i', b)` and the big-endian values used by
 * `struct.unpack('>q', b)`.
 */
module Bytes {

  /** A byte, as Python's `bytes` elements: an integer in [0, 256). */
  type byte = b: int | 0 <= b < 256

  function Pow2(n: nat): (p: nat)
    ensures p >= 1
  {
    if n == 0 then 1 else 2 * Pow2(n - 1)
  }

  /** Bitwise XOR of the `n` low-order bits of `a` and `b`. */
  function XorBits(a: nat, b: nat, n: nat): (r: nat)
    ensures r < Pow2(n)
  {
    if n == 0 then 0 else (a % 2 + b % 2) % 2 + 2 * XorBits(a / 2, b / 2, n - 1)
  }

  /** Python's `a ^ b` on two bytes. */
  function Xor(a: byte, b: byte): byte {
    assert Pow2(8) == 256;
    XorBits(a, b, 8)
  }

  lemma {:induction false} XorBitsZero(a: nat, n: nat)
    requires a < Pow2(n)
    ensures XorBits(a, 0, n) == a
  {
    if n > 0 {
      assert a == 2 * (a / 2) + a % 2;
      XorBitsZero(a / 2, n - 1);
    }
  }

  lemma XorZero(a: byte)
    ensures Xor(a, 0) == a
  {
    assert Pow2(8) == 256;
    XorBitsZero(a, 8);
  }

  /** 256 to the power `n`. */
  function Pow256(n: nat): (p: nat)
    ensures p >= 1
  {
    if n == 0 then 1 else 256 * Pow256(n - 1)
  }

  /** Python's `s[:n]` for a non-negative `n`: slicing clamps to the length. */
  function Prefix<T>(s: seq<T>, n: nat): (r: seq<T>)
    ensures |r| == if n < |s| then n else |s|
    ensures r <= s
  {
    if n < |s| then s[..n] else s
  }

  /** Python's `s[:n]` for any integer `n`: a negative `n` drops that many elements from the end. */
  function SlicePrefix<T>(s: seq<T>, n: int): (r: seq<T>)
    ensures r <= s
    ensures n >= 0 ==> r == Prefix(s, n)
    ensures n < 0 ==> |r| == if -n < |s| then |s| + n else 0
  {
    if n >= 0 then Prefix(s, n) else if -n < |s| then s[..|s| + n] else []
  }

  /** `s * n` for a byte string `s`: `n` copies, concatenated. */
  function Repeat<T>(s: seq<T>, n: nat): (r: seq<T>)
    ensures |r| == |s| * n
    ensures forall i :: 0 <= i < |r| ==> r[i] == s[i % |s|]
  {
    seq(|s| * n, i requires 0 <= i < |s| * n => s[i % |s|])
  }

  function Zeros(n: nat): (r: seq<byte>)
    ensures |r| == n && forall i :: 0 <= i < n ==> r[i] == 0
  {
    seq(n, _ => 0)
  }

  /** The `n` low-order bytes of `u`, least significant first. */
  function ToLE(u: nat, n: nat): (r: seq<byte>)
    ensures |r| == n
  {
    if n == 0 then [] else [u % 256] + ToLE(u / 256, n - 1)
  }

  /** The value of a little-endian byte string. */
  function FromLE(s: seq<byte>): (u: nat)
    ensures u < Pow256(|s|)
  {
    if s == [] then 0 else s[0] + 256 * FromLE(s[1..])
  }

  /** The value of a big-endian byte string. */
  function FromBE(s: seq<byte>): (u: nat)
    ensures u < Pow256(|s|)
  {
    if s == [] then 0 else 256 * FromBE(s[..|s| - 1]) + s[|s| - 1]
  }

  /** Reading back the `n` low-order bytes of a value below 256^n gives the value. */
  lemma {:induction false} FromToLE(u: nat, n: nat)
    requires u < Pow256(n)
    ensures FromLE(ToLE(u, n)) == u
  {
    if n > 0 {
      var q, r := u / 256, u % 256;
      assert u == 256 * q + r;
      assert q < Pow256(n - 1);
      FromToLE(q, n - 1);
      var t := ToLE(u, n);
      assert t[0] == r;
      assert t[1..] == ToLE(q, n - 1);
    }
  }

  /** Taking a prefix of a longer packing is the shorter packing. */
  lemma {:induction false} ToLEPrefix(u: nat, n: nat, m: nat)
    ensures ToLE(u, n + m)[..n] == ToLE(u, n)
  {
    if n > 0 {
      ToLEPrefix(u / 256, n - 1, m);
      assert ToLE(u, n + m)[1..] == ToLE(u / 256, n - 1 + m);
    }
  }

  /** Leading zero bytes do not change a big-endian value. */
  lemma {:induction false} FromBELeadingZeros(z: nat, s: seq<byte>)
    ensures FromBE(Zeros(z) + s) == FromBE(s)
  {
    if s == [] {
      assert Zeros(z) + s == Zeros(z);
      LeadingZerosOnly(z);
    } else {
      var p := s[..|s| - 1];
      FromBELeadingZeros(z, p);
      assert (Zeros(z) + s)[..|Zeros(z) + s| - 1] == Zeros(z) + p;
    }
  }

  lemma {:induction false} LeadingZerosOnly(z: nat)
    ensures FromBE(Zeros(z)) == 0
  {
    if z > 0 {
      assert Zeros(z)[..z - 1] == Zeros(z - 1);
      LeadingZerosOnly(z - 1);
    }
  }

  predicate IsInt32(x: int) {
    -0x8000_0000 <= x < 0x8000_0000
  }

  /** `struct.pack('<i', x)`; Python raises `struct.error` outside the int32 range. */
  function PackInt32LE(x: int): (r: seq<byte>)
    requires IsInt32(x)
    ensures |r| == 4
    ensures UnpackInt32LE(r) == x
  {
    var u := if x < 0 then x + 0x1_0000_0000 else x;
    assert Pow256(4) == 0x1_0000_0000;
    FromToLE(u, 4);
    ToLE(u, 4)
  }

  /** `struct.unpack('<i', b)[0]`: a little-endian two's complement int32. */
  function UnpackInt32LE(b: seq<byte>): (x: int)
    requires |b| == 4
    ensures IsInt32(x)
  {
    var u := FromLE(b);
    if u >= 0x8000_0000 then u - 0x1_0000_0000 else u
  }

}
