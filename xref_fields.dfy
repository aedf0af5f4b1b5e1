/**
 * The fixed-width binary fields of a cross-reference stream (section 7.5.8
 * of ISO 32000-1): `convert_to_int`, which turns the bytes of one field into
 * an integer, and `get_entry`, which reads the next field of a given kind
 * from the stream data, falling back on the field's default when its width
 * in /W is zero.
 */
module XrefFields {
  import opened Wrappers
  import opened Bytes

  /** The exceptions the cross-reference code raises, one constructor per cause. */
  datatype ReadError =
    | FieldLength             // `struct.error`: a field of at most 8 bytes that is not exactly as wide as /W says
    | MissingWidths           // /W missing, or with fewer than three widths
    | MissingSize             // neither /Index nor /Size to say which objects the stream covers
    | SubsectionsOverlap      // a subsection that starts before the previous one ends
    | ReusedAfterFree         // a generation still in use in a newer section than the one freeing it
    | FreeGenerationMismatch  // a free whose next generation is not the one the newer section uses
    | NeverFreed              // a higher generation whose previous generation is never freed
    | IllegalGeneration       // a generation above 65535
    | ObjectNotFound          // `__getitem__` on a reference the tables do not hold
    | NotInHistory            // no sighting of the reference at or before the revision
    | NoHistory               // `get_introducing_revision` on a reference never seen
    | UnknownObject           // `get_last_change` on an object number never seen
    | RevisionOutOfRange      // a revision whose position is outside the per-section lists
    | OrphanedObjects         // expected frees left once every section is read

  /** Python's `b ** e` on integers, with `0 ** 0 == 1`. */
  function IntPow(b: int, e: nat): int {
    if e == 0 then 1 else b * IntPow(b, e - 1)
  }

  /** The `size > 8` branch of `convert_to_int`: each byte raised to the power of its distance from the end. */
  function PowerSum(d: seq<byte>, size: int): int
    requires |d| <= size
    decreases |d|
  {
    if d == [] then 0 else IntPow(d[0], size - 1) + PowerSum(d[1..], size - 1)
  }

  /** `struct.unpack('>q', b)`: eight big-endian bytes read as a two's complement integer. */
  function SignedBE64(b: seq<byte>): int
    requires |b| == 8
  {
    var u := FromBE(b);
    if u >= 0x8000_0000_0000_0000 then u - 0x1_0000_0000_0000_0000 else u
  }

  /**
   * `convert_to_int(d, size)`. Up to 8 bytes are padded with zeros to 8 and
   * unpacked as a signed big-endian integer, which fails unless `d` holds
   * exactly `size` bytes; longer fields take the power-sum branch (callers
   * never pass more than `size` bytes there).
   */
  function ConvertToInt(d: seq<byte>, size: int): (r: Result<int, ReadError>)
    requires size > 8 ==> |d| <= size
    ensures size <= 8 ==> (r.Ok? <==> |d| == size)
    ensures r.Err? ==> r.error == FieldLength
    ensures size > 8 ==> r == Ok(PowerSum(d, size))
  {
    if size <= 8 then
      if |d| != size then Err(FieldLength)
      else Ok(SignedBE64(Zeros(8 - size) + d))
    else Ok(PowerSum(d, size))
  }

  /**
   * The value `convert_to_int` unpacks: the unsigned big-endian reading of a
   * field narrower than 8 bytes, and the two's complement reading of an
   * 8-byte field, whose top bit gives the sign.
   */
  lemma ConvertToIntValue(d: seq<byte>, size: int)
    requires 0 <= size <= 8 && |d| == size
    ensures 0 <= size < 8 ==> ConvertToInt(d, size) == Ok(FromBE(d))
    ensures size == 8 ==> ConvertToInt(d, size) == Ok(if d[0] < 128 then FromBE(d) else FromBE(d) - 0x1_0000_0000_0000_0000)
  {
    var padded := Zeros(8 - size) + d;
    FromBELeadingZeros(8 - size, d);
    assert FromBE(padded) == FromBE(d);
    if size < 8 {
      FromBEBelow(d, size);
    } else {
      assert padded == d;
      TopByteSign(d);
    }
  }

  /** A big-endian value of fewer than 8 bytes is below 2^56. */
  lemma FromBEBelow(d: seq<byte>, size: nat)
    requires |d| == size < 8
    ensures FromBE(d) < 0x100_0000_0000_0000
  {
    PowMonotone(size, 7);
    assert Pow256(7) == 0x100_0000_0000_0000;
  }

  lemma {:induction false} PowMonotone(a: nat, b: nat)
    requires a <= b
    ensures Pow256(a) <= Pow256(b)
  {
    if a < b {
      PowMonotone(a, b - 1);
    }
  }

  /** A big-endian value splits into its first byte, weighted, and the rest. */
  lemma {:induction false} FromBEHead(s: seq<byte>)
    requires |s| > 0
    ensures FromBE(s) == s[0] * Pow256(|s| - 1) + FromBE(s[1..])
  {
    if |s| > 1 {
      var p := s[..|s| - 1];
      var t := s[1..];
      FromBEHead(p);
      assert p[1..] == t[..|t| - 1];
      Regroup(s[0], FromBE(p[1..]), s[|s| - 1], Pow256(|s| - 2));
    } else {
      assert s[1..] == [];
    }
  }

  lemma Regroup(a: int, b: int, c: int, w: int)
    ensures 256 * (a * w + b) + c == a * (256 * w) + (256 * b + c)
  {
  }

  /** The `n` low-order bytes of `u`, most significant first. */
  function ToBE(u: nat, n: nat): (r: seq<byte>)
    ensures |r| == n
  {
    if n == 0 then [] else ToBE(u / 256, n - 1) + [u % 256]
  }

  /** Reading back the big-endian packing of a value below 256^n gives the value. */
  lemma {:induction false} FromToBE(u: nat, n: nat)
    requires u < Pow256(n)
    ensures FromBE(ToBE(u, n)) == u
  {
    if n > 0 {
      var q, r := u / 256, u % 256;
      assert u == 256 * q + r;
      assert q < Pow256(n - 1);
      FromToBE(q, n - 1);
      var t := ToBE(u, n);
      assert t[..n - 1] == ToBE(q, n - 1);
      assert t[n - 1] == r;
    }
  }

  /**
   * How a cross-reference stream writer packs `v` into a field of `n` bytes:
   * big-endian, in two's complement when the field is 8 bytes wide.
   */
  function EncodeField(v: int, n: nat): (r: seq<byte>)
    requires 1 <= n <= 8
    requires n < 8 ==> 0 <= v < Pow256(n)
    requires n == 8 ==> -0x8000_0000_0000_0000 <= v < 0x8000_0000_0000_0000
    ensures |r| == n
  {
    if v >= 0 then ToBE(v, n) else ToBE(v + 0x1_0000_0000_0000_0000, n)
  }

  /** `convert_to_int` reads back every field a writer packs. */
  lemma EncodeFieldRoundTrip(v: int, n: nat)
    requires 1 <= n <= 8
    requires n < 8 ==> 0 <= v < Pow256(n)
    requires n == 8 ==> -0x8000_0000_0000_0000 <= v < 0x8000_0000_0000_0000
    ensures ConvertToInt(EncodeField(v, n), n) == Ok(v)
  {
    var e := EncodeField(v, n);
    assert Pow256(8) == 0x1_0000_0000_0000_0000;
    ConvertToIntValue(e, n);
    if v >= 0 {
      FromToBE(v, n);
      if n == 8 {
        TopByteSign(e);
      }
    } else {
      FromToBE(v + 0x1_0000_0000_0000_0000, n);
      TopByteSign(e);
    }
  }

  /** The top bit of eight big-endian bytes is set exactly when their value reaches 2^63. */
  lemma TopByteSign(e: seq<byte>)
    requires |e| == 8
    ensures e[0] < 128 <==> FromBE(e) < 0x8000_0000_0000_0000
  {
    FromBEHead(e);
    var w := Pow256(7);
    assert w == 0x100_0000_0000_0000;
    var rest := FromBE(e[1..]);
    assert 0 <= rest < w;
    if e[0] < 128 {
      assert e[0] * w <= 127 * w;
    } else {
      assert e[0] * w >= 128 * w;
    }
  }

  /** The `size > 8` branch is not a positional reading: nine zero bytes give 1, because `0 ** 0 == 1`. */
  lemma PowerSumNotPositional()
    ensures ConvertToInt(Zeros(9), 9) == Ok(1)
  {
    var z := Zeros(9);
    assert z[1..] == Zeros(8) && Zeros(8)[1..] == Zeros(7) && Zeros(7)[1..] == Zeros(6);
    assert Zeros(6)[1..] == Zeros(5) && Zeros(5)[1..] == Zeros(4) && Zeros(4)[1..] == Zeros(3);
    assert Zeros(3)[1..] == Zeros(2) && Zeros(2)[1..] == Zeros(1) && Zeros(1)[1..] == [];
    assert PowerSum(Zeros(1), 1) == 1;
  }

  /** The three fields of one cross-reference stream entry: its type and the two type-dependent fields. */
  datatype Fields = Fields(kind: int, field1: int, field2: int)

  /**
   * `get_entry(ix)`: the field of kind `ix` starting at `pos`. A positive
   * width reads that many bytes (fewer when the data ends, which then fails
   * to unpack for widths up to 8); a zero or negative width reads nothing
   * and gives the default, 1 for the type and 0 otherwise. The result
   * carries the position after the field.
   */
  function GetEntry(data: seq<byte>, widths: Option<seq<int>>, pos: nat, ix: nat): (r: Result<(int, nat), ReadError>)
    requires pos <= |data| && ix < 3
    ensures r.Ok? ==> pos <= r.value.1 <= |data|
  {
    if widths.None? || ix >= |widths.value| then Err(MissingWidths)
    else
      var w := widths.value[ix];
      if w > 0 then
        var end := if pos + w <= |data| then pos + w else |data|;
        match ConvertToInt(data[pos..end], w)
        case Ok(v) => Ok((v, end))
        case Err(e) => Err(e)
      else Ok((if ix == 0 then 1 else 0, pos))
  }

  /**
   * What `get_entry` does with each kind of width: no /W or too few widths
   * is an error; a width of zero or less reads nothing and gives the
   * default; a width up to 8 succeeds exactly when that many bytes remain,
   * and reads them with `convert_to_int`; a wider field always succeeds.
   */
  lemma GetEntryCases(data: seq<byte>, widths: Option<seq<int>>, pos: nat, ix: nat)
    requires pos <= |data| && ix < 3
    ensures var r := GetEntry(data, widths, pos, ix);
      (widths.None? || ix >= |widths.value| ==> r == Err(MissingWidths)) &&
      (widths.Some? && ix < |widths.value| && widths.value[ix] <= 0 ==> r == Ok((if ix == 0 then 1 else 0, pos))) &&
      (widths.Some? && ix < |widths.value| && 0 < widths.value[ix] <= 8 ==>
        (r.Ok? <==> pos + widths.value[ix] <= |data|) &&
        (r.Ok? ==> r.value.1 == pos + widths.value[ix] && ConvertToInt(data[pos..r.value.1], widths.value[ix]) == Ok(r.value.0))) &&
      (widths.Some? && ix < |widths.value| && widths.value[ix] > 8 ==> r.Ok?)
  {
  }

  /**
   * The three `get_entry` calls every entry makes, whatever its type: the
   * type, then the two other fields, each read after the one before.
   */
  function ReadFields(data: seq<byte>, widths: Option<seq<int>>, pos: nat): (r: Result<(Fields, nat), ReadError>)
    requires pos <= |data|
    ensures r.Ok? ==> pos <= r.value.1 <= |data|
  {
    match GetEntry(data, widths, pos, 0)
    case Err(e) => Err(e)
    case Ok((kind, p1)) =>
      match GetEntry(data, widths, p1, 1)
      case Err(e) => Err(e)
      case Ok((f1, p2)) =>
        match GetEntry(data, widths, p2, 2)
        case Err(e) => Err(e)
        case Ok((f2, p3)) => Ok((Fields(kind, f1, f2), p3))
  }

  /** With every width zero an entry reads no bytes and is a type 1 entry with zero fields. */
  lemma ZeroWidthsDefaults(data: seq<byte>, pos: nat)
    requires pos <= |data|
    ensures ReadFields(data, Some([0, 0, 0]), pos) == Ok((Fields(1, 0, 0), pos))
  {
  }
}
