/**
 * Finding `startxref` at the end of a file (section 7.5.5 of ISO 32000-1).
 * The reader starts at the last byte and reads lines backwards: each call
 * of `read_next_end_line` returns the line ending at the current position
 * and leaves the position on the last byte of the line before it.
 */
module EofReader {
  import opened Wrappers
  import opened Bytes

  const LF: byte := 10
  const CR: byte := 13

  /** `%%EOF`. */
  const EofMarker: seq<byte> := [37, 37, 69, 79, 70]
  /** `startxref`. */
  const StartxrefKeyword: seq<byte> := [115, 116, 97, 114, 116, 120, 114, 101, 102]

  predicate IsEol(b: byte) {
    b == LF || b == CR
  }

  /** What `stream.read(1)` returned was a line feed or a carriage return. */
  predicate EolRead(x: seq<byte>) {
    x == [LF] || x == [CR]
  }

  datatype EofError =
    | MalformedFile      // the backward scan reached the first byte of the file
    | EolNotFound        // it came within two bytes of the start
    | NotAByte           // `ord` of the empty read past the end of the file
    | EofMarkerNotFound  // no `%%EOF` line within the last 1024 bytes
    | StartxrefNotFound  // neither a `startxref` line nor the keyword before the offset
    | NotAnInteger       // `int()` refusing what follows the keyword on its line

  /**
   * The first loop of `read_next_end_line`: from position `p` backwards to
   * the line break before the line, whose position is returned.
   */
  function ScanBack(data: seq<byte>, p: nat): (r: Result<nat, EofError>)
    ensures r.Ok? ==> 1 <= r.value <= p < |data| && IsEol(data[r.value])
    decreases p
  {
    if p == 0 then Err(MalformedFile)
    else if p >= |data| then (if p < 2 then Err(EolNotFound) else Err(NotAByte))
    else if IsEol(data[p]) then Ok(p)
    else ScanBack(data, p - 1)
  }

  /**
   * The second loop: backwards over the line break bytes, three positions
   * per byte, then forward again by one, or by two once a second break byte
   * was met. The position reached is returned.
   */
  function SkipEol(data: seq<byte>, pos: nat, crlf: bool): (r: Result<nat, EofError>)
    requires pos < |data|
    ensures r.Ok? ==> r.value <= pos + (if crlf then 1 else 0)
    decreases pos
  {
    if IsEol(data[pos]) then
      if pos < 2 then Err(EolNotFound) else SkipEol(data, pos - 2, true)
    else if pos + 1 < 2 then Err(EolNotFound)
    else Ok(pos - 1 + (if crlf then 2 else 1))
  }

  /**
   * `read_next_end_line` from position `p`: the line that ends there and
   * the new position, before the line break that precedes the line.
   */
  function NextEndLine(data: seq<byte>, p: nat): (r: Result<(seq<byte>, nat), EofError>)
    ensures r.Ok? ==> r.value.1 + |r.value.0| < p < |data|
  {
    match ScanBack(data, p)
    case Err(e) => Err(e)
    case Ok(k) =>
      match SkipEol(data, k - 1, false)
      case Err(e) => Err(e)
      case Ok(q) => Ok((data[k + 1..p + 1], q))
  }

  /**
   * The loop of `process_data_at_eof`: lines are read backwards until one
   * starts with `%%EOF`, which must be found before the position falls below
   * the last 1024 bytes before `start`, where the search began. The
   * position after that line is returned.
   */
  function FindEofMarker(data: seq<byte>, p: nat, start: nat): (r: Result<nat, EofError>)
    ensures r.Ok? ==> r.value < p
    decreases p
  {
    if p < start - 1024 + 1 then Err(EofMarkerNotFound)
    else match NextEndLine(data, p)
      case Err(e) => Err(e)
      case Ok((line, q)) =>
        if Prefix(line, 5) == EofMarker then Ok(q) else FindEofMarker(data, q, start)
  }

  /** `bytes.strip()`: ASCII whitespace removed from both ends. */
  function Strip(s: seq<byte>): (r: seq<byte>)
    ensures |r| <= |s|
    decreases |s|
  {
    if s != [] && IsAsciiSpace(s[0]) then Strip(s[1..])
    else if s != [] && IsAsciiSpace(s[|s| - 1]) then Strip(s[..|s| - 1])
    else s
  }

  predicate IsAsciiSpace(b: byte) {
    b == 32 || 9 <= b <= 13
  }

  /** No byte of the line is a line break. */
  predicate NoEol(line: seq<byte>) {
    forall i | 0 <= i < |line| :: !IsEol(line[i])
  }

  /** The five bytes from `k` on are `%%EOF`. */
  predicate MarkerAt(data: seq<byte>, k: nat) {
    k + 5 <= |data| && data[k..k + 5] == EofMarker
  }

  /**
   * `process_data_at_eof` from position `p`: the `%%EOF` line, then the
   * offset before it. `parseInt` is Python's `int()` on bytes, `None` for a
   * `ValueError`.
   */
  function DataAtEof(data: seq<byte>, p: nat, parseInt: seq<byte> -> Option<int>): (r: Result<int, EofError>)
    ensures r.Ok? ==> exists k: nat | k < p :: MarkerAt(data, k)
  {
    MarkerFound(data, p, p);
    match FindEofMarker(data, p, p)
    case Err(e) => Err(e)
    case Ok(p1) => StartxrefBefore(data, p1, parseInt)
  }

  /**
   * The offset on its own line below a `startxref` line, or on the
   * keyword's own line, reading backwards from `p`.
   */
  function StartxrefBefore(data: seq<byte>, p: nat, parseInt: seq<byte> -> Option<int>): (r: Result<int, EofError>)
    ensures r.Ok? ==>
      NextEndLine(data, p).Ok? &&
      var (line, q) := NextEndLine(data, p).value;
      ((parseInt(line) == Some(r.value) && NextEndLine(data, q).Ok? &&
        Prefix(NextEndLine(data, q).value.0, 9) == StartxrefKeyword) ||
       (Prefix(line, 9) == StartxrefKeyword && parseInt(Strip(line[9..])) == Some(r.value)))
  {
    match NextEndLine(data, p)
    case Err(e) => Err(e)
    case Ok((line, p2)) =>
      match parseInt(line)
      case None =>
        if Prefix(line, 9) != StartxrefKeyword then Err(StartxrefNotFound)
        else (match parseInt(Strip(line[9..])) {
          case None => Err(NotAnInteger)
          case Some(n) => Ok(n)
        })
      case Some(n) =>
        match NextEndLine(data, p2)
        case Err(e) => Err(e)
        case Ok((keywordLine, _)) => if Prefix(keywordLine, 9) != StartxrefKeyword then Err(StartxrefNotFound) else Ok(n)
  }

  /** A file open for reading, and its position. */
  class Stream {
    var data: seq<byte>
    var pos: nat

    constructor(data: seq<byte>)
      ensures this.data == data && pos == 0
    {
      this.data := data;
      pos := 0;
    }

    /** `read(1)`: the byte at the position, or nothing at the end of the file. */
    method Read1() returns (x: seq<byte>)
      modifies this
      ensures data == old(data)
      ensures old(pos) < |data| ==> x == [data[old(pos)]] && pos == old(pos) + 1
      ensures old(pos) >= |data| ==> x == [] && pos == old(pos)
    {
      if pos < |data| {
        x := [data[pos]];
        pos := pos + 1;
      } else {
        x := [];
      }
    }

    /** `seek(offset, os.SEEK_CUR)`. */
    method Seek(offset: int)
      requires pos + offset >= 0
      modifies this
      ensures data == old(data) && pos == old(pos) + offset
    {
      pos := pos + offset;
    }

    /** `read_next_end_line`: the line, then past the line break before it. */
    method ReadNextEndLine() returns (r: Result<seq<byte>, EofError>)
      modifies this
      ensures data == old(data)
      ensures match NextEndLine(data, old(pos))
        case Ok((line, q)) => r == Ok(line) && pos == q
        case Err(e) => r == Err(e)
    {
      r := ReadLineBackwards();
      if r.Err? {
        return;
      }
      var skipped := SkipLineBreak();
      if skipped.Err? {
        return Err(skipped.error);
      }
    }

    /**
     * The first loop of `read_next_end_line`: the bytes before the position
     * up to a line break, stopping on the byte before the break.
     */
    method ReadLineBackwards() returns (r: Result<seq<byte>, EofError>)
      modifies this
      ensures data == old(data)
      ensures match ScanBack(data, old(pos))
        case Ok(k) => r == Ok(data[k + 1..old(pos) + 1]) && pos == k - 1
        case Err(e) => r == Err(e)
    {
      ghost var start := pos;
      ghost var goal := ScanBack(data, start);
      var line: seq<byte> := [];
      while true
        invariant data == old(data)
        invariant ScanBack(data, pos) == goal
        invariant (pos == start && line == []) || (pos < start < |data| && line == data[pos + 1..start + 1])
        decreases pos
      {
        if pos == 0 {
          return Err(MalformedFile);
        }
        var x := Read1();
        if pos < 2 {
          return Err(EolNotFound);
        }
        Seek(-2);
        if EolRead(x) {
          return Ok(line);
        }
        if x == [] {
          return Err(NotAByte);
        }
        line := x + line;
      }
    }

    /**
     * The second loop of `read_next_end_line`, entered just after a line
     * break was read: backwards while line break bytes are read, then
     * forward by one, or by two after a CR LF pair.
     */
    method SkipLineBreak() returns (r: Result<(), EofError>)
      requires pos < |data|
      modifies this
      ensures data == old(data)
      ensures match SkipEol(data, old(pos), false)
        case Ok(q) => r == Ok(()) && pos == q
        case Err(e) => r == Err(e)
    {
      ghost var goal := SkipEol(data, pos, false);
      var crlf := false;
      var breakRead := true;
      while breakRead
        invariant data == old(data)
        invariant breakRead ==> pos < |data| && SkipEol(data, pos, crlf) == goal
        invariant !breakRead ==> goal == Ok(pos + if crlf then 2 else 1)
        decreases pos
      {
        var x := Read1();
        if EolRead(x) {
          Seek(-1);
          crlf := true;
        }
        if pos < 2 {
          return Err(EolNotFound);
        }
        Seek(-2);
        breakRead := EolRead(x);
      }
      if crlf {
        Seek(2);
      } else {
        Seek(1);
      }
      r := Ok(());
    }

    /**
     * `process_data_at_eof`: lines are read backwards until the `%%EOF` one,
     * then the `startxref` offset is taken from the lines before it.
     */
    method ProcessDataAtEof(parseInt: seq<byte> -> Option<int>) returns (r: Result<int, EofError>)
      modifies this
      ensures data == old(data)
      ensures r == DataAtEof(data, old(pos), parseInt)
    {
      var found := SkipToEofMarker();
      if found.Err? {
        return Err(found.error);
      }
      r := ReadStartxref(parseInt);
    }

    /** The loop of `process_data_at_eof`, looking for the `%%EOF` line within the last 1024 bytes. */
    method SkipToEofMarker() returns (r: Result<(), EofError>)
      modifies this
      ensures data == old(data)
      ensures match FindEofMarker(data, old(pos), old(pos))
        case Ok(q) => r == Ok(()) && pos == q
        case Err(e) => r == Err(e)
    {
      ghost var start := pos;
      ghost var goal := FindEofMarker(data, pos, start);
      var last1k: int := pos as int - 1024 + 1;
      var line: seq<byte> := [];
      while Prefix(line, 5) != EofMarker
        invariant data == old(data)
        invariant last1k == start as int - 1024 + 1
        invariant Prefix(line, 5) != EofMarker ==> FindEofMarker(data, pos, start) == goal
        invariant Prefix(line, 5) == EofMarker ==> goal == Ok(pos)
        decreases pos
      {
        if pos < last1k {
          return Err(EofMarkerNotFound);
        }
        var next := ReadNextEndLine();
        if next.Err? {
          return Err(next.error);
        }
        line := next.value;
      }
      r := Ok(());
    }

    /** The rest of `process_data_at_eof`: the offset, and the `startxref` keyword above or before it. */
    method ReadStartxref(parseInt: seq<byte> -> Option<int>) returns (r: Result<int, EofError>)
      modifies this
      ensures data == old(data)
      ensures r == StartxrefBefore(data, old(pos), parseInt)
    {
      var offsetLine := ReadNextEndLine();
      if offsetLine.Err? {
        return Err(offsetLine.error);
      }
      var line := offsetLine.value;
      var startxref := parseInt(line);
      if startxref.None? {
        if Prefix(line, 9) != StartxrefKeyword {
          return Err(StartxrefNotFound);
        }
        var sameLine := parseInt(Strip(line[9..]));
        if sameLine.None? {
          return Err(NotAnInteger);
        }
        return Ok(sameLine.value);
      }
      var keywordLine := ReadNextEndLine();
      if keywordLine.Err? {
        return Err(keywordLine.error);
      }
      if Prefix(keywordLine.value, 9) != StartxrefKeyword {
        return Err(StartxrefNotFound);
      }
      return Ok(startxref.value);
    }
  }

  /** Scanning back from `p` stops at the last line break at or before it. */
  lemma {:induction false} ScanBackFindsBreak(data: seq<byte>, k: nat, p: nat)
    requires 1 <= k <= p < |data| && IsEol(data[k])
    requires forall i | k < i <= p :: !IsEol(data[i])
    ensures ScanBack(data, p) == Ok(k)
    decreases p
  {
    if p > k {
      ScanBackFindsBreak(data, k, p - 1);
    }
  }

  /** No line break lies between the one `ScanBack` stops at and the start. */
  lemma {:induction false} ScanBackSkipsLine(data: seq<byte>, p: nat)
    ensures ScanBack(data, p).Ok? ==> forall i | ScanBack(data, p).value < i <= p :: !IsEol(data[i])
    decreases p
  {
    if 0 < p < |data| && !IsEol(data[p]) {
      ScanBackSkipsLine(data, p - 1);
    }
  }

  /**
   * The line `read_next_end_line` returns follows a line break and holds
   * none, and the new position lies before that break.
   */
  lemma NextEndLineShape(data: seq<byte>, p: nat)
    ensures NextEndLine(data, p).Ok? ==> var (line, q) := NextEndLine(data, p).value;
      NoEol(line) && exists k | 1 <= k <= p < |data| :: IsEol(data[k]) && line == data[k + 1..p + 1] && q < k
  {
    if NextEndLine(data, p).Ok? {
      var k := ScanBack(data, p).value;
      ScanBackSkipsLine(data, p);
      var line := data[k + 1..p + 1];
      forall i | 0 <= i < |line|
        ensures !IsEol(line[i])
      {
        assert line[i] == data[k + 1 + i];
      }
    }
  }

  /**
   * A line after a single line break: the line is read, and the position
   * moves to the last byte of the line before it.
   */
  lemma NextEndLineAfterBreak(data: seq<byte>, k: nat, p: nat)
    requires 2 <= k <= p < |data| && IsEol(data[k]) && !IsEol(data[k - 1])
    requires NoEol(data[k + 1..p + 1])
    ensures NextEndLine(data, p) == Ok((data[k + 1..p + 1], k - 1))
  {
    forall i | k < i <= p
      ensures !IsEol(data[i])
    {
      assert data[i] == data[k + 1..p + 1][i - k - 1];
    }
    ScanBackFindsBreak(data, k, p);
  }

  /** A `%%EOF` line found reading back from `p` starts before `p`. */
  lemma {:induction false} MarkerFound(data: seq<byte>, p: nat, start: nat)
    ensures FindEofMarker(data, p, start).Ok? ==> exists k: nat | k < p :: MarkerAt(data, k)
    decreases p
  {
    if p >= start - 1024 + 1 {
      match ScanBack(data, p)
      case Err(_) =>
      case Ok(k) =>
        match SkipEol(data, k - 1, false)
        case Err(_) =>
        case Ok(q) =>
          var line := data[k + 1..p + 1];
          if Prefix(line, 5) == EofMarker {
            assert data[k + 1..k + 1 + 5] == line[..5];
            assert MarkerAt(data, k + 1);
          } else {
            MarkerFound(data, q, start);
          }
    }
  }

  /** Without `%%EOF` anywhere in the file, no `%%EOF` line is found. */
  lemma NoMarkerNotFound(data: seq<byte>, p: nat, start: nat)
    requires forall k: nat :: !MarkerAt(data, k)
    ensures FindEofMarker(data, p, start).Err?
  {
    MarkerFound(data, p, start);
  }

  /** Without `%%EOF` anywhere in the file there is no offset to read. */
  lemma NoMarkerNoOffset(data: seq<byte>, p: nat, parseInt: seq<byte> -> Option<int>)
    requires forall k: nat :: !MarkerAt(data, k)
    ensures DataAtEof(data, p, parseInt).Err?
  {
    NoMarkerNotFound(data, p, p);
  }

  /** A `%%EOF` line at the very end, after a single line break, is found at once. */
  lemma EofLineAtEnd(data: seq<byte>, e: nat)
    requires 2 <= e && |data| == e + 6 && data[e] == LF && !IsEol(data[e - 1])
    requires data[e + 1..] == EofMarker
    ensures FindEofMarker(data, e + 5, e + 5) == Ok(e - 1)
  {
    NextEndLineAfterBreak(data, e, e + 5);
  }

  /**
   * A line break at `b`, `startxref`, a line break, then the offset up to
   * position `e`: reading back from the offset's last byte gives it.
   */
  lemma OffsetBelowKeyword(data: seq<byte>, b: nat, e: nat, n: int, parseInt: seq<byte> -> Option<int>)
    requires 2 <= b && b + 11 < e <= |data|
    requires data[b] == LF && !IsEol(data[b - 1]) && data[b + 1..b + 10] == StartxrefKeyword && data[b + 10] == LF
    requires NoEol(data[b + 11..e]) && parseInt(data[b + 11..e]) == Some(n)
    ensures StartxrefBefore(data, e - 1, parseInt) == Ok(n)
  {
    assert data[e - 1] == data[b + 11..e][e - 1 - (b + 11)];
    NextEndLineAfterBreak(data, b + 10, e - 1);
    NextEndLineAfterBreak(data, b, b + 9);
  }

  /**
   * A line break at `b`, then `startxref` and the offset on one line up to
   * position `e`: reading back from the line's last byte gives the offset.
   */
  lemma OffsetOnKeywordLine(data: seq<byte>, b: nat, e: nat, n: int, parseInt: seq<byte> -> Option<int>)
    requires 2 <= b && b + 10 <= e <= |data|
    requires data[b] == LF && !IsEol(data[b - 1]) && data[b + 1..b + 10] == StartxrefKeyword
    requires NoEol(data[b + 10..e])
    requires parseInt(data[b + 1..e]) == None && parseInt(Strip(data[b + 10..e])) == Some(n)
    ensures StartxrefBefore(data, e - 1, parseInt) == Ok(n)
  {
    var line := data[b + 1..e];
    assert line[..9] == StartxrefKeyword && line[9..] == data[b + 10..e];
    forall i | 0 <= i < |line|
      ensures !IsEol(line[i])
    {
      if i >= 9 {
        assert line[i] == data[b + 10..e][i - 9];
      } else {
        assert line[i] == StartxrefKeyword[i];
      }
    }
    NextEndLineAfterBreak(data, b, e - 1);
  }

  /** Once the `%%EOF` line is found, the offset is what the lines before it give. */
  lemma DataAtEofSteps(data: seq<byte>, p: nat, q: nat, n: int, parseInt: seq<byte> -> Option<int>)
    requires FindEofMarker(data, p, p) == Ok(q) && StartxrefBefore(data, q, parseInt) == Ok(n)
    ensures DataAtEof(data, p, parseInt) == Ok(n)
  {
  }

  /**
   * The lines of a writer's tail, by position: a line break at `b`,
   * `startxref`, a line break, the offset up to `e`, a line break and
   * `%%EOF` as the last five bytes. Read from the last byte, the `%%EOF`
   * line is found at once and the lines before it give the offset, which
   * `DataAtEofSteps` makes the result of `process_data_at_eof`.
   */
  lemma WriterTailAt(data: seq<byte>, b: nat, e: nat, n: int, parseInt: seq<byte> -> Option<int>)
    requires 2 <= b && b + 11 < e && |data| == e + 6
    requires data[b] == LF && !IsEol(data[b - 1]) && data[b + 1..b + 10] == StartxrefKeyword && data[b + 10] == LF
    requires NoEol(data[b + 11..e]) && parseInt(data[b + 11..e]) == Some(n)
    requires data[e] == LF && data[e + 1..] == EofMarker
    ensures FindEofMarker(data, e + 5, e + 5) == Ok(e - 1)
    ensures StartxrefBefore(data, e - 1, parseInt) == Ok(n)
  {
    assert data[e - 1] == data[b + 11..e][e - 1 - (b + 11)];
    EofLineAtEnd(data, e);
    OffsetBelowKeyword(data, b, e, n, parseInt);
  }

  /** The same, with `startxref` and the offset on one line. */
  lemma SameLineTailAt(data: seq<byte>, b: nat, e: nat, n: int, parseInt: seq<byte> -> Option<int>)
    requires 2 <= b && b + 10 <= e && |data| == e + 6
    requires data[b] == LF && !IsEol(data[b - 1]) && data[b + 1..b + 10] == StartxrefKeyword
    requires NoEol(data[b + 10..e])
    requires parseInt(data[b + 1..e]) == None && parseInt(Strip(data[b + 10..e])) == Some(n)
    requires data[e] == LF && data[e + 1..] == EofMarker
    ensures FindEofMarker(data, e + 5, e + 5) == Ok(e - 1)
    ensures StartxrefBefore(data, e - 1, parseInt) == Ok(n)
  {
    if e == b + 10 {
      assert data[e - 1] == StartxrefKeyword[8];
    } else {
      assert data[e - 1] == data[b + 10..e][e - 1 - (b + 10)];
    }
    EofLineAtEnd(data, e);
    OffsetOnKeywordLine(data, b, e, n, parseInt);
  }

  /**
   * The tail a writer emits after the last object, `startxref`, the offset
   * and `%%EOF` on lines of their own with no line break at the very end,
   * has the layout `WriterTailAt` reads.
   */
  lemma WriterTailLayout(body: seq<byte>, digits: seq<byte>)
    requires |body| >= 2 && !IsEol(body[|body| - 1]) && NoEol(digits) && digits != []
    ensures var data := body + [LF] + StartxrefKeyword + [LF] + digits + [LF] + EofMarker;
      var b := |body|;
      var e := b + 11 + |digits|;
      2 <= b && b + 11 < e && |data| == e + 6 &&
      data[b] == LF && !IsEol(data[b - 1]) && data[b + 1..b + 10] == StartxrefKeyword && data[b + 10] == LF &&
      data[b + 11..e] == digits && data[e] == LF && data[e + 1..] == EofMarker
  {
    var data := body + [LF] + StartxrefKeyword + [LF] + digits + [LF] + EofMarker;
    assert data[|body| - 1] == body[|body| - 1];
  }

  /** The tail of older writers, with `startxref` and the offset on one line, has the layout `SameLineTailAt` reads. */
  lemma SameLineTailLayout(body: seq<byte>, rest: seq<byte>)
    requires |body| >= 2 && !IsEol(body[|body| - 1])
    ensures var data := body + [LF] + StartxrefKeyword + rest + [LF] + EofMarker;
      var b := |body|;
      var e := b + 10 + |rest|;
      2 <= b && b + 10 <= e && |data| == e + 6 &&
      data[b] == LF && !IsEol(data[b - 1]) && data[b + 1..b + 10] == StartxrefKeyword &&
      data[b + 1..e] == StartxrefKeyword + rest && data[b + 10..e] == rest &&
      data[e] == LF && data[e + 1..] == EofMarker
  {
    var data := body + [LF] + StartxrefKeyword + rest + [LF] + EofMarker;
    assert data[|body| - 1] == body[|body| - 1];
    assert data[|body| + 1..|body| + 10] == (StartxrefKeyword + rest)[..9];
  }
}
