/**
 * `read_xref_stream` as a function of the tables: the subsections of a
 * cross-reference stream (section 7.5.8 of ISO 32000-1), each entry's three
 * fields read one after the other from the stream data and dispatched on
 * the type field, then the section closed.
 */
module XrefStreams {
  import opened Wrappers
  import opened Bytes
  import opened PdfObjects
  import opened XrefFields
  import opened XrefTables

  /** The parts of a cross-reference stream the reader uses: its decoded data, /Index, /Size and /W. */
  datatype XrefStream = XrefStream(data: seq<byte>, index: Option<seq<(int, int)>>, size: Option<int>, widths: Option<seq<int>>)

  /**
   * The (start, count) subsections: /Index, or one subsection of /Size
   * entries from object 0. Without either, the first subsection's end
   * cannot be computed.
   */
  function Subsections(s: XrefStream): (r: Result<seq<(int, int)>, ReadError>)
    ensures s.index.Some? ==> r == Ok(s.index.value)
    ensures s.index.None? && s.size.Some? ==> r == Ok([(0, s.size.value)])
    ensures r.Err? <==> s.index.None? && s.size.None?
    ensures r.Err? ==> r.error == MissingSize
  {
    if s.index.Some? then Ok(s.index.value)
    else if s.size.Some? then Ok([(0, s.size.value)])
    else Err(MissingSize)
  }

  /**
   * The type dispatch of one entry: type 1 is an object at an offset
   * (`put_ref` with the third field as generation), type 2 an object in an
   * object stream, type 0 a free (the third field is the next generation);
   * any other type changes nothing.
   */
  function ApplyEntry(t: Tables, num: int, f: Fields): (o: Outcome)
    ensures f.kind !in {0, 1, 2} ==> o == Outcome(t, Ok(()))
    ensures f.kind == 2 ==> o.status.Ok?
  {
    if f.kind == 1 then Put(t, num, f.field2, f.field1)
    else if f.kind == 2 then Outcome(PutInStream(t, num, f.field1, f.field2), Ok(()))
    else if f.kind == 0 then Free(t, num, f.field2)
    else Outcome(t, Ok(()))
  }

  /**
   * The entries for objects `num` up to `end` - 1, read from `pos` on: the
   * outcome when the last is applied or the first failure, and the
   * position reached.
   */
  function ReadEntries(t: Tables, data: seq<byte>, widths: Option<seq<int>>, pos: nat, num: int, end: int): (r: (Outcome, nat))
    requires pos <= |data|
    ensures pos <= r.1 <= |data|
    decreases end - num, 2
  {
    if num >= end then (Outcome(t, Ok(())), pos)
    else ReadEntryThenRest(t, data, widths, pos, num, end)
  }

  function ReadEntryThenRest(t: Tables, data: seq<byte>, widths: Option<seq<int>>, pos: nat, num: int, end: int): (r: (Outcome, nat))
    requires pos <= |data| && num < end
    ensures pos <= r.1 <= |data|
    decreases end - num, 1
  {
    match ReadFields(data, widths, pos)
    case Err(e) => (Outcome(t, Err(e)), pos)
    case Ok((f, p)) => ApplyThenRest(t, data, widths, f, p, num, end)
  }

  function ApplyThenRest(t: Tables, data: seq<byte>, widths: Option<seq<int>>, f: Fields, p: nat, num: int, end: int): (r: (Outcome, nat))
    requires p <= |data| && num < end
    ensures p <= r.1 <= |data|
    decreases end - num, 0
  {
    var o := ApplyEntry(t, num, f);
    if o.status.Err? then (o, p) else ReadEntries(o.tables, data, widths, p, num + 1, end)
  }

  /** One step of `ReadEntries`: the entry at `pos` is read, then applied, then the rest follows from where it ended. */
  lemma ReadEntriesStep(t: Tables, data: seq<byte>, widths: Option<seq<int>>, pos: nat, num: int, end: int)
    requires pos <= |data| && num < end
    ensures ReadEntries(t, data, widths, pos, num, end) ==
      match ReadFields(data, widths, pos)
      case Err(e) => (Outcome(t, Err(e)), pos)
      case Ok((f, p)) =>
        var o := ApplyEntry(t, num, f);
        if o.status.Err? then (o, p) else ReadEntries(o.tables, data, widths, p, num + 1, end)
  {
    assert ReadEntries(t, data, widths, pos, num, end) == ReadEntryThenRest(t, data, widths, pos, num, end);
    match ReadFields(data, widths, pos)
    case Err(e) =>
    case Ok((f, p)) =>
      assert ReadEntryThenRest(t, data, widths, pos, num, end) == ApplyThenRest(t, data, widths, f, p, num, end);
  }

  /** The subsections from the `i`-th on, each required to start no earlier than the previous one ends. */
  function ReadSubsections(t: Tables, data: seq<byte>, widths: Option<seq<int>>, pos: nat,
                           pairs: seq<(int, int)>, i: nat, lastEnd: int): Outcome
    requires pos <= |data|
    decreases |pairs| - i
  {
    if i >= |pairs| then Outcome(t, Ok(()))
    else
      var (start, count) := pairs[i];
      if start < lastEnd then Outcome(t, Err(SubsectionsOverlap))
      else
        var (o, p) := ReadEntries(t, data, widths, pos, start, start + count);
        if o.status.Err? then o else ReadSubsections(o.tables, data, widths, p, pairs, i + 1, start + count)
  }

  /** `read_xref_stream`: every subsection, then `_next_section`. */
  function ReadXrefStream(t: Tables, s: XrefStream): (r: Outcome)
    ensures Subsections(s).Err? ==> r == Outcome(t, Err(Subsections(s).error))
    ensures r.status.Ok? ==> Subsections(s).Ok? && r.tables.currentSectionIds == {} && r.tables.currentSectionFreed == {}
  {
    match Subsections(s)
    case Err(e) => Outcome(t, Err(e))
    case Ok(pairs) =>
      var o := ReadSubsections(t, s.data, s.widths, 0, pairs, 0, 0);
      if o.status.Err? then o else Outcome(CloseSection(o.tables), Ok(()))
  }
}
