/**
 * What the cross-reference bookkeeping promises across calls: the tables
 * stay well formed, every stream closes exactly one section and leaves the
 * sections already filed alone, `put_ref` lets the newest section win, the
 * generation checks catch reuse without a free, and `get_historical_ref`
 * answers with the newest sighting at or before the revision asked for.
 */
module XrefProperties {
  import opened Wrappers
  import opened Bytes
  import opened PdfObjects
  import opened XrefFields
  import opened XrefTables
  import opened XrefStreams

  /** The revision number of a sighting: sections count from the newest, revisions from the oldest. */
  function RevisionOf(t: Tables, s: Sighting): int {
    t.xrefSections - 1 - s.section
  }

  /**
   * `__getitem__` after `put_ref`: the reference put now resolves to its
   * offset, unless a newer section already uses that generation or the object
   * sits in an object stream (generation 0), and every other lookup answers
   * as before. A raising call changes no lookup.
   */
  lemma LocateAfterPut(t: Tables, idnum: int, generation: int, start: int)
    ensures var r := Put(t, idnum, generation, start);
      forall ref :: Locate(r.tables, ref) ==
        if r.status.Ok? && ref == Reference(idnum, generation) && !UsedLater(t, idnum, generation) &&
           !(generation == 0 && idnum in t.inObjStream)
        then Ok(AtOffset(start)) else Locate(t, ref)
  {
    var r := Put(t, idnum, generation, start);
    assert r.tables.inObjStream == t.inObjStream;
  }

  /**
   * `__getitem__` after `put_obj_stream_ref`: generation 0 of the object now
   * resolves to its place in the object stream, unless a newer section
   * already uses it, and every other lookup answers as before.
   */
  lemma LocateAfterPutInStream(t: Tables, idnum: int, streamNum: int, streamIx: int)
    ensures var u := PutInStream(t, idnum, streamNum, streamIx);
      forall ref :: Locate(u, ref) ==
        if ref == Reference(idnum, 0) && !UsedLater(t, idnum, 0) then Ok(InObjectStream(streamNum, streamIx))
        else Locate(t, ref)
  {
    var u := PutInStream(t, idnum, streamNum, streamIx);
    assert u.standardXrefs == t.standardXrefs;
  }

  /**
   * `__getitem__` after `free_ref`: the generation before the next one (65535
   * when the next is 0) resolves to the null object, whether or not the call
   * then raises, unless it is generation 0 of an object in an object stream;
   * every other lookup answers as before. Object 0 changes nothing.
   */
  lemma LocateAfterFree(t: Tables, idnum: int, nextGeneration: int)
    ensures var prev := if nextGeneration != 0 then nextGeneration - 1 else 0xffff;
      var u := Free(t, idnum, nextGeneration).tables;
      forall ref :: Locate(u, ref) ==
        if idnum != 0 && ref == Reference(idnum, prev) && !(prev == 0 && idnum in t.inObjStream)
        then Ok(FreedSlot) else Locate(t, ref)
  {
    var u := Free(t, idnum, nextGeneration).tables;
    assert u.inObjStream == t.inObjStream;
  }

  /**
   * The newest section wins: once `put_ref` has placed a reference while
   * reading a section, the same reference put again from an older section,
   * read after it, still resolves to the newer offset.
   */
  lemma NewestSectionWins(t: Tables, idnum: int, generation: int, start: int, start': int)
    requires Put(t, idnum, generation, start).status.Ok?
    requires !UsedLater(t, idnum, generation) && !(generation == 0 && idnum in t.inObjStream)
    ensures var older := CloseSection(Put(t, idnum, generation, start).tables);
      Locate(Put(older, idnum, generation, start').tables, Reference(idnum, generation)) == Ok(AtOffset(start))
  {
    var ref := Reference(idnum, generation);
    var newer := Put(t, idnum, generation, start).tables;
    var older := CloseSection(newer);
    LocateAfterPut(t, idnum, generation, start);
    assert Locate(older, ref) == Locate(newer, ref) == Ok(AtOffset(start));
    assert UsedLater(older, idnum, generation);
    LocateAfterPut(older, idnum, generation, start');
  }

  /** A sighting recorded in the section being read keeps a history in reading order. */
  lemma ChronologicalAppend(h: seq<Sighting>, bound: nat, s: Sighting)
    requires Chronological(h, bound) && s.section == bound
    ensures Chronological(h + [s], bound)
  {
    var h' := h + [s];
    forall i, j | 0 <= i < j < |h'|
      ensures h'[i].section <= h'[j].section
    {
      if j < |h| {
        assert h'[i] == h[i] && h'[j] == h[j];
      } else {
        assert h'[i] == h[i] && h'[j] == s;
      }
    }
  }

  /** Histories in reading order up to one section stay so when a further section begins. */
  lemma ChronologicalWiden(t: Tables)
    requires forall k | k in t.history :: Chronological(t.history[k], t.xrefSections)
    ensures forall k | k in t.history :: Chronological(t.history[k], t.xrefSections + 1)
  {
  }

  /** `_next_section` keeps the tables well formed and files one more section. */
  lemma CloseSectionWellFormed(t: Tables)
    requires WellFormed(t)
    ensures WellFormed(CloseSection(t))
    ensures CloseSection(t).xrefSections == t.xrefSections + 1
    ensures CloseSection(t).refsBySection[..t.xrefSections] == t.refsBySection
    ensures CloseSection(t).freedBySection[..t.xrefSections] == t.freedBySection
    ensures CloseSection(t).freedBySection[t.xrefSections] == t.currentSectionFreed
  {
    var c := CloseSection(t);
    ChronologicalWiden(t);
    forall i | 0 <= i < c.xrefSections
      ensures c.freedBySection[i] <= c.refsBySection[i]
    {
      if i < t.xrefSections {
        assert c.freedBySection[i] == t.freedBySection[i] && c.refsBySection[i] == t.refsBySection[i];
      }
    }
    assert c.refsBySection[..t.xrefSections] == t.refsBySection;
    assert c.freedBySection[..t.xrefSections] == t.freedBySection;
  }

  /** `put_ref` keeps the tables well formed. */
  lemma PutWellFormed(t: Tables, idnum: int, generation: int, start: int)
    requires WellFormed(t)
    ensures WellFormed(Put(t, idnum, generation, start).tables)
  {
    var r := Put(t, idnum, generation, start);
    if r.status.Ok? {
      var key := (generation, idnum);
      assert Chronological(History(t, key), t.xrefSections);
      ChronologicalAppend(History(t, key), t.xrefSections, Sighting(t.xrefSections, AtOffset(start)));
      assert forall k | k in r.tables.history :: k == key || r.tables.history[k] == t.history[k];
    }
  }

  /** `free_ref` keeps the tables well formed. */
  lemma FreeWellFormed(t: Tables, idnum: int, nextGeneration: int)
    requires WellFormed(t)
    ensures WellFormed(Free(t, idnum, nextGeneration).tables)
  {
  }

  /** `put_obj_stream_ref` keeps the tables well formed. */
  lemma PutInStreamWellFormed(t: Tables, idnum: int, streamNum: int, streamIx: int)
    requires WellFormed(t)
    ensures WellFormed(PutInStream(t, idnum, streamNum, streamIx))
  {
    var r := PutInStream(t, idnum, streamNum, streamIx);
    var key := (0, idnum);
    assert Chronological(History(t, key), t.xrefSections);
    ChronologicalAppend(History(t, key), t.xrefSections, Sighting(t.xrefSections, InObjectStream(streamNum, streamIx)));
    assert forall k | k in r.history :: k == key || r.history[k] == t.history[k];
  }

  /** One entry of a stream keeps the tables well formed and files no section. */
  lemma ApplyEntryKeeps(t: Tables, num: int, f: Fields)
    requires WellFormed(t)
    ensures WellFormed(ApplyEntry(t, num, f).tables)
    ensures SameClosedSections(t, ApplyEntry(t, num, f).tables)
  {
    if f.kind == 1 {
      PutWellFormed(t, num, f.field2, f.field1);
    } else if f.kind == 2 {
      PutInStreamWellFormed(t, num, f.field1, f.field2);
    } else if f.kind == 0 {
      FreeWellFormed(t, num, f.field2);
    }
  }

  /** The entries of a subsection keep the tables well formed and file no section, whether or not they fail. */
  lemma {:induction false} ReadEntriesKeeps(t: Tables, data: seq<byte>, widths: Option<seq<int>>, pos: nat, num: int, end: int)
    requires pos <= |data| && WellFormed(t)
    ensures WellFormed(ReadEntries(t, data, widths, pos, num, end).0.tables)
    ensures SameClosedSections(t, ReadEntries(t, data, widths, pos, num, end).0.tables)
    decreases end - num
  {
    if num < end {
      ReadEntriesStep(t, data, widths, pos, num, end);
      match ReadFields(data, widths, pos)
      case Err(e) =>
      case Ok((f, p)) =>
        ApplyEntryKeeps(t, num, f);
        var o := ApplyEntry(t, num, f);
        if o.status.Ok? {
          ReadEntriesKeeps(o.tables, data, widths, p, num + 1, end);
        }
    }
  }

  /** The subsections of a stream keep the tables well formed and file no section. */
  lemma {:induction false} ReadSubsectionsKeeps(t: Tables, data: seq<byte>, widths: Option<seq<int>>, pos: nat,
                                                pairs: seq<(int, int)>, i: nat, lastEnd: int)
    requires pos <= |data| && WellFormed(t)
    ensures WellFormed(ReadSubsections(t, data, widths, pos, pairs, i, lastEnd).tables)
    ensures SameClosedSections(t, ReadSubsections(t, data, widths, pos, pairs, i, lastEnd).tables)
    decreases |pairs| - i
  {
    if i < |pairs| {
      var (start, count) := pairs[i];
      if start >= lastEnd {
        ReadEntriesKeeps(t, data, widths, pos, start, start + count);
        var (o, p) := ReadEntries(t, data, widths, pos, start, start + count);
        if o.status.Ok? {
          ReadSubsectionsKeeps(o.tables, data, widths, p, pairs, i + 1, start + count);
        }
      }
    }
  }

  /**
   * `read_xref_stream` keeps the tables well formed. Read in full, it files
   * exactly one more section, after the ones already filed and leaving them
   * as they were; when it raises, no section is filed.
   */
  lemma ReadXrefStreamSections(t: Tables, s: XrefStream)
    requires WellFormed(t)
    ensures var o := ReadXrefStream(t, s);
      WellFormed(o.tables) &&
      (o.status.Err? ==> SameClosedSections(t, o.tables)) &&
      (o.status.Ok? ==>
         o.tables.xrefSections == t.xrefSections + 1 &&
         o.tables.refsBySection[..t.xrefSections] == t.refsBySection &&
         o.tables.freedBySection[..t.xrefSections] == t.freedBySection)
  {
    match Subsections(s)
    case Err(e) =>
    case Ok(pairs) =>
      ReadSubsectionsKeeps(t, s.data, s.widths, 0, pairs, 0, 0);
      var o := ReadSubsections(t, s.data, s.widths, 0, pairs, 0, 0);
      if o.status.Ok? {
        CloseSectionWellFormed(o.tables);
      }
  }

  /**
   * A reference freed in the newest section is still among the references
   * freed in the last revision once an older stream section has been read.
   */
  lemma FreedInLastRevisionStays(t: Tables, s: XrefStream, ref: Reference)
    requires WellFormed(t) && t.xrefSections >= 1 && ref in t.freedBySection[0]
    requires ReadXrefStream(t, s).status.Ok?
    ensures var u := ReadXrefStream(t, s).tables;
      WellFormed(u) && RefsFreedInRevision(u, u.xrefSections - 1).Ok? &&
      ref in RefsFreedInRevision(u, u.xrefSections - 1).value
  {
    ReadXrefStreamSections(t, s);
    var u := ReadXrefStream(t, s).tables;
    assert u.freedBySection[0] == u.freedBySection[..t.xrefSections][0];
  }

  /**
   * The newest section of a file freeing objects 0 and 2 with the lines
   * `0000000000 65535 f` and `0000000000 00001 f`: object 0 is ignored and
   * reference (2, 0) is freed in the last revision.
   */
  lemma FreeObjectTwoInNewestSection()
    ensures var t1 := Free(Empty, 0, 65535);
      var t2 := Free(t1.tables, 2, 1);
      var t3 := CloseSection(t2.tables);
      t1 == Outcome(Empty, Ok(())) && t2.status.Ok? && WellFormed(t3) &&
      RefsFreedInRevision(t3, t3.xrefSections - 1) == Ok({Reference(2, 0)})
  {
    var t2 := Free(Empty, 2, 1);
    assert !StillInUse(Empty, 2, 0);
    assert t2.tables.currentSectionFreed == {Reference(2, 0)};
    CloseSectionWellFormed(t2.tables);
    var t3 := CloseSection(t2.tables);
    assert t3.xrefSections == 1 && t3.freedBySection == [{Reference(2, 0)}];
  }

  /**
   * A positive generation written in a newer section, then the object freed
   * with that next generation further back: the free is accepted and nothing
   * is left expecting a free, so the reader finds no orphans.
   */
  lemma FreeAnswersExpectedFree(t: Tables, idnum: int, generation: int, start: int)
    requires WellFormed(t) && t.previousExpectedFree == map[]
    requires idnum != 0 && 0 < generation <= 0xffff && idnum !in t.generations
    ensures var p := Put(t, idnum, generation, start);
      var f := Free(CloseSection(p.tables), idnum, generation);
      p.status.Ok? && CheckNoOrphans(p.tables).Err? && f.status.Ok? && CheckNoOrphans(f.tables).Ok?
  {
    var p := Put(t, idnum, generation, start);
    assert p.tables.generations[idnum] == {generation};
    var c := CloseSection(p.tables);
    assert !StillInUse(c, idnum, generation - 1);
    assert c.previousExpectedFree == map[idnum := generation];
    var f := Free(c, idnum, generation);
    assert f.tables.previousExpectedFree == map[];
  }

  /**
   * Reusing an object number whose positive generation still waits for its
   * free raises, in the same section or any older one.
   */
  lemma ReuseBeforeFreeRaises(t: Tables, idnum: int, generation: int, start: int, sections: nat, generation': int, start': int)
    requires Put(t, idnum, generation, start).status.Ok? && generation > 0
    ensures var u := CloseSections(Put(t, idnum, generation, start).tables, sections);
      Put(u, idnum, generation', start') == Outcome(u, Err(NeverFreed))
  {
  }

  /** `sections` calls of `_next_section`. */
  function CloseSections(t: Tables, sections: nat): (u: Tables)
    ensures u.previousExpectedFree == t.previousExpectedFree
    decreases sections
  {
    if sections == 0 then t else CloseSections(CloseSection(t), sections - 1)
  }

  /**
   * A free whose next generation is not the one a newer section's write
   * announced raises, when no newer section still uses a generation up to
   * the freed one.
   */
  lemma FreeWithOtherGenerationRaises(t: Tables, idnum: int, generation: int, start: int, nextGeneration: int)
    requires idnum != 0 && idnum !in t.previousExpectedFree && 0 < generation <= 0xffff
    requires nextGeneration != generation
    requires var u := CloseSection(Put(t, idnum, generation, start).tables);
      !StillInUse(u, idnum, if nextGeneration != 0 then nextGeneration - 1 else 0xffff)
    ensures Free(CloseSection(Put(t, idnum, generation, start).tables), idnum, nextGeneration).status == Err(FreeGenerationMismatch)
  {
  }

  /**
   * `get_historical_ref(ref, revision)` answers with the sighting from the
   * newest section whose revision is at or before `revision`, and raises
   * exactly when every sighting is newer than that.
   */
  lemma HistoricalRefNewest(t: Tables, ref: Reference, revision: int)
    requires WellFormed(t)
    ensures var h := History(t, (ref.generation, ref.idnum));
      HistoricalRef(t, ref, revision).Err? <==> forall j | 0 <= j < |h| :: RevisionOf(t, h[j]) > revision
    ensures var h := History(t, (ref.generation, ref.idnum));
      HistoricalRef(t, ref, revision).Ok? ==>
        exists i | 0 <= i < |h| ::
          h[i].marker == HistoricalRef(t, ref, revision).value && RevisionOf(t, h[i]) <= revision &&
          forall j | 0 <= j < |h| && RevisionOf(t, h[j]) <= revision :: RevisionOf(t, h[j]) <= RevisionOf(t, h[i])
  {
    var h := History(t, (ref.generation, ref.idnum));
    assert Chronological(h, t.xrefSections);
    match FirstAtOrBefore(h, t.xrefSections - 1, revision)
    case None =>
    case Some(i) =>
      forall j | 0 <= j < |h| && RevisionOf(t, h[j]) <= revision
        ensures RevisionOf(t, h[j]) <= RevisionOf(t, h[i])
      {
        if j >= i {
          assert h[i].section <= h[j].section;
        }
      }
  }

  /** Once a reference has a sighting at some revision, every later revision sees one too. */
  lemma HistoricalRefMonotone(t: Tables, ref: Reference, revision: int, later: int)
    requires WellFormed(t) && revision <= later && HistoricalRef(t, ref, revision).Ok?
    ensures HistoricalRef(t, ref, later).Ok?
  {
    HistoricalRefNewest(t, ref, revision);
    HistoricalRefNewest(t, ref, later);
  }
}
