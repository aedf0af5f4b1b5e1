/**
 * `XRefCache`: the cross-reference tables of a file as the reader fills
 * them in, section by section, newest first. The object's attributes are
 * held together in one `Tables` record that the methods update in place,
 * one attribute at a time and in the order the source does; each method is
 * proved to move the record exactly as the functions of `XrefTables` and
 * `XrefStreams` say.
 */
module XrefCache {
  import opened Wrappers
  import opened Bytes
  import opened PdfObjects
  import opened XrefFields
  import opened XrefTables
  import opened XrefStreams
  import opened XrefProperties

  class XRefCache {
    /** The attributes of the cache. */
    var tables: Tables

    ghost predicate Valid()
      reads this
    {
      WellFormed(tables)
    }

    constructor()
      ensures tables == Empty && Valid()
    {
      tables := Empty;
    }

    /** `_next_section`. */
    method NextSection()
      requires Valid()
      modifies this
      ensures Valid()
      ensures tables == CloseSection(old(tables))
    {
      CloseSectionWellFormed(tables);
      tables := tables.(xrefSections := tables.xrefSections + 1);
      tables := tables.(refsBySection := tables.refsBySection + [tables.currentSectionIds]);
      tables := tables.(currentSectionIds := {});
      tables := tables.(freedBySection := tables.freedBySection + [tables.currentSectionFreed]);
      tables := tables.(currentSectionFreed := {});
    }

    /** `free_ref`. */
    method FreeRef(idnum: int, nextGeneration: int) returns (r: Result<(), ReadError>)
      requires Valid()
      modifies this
      ensures Valid()
      ensures Outcome(tables, r) == Free(old(tables), idnum, nextGeneration)
    {
      FreeWellFormed(tables, idnum, nextGeneration);
      ghost var expected := Free(tables, idnum, nextGeneration);
      if idnum == 0 {
        return Ok(());
      }
      var prev := if nextGeneration != 0 then nextGeneration - 1 else 0xffff;
      var nullRef := Reference(idnum, prev);
      var reused := StillInUse(tables, idnum, prev);
      tables := tables.(standardXrefs := tables.standardXrefs[(prev, idnum) := FreedSlot]);
      tables := tables.(currentSectionFreed := tables.currentSectionFreed + {nullRef});
      tables := tables.(currentSectionIds := tables.currentSectionIds + {nullRef});
      if reused {
        assert tables == expected.tables;
        return Err(ReusedAfterFree);
      }
      if idnum in tables.generations {
        tables := tables.(generations := tables.generations[idnum := tables.generations[idnum] + {prev}]);
      } else {
        tables := tables.(generations := tables.generations[idnum := {prev}]);
      }
      if idnum !in tables.lastChange {
        tables := tables.(lastChange := tables.lastChange[idnum := tables.xrefSections]);
      }
      r := Ok(());
      if idnum in tables.previousExpectedFree {
        var expectedGeneration := tables.previousExpectedFree[idnum];
        tables := tables.(previousExpectedFree := tables.previousExpectedFree - {idnum});
        if expectedGeneration != nextGeneration {
          r := Err(FreeGenerationMismatch);
        }
      }
      assert tables == expected.tables;
    }

    /** `put_ref`. */
    method PutRef(idnum: int, generation: int, start: int) returns (r: Result<(), ReadError>)
      requires Valid()
      modifies this
      ensures Valid()
      ensures Outcome(tables, r) == Put(old(tables), idnum, generation, start)
    {
      PutWellFormed(tables, idnum, generation, start);
      var t := tables;
      if idnum in t.previousExpectedFree {
        return Err(NeverFreed);
      }
      var expectedFree := t.previousExpectedFree;
      if generation > 0xffff {
        return Err(IllegalGeneration);
      } else if generation > 0 {
        expectedFree := expectedFree[idnum := generation];
      }
      var key := (generation, idnum);
      var marker := AtOffset(start);
      var section := t.xrefSections;
      var xrefs := t.standardXrefs;
      var lastChange := t.lastChange;
      var gens: set<int>;
      if !UsedLater(t, idnum, generation) {
        xrefs := xrefs[key := marker];
        lastChange := lastChange[idnum := section];
        gens := {generation};
      } else {
        gens := t.generations[idnum] + {generation};
      }
      tables := t.(previousExpectedFree := expectedFree, standardXrefs := xrefs, lastChange := lastChange,
                   generations := t.generations[idnum := gens],
                   history := t.history[key := History(t, key) + [Sighting(section, marker)]],
                   currentSectionIds := t.currentSectionIds + {Reference(idnum, generation)});
      r := Ok(());
    }

    /** `put_obj_stream_ref`. */
    method PutObjStreamRef(idnum: int, streamNum: int, streamIx: int)
      requires Valid()
      modifies this
      ensures Valid()
      ensures tables == PutInStream(old(tables), idnum, streamNum, streamIx)
    {
      PutInStreamWellFormed(tables, idnum, streamNum, streamIx);
      ghost var expected := PutInStream(tables, idnum, streamNum, streamIx);
      var section := tables.xrefSections;
      tables := tables.(objStreamsByRevision := tables.objStreamsByRevision[section := ObjStreamsIn(tables, section) + {Reference(streamNum, 0)}]);
      var marker := InObjectStream(streamNum, streamIx);
      if !UsedLater(tables, idnum, 0) {
        tables := tables.(inObjStream := tables.inObjStream[idnum := marker]);
        tables := tables.(lastChange := tables.lastChange[idnum := section]);
        tables := tables.(generations := tables.generations[idnum := {0}]);
      }
      tables := tables.(history := tables.history[(0, idnum) := History(tables, (0, idnum)) + [Sighting(section, marker)]]);
      tables := tables.(currentSectionIds := tables.currentSectionIds + {Reference(idnum, 0)});
      assert tables == expected;
    }

    /** The type dispatch of one entry of `read_xref_stream`. */
    method ApplyFields(num: int, f: Fields) returns (r: Result<(), ReadError>)
      requires Valid()
      modifies this
      ensures Valid()
      ensures Outcome(tables, r) == ApplyEntry(old(tables), num, f)
    {
      if f.kind == 1 {
        r := PutRef(num, f.field2, f.field1);
      } else if f.kind == 2 {
        PutObjStreamRef(num, f.field1, f.field2);
        r := Ok(());
      } else if f.kind == 0 {
        r := FreeRef(num, f.field2);
      } else {
        r := Ok(());
      }
    }

    /** One entry of a subsection, object `num`, read at `pos` and applied. */
    method ReadEntry(data: seq<byte>, widths: Option<seq<int>>, pos: nat, num: int, end: int)
      returns (r: Result<(), ReadError>, next: nat)
      requires pos <= |data| && num < end
      requires Valid()
      modifies this
      ensures Valid()
      ensures next <= |data|
      ensures r.Err? ==> (Outcome(tables, r), next) == ReadEntries(old(tables), data, widths, pos, num, end)
      ensures r.Ok? ==> ReadEntries(tables, data, widths, next, num + 1, end) == ReadEntries(old(tables), data, widths, pos, num, end)
    {
      ReadEntriesStep(tables, data, widths, pos, num, end);
      var read := ReadFields(data, widths, pos);
      if read.Err? {
        return Err(read.error), pos;
      }
      var (f, p) := read.value;
      r := ApplyFields(num, f);
      next := p;
    }

    /** The entries of one subsection, objects `start` to `end` - 1, read from `pos` on. */
    method ReadSubsection(data: seq<byte>, widths: Option<seq<int>>, pos: nat, start: int, end: int)
      returns (r: Result<(), ReadError>, next: nat)
      requires pos <= |data|
      requires Valid()
      modifies this
      ensures Valid()
      ensures (Outcome(tables, r), next) == ReadEntries(old(tables), data, widths, pos, start, end)
    {
      next := pos;
      var num := start;
      ghost var goal := ReadEntries(tables, data, widths, pos, start, end);
      while num < end
        invariant next <= |data| && Valid()
        invariant ReadEntries(tables, data, widths, next, num, end) == goal
        decreases end - num
      {
        r, next := ReadEntry(data, widths, next, num, end);
        if r.Err? {
          return;
        }
        num := num + 1;
      }
      r := Ok(());
    }

    /** `read_xref_stream`. */
    method ReadXrefStream(s: XrefStream) returns (r: Result<(), ReadError>)
      requires Valid()
      modifies this
      ensures Valid()
      ensures Outcome(tables, r) == XrefStreams.ReadXrefStream(old(tables), s)
    {
      var pairs: seq<(int, int)>;
      match Subsections(s) {
        case Err(e) => return Err(e);
        case Ok(p) => pairs := p;
      }
      var pos: nat := 0;
      var lastEnd := 0;
      for i := 0 to |pairs|
        invariant pos <= |s.data| && Valid()
        invariant ReadSubsections(tables, s.data, s.widths, pos, pairs, i, lastEnd) ==
                  ReadSubsections(old(tables), s.data, s.widths, 0, pairs, 0, 0)
      {
        var (start, count) := pairs[i];
        if start < lastEnd {
          return Err(SubsectionsOverlap);
        }
        lastEnd := start + count;
        r, pos := ReadSubsection(s.data, s.widths, pos, start, start + count);
        if r.Err? {
          return;
        }
      }
      NextSection();
      r := Ok(());
    }

    /** `get_historical_ref`: the newest sighting, in reading order, at or before the revision. */
    method GetHistoricalRef(ref: Reference, revision: int) returns (r: Result<Location, ReadError>)
      ensures r == HistoricalRef(tables, ref, revision)
    {
      var maxIndex := tables.xrefSections - 1;
      var hist := History(tables, (ref.generation, ref.idnum));
      for i := 0 to |hist|
        invariant forall j | 0 <= j < i :: revision < maxIndex - hist[j].section
      {
        if revision >= maxIndex - hist[i].section {
          return Ok(hist[i].marker);
        }
      }
      return Err(NotInHistory);
    }

    /** The reader logging where a section starts, as it follows `startxref` and /Prev. */
    method RecordXrefLocation(location: int)
      requires Valid()
      modifies this
      ensures Valid()
      ensures tables == old(tables).(xrefLocations := old(tables).xrefLocations + [location])
    {
      tables := tables.(xrefLocations := tables.xrefLocations + [location]);
    }

    /** The reader noting the container of the section it is about to read. */
    method RecordContainerInfo(info: ContainerInfo)
      requires Valid()
      modifies this
      ensures Valid()
      ensures tables == old(tables).(xrefContainerInfo := old(tables).xrefContainerInfo + [info])
    {
      tables := tables.(xrefContainerInfo := tables.xrefContainerInfo + [info]);
    }
  }
}
