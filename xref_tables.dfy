/**
 * The bookkeeping of `XRefCache` as a value. The reader visits the
 * cross-reference sections of a file newest first (following each /Prev),
 * so section 0 is the newest and the revision numbers the rest of pyHanko
 * uses count the other way: revision 0 is the oldest section. Every lookup
 * below turns a revision into the section `xref_sections - 1 - revision`.
 *
 * The operations are functions from the old tables to an `Outcome`: the new
 * tables and whether the source raised. Where the source raises after
 * changing something, the outcome keeps those changes.
 */
module XrefTables {
  import opened Wrappers
  import opened PdfObjects
  import opened XrefFields

  /** Where the value of an object lives. */
  datatype Location =
    | AtOffset(offset: int)                      // `idnum gen obj` at this byte offset
    | InObjectStream(streamNum: int, index: int) // the `index`-th object of object stream `streamNum`
    | FreedSlot                                  // the null object a free leaves in `standard_xrefs`

  /** One sighting of an object: the section that lists it and where it was then. */
  datatype Sighting = Sighting(section: nat, marker: Location)

  /** What the reader notes about the container of each section: an xref stream, or a table's extent. */
  datatype ContainerInfo = StreamContainer(ref: Reference, end: int) | TableContainer(start: int, end: int)

  /** The keys of `standard_xrefs` and `history`: (generation, object number). */
  type XrefKey = (int, int)

  datatype Tables = Tables(
    xrefSections: nat,
    xrefLocations: seq<int>,
    inObjStream: map<int, Location>,
    standardXrefs: map<XrefKey, Location>,
    lastChange: map<int, nat>,
    history: map<XrefKey, seq<Sighting>>,
    currentSectionIds: set<Reference>,
    currentSectionFreed: set<Reference>,
    refsBySection: seq<set<Reference>>,
    freedBySection: seq<set<Reference>>,
    generations: map<int, set<int>>,
    previousExpectedFree: map<int, int>,
    xrefContainerInfo: seq<ContainerInfo>,
    objStreamsByRevision: map<int, set<Reference>>)

  /** The new tables and whether the operation raised. */
  datatype Outcome = Outcome(tables: Tables, status: Result<(), ReadError>)

  /** The tables of a fresh cache. */
  const Empty: Tables := Tables(0, [], map[], map[], map[], map[], {}, {}, [], [], map[], map[], [], map[])

  /** `history[key]` of the `defaultdict`: the sightings of a key, newest first, none when never seen. */
  function History(t: Tables, key: XrefKey): seq<Sighting> {
    if key in t.history then t.history[key] else []
  }

  /** `_obj_streams_by_revision[section]` of the `defaultdict`. */
  function ObjStreamsIn(t: Tables, section: int): set<Reference> {
    if section in t.objStreamsByRevision then t.objStreamsByRevision[section] else {}
  }

  /** Sightings listed section by section, newest first, none beyond `bound`. */
  predicate Chronological(h: seq<Sighting>, bound: nat) {
    (forall i, j | 0 <= i < j < |h| :: h[i].section <= h[j].section) &&
    (forall i | 0 <= i < |h| :: h[i].section <= bound)
  }

  /**
   * What the cache keeps true: one written set and one freed set per closed
   * section, the section that last changed an object is one already read
   * or the one being read, histories in reading order, and every freed
   * reference also counted among a section's references.
   */
  predicate WellFormed(t: Tables) {
    |t.refsBySection| == t.xrefSections && |t.freedBySection| == t.xrefSections &&
    (forall id | id in t.lastChange :: t.lastChange[id] <= t.xrefSections) &&
    (forall k | k in t.history :: Chronological(t.history[k], t.xrefSections)) &&
    (forall s | s in t.objStreamsByRevision :: 0 <= s <= t.xrefSections) &&
    t.currentSectionFreed <= t.currentSectionIds &&
    (forall i | 0 <= i < t.xrefSections :: t.freedBySection[i] <= t.refsBySection[i])
  }

  /** `used_later`: this generation of the object was already seen in a newer section. */
  predicate UsedLater(t: Tables, idnum: int, generation: int) {
    idnum in t.generations && generation in t.generations[idnum]
  }

  /** Neither the sections already filed nor their count differ. */
  predicate SameClosedSections(a: Tables, b: Tables) {
    a.xrefSections == b.xrefSections && a.refsBySection == b.refsBySection && a.freedBySection == b.freedBySection
  }

  /**
   * `_next_section`: the current section's sets are filed after the older
   * sections' and a new, empty, section begins; nothing else changes.
   */
  function CloseSection(t: Tables): (r: Tables)
    ensures r.xrefSections == t.xrefSections + 1
    ensures r.refsBySection == t.refsBySection + [t.currentSectionIds]
    ensures r.freedBySection == t.freedBySection + [t.currentSectionFreed]
    ensures r.currentSectionIds == {} && r.currentSectionFreed == {}
    ensures r.(xrefSections := t.xrefSections, refsBySection := t.refsBySection, freedBySection := t.freedBySection,
               currentSectionIds := t.currentSectionIds, currentSectionFreed := t.currentSectionFreed) == t
  {
    t.(xrefSections := t.xrefSections + 1,
       refsBySection := t.refsBySection + [t.currentSectionIds], currentSectionIds := {},
       freedBySection := t.freedBySection + [t.currentSectionFreed], currentSectionFreed := {})
  }

  /** A newer section uses the generation `prev` of the object, or a lower one. */
  predicate StillInUse(t: Tables, idnum: int, prev: int) {
    idnum in t.generations && exists g | g in t.generations[idnum] :: g <= prev
  }

  /**
   * `free_ref(idnum, next_generation)`: object 0 is ignored. Otherwise the
   * generation before `next_generation` (65535 when it is 0) becomes a freed
   * slot, counted in the section's freed and written sets; it is an error
   * for that generation or a lower one to be in use in a newer section, and
   * for a newer section to expect a different next generation.
   */
  function Free(t: Tables, idnum: int, nextGeneration: int): (r: Outcome)
    ensures idnum == 0 ==> r == Outcome(t, Ok(()))
    ensures idnum != 0 ==>
      var prev := if nextGeneration != 0 then nextGeneration - 1 else 0xffff;
      r.tables.standardXrefs == t.standardXrefs[(prev, idnum) := FreedSlot] &&
      r.tables.currentSectionFreed == t.currentSectionFreed + {Reference(idnum, prev)} &&
      r.tables.currentSectionIds == t.currentSectionIds + {Reference(idnum, prev)} &&
      (r.status == Err(ReusedAfterFree) <==> StillInUse(t, idnum, prev)) &&
      (r.status == Err(FreeGenerationMismatch) <==>
         !StillInUse(t, idnum, prev) && idnum in t.previousExpectedFree && t.previousExpectedFree[idnum] != nextGeneration) &&
      (!StillInUse(t, idnum, prev) ==> idnum !in r.tables.previousExpectedFree && UsedLater(r.tables, idnum, prev))
    ensures SameClosedSections(t, r.tables)
  {
    if idnum == 0 then Outcome(t, Ok(()))
    else
      var prev := if nextGeneration != 0 then nextGeneration - 1 else 0xffff;
      var nullRef := Reference(idnum, prev);
      var reused := StillInUse(t, idnum, prev);
      var expected := !reused && idnum in t.previousExpectedFree;
      var gens := if idnum in t.generations then t.generations[idnum] + {prev} else {prev};
      Outcome(
        t.(standardXrefs := t.standardXrefs[(prev, idnum) := FreedSlot],
           currentSectionFreed := t.currentSectionFreed + {nullRef},
           currentSectionIds := t.currentSectionIds + {nullRef},
           generations := if reused then t.generations else t.generations[idnum := gens],
           lastChange := if reused || idnum in t.lastChange then t.lastChange else t.lastChange[idnum := t.xrefSections],
           previousExpectedFree := if expected then t.previousExpectedFree - {idnum} else t.previousExpectedFree),
        if reused then Err(ReusedAfterFree)
        else if expected && t.previousExpectedFree[idnum] != nextGeneration then Err(FreeGenerationMismatch)
        else Ok(()))
  }

  /**
   * `put_ref(idnum, generation, start)`: an object stored at `start`. An
   * object number a newer section expects to see freed, and a generation
   * above 65535, are errors. A positive generation expects a free further
   * back. Only a generation not seen in a newer section becomes the
   * current location and last change; every sighting is recorded.
   */
  function Put(t: Tables, idnum: int, generation: int, start: int): (r: Outcome)
    ensures r.status.Err? <==> idnum in t.previousExpectedFree || generation > 0xffff
    ensures r.status.Err? ==> r.tables == t
    ensures SameClosedSections(t, r.tables)
    ensures var key := (generation, idnum);
      r.status.Ok? ==>
        History(r.tables, key) == History(t, key) + [Sighting(t.xrefSections, AtOffset(start))] &&
        Reference(idnum, generation) in r.tables.currentSectionIds &&
        UsedLater(r.tables, idnum, generation) &&
        (generation > 0 ==> idnum in r.tables.previousExpectedFree && r.tables.previousExpectedFree[idnum] == generation) &&
        (generation <= 0 ==> idnum !in r.tables.previousExpectedFree) &&
        (UsedLater(t, idnum, generation) ==> r.tables.standardXrefs == t.standardXrefs && r.tables.lastChange == t.lastChange) &&
        (!UsedLater(t, idnum, generation) ==>
           r.tables.standardXrefs == t.standardXrefs[key := AtOffset(start)] &&
           r.tables.lastChange == t.lastChange[idnum := t.xrefSections])
  {
    if idnum in t.previousExpectedFree then Outcome(t, Err(NeverFreed))
    else if generation > 0xffff then Outcome(t, Err(IllegalGeneration))
    else
      var key := (generation, idnum);
      var marker := AtOffset(start);
      var current := !UsedLater(t, idnum, generation);
      Outcome(
        t.(previousExpectedFree := if generation > 0 then t.previousExpectedFree[idnum := generation] else t.previousExpectedFree,
           standardXrefs := if current then t.standardXrefs[key := marker] else t.standardXrefs,
           lastChange := if current then t.lastChange[idnum := t.xrefSections] else t.lastChange,
           generations := t.generations[idnum := if current then {generation} else t.generations[idnum] + {generation}],
           history := t.history[key := History(t, key) + [Sighting(t.xrefSections, marker)]],
           currentSectionIds := t.currentSectionIds + {Reference(idnum, generation)}),
        Ok(()))
  }

  /**
   * `put_obj_stream_ref(idnum, obj_stream_num, obj_stream_ix)`: generation
   * 0 of the object stored in an object stream, which the section is noted
   * to use. As for `put_ref`, only an unseen object becomes current.
   */
  function PutInStream(t: Tables, idnum: int, streamNum: int, streamIx: int): (r: Tables)
    ensures History(r, (0, idnum)) == History(t, (0, idnum)) + [Sighting(t.xrefSections, InObjectStream(streamNum, streamIx))]
    ensures Reference(idnum, 0) in r.currentSectionIds
    ensures Reference(streamNum, 0) in ObjStreamsIn(r, t.xrefSections)
    ensures UsedLater(t, idnum, 0) ==> r.inObjStream == t.inObjStream && r.lastChange == t.lastChange
    ensures !UsedLater(t, idnum, 0) ==>
      r.inObjStream == t.inObjStream[idnum := InObjectStream(streamNum, streamIx)] && r.lastChange == t.lastChange[idnum := t.xrefSections]
    ensures SameClosedSections(t, r)
  {
    var key := (0, idnum);
    var marker := InObjectStream(streamNum, streamIx);
    var current := !UsedLater(t, idnum, 0);
    t.(objStreamsByRevision := t.objStreamsByRevision[t.xrefSections := ObjStreamsIn(t, t.xrefSections) + {Reference(streamNum, 0)}],
       inObjStream := if current then t.inObjStream[idnum := marker] else t.inObjStream,
       lastChange := if current then t.lastChange[idnum := t.xrefSections] else t.lastChange,
       generations := if current then t.generations[idnum := {0}] else t.generations,
       history := t.history[key := History(t, key) + [Sighting(t.xrefSections, marker)]],
       currentSectionIds := t.currentSectionIds + {Reference(idnum, 0)})
  }

  /** Python's `s[i]`: a negative index counts from the end; outside both ranges it raises `IndexError`. */
  function PyIndex<T>(s: seq<T>, i: int): (r: Result<T, ReadError>)
    ensures 0 <= i < |s| ==> r == Ok(s[i])
    ensures -|s| <= i < 0 ==> r == Ok(s[|s| + i])
    ensures r.Err? <==> i < -|s| || i >= |s|
    ensures r.Err? ==> r.error == RevisionOutOfRange
  {
    if 0 <= i < |s| then Ok(s[i]) else if -|s| <= i < 0 then Ok(s[|s| + i]) else Err(RevisionOutOfRange)
  }

  /**
   * `explicit_refs_in_revision(revision)`: the references written or freed
   * in that revision. Revisions 0 to n - 1 name the n sections from the
   * oldest to the newest; Python's negative indexing makes revisions n to
   * 2n - 1 name them again.
   */
  function ExplicitRefsInRevision(t: Tables, revision: int): (r: Result<set<Reference>, ReadError>)
    requires WellFormed(t)
    ensures 0 <= revision < t.xrefSections ==> r == Ok(t.refsBySection[t.xrefSections - 1 - revision])
    ensures t.xrefSections <= revision < 2 * t.xrefSections ==> r == Ok(t.refsBySection[2 * t.xrefSections - 1 - revision])
    ensures r.Err? <==> revision < 0 || revision >= 2 * t.xrefSections
  {
    PyIndex(t.refsBySection, t.xrefSections - 1 - revision)
  }

  /** `refs_freed_in_revision(revision)`: the references freed in that revision, indexed as above. */
  function RefsFreedInRevision(t: Tables, revision: int): (r: Result<set<Reference>, ReadError>)
    requires WellFormed(t)
    ensures 0 <= revision < t.xrefSections ==> r == Ok(t.freedBySection[t.xrefSections - 1 - revision])
    ensures r.Ok? ==> ExplicitRefsInRevision(t, revision).Ok? && r.value <= ExplicitRefsInRevision(t, revision).value
    ensures r.Err? <==> revision < 0 || revision >= 2 * t.xrefSections
  {
    PyIndex(t.freedBySection, t.xrefSections - 1 - revision)
  }

  /** `get_startxref_for_revision(revision)`: where that revision's section starts, indexed as above. */
  function StartxrefForRevision(t: Tables, revision: int): (r: Result<int, ReadError>)
    ensures 0 <= t.xrefSections - 1 - revision < |t.xrefLocations| ==>
      r == Ok(t.xrefLocations[t.xrefSections - 1 - revision])
    ensures r.Err? <==> t.xrefSections - 1 - revision < -|t.xrefLocations| || t.xrefSections - 1 - revision >= |t.xrefLocations|
  {
    PyIndex(t.xrefLocations, t.xrefSections - 1 - revision)
  }

  /** `get_xref_container_info(revision)`: the container noted for that revision, indexed as above. */
  function ContainerInfoForRevision(t: Tables, revision: int): (r: Result<ContainerInfo, ReadError>)
    ensures 0 <= t.xrefSections - 1 - revision < |t.xrefContainerInfo| ==>
      r == Ok(t.xrefContainerInfo[t.xrefSections - 1 - revision])
    ensures r.Err? <==> t.xrefSections - 1 - revision < -|t.xrefContainerInfo| || t.xrefSections - 1 - revision >= |t.xrefContainerInfo|
  {
    PyIndex(t.xrefContainerInfo, t.xrefSections - 1 - revision)
  }

  /** `object_streams_used_in(revision)`: the object streams that revision's section uses; a dictionary, so no wrap-around. */
  function ObjectStreamsUsedIn(t: Tables, revision: int): (r: set<Reference>)
    ensures t.xrefSections - 1 - revision !in t.objStreamsByRevision ==> r == {}
    ensures WellFormed(t) && (revision < -1 || revision >= t.xrefSections) ==> r == {}
  {
    ObjStreamsIn(t, t.xrefSections - 1 - revision)
  }

  /**
   * `get_last_change(idnum)`: the revision of the section that last changed
   * the object; -1 while that section is still being read.
   */
  function LastChange(t: Tables, idnum: int): (r: Result<int, ReadError>)
    requires WellFormed(t)
    ensures r.Ok? <==> idnum in t.lastChange
    ensures r.Err? ==> r.error == UnknownObject
    ensures r.Ok? ==> -1 <= r.value < t.xrefSections && t.lastChange[idnum] == t.xrefSections - 1 - r.value
  {
    if idnum in t.lastChange then Ok(t.xrefSections - 1 - t.lastChange[idnum]) else Err(UnknownObject)
  }

  /**
   * `get_introducing_revision(ref)`: the revision of the oldest section that
   * lists the reference, which no other sighting of it predates; a
   * reference never seen raises `IndexError`.
   */
  function IntroducingRevision(t: Tables, ref: Reference): (r: Result<int, ReadError>)
    requires WellFormed(t)
    ensures r.Ok? <==> History(t, (ref.generation, ref.idnum)) != []
    ensures r.Err? ==> r.error == NoHistory
    ensures r.Ok? ==> var h := History(t, (ref.generation, ref.idnum));
      r.value == t.xrefSections - 1 - h[|h| - 1].section &&
      forall i | 0 <= i < |h| :: t.xrefSections - 1 - h[i].section >= r.value
  {
    var h := History(t, (ref.generation, ref.idnum));
    if h == [] then Err(NoHistory)
    else
      assert Chronological(h, t.xrefSections);
      Ok(t.xrefSections - 1 - h[|h| - 1].section)
  }

  /**
   * The loop of `get_historical_ref`: the position of the first sighting,
   * newest first, whose section is at or before `revision`.
   */
  function FirstAtOrBefore(h: seq<Sighting>, maxIndex: int, revision: int): (r: Option<nat>)
    ensures r.Some? ==> r.value < |h| && maxIndex - h[r.value].section <= revision &&
                        forall j | 0 <= j < r.value :: maxIndex - h[j].section > revision
    ensures r.None? ==> forall j | 0 <= j < |h| :: maxIndex - h[j].section > revision
  {
    if h == [] then None
    else if revision >= maxIndex - h[0].section then Some(0)
    else match FirstAtOrBefore(h[1..], maxIndex, revision)
      case None => None
      case Some(i) => Some(i + 1)
  }

  /** `get_historical_ref(ref, revision)`: where the reference was at that revision. */
  function HistoricalRef(t: Tables, ref: Reference, revision: int): (r: Result<Location, ReadError>)
    ensures r.Err? ==> r.error == NotInHistory
  {
    var h := History(t, (ref.generation, ref.idnum));
    match FirstAtOrBefore(h, t.xrefSections - 1, revision)
    case Some(i) => Ok(h[i].marker)
    case None => Err(NotInHistory)
  }

  /**
   * `__getitem__(ref)`: generation 0 of an object in an object stream is
   * found there first; anything else in `standard_xrefs`, or not at all.
   */
  function Locate(t: Tables, ref: Reference): (r: Result<Location, ReadError>)
    ensures ref.generation == 0 && ref.idnum in t.inObjStream ==> r == Ok(t.inObjStream[ref.idnum])
    ensures !(ref.generation == 0 && ref.idnum in t.inObjStream) ==>
      (r.Ok? <==> (ref.generation, ref.idnum) in t.standardXrefs) &&
      (r.Ok? ==> r.value == t.standardXrefs[(ref.generation, ref.idnum)]) &&
      (r.Err? ==> r.error == ObjectNotFound)
  {
    if ref.generation == 0 && ref.idnum in t.inObjStream then Ok(t.inObjStream[ref.idnum])
    else if (ref.generation, ref.idnum) in t.standardXrefs then Ok(t.standardXrefs[(ref.generation, ref.idnum)])
    else Err(ObjectNotFound)
  }

  /**
   * The reader's check once every section is read: a higher generation
   * whose earlier generation was never freed is an orphan.
   */
  function CheckNoOrphans(t: Tables): (r: Result<(), ReadError>)
    ensures r.Ok? <==> t.previousExpectedFree == map[]
    ensures r.Err? ==> r.error == OrphanedObjects
  {
    if t.previousExpectedFree != map[] then Err(OrphanedObjects) else Ok(())
  }
}
