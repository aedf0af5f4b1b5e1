/**
 * `HistoricalResolver`: a view on one revision of the file. Resolving a
 * reference in that revision is a map from references to the objects they
 * hold then, since reading and decrypting objects is not part of this
 * model; a reference missing from the map cannot be read.
 */
module HistoricalResolvers {
  import opened Wrappers
  import opened PdfObjects
  import opened XrefFields
  import opened XrefTables
  import opened XrefProperties

  datatype HistoricalResolver = HistoricalResolver(tables: Tables, revision: int, objects: map<Reference, PdfObject>)

  /** `is_ref_available`: the reference has no sighting at or before the revision, so `get_historical_ref` raises. */
  predicate IsRefAvailable(h: HistoricalResolver, ref: Reference): (available: bool)
    ensures History(h.tables, (ref.generation, ref.idnum)) == [] ==> available
  {
    HistoricalRef(h.tables, ref, h.revision).Err?
  }

  /**
   * A reference is available exactly when every section that lists it is
   * newer than the revision; once taken in a revision it stays taken in
   * every later one.
   */
  lemma IsRefAvailableIffNoSighting(h: HistoricalResolver, ref: Reference, later: int)
    requires WellFormed(h.tables) && h.revision <= later
    ensures var hist := History(h.tables, (ref.generation, ref.idnum));
      IsRefAvailable(h, ref) <==> forall j | 0 <= j < |hist| :: RevisionOf(h.tables, hist[j]) > h.revision
    ensures !IsRefAvailable(h, ref) ==> !IsRefAvailable(h.(revision := later), ref)
  {
    HistoricalRefNewest(h.tables, ref, h.revision);
    if !IsRefAvailable(h, ref) {
      HistoricalRefMonotone(h.tables, ref, h.revision, later);
    }
  }

  /**
   * Whether the scanner takes a reference in: always without a revision to
   * start from, otherwise when the revision that introduced it is that one
   * or later. A reference never seen makes `get_introducing_revision` raise.
   */
  function Relevant(h: HistoricalResolver, ref: Reference, since: Option<int>): (r: Result<bool, ReadError>)
    requires WellFormed(h.tables)
    ensures since.None? ==> r == Ok(true)
    ensures since.Some? ==> (r.Err? <==> History(h.tables, (ref.generation, ref.idnum)) == [])
    ensures since.Some? && r.Ok? ==> (r.value <==> IntroducingRevision(h.tables, ref).value >= since.value)
  {
    if since.None? then Ok(true)
    else match IntroducingRevision(h.tables, ref)
      case Err(e) => Err(e)
      case Ok(introduced) => Ok(introduced >= since.value)
  }

  /** An entry is hidden by an earlier one under the same key, as `Lookup` hides it. */
  predicate Shadowed(entries: seq<Entry>, i: int)
    requires 0 <= i < |entries|
  {
    exists j | 0 <= j < i :: entries[j].key == entries[i].key
  }

  /** The values of the entries from `i` on that no earlier entry hides, in order. */
  function ValuesFrom(entries: seq<Entry>, i: nat): (vs: seq<PdfObject>)
    requires i <= |entries|
    ensures forall v | v in vs :: exists j | i <= j < |entries| :: !Shadowed(entries, j) && entries[j].value == v
    ensures forall j | i <= j < |entries| && !Shadowed(entries, j) :: entries[j].value in vs
    decreases |entries| - i
  {
    if i == |entries| then []
    else (if Shadowed(entries, i) then [] else [entries[i].value]) + ValuesFrom(entries, i + 1)
  }

  /** The entry under a key that no earlier entry hides is the one `Lookup` finds. */
  lemma {:induction false} LookupUnshadowed(entries: seq<Entry>, j: int)
    requires 0 <= j < |entries| && !Shadowed(entries, j)
    ensures Lookup(entries, entries[j].key) == Some(entries[j].value)
  {
    if j > 0 {
      var rest := entries[1..];
      assert entries[0].key != entries[j].key;
      assert rest[j - 1] == entries[j];
      forall jj | 0 <= jj < j - 1
        ensures rest[jj].key != rest[j - 1].key
      {
        assert rest[jj] == entries[jj + 1];
      }
      LookupUnshadowed(rest, j - 1);
    }
  }

  /** What `Lookup` finds is held by an entry no earlier entry hides. */
  lemma {:induction false} LookupFirst(entries: seq<Entry>, key: string)
    requires Lookup(entries, key).Some?
    ensures exists j | 0 <= j < |entries| ::
      !Shadowed(entries, j) && entries[j].key == key && entries[j].value == Lookup(entries, key).value
  {
    if entries[0].key == key {
      assert !Shadowed(entries, 0);
    } else {
      var rest := entries[1..];
      LookupFirst(rest, key);
      var j' :| 0 <= j' < |rest| && !Shadowed(rest, j') && rest[j'].key == key && rest[j'].value == Lookup(rest, key).value;
      assert entries[j' + 1] == rest[j'];
      forall jj | 0 <= jj < j' + 1
        ensures entries[jj].key != entries[j' + 1].key
      {
        if jj > 0 {
          assert entries[jj] == rest[jj - 1];
        }
      }
    }
  }

  /** `Lookup` finds `v` under some key. */
  ghost predicate FoundUnderSomeKey(entries: seq<Entry>, v: PdfObject) {
    exists key :: Lookup(entries, key) == Some(v)
  }

  /** The unhidden values are exactly those `Lookup` finds under some key. */
  lemma ValuesFromStart(entries: seq<Entry>)
    ensures forall v | v in ValuesFrom(entries, 0) :: FoundUnderSomeKey(entries, v)
    ensures forall key | Lookup(entries, key).Some? :: Lookup(entries, key).value in ValuesFrom(entries, 0)
  {
    forall v | v in ValuesFrom(entries, 0)
      ensures FoundUnderSomeKey(entries, v)
    {
      var j :| 0 <= j < |entries| && !Shadowed(entries, j) && entries[j].value == v;
      LookupUnshadowed(entries, j);
    }
    forall key | Lookup(entries, key).Some?
      ensures Lookup(entries, key).value in ValuesFrom(entries, 0)
    {
      LookupFirst(entries, key);
    }
  }

  /**
   * The values of a dictionary, as `values()` of the Python dictionary sees
   * them: one per key, the one `Lookup` finds, in order.
   */
  function Values(entries: seq<Entry>): (vs: seq<PdfObject>)
    ensures forall v | v in vs :: FoundUnderSomeKey(entries, v)
    ensures forall key | Lookup(entries, key).Some? :: Lookup(entries, key).value in vs
  {
    ValuesFromStart(entries);
    ValuesFrom(entries, 0)
  }

  /** The objects the scanner looks into below a dictionary or an array: its values or its items. */
  function Children(obj: PdfObject): seq<PdfObject> {
    match obj
    case Dictionary(entries) => Values(entries)
    case Array(items) => items
    case _ => []
  }

  lemma ChildrenSmaller(obj: PdfObject, i: int)
    requires 0 <= i < |Children(obj)|
    ensures Children(obj)[i] < obj
  {
    match obj
    case Dictionary(entries) =>
      assert FoundUnderSomeKey(entries, Children(obj)[i]);
      var key :| Lookup(entries, key) == Some(Children(obj)[i]);
      assert Entry(key, Children(obj)[i]) in entries;
    case Array(items) =>
      assert items[i] in items;
  }

  /** The objects not yet taken in, which bounds how often the scanner can still follow a reference. */
  function Remaining(h: HistoricalResolver, seen: set<Reference>): nat {
    |h.objects.Keys - seen|
  }

  lemma RemainingShrinks(h: HistoricalResolver, seen: set<Reference>, more: set<Reference>)
    requires seen <= more
    ensures Remaining(h, more) <= Remaining(h, seen)
  {
    var k := h.objects.Keys;
    assert k - seen == (k - more) + (k * (more - seen));
  }

  lemma RemainingTakesOne(h: HistoricalResolver, seen: set<Reference>, ref: Reference)
    requires ref in h.objects && ref !in seen
    ensures Remaining(h, seen + {ref}) < Remaining(h, seen)
  {
    var k := h.objects.Keys;
    assert k - seen == (k - (seen + {ref})) + {ref};
  }

  /**
   * `_collect_indirect_references(obj, seen, since_revision)`: the set
   * `seen` once the scan of `obj` is done. A reference already seen, or one
   * older than the revision to start from, is not followed; any other is
   * taken in, resolved, and its object scanned. The object a reference
   * resolves to is scanned below but not followed itself.
   */
  function Collect(h: HistoricalResolver, obj: PdfObject, seen: set<Reference>, since: Option<int>): (r: Result<set<Reference>, ReadError>)
    requires WellFormed(h.tables)
    ensures r.Ok? ==> seen <= r.value
    decreases Remaining(h, seen), obj, 2
  {
    match obj
    case Indirect(ref) =>
      if ref in seen then Ok(seen)
      else
        match Relevant(h, ref, since) {
          case Err(e) => Err(e)
          case Ok(relevant) =>
            if !relevant then Ok(seen)
            else if ref !in h.objects then Err(ObjectNotFound)
            else
              RemainingTakesOne(h, seen, ref);
              CollectFrom(h, h.objects[ref], 0, seen + {ref}, since)
        }
    case _ => CollectFrom(h, obj, 0, seen, since)
  }

  /** The scan of the children of `parent` from the `i`-th on. */
  function CollectFrom(h: HistoricalResolver, parent: PdfObject, i: nat, seen: set<Reference>, since: Option<int>): (r: Result<set<Reference>, ReadError>)
    requires WellFormed(h.tables)
    ensures r.Ok? ==> seen <= r.value
    decreases Remaining(h, seen), parent, 1, |Children(parent)| - i
  {
    if i >= |Children(parent)| then Ok(seen)
    else
      ChildrenSmaller(parent, i);
      match Collect(h, Children(parent)[i], seen, since)
      case Err(e) => Err(e)
      case Ok(more) =>
        RemainingShrinks(h, seen, more);
        CollectFrom(h, parent, i + 1, more, since)
  }

  /** `_collect_indirect_references`, with `seen` passed in and handed back. */
  method CollectIndirectReferences(h: HistoricalResolver, obj: PdfObject, seen: set<Reference>, since: Option<int>)
    returns (r: Result<set<Reference>, ReadError>)
    requires WellFormed(h.tables)
    ensures r == Collect(h, obj, seen, since)
    decreases Remaining(h, seen), obj, 2
  {
    if !obj.Indirect? {
      r := CollectChildren(h, obj, seen, since);
      return;
    }
    var ref := obj.ref;
    if ref in seen {
      return Ok(seen);
    }
    var relevant := Relevant(h, ref, since);
    if relevant.Err? {
      return Err(relevant.error);
    }
    if !relevant.value {
      return Ok(seen);
    }
    if ref !in h.objects {
      return Err(ObjectNotFound);
    }
    RemainingTakesOne(h, seen, ref);
    r := CollectChildren(h, h.objects[ref], seen + {ref}, since);
  }

  /** The loop of `_collect_indirect_references` over the values of a dictionary or the items of an array. */
  method CollectChildren(h: HistoricalResolver, parent: PdfObject, seen: set<Reference>, since: Option<int>)
    returns (r: Result<set<Reference>, ReadError>)
    requires WellFormed(h.tables)
    ensures r == CollectFrom(h, parent, 0, seen, since)
    decreases Remaining(h, seen), parent, 1
  {
    var taken := seen;
    var children := Children(parent);
    for i := 0 to |children|
      invariant seen <= taken
      invariant CollectFrom(h, parent, i, taken, since) == CollectFrom(h, parent, 0, seen, since)
    {
      ChildrenSmaller(parent, i);
      RemainingShrinks(h, seen, taken);
      var sub := CollectIndirectReferences(h, children[i], taken, since);
      if sub.Err? {
        return Err(sub.error);
      }
      taken := sub.value;
    }
    return Ok(taken);
  }

  /** `collect_dependencies(obj, since_revision)`: the scan from an empty set. */
  method CollectDependencies(h: HistoricalResolver, obj: PdfObject, since: Option<int>) returns (r: Result<set<Reference>, ReadError>)
    requires WellFormed(h.tables)
    ensures r == Collect(h, obj, {}, since)
  {
    r := CollectIndirectReferences(h, obj, {}, since);
  }

  /** The references inside an object as the scanner meets them, following none: the object itself if it is one. */
  function RefsIn(obj: PdfObject): set<Reference>
    decreases obj, 1
  {
    match obj
    case Indirect(ref) => {ref}
    case _ => RefsInFrom(obj, 0)
  }

  /** The references inside the children of `parent` from the `i`-th on. */
  function RefsInFrom(parent: PdfObject, i: nat): set<Reference>
    decreases parent, 0, |Children(parent)| - i
  {
    if i >= |Children(parent)| then {}
    else
      ChildrenSmaller(parent, i);
      RefsIn(Children(parent)[i]) + RefsInFrom(parent, i + 1)
  }

  /** A reference the scanner has a revision to start from and finds older, so it does not follow it. */
  predicate Skipped(h: HistoricalResolver, ref: Reference, since: Option<int>)
    requires WellFormed(h.tables)
  {
    Relevant(h, ref, since) == Ok(false)
  }

  /** Every reference in `refs` is collected or skipped. */
  predicate Covers(h: HistoricalResolver, collected: set<Reference>, refs: set<Reference>, since: Option<int>)
    requires WellFormed(h.tables)
  {
    forall c | c in refs :: c in collected || Skipped(h, c, since)
  }

  /**
   * What the scan guarantees of the references it added to `seen`: each is
   * relevant, resolves, and the references inside its object are collected
   * or skipped in turn.
   */
  predicate Closed(h: HistoricalResolver, collected: set<Reference>, seen: set<Reference>, since: Option<int>)
    requires WellFormed(h.tables)
  {
    forall x | x in collected - seen ::
      Relevant(h, x, since) == Ok(true) && x in h.objects && Covers(h, collected, RefsInFrom(h.objects[x], 0), since)
  }

  lemma CoversMonotone(h: HistoricalResolver, collected: set<Reference>, more: set<Reference>, refs: set<Reference>, since: Option<int>)
    requires WellFormed(h.tables) && collected <= more && Covers(h, collected, refs, since)
    ensures Covers(h, more, refs, since)
  {
  }

  /** A successful scan of an object covers the references inside it and is closed over what it added. */
  lemma {:induction false} CollectClosed(h: HistoricalResolver, obj: PdfObject, seen: set<Reference>, since: Option<int>)
    requires WellFormed(h.tables) && Collect(h, obj, seen, since).Ok?
    ensures var r := Collect(h, obj, seen, since).value;
      Covers(h, r, RefsIn(obj), since) && Closed(h, r, seen, since)
    decreases Remaining(h, seen), obj, 2
  {
    if obj.Indirect? {
      var ref := obj.ref;
      if ref !in seen && Relevant(h, ref, since) == Ok(true) {
        RemainingTakesOne(h, seen, ref);
        assert Collect(h, obj, seen, since) == CollectFrom(h, h.objects[ref], 0, seen + {ref}, since);
        CollectFromClosed(h, h.objects[ref], 0, seen + {ref}, since);
      }
    } else {
      assert Collect(h, obj, seen, since) == CollectFrom(h, obj, 0, seen, since);
      assert RefsIn(obj) == RefsInFrom(obj, 0);
      CollectFromClosed(h, obj, 0, seen, since);
    }
  }

  lemma {:induction false} CollectFromClosed(h: HistoricalResolver, parent: PdfObject, i: nat, seen: set<Reference>, since: Option<int>)
    requires WellFormed(h.tables) && CollectFrom(h, parent, i, seen, since).Ok?
    ensures var r := CollectFrom(h, parent, i, seen, since).value;
      Covers(h, r, RefsInFrom(parent, i), since) && Closed(h, r, seen, since)
    decreases Remaining(h, seen), parent, 1, |Children(parent)| - i
  {
    if i < |Children(parent)| {
      ChildrenSmaller(parent, i);
      var child := Children(parent)[i];
      var more := Collect(h, child, seen, since).value;
      var r := CollectFrom(h, parent, i + 1, more, since).value;
      CollectClosed(h, child, seen, since);
      RemainingShrinks(h, seen, more);
      CollectFromClosed(h, parent, i + 1, more, since);
      CoversMonotone(h, more, r, RefsIn(child), since);
      forall x | x in more - seen
        ensures Covers(h, r, RefsInFrom(h.objects[x], 0), since)
      {
        CoversMonotone(h, more, r, RefsInFrom(h.objects[x], 0), since);
      }
    }
  }

  /**
   * `collect_dependencies(obj)` without a revision to start from: every
   * reference inside the object is collected, every collected reference
   * resolves, and the references inside its object are collected too. With
   * a revision, each collected reference was introduced in it or later.
   */
  lemma CollectDependenciesClosed(h: HistoricalResolver, obj: PdfObject, since: Option<int>)
    requires WellFormed(h.tables) && Collect(h, obj, {}, since).Ok?
    ensures var r := Collect(h, obj, {}, since).value;
      since.None? ==> RefsIn(obj) <= r && forall x | x in r :: x in h.objects && RefsInFrom(h.objects[x], 0) <= r
    ensures var r := Collect(h, obj, {}, since).value;
      since.Some? ==> forall x | x in r ::
        x in h.objects && IntroducingRevision(h.tables, x).Ok? && IntroducingRevision(h.tables, x).value >= since.value
  {
    CollectClosed(h, obj, {}, since);
    var r := Collect(h, obj, {}, since).value;
    forall x | x in r
      ensures Relevant(h, x, since) == Ok(true)
    {
      assert x in r - {};
    }
  }

  /**
   * A chain of references the scanner follows: each is relevant and
   * resolves, and each after the first is inside the object of the one
   * before it.
   */
  predicate Chain(h: HistoricalResolver, path: seq<Reference>, since: Option<int>)
    requires WellFormed(h.tables)
  {
    |path| > 0 &&
    (forall k | 0 <= k < |path| :: Relevant(h, path[k], since) == Ok(true) && path[k] in h.objects) &&
    (forall k | 0 <= k < |path| - 1 :: path[k + 1] in RefsInFrom(h.objects[path[k]], 0))
  }

  /** `x` ends a chain that starts at one of `refs`. */
  ghost predicate Reaches(h: HistoricalResolver, refs: set<Reference>, x: Reference, since: Option<int>)
    requires WellFormed(h.tables)
  {
    exists path | Chain(h, path, since) :: path[0] in refs && path[|path| - 1] == x
  }

  lemma ReachesWider(h: HistoricalResolver, refs: set<Reference>, wider: set<Reference>, x: Reference, since: Option<int>)
    requires WellFormed(h.tables) && refs <= wider && Reaches(h, refs, x, since)
    ensures Reaches(h, wider, x, since)
  {
    var path :| Chain(h, path, since) && path[0] in refs && path[|path| - 1] == x;
    assert path[0] in wider;
  }

  /** A chain from inside the object of a relevant reference extends back to that reference. */
  lemma ReachesThrough(h: HistoricalResolver, ref: Reference, x: Reference, since: Option<int>)
    requires WellFormed(h.tables) && Relevant(h, ref, since) == Ok(true) && ref in h.objects
    requires Reaches(h, RefsInFrom(h.objects[ref], 0), x, since)
    ensures Reaches(h, {ref}, x, since)
  {
    var path :| Chain(h, path, since) && path[0] in RefsInFrom(h.objects[ref], 0) && path[|path| - 1] == x;
    var longer := [ref] + path;
    assert forall k | 0 < k < |longer| :: longer[k] == path[k - 1];
    assert Chain(h, longer, since);
  }

  /** Everything a successful scan adds to `seen` is reached from the references inside the object. */
  lemma {:induction false} CollectSound(h: HistoricalResolver, obj: PdfObject, seen: set<Reference>, since: Option<int>)
    requires WellFormed(h.tables) && Collect(h, obj, seen, since).Ok?
    ensures forall x | x in Collect(h, obj, seen, since).value - seen :: Reaches(h, RefsIn(obj), x, since)
    decreases Remaining(h, seen), obj, 2
  {
    if obj.Indirect? {
      var ref := obj.ref;
      if ref !in seen && Relevant(h, ref, since) == Ok(true) {
        RemainingTakesOne(h, seen, ref);
        assert Collect(h, obj, seen, since) == CollectFrom(h, h.objects[ref], 0, seen + {ref}, since);
        CollectReferenceSound(h, ref, seen, since);
      }
    } else {
      assert Collect(h, obj, seen, since) == CollectFrom(h, obj, 0, seen, since);
      assert RefsIn(obj) == RefsInFrom(obj, 0);
      CollectFromSound(h, obj, 0, seen, since);
    }
  }

  /** The scan of a reference it follows adds only the reference and what its object reaches. */
  lemma {:induction false} CollectReferenceSound(h: HistoricalResolver, ref: Reference, seen: set<Reference>, since: Option<int>)
    requires WellFormed(h.tables) && ref !in seen && Relevant(h, ref, since) == Ok(true) && ref in h.objects
    requires CollectFrom(h, h.objects[ref], 0, seen + {ref}, since).Ok?
    ensures forall x | x in CollectFrom(h, h.objects[ref], 0, seen + {ref}, since).value - seen :: Reaches(h, {ref}, x, since)
    decreases Remaining(h, seen), Indirect(ref), 1
  {
    RemainingTakesOne(h, seen, ref);
    var r := CollectFrom(h, h.objects[ref], 0, seen + {ref}, since).value;
    CollectFromSound(h, h.objects[ref], 0, seen + {ref}, since);
    assert Chain(h, [ref], since);
    forall x | x in r - (seen + {ref})
      ensures Reaches(h, {ref}, x, since)
    {
      ReachesThrough(h, ref, x, since);
    }
  }

  lemma {:induction false} CollectFromSound(h: HistoricalResolver, parent: PdfObject, i: nat, seen: set<Reference>, since: Option<int>)
    requires WellFormed(h.tables) && CollectFrom(h, parent, i, seen, since).Ok?
    ensures forall x | x in CollectFrom(h, parent, i, seen, since).value - seen :: Reaches(h, RefsInFrom(parent, i), x, since)
    decreases Remaining(h, seen), parent, 1, |Children(parent)| - i
  {
    if i < |Children(parent)| {
      ChildrenSmaller(parent, i);
      var child := Children(parent)[i];
      var more := Collect(h, child, seen, since).value;
      var r := CollectFrom(h, parent, i + 1, more, since).value;
      CollectSound(h, child, seen, since);
      RemainingShrinks(h, seen, more);
      CollectFromSound(h, parent, i + 1, more, since);
      forall x | x in r - seen
        ensures Reaches(h, RefsInFrom(parent, i), x, since)
      {
        if x in more {
          ReachesWider(h, RefsIn(child), RefsInFrom(parent, i), x, since);
        } else {
          ReachesWider(h, RefsInFrom(parent, i + 1), RefsInFrom(parent, i), x, since);
        }
      }
    }
  }

  /** A chain from a collected reference stays among the collected ones. */
  lemma ChainCollected(h: HistoricalResolver, r: set<Reference>, path: seq<Reference>, since: Option<int>)
    requires WellFormed(h.tables) && Closed(h, r, {}, since) && Chain(h, path, since) && path[0] in r
    ensures path[|path| - 1] in r
  {
    for k := 0 to |path| - 1
      invariant path[k] in r
    {
      assert path[k] in r - {};
      assert path[k + 1] in RefsInFrom(h.objects[path[k]], 0);
    }
  }

  /**
   * `collect_dependencies(obj, since_revision)` finds exactly the references
   * reached from inside the object through references it follows: relevant
   * ones that resolve.
   */
  lemma CollectDependenciesReachable(h: HistoricalResolver, obj: PdfObject, since: Option<int>, x: Reference)
    requires WellFormed(h.tables) && Collect(h, obj, {}, since).Ok?
    ensures x in Collect(h, obj, {}, since).value <==> Reaches(h, RefsIn(obj), x, since)
  {
    var r := Collect(h, obj, {}, since).value;
    CollectSound(h, obj, {}, since);
    if x in r {
      assert x in r - {};
    }
    if Reaches(h, RefsIn(obj), x, since) {
      CollectClosed(h, obj, {}, since);
      var path :| Chain(h, path, since) && path[0] in RefsIn(obj) && path[|path| - 1] == x;
      assert path[0] in r;
      ChainCollected(h, r, path, since);
    }
  }
}
