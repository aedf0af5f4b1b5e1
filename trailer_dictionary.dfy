/**
 * `TrailerDictionary`: the trailer of every cross-reference section, newest
 * first as the reader meets them, under a dictionary of changes made since.
 * A key is looked up in the changes, then section by section from the
 * newest; `flatten` merges the trailers of a revision and everything before
 * it into one dictionary, newest first, less the keys that describe a
 * cross-reference stream rather than the document.
 */
module TrailerDictionaries {
  import opened Wrappers
  import opened PdfObjects

  /** One trailer: its keys and their raw values. */
  type TrailerDict = map<string, PdfObject>

  /** `__delitem__` on a key that is not among the new changes. */
  datatype TrailerError = CannotRemoveEntry

  /** The keys `flatten` drops, which only an xref stream's dictionary carries. */
  const StreamKeys: set<string> := {"/Length", "/Filter", "/DecodeParms", "/W", "/Type", "/Index"}

  /** Python's `s[start:]`: a negative start counts from the end, and both ends are clamped. */
  function SliceFrom<T>(s: seq<T>, start: int): (r: seq<T>)
    ensures 0 <= start <= |s| ==> r == s[start..]
    ensures start > |s| ==> r == []
    ensures -|s| <= start < 0 ==> r == s[|s| + start..]
    ensures start < -|s| ==> r == s
  {
    if start > |s| then []
    else if start >= 0 then s[start..]
    else if start >= -|s| then s[|s| + start..]
    else s
  }

  /** The value of `key` in the first trailer, newest first, that has it; `None` when none has. */
  function FirstWith(revisions: seq<TrailerDict>, key: string): Option<PdfObject> {
    if revisions == [] then None
    else if key in revisions[0] then Some(revisions[0][key])
    else FirstWith(revisions[1..], key)
  }

  /**
   * `raw_get(key, revision)`: without a revision, the new changes first and
   * then every trailer; with one, the trailers from section
   * `len - 1 - revision` on, as Python slices them. `None` is the `KeyError`.
   */
  function RawGetOf(revisions: seq<TrailerDict>, newChanges: TrailerDict, key: string, revision: Option<int>): Option<PdfObject> {
    match revision
    case None => if key in newChanges then Some(newChanges[key]) else FirstWith(revisions, key)
    case Some(r) => FirstWith(SliceFrom(revisions, |revisions| - 1 - r), key)
  }

  /** The trailers merged from the oldest to the newest, so a newer value replaces an older one. */
  function Merge(revisions: seq<TrailerDict>): (m: TrailerDict)
    ensures m.Keys == set i, k | 0 <= i < |revisions| && k in revisions[i] :: k
  {
    if revisions == [] then map[]
    else
      var rest := Merge(revisions[1..]);
      assert forall i | 1 <= i < |revisions| :: revisions[i] == revisions[1..][i - 1];
      assert forall i | 0 <= i < |revisions[1..]| :: revisions[1..][i] == revisions[i + 1];
      rest + revisions[0]
  }

  /**
   * `flatten(revision)`: the trailers of sections `-revision - 1` on (every
   * trailer without a revision) merged, the new changes on top when no
   * revision is given, then the stream keys dropped.
   */
  function FlattenOf(revisions: seq<TrailerDict>, newChanges: TrailerDict, revision: Option<int>): TrailerDict {
    match revision
    case None => (Merge(revisions) + newChanges) - StreamKeys
    case Some(r) => Merge(SliceFrom(revisions, -r - 1)) - StreamKeys
  }

  class TrailerDictionary {
    /** `_trailer_revisions`: index 0 is the newest trailer. */
    var revisions: seq<TrailerDict>
    /** `_new_changes`. */
    var newChanges: TrailerDict

    constructor()
      ensures revisions == [] && newChanges == map[]
    {
      revisions := [];
      newChanges := map[];
    }

    /** `add_trailer_revision`: the trailer of the next, older, section. */
    method AddTrailerRevision(trailer: TrailerDict)
      modifies this
      ensures revisions == old(revisions) + [trailer] && newChanges == old(newChanges)
    {
      revisions := revisions + [trailer];
    }

    /** `raw_get`. */
    method RawGet(key: string, revision: Option<int>) returns (r: Option<PdfObject>)
      ensures r == RawGetOf(revisions, newChanges, key, revision)
    {
      var relevant := revisions;
      if revision.None? {
        if key in newChanges {
          return Some(newChanges[key]);
        }
      } else {
        relevant := SliceFrom(revisions, |revisions| - 1 - revision.value);
      }
      for i := 0 to |relevant|
        invariant FirstWith(relevant[i..], key) == FirstWith(relevant, key)
      {
        assert relevant[i..][1..] == relevant[i + 1..];
        if key in relevant[i] {
          return Some(relevant[i][key]);
        }
      }
      assert relevant[|relevant|..] == [];
      return None;
    }

    /** `__setitem__`: a change on top of every trailer. */
    method SetItem(key: string, value: PdfObject)
      modifies this
      ensures newChanges == old(newChanges)[key := value] && revisions == old(revisions)
    {
      newChanges := newChanges[key := value];
    }

    /** `__delitem__`: only a new change can be removed; the trailers read from the file cannot. */
    method DelItem(key: string) returns (r: Result<(), TrailerError>)
      modifies this
      ensures revisions == old(revisions)
      ensures key in old(newChanges) ==> r.Ok? && newChanges == old(newChanges) - {key}
      ensures key !in old(newChanges) ==> r == Err(CannotRemoveEntry) && newChanges == old(newChanges)
    {
      if key !in newChanges {
        return Err(CannotRemoveEntry);
      }
      newChanges := newChanges - {key};
      r := Ok(());
    }

    /** `flatten`. */
    function Flatten(revision: Option<int>): (d: TrailerDict)
      reads this
      ensures d.Keys !! StreamKeys
      ensures revision.None? ==> forall k | k in newChanges && k !in StreamKeys :: k in d && d[k] == newChanges[k]
    {
      FlattenOf(revisions, newChanges, revision)
    }

    /** `__contains__`: a new change, or a key of any trailer. */
    predicate Contains(key: string): (c: bool)
      reads this
      ensures c <==> RawGetOf(revisions, newChanges, key, None).Some?
    {
      FirstWithMerge(revisions, key);
      key in newChanges || exists i | 0 <= i < |revisions| :: key in revisions[i]
    }

    /** `keys`: the keys of the new changes and of every trailer. */
    function Keys(): (ks: set<string>)
      reads this
      ensures forall k :: k in ks <==> Contains(k)
    {
      newChanges.Keys + Merge(revisions).Keys
    }
  }

  /** Looking for the first trailer with a key finds the value the merge keeps. */
  lemma {:induction false} FirstWithMerge(revisions: seq<TrailerDict>, key: string)
    ensures FirstWith(revisions, key) == if key in Merge(revisions) then Some(Merge(revisions)[key]) else None
  {
    if revisions != [] {
      FirstWithMerge(revisions[1..], key);
    }
  }

  /**
   * For a revision that names a section, `raw_get` answers as the flattened
   * trailer of that revision does, for every key `flatten` keeps.
   */
  lemma RawGetAgreesWithFlatten(revisions: seq<TrailerDict>, newChanges: TrailerDict, key: string, revision: int)
    requires 0 <= revision < |revisions| && key !in StreamKeys
    ensures var d := FlattenOf(revisions, newChanges, Some(revision));
      RawGetOf(revisions, newChanges, key, Some(revision)) == if key in d then Some(d[key]) else None
  {
    assert SliceFrom(revisions, |revisions| - 1 - revision) == SliceFrom(revisions, -revision - 1);
    FirstWithMerge(SliceFrom(revisions, -revision - 1), key);
  }

  /**
   * Without a revision, the new changes override every trailer, and
   * `raw_get` again answers as `flatten` does for the keys it keeps.
   */
  lemma RawGetAgreesWithFlattenLatest(revisions: seq<TrailerDict>, newChanges: TrailerDict, key: string)
    requires key !in StreamKeys
    ensures key in newChanges ==> RawGetOf(revisions, newChanges, key, None) == Some(newChanges[key])
    ensures var d := FlattenOf(revisions, newChanges, None);
      RawGetOf(revisions, newChanges, key, None) == if key in d then Some(d[key]) else None
  {
    FirstWithMerge(revisions, key);
  }

  /** `flatten()` holds exactly the keys `keys()` lists, less the stream keys. */
  lemma FlattenKeys(revisions: seq<TrailerDict>, newChanges: TrailerDict)
    ensures FlattenOf(revisions, newChanges, None).Keys == (newChanges.Keys + Merge(revisions).Keys) - StreamKeys
  {
  }

  /**
   * Past the last revision the two disagree: with two trailers, revision 2
   * makes `raw_get` wrap round to the older trailer alone while `flatten`
   * clamps to both, and revision -1 makes `raw_get` see no trailer while
   * `flatten` sees them all.
   */
  lemma RawGetAndFlattenDivergeOutOfRange()
    ensures var revisions := [map["/Root" := Number(2)], map["/Root" := Number(1)]];
      RawGetOf(revisions, map[], "/Root", Some(2)) == Some(Number(1)) &&
      FlattenOf(revisions, map[], Some(2))["/Root"] == Number(2) &&
      RawGetOf(revisions, map[], "/Root", Some(-1)) == None &&
      FlattenOf(revisions, map[], Some(-1))["/Root"] == Number(2)
  {
    var revisions := [map["/Root" := Number(2)], map["/Root" := Number(1)]];
    assert SliceFrom(revisions, 2 - 1 - 2) == [revisions[1]];
    assert SliceFrom(revisions, -3) == revisions;
    assert SliceFrom(revisions, 2 - 1 - -1) == [];
    assert SliceFrom(revisions, 0) == revisions;
    assert Merge(revisions[1..]) == map["/Root" := Number(1)];
  }
}
