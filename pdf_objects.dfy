/**
 * The slice of the PDF object model that the security handlers and the
 * cross-reference reader look at: indirect references and the generic
 * object kinds of section 7.3 of ISO 32000-1.
 */
module PdfObjects {
  import opened Wrappers
  import opened Bytes

  /** An indirect reference `idnum generation R` (section 7.3.10 of ISO 32000-1). */
  datatype Reference = Reference(idnum: int, generation: int)

  /**
   * A PDF object. A dictionary keeps its entries in insertion order, as the
   * Python dictionaries behind it do.
   */
  datatype PdfObject =
    | Null
    | Boolean(b: bool)
    | Number(n: int)
    | Name(name: string)
    | ByteString(bytes: seq<byte>)
    | Array(items: seq<PdfObject>)
    | Dictionary(entries: seq<Entry>)
    | Indirect(ref: Reference)

  datatype Entry = Entry(key: string, value: PdfObject)

  /** The value stored under `key`: the first entry with that key, or `None` (a `KeyError`). */
  function Lookup(entries: seq<Entry>, key: string): (r: Option<PdfObject>)
    ensures r.Some? ==> Entry(key, r.value) in entries
    ensures r.None? ==> forall e | e in entries :: e.key != key
  {
    if entries == [] then None
    else if entries[0].key == key then Some(entries[0].value)
    else Lookup(entries[1..], key)
  }

  /** An entry under another key is passed over. */
  lemma LookupSkip(entries: seq<Entry>, key: string)
    requires entries != [] && entries[0].key != key
    ensures Lookup(entries, key) == Lookup(entries[1..], key)
  {
  }

  /** Looking up in two lists of entries one after the other: the first list wins. */
  lemma {:induction false} LookupAppend(a: seq<Entry>, b: seq<Entry>, key: string)
    ensures Lookup(a + b, key) == if Lookup(a, key).Some? then Lookup(a, key) else Lookup(b, key)
  {
    if a != [] {
      assert (a + b)[1..] == a[1..] + b;
      LookupAppend(a[1..], b, key);
    } else {
      assert a + b == b;
    }
  }

  /** `dict.get(key, default)`. */
  function LookupOr(entries: seq<Entry>, key: string, default: PdfObject): (r: PdfObject)
    ensures Lookup(entries, key).None? ==> r == default
    ensures Lookup(entries, key).Some? ==> r == Lookup(entries, key).value
  {
    match Lookup(entries, key)
    case Some(v) => v
    case None => default
  }

  /**
   * Python truthiness of a parsed object, as `bool(...)` and `not` see it:
   * empty names, strings, arrays and dictionaries, zero, null and false are
   * false.
   */
  predicate Truthy(o: PdfObject) {
    match o
    case Null => false
    case Boolean(b) => b
    case Number(n) => n != 0
    case Name(s) => s != []
    case ByteString(s) => s != []
    case Array(items) => items != []
    case Dictionary(entries) => entries != []
    case Indirect(_) => true
  }
}
