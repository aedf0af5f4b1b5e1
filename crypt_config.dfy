/**
 * Versions, revisions and key lengths of the PDF security handlers, and the
 * decoding and encoding of crypt filter dictionaries (section 7.6.5 of
 * ISO 32000-1).
 */
module CryptConfig {
  import opened Wrappers
  import opened Bytes
  import opened CryptBytes
  import opened PdfObjects

  /** /V of an encryption dictionary. */
  datatype Version = Rc4Of40Bits | Rc4LongerKeys | Rc4OrAes128 | Aes256
  {
    function Value(): int {
      match this
      case Rc4Of40Bits => 1
      case Rc4LongerKeys => 2
      case Rc4OrAes128 => 4
      case Aes256 => 5
    }
  }

  /** Looking a /V value up; any other number is a `ValueError`. */
  function VersionFromValue(v: int): (r: Option<Version>)
    ensures r.Some? ==> r.value.Value() == v
    ensures r.None? <==> v !in {1, 2, 4, 5}
  {
    if v == 1 then Some(Rc4Of40Bits)
    else if v == 2 then Some(Rc4LongerKeys)
    else if v == 4 then Some(Rc4OrAes128)
    else if v == 5 then Some(Aes256)
    else None
  }

  /** /R of a standard security handler. */
  datatype Revision = RevRc4Basic | RevRc4Extended | RevRc4OrAes128 | RevAes256
  {
    function Value(): int {
      match this
      case RevRc4Basic => 2
      case RevRc4Extended => 3
      case RevRc4OrAes128 => 4
      case RevAes256 => 6
    }
  }

  /**
   * The key length in bytes a security handler settles on: 5 for /V 1, 32
   * for /V 5, and otherwise the requested length, which must lie in [5, 16].
   */
  function HandlerKeyLength(v: Version, keylen: int): (r: Result<int, CryptError>)
    ensures r.Ok? ==> 5 <= r.value <= 16 || r.value == 32
    ensures r.Err? <==> (v == Rc4LongerKeys || v == Rc4OrAes128) && !(5 <= keylen <= 16)
    ensures r.Err? ==> r.error == KeyLengthOutOfRange
  {
    if v == Rc4Of40Bits then Ok(5)
    else if !(5 <= keylen <= 16) && v.Value() <= Rc4OrAes128.Value() then Err(KeyLengthOutOfRange)
    else if v == Aes256 then Ok(32)
    else Ok(keylen)
  }

  /** Versions 1 and 5 override the requested length; versions 2 and 4 keep an admissible one. */
  lemma HandlerKeyLengthChoice(v: Version, keylen: int)
    ensures v == Rc4Of40Bits ==> HandlerKeyLength(v, keylen) == Ok(5)
    ensures v == Aes256 ==> HandlerKeyLength(v, keylen) == Ok(32)
    ensures (v == Rc4LongerKeys || v == Rc4OrAes128) && 5 <= keylen <= 16 ==>
      HandlerKeyLength(v, keylen) == Ok(keylen)
  {
  }

  /** Re-applying the rule to the length a handler settled on changes nothing. */
  lemma HandlerKeyLengthStable(v: Version, keylen: int)
    requires HandlerKeyLength(v, keylen).Ok?
    ensures HandlerKeyLength(v, HandlerKeyLength(v, keylen).value) == HandlerKeyLength(v, keylen)
  {
  }

  /** The /Length an encryption dictionary is written with: the key length in bits. */
  function KeyLengthEntry(keylen: int): (e: PdfObject)
    ensures e.Number? && e.n % 8 == 0 && e.n / 8 == keylen
  {
    Number(keylen * 8)
  }

  /**
   * Reading /Length (in bits, `defaultBits` when absent) of an encryption
   * dictionary: it must be a whole number of bytes.
   */
  function ReadKeyLength(dict: seq<Entry>, defaultBits: int): (r: Result<int, CryptError>)
    ensures r.Ok? ==> LookupOr(dict, "/Length", Number(defaultBits)) == Number(r.value * 8)
    ensures r.Err? && LookupOr(dict, "/Length", Number(defaultBits)).Number? ==>
      r.error == KeyLengthNotByteMultiple
  {
    match LookupOr(dict, "/Length", Number(defaultBits))
    case Number(bits) =>
      if bits % 8 != 0 then Err(KeyLengthNotByteMultiple) else Ok(bits / 8)
    case _ => Err(MalformedEntry)
  }

  /** A dictionary carrying the /Length a handler writes reads back as the same key length. */
  lemma KeyLengthRoundTrip(dict: seq<Entry>, keylen: int, defaultBits: int)
    requires Lookup(dict, "/Length") == Some(KeyLengthEntry(keylen))
    ensures ReadKeyLength(dict, defaultBits) == Ok(keylen)
  {
    assert (keylen * 8) % 8 == 0 && (keylen * 8) / 8 == keylen;
  }

  /** A /Length that is not a multiple of 8 is rejected. */
  lemma KeyLengthNotByteMultipleRejected(dict: seq<Entry>, bits: int, defaultBits: int)
    requires Lookup(dict, "/Length") == Some(Number(bits)) && bits % 8 != 0
    ensures ReadKeyLength(dict, defaultBits) == Err(KeyLengthNotByteMultiple)
  {
  }

  /** The handler-level key length survives a write and a read (rules of `SecurityHandler.__init__` included). */
  lemma HandlerKeyLengthRoundTrip(v: Version, requested: int, dict: seq<Entry>, defaultBits: int)
    requires HandlerKeyLength(v, requested).Ok?
    requires Lookup(dict, "/Length") == Some(KeyLengthEntry(HandlerKeyLength(v, requested).value))
    ensures ReadKeyLength(dict, defaultBits).Ok?
    ensures HandlerKeyLength(v, ReadKeyLength(dict, defaultBits).value) == HandlerKeyLength(v, requested)
  {
    KeyLengthRoundTrip(dict, HandlerKeyLength(v, requested).value, defaultBits);
    HandlerKeyLengthStable(v, requested);
  }

  datatype Cipher = Rc4 | Aes

  /** What a crypt filter applies: its cipher and its key length in bytes. */
  datatype FilterSpec = FilterSpec(cipher: Cipher, keylen: int)
  {
    /** The /CFM name of the filter. */
    function Method(): string {
      if cipher == Rc4 then "/V2" else if keylen == 16 then "/AESV2" else "/AESV3"
    }
  }

  /** The AES crypt filter constructor: only AES-128 and AES-256 exist. */
  function AesFilter(keylen: int): (r: Result<FilterSpec, CryptError>)
    ensures r.Ok? <==> keylen == 16 || keylen == 32
    ensures r.Ok? ==> r.value.cipher == Aes && r.value.keylen == keylen
    ensures r.Ok? ==> r.value.Method() == if keylen == 16 then "/AESV2" else "/AESV3"
    ensures r.Err? ==> r.error == UnsupportedKeyLength
  {
    if keylen != 16 && keylen != 32 then Err(UnsupportedKeyLength) else Ok(FilterSpec(Aes, keylen))
  }

  /** The /V2 branch shared by both readers: /Length in bits, 40 when absent, floored to bytes. */
  function Rc4FilterFromLength(cfdict: seq<Entry>): (r: Result<FilterSpec, CryptError>)
    ensures r.Ok? ==> r.value.cipher == Rc4
    ensures r.Ok? <==> LookupOr(cfdict, "/Length", Number(40)).Number?
    ensures r.Ok? ==> var bits := LookupOr(cfdict, "/Length", Number(40)).n;
                      r.value.keylen * 8 <= bits < r.value.keylen * 8 + 8
  {
    match LookupOr(cfdict, "/Length", Number(40))
    case Number(bits) => Ok(FilterSpec(Rc4, bits / 8))
    case _ => Err(MalformedEntry)
  }

  /** The /V2, /AESV2 and /AESV3 branches both readers share; any other method is an error. */
  function DecodeMethod(cfm: PdfObject, cfdict: seq<Entry>): (r: Result<FilterSpec, CryptError>)
    ensures r.Ok? ==> cfm == Name(r.value.Method())
    ensures r.Ok? && r.value.cipher == Aes ==> r.value.keylen in {16, 32}
    ensures r.Err? && cfm != Name("/V2") ==> r.error == UnsupportedMethod
  {
    if cfm == Name("/V2") then Rc4FilterFromLength(cfdict)
    else if cfm == Name("/AESV2") then Ok(FilterSpec(Aes, 16))
    else if cfm == Name("/AESV3") then Ok(FilterSpec(Aes, 32))
    else Err(UnsupportedMethod)
  }

  /** The method name and a /Length in bits decode back to the filter they were written for. */
  lemma DecodeMethodOfWritten(spec: FilterSpec, cfdict: seq<Entry>)
    requires spec.cipher == Rc4 || spec.keylen == 16 || spec.keylen == 32
    requires Lookup(cfdict, "/Length") == Some(Number(spec.keylen * 8))
    ensures DecodeMethod(Name(spec.Method()), cfdict) == Ok(spec)
  {
    assert (spec.keylen * 8) / 8 == spec.keylen;
  }

  /**
   * `read_standard_cf_dictionary`: no /CFM or /CFM /None means no filter;
   * /V2, /AESV2 and /AESV3 give RC4, AES-128 and AES-256; anything else is
   * an error.
   */
  function ReadStandardCfDictionary(cfdict: seq<Entry>): (r: Result<Option<FilterSpec>, CryptError>)
    ensures r.Ok? && r.value.Some? ==> Lookup(cfdict, "/CFM") == Some(Name(r.value.value.Method()))
    ensures r.Ok? && r.value.None? <==> Lookup(cfdict, "/CFM") in {None, Some(Name("/None"))}
    ensures Lookup(cfdict, "/CFM") == Some(Name("/AESV2")) ==> r == Ok(Some(FilterSpec(Aes, 16)))
    ensures Lookup(cfdict, "/CFM") == Some(Name("/AESV3")) ==> r == Ok(Some(FilterSpec(Aes, 32)))
    ensures Lookup(cfdict, "/CFM") == Some(Name("/V2")) && r.Ok? ==> r.value.Some? && r.value.value.cipher == Rc4
    ensures r.Err? && Lookup(cfdict, "/CFM") != Some(Name("/V2")) ==> r.error == UnsupportedMethod
  {
    match Lookup(cfdict, "/CFM")
    case None => Ok(None)
    case Some(cfm) =>
      if cfm == Name("/None") then Ok(None)
      else
        match DecodeMethod(cfm, cfdict)
        case Ok(spec) => Ok(Some(spec))
        case Err(e) => Err(e)
  }

  /** A public-key crypt filter as read from its dictionary. */
  datatype PubKeyFilterSpec = PubKeyFilterSpec(
    spec: FilterSpec, recipients: seq<seq<byte>>, encryptMetadata: bool, actsAsDefault: bool)

  /** The encoded CMS objects of an array of byte strings; anything else does not load. */
  function ByteStrings(items: seq<PdfObject>): (r: Option<seq<seq<byte>>>)
    ensures r.Some? <==> forall i :: 0 <= i < |items| ==> items[i].ByteString?
    ensures r.Some? ==> |r.value| == |items| && forall i :: 0 <= i < |items| ==> r.value[i] == items[i].bytes
  {
    if items == [] then Some([])
    else if !items[0].ByteString? then None
    else match ByteStrings(items[1..])
      case None => None
      case Some(rest) => Some([items[0].bytes] + rest)
  }

  /** The recipient objects as the array of byte strings they are written as. */
  function EncodeRecipients(rs: seq<seq<byte>>): (r: seq<PdfObject>)
    ensures |r| == |rs| && forall i :: 0 <= i < |rs| ==> r[i] == ByteString(rs[i])
  {
    seq(|rs|, i requires 0 <= i < |rs| => ByteString(rs[i]))
  }

  /** An array of encoded recipient objects loads back as those objects. */
  lemma ByteStringsOfEncoded(rs: seq<seq<byte>>)
    ensures ByteStrings(EncodeRecipients(rs)) == Some(rs)
  {
    var r := ByteStrings(EncodeRecipients(rs));
    assert r.Some?;
    assert r.value == rs;
  }

  /** /Recipients: one byte string stands for a one-element array. */
  function RecipientList(o: PdfObject): (r: Result<seq<seq<byte>>, CryptError>)
    ensures o.ByteString? ==> r == Ok([o.bytes])
    ensures r.Err? ==> r.error == MalformedEntry
  {
    match o
    case ByteString(b) => Ok([b])
    case Array(items) =>
      (match ByteStrings(items)
       case Some(rs) => Ok(rs)
       case None => Err(MalformedEntry))
    case _ => Err(MalformedEntry)
  }

  /**
   * `read_pubkey_cf_dictionary`: /CFM and /Recipients are mandatory, /None is
   * refused, and the methods decode as for the standard handler.
   */
  function ReadPubKeyCfDictionary(cfdict: seq<Entry>, actsAsDefault: bool): (r: Result<PubKeyFilterSpec, CryptError>)
    ensures Lookup(cfdict, "/CFM").None? || Lookup(cfdict, "/Recipients").None? ==> r == Err(MalformedEntry)
    ensures Lookup(cfdict, "/CFM") == Some(Name("/None")) ==> r.Err?
    ensures r.Ok? ==> Lookup(cfdict, "/CFM") == Some(Name(r.value.spec.Method()))
    ensures r.Ok? ==> r.value.actsAsDefault == actsAsDefault
    ensures r.Ok? ==> Ok(r.value.recipients) == RecipientList(Lookup(cfdict, "/Recipients").value)
    ensures r.Ok? ==> r.value.encryptMetadata == Truthy(LookupOr(cfdict, "/EncryptMetadata", Boolean(true)))
  {
    match (Lookup(cfdict, "/CFM"), Lookup(cfdict, "/Recipients"))
    case (Some(cfm), Some(recipientsObj)) =>
      (match RecipientList(recipientsObj)
       case Err(e) => Err(e)
       case Ok(recipients) =>
         var encryptMetadata := Truthy(LookupOr(cfdict, "/EncryptMetadata", Boolean(true)));
         var spec := if cfm == Name("/None") then Err(MalformedEntry) else DecodeMethod(cfm, cfdict);
         match spec
         case Ok(s) => Ok(PubKeyFilterSpec(s, recipients, encryptMetadata, actsAsDefault))
         case Err(e) => Err(e))
    case _ => Err(MalformedEntry)
  }

  /** The entries every crypt filter dictionary starts with. */
  function CommonCfEntries(spec: FilterSpec): seq<Entry> {
    [Entry("/AuthEvent", Name("/DocOpen")), Entry("/CFM", Name(spec.Method()))]
  }

  /** The dictionary a standard crypt filter is written as; its /Length is in bytes. */
  function StandardCfDictionary(spec: FilterSpec): (d: seq<Entry>)
    ensures Lookup(d, "/AuthEvent") == Some(Name("/DocOpen"))
    ensures Lookup(d, "/CFM") == Some(Name(spec.Method()))
    ensures Lookup(d, "/Length") == Some(Number(spec.keylen))
  {
    var d := CommonCfEntries(spec) + [Entry("/Length", Number(spec.keylen))];
    assert d[1..][1..] == [Entry("/Length", Number(spec.keylen))];
    d
  }

  /** The dictionary a public-key crypt filter is written as; its /Length is in bits. */
  function PubKeyCfDictionary(f: PubKeyFilterSpec): (r: Result<seq<Entry>, CryptError>)
    ensures r.Err? <==> !f.actsAsDefault && f.recipients == []
  {
    if !f.actsAsDefault && f.recipients == [] then Err(MalformedEntry)   // `recipients[0]` of an empty list
    else
      Ok(CommonCfEntries(f.spec) + [
        Entry("/Length", Number(f.spec.keylen * 8)),
        Entry("/Recipients", RecipientsEntry(f)),
        Entry("/EncryptMetadata", Boolean(f.encryptMetadata))])
  }

  /** A standard AES filter reads back as written (its /Length is not consulted). */
  lemma StandardAesCfRoundTrip(keylen: int)
    requires keylen == 16 || keylen == 32
    ensures ReadStandardCfDictionary(StandardCfDictionary(FilterSpec(Aes, keylen))) == Ok(Some(FilterSpec(Aes, keylen)))
  {
    var d := StandardCfDictionary(FilterSpec(Aes, keylen));
    assert d[1] == Entry("/CFM", Name(FilterSpec(Aes, keylen).Method()));
  }

  /**
   * A standard RC4 filter is written with its key length in bytes and read
   * back as if that were bits: 16 bytes come back as 2.
   */
  lemma StandardRc4CfLengthShrinks(keylen: int)
    requires keylen >= 0
    ensures ReadStandardCfDictionary(StandardCfDictionary(FilterSpec(Rc4, keylen))) == Ok(Some(FilterSpec(Rc4, keylen / 8)))
  {
    var d := StandardCfDictionary(FilterSpec(Rc4, keylen));
    assert d[1] == Entry("/CFM", Name("/V2"));
    assert d[2] == Entry("/Length", Number(keylen));
  }

  /** The /Recipients value a public-key filter is written with. */
  function RecipientsEntry(f: PubKeyFilterSpec): (o: PdfObject)
    requires f.actsAsDefault || f.recipients != []
    ensures f.actsAsDefault ==> RecipientList(o) == Ok(f.recipients)
    ensures !f.actsAsDefault ==> RecipientList(o) == Ok([f.recipients[0]])
  {
    if f.actsAsDefault then
      ByteStringsOfEncoded(f.recipients);
      Array(EncodeRecipients(f.recipients))
    else ByteString(f.recipients[0])
  }

  /** What the written dictionary of a public-key filter holds under each key the reader asks for. */
  lemma PubKeyCfEntries(f: PubKeyFilterSpec)
    requires f.actsAsDefault || f.recipients != []
    ensures PubKeyCfDictionary(f).Ok?
    ensures var d := PubKeyCfDictionary(f).value;
      Lookup(d, "/CFM") == Some(Name(f.spec.Method())) &&
      Lookup(d, "/Length") == Some(Number(f.spec.keylen * 8)) &&
      Lookup(d, "/Recipients") == Some(RecipientsEntry(f)) &&
      Lookup(d, "/EncryptMetadata") == Some(Boolean(f.encryptMetadata))
  {
    var d := PubKeyCfDictionary(f).value;
    assert d[1..][1..][1..] == d[3..] && d[3..][1..] == d[4..];
    LookupSkip(d, "/Length");
    LookupSkip(d[1..], "/Length");
    LookupSkip(d, "/Recipients");
    LookupSkip(d[1..], "/Recipients");
    LookupSkip(d[1..][1..], "/Recipients");
    LookupSkip(d, "/EncryptMetadata");
    LookupSkip(d[1..], "/EncryptMetadata");
    LookupSkip(d[1..][1..], "/EncryptMetadata");
    LookupSkip(d[3..], "/EncryptMetadata");
  }

  /** Any dictionary holding a filter's method, /Length in bits, recipients and flag reads back as that filter. */
  lemma ReadPubKeyCfOfEntries(d: seq<Entry>, f: PubKeyFilterSpec)
    requires f.spec.cipher == Rc4 || f.spec.keylen == 16 || f.spec.keylen == 32
    requires f.actsAsDefault || |f.recipients| == 1
    requires Lookup(d, "/CFM") == Some(Name(f.spec.Method()))
    requires Lookup(d, "/Length") == Some(Number(f.spec.keylen * 8))
    requires Lookup(d, "/Recipients") == Some(RecipientsEntry(f))
    requires Lookup(d, "/EncryptMetadata") == Some(Boolean(f.encryptMetadata))
    ensures ReadPubKeyCfDictionary(d, f.actsAsDefault) == Ok(f)
  {
    DecodeMethodOfWritten(f.spec, d);
    assert Name(f.spec.Method()) != Name("/None");
    if !f.actsAsDefault {
      assert [f.recipients[0]] == f.recipients;
    }
  }

  /**
   * A public-key filter reads back as written, provided a non-default filter
   * holds exactly one recipient object, as adding recipients ensures.
   */
  lemma PubKeyCfRoundTrip(f: PubKeyFilterSpec)
    requires f.spec.cipher == Rc4 || f.spec.keylen == 16 || f.spec.keylen == 32
    requires f.actsAsDefault || |f.recipients| == 1
    ensures PubKeyCfDictionary(f).Ok?
    ensures ReadPubKeyCfDictionary(PubKeyCfDictionary(f).value, f.actsAsDefault) == Ok(f)
  {
    PubKeyCfEntries(f);
    ReadPubKeyCfOfEntries(PubKeyCfDictionary(f).value, f);
  }
}
