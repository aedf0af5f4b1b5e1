/**
 * Crypt filters (section 7.6.5 of ISO 32000-1) as objects bound to a
 * security handler: the identity filter; the standard handler's filters,
 * whose file key is the handler's; and the public-key filters, which hold
 * the recipient objects and the seed they all envelope. Then the crypt
 * filter configuration of a handler, which names its filters and picks the
 * defaults for streams, strings and embedded files.
 */
module CryptFilters {
  import opened Wrappers
  import opened Bytes
  import opened Primitives
  import opened CryptBytes
  import opened PdfObjects
  import opened CryptConfig

  /**
   * `get_file_encryption_key` of the standard handler: its key once one was
   * found; otherwise an error telling a failed authentication from none.
   */
  function HandlerFileKey(key: Option<seq<byte>>, authFailed: bool): (r: Result<seq<byte>, CryptError>)
    ensures r.Ok? <==> key.Some?
    ensures r.Ok? ==> r.value == key.value
    ensures r.Err? ==> r.error == if authFailed then AuthenticationFailed else NotAuthenticated
  {
    match key
    case Some(k) => Ok(k)
    case None => Err(if authFailed then AuthenticationFailed else NotAuthenticated)
  }

  /**
   * `shared_key` of a standard filter: the cached key if there is one;
   * otherwise an error once the handler has seen a failed authentication
   * (even when an earlier one succeeded), else the handler's key.
   */
  function StandardSharedKey(cached: Option<seq<byte>>, handlerKey: Option<seq<byte>>, handlerAuthFailed: bool): (r: Result<seq<byte>, CryptError>)
    ensures cached.Some? ==> r == Ok(cached.value)
    ensures cached.None? ==> (r.Ok? <==> !handlerAuthFailed && handlerKey.Some?)
    ensures cached.None? && r.Ok? ==> r.value == handlerKey.value
    ensures cached.None? && handlerAuthFailed ==> r == Err(AuthenticationFailed)
  {
    if cached.Some? then Ok(cached.value)
    else if handlerAuthFailed then Err(AuthenticationFailed)
    else HandlerFileKey(handlerKey, false)
  }

  /** The kind of security handler a crypt filter is bound to. */
  datatype HandlerKind = StandardHandler | PubKeyHandler

  /** A crypt filter of the standard security handler. */
  class StandardCryptFilter {
    /** Cipher and key length, fixed when the filter is made. */
    const spec: FilterSpec
    /** `_shared_key`: the handler's file key, once fetched. */
    var sharedKey: Option<seq<byte>>

    constructor(spec: FilterSpec)
      ensures this.spec == spec && sharedKey == None
    {
      this.spec := spec;
      sharedKey := None;
    }

    /** Binding the filter to a standard handler forgets any cached key; any other handler is refused. */
    method SetSecurityHandler(kind: HandlerKind) returns (r: Result<(), CryptError>)
      modifies this
      ensures r.Ok? <==> kind == StandardHandler
      ensures r.Ok? ==> sharedKey == None
      ensures r.Err? ==> r.error == WrongHandlerKind && unchanged(this)
    {
      if kind != StandardHandler {
        return Err(WrongHandlerKind);
      }
      sharedKey := None;
      r := Ok(());
    }

    /** `shared_key`, with the handler's key and failure flag passed in; a key found is cached. */
    method SharedKey(handlerKey: Option<seq<byte>>, handlerAuthFailed: bool) returns (r: Result<seq<byte>, CryptError>)
      modifies this
      ensures r == StandardSharedKey(old(sharedKey), handlerKey, handlerAuthFailed)
      ensures sharedKey == if r.Ok? then Some(r.value) else old(sharedKey)
    {
      if sharedKey.Some? {
        return Ok(sharedKey.value);
      }
      if handlerAuthFailed {
        return Err(AuthenticationFailed);
      }
      r := HandlerFileKey(handlerKey, false);
      if r.Ok? {
        sharedKey := Some(r.value);
      }
    }
  }

  /** The seed the first recipient object yields to `open` (which holds the credential), if any. */
  function FirstSeed(rs: seq<seq<byte>>, open: seq<byte> -> Option<seq<byte>>): (r: Option<seq<byte>>)
    ensures r.None? <==> forall i :: 0 <= i < |rs| ==> open(rs[i]).None?
    ensures r.Some? ==> exists i :: 0 <= i < |rs| && open(rs[i]) == r && forall j :: 0 <= j < i ==> open(rs[j]).None?
  {
    if rs == [] then None
    else if open(rs[0]).Some? then open(rs[0])
    else
      var r := FirstSeed(rs[1..], open);
      if r.Some? then
        var i :| 0 <= i < |rs[1..]| && open(rs[1..][i]) == r && forall j :: 0 <= j < i ==> open(rs[1..][j]).None?;
        assert open(rs[i + 1]) == r && forall j :: 0 <= j < i + 1 ==> open(rs[j]).None?;
        r
      else r
  }

  /** The recipient objects one after the other. */
  function Concat(rs: seq<seq<byte>>): (r: seq<byte>)
    ensures |rs| > 0 ==> r == Concat(rs[..|rs| - 1]) + rs[|rs| - 1]
  {
    if rs == [] then [] else Concat(rs[..|rs| - 1]) + rs[|rs| - 1]
  }

  /** The digest updates of `derive_shared_encryption_key`, one per recipient object. */
  method ConcatRecipients(rs: seq<seq<byte>>) returns (all: seq<byte>)
    ensures all == Concat(rs)
  {
    all := [];
    for i := 0 to |rs|
      invariant all == Concat(rs[..i])
    {
      assert rs[..i + 1][..i] == rs[..i];
      all := all + rs[i];
    }
    assert rs[..|rs|] == rs;
  }

  /**
   * What the file key digest of a public-key filter is fed (section 7.6.4.3
   * of ISO 32000-1): the seed, every recipient object in order, and four
   * 0xff bytes when the metadata is left unencrypted.
   */
  function KeyDigestInput(seed: seq<byte>, rs: seq<seq<byte>>, encryptMetadata: bool): (r: seq<byte>)
    ensures |r| == |seed| + |Concat(rs)| + if encryptMetadata then 0 else 4
    ensures r[..|seed|] == seed && r[|seed|..|seed| + |Concat(rs)|] == Concat(rs)
    ensures !encryptMetadata ==> r[|r| - 4..] == [0xff, 0xff, 0xff, 0xff]
  {
    seed + Concat(rs) + if encryptMetadata then [] else [0xff, 0xff, 0xff, 0xff]
  }

  /** A recipient object added later is fed to the digest after those before it. */
  lemma KeyDigestInputAppend(seed: seq<byte>, rs: seq<seq<byte>>, cms: seq<byte>, encryptMetadata: bool)
    ensures KeyDigestInput(seed, rs + [cms], encryptMetadata) ==
            seed + Concat(rs) + cms + if encryptMetadata then [] else [0xff, 0xff, 0xff, 0xff]
  {
    assert (rs + [cms])[..|rs|] == rs;
    var c := Concat(rs + [cms]);
    assert c == Concat(rs) + cms;
    var tail: seq<byte> := if encryptMetadata then [] else [0xff, 0xff, 0xff, 0xff];
    assert KeyDigestInput(seed, rs + [cms], encryptMetadata) == seed + c + tail;
    assert seed + c == seed + Concat(rs) + cms;
  }

  /**
   * `derive_shared_encryption_key` of a public-key filter: no seed is an
   * error; otherwise SHA-256 of the digest input for a version 5 handler,
   * SHA-1 for the others, cut to the filter's key length.
   */
  function PubKeySharedKey(sha1: Digest20, sha256: Digest32, version: Version, seed: Option<seq<byte>>,
                           rs: seq<seq<byte>>, encryptMetadata: bool, keylen: int): (r: Result<seq<byte>, CryptError>)
    ensures r.Err? <==> seed.None?
    ensures r.Err? ==> r.error == NoSeed
    ensures r.Ok? ==> var input := KeyDigestInput(seed.value, rs, encryptMetadata);
                      r.value <= if version == Aes256 then sha256(input) else sha1(input)
    ensures r.Ok? && keylen >= 0 ==>
      |r.value| == var n := if version == Aes256 then 32 else 20; if keylen < n then keylen else n
  {
    match seed
    case None => Err(NoSeed)
    case Some(s) =>
      var input := KeyDigestInput(s, rs, encryptMetadata);
      Ok(SlicePrefix(if version == Aes256 then sha256(input) else sha1(input), keylen))
  }

  /** A crypt filter of the public-key security handler. */
  class PubKeyCryptFilter {
    /** Cipher and key length, fixed when the filter is made. */
    const spec: FilterSpec
    /** Whether this is a default (stream or string) filter of its handler. */
    const actsAsDefault: bool
    const encryptMetadata: bool
    /** The recipient CMS objects, each enveloping the seed; `None` until the first is added. */
    var recipients: Option<seq<seq<byte>>>
    /** `_recp_key_seed`: the seed the file key is derived from. */
    var seed: Option<seq<byte>>
    /** `_shared_key`: the file key, once derived. */
    var sharedKey: Option<seq<byte>>

    /** A seed only exists next to a recipient list, and a key only next to a seed. */
    ghost predicate Valid()
      reads this
    {
      (seed.Some? ==> recipients.Some?) && (sharedKey.Some? ==> seed.Some?)
    }

    constructor(spec: FilterSpec, recipients: Option<seq<seq<byte>>>, actsAsDefault: bool, encryptMetadata: bool)
      ensures Valid()
      ensures this.spec == spec && this.recipients == recipients
      ensures this.actsAsDefault == actsAsDefault && this.encryptMetadata == encryptMetadata
      ensures seed == None && sharedKey == None
    {
      this.spec := spec;
      this.recipients := recipients;
      this.actsAsDefault := actsAsDefault;
      this.encryptMetadata := encryptMetadata;
      seed := None;
      sharedKey := None;
    }

    /** The recipient objects, none when there is no list yet. */
    function Recipients(): seq<seq<byte>>
      reads this
    {
      if recipients.Some? then recipients.value else []
    }

    /**
     * Binding the filter to a public-key handler forgets the seed and the
     * key, and keeps the recipients; any other handler is refused.
     */
    method SetSecurityHandler(kind: HandlerKind) returns (r: Result<(), CryptError>)
      modifies this
      ensures r.Ok? <==> kind == PubKeyHandler
      ensures r.Ok? ==> Valid() && seed == None && sharedKey == None
      ensures r.Err? ==> r.error == WrongHandlerKind && unchanged(this)
      ensures recipients == old(recipients)
    {
      if kind != PubKeyHandler {
        return Err(WrongHandlerKind);
      }
      seed := None;
      sharedKey := None;
      r := Ok(());
    }

    /**
     * `add_recipients`: appends exactly one CMS object that envelopes the
     * seed and, for a default filter, the permissions. The first call makes
     * `newSeed` the seed; a non-default filter takes one object only; once
     * the key is derived, or without a seed, nothing can be added; a seed
     * left by `authenticate` that is not 20 bytes long fails the envelope's
     * length assertion. `seal` stands for building the CMS object for the
     * recipients' certificates.
     */
    method AddRecipients(newSeed: seq<byte>, seal: seq<byte> -> seq<byte>) returns (r: Result<(), CryptError>)
      requires Valid() && |newSeed| == 20
      modifies this
      ensures Valid() && sharedKey == old(sharedKey)
      ensures !actsAsDefault && old(recipients).Some? && old(recipients).value != [] ==> r == Err(RecipientsNotAllowed)
      ensures old(recipients).None? ==> r.Ok? && seed == Some(newSeed)
      ensures old(recipients).Some? ==> seed == old(seed)
      ensures old(sharedKey).Some? ==> r.Err?
      ensures old(recipients).Some? && old(seed).None? ==> r.Err?
      ensures ((actsAsDefault || old(recipients).None? || old(recipients).value == []) && old(sharedKey).None? &&
               (old(recipients).None? || (old(seed).Some? && |old(seed).value| == 20))) ==> r.Ok?
      ensures (old(recipients).Some? && (actsAsDefault || old(recipients).value == []) && old(sharedKey).None? &&
               old(seed).Some? && |old(seed).value| != 20) ==> r == Err(ShortSeed)
      ensures r.Ok? ==> (recipients.Some? && seed.Some? && |seed.value| == 20 &&
        recipients.value == old(Recipients()) + [seal(EnvelopeContent(seed.value, AllPerms, actsAsDefault))])
      ensures r.Err? ==> recipients == old(recipients) && seed == old(seed)
      ensures r.Err? ==> r.error in {RecipientsNotAllowed, RecipientsLocked, ShortSeed}
    {
      if !actsAsDefault && recipients.Some? && recipients.value != [] {
        return Err(RecipientsNotAllowed);
      }
      if recipients.None? {
        seed := Some(newSeed);
        recipients := Some([]);
      }
      if sharedKey.Some? || seed.None? {
        return Err(RecipientsLocked);
      }
      if |seed.value| != 20 {
        return Err(ShortSeed);
      }
      var cms := seal(EnvelopeContent(seed.value, AllPerms, actsAsDefault));
      recipients := Some(recipients.value + [cms]);
      r := Ok(());
    }

    /**
     * `authenticate`: the first recipient object `open` can open gives the
     * seed and the user result; when none can, the result is a failure and
     * the seed stays as it was.
     */
    method Authenticate(open: seq<byte> -> Option<seq<byte>>) returns (r: AuthResult)
      requires Valid() && recipients.Some?
      modifies this
      ensures recipients == old(recipients) && sharedKey == old(sharedKey)
      ensures Valid()
      ensures r == User || r == Failed
      ensures r == User <==> FirstSeed(recipients.value, open).Some?
      ensures seed == if r == User then FirstSeed(recipients.value, open) else old(seed)
    {
      var rs := recipients.value;
      var i := 0;
      while i < |rs|
        invariant 0 <= i <= |rs|
        invariant FirstSeed(rs, open) == FirstSeed(rs[i..], open)
      {
        var s := open(rs[i]);
        if s.Some? {
          seed := s;
          return User;
        }
        assert rs[i..][1..] == rs[i + 1..];
        i := i + 1;
      }
      return Failed;
    }

    /** `derive_shared_encryption_key`, with the handler's version passed in. */
    method DeriveSharedKey(sha1: Digest20, sha256: Digest32, version: Version) returns (r: Result<seq<byte>, CryptError>)
      requires Valid()
      ensures r == PubKeySharedKey(sha1, sha256, version, seed, Recipients(), encryptMetadata, spec.keylen)
    {
      if seed.None? {
        return Err(NoSeed);
      }
      var all := ConcatRecipients(recipients.value);
      var input := seed.value + all;
      if !encryptMetadata {
        input := input + [0xff, 0xff, 0xff, 0xff];
      }
      assert input == KeyDigestInput(seed.value, recipients.value, encryptMetadata);
      var digest: seq<byte>;
      if version == Aes256 {
        digest := sha256(input);
      } else {
        digest := sha1(input);
      }
      r := Ok(SlicePrefix(digest, spec.keylen));
    }

    /** `shared_key`: the cached key, else the derived one, which is then cached. */
    method SharedKey(sha1: Digest20, sha256: Digest32, version: Version) returns (r: Result<seq<byte>, CryptError>)
      requires Valid()
      modifies this
      ensures Valid()
      ensures old(sharedKey).Some? ==> r == Ok(old(sharedKey).value)
      ensures old(sharedKey).None? ==> r == PubKeySharedKey(sha1, sha256, version, seed, Recipients(), encryptMetadata, spec.keylen)
      ensures sharedKey == if r.Ok? then Some(r.value) else None
      ensures seed == old(seed) && recipients == old(recipients)
    {
      if sharedKey.Some? {
        return Ok(sharedKey.value);
      }
      r := DeriveSharedKey(sha1, sha256, version);
      if r.Ok? {
        sharedKey := Some(r.value);
      }
    }

    /** The filter as its dictionary describes it. */
    function Description(): PubKeyFilterSpec
      reads this
      requires recipients.Some?
    {
      PubKeyFilterSpec(spec, recipients.value, encryptMetadata, actsAsDefault)
    }
  }

  /** A crypt filter: the identity filter is a single value; the others are objects. */
  datatype Filter =
    | IdentityFilter
    | StandardFilter(std: StandardCryptFilter)
    | PubKeyFilter(pk: PubKeyCryptFilter)
  {
    /** Cipher and key length; the identity filter has none. */
    function Spec(): Option<FilterSpec> {
      match this
      case IdentityFilter => None
      case StandardFilter(s) => Some(s.spec)
      case PubKeyFilter(p) => Some(p.spec)
    }

    /** `method`: the /CFM name. */
    function Method(): string {
      match Spec()
      case None => "/None"
      case Some(spec) => spec.Method()
    }

    /** `keylen` in bytes; 0 for the identity filter. */
    function KeyLength(): int {
      match Spec()
      case None => 0
      case Some(spec) => spec.keylen
    }
  }

  /** The ciphers the filters apply. */
  datatype Ciphers = Ciphers(rc4: Rc4, aesEncrypt: AesCbcPadded, aesDecrypt: AesCbcPadded)

  /**
   * `encrypt`: the identity filter returns its input, RC4 filters apply RC4,
   * and AES filters write the IV (fresh random bytes, passed in) in front of
   * the padded CBC ciphertext.
   */
  function Encrypt(f: Filter, c: Ciphers, key: seq<byte>, plaintext: seq<byte>, iv: seq<byte>): (r: seq<byte>)
    requires |iv| == 16
    ensures f.IdentityFilter? ==> r == plaintext
    ensures f.Spec().Some? && f.Spec().value.cipher == Rc4 ==> |r| == |plaintext|
    ensures f.Spec().Some? && f.Spec().value.cipher == Aes ==> |r| >= 16 && r[..16] == iv
  {
    match f.Spec()
    case None => plaintext
    case Some(spec) =>
      if spec.cipher == Rc4 then c.rc4(key, plaintext) else iv + c.aesEncrypt(key, plaintext, iv)
  }

  /** `decrypt`: the inverse steps; an AES ciphertext starts with its IV. */
  function Decrypt(f: Filter, c: Ciphers, key: seq<byte>, ciphertext: seq<byte>): (r: seq<byte>)
    ensures f.IdentityFilter? ==> r == ciphertext
    ensures f.Spec().Some? && f.Spec().value.cipher == Rc4 ==> |r| == |ciphertext|
  {
    match f.Spec()
    case None => ciphertext
    case Some(spec) =>
      if spec.cipher == Rc4 then c.rc4(key, ciphertext)
      else c.aesDecrypt(key, if |ciphertext| >= 16 then ciphertext[16..] else [], Prefix(ciphertext, 16))
  }

  /** Every filter decrypts what it encrypted under the same key. */
  lemma DecryptUndoesEncrypt(f: Filter, c: Ciphers, key: seq<byte>, plaintext: seq<byte>, iv: seq<byte>)
    requires |iv| == 16 && InvertsPadded(c.aesDecrypt, c.aesEncrypt)
    ensures Decrypt(f, c, key, Encrypt(f, c, key, plaintext, iv)) == plaintext
  {
    var e := Encrypt(f, c, key, plaintext, iv);
    if f.Spec().Some? && f.Spec().value.cipher == Aes {
      assert e[16..] == c.aesEncrypt(key, plaintext, iv);
      assert Prefix(e, 16) == iv;
    }
  }

  /**
   * `derive_object_key`: the identity filter has the empty key; AES under a
   * version 5 handler uses the file key itself; the others use Algorithm 1
   * of section 7.6.2 of ISO 32000-1.
   */
  function ObjectKey(f: Filter, md5: Digest16, version: Version, sharedKey: seq<byte>, idnum: int, generation: int): (r: seq<byte>)
    requires f.Spec().Some? && !(f.Spec().value.cipher == Aes && version == Aes256) ==> IsInt32(idnum) && IsInt32(generation)
    ensures f.IdentityFilter? ==> r == []
    ensures f.Spec().Some? && f.Spec().value.cipher == Aes && version == Aes256 ==> r == sharedKey
    ensures f.Spec().Some? && !(f.Spec().value.cipher == Aes && version == Aes256) ==>
      r == LegacyObjectKey(md5, sharedKey, idnum, generation, f.Spec().value.cipher == Aes)
  {
    match f.Spec()
    case None => []
    case Some(spec) =>
      if spec.cipher == Aes && version == Aes256 then sharedKey
      else LegacyObjectKey(md5, sharedKey, idnum, generation, spec.cipher == Aes)
  }

  /** The name of the identity filter. */
  const IdentityName: string := "/Identity"
  /** The name the standard handler gives its default filter. */
  const StdCfName: string := "/StdCF"
  /** The name the public-key handler gives its default filter. */
  const DefaultCryptFilterName: string := "/DefaultCryptFilter"

  datatype NamedFilter = NamedFilter(name: string, filter: Filter)

  /** The filter of the first entry named `name`. */
  function FindFilter(filters: seq<NamedFilter>, name: string): (r: Option<Filter>)
    ensures r.Some? ==> NamedFilter(name, r.value) in filters
    ensures r.None? <==> forall nf | nf in filters :: nf.name != name
  {
    if filters == [] then None
    else if filters[0].name == name then Some(filters[0].filter)
    else FindFilter(filters[1..], name)
  }

  /** `__getitem__`, and the constructor's `_select`: /Identity always names the identity filter. */
  function Select(filters: seq<NamedFilter>, name: string): (r: Result<Filter, CryptError>)
    ensures name == IdentityName ==> r == Ok(IdentityFilter)
    ensures name != IdentityName ==> (r.Ok? <==> exists nf | nf in filters :: nf.name == name)
    ensures r.Ok? && name != IdentityName ==> NamedFilter(name, r.value) in filters
    ensures r.Err? ==> r.error == UnknownCryptFilter
  {
    if name == IdentityName then Ok(IdentityFilter)
    else match FindFilter(filters, name)
      case Some(f) => Ok(f)
      case None => Err(UnknownCryptFilter)
  }

  /** `__contains__`. */
  predicate Contains(filters: seq<NamedFilter>, name: string): (c: bool)
    ensures c <==> Select(filters, name).Ok?
  {
    name == IdentityName || exists nf | nf in filters :: nf.name == name
  }

  /** A configuration: the named filters and the defaults picked from them. */
  datatype CryptFilterConfiguration = CryptFilterConfiguration(
    filters: seq<NamedFilter>,
    streamFilterName: string, stringFilterName: string, fileFilterName: Option<string>,
    forStream: Filter, forString: Filter, forEmbeddedFile: Filter)

  /** `default_file_filter or default_stream_filter`: an absent or empty name falls back. */
  function FileFilterName(fileFilterName: Option<string>, streamFilterName: string): string {
    if fileFilterName.None? || fileFilterName.value == [] then streamFilterName else fileFilterName.value
  }

  /**
   * The configuration's constructor: every default must name /Identity or
   * a filter (else a `KeyError`); the embedded-file default falls back to
   * the stream default.
   */
  function NewConfiguration(filters: seq<NamedFilter>, stmf: string, strf: string, eff: Option<string>): (r: Result<CryptFilterConfiguration, CryptError>)
    ensures r.Ok? <==> Contains(filters, stmf) && Contains(filters, strf) && Contains(filters, FileFilterName(eff, stmf))
    ensures r.Err? ==> r.error == UnknownCryptFilter
    ensures r.Ok? ==> r.value.filters == filters && r.value.streamFilterName == stmf &&
                      r.value.stringFilterName == strf && r.value.fileFilterName == eff
    ensures r.Ok? ==> Select(filters, stmf) == Ok(r.value.forStream) && Select(filters, strf) == Ok(r.value.forString)
    ensures r.Ok? ==> Select(filters, FileFilterName(eff, stmf)) == Ok(r.value.forEmbeddedFile)
    ensures r.Ok? && (eff.None? || eff.value == []) ==> r.value.forEmbeddedFile == r.value.forStream
  {
    match (Select(filters, stmf), Select(filters, strf), Select(filters, FileFilterName(eff, stmf)))
    case (Ok(a), Ok(b), Ok(c)) => Ok(CryptFilterConfiguration(filters, stmf, strf, eff, a, b, c))
    case _ => Err(UnknownCryptFilter)
  }

  /**
   * `default_filters`: the stream default and the string default, once
   * each. The source returns a set; here the stream default comes first.
   */
  function DefaultFilters(cfg: CryptFilterConfiguration): (r: seq<Filter>)
    ensures |r| == 1 <==> cfg.forStream == cfg.forString
    ensures 1 <= |r| <= 2 && r[0] == cfg.forStream && r[|r| - 1] == cfg.forString
  {
    if cfg.forStream == cfg.forString then [cfg.forStream] else [cfg.forStream, cfg.forString]
  }

  /** No two entries share a name or a filter object, and the identity filter is reached only through its name. */
  predicate DistinctFilters(filters: seq<NamedFilter>) {
    (forall i, j :: 0 <= i < j < |filters| ==> filters[i].name != filters[j].name && filters[i].filter != filters[j].filter) &&
    (forall i :: 0 <= i < |filters| ==> !filters[i].filter.IdentityFilter?)
  }

  /** With distinct filters, two names select the same filter only when they are the same name. */
  lemma SelectInjective(filters: seq<NamedFilter>, a: string, b: string)
    requires DistinctFilters(filters)
    requires Select(filters, a).Ok? && Select(filters, b).Ok?
    ensures Select(filters, a) == Select(filters, b) <==> a == b
  {
  }

  /** With distinct filters, there is one default filter exactly when the stream and string defaults share a name. */
  lemma OneDefaultIffSameName(filters: seq<NamedFilter>, stmf: string, strf: string, eff: Option<string>)
    requires DistinctFilters(filters)
    requires NewConfiguration(filters, stmf, strf, eff).Ok?
    ensures |DefaultFilters(NewConfiguration(filters, stmf, strf, eff).value)| == 1 <==> stmf == strf
  {
    SelectInjective(filters, stmf, strf);
  }

  /** The public-key filter objects of a configuration. */
  function PubKeyFilters(filters: seq<NamedFilter>): set<PubKeyCryptFilter> {
    set nf | nf in filters && nf.filter.PubKeyFilter? :: nf.filter.pk
  }

  /** The standard filter objects of a configuration. */
  function StandardFilters(filters: seq<NamedFilter>): set<StandardCryptFilter> {
    set nf | nf in filters && nf.filter.StandardFilter? :: nf.filter.std
  }

  /** Every public-key filter has a recipient list, which writing its dictionary iterates over. */
  predicate HaveRecipients(filters: seq<NamedFilter>)
    reads PubKeyFilters(filters)
  {
    forall p | p in PubKeyFilters(filters) :: p.recipients.Some?
  }

  /** Whether a filter's `_set_security_handler` accepts a handler of this kind; the identity filter takes any. */
  predicate AcceptsHandler(f: Filter, kind: HandlerKind) {
    match f
    case IdentityFilter => true
    case StandardFilter(_) => kind == StandardHandler
    case PubKeyFilter(_) => kind == PubKeyHandler
  }

  /** How many filters, from the first, accept a handler of this kind: binding stops at the first that does not. */
  function AcceptedPrefix(filters: seq<NamedFilter>, kind: HandlerKind): (n: nat)
    ensures n <= |filters|
    ensures forall j | 0 <= j < n :: AcceptsHandler(filters[j].filter, kind)
    ensures n < |filters| ==> !AcceptsHandler(filters[n].filter, kind)
  {
    if filters == [] || !AcceptsHandler(filters[0].filter, kind) then 0
    else 1 + AcceptedPrefix(filters[1..], kind)
  }

  /** The filters before the first one that refuses the kind hold no filter of the other kind. */
  lemma AcceptedPrefixOfKind(filters: seq<NamedFilter>, kind: HandlerKind)
    ensures kind == StandardHandler ==> PubKeyFilters(filters[..AcceptedPrefix(filters, kind)]) == {}
    ensures kind == PubKeyHandler ==> StandardFilters(filters[..AcceptedPrefix(filters, kind)]) == {}
  {
    var prefix := filters[..AcceptedPrefix(filters, kind)];
    assert forall nf | nf in prefix :: AcceptsHandler(nf.filter, kind);
  }

  /** A prefix holds no filter objects beyond those of the whole. */
  lemma FilterObjectsPrefix(filters: seq<NamedFilter>, n: nat)
    requires n <= |filters|
    ensures PubKeyFilters(filters[..n]) <= PubKeyFilters(filters)
    ensures StandardFilters(filters[..n]) <= StandardFilters(filters)
  {
    assert forall x | x in filters[..n] :: x in filters;
  }

  /** Extending a prefix by one filter adds its object, if any, to the filter objects of its kind. */
  lemma FilterObjectsStep(filters: seq<NamedFilter>, i: nat)
    requires i < |filters|
    ensures var nf := filters[i];
      PubKeyFilters(filters[..i + 1]) == PubKeyFilters(filters[..i]) + (if nf.filter.PubKeyFilter? then {nf.filter.pk} else {})
    ensures var nf := filters[i];
      StandardFilters(filters[..i + 1]) == StandardFilters(filters[..i]) + (if nf.filter.StandardFilter? then {nf.filter.std} else {})
  {
    var ext := filters[..i + 1];
    assert ext == filters[..i] + [filters[i]];
    assert forall x | x in ext :: x in filters[..i] || x == filters[i];
    assert filters[i] in ext && forall x | x in filters[..i] :: x in ext;
  }

  /**
   * The binding loop of `set_security_handler` over the first `n` filters,
   * all of which accept the handler's kind: each standard filter forgets its
   * key, each public-key filter its seed and key; nothing else changes.
   */
  method BindFilters(filters: seq<NamedFilter>, n: nat, kind: HandlerKind)
    requires n <= |filters| && forall j | 0 <= j < n :: AcceptsHandler(filters[j].filter, kind)
    modifies PubKeyFilters(filters[..n]), StandardFilters(filters[..n])
    ensures forall p | p in PubKeyFilters(filters[..n]) :: p.Valid() && p.seed == None && p.sharedKey == None
    ensures forall s | s in StandardFilters(filters[..n]) :: s.sharedKey == None
    ensures forall p | p in PubKeyFilters(filters[..n]) :: p.recipients == old(p.recipients)
  {
    for i := 0 to n
      invariant forall p | p in PubKeyFilters(filters[..i]) :: p.Valid() && p.seed == None && p.sharedKey == None
      invariant forall s | s in StandardFilters(filters[..i]) :: s.sharedKey == None
      invariant forall p | p in PubKeyFilters(filters[..n]) :: p.recipients == old(p.recipients)
    {
      FilterObjectsStep(filters, i);
      match filters[i].filter
      case IdentityFilter =>
      case StandardFilter(s) =>
        assert s in StandardFilters(filters[..n]);
        assert forall p | p in PubKeyFilters(filters[..n]) :: p as object != s;
        var bound := s.SetSecurityHandler(kind);
      case PubKeyFilter(p) =>
        assert p in PubKeyFilters(filters[..n]);
        assert forall s | s in StandardFilters(filters[..i]) :: s as object != p;
        var bound := p.SetSecurityHandler(kind);
    }
  }

  /**
   * `set_security_handler`: binds the filters in order, so each standard
   * filter forgets its key and each public-key filter its seed and key,
   * until a filter refuses the handler's kind, which raises and leaves that
   * filter and the ones after it as they were. Recipient lists stay.
   */
  method SetSecurityHandler(filters: seq<NamedFilter>, kind: HandlerKind) returns (r: Result<(), CryptError>)
    modifies PubKeyFilters(filters), StandardFilters(filters)
    ensures r.Ok? <==> AcceptedPrefix(filters, kind) == |filters|
    ensures r.Err? ==> r.error == WrongHandlerKind
    ensures var bound := filters[..AcceptedPrefix(filters, kind)];
      forall p | p in PubKeyFilters(bound) :: p.Valid() && p.seed == None && p.sharedKey == None
    ensures var bound := filters[..AcceptedPrefix(filters, kind)];
      forall s | s in StandardFilters(bound) :: s.sharedKey == None
    ensures var bound := filters[..AcceptedPrefix(filters, kind)];
      forall p | p in PubKeyFilters(filters) && p !in PubKeyFilters(bound) :: unchanged(p)
    ensures var bound := filters[..AcceptedPrefix(filters, kind)];
      forall s | s in StandardFilters(filters) && s !in StandardFilters(bound) :: unchanged(s)
    ensures forall p | p in PubKeyFilters(filters) :: p.recipients == old(p.recipients)
  {
    var n := AcceptedPrefix(filters, kind);
    FilterObjectsPrefix(filters, n);
    ghost var bound := filters[..n];
    BindFilters(filters, n, kind);
    forall p | p in PubKeyFilters(filters) && p !in PubKeyFilters(bound)
      ensures unchanged(p)
    {
      assert forall s | s in StandardFilters(bound) :: s as object != p;
    }
    forall s | s in StandardFilters(filters) && s !in StandardFilters(bound)
      ensures unchanged(s)
    {
      assert forall p | p in PubKeyFilters(bound) :: p as object != s;
    }
    forall p | p in PubKeyFilters(filters) && p !in PubKeyFilters(bound)
      ensures p.recipients == old(p.recipients)
    {
    }
    r := if n == |filters| then Ok(()) else Err(WrongHandlerKind);
  }

  /** `as_pdf_object` of a filter; the identity filter has no dictionary. */
  function FilterDictionary(f: Filter): (r: Result<seq<Entry>, CryptError>)
    reads if f.PubKeyFilter? then {f.pk} else {}
    requires f.PubKeyFilter? ==> f.pk.recipients.Some?
    ensures r.Err? <==> f.IdentityFilter? || (f.PubKeyFilter? && !f.pk.actsAsDefault && f.pk.recipients.value == [])
    ensures f.IdentityFilter? ==> r == Err(IdentityNotSerialisable)
    ensures r.Ok? ==> Lookup(r.value, "/CFM") == Some(Name(f.Method()))
  {
    match f
    case IdentityFilter => Err(IdentityNotSerialisable)
    case StandardFilter(s) => Ok(StandardCfDictionary(s.spec))
    case PubKeyFilter(p) => PubKeyCfDictionary(p.Description())
  }

  /** The /CF dictionary: every filter except one named /Identity, in order. */
  function CfEntries(filters: seq<NamedFilter>): (r: Result<seq<Entry>, CryptError>)
    reads PubKeyFilters(filters)
    requires HaveRecipients(filters)
    ensures r.Ok? <==> forall nf | nf in filters && nf.name != IdentityName :: FilterDictionary(nf.filter).Ok?
    ensures r.Ok? ==> forall e | e in r.value :: e.key != IdentityName
    ensures r.Ok? ==> forall nf | nf in filters && nf.name != IdentityName ::
      Entry(nf.name, Dictionary(FilterDictionary(nf.filter).value)) in r.value
  {
    if filters == [] then Ok([])
    else
      assert PubKeyFilters(filters[1..]) <= PubKeyFilters(filters);
      var rest := CfEntries(filters[1..]);
      if filters[0].name == IdentityName then rest
      else match FilterDictionary(filters[0].filter)
        case Err(e) => Err(e)
        case Ok(d) =>
          match rest
          case Err(e) => Err(e)
          case Ok(es) => Ok([Entry(filters[0].name, Dictionary(d))] + es)
  }

  /**
   * /CF holds nothing but the filters' dictionaries, and the entry under a
   * name is the dictionary of the filter registered first under it, as in
   * the Python dictionary keyed by name.
   */
  lemma {:induction false} CfEntriesExact(filters: seq<NamedFilter>)
    requires HaveRecipients(filters)
    requires CfEntries(filters).Ok?
    ensures forall e | e in CfEntries(filters).value :: exists nf | nf in filters && nf.name != IdentityName ::
      e == Entry(nf.name, Dictionary(FilterDictionary(nf.filter).value))
    ensures forall name: string | name != IdentityName && FindFilter(filters, name).Some? ::
      Lookup(CfEntries(filters).value, name) == Some(Dictionary(FilterDictionary(FindFilter(filters, name).value).value))
  {
    if filters != [] {
      assert PubKeyFilters(filters[1..]) <= PubKeyFilters(filters);
      CfEntriesExact(filters[1..]);
    }
  }

  /**
   * `as_pdf_object` of a configuration: /StmF, /StrF, /EFF only when one was
   * given, and /CF.
   */
  function ConfigurationDictionary(cfg: CryptFilterConfiguration): (r: Result<seq<Entry>, CryptError>)
    reads PubKeyFilters(cfg.filters)
    requires HaveRecipients(cfg.filters)
    ensures r.Ok? <==> CfEntries(cfg.filters).Ok?
    ensures r.Ok? ==> Lookup(r.value, "/StmF") == Some(Name(cfg.streamFilterName))
    ensures r.Ok? ==> Lookup(r.value, "/StrF") == Some(Name(cfg.stringFilterName))
    ensures r.Ok? ==> Lookup(r.value, "/EFF") == if cfg.fileFilterName.Some? then Some(Name(cfg.fileFilterName.value)) else None
    ensures r.Ok? ==> Lookup(r.value, "/CF") == Some(Dictionary(CfEntries(cfg.filters).value))
  {
    match CfEntries(cfg.filters)
    case Err(e) => Err(e)
    case Ok(cf) =>
      var names := [Entry("/StmF", Name(cfg.streamFilterName)), Entry("/StrF", Name(cfg.stringFilterName))];
      var eff := if cfg.fileFilterName.Some? then [Entry("/EFF", Name(cfg.fileFilterName.value))] else [];
      var tail := [Entry("/CF", Dictionary(cf))];
      LookupAppend(names + eff, tail, "/StmF");
      LookupAppend(names + eff, tail, "/StrF");
      LookupAppend(names + eff, tail, "/EFF");
      LookupAppend(names + eff, tail, "/CF");
      LookupAppend(names, eff, "/StmF");
      LookupAppend(names, eff, "/StrF");
      LookupAppend(names, eff, "/EFF");
      LookupAppend(names, eff, "/CF");
      Ok(names + eff + tail)
  }
}
