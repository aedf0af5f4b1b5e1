/**
 * The two security handlers of the encryption layer: the standard
 * (password) handler and the public-key handler. Each checks its
 * parameters when it is made, binds its crypt filter configuration (which
 * resets every filter), and authenticates a credential.
 */
module SecurityHandlers {
  import opened Wrappers
  import opened Bytes
  import opened Primitives
  import opened CryptBytes
  import opened CryptConfig
  import opened CryptFilters
  import LegacyKeys
  import R6Keys

  /** The primitives both password algorithms need. */
  datatype HandlerCrypto = HandlerCrypto(md5: Digest16, rc4: Rc4, r6: R6Keys.R6Crypto)

  /**
   * The filter a handler makes for itself when it is given no
   * configuration: RC4 with the version's key length for /V 1 and 2,
   * AES-256 for /V 5, and none for /V 4.
   */
  function DefaultFilterSpec(version: Version, keylen: int): Option<FilterSpec> {
    match version
    case Rc4Of40Bits => Some(FilterSpec(Rc4, 5))
    case Rc4LongerKeys => Some(FilterSpec(Rc4, keylen))
    case Rc4OrAes128 => None
    case Aes256 => Some(FilterSpec(Aes, 32))
  }

  /** The filters of an optional configuration. */
  function ConfigFilters(config: Option<CryptFilterConfiguration>): seq<NamedFilter> {
    if config.Some? then config.value.filters else []
  }

  /**
   * `_std_rc4_config` and `_std_aes_config`: a new standard filter named
   * /StdCF, the default for streams, strings and embedded files.
   */
  method NewStandardConfiguration(spec: FilterSpec) returns (cfg: CryptFilterConfiguration)
    ensures cfg.forStream.StandardFilter? && fresh(cfg.forStream.std)
    ensures cfg.forStream.std.spec == spec && cfg.forStream.std.sharedKey == None
    ensures cfg == CryptFilterConfiguration([NamedFilter(StdCfName, cfg.forStream)], StdCfName, StdCfName, None,
                                            cfg.forStream, cfg.forStream, cfg.forStream)
  {
    var f := new StandardCryptFilter(spec);
    var filters := [NamedFilter(StdCfName, StandardFilter(f))];
    assert filters[0].name == StdCfName;
    cfg := NewConfiguration(filters, StdCfName, StdCfName, None).value;
  }

  /**
   * `_pubkey_rc4_config` and `_pubkey_aes_config`: a new public-key filter
   * named /DefaultCryptFilter that acts as the default for everything.
   */
  method NewPubKeyConfiguration(spec: FilterSpec, recipients: Option<seq<seq<byte>>>, encryptMetadata: bool)
    returns (cfg: CryptFilterConfiguration)
    ensures cfg.forStream.PubKeyFilter? && fresh(cfg.forStream.pk)
    ensures cfg.forStream.pk.spec == spec && cfg.forStream.pk.recipients == recipients
    ensures cfg.forStream.pk.actsAsDefault && cfg.forStream.pk.encryptMetadata == encryptMetadata
    ensures cfg.forStream.pk.Valid() && cfg.forStream.pk.seed == None && cfg.forStream.pk.sharedKey == None
    ensures cfg == CryptFilterConfiguration([NamedFilter(DefaultCryptFilterName, cfg.forStream)],
                                            DefaultCryptFilterName, DefaultCryptFilterName, None,
                                            cfg.forStream, cfg.forStream, cfg.forStream)
  {
    var f := new PubKeyCryptFilter(spec, recipients, true, encryptMetadata);
    var filters := [NamedFilter(DefaultCryptFilterName, PubKeyFilter(f))];
    assert filters[0].name == DefaultCryptFilterName;
    cfg := NewConfiguration(filters, DefaultCryptFilterName, DefaultCryptFilterName, None).value;
  }

  /**
   * The entry-length checks of the standard handler's constructor:
   * revision 6 needs 48-byte /O and /U, 32-byte /OE and /UE and a 16-byte
   * /Perms; the legacy revisions need 32-byte /O and /U.
   */
  function CheckEntryLengths(revision: Revision, o: seq<byte>, u: seq<byte>, oe: Option<seq<byte>>,
      ue: Option<seq<byte>>, encryptedPerms: Option<seq<byte>>): (r: Result<(), CryptError>)
    ensures r.Ok? <==>
      if revision == RevAes256 then
        |o| == 48 && |u| == 48 && oe.Some? && |oe.value| == 32 && ue.Some? && |ue.value| == 32 &&
        encryptedPerms.Some? && |encryptedPerms.value| == 16
      else
        |o| == 32 && |u| == 32
    ensures r.Err? ==> r.error == BadEntryLengths
  {
    if revision == RevAes256 then
      if !(|u| == |o| && |o| == 48) then Err(BadEntryLengths)
      else if oe.None? || ue.None? || oe.value == [] || ue.value == [] ||
              !(|oe.value| == |ue.value| && |ue.value| == 32) then Err(BadEntryLengths)
      else if encryptedPerms.None? || encryptedPerms.value == [] || |encryptedPerms.value| != 16 then Err(BadEntryLengths)
      else Ok(())
    else if |u| == |o| && |o| == 32 then Ok(())
    else Err(BadEntryLengths)
  }

  /**
   * The checks of the standard handler's constructor, in the source's
   * order: the version's key length rule, a configuration (given, or the
   * version's default), every filter of a given configuration accepting a
   * standard handler, then the entry lengths. `filters` are those of the
   * given configuration, none without one. The result is the key length
   * the handler keeps, which is also the default filter's.
   */
  function StandardSetup(version: Version, revision: Revision, keylen: int, hasConfig: bool, filters: seq<NamedFilter>,
      o: seq<byte>, u: seq<byte>, oe: Option<seq<byte>>, ue: Option<seq<byte>>,
      encryptedPerms: Option<seq<byte>>): (r: Result<int, CryptError>)
    ensures r.Ok? <==> HandlerKeyLength(version, keylen).Ok? && (hasConfig || version != Rc4OrAes128) &&
                       (forall nf | nf in filters :: AcceptsHandler(nf.filter, StandardHandler)) &&
                       CheckEntryLengths(revision, o, u, oe, ue, encryptedPerms).Ok?
    ensures HandlerKeyLength(version, keylen).Err? ==> r == Err(KeyLengthOutOfRange)
    ensures HandlerKeyLength(version, keylen).Ok? && !hasConfig && version == Rc4OrAes128 ==> r == Err(NoCryptFilterConfig)
    ensures (HandlerKeyLength(version, keylen).Ok? && (hasConfig || version != Rc4OrAes128) &&
             exists nf | nf in filters :: nf.filter.PubKeyFilter?) ==> r == Err(WrongHandlerKind)
    ensures r.Err? ==> r.error in {KeyLengthOutOfRange, NoCryptFilterConfig, WrongHandlerKind, BadEntryLengths}
    ensures r.Ok? ==> r == HandlerKeyLength(version, keylen)
    ensures r.Ok? && !hasConfig ==> DefaultFilterSpec(version, keylen).Some? &&
                                    DefaultFilterSpec(version, keylen).value.keylen == r.value
  {
    match HandlerKeyLength(version, keylen)
    case Err(e) => Err(e)
    case Ok(k) =>
      if !hasConfig && DefaultFilterSpec(version, keylen).None? then Err(NoCryptFilterConfig)
      else if AcceptedPrefix(filters, StandardHandler) < |filters| then Err(WrongHandlerKind)
      else if CheckEntryLengths(revision, o, u, oe, ue, encryptedPerms).Err? then Err(BadEntryLengths)
      else Ok(k)
  }

  /** The password-based security handler. */
  class StandardSecurityHandler {
    const version: Version
    const revision: Revision
    /** The key length in bytes, after the version's rule. */
    const keylen: int
    /** /P, the permission flags. */
    const perms: int
    const o: seq<byte>
    const u: seq<byte>
    const oe: Option<seq<byte>>
    const ue: Option<seq<byte>>
    const encryptedPerms: Option<seq<byte>>
    const encryptMetadata: bool
    const config: CryptFilterConfiguration
    /** `_shared_key`: the file key, once known. */
    var sharedKey: Option<seq<byte>>
    /** `_auth_failed`: set by an authentication that found no key. */
    var authFailed: bool

    /** What the constructor established about the entries and the key length. */
    predicate Valid() {
      CheckEntryLengths(revision, o, u, oe, ue, encryptedPerms).Ok? && (5 <= keylen <= 16 || keylen == 32)
    }

    /** The part of the constructor after its checks. */
    constructor(version: Version, revision: Revision, keylen: int, perms: int, o: seq<byte>, u: seq<byte>,
        oe: Option<seq<byte>>, ue: Option<seq<byte>>, encryptedPerms: Option<seq<byte>>,
        encryptMetadata: bool, config: CryptFilterConfiguration)
      requires CheckEntryLengths(revision, o, u, oe, ue, encryptedPerms).Ok? && (5 <= keylen <= 16 || keylen == 32)
      ensures Valid()
      ensures this.version == version && this.revision == revision && this.keylen == keylen && this.perms == perms
      ensures this.o == o && this.u == u && this.oe == oe && this.ue == ue && this.encryptedPerms == encryptedPerms
      ensures this.encryptMetadata == encryptMetadata && this.config == config
      ensures sharedKey == None && !authFailed
    {
      this.version := version;
      this.revision := revision;
      this.keylen := keylen;
      this.perms := perms;
      this.o := o;
      this.u := u;
      this.oe := oe;
      this.ue := ue;
      this.encryptedPerms := encryptedPerms;
      this.encryptMetadata := encryptMetadata;
      this.config := config;
      sharedKey := None;
      authFailed := false;
    }

    /** The entries as algorithm 2.A reads them. */
    function R6View(): (e: R6Keys.R6Entries)
      requires Valid() && revision == RevAes256
      ensures e.WellFormed()
    {
      R6Keys.R6Entries(o, u, oe.value, ue.value, encryptedPerms.value, perms, encryptMetadata)
    }

    /** The entries as the legacy algorithms read them. */
    function LegacyView(): LegacyKeys.LegacyEntries
      requires Valid()
    {
      LegacyKeys.LegacyEntries(revision.Value(), keylen, o, u, perms)
    }

    /**
     * What `authenticate` finds for a credential: algorithm 2.A for
     * revision 6; otherwise the legacy algorithms on the truncated
     * password, which need the first file identifier and permission flags
     * that pack into 32 bits.
     */
    function AuthenticateOutcome(c: HandlerCrypto, credential: seq<byte>, id1: Option<seq<byte>>): (r: Result<Outcome, CryptError>)
      requires Valid()
      ensures r.Ok? ==> (r.value.result == Failed <==> r.value.key.None?)
      ensures revision != RevAes256 && id1.None? ==> r == Err(MissingFileId)
      ensures revision != RevAes256 && id1.Some? && !IsInt32(perms) ==> r == Err(PermsOutOfRange)
      ensures revision != RevAes256 && id1.Some? && IsInt32(perms) ==> r.Ok?
      ensures revision == RevAes256 && r.Err? ==> r.error == PermissionsTampered
      ensures revision == RevAes256 && r.Ok? && r.value.result != Failed ==>
        PermsOk(c.r6.decrypt(r.value.key.value, encryptedPerms.value, Zeros(16)), perms, encryptMetadata)
      ensures revision != RevAes256 && r.Ok? && r.value.result == User ==>
        LegacyKeys.UserPasswordCheck(c.md5, c.rc4, LegacyView(), id1.value, NormaliseLegacyPassword(credential)).0
    {
      if revision == RevAes256 then R6Keys.R6Authenticate(c.r6, R6View(), credential)
      else if id1.None? then Err(MissingFileId)
      else if !IsInt32(perms) then Err(PermsOutOfRange)
      else Ok(LegacyKeys.LegacyAuthenticate(c.md5, c.rc4, LegacyView(), id1.value, NormaliseLegacyPassword(credential)))
    }

    /** The dispatch of `authenticate` on the revision, running the algorithm that applies. */
    method FindOutcome(c: HandlerCrypto, credential: seq<byte>, id1: Option<seq<byte>>) returns (outcome: Result<Outcome, CryptError>)
      requires Valid()
      ensures outcome == AuthenticateOutcome(c, credential, id1)
    {
      if revision == RevAes256 {
        outcome := R6Keys.AuthenticateR6(c.r6, R6View(), credential);
      } else if id1.None? {
        outcome := Err(MissingFileId);
      } else if !IsInt32(perms) {
        outcome := Err(PermsOutOfRange);
      } else {
        var found := LegacyKeys.Authenticate(c.md5, c.rc4, LegacyView(), id1.value, NormaliseLegacyPassword(credential));
        outcome := Ok(found);
      }
    }

    /**
     * `authenticate`: a key found becomes the shared key; otherwise the
     * handler remembers the failure. An error changes nothing.
     */
    method Authenticate(c: HandlerCrypto, credential: seq<byte>, id1: Option<seq<byte>>) returns (r: Result<AuthResult, CryptError>)
      requires Valid()
      modifies this
      ensures match AuthenticateOutcome(c, credential, id1)
        case Err(e) => r == Err(e) && sharedKey == old(sharedKey) && authFailed == old(authFailed)
        case Ok(found) =>
          r == Ok(found.result) &&
          if found.key.Some? then sharedKey == found.key && authFailed == old(authFailed)
          else sharedKey == old(sharedKey) && authFailed
    {
      var outcome := FindOutcome(c, credential, id1);
      match outcome {
        case Err(e) =>
          r := Err(e);
        case Ok(found) =>
          if found.key.Some? {
            sharedKey := found.key;
          } else {
            authFailed := true;
          }
          r := Ok(found.result);
      }
    }
  }

  /**
   * `authenticate` on a revision 6 handler: OWNER exactly when the
   * normalised password matches /O, USER exactly when it matches /U but not
   * /O, and an error only after one of them matched.
   */
  lemma AuthenticateOutcomeR6(h: StandardSecurityHandler, c: HandlerCrypto, credential: seq<byte>, id1: Option<seq<byte>>)
    requires h.Valid() && h.revision == RevAes256
    ensures var r := h.AuthenticateOutcome(c, credential, id1);
      var e := h.R6View();
      var pw := NormaliseR6Password(credential);
      (r.Ok? ==> (r.value.result == Owner <==> R6Keys.PasswordMatches(c.r6, pw, e.o, e.u))) &&
      (r.Ok? ==> (r.value.result == User <==>
        !R6Keys.PasswordMatches(c.r6, pw, e.o, e.u) && R6Keys.PasswordMatches(c.r6, pw, e.u, []))) &&
      (r.Err? ==> R6Keys.PasswordMatches(c.r6, pw, e.o, e.u) || R6Keys.PasswordMatches(c.r6, pw, e.u, []))
  {
    var e := h.R6View();
    var pw := NormaliseR6Password(credential);
    assert h.AuthenticateOutcome(c, credential, id1) == R6Keys.R6Check(c.r6, e, pw);
    R6Keys.R6CheckOutcome(c.r6, e, pw);
  }

  /**
   * The standard handler's constructor. Without a configuration it makes
   * its version's default one. Once the key length and the configuration
   * are settled it binds the configuration, resetting its filters in
   * order up to the first public-key one, which it refuses; only then does
   * it check the entry lengths.
   */
  method NewStandardHandler(version: Version, revision: Revision, keylen: int, config: Option<CryptFilterConfiguration>,
      perms: int, o: seq<byte>, u: seq<byte>, oe: Option<seq<byte>>, ue: Option<seq<byte>>,
      encryptedPerms: Option<seq<byte>>, encryptMetadata: bool)
    returns (r: Result<StandardSecurityHandler, CryptError>)
    modifies PubKeyFilters(ConfigFilters(config)), StandardFilters(ConfigFilters(config))
    ensures var setup := StandardSetup(version, revision, keylen, config.Some?, ConfigFilters(config), o, u, oe, ue, encryptedPerms);
            (r.Ok? <==> setup.Ok?) && (r.Err? ==> r.error == setup.error)
    ensures r.Ok? ==> (fresh(r.value) && r.value.Valid() && r.value.version == version && r.value.revision == revision &&
      r.value.keylen == StandardSetup(version, revision, keylen, config.Some?, ConfigFilters(config), o, u, oe, ue, encryptedPerms).value)
    ensures r.Ok? ==> (r.value.perms == perms && r.value.o == o && r.value.u == u && r.value.oe == oe && r.value.ue == ue &&
      r.value.encryptedPerms == encryptedPerms && r.value.encryptMetadata == encryptMetadata)
    ensures r.Ok? ==> r.value.sharedKey == None && !r.value.authFailed
    ensures r.Ok? && config.Some? ==> r.value.config == config.value
    ensures r.Ok? && config.None? ==>
      var cfg := r.value.config;
      cfg.forStream.StandardFilter? && fresh(cfg.forStream.std) && Some(cfg.forStream.std.spec) == DefaultFilterSpec(version, keylen) &&
      cfg == CryptFilterConfiguration([NamedFilter(StdCfName, cfg.forStream)], StdCfName, StdCfName, None,
                                      cfg.forStream, cfg.forStream, cfg.forStream)
    ensures HandlerKeyLength(version, keylen).Ok? ==>
      var bound := ConfigFilters(config)[..AcceptedPrefix(ConfigFilters(config), StandardHandler)];
      (forall s | s in StandardFilters(bound) :: s.sharedKey == None) &&
      (forall s | s in StandardFilters(ConfigFilters(config)) && s !in StandardFilters(bound) :: unchanged(s))
    ensures HandlerKeyLength(version, keylen).Err? ==> forall s | s in StandardFilters(ConfigFilters(config)) :: unchanged(s)
    ensures forall p | p in PubKeyFilters(ConfigFilters(config)) :: unchanged(p)
  {
    AcceptedPrefixOfKind(ConfigFilters(config), StandardHandler);
    var k := HandlerKeyLength(version, keylen);
    if k.Err? {
      return Err(KeyLengthOutOfRange);
    }
    var cfg: CryptFilterConfiguration;
    if config.Some? {
      cfg := config.value;
    } else {
      var spec := DefaultFilterSpec(version, keylen);
      if spec.None? {
        return Err(NoCryptFilterConfig);
      }
      cfg := NewStandardConfiguration(spec.value);
      assert StandardFilters(cfg.filters) == {cfg.forStream.std};
      assert PubKeyFilters(cfg.filters) == {};
      assert AcceptedPrefix(cfg.filters, StandardHandler) == 1;
    }
    var bound := SetSecurityHandler(cfg.filters, StandardHandler);
    if bound.Err? {
      return Err(WrongHandlerKind);
    }
    if CheckEntryLengths(revision, o, u, oe, ue, encryptedPerms).Err? {
      return Err(BadEntryLengths);
    }
    var h := new StandardSecurityHandler(version, revision, k.value, perms, o, u, oe, ue, encryptedPerms, encryptMetadata, cfg);
    r := Ok(h);
  }

  /** The key length the legacy builder settles on: 5 bytes for revision 2, 16 for AES-128 under revision 4. */
  function LegacyBuildKeyLength(rev: Revision, keylen: int, useAes128: bool): int {
    if rev == RevRc4Basic then 5 else if useAes128 && rev == RevRc4OrAes128 then 16 else keylen
  }

  /** The version the legacy builder pairs with a revision. */
  function LegacyBuildVersion(rev: Revision): Version {
    if rev == RevRc4OrAes128 then Rc4OrAes128 else if rev == RevRc4Basic then Rc4Of40Bits else Rc4LongerKeys
  }

  /**
   * The rest of the legacy builder once the entries are computed: the
   * revision 4 default configuration when none is given, the standard
   * handler's constructor (whose checks the entries pass, and which
   * refuses a given configuration holding a public-key filter), and the
   * file key kept.
   */
  method NewBuiltLegacyHandler(rev: Revision, e: LegacyKeys.LegacyEntries, key: seq<byte>, useAes128: bool,
      config: Option<CryptFilterConfiguration>)
    returns (r: Result<StandardSecurityHandler, CryptError>)
    requires rev != RevAes256 && e.rev == rev.Value() && e.p == AllPerms && |e.o| == 32 && |e.u| == 32
    requires HandlerKeyLength(LegacyBuildVersion(rev), e.keylen) == Ok(e.keylen as int)
    modifies PubKeyFilters(ConfigFilters(config)), StandardFilters(ConfigFilters(config))
    ensures r.Ok? <==> forall nf | nf in ConfigFilters(config) :: AcceptsHandler(nf.filter, StandardHandler)
    ensures r.Err? ==> r.error == WrongHandlerKind
    ensures r.Ok? ==> fresh(r.value) && r.value.Valid() && r.value.revision == rev && r.value.version == LegacyBuildVersion(rev)
    ensures r.Ok? ==> r.value.LegacyView() == e && r.value.sharedKey == Some(key) && !r.value.authFailed && r.value.encryptMetadata
    ensures r.Ok? && config.Some? ==> r.value.config == config.value
    ensures r.Ok? && config.None? && rev == RevRc4OrAes128 ==>
      (r.value.config.forStream.StandardFilter? && fresh(r.value.config.forStream.std) &&
       r.value.config.forStream.std.spec == FilterSpec(if useAes128 then Aes else Rc4, e.keylen))
  {
    var cfg := config;
    if rev == RevRc4OrAes128 && config.None? {
      var made := NewStandardConfiguration(FilterSpec(if useAes128 then Aes else Rc4, e.keylen));
      assert StandardFilters(made.filters) == {made.forStream.std};
      assert PubKeyFilters(made.filters) == {};
      cfg := Some(made);
    }
    var handler := NewStandardHandler(LegacyBuildVersion(rev), rev, e.keylen, cfg, AllPerms, e.o, e.u, None, None, None, true);
    if handler.Err? {
      return Err(WrongHandlerKind);
    }
    var h := handler.value;
    h.sharedKey := Some(key);
    r := Ok(h);
  }

  /**
   * `build_from_pw_legacy`: /O and /U for the truncated passwords (the
   * user password defaults to the owner's), every permission granted, and
   * the computed file key kept. Revision 6 is refused; revision 4 without
   * a configuration gets an AES-128 or an RC4 filter.
   */
  method BuildFromPasswordLegacy(c: HandlerCrypto, rev: Revision, id1: seq<byte>, owner: seq<byte>, user: Option<seq<byte>>,
      keylen: int, useAes128: bool, config: Option<CryptFilterConfiguration>)
    returns (r: Result<StandardSecurityHandler, CryptError>)
    modifies PubKeyFilters(ConfigFilters(config)), StandardFilters(ConfigFilters(config))
    ensures rev == RevAes256 ==> r == Err(UnsupportedRevision)
    ensures rev != RevAes256 ==>
      (r.Ok? <==> HandlerKeyLength(LegacyBuildVersion(rev), LegacyBuildKeyLength(rev, keylen, useAes128)).Ok? &&
                  forall nf | nf in ConfigFilters(config) :: AcceptsHandler(nf.filter, StandardHandler))
    ensures r.Err? ==> r.error in {UnsupportedRevision, KeyLengthOutOfRange, WrongHandlerKind}
    ensures r.Ok? ==> (fresh(r.value) && r.value.Valid() && r.value.revision == rev &&
      r.value.version == LegacyBuildVersion(rev) && r.value.keylen == LegacyBuildKeyLength(rev, keylen, useAes128))
    ensures r.Ok? ==>
      var ownerPw := NormaliseLegacyPassword(owner);
      var userPw := if user.Some? then NormaliseLegacyPassword(user.value) else ownerPw;
      var built := LegacyKeys.BuildEntries(c.md5, c.rc4, rev.Value(), r.value.keylen, id1, ownerPw, userPw);
      r.value.LegacyView() == built.0 && r.value.sharedKey == Some(built.1) && !r.value.authFailed &&
      r.value.encryptMetadata
    ensures r.Ok? && config.Some? ==> r.value.config == config.value
    ensures r.Ok? && config.None? && rev == RevRc4OrAes128 ==>
      (r.value.config.forStream.StandardFilter? && fresh(r.value.config.forStream.std) &&
       r.value.config.forStream.std.spec == FilterSpec(if useAes128 then Aes else Rc4, r.value.keylen))
  {
    if rev == RevAes256 {
      return Err(UnsupportedRevision);
    }
    var version := LegacyBuildVersion(rev);
    var k := LegacyBuildKeyLength(rev, keylen, useAes128);
    if HandlerKeyLength(version, k).Err? {
      return Err(KeyLengthOutOfRange);
    }
    var ownerPw := NormaliseLegacyPassword(owner);
    var userPw := if user.Some? then NormaliseLegacyPassword(user.value) else ownerPw;
    var e, key := LegacyKeys.ComputeEntries(c.md5, c.rc4, rev.Value(), k, id1, ownerPw, userPw);
    r := NewBuiltLegacyHandler(rev, e, key, useAes128, config);
  }

  /**
   * A handler holding freshly built legacy entries and their key accepts
   * the user password as the user, with that key, and the owner password
   * as the owner or the user, never failing.
   */
  lemma BuiltLegacyHandlerAuthenticates(c: HandlerCrypto, h: StandardSecurityHandler, id1: seq<byte>,
      ownerPw: seq<byte>, userPw: seq<byte>)
    requires h.Valid() && h.revision != RevAes256 && (h.revision == RevRc4Basic ==> h.keylen == 5)
    requires h.LegacyView() == LegacyKeys.BuildEntries(c.md5, c.rc4, h.revision.Value(), h.keylen, id1,
                                                       NormaliseLegacyPassword(ownerPw), NormaliseLegacyPassword(userPw)).0
    ensures var key := LegacyKeys.BuildEntries(c.md5, c.rc4, h.revision.Value(), h.keylen, id1,
                                               NormaliseLegacyPassword(ownerPw), NormaliseLegacyPassword(userPw)).1;
            h.AuthenticateOutcome(c, userPw, Some(id1)) == Ok(Outcome(User, Some(key)))
    ensures var key := LegacyKeys.BuildEntries(c.md5, c.rc4, h.revision.Value(), h.keylen, id1,
                                               NormaliseLegacyPassword(ownerPw), NormaliseLegacyPassword(userPw)).1;
            var outcome := h.AuthenticateOutcome(c, ownerPw, Some(id1));
            outcome.Ok? && outcome.value.result != Failed && (outcome.value.result == Owner ==> outcome.value.key == Some(key))
  {
    var rev := h.revision.Value();
    LegacyKeys.BuildThenUserAuthenticates(c.md5, c.rc4, rev, h.keylen, id1,
                                          NormaliseLegacyPassword(ownerPw), NormaliseLegacyPassword(userPw));
    LegacyKeys.BuildThenOwnerAuthenticates(c.md5, c.rc4, rev, h.keylen, id1,
                                           NormaliseLegacyPassword(ownerPw), NormaliseLegacyPassword(userPw));
  }

  /**
   * The standard handler's constructor on revision 6 entries that pass its
   * checks, followed by keeping the file key.
   */
  method NewBuiltR6Handler(e: R6Keys.R6Entries, fileKey: seq<byte>) returns (h: StandardSecurityHandler)
    requires e.WellFormed()
    ensures fresh(h) && h.Valid() && h.version == Aes256 && h.revision == RevAes256 && h.keylen == 32
    ensures h.R6View() == e && h.sharedKey == Some(fileKey) && !h.authFailed
    ensures h.config.forStream.StandardFilter? && fresh(h.config.forStream.std) &&
            h.config.forStream.std.spec == FilterSpec(Aes, 32) && h.config.forString == h.config.forStream
  {
    var cfg := NewStandardConfiguration(FilterSpec(Aes, 32));
    h := new StandardSecurityHandler(Aes256, RevAes256, 32, e.perms, e.o, e.u,
                                     Some(e.oe), Some(e.ue), Some(e.encryptedPerms), e.encryptMetadata, cfg);
    h.sharedKey := Some(fileKey);
  }

  /**
   * `build_from_pw`: revision 6 entries for the passwords and the drawn
   * randomness, every permission granted, the default AES-256
   * configuration, and the drawn file key kept.
   */
  method BuildFromPassword(c: HandlerCrypto, owner: seq<byte>, user: Option<seq<byte>>, rnd: R6Keys.R6Randomness)
    returns (h: StandardSecurityHandler)
    requires rnd.WellFormed()
    ensures fresh(h) && h.Valid() && h.version == Aes256 && h.revision == RevAes256 && h.keylen == 32
    ensures h.R6View() == R6Keys.BuildR6(c.r6, owner, user, rnd)
    ensures h.sharedKey == Some(rnd.fileKey) && !h.authFailed
    ensures h.config.forStream.StandardFilter? && fresh(h.config.forStream.std) &&
            h.config.forStream.std.spec == FilterSpec(Aes, 32) && h.config.forString == h.config.forStream
  {
    var e := R6Keys.BuildR6(c.r6, owner, user, rnd);
    h := NewBuiltR6Handler(e, rnd.fileKey);
  }

  /**
   * A handler holding freshly built revision 6 entries accepts the owner
   * password as the owner, and a user password the owner check rejects as
   * the user, both with the drawn file key.
   */
  lemma BuiltR6HandlerAuthenticates(c: HandlerCrypto, h: StandardSecurityHandler, owner: seq<byte>,
      user: Option<seq<byte>>, rnd: R6Keys.R6Randomness)
    requires rnd.WellFormed() && Inverts(c.r6.decrypt, c.r6.encrypt)
    requires h.Valid() && h.revision == RevAes256 && h.R6View() == R6Keys.BuildR6(c.r6, owner, user, rnd)
    ensures h.AuthenticateOutcome(c, owner, None) == Ok(Outcome(Owner, Some(rnd.fileKey)))
    ensures user.Some? && !R6Keys.PasswordMatches(c.r6, NormaliseR6Password(user.value), h.o, h.u) ==>
      h.AuthenticateOutcome(c, user.value, None) == Ok(Outcome(User, Some(rnd.fileKey)))
  {
    R6Keys.BuildThenOwnerAuthenticatesR6(c.r6, owner, user, rnd);
    if user.Some? && !R6Keys.PasswordMatches(c.r6, NormaliseR6Password(user.value), h.o, h.u) {
      R6Keys.BuildThenUserAuthenticatesR6(c.r6, owner, user.value, rnd);
    }
  }

  /** The /SubFilter of the public-key handler: adbe.pkcs7.s3, s4 or s5. */
  datatype SubFilter = S3 | S4 | S5

  /**
   * The checks of the public-key handler's constructor, in the source's
   * order: /V 4 and 5 need subfilter s5, then the version's key length
   * rule, then a configuration (given, or the version's default). The
   * result is the key length the handler keeps, which is also the default
   * filter's.
   */
  function PubKeySetup(version: Version, subfilter: SubFilter, keylen: int, hasConfig: bool, filters: seq<NamedFilter>)
    : (r: Result<int, CryptError>)
    ensures r.Ok? <==> (subfilter == S5 || version == Rc4Of40Bits || version == Rc4LongerKeys) &&
                       HandlerKeyLength(version, keylen).Ok? && (hasConfig || version != Rc4OrAes128) &&
                       (forall nf | nf in filters :: AcceptsHandler(nf.filter, PubKeyHandler))
    ensures (version == Rc4OrAes128 || version == Aes256) && subfilter != S5 ==> r == Err(UnsupportedSubFilter)
    ensures ((subfilter == S5 || version == Rc4Of40Bits || version == Rc4LongerKeys) &&
             HandlerKeyLength(version, keylen).Ok? && (hasConfig || version != Rc4OrAes128) &&
             exists nf | nf in filters :: nf.filter.StandardFilter?) ==> r == Err(WrongHandlerKind)
    ensures r.Err? ==> r.error in {UnsupportedSubFilter, KeyLengthOutOfRange, NoCryptFilterConfig, WrongHandlerKind}
    ensures r.Ok? ==> r == HandlerKeyLength(version, keylen)
    ensures r.Ok? && !hasConfig ==> DefaultFilterSpec(version, keylen).Some? &&
                                    DefaultFilterSpec(version, keylen).value.keylen == r.value
  {
    if version.Value() >= Rc4OrAes128.Value() && subfilter != S5 then Err(UnsupportedSubFilter)
    else match HandlerKeyLength(version, keylen)
      case Err(e) => Err(e)
      case Ok(k) =>
        if !hasConfig && DefaultFilterSpec(version, keylen).None? then Err(NoCryptFilterConfig)
        else if AcceptedPrefix(filters, PubKeyHandler) < |filters| then Err(WrongHandlerKind)
        else Ok(k)
  }

  /**
   * The public-key security handler. Its own state is fixed once made; what
   * changes is held by its crypt filters.
   */
  datatype PubKeySecurityHandler = PubKeySecurityHandler(
    version: Version, subfilter: SubFilter, keylen: int, encryptMetadata: bool, config: CryptFilterConfiguration)

  /** The public-key filter objects among a configuration's defaults. */
  function DefaultPubKeyFilters(cfg: CryptFilterConfiguration): set<PubKeyCryptFilter> {
    set f | f in DefaultFilters(cfg) && f.PubKeyFilter? :: f.pk
  }

  /**
   * The public-key handler's constructor. Without a configuration it makes
   * its version's default one, holding `recipients`. Once the subfilter,
   * the key length and the configuration are settled it binds the
   * configuration, resetting its filters in order up to the first standard
   * one, which it refuses.
   */
  method NewPubKeyHandler(version: Version, subfilter: SubFilter, keylen: int, encryptMetadata: bool,
      config: Option<CryptFilterConfiguration>, recipients: Option<seq<seq<byte>>>)
    returns (r: Result<PubKeySecurityHandler, CryptError>)
    modifies PubKeyFilters(ConfigFilters(config)), StandardFilters(ConfigFilters(config))
    ensures var setup := PubKeySetup(version, subfilter, keylen, config.Some?, ConfigFilters(config));
            (r.Ok? <==> setup.Ok?) && (r.Err? ==> r.error == setup.error)
    ensures r.Ok? ==> (r.value.version == version && r.value.subfilter == subfilter &&
      r.value.encryptMetadata == encryptMetadata && r.value.keylen == PubKeySetup(version, subfilter, keylen, config.Some?, ConfigFilters(config)).value)
    ensures r.Ok? && config.Some? ==> r.value.config == config.value
    ensures r.Ok? && config.None? ==>
      var cfg := r.value.config;
      cfg.forStream.PubKeyFilter? && fresh(cfg.forStream.pk) && Some(cfg.forStream.pk.spec) == DefaultFilterSpec(version, keylen) &&
      cfg.forStream.pk.recipients == recipients && cfg.forStream.pk.actsAsDefault &&
      cfg.forStream.pk.encryptMetadata == encryptMetadata &&
      cfg.forStream.pk.Valid() && cfg.forStream.pk.seed == None && cfg.forStream.pk.sharedKey == None &&
      cfg == CryptFilterConfiguration([NamedFilter(DefaultCryptFilterName, cfg.forStream)],
                                      DefaultCryptFilterName, DefaultCryptFilterName, None,
                                      cfg.forStream, cfg.forStream, cfg.forStream)
    ensures PubKeySetup(version, subfilter, keylen, true, []).Ok? ==>
      var bound := ConfigFilters(config)[..AcceptedPrefix(ConfigFilters(config), PubKeyHandler)];
      (forall p | p in PubKeyFilters(bound) :: p.Valid() && p.seed == None && p.sharedKey == None) &&
      (forall p | p in PubKeyFilters(ConfigFilters(config)) && p !in PubKeyFilters(bound) :: unchanged(p))
    ensures PubKeySetup(version, subfilter, keylen, true, []).Err? ==>
      forall p | p in PubKeyFilters(ConfigFilters(config)) :: unchanged(p)
    ensures forall p | p in PubKeyFilters(ConfigFilters(config)) :: p.recipients == old(p.recipients)
    ensures forall s | s in StandardFilters(ConfigFilters(config)) :: unchanged(s)
  {
    AcceptedPrefixOfKind(ConfigFilters(config), PubKeyHandler);
    if version.Value() >= Rc4OrAes128.Value() && subfilter != S5 {
      return Err(UnsupportedSubFilter);
    }
    var k := HandlerKeyLength(version, keylen);
    if k.Err? {
      return Err(KeyLengthOutOfRange);
    }
    var cfg: CryptFilterConfiguration;
    if config.Some? {
      cfg := config.value;
    } else {
      var spec := DefaultFilterSpec(version, keylen);
      if spec.None? {
        return Err(NoCryptFilterConfig);
      }
      cfg := NewPubKeyConfiguration(spec.value, recipients, encryptMetadata);
      assert PubKeyFilters(cfg.filters) == {cfg.forStream.pk};
      assert StandardFilters(cfg.filters) == {};
      assert AcceptedPrefix(cfg.filters, PubKeyHandler) == 1;
    }
    var bound := SetSecurityHandler(cfg.filters, PubKeyHandler);
    if bound.Err? {
      return Err(WrongHandlerKind);
    }
    r := Ok(PubKeySecurityHandler(version, subfilter, k.value, encryptMetadata, cfg));
  }

  /** `p` now holds one more recipient object than `before`: its 20-byte seed sealed, with permissions when `p` is a default filter. */
  ghost predicate SealedOnceMore(p: PubKeyCryptFilter, before: seq<seq<byte>>, seal: seq<byte> -> seq<byte>)
    reads p
  {
    p.recipients.Some? && p.seed.Some? && |p.seed.value| == 20 &&
    p.recipients.value == before + [seal(EnvelopeContent(p.seed.value, AllPerms, p.actsAsDefault))]
  }

  /** The filter objects of the public-key filters in `fs`. */
  function PubKeyObjects(fs: seq<Filter>): set<PubKeyCryptFilter> {
    set j | 0 <= j < |fs| && fs[j].PubKeyFilter? :: fs[j].pk
  }

  /** No filter occurs twice in `fs`. */
  predicate NoRepeats(fs: seq<Filter>) {
    forall j, k | 0 <= j < k < |fs| :: fs[j] != fs[k]
  }

  /** One step of the handler's `add_recipients`: a public-key filter takes the recipients, any other filter is skipped. */
  method AddRecipientsToFilter(f: Filter, newSeed: seq<byte>, seal: seq<byte> -> seq<byte>) returns (r: Result<(), CryptError>)
    requires |newSeed| == 20
    requires f.PubKeyFilter? ==> f.pk.Valid()
    modifies if f.PubKeyFilter? then {f.pk} else {}
    ensures f.PubKeyFilter? ==> f.pk.Valid()
    ensures r.Ok? && f.PubKeyFilter? ==> SealedOnceMore(f.pk, old(f.pk.Recipients()), seal)
    ensures f.PubKeyFilter? && old(f.pk.recipients).None? ==> r.Ok? && f.pk.seed == Some(newSeed)
    ensures !f.PubKeyFilter? ==> r.Ok?
    ensures r.Err? ==> r.error in {RecipientsNotAllowed, RecipientsLocked, ShortSeed}
  {
    r := Ok(());
    if f.PubKeyFilter? {
      r := f.pk.AddRecipients(newSeed, seal);
    }
  }

  /** The loop of the handler's `add_recipients` over the filters `defs`, the i-th drawing `newSeeds[i]` if it needs a seed. */
  method AddRecipientsEach(defs: seq<Filter>, newSeeds: seq<seq<byte>>, seal: seq<byte> -> seq<byte>)
    returns (r: Result<(), CryptError>)
    requires NoRepeats(defs) && |newSeeds| == |defs|
    requires forall j | 0 <= j < |defs| :: |newSeeds[j]| == 20
    requires forall j | 0 <= j < |defs| && defs[j].PubKeyFilter? :: defs[j].pk.Valid()
    modifies PubKeyObjects(defs)
    ensures forall j | 0 <= j < |defs| && defs[j].PubKeyFilter? :: defs[j].pk.Valid()
    ensures r.Ok? ==> forall j | 0 <= j < |defs| && defs[j].PubKeyFilter? ::
      SealedOnceMore(defs[j].pk, old(defs[j].pk.Recipients()), seal)
    ensures r.Err? ==> r.error in {RecipientsNotAllowed, RecipientsLocked, ShortSeed}
    ensures (forall j | 0 <= j < |defs| && defs[j].PubKeyFilter? :: old(defs[j].pk.recipients).None?) ==>
      r.Ok? && forall j | 0 <= j < |defs| && defs[j].PubKeyFilter? :: defs[j].pk.seed == Some(newSeeds[j])
  {
    for i := 0 to |defs|
      invariant forall j | 0 <= j < |defs| && defs[j].PubKeyFilter? :: defs[j].pk.Valid()
      invariant forall j | i <= j < |defs| && defs[j].PubKeyFilter? :: unchanged(defs[j].pk)
      invariant forall j | 0 <= j < i && defs[j].PubKeyFilter? ::
        SealedOnceMore(defs[j].pk, old(defs[j].pk.Recipients()), seal)
      invariant forall j | 0 <= j < i && defs[j].PubKeyFilter? && old(defs[j].pk.recipients).None? ::
        defs[j].pk.seed == Some(newSeeds[j])
    {
      r := AddRecipientsToFilter(defs[i], newSeeds[i], seal);
      if r.Err? {
        return;
      }
    }
    r := Ok(());
  }

  /**
   * The handler's `add_recipients`: one more CMS object for each default
   * public-key filter, stopping at the first filter that refuses. A filter
   * without recipients draws its own seed, the i-th default `newSeeds[i]`.
   */
  method AddRecipientsToDefaults(h: PubKeySecurityHandler, newSeeds: seq<seq<byte>>, seal: seq<byte> -> seq<byte>)
    returns (r: Result<(), CryptError>)
    requires |newSeeds| == |DefaultFilters(h.config)|
    requires forall j | 0 <= j < |newSeeds| :: |newSeeds[j]| == 20
    requires forall f | f in DefaultFilters(h.config) && f.PubKeyFilter? :: f.pk.Valid()
    modifies DefaultPubKeyFilters(h.config)
    ensures forall f | f in DefaultFilters(h.config) && f.PubKeyFilter? :: f.pk.Valid()
    ensures r.Ok? ==> forall f | f in DefaultFilters(h.config) && f.PubKeyFilter? ::
      SealedOnceMore(f.pk, old(f.pk.Recipients()), seal)
    ensures r.Err? ==> r.error in {RecipientsNotAllowed, RecipientsLocked, ShortSeed}
    ensures (forall f | f in DefaultFilters(h.config) && f.PubKeyFilter? :: old(f.pk.recipients).None?) ==>
      r.Ok? && forall j | 0 <= j < |DefaultFilters(h.config)| && DefaultFilters(h.config)[j].PubKeyFilter? ::
        DefaultFilters(h.config)[j].pk.seed == Some(newSeeds[j])
  {
    var defs := DefaultFilters(h.config);
    assert PubKeyObjects(defs) == DefaultPubKeyFilters(h.config);
    r := AddRecipientsEach(defs, newSeeds, seal);
  }

  /** One step of the handler's `authenticate`: a public-key filter looks for its seed, any other filter is skipped. */
  method AuthenticateFilter(f: Filter, open: seq<byte> -> Option<seq<byte>>) returns (found: bool)
    requires f.PubKeyFilter? ==> f.pk.Valid() && f.pk.recipients.Some?
    modifies if f.PubKeyFilter? then {f.pk} else {}
    ensures f.PubKeyFilter? ==> f.pk.Valid() && f.pk.recipients == old(f.pk.recipients) && f.pk.sharedKey == old(f.pk.sharedKey)
    ensures found <==> !f.PubKeyFilter? || FirstSeed(f.pk.recipients.value, open).Some?
    ensures found && f.PubKeyFilter? ==> f.pk.seed == FirstSeed(f.pk.recipients.value, open)
  {
    found := true;
    if f.PubKeyFilter? {
      var result := f.pk.Authenticate(open);
      found := result != Failed;
    }
  }

  /** The loop of the handler's `authenticate` over the filters `defs`, stopping at the first failure. */
  method AuthenticateEach(defs: seq<Filter>, open: seq<byte> -> Option<seq<byte>>) returns (r: AuthResult)
    requires NoRepeats(defs)
    requires forall j | 0 <= j < |defs| && defs[j].PubKeyFilter? :: defs[j].pk.Valid() && defs[j].pk.recipients.Some?
    modifies PubKeyObjects(defs)
    ensures r == User || r == Failed
    ensures forall j | 0 <= j < |defs| && defs[j].PubKeyFilter? ::
      defs[j].pk.Valid() && defs[j].pk.recipients == old(defs[j].pk.recipients) && defs[j].pk.sharedKey == old(defs[j].pk.sharedKey)
    ensures r == User <==>
      forall j | 0 <= j < |defs| && defs[j].PubKeyFilter? :: FirstSeed(defs[j].pk.recipients.value, open).Some?
    ensures r == User ==>
      forall j | 0 <= j < |defs| && defs[j].PubKeyFilter? :: defs[j].pk.seed == FirstSeed(defs[j].pk.recipients.value, open)
  {
    for i := 0 to |defs|
      invariant forall j | 0 <= j < |defs| && defs[j].PubKeyFilter? ::
        defs[j].pk.Valid() && defs[j].pk.recipients == old(defs[j].pk.recipients) && defs[j].pk.sharedKey == old(defs[j].pk.sharedKey)
      invariant forall j | 0 <= j < i && defs[j].PubKeyFilter? ::
        FirstSeed(defs[j].pk.recipients.value, open).Some? && defs[j].pk.seed == FirstSeed(defs[j].pk.recipients.value, open)
    {
      var found := AuthenticateFilter(defs[i], open);
      if !found {
        return Failed;
      }
    }
    return User;
  }

  /**
   * The handler's `authenticate`: every default public-key filter must
   * find its seed; the first that cannot makes the result a failure.
   */
  method AuthenticatePubKey(h: PubKeySecurityHandler, open: seq<byte> -> Option<seq<byte>>) returns (r: AuthResult)
    requires forall f | f in DefaultFilters(h.config) && f.PubKeyFilter? :: f.pk.Valid() && f.pk.recipients.Some?
    modifies DefaultPubKeyFilters(h.config)
    ensures r == User || r == Failed
    ensures forall f | f in DefaultFilters(h.config) && f.PubKeyFilter? ::
      f.pk.Valid() && f.pk.recipients == old(f.pk.recipients) && f.pk.sharedKey == old(f.pk.sharedKey)
    ensures r == User <==>
      forall f | f in DefaultFilters(h.config) && f.PubKeyFilter? :: FirstSeed(f.pk.recipients.value, open).Some?
    ensures r == User ==>
      forall f | f in DefaultFilters(h.config) && f.PubKeyFilter? :: f.pk.seed == FirstSeed(f.pk.recipients.value, open)
  {
    var defs := DefaultFilters(h.config);
    assert PubKeyObjects(defs) == DefaultPubKeyFilters(h.config);
    r := AuthenticateEach(defs, open);
  }

  /**
   * The first half of `build_from_certs`: the configuration made here for
   * /V 4 (AES-128, or RC4 with the given key length) or by the
   * constructor otherwise, with one default public-key filter that has no
   * recipients and no seed yet.
   */
  method NewCertsHandler(keylen: int, version: Version, useAes: bool, subfilter: SubFilter, encryptMetadata: bool)
    returns (r: Result<PubKeySecurityHandler, CryptError>)
    ensures r.Ok? <==> PubKeySetup(version, subfilter, keylen, true, []).Ok?
    ensures r.Err? ==> r.error in {UnsupportedSubFilter, KeyLengthOutOfRange}
    ensures r.Ok? ==>
      var cfg := r.value.config;
      cfg.forStream.PubKeyFilter? && fresh(cfg.forStream.pk) && cfg.forString == cfg.forStream &&
      cfg.forStream.pk.Valid() && cfg.forStream.pk.actsAsDefault &&
      cfg.forStream.pk.recipients == None && cfg.forStream.pk.seed == None && cfg.forStream.pk.sharedKey == None
  {
    var cfc: Option<CryptFilterConfiguration> := None;
    if version == Rc4OrAes128 {
      var made := NewPubKeyConfiguration(if useAes then FilterSpec(Aes, 16) else FilterSpec(Rc4, keylen), None, encryptMetadata);
      assert PubKeyFilters(made.filters) == {made.forStream.pk};
      assert StandardFilters(made.filters) == {};
      cfc := Some(made);
    }
    r := NewPubKeyHandler(version, subfilter, keylen, encryptMetadata, cfc, None);
  }

  /**
   * `build_from_certs`: subfilter s5 (s4 without crypt filters), a
   * default configuration with no recipients yet, then the recipients
   * added, which makes the first drawn seed the filter's seed.
   */
  method BuildFromCerts(keylen: int, version: Version, useAes: bool, useCryptFilters: bool, encryptMetadata: bool,
      newSeed: seq<byte>, seal: seq<byte> -> seq<byte>)
    returns (r: Result<PubKeySecurityHandler, CryptError>)
    requires |newSeed| == 20
    ensures r.Ok? <==> PubKeySetup(version, if useCryptFilters then S5 else S4, keylen, true, []).Ok?
    ensures r.Err? ==> r.error in {UnsupportedSubFilter, KeyLengthOutOfRange}
    ensures r.Ok? ==>
      var cfg := r.value.config;
      cfg.forStream.PubKeyFilter? && fresh(cfg.forStream.pk) && cfg.forString == cfg.forStream &&
      cfg.forStream.pk.Valid() && cfg.forStream.pk.seed == Some(newSeed) &&
      cfg.forStream.pk.recipients == Some([seal(EnvelopeContent(newSeed, AllPerms, true))])
  {
    var subfilter := if useCryptFilters then S5 else S4;
    r := NewCertsHandler(keylen, version, useAes, subfilter, encryptMetadata);
    if r.Err? {
      return;
    }
    var h := r.value;
    assert DefaultFilters(h.config) == [h.config.forStream];
    assert DefaultPubKeyFilters(h.config) == {h.config.forStream.pk};
    var added := AddRecipientsToDefaults(h, [newSeed], seal);
    assert DefaultFilters(h.config)[0] == h.config.forStream;
    assert SealedOnceMore(h.config.forStream.pk, [], seal);
    assert h.config.forStream.pk.actsAsDefault;
    assert h.config.forStream.pk.seed == Some(newSeed);
    assert h.config.forStream.pk.recipients.value == [seal(EnvelopeContent(newSeed, AllPerms, true))];
  }

  /**
   * A seed enveloped for the recipients is found again by a credential
   * whose `open` undoes `seal` up to the first 20 bytes, as reading the
   * seed from a CMS object does.
   */
  lemma SealedSeedOpens(seed: seq<byte>, includePermissions: bool, seal: seq<byte> -> seq<byte>,
      open: seq<byte> -> Option<seq<byte>>)
    requires |seed| == 20
    requires forall content: seq<byte> {:trigger seal(content)} :: open(seal(content)) == Some(Prefix(content, 20))
    ensures FirstSeed([seal(EnvelopeContent(seed, AllPerms, includePermissions))], open) == Some(seed)
  {
    var content := EnvelopeContent(seed, AllPerms, includePermissions);
    assert Prefix(content, 20) == seed;
    assert open(seal(content)) == Some(seed);
  }
}
