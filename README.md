# pyHanko encryption handlers and cross-reference reader, in Dafny

This project models two modules of pyHanko, a Python library that reads, writes and signs PDF files. The modules are `pyhanko/pdf_utils/crypt.py` (the security handlers) and `pyhanko/pdf_utils/reader.py` (the cross-reference and trailer bookkeeping of the reader). The cryptography itself is out of scope: MD5, SHA-1, SHA-2, RC4, AES and CMS enveloping are function-typed parameters. Their types state only the lengths they produce, plus, where a round trip needs it, that decryption undoes encryption. Everything built around them is modelled and proved.

**Encryption side**
- The byte layouts fed to the hashes:
  - Algorithms 3.2–3.4 of section 3.5.2 of the PDF Reference 1.6 (the legacy file key, /O and /U).
  - Algorithms 2.A and 2.B of section 7.6.4.3 of ISO 32000-2 (revision 6).
  - Algorithm 1 of section 7.6.2 of ISO 32000-1 (the per-object key).
- Password padding and truncation.
- The key-length rules of `SecurityHandler.__init__`, and the `/Length` round trip.
- The `/CFM` decoding of crypt filter dictionaries (section 7.6.5 of ISO 32000-1).
- The crypt filter configuration, including the `/Identity` filter.
- The recipient and seed state of public-key crypt filters, and their binding to a handler, which a filter of the other kind refuses with `TypeError`.
- The constructor checks of the standard handler, password authentication for all revisions, and the revision 6 `/Perms` check.
- The builders `build_from_pw_legacy`, `build_from_pw` and `build_from_certs`, each with the property that what it builds authenticates its own passwords or seed.

**Reader side**
- `XRefCache` is a class whose one field holds every table of the Python object. Its methods:
  - are proved against functions of those tables (`Free`, `Put`, `PutInStream`, `CloseSection`, `ReadXrefStream`);
  - keep their well-formedness invariant;
  - implement "newest wins", the expected-free ledger for generation reuse, and the revision lookups numbered from the oldest revision.
- `read_xref_stream` decodes fixed-width fields with `convert_to_int`. Note what `convert_to_int` does for fields wider than 8 bytes: it sums `digit ** (size - ix - 1)` rather than a positional value, and the model keeps that (`XrefFields.PowerSumNotPositional`).
- The standard RC4 crypt filter writes its `/Length` in bytes (crypt.py:768-773), but the reader divides `/Length` by 8 (crypt.py:1480-1482). An RC4 filter dictionary written by pyHanko therefore reads back with a key length divided by 8. The model keeps both sides as written (`CryptConfig.StandardRc4CfLengthShrinks`).
- `TrailerDictionary` is a class over its revisions and new changes. Lemmas relate `raw_get` to `flatten`. For a revision number outside the file, the two disagree (`TrailerDictionaries.RawGetAndFlattenDivergeOutOfRange`).
- `RawPdfPath`: equality, `+` and printing.
- `HistoricalResolver.is_ref_available` and `collect_dependencies` over an object graph given as a map. The references collected are exactly those reached from the object through chains of relevant references.
- `read_next_end_line` and `process_data_at_eof` on a byte sequence with a cursor.

**Module layout, one file per module**

| file | contents |
|---|---|
| `wrappers.dfy`, `bytes.dfy`, `pdf_objects.dfy`, `primitives.dfy` | Option and Result, bytes, dictionaries as entry lists, the primitives' types |
| `crypt_bytes.dfy`, `crypt_config.dfy`, `legacy_keys.dfy`, `r6_keys.dfy` | byte layouts, key lengths, `/CFM` and the two key-derivation families |
| `crypt_filters.dfy`, `security_handlers.dfy` | the filter objects, the configuration and the handlers |
| `xref_tables.dfy`, `xref_fields.dfy`, `xref_streams.dfy`, `xref_cache.dfy`, `xref_properties.dfy` | the cross-reference cache |
| `trailer_dictionary.dfy`, `raw_pdf_path.dfy`, `historical_resolver.dfy`, `eof_reader.dfy` | the rest of the reader |

## Model

| member | source | states |
|---|---|---|
| Bytes.PackInt32LE | pyhanko/pdf_utils/crypt.py:336-337 | `struct.pack('<i', x)` gives 4 bytes that unpack to `x`, for `x` in the int32 range |
| Bytes.UnpackInt32LE | pyhanko/pdf_utils/crypt.py:1387 | `struct.unpack('<i', b)` of 4 bytes is an int32 |
| Bytes.SlicePrefix | pyhanko/pdf_utils/crypt.py:1405 | Python's `s[:n]` is a prefix of `s`; a non-negative `n` clamps to the length; a negative `n` drops elements from the end |
| CryptBytes.PadPassword | pyhanko/pdf_utils/crypt.py:88-104 | `(pw + padding)[:32]` has exactly 32 bytes. It is `pw[:32]` for a long password; otherwise `pw` followed by the first `32 - len(pw)` padding bytes |
| CryptBytes.PadPasswordIdempotent | pyhanko/pdf_utils/crypt.py:104 | padding an already padded password changes nothing |
| CryptBytes.NormaliseLegacyPassword | pyhanko/pdf_utils/crypt.py:151-155 | the legacy password is a prefix of at most 32 bytes, and the whole of a short one |
| CryptBytes.NormaliseR6Password | pyhanko/pdf_utils/crypt.py:158-162 | the revision 6 password is a prefix of at most 127 bytes, and the whole of a short one |
| CryptBytes.NormaliseIdempotent | pyhanko/pdf_utils/crypt.py:151-162 | both normalisations are idempotent |
| CryptBytes.R6KeyEntry.ToBytes | pyhanko/pdf_utils/crypt.py:1365 | hash, validation salt and key salt concatenate to 48 bytes |
| CryptBytes.R6KeyEntryFromBytes | pyhanko/pdf_utils/crypt.py:146-148 | a 48-byte entry splits into 32/8/8-byte parts whose concatenation is the entry |
| CryptBytes.R6KeyEntryRoundTrip | pyhanko/pdf_utils/crypt.py:140-148 | splitting the concatenation of well-formed parts gives the parts back |
| CryptBytes.BytesMod3 | pyhanko/pdf_utils/crypt.py:186-188 | the sum of bytes mod 3 lies in {0,1,2}, so `hashes[...]` is in range |
| CryptBytes.BytesMod3IsBigEndianMod3 | pyhanko/pdf_utils/crypt.py:186-188 | that sum equals the big-endian value of the bytes mod 3 (because 256 ≡ 1 mod 3) |
| CryptBytes.ObjectKeyInput | pyhanko/pdf_utils/crypt.py:336-341 | the digest input is the shared key, then the low 3 bytes of the object number (little-endian), then the low 2 bytes of the generation, then `sAlT` exactly when AES is used. Its length is `len(key)+5`, plus 4 with AES |
| CryptBytes.LegacyObjectKey | pyhanko/pdf_utils/crypt.py:321-343 | the object key is the first `min(16, len(key)+5)` bytes of the MD5 of that input |
| CryptBytes.ObjectKeyInputSeparatesObjects | pyhanko/pdf_utils/crypt.py:336-338 | objects whose numbers differ in their low 3 bytes get different digest inputs |
| CryptBytes.EnvelopeContent | pyhanko/pdf_utils/crypt.py:1669-1672 | the envelope is the 20-byte seed, followed by the 4-byte little-endian permissions exactly when they are included |
| CryptBytes.AllPermsValue | pyhanko/pdf_utils/crypt.py:1383-1387 | the bytes `fc ff ff ff` unpack to -4, the value of `ALL_PERMS` |
| CryptBytes.PermsBlock | pyhanko/pdf_utils/crypt.py:1383-1386 | the built /Perms block has 16 bytes: the permission bytes, then byte 8 `T` and bytes 9–11 `adb` |
| CryptBytes.ExpectedPerms8 | pyhanko/pdf_utils/crypt.py:180-183 | byte `T` stands for true, `F` for false, and any other byte for neither |
| CryptBytes.PermsBlockAccepted | pyhanko/pdf_utils/crypt.py:1636-1643 | the built block passes the check against /P = -4 with metadata encrypted, and fails it with metadata not encrypted |
| CryptBytes.PermsUnknownFlagRejected | pyhanko/pdf_utils/crypt.py:1638-1643 | a block whose byte 8 is neither `T` nor `F` fails the check, whatever the flags |
| CryptConfig.VersionFromValue | pyhanko/pdf_utils/crypt.py:356-366 | /V maps to a version exactly for 1, 2, 4 and 5, and the version maps back to that value |
| CryptConfig.HandlerKeyLength | pyhanko/pdf_utils/crypt.py:409-419 | it raises exactly for versions 2 and 4 with a length outside 5..16; otherwise the length is in 5..16 or is 32 |
| CryptConfig.HandlerKeyLengthChoice | pyhanko/pdf_utils/crypt.py:413-419 | RC4_40 forces 5, AES256 forces 32, and versions 2 and 4 keep an admissible length |
| CryptConfig.HandlerKeyLengthStable | pyhanko/pdf_utils/crypt.py:413-419 | applying the rule to the length it settled on changes nothing |
| CryptConfig.ReadKeyLength | pyhanko/pdf_utils/crypt.py:1495-1498 | a key length read from `/Length` (or the default) is exactly that number of bits divided by 8; a number of bits that is not a multiple of 8 raises |
| CryptConfig.KeyLengthRoundTrip | pyhanko/pdf_utils/crypt.py:1495-1498 | the `/Length = keylen*8` the handler writes (crypt.py:1546) reads back as `keylen` |
| CryptConfig.KeyLengthEntry | pyhanko/pdf_utils/crypt.py:1546 | `/Length` is written in bits: a whole number of bytes, the key length |
| CryptConfig.KeyLengthNotByteMultipleRejected | pyhanko/pdf_utils/crypt.py:1496-1497 | a `/Length` that is not a multiple of 8 is rejected |
| CryptConfig.HandlerKeyLengthRoundTrip | pyhanko/pdf_utils/crypt.py:409-419 | the handler's key length survives a write and a read, with the version's rule applied again |
| CryptConfig.AesFilter | pyhanko/pdf_utils/crypt.py:1009-1016 | AES filters exist exactly for key lengths 16 and 32, and are named `/AESV2` and `/AESV3` respectively |
| CryptConfig.Rc4FilterFromLength | pyhanko/pdf_utils/crypt.py:1480-1482 | `/V2` gives RC4 with `/Length // 8` bytes, where a missing `/Length` counts as 40 bits |
| CryptConfig.DecodeMethod | pyhanko/pdf_utils/crypt.py:1480-1488 | a decoded filter's method name is the `/CFM` that was read; AES keys are 16 or 32 bytes; an unknown method raises |
| CryptConfig.DecodeMethodOfWritten | pyhanko/pdf_utils/crypt.py:1480-1486 | a filter's method name together with its `/Length` in bits decodes back to that filter |
| CryptConfig.ReadStandardCfDictionary | pyhanko/pdf_utils/crypt.py:1471-1488 | a missing `/CFM` or `/None` gives no filter; `/AESV2` and `/AESV3` give 16 and 32 bytes; `/V2` gives RC4; anything else raises |
| CryptConfig.ByteStrings | pyhanko/pdf_utils/crypt.py:2107-2109 | an array loads as recipient objects exactly when every item is a byte string |
| CryptConfig.EncodeRecipients | pyhanko/pdf_utils/crypt.py:850-853 | the recipients are written as one byte string each, in order |
| CryptConfig.ByteStringsOfEncoded | pyhanko/pdf_utils/crypt.py:850-853 | the written array loads back as the same recipient objects |
| CryptConfig.RecipientList | pyhanko/pdf_utils/crypt.py:2105-2106 | a single byte string stands for a one-element list |
| CryptConfig.ReadPubKeyCfDictionary | pyhanko/pdf_utils/crypt.py:2097-2135 | a missing `/CFM` or `/Recipients` raises, and so does `/None`. On success the method, the recipients, the default flag and `/EncryptMetadata` (default true) are those of the dictionary |
| CryptConfig.PubKeyCfDictionary | pyhanko/pdf_utils/crypt.py:847-861 | writing fails exactly for a non-default filter with no recipients (`recipients[0]`) |
| CryptConfig.StandardAesCfRoundTrip | pyhanko/pdf_utils/crypt.py:768-773 | a standard AES filter dictionary reads back as the same filter |
| CryptConfig.StandardRc4CfLengthShrinks | pyhanko/pdf_utils/crypt.py:768-773 | a standard RC4 filter writes `/Length` in bytes but is read back in bits, so its key length comes back divided by 8 |
| CryptConfig.StandardCfDictionary | pyhanko/pdf_utils/crypt.py:768-773 | the standard filter dictionary holds `/AuthEvent /DocOpen`, its method under `/CFM`, and `/Length` in bytes |
| CryptConfig.PubKeyCfEntries | pyhanko/pdf_utils/crypt.py:847-861 | the written dictionary holds the method, `/Length` in bits, the recipients (an array, or the first one alone) and the flag |
| CryptConfig.RecipientsEntry | pyhanko/pdf_utils/crypt.py:854-858 | the written `/Recipients` loads back as every recipient for a default filter, and as the first recipient alone otherwise |
| CryptConfig.ReadPubKeyCfOfEntries | pyhanko/pdf_utils/crypt.py:2097-2135 | any dictionary holding those entries reads back as the filter |
| CryptConfig.PubKeyCfRoundTrip | pyhanko/pdf_utils/crypt.py:847-861 | a public-key filter written and read back is the same filter |
| CryptFilters.HandlerFileKey | pyhanko/pdf_utils/crypt.py:1652-1659 | the key once known; otherwise an error that distinguishes a failed authentication from none at all |
| CryptFilters.StandardSharedKey | pyhanko/pdf_utils/crypt.py:736-747 | a cached key is returned as is. Otherwise a failed authentication raises, and a key comes from the handler |
| CryptFilters.StandardCryptFilter.constructor | pyhanko/pdf_utils/crypt.py:607-608 | a new filter has no shared key |
| CryptFilters.StandardCryptFilter.SetSecurityHandler | pyhanko/pdf_utils/crypt.py:759-763 | binding a standard handler clears the shared key; a handler of the other kind raises (`TypeError`) and changes nothing |
| CryptFilters.StandardCryptFilter.SharedKey | pyhanko/pdf_utils/crypt.py:736-747 | the property's result, with a key found being cached |
| CryptFilters.FirstSeed | pyhanko/pdf_utils/crypt.py:825-831 | the seed of the first recipient object the credential opens; none exactly when it opens none |
| CryptFilters.Concat | pyhanko/pdf_utils/crypt.py:841-842 | the recipient objects' bytes, in order |
| CryptFilters.ConcatRecipients | pyhanko/pdf_utils/crypt.py:841-842 | the loop computes that concatenation |
| CryptFilters.KeyDigestInput | pyhanko/pdf_utils/crypt.py:840-844 | the digest input is the seed, then every recipient, then `ff ff ff ff` exactly when metadata is not encrypted |
| CryptFilters.KeyDigestInputAppend | pyhanko/pdf_utils/crypt.py:841-842 | one more recipient inserts its bytes before the optional marker |
| CryptFilters.PubKeySharedKey | pyhanko/pdf_utils/crypt.py:833-845 | no seed raises. Otherwise the key is the first `keylen` bytes of SHA-256 (for AES256) or SHA-1 of that input |
| CryptFilters.PubKeyCryptFilter.constructor | pyhanko/pdf_utils/crypt.py:779-786 | the given recipients and flags, with neither seed nor key |
| CryptFilters.PubKeyCryptFilter.SetSecurityHandler | pyhanko/pdf_utils/crypt.py:792-796 | binding a public-key handler clears the seed and the key and keeps the recipients; a handler of the other kind raises (`TypeError`) and changes nothing |
| CryptFilters.PubKeyCryptFilter.AddRecipients | pyhanko/pdf_utils/crypt.py:798-823 | a non-default filter with recipients raises. The first call makes a 20-byte seed and an empty list. After the key was derived, or without a seed, the call raises. A seed that is not 20 bytes long, as `authenticate` can leave, fails the envelope's length assertion (`ShortSeed`). Success appends exactly one sealed recipient object; an error changes nothing |
| CryptFilters.PubKeyCryptFilter.Authenticate | pyhanko/pdf_utils/crypt.py:825-831 | USER exactly when some recipient opens, with the seed set to the first one found; otherwise FAILED with the seed unchanged |
| CryptFilters.PubKeyCryptFilter.DeriveSharedKey | pyhanko/pdf_utils/crypt.py:833-845 | the filter's key by the rule above |
| CryptFilters.PubKeyCryptFilter.SharedKey | pyhanko/pdf_utils/crypt.py:736-747 | a cached key, or a derived one that is then cached |
| CryptFilters.Encrypt | pyhanko/pdf_utils/crypt.py:913-1036 | identity returns its input; RC4 keeps the length; AES puts the 16-byte IV in front |
| CryptFilters.Decrypt | pyhanko/pdf_utils/crypt.py:928-1053 | identity returns its input; RC4 keeps the length |
| CryptFilters.DecryptUndoesEncrypt | pyhanko/pdf_utils/crypt.py:913-1053 | decrypting what a filter encrypted gives the plaintext back, for every filter kind |
| CryptFilters.ObjectKey | pyhanko/pdf_utils/crypt.py:1055-1077 | identity gives the empty key; AES under AES256 gives the shared key; every other filter gives the legacy object key, salted for AES |
| CryptFilters.FindFilter | pyhanko/pdf_utils/crypt.py:1164-1167 | a found filter is registered under the name; none exactly when no entry has it |
| CryptFilters.Select | pyhanko/pdf_utils/crypt.py:1149-1153 | `/Identity` always selects the identity filter; another name selects exactly when it is registered |
| CryptFilters.Contains | pyhanko/pdf_utils/crypt.py:1164-1173 | `__contains__` agrees with `__getitem__` succeeding |
| CryptFilters.NewConfiguration | pyhanko/pdf_utils/crypt.py:1146-1162 | the defaults are the selected filters. The embedded-file default falls back to the stream default. An unknown name raises |
| CryptFilters.DefaultFilters | pyhanko/pdf_utils/crypt.py:1233-1246 | one element exactly when the stream and string defaults are the same filter; otherwise both |
| CryptFilters.SelectInjective | pyhanko/pdf_utils/crypt.py:1149-1153 | with distinct filters, two names select the same filter only when they are the same name |
| CryptFilters.OneDefaultIffSameName | pyhanko/pdf_utils/crypt.py:1244-1246 | `default_filters` has one element exactly when `/StmF` and `/StrF` name the same filter |
| CryptFilters.SetSecurityHandler | pyhanko/pdf_utils/crypt.py:1179-1187 | the filters are bound in order, each losing its seed and key, up to the first one of the other kind, which raises (`TypeError`) and leaves it and the later ones unchanged; it succeeds exactly when every filter accepts the handler; recipients are kept |
| CryptFilters.AcceptedPrefix | pyhanko/pdf_utils/crypt.py:1186-1187 | the filters the loop binds before one refuses: all accept, and the next, if any, refuses |
| CryptFilters.AcceptedPrefixOfKind | pyhanko/pdf_utils/crypt.py:759-763 | filters that accept a standard handler hold no public-key filter, and the other way round |
| CryptFilters.BindFilters | pyhanko/pdf_utils/crypt.py:1186-1187 | binding accepting filters resets each, keeping the recipients |
| CryptFilters.FilterDictionary | pyhanko/pdf_utils/crypt.py:687-707 | the identity filter cannot be written; every other filter writes its `/CFM` |
| CryptFilters.CfEntries | pyhanko/pdf_utils/crypt.py:1227-1230 | `/CF` lists every filter except `/Identity`, each under its name, and fails exactly when one of them has no dictionary |
| CryptFilters.CfEntriesExact | pyhanko/pdf_utils/crypt.py:1227-1230 | `/CF` holds nothing but those dictionaries, and the entry under a name is the dictionary of the filter registered first under it |
| CryptFilters.ConfigurationDictionary | pyhanko/pdf_utils/crypt.py:1216-1231 | `/StmF` and `/StrF` are written; `/EFF` only when set; `/CF` as above |
| LegacyKeys.XorKey | pyhanko/pdf_utils/crypt.py:237-238 | each key byte XORed with the counter |
| LegacyKeys.XorKeyZero | pyhanko/pdf_utils/crypt.py:1584-1586 | counter 0 leaves the key unchanged |
| LegacyKeys.Md5ChainPrefix | pyhanko/pdf_utils/crypt.py:128-130 | 50 rounds of MD5 over the first `keylen` bytes give a 16-byte digest |
| LegacyKeys.Md5Chain | pyhanko/pdf_utils/crypt.py:255-258 | 50 rounds of MD5 give a 16-byte digest |
| LegacyKeys.Rc4Up | pyhanko/pdf_utils/crypt.py:236-240 | the RC4 passes with counters 1..n keep the length |
| LegacyKeys.Rc4Down | pyhanko/pdf_utils/crypt.py:1584-1587 | the passes with counters n-1 down to 0 keep the length |
| LegacyKeys.Rc4DownUndoesUp | pyhanko/pdf_utils/crypt.py:1583-1587 | the descending passes n..0 over the result of the ascending passes 1..n leave the single RC4 encryption under the key (counter 0), since RC4 is an involution |
| LegacyKeys.ApplyRc4Up | pyhanko/pdf_utils/crypt.py:236-240 | the loop computes the ascending passes |
| LegacyKeys.ApplyRc4Down | pyhanko/pdf_utils/crypt.py:1583-1587 | the loop computes the descending passes |
| LegacyKeys.FileKeyInput | pyhanko/pdf_utils/crypt.py:104-121 | the MD5 input starts with the padded password; its length counts /O, 4 bytes of /P, ID[0], and 4 more bytes exactly for revision ≥ 4 without metadata encryption |
| LegacyKeys.FileKeyLength | pyhanko/pdf_utils/crypt.py:128-134 | the file key has `min(keylen, 16)` bytes |
| LegacyKeys.FileKeyPaddedPassword | pyhanko/pdf_utils/crypt.py:104 | a padded password gives the same file key as the password |
| LegacyKeys.ComputeFileKey | pyhanko/pdf_utils/crypt.py:97-134 | the loop computes Algorithm 3.2 |
| LegacyKeys.ComputeOwnerKey | pyhanko/pdf_utils/crypt.py:244-266 | the loop computes steps 1–4 of Algorithm 3.3 |
| LegacyKeys.OValueLength | pyhanko/pdf_utils/crypt.py:219-242 | /O has 32 bytes |
| LegacyKeys.ComputeOValue | pyhanko/pdf_utils/crypt.py:219-242 | the loop computes Algorithm 3.3 |
| LegacyKeys.UValueR2 | pyhanko/pdf_utils/crypt.py:268-282 | /U for revision 2 has 32 bytes |
| LegacyKeys.UValueR34 | pyhanko/pdf_utils/crypt.py:284-318 | /U for revisions 3 and 4 has 32 bytes, the last 16 of them zero |
| LegacyKeys.ComputeUValueR34 | pyhanko/pdf_utils/crypt.py:284-318 | the loop computes Algorithm 3.4 for revisions 3 and 4 |
| LegacyKeys.CheckUserPassword | pyhanko/pdf_utils/crypt.py:1557-1571 | the method computes the user-password check of Algorithm 3.6 |
| LegacyKeys.ComputeRecoveredUserPassword | pyhanko/pdf_utils/crypt.py:1578-1587 | the loop recovers the user password from /O |
| LegacyKeys.OwnerRecoversUser | pyhanko/pdf_utils/crypt.py:1578-1587 | with an /O built from owner and user passwords, the owner password recovers the padded user password |
| LegacyKeys.LegacyAuthenticate | pyhanko/pdf_utils/crypt.py:1573-1591 | FAILED exactly when no key is found; USER only when the user check passes |
| LegacyKeys.Authenticate | pyhanko/pdf_utils/crypt.py:1573-1591 | the method computes that outcome |
| LegacyKeys.BuildEntries | pyhanko/pdf_utils/crypt.py:1313-1328 | the built /O and /U have 32 bytes; /P is `ALL_PERMS` |
| LegacyKeys.ComputeEntries | pyhanko/pdf_utils/crypt.py:1313-1328 | the method computes those entries |
| LegacyKeys.BuiltUserCheckPasses | pyhanko/pdf_utils/crypt.py:1557-1571 | any password that pads like the user password passes the check against the built entries, with the built key |
| LegacyKeys.BuildThenUserAuthenticates | pyhanko/pdf_utils/crypt.py:1573-1577 | the user password authenticates as USER against what the builder wrote, and yields the built key |
| LegacyKeys.BuildThenOwnerAuthenticates | pyhanko/pdf_utils/crypt.py:1578-1590 | the owner password does not fail against what the builder wrote; when it authenticates as OWNER, it yields the built key |
| R6Keys.RoundHash | pyhanko/pdf_utils/crypt.py:209-210 | the hash picked by the residue gives 32, 48 or 64 bytes |
| R6Keys.Repeat64Blocks | pyhanko/pdf_utils/crypt.py:203 | any string repeated 64 times has a length divisible by 16 |
| R6Keys.RoundInput | pyhanko/pdf_utils/crypt.py:203 | `(pw + k + u) * 64` is a whole number of AES blocks |
| R6Keys.RoundCipher | pyhanko/pdf_utils/crypt.py:203-206 | the encrypted round input is a whole number of blocks, at least 2048 bytes |
| R6Keys.Round | pyhanko/pdf_utils/crypt.py:203-212 | a round leaves `k` with at least 32 bytes |
| R6Keys.R6Loop | pyhanko/pdf_utils/crypt.py:202-213 | the loop runs at least 64 and at most 287 rounds and ends with 32 bytes |
| R6Keys.R6Hash | pyhanko/pdf_utils/crypt.py:192-214 | Algorithm 2.B returns 32 bytes |
| R6Keys.R6HashRoundBounds | pyhanko/pdf_utils/crypt.py:202-213 | the number of rounds is within 64..287, because the last byte is at most 255 |
| R6Keys.ComputeR6Hash | pyhanko/pdf_utils/crypt.py:192-214 | the `while` loop computes Algorithm 2.B |
| R6Keys.UserEntry | pyhanko/pdf_utils/crypt.py:1361-1369 | the built /U is a well-formed 48-byte entry |
| R6Keys.OwnerEntry | pyhanko/pdf_utils/crypt.py:1372-1380 | the built /O is a well-formed 48-byte entry |
| R6Keys.BuildR6 | pyhanko/pdf_utils/crypt.py:1354-1414 | the built entries are well formed, with /P = -4 and metadata encrypted |
| R6Keys.DeriveFileKey | pyhanko/pdf_utils/crypt.py:171-177 | the decrypted /OE or /UE is a 32-byte key |
| R6Keys.R6Check | pyhanko/pdf_utils/crypt.py:1611-1650 | an outcome other than FAILED carries a key under which /Perms decrypts to a block that passes the check; the only error is tampered permissions; FAILED exactly when there is no key |
| R6Keys.R6CheckOutcome | pyhanko/pdf_utils/crypt.py:1611-1650 | a password matching /O (hashed with /U) gives OWNER with the key recovered from /OE; otherwise one matching /U gives USER with the key from /UE; otherwise FAILED with no key. A key found is kept only if /Perms decrypts under it to a block that passes the check, else tampered permissions is raised |
| R6Keys.MatchPassword | pyhanko/pdf_utils/crypt.py:165-168 | the method compares the hash with the entry's hash |
| R6Keys.RecoverFileKey | pyhanko/pdf_utils/crypt.py:171-177 | the method decrypts the file key |
| R6Keys.AuthenticateR6 | pyhanko/pdf_utils/crypt.py:1611-1650 | the method computes the revision 6 outcome |
| R6Keys.BuiltEntriesSplit | pyhanko/pdf_utils/crypt.py:1613-1614 | the built /O and /U split back into their parts |
| R6Keys.BuildThenOwnerAuthenticatesR6 | pyhanko/pdf_utils/crypt.py:1616-1620 | the owner password authenticates as OWNER and recovers the file key |
| R6Keys.BuildThenUserAuthenticatesR6 | pyhanko/pdf_utils/crypt.py:1621-1623 | a user password that does not also match /O authenticates as USER and recovers the file key |
| R6Keys.SharedPasswordAuthenticatesAsOwner | pyhanko/pdf_utils/crypt.py:1616-1620 | when the two passwords normalise alike, the user password authenticates as OWNER |
| R6Keys.PermsDecryptToBlock | pyhanko/pdf_utils/crypt.py:1398-1405 | the encrypted /Perms decrypts to the built block, which passes the check |
| SecurityHandlers.NewStandardConfiguration | pyhanko/pdf_utils/crypt.py:1249-1273 | one `/StdCF` filter, the default for streams and strings |
| SecurityHandlers.NewPubKeyConfiguration | pyhanko/pdf_utils/crypt.py:1257-1284 | one `/DefaultCryptFilter` acting as default, with no seed and no key |
| SecurityHandlers.CheckEntryLengths | pyhanko/pdf_utils/crypt.py:1438-1464 | revision 6 needs 48-byte /U and /O, 32-byte /UE and /OE, and a 16-byte /Perms; legacy revisions need 32-byte /U and /O |
| SecurityHandlers.StandardSetup | pyhanko/pdf_utils/crypt.py:1416-1464 | the constructor's checks in their order: the key-length rule, a configuration, every filter of a given configuration accepting a standard handler (a public-key filter raises `TypeError`), the entry lengths; without a configuration, the version's default filter |
| SecurityHandlers.StandardSecurityHandler.constructor | pyhanko/pdf_utils/crypt.py:1436-1468 | the fields as given, with no key and no failure |
| SecurityHandlers.StandardSecurityHandler.R6View | pyhanko/pdf_utils/crypt.py:1613-1614 | the entries of a revision 6 handler are well formed |
| SecurityHandlers.StandardSecurityHandler.AuthenticateOutcome | pyhanko/pdf_utils/crypt.py:1593-1650 | legacy revisions without ID[0] raise, and so does a /P outside the int32 range; otherwise they do not raise, and USER only when the user check passes. Revision 6 raises only for tampered permissions, and a key found passes the /Perms check. FAILED exactly when there is no key |
| SecurityHandlers.AuthenticateOutcomeR6 | pyhanko/pdf_utils/crypt.py:1611-1650 | on a revision 6 handler: OWNER exactly when the normalised password matches /O, USER exactly when it matches /U but not /O, and an error only after one of them matched |
| SecurityHandlers.StandardSecurityHandler.FindOutcome | pyhanko/pdf_utils/crypt.py:1593-1603 | the method dispatches on the revision |
| SecurityHandlers.StandardSecurityHandler.Authenticate | pyhanko/pdf_utils/crypt.py:1593-1608 | a key found becomes the shared key, otherwise the failure is recorded; an error changes nothing |
| SecurityHandlers.NewStandardHandler | pyhanko/pdf_utils/crypt.py:1416-1468 | it succeeds exactly when those checks pass, failing with their error, with the fields set; the standard filters before the first public-key one are reset, the rest and every public-key filter are unchanged |
| SecurityHandlers.NewBuiltLegacyHandler | pyhanko/pdf_utils/crypt.py:1330-1351 | it fails exactly when the given configuration holds a public-key filter; otherwise the handler holds the built entries and the built key |
| SecurityHandlers.BuildFromPasswordLegacy | pyhanko/pdf_utils/crypt.py:1295-1351 | revision 6 raises. It fails exactly when the key-length rule does (5 for revision 2, 16 for AES-128) or the given configuration holds a public-key filter. The user password defaults to the owner's. The handler holds the built entries and key |
| SecurityHandlers.BuiltLegacyHandlerAuthenticates | pyhanko/pdf_utils/crypt.py:1557-1591 | a built legacy handler authenticates both its passwords, with the built key |
| SecurityHandlers.NewBuiltR6Handler | pyhanko/pdf_utils/crypt.py:1406-1414 | an AES256 handler holding the built entries and the file key |
| SecurityHandlers.BuildFromPassword | pyhanko/pdf_utils/crypt.py:1354-1414 | the revision 6 builder's handler, with entries from `BuildR6` |
| SecurityHandlers.BuiltR6HandlerAuthenticates | pyhanko/pdf_utils/crypt.py:1611-1650 | a built revision 6 handler authenticates the owner, and a distinct user password, recovering the file key |
| SecurityHandlers.PubKeySetup | pyhanko/pdf_utils/crypt.py:1935-1972 | versions 4 and 5 require `/adbe.pkcs7.s5`; the key-length rules apply; every filter of a given configuration must accept a public-key handler (a standard filter raises `TypeError`); without a configuration, the version's default filter |
| SecurityHandlers.NewPubKeyHandler | pyhanko/pdf_utils/crypt.py:1935-1975 | it succeeds exactly when those checks pass, failing with their error; the public-key filters before the first standard one are reset, the rest and every standard filter are unchanged; recipients are kept |
| SecurityHandlers.AddRecipientsToFilter | pyhanko/pdf_utils/crypt.py:2074-2077 | a public-key default takes the recipients; any other filter is skipped; errors include a seed that is not 20 bytes long |
| SecurityHandlers.AddRecipientsEach | pyhanko/pdf_utils/crypt.py:2069-2077 | every public-key default gains one sealed recipient, or the call raises, a short seed included |
| SecurityHandlers.AddRecipientsToDefaults | pyhanko/pdf_utils/crypt.py:2069-2077 | the handler-level `add_recipients` over `default_filters` |
| SecurityHandlers.AuthenticateFilter | pyhanko/pdf_utils/crypt.py:2087-2093 | a public-key filter must find its seed; any other filter passes |
| SecurityHandlers.AuthenticateEach | pyhanko/pdf_utils/crypt.py:2087-2094 | USER exactly when every public-key default finds a seed, and then that seed is set |
| SecurityHandlers.AuthenticatePubKey | pyhanko/pdf_utils/crypt.py:2079-2094 | the handler-level `authenticate` over `default_filters` |
| SecurityHandlers.NewCertsHandler | pyhanko/pdf_utils/crypt.py:1904-1931 | the handler `build_from_certs` makes, before recipients are added |
| SecurityHandlers.BuildFromCerts | pyhanko/pdf_utils/crypt.py:1904-1933 | it succeeds exactly when the setup checks pass, and then the default filter holds one recipient sealing its seed |
| SecurityHandlers.SealedSeedOpens | pyhanko/pdf_utils/crypt.py:1669-1672 | a recipient sealing the envelope opens to the seed, because the reader keeps the first 20 bytes |
| PdfObjects.Lookup | pyhanko/pdf_utils/crypt.py:1475 | a value found is the dictionary's entry for the key; none exactly when there is no such entry |
| PdfObjects.LookupOr | pyhanko/pdf_utils/crypt.py:1481 | `get` with a default |
| XrefTables.Free | pyhanko/pdf_utils/reader.py:111-150 | id 0 is ignored. It frees generation `next-1` (0xffff for next 0). It raises for a generation no newer than that still in use later, and for a next generation other than the expected one. It adds the ref to both current sets |
| XrefTables.PutInStream | pyhanko/pdf_utils/reader.py:176-187 | the sighting is recorded and the object stream is noted; the marker moves only for an object not used later |
| XrefTables.PyIndex | pyhanko/pdf_utils/reader.py:218 | Python indexing: negative indices count from the end, and out of range raises |
| XrefTables.ExplicitRefsInRevision | pyhanko/pdf_utils/reader.py:207-218 | revision r reads section `sections-1-r`; Python's negative index wraps for r up to `2*sections-1` |
| XrefTables.RefsFreedInRevision | pyhanko/pdf_utils/reader.py:220-231 | the freed set of the same section, a subset of its explicit refs |
| XrefTables.StartxrefForRevision | pyhanko/pdf_utils/reader.py:233-243 | the location recorded for section `sections-1-r` |
| XrefTables.ContainerInfoForRevision | pyhanko/pdf_utils/reader.py:204-205 | the container info of the same section |
| XrefTables.ObjectStreamsUsedIn | pyhanko/pdf_utils/reader.py:196-197 | the object streams of that section; empty outside the file |
| XrefTables.LastChange | pyhanko/pdf_utils/reader.py:193-194 | the revision of the section that last changed the object; unknown objects raise |
| XrefTables.IntroducingRevision | pyhanko/pdf_utils/reader.py:199-202 | the revision of the oldest sighting |
| XrefTables.FirstAtOrBefore | pyhanko/pdf_utils/reader.py:265-267 | the first sighting at or before the revision, or none when every one is newer |
| XrefTables.HistoricalRef | pyhanko/pdf_utils/reader.py:245-271 | the only error is "not in history"; the answer is stated by `XrefProperties.HistoricalRefNewest` |
| XrefTables.Locate | pyhanko/pdf_utils/reader.py:273-281 | generation 0 prefers the object-stream marker, then `standard_xrefs`, else raises |
| XrefTables.CheckNoOrphans | pyhanko/pdf_utils/reader.py:870-878 | expected frees left after reading raise |
| XrefCache.XRefCache.constructor | pyhanko/pdf_utils/reader.py:75-95 | empty tables, well formed |
| XrefCache.XRefCache.NextSection | pyhanko/pdf_utils/reader.py:97-102 | the current sets are filed as one more section; the tables stay well formed |
| XrefCache.XRefCache.FreeRef | pyhanko/pdf_utils/reader.py:111-150 | the new tables and error are `Free`'s; the tables stay well formed |
| XrefCache.XRefCache.PutRef | pyhanko/pdf_utils/reader.py:152-174 | the new tables and error are `Put`'s; the tables stay well formed |
| XrefCache.XRefCache.PutObjStreamRef | pyhanko/pdf_utils/reader.py:176-187 | the new tables are `PutInStream`'s; the tables stay well formed |
| XrefCache.XRefCache.ApplyFields | pyhanko/pdf_utils/reader.py:364-383 | type 1 puts, type 2 puts in a stream, type 0 frees, other types change nothing; the tables stay well formed |
| XrefCache.XRefCache.ReadEntry | pyhanko/pdf_utils/reader.py:362-383 | one entry read and applied, as the recursive reader does; the tables stay well formed |
| XrefCache.XRefCache.ReadSubsection | pyhanko/pdf_utils/reader.py:361-383 | the loop over one subsection; the tables stay well formed |
| XrefCache.XRefCache.ReadXrefStream | pyhanko/pdf_utils/reader.py:335-387 | the new tables are `ReadXrefStream`'s; the tables stay well formed |
| XrefCache.XRefCache.GetHistoricalRef | pyhanko/pdf_utils/reader.py:245-271 | the loop computes `HistoricalRef` |
| XrefCache.XRefCache.RecordXrefLocation | pyhanko/pdf_utils/reader.py:829 | a location is appended and nothing else changes; the tables stay well formed |
| XrefCache.XRefCache.RecordContainerInfo | pyhanko/pdf_utils/reader.py:799 | a container info is appended and nothing else changes; the tables stay well formed |
| XrefFields.ConvertToInt | pyhanko/pdf_utils/reader.py:1022-1027 | for size ≤ 8, succeeds exactly when the data has `size` bytes; for wider fields, the power sum |
| XrefFields.ConvertToIntValue | pyhanko/pdf_utils/reader.py:1023-1025 | big-endian value, signed when 8 bytes have the top bit set |
| XrefFields.EncodeFieldRoundTrip | pyhanko/pdf_utils/reader.py:1023-1025 | any value that fits a field of width 1..8 reads back unchanged |
| XrefFields.PowerSumNotPositional | pyhanko/pdf_utils/reader.py:1026-1027 | nine zero bytes read as 1, because `0 ** 0` is 1 |
| XrefFields.GetEntry | pyhanko/pdf_utils/reader.py:342-355 | a field never reads past the data |
| XrefFields.GetEntryCases | pyhanko/pdf_utils/reader.py:342-355 | a zero width gives the default (1 for the type, else 0) without reading; a missing `/W` raises |
| XrefFields.ReadFields | pyhanko/pdf_utils/reader.py:362-383 | three fields read in order, without reading past the data |
| XrefFields.ZeroWidthsDefaults | pyhanko/pdf_utils/reader.py:349-355 | all-zero widths read `(1, 0, 0)` without consuming data |
| XrefStreams.Subsections | pyhanko/pdf_utils/reader.py:339 | `/Index`, else `[0, /Size]`; neither raises |
| XrefStreams.ApplyEntry | pyhanko/pdf_utils/reader.py:364-383 | unknown types change nothing; type 2 never raises |
| XrefStreams.ReadEntries | pyhanko/pdf_utils/reader.py:361-383 | the position only advances, within the data |
| XrefStreams.ReadEntriesStep | pyhanko/pdf_utils/reader.py:361-383 | one entry, then the rest |
| XrefTables.Put | pyhanko/pdf_utils/reader.py:152-174 | raises exactly for a pending expected free or a generation above 65535, changing nothing. Otherwise it records the sighting, notes the expected free, and moves the location only when the generation is not used later |
| XrefTables.CloseSection | pyhanko/pdf_utils/reader.py:97-102 | the current section's references and frees are filed after the older sections' and a new, empty, section begins; nothing else changes |
| XrefStreams.ReadXrefStream | pyhanko/pdf_utils/reader.py:335-387 | a malformed `/W` or `/Index` raises with the tables untouched; a stream read in full leaves a new, empty, section open |
| XrefProperties.LocateAfterPut | pyhanko/pdf_utils/reader.py:152-174 | after `put_ref`, `__getitem__` of the reference put gives its offset unless a newer section uses that generation or generation 0 sits in an object stream; every other lookup, and every lookup after a raise, is unchanged |
| XrefProperties.LocateAfterPutInStream | pyhanko/pdf_utils/reader.py:176-187 | after `put_obj_stream_ref`, `__getitem__` of generation 0 gives the object-stream place unless a newer section uses it; every other lookup is unchanged |
| XrefProperties.LocateAfterFree | pyhanko/pdf_utils/reader.py:111-117 | after `free_ref`, `__getitem__` of the previous generation gives the null object, raise or not, unless it is generation 0 in an object stream; object 0 and every other lookup are unchanged |
| XrefProperties.NewestSectionWins | pyhanko/pdf_utils/reader.py:152-174 | a reference put from the newest section keeps its offset when an older section, read later, puts it again |
| XrefProperties.ChronologicalAppend | pyhanko/pdf_utils/reader.py:171 | appending the current section keeps the history ordered |
| XrefProperties.CloseSectionWellFormed | pyhanko/pdf_utils/reader.py:97-102 | `_next_section` adds one section to both lists, keeps the older ones, and keeps the invariant |
| XrefProperties.PutWellFormed | pyhanko/pdf_utils/reader.py:152-174 | `put_ref` keeps the invariant |
| XrefProperties.FreeWellFormed | pyhanko/pdf_utils/reader.py:111-150 | `free_ref` keeps the invariant |
| XrefProperties.PutInStreamWellFormed | pyhanko/pdf_utils/reader.py:176-187 | `put_obj_stream_ref` keeps the invariant |
| XrefProperties.ApplyEntryKeeps | pyhanko/pdf_utils/reader.py:364-383 | one entry keeps the invariant and the filed sections |
| XrefProperties.ReadEntriesKeeps | pyhanko/pdf_utils/reader.py:361-383 | a subsection keeps them |
| XrefProperties.ReadSubsectionsKeeps | pyhanko/pdf_utils/reader.py:357-383 | all subsections keep them |
| XrefProperties.ReadXrefStreamSections | pyhanko/pdf_utils/reader.py:335-387 | a stream read in full files exactly one more section, leaving older ones as they were; an error files none |
| XrefProperties.FreedInLastRevisionStays | pyhanko/pdf_utils/reader.py:220-231 | a ref freed in the newest section stays in `refs_freed_in_revision(last)` after an older stream is read |
| XrefProperties.FreeObjectTwoInNewestSection | pyhanko_tests/test_diff_analysis.py:950-967 | in the test the newest section is a text xref table, whose parser is not part of this model; the lemma drives `Free` directly with that section's entries: the free of object 0 is ignored, (2, 0) is freed and reported freed in the last revision |
| XrefProperties.FreeAnswersExpectedFree | pyhanko/pdf_utils/reader.py:139-150 | a put with a positive generation leaves an orphan; a free with that generation in a later section answers it |
| XrefProperties.ReuseBeforeFreeRaises | pyhanko/pdf_utils/reader.py:153-157 | reusing the id before its free raises, however many sections later |
| XrefProperties.CloseSections | pyhanko/pdf_utils/reader.py:97-102 | closing sections keeps the expected frees |
| XrefProperties.FreeWithOtherGenerationRaises | pyhanko/pdf_utils/reader.py:139-147 | a next generation different from the expected one raises |
| XrefProperties.HistoricalRefNewest | pyhanko/pdf_utils/reader.py:245-271 | it answers with the newest sighting at or before the revision; it raises exactly when all sightings are newer |
| XrefProperties.HistoricalRefMonotone | pyhanko/pdf_utils/reader.py:245-271 | a ref known at a revision is known at every later one |
| TrailerDictionaries.SliceFrom | pyhanko/pdf_utils/reader.py:483 | Python's `s[start:]`, with negative starts and clamping |
| TrailerDictionaries.Merge | pyhanko/pdf_utils/reader.py:509-512 | the merged keys are the keys of all trailers |
| TrailerDictionaries.TrailerDictionary.constructor | pyhanko/pdf_utils/reader.py:459-463 | no revisions and no changes |
| TrailerDictionaries.TrailerDictionary.AddTrailerRevision | pyhanko/pdf_utils/reader.py:465-466 | the trailer is appended as the next, older revision |
| TrailerDictionaries.TrailerDictionary.RawGet | pyhanko/pdf_utils/reader.py:473-490 | the loop computes `RawGetOf`: the new changes first when no revision is given, then the first trailer from the requested revision on that holds the key |
| TrailerDictionaries.TrailerDictionary.SetItem | pyhanko/pdf_utils/reader.py:492-493 | the change is recorded |
| TrailerDictionaries.TrailerDictionary.DelItem | pyhanko/pdf_utils/reader.py:495-503 | only new changes can be removed; otherwise it raises, changing nothing |
| TrailerDictionaries.TrailerDictionary.Flatten | pyhanko/pdf_utils/reader.py:505-524 | the stream keys are dropped; new changes win when no revision is given |
| TrailerDictionaries.TrailerDictionary.Contains | pyhanko/pdf_utils/reader.py:526-529 | `__contains__` holds exactly when `raw_get` without a revision finds the key |
| TrailerDictionaries.TrailerDictionary.Keys | pyhanko/pdf_utils/reader.py:531-532 | `keys` holds exactly what `__contains__` accepts |
| TrailerDictionaries.FirstWithMerge | pyhanko/pdf_utils/reader.py:485-490 | the first trailer holding the key has the value the merge keeps |
| TrailerDictionaries.RawGetAgreesWithFlatten | pyhanko/pdf_utils/reader.py:473-524 | for a revision in the file, `raw_get` agrees with `flatten` on every key `flatten` keeps |
| TrailerDictionaries.RawGetAgreesWithFlattenLatest | pyhanko/pdf_utils/reader.py:473-524 | the same without a revision, the new changes overriding everything |
| TrailerDictionaries.FlattenKeys | pyhanko/pdf_utils/reader.py:505-532 | `flatten()` has the keys of `keys()`, less the stream keys |
| TrailerDictionaries.RawGetAndFlattenDivergeOutOfRange | pyhanko/pdf_utils/reader.py:482-508 | for revisions outside the file, the two slice differently and disagree |
| RawPdfPaths.Add | pyhanko/pdf_utils/reader.py:1064-1070 | `+` concatenates, so lengths add |
| RawPdfPaths.Tag | pyhanko/pdf_utils/reader.py:1044-1046 | one (is-int, value) tag per node |
| RawPdfPaths.NatDigits | pyhanko/pdf_utils/reader.py:1060 | `%d` writes decimal digits |
| RawPdfPaths.NatDigitsRoundTrip | pyhanko/pdf_utils/reader.py:1060 | the digits written for a natural number read back as that number |
| RawPdfPaths.Decimal | pyhanko/pdf_utils/reader.py:1060 | `%d` writes a non-empty string; `DecimalRoundTrip` states its value |
| RawPdfPaths.DecimalRoundTrip | pyhanko/pdf_utils/reader.py:1060 | `%d` of any integer reads back as that integer |
| RawPdfPaths.EqualIffSameNodes | pyhanko/pdf_utils/reader.py:1051-1055 | equal exactly when the nodes are the same, so an index never equals a key |
| RawPdfPaths.IndexIsNotKey | pyhanko/pdf_utils/reader.py:1044-1055 | index 1 differs from key `"1"` |
| RawPdfPaths.FormatNodesAppend | pyhanko/pdf_utils/reader.py:1072-1073 | printing a concatenation concatenates the printed parts |
| RawPdfPaths.StrAdd | pyhanko/pdf_utils/reader.py:1064-1073 | `str(p + q)` is `str(p) + str(q)` |
| RawPdfPaths.FormatNodeShape | pyhanko/pdf_utils/reader.py:1058-1062 | an index prints as `[n]`; a key prints as `.` plus the name without its slash |
| HistoricalResolvers.IsRefAvailableIffNoSighting | pyhanko/pdf_utils/reader.py:1177-1196 | a ref is available exactly when every sighting is newer than the revision; once taken, it stays taken at later revisions |
| HistoricalResolvers.IsRefAvailable | pyhanko/pdf_utils/reader.py:1177-1196 | a reference no section lists is available |
| HistoricalResolvers.Relevant | pyhanko/pdf_utils/reader.py:1225-1228 | with no revision everything is relevant; otherwise a ref is relevant exactly when its introducing revision is at least the given one; no history raises |
| HistoricalResolvers.Values | pyhanko/pdf_utils/reader.py:1238 | `values()` of the dictionary: exactly the values `Lookup` finds under some key, so an entry hidden by an earlier one under the same key is not scanned |
| HistoricalResolvers.CollectIndirectReferences | pyhanko/pdf_utils/reader.py:1219-1242 | the recursive method computes `Collect` |
| HistoricalResolvers.CollectChildren | pyhanko/pdf_utils/reader.py:1237-1242 | the loop over a container's children computes `CollectFrom` |
| HistoricalResolvers.CollectDependencies | pyhanko/pdf_utils/reader.py:1198-1217 | the walk from an empty set; `CollectDependenciesReachable` states what it finds |
| HistoricalResolvers.Collect | pyhanko/pdf_utils/reader.py:1219-1242 | the seen set only grows |
| HistoricalResolvers.CollectFrom | pyhanko/pdf_utils/reader.py:1237-1242 | walking the children from any index only adds to the seen set |
| HistoricalResolvers.CollectFromClosed | pyhanko/pdf_utils/reader.py:1237-1242 | the children walk covers every relevant reference reachable from the remaining children, and is closed |
| HistoricalResolvers.CollectClosed | pyhanko/pdf_utils/reader.py:1219-1242 | the result covers every relevant reference reachable through collected objects |
| HistoricalResolvers.CollectDependenciesClosed | pyhanko/pdf_utils/reader.py:1198-1242 | every collected reference is relevant, and the set is closed under reachability through relevant objects |
| HistoricalResolvers.CollectSound | pyhanko/pdf_utils/reader.py:1219-1242 | every reference a scan adds is reached from inside the object through a chain of followed references |
| HistoricalResolvers.CollectReferenceSound | pyhanko/pdf_utils/reader.py:1225-1236 | following a reference adds it and only what its object reaches |
| HistoricalResolvers.CollectFromSound | pyhanko/pdf_utils/reader.py:1237-1242 | every reference the children walk adds is reached from the remaining children |
| HistoricalResolvers.ReachesThrough | pyhanko/pdf_utils/reader.py:1225-1236 | a chain from inside a followed reference's object extends back to the reference |
| HistoricalResolvers.ChainCollected | pyhanko/pdf_utils/reader.py:1219-1242 | a chain starting at a collected reference ends at a collected one |
| HistoricalResolvers.CollectDependenciesReachable | pyhanko/pdf_utils/reader.py:1198-1242 | the result is exactly the references reached from inside the object through chains of relevant references that resolve |
| EofReader.ScanBack | pyhanko/pdf_utils/reader.py:48-56 | reading backwards stops at an end-of-line byte at position ≥ 1; position 0 is malformed |
| EofReader.SkipEol | pyhanko/pdf_utils/reader.py:57-66 | the line-break loop never moves past its start, plus one for CR+LF |
| EofReader.NextEndLine | pyhanko/pdf_utils/reader.py:46-71 | the line ends at the cursor, and the cursor moves before it |
| EofReader.FindEofMarker | pyhanko/pdf_utils/reader.py:426-431 | the marker search ends before its starting position; `NoMarkerNotFound` and `EofLineAtEnd` state its results |
| EofReader.Strip | pyhanko/pdf_utils/reader.py:442 | strip never lengthens |
| EofReader.Stream.constructor | pyhanko/pdf_utils/reader.py:414 | a stream over the data, positioned at 0 |
| EofReader.Stream.Read1 | pyhanko/pdf_utils/reader.py:51 | one byte read, or none at the end |
| EofReader.Stream.Seek | pyhanko/pdf_utils/reader.py:54 | a relative seek |
| EofReader.Stream.ReadNextEndLine | pyhanko/pdf_utils/reader.py:46-71 | the method computes `NextEndLine` and moves the cursor |
| EofReader.Stream.ReadLineBackwards | pyhanko/pdf_utils/reader.py:48-56 | the first loop of `_build` |
| EofReader.Stream.SkipLineBreak | pyhanko/pdf_utils/reader.py:57-66 | the second loop of `_build` |
| EofReader.Stream.ProcessDataAtEof | pyhanko/pdf_utils/reader.py:414-448 | the method computes `DataAtEof` |
| EofReader.Stream.SkipToEofMarker | pyhanko/pdf_utils/reader.py:424-431 | the marker loop |
| EofReader.Stream.ReadStartxref | pyhanko/pdf_utils/reader.py:433-448 | the method computes `StartxrefBefore`, the offset read from the lines above the marker |
| EofReader.ScanBackFindsBreak | pyhanko/pdf_utils/reader.py:48-56 | it stops at the nearest end-of-line before the cursor |
| EofReader.ScanBackSkipsLine | pyhanko/pdf_utils/reader.py:48-56 | no end-of-line is skipped |
| EofReader.NextEndLineShape | pyhanko/pdf_utils/reader.py:46-71 | the line holds no end-of-line and is the bytes just after a break |
| EofReader.NextEndLineAfterBreak | pyhanko/pdf_utils/reader.py:46-71 | a line after an LF reads as that line, with the cursor before the break |
| EofReader.NoMarkerNotFound | pyhanko/pdf_utils/reader.py:426-431 | data without `%%EOF` raises "EOF marker not found" |
| EofReader.MarkerFound | pyhanko/pdf_utils/reader.py:424-431 | a `%%EOF` line the search finds starts before the position it searched from |
| EofReader.DataAtEof | pyhanko/pdf_utils/reader.py:414-448 | an offset is found only when `%%EOF` occurs before the position |
| EofReader.StartxrefBefore | pyhanko/pdf_utils/reader.py:433-448 | an offset is returned only with `startxref` on the line above it, or before it on the same line |
| EofReader.NoMarkerNoOffset | pyhanko/pdf_utils/reader.py:414-448 | data without `%%EOF` yields no startxref |
| EofReader.EofLineAtEnd | pyhanko/pdf_utils/reader.py:424-431 | a file ending in `\n%%EOF` finds the marker on the last line |
| EofReader.OffsetBelowKeyword | pyhanko/pdf_utils/reader.py:436-446 | an offset line under a `startxref` line gives the offset |
| EofReader.OffsetOnKeywordLine | pyhanko/pdf_utils/reader.py:436-442 | `startxref` and the offset on the same line give the stripped offset |
| EofReader.DataAtEofSteps | pyhanko/pdf_utils/reader.py:414-448 | the two steps compose to `process_data_at_eof` |
| EofReader.WriterTailAt | pyhanko_tests/test_diff_analysis.py:956-958 | a tail of `startxref`, offset and `%%EOF` lines is read to that offset |
| EofReader.SameLineTailAt | pyhanko/pdf_utils/reader.py:436-442 | the same-line variant of that tail |
| EofReader.WriterTailLayout | pyhanko_tests/test_diff_analysis.py:956-958 | the concrete bytes of such a tail meet the layout the lemma needs |
| EofReader.SameLineTailLayout | pyhanko/pdf_utils/reader.py:436-442 | likewise for the same-line form |

## Left out

**Primitives and things outside the modules**
- MD5, SHA-1, SHA-256/384/512, RC4 and AES are parameters: their bytes are not computed. CMS construction (`construct_recipient_cms`, `_recipient_info`) and CMS reading (`read_seed_from_recipient_cms`) are a `seal`/`open` function pair. X.509 certificates and `EnvelopeKeyDecrypter` are not part of this model.
- `secrets.token_bytes` is an input: the seeds, salts, file key, IVs and filler bytes.
- SASLprep and PDFDocEncoding of `str` passwords are not modelled. Credentials are bytes.
- `misc.PdfError` and its subclasses are error variants. Messages and `logger.warning` calls are dropped.
- `generic.py` is not part of this model. Dictionaries are entry lists (first entry wins); objects are a small datatype. Reference equality ignores the `pdf` field.
- `SecurityHandler.register`, `build` and the handler registry are not modelled. Nor are `instantiate_from_pdf_object`, beyond the `/Length` reading and the crypt filter dictionary readers. Nor is `as_pdf_object` of the handlers, beyond `/Length` and the filter configuration.

**Reader**
- The `XRefCache` attributes are one `Tables` record in one field. The update is still in place, but aliasing between attributes is not shown.
- `defaultdict` reads that create empty entries are modelled as reads that do not insert.
- `read_xref_table` (the text table parser) is not modelled. Neither are `_read_xrefs` with its recovery paths, `pair_iter`, or the rest of `PdfFileReader`. The orphan check at the end of `_read_xrefs` is `CheckNoOrphans`.
- `get_object`, the object cache and `_subsume_object` are not modelled. `HistoricalResolver` resolves through a map from references to objects.
- `TrailerDictionary.__getitem__` dereferencing, `items`, `__iter__` and `write_to_stream` are not modelled.
- `int()` parsing in `process_data_at_eof` is the parameter `parseInt`.
- The `seek(-1, SEEK_END)` and the empty-file check of `PdfFileReader.read` (reader.py:901-906) are not modelled. `ProcessDataAtEof` starts from whatever position the stream is at.
- EofReader.WriterTailAt: states the end-of-file reading of the writer's tail through its two steps, `FindEofMarker` and `StartxrefBefore`. `DataAtEofSteps` composes them; no single lemma states `DataAtEof` on the concatenated bytes.
- XrefFields.ConvertToInt: wider than 8 bytes, it takes a precondition that the data is no longer than the width. `stream.read` cannot return more.
- CryptBytes.ObjectKeyInput: requires an object and generation number that fit in int32. For others, `struct.pack('<i', …)` raises `struct.error` in the source (crypt.py:336-337); that error is not modelled.
- CryptBytes.LegacyObjectKey: requires the same int32 range as `ObjectKeyInput`, for the same reason. `CryptFilters.ObjectKey` asks for it only on the legacy branch.
- CryptBytes.EnvelopeContent: requires a permission value that fits in int32 when the permissions are included. Outside that range the source's `struct.pack('<i', perms)` (crypt.py:1672) raises `struct.error`; that error is not modelled.
- R6Keys.BuildR6: /Perms is one AES-CBC block under a zero IV, without padding. The source encrypts with PKCS#7 padding and keeps the first 16 bytes (crypt.py:1398-1405). With CBC these are the same block, but the model's `encrypt` parameter is not asked to state that.
- CryptFilters.DefaultFilters: returns a sequence, stream default first, where the source builds a set whose iteration order Python does not fix. The order decides which filter `AuthenticateEach` tries first, and so whether the first filter's seed is set before a second one fails.
- CryptFilters.PubKeyCryptFilter.Authenticate, CryptFilters.PubKeyCryptFilter.Description, CryptFilters.FilterDictionary, SecurityHandlers.AuthenticateFilter, SecurityHandlers.AuthenticateEach and SecurityHandlers.AuthenticatePubKey require a filter whose recipient list is set. In the source, iterating `recipients = None` (crypt.py:826, 841, 850-852) raises `TypeError`; that error is not modelled.
- LegacyKeys.LegacyAuthenticate: states USER only through the user check passing, not OWNER through the recovered password. The OWNER path is stated by the builder lemmas `BuildThenOwnerAuthenticates` and `OwnerRecoversUser`.
