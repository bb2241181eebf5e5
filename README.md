# Tracker module header parsers, modelled in Dafny

This project models the module-header core of a music tracker in Dafny. The
tracker reads Amiga ProTracker **MOD** files and FastTracker II **XM** files.
It has two header parsers over raw bytes:

- **ModuleCore.** `mc_parse_xm_header_bytes` and `mc_parse_mod_header_bytes`
  fill an `mc_module_info` record. `mc_parse_file` tries XM first, then MOD.
  A failure becomes the error record built by `mc_error`.
- **The legacy parser.** `vtx_parse_module_header` makes the same checks in a
  smaller form. It reports one of five result codes and fills a short summary
  record.

The project also models two pieces of editor logic from the application's
test file:

- `buildPatternSelection`: which patterns the pattern list offers, and which
  order-table entries name no pattern.
- `PatternCursor.move`: the pattern editor's cursor navigation.

Modules, one file each:

| module | file | models |
|---|---|---|
| `Bytes` | bytes.dfy | fixed-width integers and the little- and big-endian readers |
| `Trim` | trim.dfy | `copy_trimmed`, which trims a padded text field into a C string buffer |
| `ModCommon` | mod_common.dfy | the MOD signature checks and the maximum-pattern scan, identical in both parsers |
| `ModuleTypes` | module_types.dfy | `mc_module_info`, `mc_error`, `mc_module_type_name` |
| `XmParser` | xm_parser.dfy | `mc_parse_xm_header_bytes` |
| `ModParser` | mod_parser.dfy | `mc_parse_mod_header_bytes` |
| `VtxParser` | vtx_parser.dfy | the legacy parser |
| `ModuleFile` | module_file.dfy | the XM-then-MOD dispatch of `mc_parse_file`; how the two implementations relate |
| `PatternSelection` | pattern_selection.dfy | `buildPatternSelection` |
| `Cursor` | pattern_cursor.dfy | `PatternCursor.move` |

Each parser has two parts:

- A specification function: `XmHeader`, `ModHeader`, `XmStatus`, `ModStatus`,
  `HeaderStatus` and `ParseBytes`. It states what the parser accepts and the
  record it fills.
- A method that follows the C code step by step: checks, `memset`, field
  assignments and loops. Its postcondition equates it with the specification.
  There is one exception: the XM order-table copy in `FillXmInfo` also stops
  at the end of the buffer (see "## Findings").

The C out pointer is modelled as a value passed in (`prior`) and returned
(`info`). This lets the contracts state that a rejected buffer leaves the
caller's record untouched.

Two behaviours of the code matter when comparing the two parsers:

- **XM header size.** A header size below 20 makes the ModuleCore parser
  simply fail (core/ModuleCore/src/xm_header.c:51-53). The legacy parser
  reports INVALID_DATA (core/src/vtx_module_parser.c:80-82).
- **No clamping.** Neither parser clamps the MOD pattern count or the XM row
  counts. The MOD pattern count is the largest order entry plus one, at most
  256 (core/ModuleCore/src/mod_header.c:115). XM row counts are stored as
  read (core/ModuleCore/src/xm_header.c:101-105).

## Model

| member | source | states |
|---|---|---|
| `Bytes.LeU16` | core/ModuleCore/src/xm_header.c:5-7 | `read_le_u16`: the value's low byte is the byte at the offset and its high byte the next one |
| `Bytes.LeU32` | core/ModuleCore/src/xm_header.c:9-14 | `read_le_u32`: the value's lowest byte is the byte at the offset and its highest byte the one three further on |
| `Bytes.LeU16RoundTrip` | core/ModuleCore/src/xm_header.c:5-7 | reading the little-endian encoding of a 16-bit value gives the value back |
| `Bytes.LeU16Inverse` | core/ModuleCore/src/xm_header.c:5-7 | encoding the value read at an offset gives back the two bytes read, so the reader loses nothing |
| `Bytes.LeU32Halves` | core/ModuleCore/src/xm_header.c:9-14 | a 32-bit LE field is its low 16-bit half plus 65536 times its high half |
| `Bytes.LeU32RoundTrip` | core/ModuleCore/src/xm_header.c:9-14 | reading the LE encoding of a 32-bit value gives the value back |
| `Bytes.LeU32Inverse` | core/ModuleCore/src/xm_header.c:9-14 | encoding the 32-bit value read at an offset gives back the four bytes read |
| `Bytes.BeU16RoundTrip` | core/ModuleCore/src/mod_header.c:51-53 | reading the big-endian encoding of a 16-bit value gives the value back |
| `Trim.TrimmedLengthDropsPadding` | core/ModuleCore/src/xm_header.c:17-20 | the backward scan stops at the last byte that is neither NUL nor space; everything after it is padding |
| `Trim.TrimmedPaddingTail` | core/ModuleCore/src/xm_header.c:17-20 | appending padding to a field does not change where its trimmed text ends |
| `Trim.CopyTrimmed` | core/ModuleCore/src/xm_header.c:16-26 | the copied text is a prefix of the source, strictly shorter than the destination (room for the NUL), and equals `Trimmed` |
| `Trim.TrimmedDropsOnlyPadding` | core/ModuleCore/src/xm_header.c:16-26 | with a wide enough destination the source is the result followed only by NUL and space bytes |
| `Trim.TrimmedIdempotent` | core/ModuleCore/src/xm_header.c:16-26 | trimming a trimmed field changes nothing |
| `ModCommon.IsPrintableSig` | core/ModuleCore/src/mod_header.c:19-27 | the early-exit loop returns true exactly when all four signature bytes are in 32..126 |
| `ModCommon.ChannelsFromSig` | core/ModuleCore/src/mod_header.c:29-49 | the channel count read from a signature is at most 99 |
| `ModCommon.KnownTagChannels` | core/ModuleCore/src/mod_header.c:30-41 | M.K., M!K!, FLT4 and 4CHN give 4 channels; FLT8, 8CHN, OKTA and CD81 give 8 |
| `ModCommon.ChannelTagRoundTrip` | core/ModuleCore/src/mod_header.c:42-47 | for every n in 1..99 the conventional tag ("nCHN" or "nnCH") decodes to n |
| `ModCommon.UnknownTagsMapToZero` | core/ModuleCore/src/mod_header.c:42-48 | a tag matching no rule ("ZZZZ"), and "0CHN", give 0 channels |
| `ModCommon.OrderEntries` | core/ModuleCore/src/mod_header.c:105-108 | the scanned entry count is between 1 and 128: the song length when it is 1..128, otherwise 128 |
| `ModCommon.MaxOrderIsMaximum` | core/ModuleCore/src/mod_header.c:109-114 | the scanned maximum bounds every entry and is 0 or one of the entries |
| `ModCommon.ScanMaxPattern` | core/ModuleCore/src/mod_header.c:109-114 | the `max_pattern` loop computes that maximum |
| `ModuleTypes.McError` | core/ModuleCore/src/module_types.c:11-20 | an error record has `ok = 0`, type UNKNOWN, every other field zero, and the message cut to the 127 bytes that fit before the NUL |
| `ModuleTypes.TypeName` | core/ModuleCore/src/module_types.c:22-32 | `mc_module_type_name`: "MOD" exactly for the MOD value, "XM" exactly for the XM value, "UNKNOWN" for everything else |
| `ModuleTypes.TypeNameIdentifiesType` | core/ModuleCore/src/module_types.c:22-32 | the names of UNKNOWN, MOD and XM differ, so the name identifies the type |
| `ModuleTypes.TypeNameOutOfRange` | core/ModuleCore/src/module_types.c:28-31 | any value other than MOD or XM is named "UNKNOWN" |
| `XmParser.XmHeader` | core/ModuleCore/src/xm_header.c:28-136 | an accepted buffer passes the preamble checks and gives an OK XM record with no error, whose pattern and instrument counts are the LE u16 fields at 70 and 72 |
| `XmParser.XmHeaderEnd` | core/ModuleCore/src/xm_header.c:50-57 | once the checks pass, the first pattern header starts between byte 80 and the end of the buffer |
| `XmParser.XmHeaderRejects` | core/ModuleCore/src/xm_header.c:40-57 | each check fails the parse on its own: under 80 bytes, wrong magic, wrong marker, header size under 20, or a header end past the buffer |
| `XmParser.XmOrderCopyLengthAsWritten` | core/ModuleCore/src/xm_header.c:75-78 | the copy length as written is bounded by the 256-entry table only, not by the buffer |
| `XmParser.XmOrderCopyOverrunsBuffer` | core/ModuleCore/src/xm_header.c:40-79 | an 80-byte buffer passes every check before the order-table copy and makes that copy read past its end |
| `XmParser.XmOrderTableLength` | core/ModuleCore/src/xm_header.c:75-79 | the corrected copy length stays inside the buffer, at most 256 and at most the song length |
| `XmParser.XmOrderTableCorrection` | core/ModuleCore/src/xm_header.c:75-79 | the correction equals the copy as written wherever that stays in bounds; otherwise it copies exactly the bytes up to the end |
| `XmParser.PatternHeaders` | core/ModuleCore/src/xm_header.c:89-111 | a successful walk records exactly `patterns` headers and ends inside the buffer |
| `XmParser.PatternHeadersStep` | core/ModuleCore/src/xm_header.c:94-110 | a header that passes the three size checks is recorded with its row count (offset 5) and packed size (offset 7), and the walk goes on after its body |
| `XmParser.PatternWalkShape` | core/ModuleCore/src/xm_header.c:89-111 | every recorded header lies in the buffer; the first is at the start, each next one begins where the previous body ends, and the walk ends after the last body |
| `XmParser.XmRowCountsFromHeaders` | core/ModuleCore/src/xm_header.c:84-111 | a parsed record holds `min(patterns, 64)` row counts, each the LE u16 at offset 5 of the matching header in the chain |
| `XmParser.XmHeaderFromWalk` | core/ModuleCore/src/xm_header.c:113-135 | after a successful walk the parse succeeds exactly when the first instrument's name can be read (or there are no instruments) |
| `XmParser.XmHeaderFieldOffsets` | core/ModuleCore/src/xm_header.c:59-87 | on success: type XM with no error or warning, the version bytes, the song fields at 64..78, the order table from 80, `min(patterns, 64)` row counts, no instrument name without instruments |
| `XmParser.MinimalXmFixture` | tests/core/ModuleCoreTests.swift:19-32 | the 374-byte XM built to carry the test's asserted values reads as "TEST XM", version 1.04, 4 channels, one 64-row pattern, one instrument, song length 1 |
| `XmParser.WalkPatternHeaders` | core/ModuleCore/src/xm_header.c:81-111 | the pattern loop keeps `ptr + remaining` equal to the size; it succeeds exactly when the walk does, ending at the walk's end with its row counts |
| `XmParser.FillXmInfo` | core/ModuleCore/src/xm_header.c:59-79 | the `memset` and the field assignments produce the record `XmFields` describes |
| `XmParser.ReadXmTables` | core/ModuleCore/src/xm_header.c:59-135 | after the preamble checks the parse succeeds exactly as `XmHeader` says and returns its record; a failure still leaves an OK XM record |
| `XmParser.ReadFirstInstrumentName` | core/ModuleCore/src/xm_header.c:113-133 | the instrument step succeeds exactly when `FirstInstrumentName` does: nothing is read without instruments; otherwise 29 bytes and a header size of at least 29 that fits are needed, and the name is the trimmed 22 bytes at offset 4 |
| `XmParser.ParseXmHeaderBytes` | core/ModuleCore/src/xm_header.c:28-136 | succeeds exactly when `XmHeader` accepts, returning its record; a failed preamble check leaves the caller's record untouched |
| `ModParser.ModHeader` | core/ModuleCore/src/mod_header.c:63-118 | accepted exactly when there are 1084 bytes and a printable signature; the record is an OK MOD record with no error |
| `ModParser.ModFields` | core/ModuleCore/src/mod_header.c:82-115 | the filled record is an OK MOD record with 1 to 99 channels, 31 instruments and 1 to 256 patterns |
| `ModParser.BeWordsAsBytes` | core/ModuleCore/src/mod_header.c:51-53 | the sample length is twice the big-endian word count: even and below 0x20000 |
| `ModParser.BeWordsAsBytesRoundTrip` | core/ModuleCore/src/mod_header.c:51-53 | a length stored as words reads back as twice that many bytes |
| `ModParser.FinetuneFromNibble` | core/ModuleCore/src/mod_header.c:55-61 | the finetune is in -8..7 and agrees with the byte modulo 16 |
| `ModParser.FinetuneNibbleRoundTrip` | core/ModuleCore/src/mod_header.c:55-61 | the high nibble is ignored, and each finetune -8..7 comes from exactly one low nibble |
| `ModParser.ModOrders` | core/ModuleCore/src/mod_header.c:94-98 | the order table holds as many entries as the clamped song length |
| `ModParser.ModHeaderAccepts` | core/ModuleCore/src/mod_header.c:70-80 | the parser accepts exactly the buffers of at least 1084 bytes whose signature bytes are printable |
| `ModParser.ModHeaderFields` | core/ModuleCore/src/mod_header.c:82-115 | on success: type MOD; the signature's channel count, or 4 with the warning; 31 instruments; song length and restart bytes; the clamped order table; a pattern count above every order entry, with the last pattern in use |
| `ModParser.ModFirstSampleFields` | core/ModuleCore/src/mod_header.c:100-103 | the first sample's name, doubled big-endian length, signed finetune nibble and volume come from bytes 20..45 |
| `ModParser.FillModInfo` | core/ModuleCore/src/mod_header.c:82-117 | the `memset`, the assignments and the max-pattern loop produce the record `ModFields` describes |
| `ModParser.ParseModHeaderBytes` | core/ModuleCore/src/mod_header.c:63-118 | succeeds exactly when `ModHeader` accepts, returning its record; otherwise the caller's record is untouched |
| `ModParser.MinimalModFixture` | core/ModuleCore/src/mod_header.c:82-115 | the MOD built to carry the tests' asserted values (title "TEST MOD") reads as 4 channels, 1 pattern, 31 instruments and song length 1 |
| `ModParser.UnknownSignatureDefaultsToFour` | core/ModuleCore/src/mod_header.c:86-90 | a "ZZZZ" signature still parses, as 4 channels with the warning |
| `VtxParser.ResultString` | core/src/vtx_module_parser.c:156-171 | `vtx_parse_result_string`: "unknown_error" exactly for values outside 0..4, "ok" exactly for OK |
| `VtxParser.ResultStringIdentifiesResult` | core/src/vtx_module_parser.c:156-171 | the five result names differ, so the name identifies the result |
| `VtxParser.ResultStringOutOfRange` | core/src/vtx_module_parser.c:168-169 | any other value is named "unknown_error", which no result is named |
| `VtxParser.XmStatus` | core/src/vtx_module_parser.c:66-85 | the XM check never reports INVALID_ARGUMENT; it reports UNSUPPORTED_FORMAT exactly for at least 80 bytes without the magic; INVALID_DATA only with the magic |
| `VtxParser.ModStatus` | core/src/vtx_module_parser.c:102-111 | the MOD check reports only OK, TRUNCATED or UNSUPPORTED_FORMAT, and TRUNCATED exactly below 1084 bytes |
| `VtxParser.HeaderStatus` | core/src/vtx_module_parser.c:141-153 | never INVALID_ARGUMENT for a buffer; UNSUPPORTED_FORMAT only for 1084 bytes or more without the XM magic, once both checks declined |
| `VtxParser.XmStatusOkIffPreamble` | core/src/vtx_module_parser.c:66-85 | the legacy XM check reports OK exactly where the ModuleCore XM preamble checks pass |
| `VtxParser.ModStatusOkIffModuleCore` | core/src/vtx_module_parser.c:102-111 | the legacy MOD check reports OK exactly where the ModuleCore MOD parser succeeds |
| `VtxParser.ParseXm` | core/src/vtx_module_parser.c:66-100 | the result code follows the checks in order; on OK the summary is the ModuleCore XM fields; otherwise the record is untouched |
| `VtxParser.ParseMod` | core/src/vtx_module_parser.c:102-134 | the result code is the legacy MOD check's; on OK the summary is the legacy MOD record; otherwise the record is untouched |
| `VtxParser.ParseModuleHeader` | core/src/vtx_module_parser.c:136-154 | a NULL argument gives INVALID_ARGUMENT; otherwise the XM code unless it is UNSUPPORTED_FORMAT, then the MOD code; only OK writes the record |
| `VtxParser.ShortBuffersTruncated` | core/src/vtx_module_parser.c:66-70 | every buffer under 80 bytes is TRUNCATED, so the MOD check is never reached |
| `VtxParser.OnlyUnsupportedFallsThrough` | core/src/vtx_module_parser.c:145-153 | the MOD check decides exactly when the buffer has at least 80 bytes without the XM magic |
| `VtxParser.XmMagicNeverFallsThrough` | core/src/vtx_module_parser.c:71-85 | with the XM magic a bad marker or small header size gives INVALID_DATA and a short buffer TRUNCATED, never a MOD |
| `VtxParser.LegacyModChannels` | core/src/vtx_module_parser.c:113-118 | an unknown signature keeps 0 channels (ModuleCore says 4); for a known one both summaries agree |
| `VtxParser.LegacyMinimalModFixture` | tests/ModuleParserTests.swift:6-16 | the built MOD gives OK with format "MOD", title "TEST MOD", 4 channels, 1 pattern, 31 instruments, song length 1 |
| `VtxParser.LegacyMinimalXmFixture` | tests/ModuleParserTests.swift:18-30 | the legacy parser reads the built XM as OK with format "XM", "TEST XM", version 1.04, 4 channels, 1 pattern, 1 instrument, song length 1 |
| `ModuleFile.ParseBytes` | core/ModuleCore/src/module_types.c:80-93 | the result is an XM exactly when the XM parser accepts, and a MOD exactly when only the MOD parser accepts |
| `ModuleFile.ParseModuleBytes` | core/ModuleCore/src/module_types.c:80-93 | the XM-then-MOD dispatch returns `ParseBytes` whatever the scratch record held before |
| `ModuleFile.ParseFile` | core/ModuleCore/src/module_types.c:34-94 | a NULL or empty path gives the "invalid path" error; any other path parses the file's bytes |
| `ModuleFile.ParseBytesOutcome` | core/ModuleCore/src/module_types.c:80-93 | ok exactly when one parser accepts; ok exactly when the error is empty; ok implies a known type; failure is the "unsupported or invalid module header" record |
| `ModuleFile.XmPreferred` | core/ModuleCore/src/module_types.c:80-90 | XM wins whenever the XM parser accepts; the MOD record is returned only after an XM rejection |
| `ModuleFile.ShortInputRejected` | core/ModuleCore/src/module_types.c:80-93 | any input under 80 bytes is rejected with a non-empty error |
| `ModuleFile.ThreeByteFileRejected` | tests/core/ModuleCoreTests.swift:34-42 | the 3-byte file is rejected with a non-empty error |
| `ModuleFile.MinimalModThroughDispatch` | tests/core/ModuleCoreTests.swift:6-17 | the built MOD reads, through the dispatch, as MOD titled "TEST MOD" with 4 channels, 1 pattern, 31 instruments, song length 1 |
| `ModuleFile.MinimalXmThroughDispatch` | tests/core/ModuleCoreTests.swift:19-32 | the built XM reads, through the dispatch, as XM "TEST XM", version 1.04, 4 channels, 1 pattern, 1 instrument, song length 1 |
| `ModuleFile.CoreXmAgreesWithLegacy` | core/ModuleCore/src/module_types.c:80-84 | whatever ModuleCore reads as XM, the legacy parser reports OK with the same type name and shared fields |
| `ModuleFile.CoreModAgreesWithLegacy` | core/ModuleCore/src/module_types.c:86-90 | without the XM magic both accept the same bytes as MOD, and their records differ at most in an unknown signature's channel count |
| `ModuleFile.XmMagicMarkerDivergence` | core/src/vtx_module_parser.c:145-151 | a well-formed MOD with the XM magic but a bad marker is INVALID_DATA to the legacy parser and a MOD to ModuleCore |
| `ModuleFile.XmBodyFailureDivergence` | core/src/vtx_module_parser.c:87-99 | when the XM preamble passes but a pattern or instrument header fails, the legacy parser reports OK with an XM summary, while ModuleCore returns no XM: a MOD if the MOD parser accepts, otherwise the error |
| `ModuleFile.TruncatedInstrumentDivergence` | core/ModuleCore/src/xm_header.c:113-123 | the built XM cut before its instrument header is an OK XM to the legacy parser and the "unsupported or invalid module header" error to ModuleCore |
| `PatternSelection.PatternSelection` | app/VoodooTrackerX/VoodooTrackerXTests/VoodooTrackerXTests.swift:68-119 | every offered index names a pattern in `0..<patternCount`; the list is empty exactly when the count is 0 or negative; every invalid reference is an order entry outside the range |
| `PatternSelection.RowCountFor` | app/VoodooTrackerX/VoodooTrackerXTests/VoodooTrackerXTests.swift:93 | every offered entry shows at least one row |
| `PatternSelection.ScanOrderTable` | app/VoodooTrackerX/VoodooTrackerXTests/VoodooTrackerXTests.swift:79-88 | the order-table loop builds the first-occurrence list of in-range entries, the matching set, and the out-of-range entries |
| `PatternSelection.UsedOrderExact` | app/VoodooTrackerX/VoodooTrackerXTests/VoodooTrackerXTests.swift:79-88 | the used list has no duplicates and holds exactly the in-range order entries |
| `PatternSelection.InvalidRefsExact` | app/VoodooTrackerX/VoodooTrackerXTests/VoodooTrackerXTests.swift:79-88 | the invalid list holds each out-of-range value as often as the order table does, and nothing else, in table order |
| `PatternSelection.InvalidRefsElements` | app/VoodooTrackerX/VoodooTrackerXTests/VoodooTrackerXTests.swift:79-88 | a value is reported invalid exactly when the order table holds it and it names no pattern |
| `PatternSelection.SortAscendingSorts` | app/VoodooTrackerX/VoodooTrackerXTests/VoodooTrackerXTests.swift:103 | `sorted()` returns an ascending permutation of its input |
| `PatternSelection.SortedDistinctIsStrict` | app/VoodooTrackerX/VoodooTrackerXTests/VoodooTrackerXTests.swift:103 | sorting a duplicate-free list gives a strictly ascending one |
| `PatternSelection.AscendingDeterminedByElements` | app/VoodooTrackerX/VoodooTrackerXTests/VoodooTrackerXTests.swift:103 | two strictly ascending lists with the same elements are equal |
| `PatternSelection.ListAllPatterns` | app/VoodooTrackerX/VoodooTrackerXTests/VoodooTrackerXTests.swift:91-100 | the show-all loop lists every pattern in order, marked used when the order table names it |
| `PatternSelection.ListUsedPatterns` | app/VoodooTrackerX/VoodooTrackerXTests/VoodooTrackerXTests.swift:103-112 | the used-only loop emits one used entry per sorted index |
| `PatternSelection.BuildPatternSelection` | app/VoodooTrackerX/VoodooTrackerXTests/VoodooTrackerXTests.swift:68-119 | the method returns the selection `PatternSelection` specifies |
| `PatternSelection.UsedSelection` | app/VoodooTrackerX/VoodooTrackerXTests/VoodooTrackerXTests.swift:102-117 | without show-all: the distinct in-range entries in strictly ascending order, all used; pattern 0 marked unused when none is used; nothing for no patterns |
| `PatternSelection.ShowAllSelection` | app/VoodooTrackerX/VoodooTrackerXTests/VoodooTrackerXTests.swift:91-101 | with show-all: exactly `0..<patternCount`, used exactly when the order table names the pattern |
| `PatternSelection.RowCountsAtLeastOne` | app/VoodooTrackerX/VoodooTrackerXTests/VoodooTrackerXTests.swift:93-115 | every entry's row count is `max(1, rowCounts[i])`, or 64 past the table |
| `PatternSelection.DeduplicatesAndTracksInvalid` | app/VoodooTrackerX/VoodooTrackerXTests/VoodooTrackerXTests.swift:126-137 | order table [0,2,2,5,1,0] over 4 patterns offers 0, 1, 2, all used, and flags 5 |
| `PatternSelection.ShowAllMarksUsed` | app/VoodooTrackerX/VoodooTrackerXTests/VoodooTrackerXTests.swift:139-149 | show-all over [2,2,0] offers 0..3 marked used, unused, used, unused |
| `Cursor.FieldFromRaw` | app/VoodooTrackerX/VoodooTrackerXTests/VoodooTrackerXTests.swift:14-20 | a raw value names a field exactly when it is in 0..4, and that field's raw value is the input |
| `Cursor.FieldRawRoundTrip` | app/VoodooTrackerX/VoodooTrackerXTests/VoodooTrackerXTests.swift:14-20 | a field's raw value reads back as the field |
| `Cursor.Moved` | app/VoodooTrackerX/VoodooTrackerXTests/VoodooTrackerXTests.swift:27-59 | after any move the channel lies inside the pattern; after a horizontal move the whole cursor does, whatever the page step |
| `Cursor.PatternCursor.constructor` | app/VoodooTrackerX/VoodooTrackerXTests/VoodooTrackerXTests.swift:22-25 | a new cursor holds the given row, channel and field |
| `Cursor.PatternCursor.Move` | app/VoodooTrackerX/VoodooTrackerXTests/VoodooTrackerXTests.swift:27-59 | the new cursor is `Moved` of the old one: clamp, then apply the command |
| `Cursor.MovedStaysInBounds` | app/VoodooTrackerX/VoodooTrackerXTests/VoodooTrackerXTests.swift:27-43 | after any move, with a non-negative page step, the cursor lies inside the pattern |
| `Cursor.NegativePageStepEscapes` | app/VoodooTrackerX/VoodooTrackerXTests/VoodooTrackerXTests.swift:36-39 | with a negative page step, PageUp from row 0 lands on row 100 of a 64-row pattern, outside it, because the step is not clamped |
| `Cursor.VerticalMovesKeepColumn` | app/VoodooTrackerX/VoodooTrackerXTests/VoodooTrackerXTests.swift:28-43 | vertical moves keep the field and the clamped channel |
| `Cursor.HorizontalMovesWithinCell` | app/VoodooTrackerX/VoodooTrackerXTests/VoodooTrackerXTests.swift:44-57 | left and right keep the row; inside a cell they step to the adjacent field in the same channel |
| `Cursor.HorizontalMovesWrap` | app/VoodooTrackerX/VoodooTrackerXTests/VoodooTrackerXTests.swift:44-57 | left off the note goes to the previous channel's effect parameter, right off the effect parameter to the next channel's note; at the first and last channel nothing changes |
| `Cursor.LeftUndoesRight` | app/VoodooTrackerX/VoodooTrackerXTests/VoodooTrackerXTests.swift:44-57 | inside the pattern, left undoes right except at the last field of the last channel |
| `Cursor.HorizontalMovesScenario` | app/VoodooTrackerX/VoodooTrackerXTests/VoodooTrackerXTests.swift:151-167 | the four horizontal moves of the test, each made through the class in a 64-row, 4-channel pattern, give the cursors the test expects: staying put at the first and last field, and wrapping right into the next channel and left into the previous one |

## Left out

- The fixture files `minimal.mod` and `minimal.xm` that the Swift tests load (tests/core/ModuleCoreTests.swift:44-46, tests/ModuleParserTests.swift:32-34) are not part of this model. Their size, pattern data, instrument headers and sample names are unknown. The fixture lemmas check the tests' assertions on buffers built to satisfy them (`MinimalMod`, `MinimalXm`), which may differ from the real files in everything the tests do not assert.
- File I/O in `mc_parse_file` is not modelled (core/ModuleCore/src/module_types.c:45-78). This covers opening, seeking, telling, allocating and reading, and the error messages for their failures. The file's contents are a parameter.
- NULL `data` or `out_info` arguments to the two ModuleCore parsers are not modelled, because a byte sequence cannot be NULL. The only NULL `mc_parse_file` can pass is the buffer of an empty file; both parsers reject it at their NULL check (core/ModuleCore/src/xm_header.c:37, core/ModuleCore/src/mod_header.c:70), and the model rejects the empty sequence on its size, with the same result.
- `ModuleTypes.McError` models only the non-NULL message that every caller passes; a NULL message is not modelled.
- `XmParser.ParseXmHeaderBytes` does not state the exact record left after a failure that follows the preamble checks. The source leaves a partially filled record there. The contract states only that the record is an OK XM record; `mc_parse_file` discards it anyway.
- The XM instrument's sample count is read and left unused by `ReadFirstInstrumentName`, as in the source. The source's final advance of the cursor past the instrument header is not modelled, because nothing reads the cursor afterwards.
- Entries of the fixed arrays beyond their count fields are not modelled. These are `order_table[256]` and `pattern_row_counts[64]`. The `memset` zeroes them, and the model keeps only the counted prefix as a sequence.
- Integer widths of `size_t`, `long` and Swift's `Int` are taken as unbounded. The Swift row and channel arithmetic cannot overflow for realistic pattern sizes.
- `XmParser.WalkPatternHeaders` advances by the unwrapped sum of header length and packed size. In the source (core/ModuleCore/src/xm_header.c:109-110) that sum is a `uint32_t` and wraps when the header length is within 65535 of 2^32. Only a buffer over 4 GiB can pass the check at line 106 with such a length, so the model does not capture the wrap.
- `XmParser.FillXmInfo` copies at most the bytes that follow offset 80 into the order table. The source copies `min(song_length, 256)` bytes unconditionally (line 79) and can read past the buffer; see "## Findings".
- `Cursor.MovedStaysInBounds` requires a non-negative page step. The source does not check the sign, and a negative step moves PageUp and PageDown past the clamps; `Cursor.NegativePageStepEscapes` exhibits one such move.
- `PatternCursor` is a Swift struct with value semantics. It is modelled as a class, so copying a cursor is not modelled.
- Swift's `sorted()` is modelled as an insertion sort, which is specified only by its result: an ascending permutation.
- The XM pattern decoder and MOD pattern data are not part of this model, nor is the application's metadata loader.

## Findings

| source | as written | input that shows it | evidently intended | confidence | as-written member | corrected member |
|---|---|---|---|---|---|---|
| core/ModuleCore/src/xm_header.c:75-79 | copies `min(song_length, 256)` bytes from offset 80; the only size check before it is `size >= 60 + header_size`, which 80 bytes can meet | an 80-byte buffer with the magic, the 0x1A marker, header size 20 and song length 1 passes every check; the copy then reads byte 80 | copy no more than the bytes that follow offset 80 | high; not executed | `XmParser.XmOrderCopyLengthAsWritten`, `XmParser.XmOrderCopyOverrunsBuffer` | `XmParser.XmOrderTableLength` |
