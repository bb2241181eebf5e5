/**
 * `mc_parse_xm_header_bytes` (core/ModuleCore/src/xm_header.c): the XM
 * preamble checks, the little-endian song fields, the order table, the walk
 * over the pattern headers with a `ptr`/`remaining` cursor, and the name of
 * the first instrument.
 *
 * `XmHeader` is the specification: what the parser accepts and the record it
 * fills. `ParseXmHeaderBytes` is the parser itself, step by step, proved equal
 * to it. The order-table copy is the corrected one (see `XmOrderTableLength`).
 */
module XmParser {
  import opened Bytes
  import opened Trim
  import opened ModuleTypes

  const XmMinHeader: nat := 80
  /** "Extended Module: " */
  const XmMagic: seq<uint8> :=
    [0x45, 0x78, 0x74, 0x65, 0x6E, 0x64, 0x65, 0x64, 0x20, 0x4D, 0x6F, 0x64, 0x75, 0x6C, 0x65, 0x3A, 0x20]
  const XmMarker: uint8 := 0x1A
  const XmOrderTableOffset: nat := 80
  /** Shortest pattern header: length (4), packing type (1), rows (2), packed size (2). */
  const MinPatternHeader: nat := 9
  /** Shortest instrument header the parser reads a name from. */
  const MinInstrumentHeader: nat := 29

  /**
   * The checks made before anything is written: at least 80 bytes, the magic,
   * the 0x1A marker at offset 37, and a header size (LE u32 at 60) of at least
   * 20 whose end `60 + header_size` lies inside the buffer.
   */
  predicate XmPreambleOk(data: seq<uint8>)
  {
    && |data| >= XmMinHeader
    && data[..17] == XmMagic
    && data[37] == XmMarker
    && LeU32(data, 60) >= 20
    && 60 + LeU32(data, 60) <= |data|
  }

  /** `total_header`: where the first pattern header starts. */
  function XmHeaderEnd(data: seq<uint8>): (end: nat)
    requires XmPreambleOk(data)
    ensures XmMinHeader <= end <= |data|
  {
    60 + LeU32(data, 60)
  }

  /**
   * The number of order-table bytes copied from offset 80, as written:
   * `min(song_length, 256)`, with nothing tying it to the buffer's size.
   */
  function XmOrderCopyLengthAsWritten(data: seq<uint8>): (n: nat)
    requires XmPreambleOk(data)
    ensures n <= MaxOrderEntries
  {
    Min(LeU16(data, 64), MaxOrderEntries)
  }

  /**
   * The corrected copy length: as written, further capped by the bytes that
   * follow offset 80, so that the copy never reads past the end of the buffer.
   */
  function XmOrderTableLength(data: seq<uint8>): (n: nat)
    requires XmPreambleOk(data)
    ensures XmOrderTableOffset + n <= |data|
    ensures n <= MaxOrderEntries && n <= LeU16(data, 64)
  {
    Min(XmOrderCopyLengthAsWritten(data), |data| - XmOrderTableOffset)
  }

  /** An 80-byte XM preamble that passes every check and declares a song length of 1. */
  function ShortXmWithOneOrder(): seq<uint8>
  {
    XmMagic + seq(20, _ => 0) + [XmMarker] + seq(20, _ => 0) + [4, 1] + [20, 0, 0, 0] + [1, 0] + seq(14, _ => 0)
  }

  /**
   * The order-table copy as written reads past the buffer: the 80-byte input
   * above passes all the checks made before the copy, and the copy then reads
   * byte 80 of an 80-byte buffer.
   */
  lemma XmOrderCopyOverrunsBuffer()
    ensures var d := ShortXmWithOneOrder();
      XmPreambleOk(d) && XmOrderTableOffset + XmOrderCopyLengthAsWritten(d) > |d|
  {
    var d := ShortXmWithOneOrder();
    assert |d| == 80;
    assert d[..17] == XmMagic;
    assert d[37] == XmMarker;
    assert d[60..64] == [20, 0, 0, 0] && d[64..66] == [1, 0];
    assert LeU32(d, 60) == 20;
    assert LeU16(d, 64) == 1;
  }

  /**
   * The correction changes nothing where the copy as written stays inside the
   * buffer; elsewhere it copies exactly the bytes that exist.
   */
  lemma XmOrderTableCorrection(data: seq<uint8>)
    requires XmPreambleOk(data)
    ensures XmOrderTableOffset + XmOrderCopyLengthAsWritten(data) <= |data| ==>
      XmOrderTableLength(data) == XmOrderCopyLengthAsWritten(data)
    ensures XmOrderTableOffset + XmOrderCopyLengthAsWritten(data) > |data| ==>
      XmOrderTableOffset + XmOrderTableLength(data) == |data|
  {
  }

  /** The record after the preamble checks and the field assignments, before the pattern walk. */
  function XmFields(data: seq<uint8>): ModuleInfo
    requires XmPreambleOk(data)
  {
    var version := LeU16(data, 58);
    ZeroInfo().(
      kind := Xm, ok := true,
      title := Trimmed(data[17..37], TitleCapacity),
      versionMajor := version / 0x100, versionMinor := version % 0x100,
      songLength := LeU16(data, 64), restartPosition := LeU16(data, 66),
      channels := LeU16(data, 68), patterns := LeU16(data, 70), instruments := LeU16(data, 72),
      defaultTempo := LeU16(data, 76), defaultBpm := LeU16(data, 78),
      orderTable := data[XmOrderTableOffset..XmOrderTableOffset + XmOrderTableLength(data)])
  }

  /** One pattern header the walk accepted, and where it starts. */
  datatype PatternHeader = PatternHeader(offset: nat, headerLength: uint32, rowCount: uint16, packedSize: uint16)
  {
    /** Where the next pattern header starts: after this header and its packed body. */
    function Next(): nat { offset + headerLength + packedSize }
  }

  /** `h` is the pattern header found at `h.offset`, and it and its body lie inside the buffer. */
  predicate HeaderAt(data: seq<uint8>, h: PatternHeader)
  {
    && h.offset + MinPatternHeader <= |data|
    && h.headerLength == LeU32(data, h.offset)
    && h.headerLength >= MinPatternHeader
    && h.rowCount == LeU16(data, h.offset + 5)
    && h.packedSize == LeU16(data, h.offset + 7)
    && h.Next() <= |data|
  }

  datatype PatternWalk = PatternWalk(headers: seq<PatternHeader>, end: nat)

  function Prepend(done: seq<PatternHeader>, rest: Option<PatternWalk>): Option<PatternWalk>
  {
    match rest
    case None => None
    case Some(w) => Some(PatternWalk(done + w.headers, w.end))
  }

  /**
   * The walk over `count` pattern headers from `pos`: each must have 9 bytes
   * left for its fixed part, a length of at least 9 that fits, and room for its
   * packed body; the next starts right after that body.
   */
  function PatternHeaders(data: seq<uint8>, pos: nat, count: nat): (r: Option<PatternWalk>)
    requires pos <= |data|
    ensures r.Some? ==> |r.value.headers| == count && pos <= r.value.end <= |data|
    decreases count
  {
    if count == 0 then Some(PatternWalk([], pos))
    else if |data| - pos < MinPatternHeader then None
    else
      var headerLength := LeU32(data, pos);
      if headerLength < MinPatternHeader || |data| - pos < headerLength then None
      else
        var packedSize := LeU16(data, pos + 7);
        if |data| - pos < headerLength + packedSize then None
        else
          var h := PatternHeader(pos, headerLength, LeU16(data, pos + 5), packedSize);
          Prepend([h], PatternHeaders(data, h.Next(), count - 1))
  }

  /** The row counts of the first `n` headers. */
  function RowCounts(headers: seq<PatternHeader>, n: nat): (r: seq<uint16>)
    requires n <= |headers|
    ensures |r| == n && forall k :: 0 <= k < n ==> r[k] == headers[k].rowCount
  {
    seq(n, k requires 0 <= k < n => headers[k].rowCount)
  }

  /** Recording one more header's row count, or none, keeps the recorded prefix. */
  lemma RowCountsExtend(done: seq<PatternHeader>, h: PatternHeader, n: nat)
    requires n <= |done|
    ensures RowCounts(done + [h], n) == RowCounts(done, n)
    ensures n == |done| ==> RowCounts(done + [h], n + 1) == RowCounts(done, n) + [h.rowCount]
  {
  }

  /**
   * The first instrument's name, read when there is at least one instrument:
   * 29 bytes must remain at `pos`, and the instrument header size there must
   * be at least 29 and fit; the name is the 22 bytes at `pos + 4`.
   */
  function FirstInstrumentName(data: seq<uint8>, pos: nat, instruments: uint16): Option<seq<uint8>>
    requires pos <= |data|
  {
    if instruments == 0 then Some([])
    else if |data| - pos < MinInstrumentHeader then None
    else
      var instHeaderSize := LeU32(data, pos);
      if instHeaderSize < MinInstrumentHeader || |data| - pos < instHeaderSize then None
      else Some(Trimmed(data[pos + 4..pos + 26], NameCapacity))
  }

  /** What `mc_parse_xm_header_bytes` accepts, and the record it produces. */
  function XmHeader(data: seq<uint8>): (r: Option<ModuleInfo>)
    ensures r.Some? ==> XmPreambleOk(data) && r.value.ok && r.value.kind == Xm && r.value.error == ""
    ensures r.Some? ==> r.value.patterns == LeU16(data, 70) && r.value.instruments == LeU16(data, 72)
  {
    if !XmPreambleOk(data) then None
    else
      var fields := XmFields(data);
      match PatternHeaders(data, XmHeaderEnd(data), fields.patterns)
      case None => None
      case Some(walk) =>
        match FirstInstrumentName(data, walk.end, fields.instruments)
        case None => None
        case Some(name) =>
          Some(fields.(
            patternRowCounts := RowCounts(walk.headers, Min(fields.patterns, MaxPatternRowCounts)),
            firstInstrumentName := name))
  }

  /** Once the walk has succeeded, the parse stands or falls with the instrument name. */
  lemma XmHeaderFromWalk(data: seq<uint8>, walk: PatternWalk)
    requires XmPreambleOk(data)
    requires PatternHeaders(data, XmHeaderEnd(data), XmFields(data).patterns) == Some(walk)
    ensures walk.end <= |data| && |walk.headers| == XmFields(data).patterns
    ensures XmHeader(data) ==
      match FirstInstrumentName(data, walk.end, XmFields(data).instruments)
      case None => None
      case Some(name) =>
        Some(XmFields(data).(
          patternRowCounts := RowCounts(walk.headers, Min(XmFields(data).patterns, MaxPatternRowCounts)),
          firstInstrumentName := name))
  {
  }

  lemma PrependNothing(rest: Option<PatternWalk>)
    ensures Prepend([], rest) == rest
  {
    if rest.Some? {
      assert [] + rest.value.headers == rest.value.headers;
    }
  }

  lemma PrependAssoc(done: seq<PatternHeader>, more: seq<PatternHeader>, rest: Option<PatternWalk>)
    ensures Prepend(done, Prepend(more, rest)) == Prepend(done + more, rest)
  {
    if rest.Some? {
      assert done + (more + rest.value.headers) == (done + more) + rest.value.headers;
    }
  }

  /** One step of the walk: a header that passes the three checks is recorded and skipped. */
  lemma PatternHeadersStep(data: seq<uint8>, pos: nat, count: nat)
    requires pos + MinPatternHeader <= |data| && count > 0
    requires LeU32(data, pos) >= MinPatternHeader
    requires pos + LeU32(data, pos) + LeU16(data, pos + 7) <= |data|
    ensures PatternHeaders(data, pos, count)
      == Prepend([PatternHeader(pos, LeU32(data, pos), LeU16(data, pos + 5), LeU16(data, pos + 7))],
                 PatternHeaders(data, pos + LeU32(data, pos) + LeU16(data, pos + 7), count - 1))
  {
  }

  /**
   * Every header a successful walk records is the header found at its
   * offset; the first is at `pos`, each next one starts where the previous
   * header's packed body ends, and the walk ends where the last body ends.
   * So the walk never reads outside the buffer.
   */
  lemma {:induction false} PatternWalkShape(data: seq<uint8>, pos: nat, count: nat)
    requires pos <= |data|
    requires PatternHeaders(data, pos, count).Some?
    ensures var w := PatternHeaders(data, pos, count).value;
      && (forall k :: 0 <= k < count ==> HeaderAt(data, w.headers[k]))
      && (forall k :: 0 <= k < count - 1 ==> w.headers[k + 1].offset == w.headers[k].Next())
      && (count == 0 ==> w.end == pos)
      && (count > 0 ==> w.headers[0].offset == pos && w.end == w.headers[count - 1].Next())
    decreases count
  {
    if count > 0 {
      var h := PatternHeader(pos, LeU32(data, pos), LeU16(data, pos + 5), LeU16(data, pos + 7));
      var rest := PatternHeaders(data, h.Next(), count - 1).value;
      PatternWalkShape(data, h.Next(), count - 1);
      var w := PatternHeaders(data, pos, count).value;
      assert w.headers == [h] + rest.headers && w.end == rest.end by {
        PatternHeadersStep(data, pos, count);
      }
      assert HeaderAt(data, h);
      forall k | 1 <= k < count
        ensures HeaderAt(data, w.headers[k]) && w.headers[k].offset == w.headers[k - 1].Next()
      {
        assert w.headers[k] == rest.headers[k - 1];
      }
    }
  }

  /**
   * The recorded row counts are the LE u16 at offset 5 of the first
   * `min(patterns, 64)` pattern headers, which follow one another from the
   * end of the song header.
   */
  lemma XmRowCountsFromHeaders(data: seq<uint8>)
    requires XmHeader(data).Some?
    ensures var info := XmHeader(data).value;
      var w := PatternHeaders(data, XmHeaderEnd(data), info.patterns).value;
      && |info.patternRowCounts| == Min(info.patterns, MaxPatternRowCounts)
      && (info.patterns > 0 ==> w.headers[0].offset == XmHeaderEnd(data))
      && (forall k :: 0 <= k < info.patterns - 1 ==> w.headers[k + 1].offset == w.headers[k].Next())
      && (forall k :: 0 <= k < |info.patternRowCounts| ==>
            w.headers[k].offset + MinPatternHeader <= |data|
            && info.patternRowCounts[k] == LeU16(data, w.headers[k].offset + 5))
  {
    var info := XmHeader(data).value;
    PatternWalkShape(data, XmHeaderEnd(data), info.patterns);
  }

  /** The preamble checks, each of which alone makes the parser fail. */
  lemma XmHeaderRejects(data: seq<uint8>)
    ensures |data| < XmMinHeader ==> XmHeader(data).None?
    ensures |data| >= XmMinHeader && (data[..17] != XmMagic || data[37] != XmMarker) ==> XmHeader(data).None?
    ensures |data| >= XmMinHeader && (LeU32(data, 60) < 20 || 60 + LeU32(data, 60) > |data|) ==> XmHeader(data).None?
  {
  }

  /**
   * On success: type XM with no error or warning; the version bytes; the LE
   * u16 song fields at 64, 66, 68, 70, 72, 76 and 78; the order table copied
   * from offset 80; `min(patterns, 64)` row counts; no instrument name when
   * there are no instruments.
   */
  lemma XmHeaderFieldOffsets(data: seq<uint8>)
    requires XmHeader(data).Some?
    ensures var info := XmHeader(data).value;
      && info.ok && info.kind == Xm && info.error == "" && info.warning == ""
      && info.title == Trimmed(data[17..37], TitleCapacity)
      && info.versionMajor == data[59] && info.versionMinor == data[58]
      && info.songLength == LeU16(data, 64) && info.restartPosition == LeU16(data, 66)
      && info.channels == LeU16(data, 68) && info.patterns == LeU16(data, 70)
      && info.instruments == LeU16(data, 72)
      && info.defaultTempo == LeU16(data, 76) && info.defaultBpm == LeU16(data, 78)
      && |info.orderTable| == Min(Min(info.songLength, MaxOrderEntries), |data| - XmOrderTableOffset)
      && info.orderTable == data[XmOrderTableOffset..XmOrderTableOffset + |info.orderTable|]
      && |info.patternRowCounts| == Min(info.patterns, MaxPatternRowCounts)
      && (info.instruments == 0 ==> info.firstInstrumentName == [])
  {
  }

  /**
   * The pattern loop of `mc_parse_xm_header_bytes`: from `start`, check and
   * skip `patterns` headers and their packed bodies with a `ptr`/`remaining`
   * cursor, recording the row counts of the first 64. The row counts recorded
   * before a failure are returned too, as the source has already stored them.
   */
  method WalkPatternHeaders(data: seq<uint8>, start: nat, patterns: uint16)
    returns (ok: bool, ptr: nat, remaining: nat, rowCounts: seq<uint16>)
    requires start <= |data|
    ensures ok == PatternHeaders(data, start, patterns).Some?
    ensures ptr + remaining == |data|
    ensures |rowCounts| <= Min(patterns, MaxPatternRowCounts)
    ensures ok ==> var walk := PatternHeaders(data, start, patterns).value;
      ptr == walk.end && rowCounts == RowCounts(walk.headers, Min(patterns, MaxPatternRowCounts))
  {
    ptr, remaining := start, |data| - start;
    rowCounts := [];
    var rowCountCap := Min(patterns, MaxPatternRowCounts);
    ghost var walk := PatternHeaders(data, start, patterns);
    ghost var done: seq<PatternHeader> := [];
    PrependNothing(walk);
    var i: nat := 0;
    while i < patterns
      invariant 0 <= i <= patterns
      invariant ptr + remaining == |data|
      invariant |done| == i
      invariant rowCounts == RowCounts(done, Min(i, rowCountCap))
      invariant walk == Prepend(done, PatternHeaders(data, ptr, patterns - i))
    {
      if remaining < MinPatternHeader {
        return false, ptr, remaining, rowCounts;
      }
      var patHeaderLen := LeU32(data, ptr);
      if patHeaderLen < MinPatternHeader || remaining < patHeaderLen {
        return false, ptr, remaining, rowCounts;
      }
      var rowCount := LeU16(data, ptr + 5);
      var packedSize := LeU16(data, ptr + 7);
      if i < rowCountCap {
        rowCounts := rowCounts + [rowCount];
      }
      if remaining < patHeaderLen + packedSize {
        return false, ptr, remaining, rowCounts;
      }
      ghost var h := PatternHeader(ptr, patHeaderLen, rowCount, packedSize);
      RowCountsExtend(done, h, Min(i, rowCountCap));
      assert walk == Prepend(done + [h], PatternHeaders(data, h.Next(), patterns - (i + 1))) by {
        PatternHeadersStep(data, ptr, patterns - i);
        PrependAssoc(done, [h], PatternHeaders(data, h.Next(), patterns - (i + 1)));
      }
      done := done + [h];
      ptr := ptr + patHeaderLen + packedSize;
      remaining := remaining - (patHeaderLen + packedSize);
      i := i + 1;
    }
    assert done + [] == done;
    assert walk == Some(PatternWalk(done, ptr));
    ok := true;
  }

  /** The `memset` and the field-by-field assignments of a header whose preamble checks passed. */
  method FillXmInfo(data: seq<uint8>) returns (info: ModuleInfo)
    requires XmPreambleOk(data)
    ensures info == XmFields(data)
  {
    info := ZeroInfo();
    info := info.(kind := Xm, ok := true);
    var title := CopyTrimmed(data[17..37], TitleCapacity);
    info := info.(title := title);
    var version := LeU16(data, 58);
    info := info.(versionMajor := version / 0x100, versionMinor := version % 0x100);
    info := info.(songLength := LeU16(data, 64), restartPosition := LeU16(data, 66));
    info := info.(channels := LeU16(data, 68), patterns := LeU16(data, 70), instruments := LeU16(data, 72));
    info := info.(defaultTempo := LeU16(data, 76), defaultBpm := LeU16(data, 78));

    var orderLength := Min(info.songLength, MaxOrderEntries);
    // The copy as written stops here; the corrected copy also stops at the end of the buffer.
    orderLength := Min(orderLength, |data| - XmOrderTableOffset);
    info := info.(orderTable := data[XmOrderTableOffset..XmOrderTableOffset + orderLength]);
  }

  /**
   * `mc_parse_xm_header_bytes` as the source runs it: the preamble checks,
   * then `ReadXmTables`. The out record is passed in as `prior` and returned
   * as `info`; every check before the `memset` leaves it untouched.
   */
  method ParseXmHeaderBytes(data: seq<uint8>, prior: ModuleInfo) returns (ok: bool, info: ModuleInfo)
    ensures ok == XmHeader(data).Some?
    ensures ok ==> info == XmHeader(data).value
    ensures !XmPreambleOk(data) ==> !ok && info == prior
    ensures !ok && XmPreambleOk(data) ==> info.ok && info.kind == Xm
  {
    info, ok := prior, false;
    if |data| < XmMinHeader {
      return;
    }
    if data[..17] != XmMagic {
      return;
    }
    if data[37] != XmMarker {
      return;
    }
    var headerSize := LeU32(data, 60);
    if headerSize < 20 {
      return;
    }
    var totalHeader: nat := 60 + headerSize as int;
    if |data| < totalHeader {
      return;
    }

    assert XmPreambleOk(data);
    ok, info := ReadXmTables(data, totalHeader);
  }

  /**
   * The rest of `ParseXmHeaderBytes` once the preamble checks passed: the
   * fields, the pattern-header walk from `totalHeader`, then the first
   * instrument's name.
   */
  method ReadXmTables(data: seq<uint8>, totalHeader: nat) returns (ok: bool, info: ModuleInfo)
    requires XmPreambleOk(data) && totalHeader == XmHeaderEnd(data)
    ensures ok == XmHeader(data).Some?
    ensures ok ==> info == XmHeader(data).value
    ensures info.ok && info.kind == Xm
  {
    ok := false;
    info := FillXmInfo(data);
    var walked, ptr, remaining, rowCounts := WalkPatternHeaders(data, totalHeader, info.patterns);
    info := info.(patternRowCounts := rowCounts);
    if !walked {
      return;
    }
    ghost var walk := PatternHeaders(data, totalHeader, info.patterns).value;
    var found, name := ReadFirstInstrumentName(data, ptr, remaining, info.instruments);
    XmHeaderFromWalk(data, walk);
    if found {
      info := info.(firstInstrumentName := name);
      ok := true;
    }
  }

  /**
   * The instrument step of `mc_parse_xm_header_bytes`, at the cursor the
   * pattern loop left: with no instruments nothing is read and the name stays
   * empty; otherwise the header must have 29 bytes and a size that fits.
   */
  method ReadFirstInstrumentName(data: seq<uint8>, ptr: nat, remaining: nat, instruments: uint16)
    returns (found: bool, name: seq<uint8>)
    requires ptr + remaining == |data|
    ensures found == FirstInstrumentName(data, ptr, instruments).Some?
    ensures found ==> name == FirstInstrumentName(data, ptr, instruments).value
  {
    found, name := true, [];
    if instruments > 0 {
      if remaining < MinInstrumentHeader {
        return false, [];
      }
      var instHeaderSize := LeU32(data, ptr);
      if instHeaderSize < MinInstrumentHeader || remaining < instHeaderSize {
        return false, [];
      }
      name := CopyTrimmed(data[ptr + 4..ptr + 26], NameCapacity);
      // The sample count is read but not used yet: only the name is taken.
      var numSamples := LeU16(data, ptr + 27);
    }
  }

  /** "TEST XM" */
  const TestXmTitle: seq<uint8> := [0x54, 0x45, 0x53, 0x54, 0x20, 0x58, 0x4D]

  /** Bytes 58 to 79 of the built XM: version 0x0104, header size 276, then the song fields. */
  const MinimalXmSongFields: seq<uint8> :=
    [0x04, 0x01, 0x14, 0x01, 0x00, 0x00, 0x01, 0x00, 0x00, 0x00, 0x04, 0x00,
     0x01, 0x00, 0x01, 0x00, 0x00, 0x00, 0x06, 0x00, 0x7D, 0x00]

  /** An empty pattern's header: length 9, no packing, 64 rows, no packed data. */
  const EmptyPatternHeader: seq<uint8> := [0x09, 0x00, 0x00, 0x00, 0x00, 0x40, 0x00, 0x00, 0x00]

  /**
   * A 374-byte XM built to carry every value the XM header tests at
   * tests/core/ModuleCoreTests.swift:19-32 and tests/ModuleParserTests.swift:18-30
   * assert; the fixture file those tests load is not part of this model.
   * It has title "TEST XM", version 1.04, a
   * 276-byte header (song length 1, 4 channels, 1 pattern, 1 instrument), an
   * order table of zeros, one empty 64-row pattern and one 29-byte
   * instrument header with an empty name.
   */
  function MinimalXm(): seq<uint8>
  {
    XmMagic + (TestXmTitle + seq(13, _ => 0)) + [XmMarker] + seq(20, _ => 0) + MinimalXmSongFields
      + seq(256, _ => 0) + EmptyPatternHeader + ([0x1D, 0x00, 0x00, 0x00] + seq(25, _ => 0))
  }

  /** Where the pieces of the built XM lie. */
  lemma MinimalXmLayout()
    ensures var d := MinimalXm();
      && |d| == 374
      && d[..17] == XmMagic
      && d[17..37] == TestXmTitle + seq(13, _ => 0)
      && d[37] == XmMarker
      && d[58..80] == MinimalXmSongFields
      && d[336..345] == EmptyPatternHeader
      && d[345..349] == [0x1D, 0x00, 0x00, 0x00]
      && d[349..371] == seq(22, _ => 0)
  {
    var d := MinimalXm();
    var head := XmMagic + (TestXmTitle + seq(13, _ => 0)) + [XmMarker] + seq(20, _ => 0);
    assert |head| == 58;
    var tail := MinimalXmSongFields + seq(256, _ => 0) + EmptyPatternHeader + ([0x1D, 0x00, 0x00, 0x00] + seq(25, _ => 0));
    assert d == head + tail;
    assert d[58..80] == tail[..22];
    assert d[336..345] == tail[278..287];
    assert d[345..349] == tail[287..291];
    assert d[349..371] == tail[291..313];
  }

  /**
   * Any buffer that starts with the built XM's first 345 bytes (everything up to
   * the instrument header) passes the preamble and walks its one pattern.
   */
  lemma MinimalXmPrefixWalk(d: seq<uint8>)
    requires |d| >= 345 && d[..345] == MinimalXm()[..345]
    ensures XmPreambleOk(d) && XmHeaderEnd(d) == 336
    ensures LeU16(d, 58) == 0x0104 && LeU16(d, 64) == 1 && LeU16(d, 68) == 4
    ensures LeU16(d, 70) == 1 && LeU16(d, 72) == 1
    ensures d[17..37] == TestXmTitle + seq(13, _ => 0)
    ensures PatternHeaders(d, 336, 1) == Some(PatternWalk([PatternHeader(336, 9, 64, 0)], 345))
  {
    MinimalXmLayout();
    MinimalXmPrefixPreamble(d);
    MinimalXmPrefixPattern(d);
  }

  /** The preamble part of `MinimalXmPrefixWalk`: bytes 0 to 79. */
  lemma MinimalXmPrefixPreamble(d: seq<uint8>)
    requires |d| >= 345 && d[..345] == MinimalXm()[..345]
    ensures XmPreambleOk(d) && XmHeaderEnd(d) == 336
    ensures LeU16(d, 58) == 0x0104 && LeU16(d, 64) == 1 && LeU16(d, 68) == 4
    ensures LeU16(d, 70) == 1 && LeU16(d, 72) == 1
    ensures d[17..37] == TestXmTitle + seq(13, _ => 0)
  {
    var full := MinimalXm();
    MinimalXmLayout();
    assert d[..80] == full[..80];
    assert d[..17] == full[..17] && d[17..37] == full[17..37] && d[37] == full[37];
    assert d[58..80] == MinimalXmSongFields;
    assert d[60] == 0x14 && d[61] == 0x01 && d[62] == 0 && d[63] == 0;
    assert LeU32(d, 60) == 276;
    assert d[58] == 4 && d[59] == 1 && d[64] == 1 && d[65] == 0 && d[68] == 4 && d[69] == 0;
    assert d[70] == 1 && d[71] == 0 && d[72] == 1 && d[73] == 0;
  }

  /** The pattern part of `MinimalXmPrefixWalk`: the 9-byte header at 336. */
  lemma MinimalXmPrefixPattern(d: seq<uint8>)
    requires |d| >= 345 && d[..345] == MinimalXm()[..345]
    ensures PatternHeaders(d, 336, 1) == Some(PatternWalk([PatternHeader(336, 9, 64, 0)], 345))
  {
    var full := MinimalXm();
    MinimalXmLayout();
    assert d[336..345] == full[336..345] == EmptyPatternHeader;
    assert d[336] == 9 && d[337] == 0 && d[338] == 0 && d[339] == 0;
    assert d[341] == 0x40 && d[342] == 0 && d[343] == 0 && d[344] == 0;
    assert LeU32(d, 336) == 9 && LeU16(d, 341) == 64 && LeU16(d, 343) == 0;
    PatternHeadersStep(d, 336, 1);
    assert PatternHeaders(d, 345, 0) == Some(PatternWalk([], 345));
    assert [PatternHeader(336, 9, 64, 0)] + [] == [PatternHeader(336, 9, 64, 0)];
  }

  /** The built XM reads as the XM the tests expect: "TEST XM", version 1.04, 4 channels, one 64-row pattern, one instrument, song length 1. */
  lemma MinimalXmFixture()
    ensures var r := XmHeader(MinimalXm());
      && r.Some? && r.value.title == TestXmTitle
      && r.value.versionMajor == 1 && r.value.versionMinor == 4
      && r.value.channels == 4 && r.value.patterns == 1 && r.value.instruments == 1
      && r.value.songLength == 1 && r.value.patternRowCounts == [64]
  {
    var d := MinimalXm();
    MinimalXmLayout();
    MinimalXmPrefixWalk(d);
    var h := PatternHeader(336, 9, 64, 0);
    assert d[345..349] == [0x1D, 0x00, 0x00, 0x00];
    assert LeU32(d, 345) == 29;
    XmHeaderFromWalk(d, PatternWalk([h], 345));
    var raw := d[17..37];
    assert raw[..7] == TestXmTitle;
    assert TrimmedLength(TestXmTitle) == 7;
    TrimmedPaddingTail(raw, 7);
  }
}
