/**
 * The dispatch of `mc_parse_file` (core/ModuleCore/src/module_types.c): the
 * XM parser first, then the MOD parser, the first success returned with its
 * error cleared, and an error record when both reject the bytes.
 *
 * The file is given as the bytes a complete read would deliver; opening,
 * seeking, allocating and reading are not modelled. How the core and the
 * legacy parser (core/src/vtx_module_parser.c) relate on the same bytes is
 * stated at the end.
 */
module ModuleFile {
  import opened Bytes
  import opened ModCommon
  import opened ModuleTypes
  import opened XmParser
  import opened ModParser
  import opened VtxParser

  const InvalidPathMessage: string := "invalid path"
  const UnsupportedMessage: string := "unsupported or invalid module header"

  /** The record `mc_parse_file` returns once the file's bytes are in memory. */
  function ParseBytes(data: seq<uint8>): (info: ModuleInfo)
    ensures info.kind == Xm <==> XmHeader(data).Some?
    ensures info.kind == Mod <==> XmHeader(data).None? && ModHeader(data).Some?
  {
    var xm := XmHeader(data);
    if xm.Some? then xm.value.(error := "")
    else
      var m := ModHeader(data);
      if m.Some? then m.value.(error := "")
      else McError(UnsupportedMessage)
  }

  /**
   * The dispatch over the bytes. `scratch` stands for the uninitialised local
   * record whose address both parsers receive: a failed XM parse may leave
   * fields in it, but the result never depends on it.
   */
  method ParseModuleBytes(data: seq<uint8>, scratch: ModuleInfo) returns (info: ModuleInfo)
    ensures info == ParseBytes(data)
  {
    var ok;
    ok, info := ParseXmHeaderBytes(data, scratch);
    if ok {
      info := info.(error := "");
      return;
    }
    ok, info := ParseModHeaderBytes(data, info);
    if ok {
      info := info.(error := "");
      return;
    }
    info := McError(UnsupportedMessage);
  }

  /**
   * `mc_parse_file` with a NULL path as `None`. For any other path, `contents`
   * are the bytes the file yields; the I/O failures are not modelled.
   */
  method ParseFile(path: Option<string>, contents: seq<uint8>, scratch: ModuleInfo) returns (info: ModuleInfo)
    ensures path.None? || path.value == "" ==> info == McError(InvalidPathMessage)
    ensures path.Some? && path.value != "" ==> info == ParseBytes(contents)
  {
    if path.None? || path.value == "" {
      return McError(InvalidPathMessage);
    }
    info := ParseModuleBytes(contents, scratch);
  }

  /**
   * The outcome is reported consistently: success exactly when one of the two
   * parsers accepts, with a known type and an empty error; failure as the
   * error record, whose message is never empty.
   */
  lemma ParseBytesOutcome(data: seq<uint8>)
    ensures var info := ParseBytes(data);
      && (info.ok <==> XmHeader(data).Some? || ModHeader(data).Some?)
      && (info.ok <==> info.error == "")
      && (info.ok ==> info.kind != Unknown)
      && (!info.ok ==> info == McError(UnsupportedMessage) && info.error == UnsupportedMessage)
  {
    if XmHeader(data).Some? {
      XmHeaderFieldOffsets(data);
    } else if ModHeader(data).Some? {
      ModHeaderFields(data);
    } else {
      assert |UnsupportedMessage| < MessageCapacity;
    }
  }

  /**
   * The XM parser has priority: bytes it accepts are an XM whatever the MOD
   * parser would say, and the MOD record is returned only when the XM parser
   * rejects. Clearing the error changes nothing in either record.
   */
  lemma XmPreferred(data: seq<uint8>)
    ensures XmHeader(data).Some? ==> ParseBytes(data) == XmHeader(data).value && ParseBytes(data).kind == Xm
    ensures XmHeader(data).None? && ModHeader(data).Some? ==>
      ParseBytes(data) == ModHeader(data).value && ParseBytes(data).kind == Mod
  {
    if XmHeader(data).Some? {
      XmHeaderFieldOffsets(data);
    } else if ModHeader(data).Some? {
      ModHeaderFields(data);
    }
  }

  /** Anything shorter than the 80-byte XM preamble is rejected, the 3-byte file of the test among them. */
  lemma ShortInputRejected(data: seq<uint8>)
    requires |data| < XmMinHeader
    ensures ParseBytes(data) == McError(UnsupportedMessage)
    ensures !ParseBytes(data).ok && ParseBytes(data).error != ""
  {
    XmHeaderRejects(data);
  }

  /** The test's 3-byte file. */
  lemma ThreeByteFileRejected()
    ensures var info := ParseBytes([0x00, 0x01, 0x02]);
      !info.ok && info.error == UnsupportedMessage
  {
    ShortInputRejected([0x00, 0x01, 0x02]);
  }

  /** The built MOD reads, through the dispatch, as the test expects: a MOD titled "TEST MOD". */
  lemma MinimalModThroughDispatch()
    ensures var info := ParseBytes(MinimalMod());
      && info.ok && TypeName(info.kind.Code()) == "MOD"
      && info.title == [0x54, 0x45, 0x53, 0x54, 0x20, 0x4D, 0x4F, 0x44]
      && info.channels == 4 && info.patterns == 1 && info.instruments == 31 && info.songLength == 1
  {
    var d := MinimalMod();
    assert d[..17] != XmMagic by {
      assert d[0] != XmMagic[0];
    }
    XmHeaderRejects(d);
    MinimalModFixture();
  }

  /** The built XM reads, through the dispatch, as the test expects. */
  lemma MinimalXmThroughDispatch()
    ensures var info := ParseBytes(MinimalXm());
      && info.ok && TypeName(info.kind.Code()) == "XM" && info.title == TestXmTitle
      && info.versionMajor == 1 && info.versionMinor == 4
      && info.channels == 4 && info.patterns == 1 && info.instruments == 1 && info.songLength == 1
  {
    MinimalXmFixture();
  }

  /**
   * Where the core reads an XM, the legacy parser also reports OK, with the
   * same type name and the same shared fields.
   */
  lemma CoreXmAgreesWithLegacy(data: seq<uint8>, prior: HeaderInfo)
    requires XmHeader(data).Some?
    ensures HeaderStatus(data) == Ok
    ensures HeaderRecord(data, prior) == Summary(ParseBytes(data))
  {
    assert XmPreambleOk(data);
    XmStatusOkIffPreamble(data);
    var walk := PatternHeaders(data, XmHeaderEnd(data), XmFields(data).patterns).value;
    XmHeaderFromWalk(data, walk);
  }

  /**
   * Without the XM magic in the first 80 bytes both implementations leave
   * the decision to their MOD check: they accept the same bytes, and the
   * records differ at most in the channel count of an unknown signature.
   */
  lemma CoreModAgreesWithLegacy(data: seq<uint8>, prior: HeaderInfo)
    requires |data| < XmMinHeader || data[..17] != XmMagic
    ensures HeaderStatus(data) == Ok <==> ParseBytes(data).ok
    ensures ParseBytes(data).ok ==>
      && ParseBytes(data).kind == Mod
      && HeaderRecord(data, prior) ==
           Summary(ParseBytes(data)).(channels := ChannelsFromSig(data[SignatureOffset..ModHeaderSize]))
  {
    XmHeaderRejects(data);
    ParseBytesOutcome(data);
    ModStatusOkIffModuleCore(data);
    if ModHeader(data).Some? {
      ModHeaderFields(data);
    }
  }

  /**
   * Where the two disagree: a buffer with the XM magic but a bad marker byte,
   * which is also a well-formed MOD, is INVALID_DATA to the legacy parser but
   * a MOD to the core, whose XM rejection lets the MOD parser run.
   */
  lemma XmMagicMarkerDivergence(data: seq<uint8>)
    requires |data| >= ModHeaderSize && data[..17] == XmMagic && data[37] != XmMarker
    requires ModHeader(data).Some?
    ensures HeaderStatus(data) == InvalidData
    ensures ParseBytes(data).ok && ParseBytes(data).kind == Mod
  {
    XmHeaderRejects(data);
    XmPreferred(data);
  }

  /**
   * The other way round: the preamble passes but a pattern header or the
   * first instrument header does not. The legacy parser stops after the
   * preamble and reports an XM; the core rejects the XM and falls back to
   * the MOD parser or the error record.
   */
  lemma XmBodyFailureDivergence(data: seq<uint8>, prior: HeaderInfo)
    requires XmPreambleOk(data) && XmHeader(data).None?
    ensures HeaderStatus(data) == Ok && HeaderRecord(data, prior) == Summary(XmFields(data))
    ensures HeaderRecord(data, prior).format == "XM"
    ensures ParseBytes(data).kind != Xm
    ensures ParseBytes(data).ok <==> ModHeader(data).Some?
  {
    XmStatusOkIffPreamble(data);
    ParseBytesOutcome(data);
  }

  /**
   * The built XM cut off before its instrument header: an OK XM to the
   * legacy parser, the "unsupported or invalid module header" error to the core.
   */
  lemma TruncatedInstrumentDivergence()
    ensures var d := MinimalXm()[..345];
      && XmPreambleOk(d) && XmHeader(d).None?
      && HeaderStatus(d) == Ok && HeaderRecord(d, ZeroHeader()).format == "XM"
      && ParseBytes(d) == McError(UnsupportedMessage)
  {
    var d := MinimalXm()[..345];
    MinimalXmPrefixWalk(d);
    var walk := PatternWalk([PatternHeader(336, 9, 64, 0)], 345);
    XmHeaderFromWalk(d, walk);
    XmBodyFailureDivergence(d, ZeroHeader());
    ParseBytesOutcome(d);
  }
}
