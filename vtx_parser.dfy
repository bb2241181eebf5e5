/**
 * The legacy header parser (core/src/vtx_module_parser.c): a smaller second
 * implementation of the XM and MOD header checks that reports one of five
 * result codes and fills a short summary record.
 *
 * `XmStatus`, `ModStatus` and `HeaderStatus` state which code each check
 * yields; the records are stated as projections of the ModuleCore records
 * (`XmFields`, `ModFields`), so the two implementations are related directly.
 */
module VtxParser {
  import opened Bytes
  import opened Trim
  import opened ModCommon
  import opened ModuleTypes
  import opened XmParser
  import opened ModParser

  /** `VTXParseResult`. */
  datatype ParseResult = Ok | InvalidArgument | UnsupportedFormat | Truncated | InvalidData
  {
    /** The C enumerator's value. */
    function Code(): int
    {
      match this
      case Ok => 0
      case InvalidArgument => 1
      case UnsupportedFormat => 2
      case Truncated => 3
      case InvalidData => 4
    }
  }

  /** `vtx_parse_result_string`: a fixed name per code, "unknown_error" for any other value. */
  function ResultString(code: int): (name: string)
    ensures name == "unknown_error" <==> code < 0 || code > 4
    ensures name == "ok" <==> code == Ok.Code()
  {
    if code == 0 then "ok"
    else if code == 1 then "invalid_argument"
    else if code == 2 then "unsupported_format"
    else if code == 3 then "truncated"
    else if code == 4 then "invalid_data"
    else "unknown_error"
  }

  /** The five names are distinct, so the name identifies the result. */
  lemma ResultStringIdentifiesResult(a: ParseResult, b: ParseResult)
    ensures ResultString(a.Code()) == ResultString(b.Code()) <==> a == b
  {
  }

  /** Every value outside the enumeration is named "unknown_error", which is no result's name. */
  lemma ResultStringOutOfRange(a: ParseResult, code: int)
    requires code < 0 || code > 4
    ensures ResultString(code) == "unknown_error" != ResultString(a.Code())
  {
  }

  /** `VTXModuleHeaderInfo`: the format name and six song fields. */
  datatype HeaderInfo = HeaderInfo(
    format: string,
    title: seq<uint8>,
    versionMajor: uint16,
    versionMinor: uint16,
    channels: uint16,
    patterns: uint16,
    instruments: uint16,
    songLength: uint16)

  /** The record after `zero_info`. */
  function ZeroHeader(): HeaderInfo
  {
    HeaderInfo("", [], 0, 0, 0, 0, 0, 0)
  }

  /** The legacy record's view of a ModuleCore record: its type name and the shared fields. */
  function Summary(m: ModuleInfo): HeaderInfo
  {
    HeaderInfo(TypeName(m.kind.Code()), m.title, m.versionMajor, m.versionMinor,
               m.channels, m.patterns, m.instruments, m.songLength)
  }

  /** The code `parse_xm` returns, in the order it makes its checks. */
  function XmStatus(data: seq<uint8>): (r: ParseResult)
    ensures r != InvalidArgument
    ensures r == UnsupportedFormat <==> |data| >= XmMinHeader && data[..17] != XmMagic
    ensures r == InvalidData ==> |data| >= XmMinHeader && data[..17] == XmMagic
  {
    if |data| < XmMinHeader then Truncated
    else if data[..17] != XmMagic then UnsupportedFormat
    else if data[37] != XmMarker then InvalidData
    else if LeU32(data, 60) < 20 then InvalidData
    else if |data| < 60 + LeU32(data, 60) then Truncated
    else Ok
  }

  /** `parse_xm` succeeds exactly where the ModuleCore XM preamble checks pass. */
  lemma XmStatusOkIffPreamble(data: seq<uint8>)
    ensures XmStatus(data) == Ok <==> XmPreambleOk(data)
  {
  }

  /** The code `parse_mod` returns. */
  function ModStatus(data: seq<uint8>): (r: ParseResult)
    ensures r != InvalidArgument && r != InvalidData
    ensures r == Truncated <==> |data| < ModHeaderSize
  {
    if |data| < ModHeaderSize then Truncated
    else if !PrintableSig(data[SignatureOffset..ModHeaderSize]) then UnsupportedFormat
    else Ok
  }

  /** `parse_mod` succeeds exactly where the ModuleCore MOD parser does. */
  lemma ModStatusOkIffModuleCore(data: seq<uint8>)
    ensures ModStatus(data) == Ok <==> ModHeader(data).Some?
  {
  }

  /** The record `parse_mod` fills: the ModuleCore one, but with the signature's own channel count. */
  function LegacyModInfo(data: seq<uint8>): HeaderInfo
    requires ModPreambleOk(data)
  {
    Summary(ModFields(data)).(channels := ChannelsFromSig(data[SignatureOffset..ModHeaderSize]))
  }

  /**
   * `parse_xm`. The out record is passed in as `prior`; every check comes
   * before `zero_info`, so a failed parse leaves it untouched. No pattern or
   * instrument data is read.
   */
  method ParseXm(data: seq<uint8>, prior: HeaderInfo) returns (result: ParseResult, info: HeaderInfo)
    ensures result == XmStatus(data)
    ensures result == Ok ==> info == Summary(XmFields(data))
    ensures result != Ok ==> info == prior
  {
    info := prior;
    if |data| < XmMinHeader {
      return Truncated, info;
    }
    if data[..17] != XmMagic {
      return UnsupportedFormat, info;
    }
    if data[37] != XmMarker {
      return InvalidData, info;
    }
    var headerSize := LeU32(data, 60);
    var totalHeader: nat := 60 + headerSize as int;
    if headerSize < 20 {
      return InvalidData, info;
    }
    if |data| < totalHeader {
      return Truncated, info;
    }

    info := ZeroHeader();
    info := info.(format := "XM");
    var title := CopyTrimmed(data[17..37], TitleCapacity);
    info := info.(title := title);
    var version := LeU16(data, 58);
    info := info.(versionMajor := (version / 0x100) % 0x100, versionMinor := version % 0x100);
    info := info.(songLength := LeU16(data, 64));
    info := info.(channels := LeU16(data, 68), patterns := LeU16(data, 70), instruments := LeU16(data, 72));
    result := Ok;
  }

  /** `parse_mod`: the checks, then the summary with the max-pattern scan. */
  method ParseMod(data: seq<uint8>, prior: HeaderInfo) returns (result: ParseResult, info: HeaderInfo)
    ensures result == ModStatus(data)
    ensures result == Ok ==> ModPreambleOk(data) && info == LegacyModInfo(data)
    ensures result != Ok ==> info == prior
  {
    info := prior;
    if |data| < ModHeaderSize {
      return Truncated, info;
    }
    var sig := data[SignatureOffset..ModHeaderSize];
    var printable := IsPrintableSig(sig);
    if !printable {
      return UnsupportedFormat, info;
    }

    info := ZeroHeader();
    info := info.(format := "MOD");
    var title := CopyTrimmed(data[..20], TitleCapacity);
    info := info.(title := title);
    info := info.(channels := ChannelsFromSig(sig));
    info := info.(songLength := data[SongLengthOffset]);
    info := info.(instruments := ModInstruments);

    var entries: nat := info.songLength;
    if entries == 0 || entries > MaxModOrders {
      entries := MaxModOrders;
    }
    assert entries == OrderEntries(data[SongLengthOffset]);
    var maxPattern := ScanMaxPattern(data[OrderTableOffset..OrderTableOffset + entries]);
    // As in the ModuleCore parser, `entries` is at least 1, so `entries > 0 ? … : 0` takes its first branch.
    var patterns: uint16 := 0;
    if entries > 0 {
      patterns := maxPattern as int + 1;
    }
    info := info.(patterns := patterns);
    result := Ok;
  }

  /**
   * The code `vtx_parse_module_header` returns for a non-NULL buffer: the XM
   * code unless it is UNSUPPORTED_FORMAT, in which case the MOD code.
   */
  function HeaderStatus(data: seq<uint8>): (r: ParseResult)
    ensures r != InvalidArgument
    ensures r == UnsupportedFormat ==> |data| >= ModHeaderSize && data[..17] != XmMagic
  {
    var xm := XmStatus(data);
    if xm == Ok || xm == Truncated || xm == InvalidData then xm else ModStatus(data)
  }

  /** The record after `vtx_parse_module_header`, starting from `prior`. */
  function HeaderRecord(data: seq<uint8>, prior: HeaderInfo): HeaderInfo
  {
    if XmStatus(data) == Ok then Summary(XmFields(data))
    else if XmStatus(data) == UnsupportedFormat && ModStatus(data) == Ok then LegacyModInfo(data)
    else prior
  }

  /**
   * `vtx_parse_module_header`. A NULL buffer is `None`, a NULL out pointer
   * `outPresent == false`; either gives INVALID_ARGUMENT without touching the
   * record.
   */
  method ParseModuleHeader(data: Option<seq<uint8>>, outPresent: bool, prior: HeaderInfo)
    returns (result: ParseResult, info: HeaderInfo)
    ensures data.None? || !outPresent ==> result == InvalidArgument && info == prior
    ensures data.Some? && outPresent ==>
      result == HeaderStatus(data.value) && info == HeaderRecord(data.value, prior)
    ensures result != Ok ==> info == prior
  {
    if data.None? || !outPresent {
      return InvalidArgument, prior;
    }
    var xm;
    xm, info := ParseXm(data.value, prior);
    if xm == Ok {
      return xm, info;
    }
    if xm == Truncated || xm == InvalidData {
      return xm, info;
    }
    result, info := ParseMod(data.value, info);
  }

  /** Every buffer shorter than 80 bytes is TRUNCATED: the MOD parser is never tried. */
  lemma ShortBuffersTruncated(data: seq<uint8>)
    requires |data| < XmMinHeader
    ensures HeaderStatus(data) == Truncated
  {
  }

  /**
   * The MOD parser decides only when the XM parser reports UNSUPPORTED_FORMAT,
   * which happens exactly when the buffer has at least 80 bytes and lacks the XM magic.
   */
  lemma OnlyUnsupportedFallsThrough(data: seq<uint8>)
    ensures XmStatus(data) == UnsupportedFormat <==> |data| >= XmMinHeader && data[..17] != XmMagic
    ensures XmStatus(data) != UnsupportedFormat ==> HeaderStatus(data) == XmStatus(data)
    ensures XmStatus(data) == UnsupportedFormat ==> HeaderStatus(data) == ModStatus(data)
  {
  }

  /**
   * A buffer that carries the XM magic is never read as a MOD, however it
   * fails: a wrong marker or a header size below 20 gives INVALID_DATA.
   */
  lemma XmMagicNeverFallsThrough(data: seq<uint8>)
    requires |data| >= XmMinHeader && data[..17] == XmMagic
    ensures HeaderStatus(data) == XmStatus(data) != UnsupportedFormat
    ensures data[37] != XmMarker ==> HeaderStatus(data) == InvalidData
    ensures data[37] == XmMarker && LeU32(data, 60) < 20 ==> HeaderStatus(data) == InvalidData
    ensures data[37] == XmMarker && LeU32(data, 60) >= 20 && |data| < 60 + LeU32(data, 60) ==>
      HeaderStatus(data) == Truncated
  {
  }

  /**
   * Unlike the ModuleCore parser, an unknown signature is kept as 0 channels;
   * for a known one both parsers report the same summary.
   */
  lemma LegacyModChannels(data: seq<uint8>)
    requires ModPreambleOk(data)
    ensures var sigChannels := ChannelsFromSig(data[SignatureOffset..ModHeaderSize]);
      && LegacyModInfo(data).channels == sigChannels
      && (sigChannels == 0 ==> LegacyModInfo(data).channels == 0 && ModFields(data).channels == 4)
      && (sigChannels != 0 ==> LegacyModInfo(data) == Summary(ModFields(data)))
  {
  }

  /** The tests' assertions on the built MOD: it reads as a 4-channel MOD titled "TEST MOD" with 1 pattern, 31 instruments and song length 1. */
  lemma LegacyMinimalModFixture()
    ensures var d := MinimalMod();
      && HeaderStatus(d) == Ok
      && HeaderRecord(d, ZeroHeader()).format == "MOD"
      && HeaderRecord(d, ZeroHeader()).title == [0x54, 0x45, 0x53, 0x54, 0x20, 0x4D, 0x4F, 0x44]
      && HeaderRecord(d, ZeroHeader()).channels == 4 && HeaderRecord(d, ZeroHeader()).patterns == 1
      && HeaderRecord(d, ZeroHeader()).instruments == 31 && HeaderRecord(d, ZeroHeader()).songLength == 1
  {
    var d := MinimalMod();
    assert d[..17] != XmMagic by {
      assert d[0] != XmMagic[0];
    }
    MinimalModFixture();
    assert ChannelsFromSig(d[SignatureOffset..ModHeaderSize]) == 4;
  }

  /** The tests' assertions on the built XM: it reads as XM "TEST XM", version 1.04, 4 channels, 1 pattern, 1 instrument, song length 1. */
  lemma LegacyMinimalXmFixture()
    ensures var d := MinimalXm();
      && HeaderStatus(d) == Ok
      && HeaderRecord(d, ZeroHeader()) == HeaderInfo("XM", TestXmTitle, 1, 4, 4, 1, 1, 1)
  {
    MinimalXmFixture();
    XmStatusOkIffPreamble(MinimalXm());
  }
}
