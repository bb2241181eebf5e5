/**
 * `mc_parse_mod_header_bytes` (core/ModuleCore/src/mod_header.c): the size
 * and signature checks, the signature to channel-count mapping with its
 * 4-channel default, the song fields, the order table, the first sample's
 * descriptor and the pattern count derived from the order table.
 *
 * `ModHeader` is the specification; `ParseModHeaderBytes` is the parser step
 * by step, proved equal to it.
 */
module ModParser {
  import opened Bytes
  import opened Trim
  import opened ModCommon
  import opened ModuleTypes

  const UnknownSignatureWarning: string := "unknown MOD signature, defaulting to 4 channels"
  /** A ProTracker MOD always declares 31 sample slots. */
  const ModInstruments: uint16 := 31
  /** Where the first sample descriptor starts: right after the 20-byte title. */
  const FirstSampleOffset: nat := 20

  /** `read_be_u16_words_as_bytes`: a big-endian length in 16-bit words, in bytes. */
  function BeWordsAsBytes(data: seq<uint8>, off: nat): (n: uint32)
    requires off + 2 <= |data|
    ensures n == 2 * BeU16(data, off)
    ensures n % 2 == 0 && n < 0x2_0000
  {
    (data[off] as int * 0x100 + data[off + 1] as int) * 2
  }

  /** A length written as words reads back as twice that many bytes. */
  lemma BeWordsAsBytesRoundTrip(words: uint16)
    ensures BeWordsAsBytes(EncodeBeU16(words), 0) == 2 * words
  {
    BeU16RoundTrip(words);
  }

  /** `mod_finetune_from_nibble`: the low nibble read as a signed 4-bit value. */
  function FinetuneFromNibble(v: uint8): (r: int)
    ensures -8 <= r <= 7
    ensures (r - v) % 16 == 0
  {
    var nibble := v % 0x10;
    if nibble >= 8 then nibble - 16 else nibble
  }

  /**
   * The high nibble is ignored, and every finetune -8..7 is the decoding of
   * exactly one nibble: its two's complement low four bits.
   */
  lemma FinetuneNibbleRoundTrip(v: uint8, r: int)
    requires -8 <= r <= 7
    ensures FinetuneFromNibble(v) == FinetuneFromNibble(v % 0x10)
    ensures FinetuneFromNibble((r % 0x10) as uint8) == r
    ensures FinetuneFromNibble(v) == r <==> v % 0x10 == r % 0x10
  {
  }

  /** The first sample descriptor: name at 20 (22 bytes), length words at 42, finetune at 44, volume at 45. */
  function FirstSample(data: seq<uint8>): SampleInfo
    requires |data| >= ModHeaderSize
  {
    SampleInfo(
      Trimmed(data[FirstSampleOffset..FirstSampleOffset + 22], NameCapacity),
      BeWordsAsBytes(data, FirstSampleOffset + 22),
      FinetuneFromNibble(data[FirstSampleOffset + 24]),
      data[FirstSampleOffset + 25])
  }

  /** The order entries the parser scans and copies. */
  function ModOrders(data: seq<uint8>): (orders: seq<uint8>)
    requires |data| >= ModHeaderSize
    ensures |orders| == OrderEntries(data[SongLengthOffset])
  {
    data[OrderTableOffset..OrderTableOffset + OrderEntries(data[SongLengthOffset])]
  }

  /** The two checks made before anything is written. */
  predicate ModPreambleOk(data: seq<uint8>)
  {
    |data| >= ModHeaderSize && PrintableSig(data[SignatureOffset..ModHeaderSize])
  }

  /** What `mc_parse_mod_header_bytes` accepts, and the record it produces. */
  function ModHeader(data: seq<uint8>): (r: Option<ModuleInfo>)
    ensures r.Some? <==> |data| >= ModHeaderSize && PrintableSig(data[SignatureOffset..ModHeaderSize])
    ensures r.Some? ==> r.value.ok && r.value.kind == Mod && r.value.error == ""
  {
    if ModPreambleOk(data) then Some(ModFields(data)) else None
  }

  /** The record `mc_parse_mod_header_bytes` fills once its checks have passed. */
  function ModFields(data: seq<uint8>): (info: ModuleInfo)
    requires ModPreambleOk(data)
    ensures info.ok && info.kind == Mod && info.error == ""
    ensures 1 <= info.channels <= 99 && info.instruments == 31 && 1 <= info.patterns <= 256
  {
    var sigChannels := ChannelsFromSig(data[SignatureOffset..ModHeaderSize]);
    var orders := ModOrders(data);
    ZeroInfo().(
      kind := Mod, ok := true,
      title := Trimmed(data[..20], TitleCapacity),
      channels := if sigChannels == 0 then 4 else sigChannels,
      warning := if sigChannels == 0 then UnknownSignatureWarning else "",
      instruments := ModInstruments,
      songLength := data[SongLengthOffset], restartPosition := data[RestartOffset],
      orderTable := orders,
      firstModSample := FirstSample(data),
      patterns := MaxOrder(orders) as int + 1)
  }

  /**
   * `mc_parse_mod_header_bytes` as the source runs it. The out record is
   * passed in as `prior` and returned as `info`; both checks come before the
   * `memset`, so a rejected buffer leaves it untouched.
   */
  method ParseModHeaderBytes(data: seq<uint8>, prior: ModuleInfo) returns (ok: bool, info: ModuleInfo)
    ensures ok == ModHeader(data).Some?
    ensures ok ==> info == ModHeader(data).value
    ensures !ok ==> info == prior
  {
    info, ok := prior, false;
    if |data| < ModHeaderSize {
      return;
    }
    var sig := data[SignatureOffset..ModHeaderSize];
    var printable := IsPrintableSig(sig);
    if !printable {
      return;
    }
    info := FillModInfo(data);
    ok := true;
  }

  /** The part of `mc_parse_mod_header_bytes` after its checks: the `memset` and the assignments. */
  method FillModInfo(data: seq<uint8>) returns (info: ModuleInfo)
    requires ModPreambleOk(data)
    ensures info == ModFields(data)
  {
    var sig := data[SignatureOffset..ModHeaderSize];
    info := ZeroInfo();
    info := info.(kind := Mod, ok := true);
    var title := CopyTrimmed(data[..20], TitleCapacity);
    info := info.(title := title);
    info := info.(channels := ChannelsFromSig(sig));
    if info.channels == 0 {
      info := info.(channels := 4, warning := UnknownSignatureWarning);
    }
    info := info.(instruments := ModInstruments);
    info := info.(songLength := data[SongLengthOffset], restartPosition := data[RestartOffset]);
    var orderLength := info.songLength;
    if orderLength == 0 || orderLength > MaxModOrders {
      orderLength := MaxModOrders;
    }
    assert orderLength == OrderEntries(data[SongLengthOffset]);
    info := info.(orderTable := data[OrderTableOffset..OrderTableOffset + orderLength]);

    var name := CopyTrimmed(data[FirstSampleOffset..FirstSampleOffset + 22], NameCapacity);
    info := info.(firstModSample := SampleInfo(
      name,
      BeWordsAsBytes(data, FirstSampleOffset + 22),
      FinetuneFromNibble(data[FirstSampleOffset + 24]),
      data[FirstSampleOffset + 25]));

    var entries: nat := info.songLength;
    if entries == 0 || entries > MaxModOrders {
      entries := MaxModOrders;
    }
    assert entries == orderLength;
    var maxPattern := ScanMaxPattern(data[OrderTableOffset..OrderTableOffset + entries]);
    // `entries` is at least 1 here, so the source's `entries > 0 ? … : 0` always takes its first branch.
    var patterns: uint16 := 0;
    if entries > 0 {
      patterns := maxPattern as int + 1;
    }
    info := info.(patterns := patterns);
    assert info == ModFields(data) by {
      assert info.orderTable == ModOrders(data);
      assert info.patterns == MaxOrder(ModOrders(data)) as int + 1;
      assert info.firstModSample == FirstSample(data);
    }
  }

  /** The parser accepts exactly the buffers of at least 1084 bytes whose signature is printable. */
  lemma ModHeaderAccepts(data: seq<uint8>)
    ensures ModHeader(data).Some? <==>
      |data| >= ModHeaderSize && forall i :: SignatureOffset <= i < ModHeaderSize ==> 32 <= data[i] <= 126
  {
    if |data| >= ModHeaderSize {
      var sig := data[SignatureOffset..ModHeaderSize];
      assert forall i :: 0 <= i < 4 ==> sig[i] == data[SignatureOffset + i];
      assert PrintableSig(sig) <==> forall i :: SignatureOffset <= i < ModHeaderSize ==> 32 <= data[i] <= 126;
    }
  }

  /**
   * On success: type MOD, no error; the channel count of a recognised
   * signature and no warning, or 4 channels and the warning; 31 instruments;
   * the song length and restart bytes at 950 and 951; the clamped order table
   * copied from 952; and a pattern count one above the largest order entry, so
   * that every entry names an existing pattern and the last pattern is used.
   */
  lemma ModHeaderFields(data: seq<uint8>)
    requires ModHeader(data).Some?
    ensures var info := ModHeader(data).value;
      var sigChannels := ChannelsFromSig(data[SignatureOffset..ModHeaderSize]);
      && info.ok && info.kind == Mod && info.error == ""
      && (sigChannels != 0 ==> info.channels == sigChannels && info.warning == "")
      && (sigChannels == 0 ==> info.channels == 4 && info.warning == UnknownSignatureWarning)
      && 1 <= info.channels <= 99
      && info.instruments == 31
      && info.songLength == data[950] && info.restartPosition == data[951]
      && 1 <= |info.orderTable| <= 128
      && (1 <= data[950] <= 128 ==> |info.orderTable| == data[950])
      && info.orderTable == data[952..952 + |info.orderTable|]
      && 1 <= info.patterns <= 256
      && (forall k :: 0 <= k < |info.orderTable| ==> info.orderTable[k] < info.patterns)
      && (info.patterns == 1 || info.patterns - 1 in info.orderTable)
  {
    MaxOrderIsMaximum(ModOrders(data));
  }

  /**
   * The first sample: its name from the 22 bytes at 20, its length the
   * big-endian word count at 42 doubled, its finetune the signed low nibble of
   * byte 44 and its volume byte 45.
   */
  lemma ModFirstSampleFields(data: seq<uint8>)
    requires ModHeader(data).Some?
    ensures var s := ModHeader(data).value.firstModSample;
      && s.name == Trimmed(data[20..42], NameCapacity)
      && s.lengthBytes == 2 * (0x100 * data[42] as int + data[43] as int)
      && -8 <= s.finetune <= 7 && (s.finetune - data[44]) % 16 == 0
      && s.volume == data[45]
  {
  }

  /** A 1084-byte MOD: title "TEST MOD", song length 1, order entry 0, and the signature `sig`. */
  function ModWithSignature(sig: seq<uint8>): (data: seq<uint8>)
    requires |sig| == 4
    ensures |data| == ModHeaderSize && data[SignatureOffset..] == sig
  {
    var title: seq<uint8> := [0x54, 0x45, 0x53, 0x54, 0x20, 0x4D, 0x4F, 0x44];
    var body := seq(SignatureOffset, i requires 0 <= i < SignatureOffset =>
      if i < 8 then title[i] else if i == SongLengthOffset then 1 else 0);
    assert (body + sig)[SignatureOffset..] == sig;
    body + sig
  }

  /**
   * A MOD built to carry every value the MOD header tests at
   * tests/core/ModuleCoreTests.swift:6-17 and tests/ModuleParserTests.swift:6-16
   * assert, with signature "M.K."; the fixture file those tests load is not
   * part of this model.
   */
  function MinimalMod(): seq<uint8>
  {
    ModWithSignature(Tag("M.K."))
  }

  /** The built MOD reads as a 4-channel MOD with one pattern, 31 instruments and song length 1. */
  lemma MinimalModFixture()
    ensures var r := ModHeader(MinimalMod());
      && r.Some? && r.value.title == [0x54, 0x45, 0x53, 0x54, 0x20, 0x4D, 0x4F, 0x44]
      && r.value.channels == 4 && r.value.patterns == 1
      && r.value.instruments == 31 && r.value.songLength == 1 && r.value.warning == ""
  {
    var d := MinimalMod();
    assert d[SignatureOffset..ModHeaderSize] == Tag("M.K.");
    assert ModOrders(d) == [0];
    var raw := d[..20];
    assert raw == [0x54, 0x45, 0x53, 0x54, 0x20, 0x4D, 0x4F, 0x44] + seq(12, _ => 0);
    assert TrimmedLength(raw[..8]) == 8;
    TrimmedPaddingTail(raw, 8);
  }

  /** A buffer with signature "ZZZZ" still parses, as 4 channels with the warning. */
  lemma UnknownSignatureDefaultsToFour(data: seq<uint8>)
    requires |data| >= ModHeaderSize
    requires data[1080] == data[1081] == data[1082] == data[1083] == 'Z' as int
    ensures var r := ModHeader(data);
      r.Some? && r.value.ok && r.value.channels == 4 && r.value.warning == UnknownSignatureWarning
  {
    var sig := data[SignatureOffset..ModHeaderSize];
    assert sig[0] == 'Z' as int && sig[1] == 'Z' as int;
    assert ModHeader(data).Some? && ChannelsFromSig(sig) == 0;
    ModHeaderFields(data);
  }
}
