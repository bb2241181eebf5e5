/**
 * The pieces of the MOD layout that both MOD parsers share: the 4-byte
 * signature at offset 1080 (its printability test and the signature to
 * channel-count table) and the order-table scan that derives the pattern
 * count. The ModuleCore parser (`mod_header.c`) and the legacy parser
 * (`vtx_module_parser.c`) carry identical copies of these.
 */
module ModCommon {
  import opened Bytes

  /** Size of the fixed MOD preamble; the signature is its last four bytes. */
  const ModHeaderSize: nat := 1084
  const SignatureOffset: nat := 1080
  const SongLengthOffset: nat := 950
  const RestartOffset: nat := 951
  const OrderTableOffset: nat := 952
  const MaxModOrders: nat := 128

  /** Every signature byte is printable ASCII (32..126). */
  predicate PrintableSig(sig: seq<uint8>)
    requires |sig| == 4
  {
    forall i :: 0 <= i < 4 ==> 32 <= sig[i] <= 126
  }

  /** `is_printable_sig` / `is_mod_signature_printable`: the early-exit scan. */
  method IsPrintableSig(sig: seq<uint8>) returns (printable: bool)
    requires |sig| == 4
    ensures printable <==> PrintableSig(sig)
  {
    for i := 0 to 4
      invariant forall k :: 0 <= k < i ==> 32 <= sig[k] <= 126
    {
      if sig[i] < 32 || sig[i] > 126 {
        return false;
      }
    }
    return true;
  }

  /** The bytes of a 4-character ASCII tag. */
  function Tag(s: string): seq<uint8>
    requires |s| == 4 && forall i :: 0 <= i < 4 ==> s[i] as int < 0x80
  {
    [s[0] as int, s[1] as int, s[2] as int, s[3] as int]
  }

  /** `memcmp(sig, tag, 4) == 0`: the four bytes are the tag's four characters. */
  predicate SigIs(sig: seq<uint8>, tag: string)
    requires |sig| == 4 && |tag| == 4
  {
    sig[0] == tag[0] as int && sig[1] == tag[1] as int && sig[2] == tag[2] as int && sig[3] == tag[3] as int
  }

  /** `isdigit` on the ASCII range. */
  predicate IsDigit(b: uint8) { '0' as int <= b <= '9' as int }

  function DigitValue(b: uint8): nat
    requires IsDigit(b)
  {
    b - '0' as int
  }

  /** The two channel-tag letters that may follow 'C': 'H' or 'N'. */
  predicate IsHorN(b: uint8) { b == 'H' as int || b == 'N' as int }

  /**
   * `channels_from_sig` / `mod_channels_from_signature`: the known 4- and
   * 8-channel tags, then "nnCH"/"nnCN", then "nCH?"/"nCN?"; 0 when none matches.
   */
  function ChannelsFromSig(sig: seq<uint8>): (channels: uint16)
    requires |sig| == 4
    ensures channels <= 99
  {
    if SigIs(sig, "M.K.") || SigIs(sig, "M!K!") || SigIs(sig, "FLT4") || SigIs(sig, "4CHN") then 4
    else if SigIs(sig, "FLT8") || SigIs(sig, "8CHN") || SigIs(sig, "OKTA") || SigIs(sig, "CD81") then 8
    else if IsDigit(sig[0]) && IsDigit(sig[1]) && sig[2] == 'C' as int && IsHorN(sig[3]) then
      DigitValue(sig[0]) * 10 + DigitValue(sig[1])
    else if IsDigit(sig[0]) && sig[1] == 'C' as int && IsHorN(sig[2]) then
      DigitValue(sig[0])
    else 0
  }

  /** The conventional tag for an `n`-channel module: "nCHN" below 10, "nnCH" from 10. */
  function ChannelTag(n: nat): seq<uint8>
    requires 1 <= n <= 99
  {
    if n < 10 then ['0' as int + n, 'C' as int, 'H' as int, 'N' as int]
    else ['0' as int + n / 10, '0' as int + n % 10, 'C' as int, 'H' as int]
  }

  /** Decoding the conventional tag of any count from 1 to 99 gives that count back. */
  lemma ChannelTagRoundTrip(n: nat)
    requires 1 <= n <= 99
    ensures ChannelsFromSig(ChannelTag(n)) == n
  {
    var t := ChannelTag(n);
    if n >= 10 {
      assert t[0] != 'C' as int;
    }
  }

  /** The fixed table: the eight named tags and their channel counts. */
  lemma KnownTagChannels()
    ensures ChannelsFromSig(Tag("M.K.")) == 4 && ChannelsFromSig(Tag("M!K!")) == 4
    ensures ChannelsFromSig(Tag("FLT4")) == 4 && ChannelsFromSig(Tag("4CHN")) == 4
    ensures ChannelsFromSig(Tag("FLT8")) == 8 && ChannelsFromSig(Tag("8CHN")) == 8
    ensures ChannelsFromSig(Tag("OKTA")) == 8 && ChannelsFromSig(Tag("CD81")) == 8
  {
  }

  /** A tag that fits no rule maps to 0, e.g. "ZZZZ"; so does "0CHN", whose count is 0. */
  lemma UnknownTagsMapToZero()
    ensures ChannelsFromSig(Tag("ZZZZ")) == 0
    ensures ChannelsFromSig(Tag("0CHN")) == 0
  {
    assert Tag("ZZZZ")[0] == 'Z' as int;
    assert Tag("0CHN")[0] == '0' as int && Tag("0CHN")[1] == 'C' as int;
  }

  /**
   * How many order entries the MOD parsers read: the song length byte, unless
   * it is 0 or above 128, in which case the whole 128-entry table.
   */
  function OrderEntries(songLength: uint8): (entries: nat)
    ensures 1 <= entries <= MaxModOrders
    ensures entries == songLength || entries == MaxModOrders
    ensures 1 <= songLength <= MaxModOrders ==> entries == songLength
  {
    if songLength == 0 || songLength > 128 then 128 else songLength
  }

  /** The largest order entry scanned from the front, starting from 0. */
  function MaxOrder(orders: seq<uint8>): uint8
  {
    if |orders| == 0 then 0
    else
      var m := MaxOrder(orders[..|orders| - 1]);
      if orders[|orders| - 1] > m then orders[|orders| - 1] else m
  }

  /** `MaxOrder` is the maximum: no entry exceeds it, and it is 0 or one of the entries. */
  lemma {:induction false} MaxOrderIsMaximum(orders: seq<uint8>)
    ensures forall k :: 0 <= k < |orders| ==> orders[k] <= MaxOrder(orders)
    ensures MaxOrder(orders) == 0 || MaxOrder(orders) in orders
  {
    if |orders| > 0 {
      var prefix := orders[..|orders| - 1];
      MaxOrderIsMaximum(prefix);
      assert forall k :: 0 <= k < |prefix| ==> prefix[k] == orders[k];
    }
  }

  /** The `max_pattern` loop of both MOD parsers. */
  method ScanMaxPattern(orders: seq<uint8>) returns (maxPattern: uint8)
    ensures maxPattern == MaxOrder(orders)
  {
    maxPattern := 0;
    for i := 0 to |orders|
      invariant maxPattern == MaxOrder(orders[..i])
    {
      assert orders[..i + 1][..i] == orders[..i];
      var pattern := orders[i];
      if pattern > maxPattern {
        maxPattern := pattern;
      }
    }
    assert orders[..|orders|] == orders;
  }
}
