/**
 * The ModuleCore result record (`mc_module_info`), its all-zero state, the
 * error record built by `mc_error`, and `mc_module_type_name`.
 *
 * C character arrays become sequences of the bytes before their NUL; the
 * fixed 256-entry order table and 64-entry row-count table become sequences
 * whose length is the matching `*_length` / `*_count` field.
 */
module ModuleTypes {
  import opened Bytes

  datatype ModuleType = Unknown | Mod | Xm {
    /** The C enumerator's value. */
    function Code(): int {
      match this
      case Unknown => 0
      case Mod => 1
      case Xm => 2
    }
  }

  /** Capacities of the fixed-size fields of `mc_module_info`. */
  const MessageCapacity: nat := 128
  const TitleCapacity: nat := 21
  const NameCapacity: nat := 23
  const MaxOrderEntries: nat := 256
  const MaxPatternRowCounts: nat := 64

  /** `mc_mod_sample_metadata`: the first MOD sample descriptor. */
  datatype SampleInfo = SampleInfo(
    name: seq<uint8>,
    lengthBytes: uint32,
    finetune: int,
    volume: uint8)

  datatype ModuleInfo = ModuleInfo(
    kind: ModuleType,
    ok: bool,
    error: string,
    warning: string,
    title: seq<uint8>,
    firstInstrumentName: seq<uint8>,
    versionMajor: uint16,
    versionMinor: uint16,
    channels: uint16,
    patterns: uint16,
    instruments: uint16,
    songLength: uint16,
    restartPosition: uint16,
    defaultTempo: uint16,
    defaultBpm: uint16,
    orderTable: seq<uint8>,
    patternRowCounts: seq<uint16>,
    firstModSample: SampleInfo)

  /** The record after `memset(…, 0, …)`. */
  function ZeroInfo(): ModuleInfo
  {
    ModuleInfo(Unknown, false, "", "", [], [], 0, 0, 0, 0, 0, 0, 0, 0, 0, [], [], SampleInfo([], 0, 0, 0))
  }

  /**
   * `mc_error`: the zero record with `ok = 0`, type UNKNOWN and the message,
   * cut to the 127 characters that fit before the NUL of `error[128]`.
   * A NULL message leaves `error` empty, as the empty message does.
   */
  function McError(message: string): (info: ModuleInfo)
    ensures !info.ok && info.kind == Unknown
    ensures info == ZeroInfo().(error := info.error)
    ensures |info.error| == Min(|message|, MessageCapacity - 1)
    ensures info.error == message[..|info.error|]
  {
    ZeroInfo().(error := message[..Min(|message|, MessageCapacity - 1)])
  }

  /** `mc_module_type_name`: any value other than MOD or XM reads as "UNKNOWN". */
  function TypeName(code: int): (name: string)
    ensures name == "MOD" <==> code == Mod.Code()
    ensures name == "XM" <==> code == Xm.Code()
    ensures name == "MOD" || name == "XM" || name == "UNKNOWN"
  {
    if code == 1 then "MOD" else if code == 2 then "XM" else "UNKNOWN"
  }

  /** The three names are distinct, so the name identifies the type. */
  lemma TypeNameIdentifiesType(a: ModuleType, b: ModuleType)
    ensures TypeName(a.Code()) == TypeName(b.Code()) <==> a == b
  {
  }

  /** Codes outside the enumeration are named like UNKNOWN. */
  lemma TypeNameOutOfRange(code: int)
    requires code != 1 && code != 2
    ensures TypeName(code) == TypeName(Unknown.Code()) == "UNKNOWN"
  {
  }
}
