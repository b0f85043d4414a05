/**
 * The telemetry records of the Power Watchdog and the decoding of a DLReport
 * body (command 1) into them: `LineData`, `WatchdogData`, `_parse_dl_data`
 * and the length rules of `_parse_dl_report`.
 *
 * Measurements are kept as the raw signed 32-bit integers the device sends
 * (volts, amps, watts and kWh times 10 000, hertz times 100); the scaling to
 * rounded floats is not part of this model.
 */
module Protocol {
  import opened Bytes

  datatype Option<T> = None | Some(value: T)

  /** Size of one per-line DLData block. */
  const DL_DATA_SIZE: nat := 34

  const CMD_DL_REPORT: byte := 1
  const CMD_ERROR_REPORT: byte := 2
  const CMD_ALARM: byte := 14

  /** Telemetry of one AC line; every field is absent until the first decode. */
  datatype LineData = LineData(
    voltage: Option<int>,        // input voltage, raw (V x 10 000)
    current: Option<int>,        // raw (A x 10 000), negative for reverse flow
    power: Option<int>,          // raw (W x 10 000), negative for reverse flow
    energy: Option<int>,         // raw (kWh x 10 000)
    outputVoltage: Option<int>,  // raw (V x 10 000)
    frequency: Option<int>,      // raw (Hz x 100)
    errorCode: Option<byte>,
    status: Option<byte>,
    boost: Option<bool>)

  /** A line that has never been decoded. */
  const NoLine: LineData := LineData(None, None, None, None, None, None, None, None, None)

  /** A fully decoded line. */
  function Line(voltage: int, current: int, power: int, energy: int, outputVoltage: int,
                frequency: int, errorCode: byte, status: byte, boost: bool): LineData
  {
    LineData(Some(voltage), Some(current), Some(power), Some(energy), Some(outputVoltage),
             Some(frequency), Some(errorCode), Some(status), Some(boost))
  }

  /** The latest telemetry: line 1, line 2 and whether line 2 was reported. */
  datatype WatchdogData = WatchdogData(l1: LineData, l2: LineData, hasL2: bool)

  const NoData: WatchdogData := WatchdogData(NoLine, NoLine, false)

  /** The command byte of a frame, as the dispatcher tells them apart. */
  datatype Command = DlReport | ErrorReport | Alarm | Unknown(code: byte)

  function Code(c: Command): byte {
    match c
    case DlReport => CMD_DL_REPORT
    case ErrorReport => CMD_ERROR_REPORT
    case Alarm => CMD_ALARM
    case Unknown(b) => b
  }

  /** Classifies a command byte; classification loses nothing. */
  function Classify(b: byte): (c: Command)
    ensures Code(c) == b
    ensures c.Unknown? <==> b != CMD_DL_REPORT && b != CMD_ERROR_REPORT && b != CMD_ALARM
  {
    if b == CMD_DL_REPORT then DlReport
    else if b == CMD_ERROR_REPORT then ErrorReport
    else if b == CMD_ALARM then Alarm
    else Unknown(b)
  }

  /**
   * Decodes the 34-byte DLData block at `offset`: big-endian signed 32-bit
   * measurements at relative offsets 0, 4, 8, 12, 20 and 28, the boost flag
   * at 26, the error code at 32 and the status at 33. Bytes 16-19 (reserved),
   * 24 (backlight), 25 (neutral detection) and 27 (temperature) are not read.
   */
  function ParseDlData(body: seq<byte>, offset: nat): (l: LineData)
    requires offset + DL_DATA_SIZE <= |body|
    ensures l.voltage.Some? && l.current.Some? && l.power.Some? && l.energy.Some?
    ensures l.outputVoltage.Some? && l.frequency.Some?
    ensures IsI32(l.voltage.value) && IsI32(l.current.value) && IsI32(l.power.value)
    ensures IsI32(l.energy.value) && IsI32(l.outputVoltage.value) && IsI32(l.frequency.value)
    ensures l.boost == Some(body[offset + 26] == 1)
    ensures l.errorCode == Some(body[offset + 32]) && l.status == Some(body[offset + 33])
  {
    var o := offset;
    Line(I32BE(body, o), I32BE(body, o + 4), I32BE(body, o + 8), I32BE(body, o + 12),
         I32BE(body, o + 20), I32BE(body, o + 28), body[o + 32], body[o + 33], body[o + 26] == 1)
  }

  /** The offsets of a DLData block that the decoder reads. */
  predicate IsReadOffset(k: nat) {
    k < 16 || 20 <= k < 24 || k == 26 || 28 <= k < DL_DATA_SIZE
  }

  /** A block decodes the same at any offset: only its own 34 bytes matter. */
  lemma ParseDlDataLocal(body: seq<byte>, offset: nat)
    requires offset + DL_DATA_SIZE <= |body|
    ensures ParseDlData(body, offset) == ParseDlData(body[offset..offset + DL_DATA_SIZE], 0)
  {
    var b := body[offset..offset + DL_DATA_SIZE];
    forall k | k in [0, 4, 8, 12, 20, 28]
      ensures I32BE(body, offset + k) == I32BE(b, k)
    {
      U32BEOfSameBytes(body, b, offset + k, k);
    }
  }

  /**
   * Two blocks that agree on every byte the decoder reads decode to the same
   * line: the reserved word and the backlight, neutral-detection and
   * temperature bytes have no effect.
   */
  lemma ParseDlDataIgnoresUnreadBytes(a: seq<byte>, b: seq<byte>)
    requires |a| == DL_DATA_SIZE && |b| == DL_DATA_SIZE
    requires forall k :: 0 <= k < DL_DATA_SIZE && IsReadOffset(k) ==> a[k] == b[k]
    ensures ParseDlData(a, 0) == ParseDlData(b, 0)
  {
    forall k | k in [0, 4, 8, 12, 20, 28]
      ensures I32BE(a, k) == I32BE(b, k)
    {
      assert IsReadOffset(k) && IsReadOffset(k + 1) && IsReadOffset(k + 2) && IsReadOffset(k + 3);
      U32BEOfSameBytes(a, b, k, k);
    }
    assert IsReadOffset(26) && IsReadOffset(32) && IsReadOffset(33);
  }

  /**
   * The effect of a DLReport body on the telemetry: a 34-byte body replaces
   * line 1 and clears `hasL2` (line 2 is kept as it was); a 68-byte body
   * replaces both lines and sets `hasL2`; any other length is rejected
   * (`None`), leaving the telemetry untouched.
   */
  function DecodeDlReport(data: WatchdogData, body: seq<byte>): (r: Option<WatchdogData>)
    ensures r.Some? <==> |body| == DL_DATA_SIZE || |body| == 2 * DL_DATA_SIZE
    ensures r.Some? ==> r.value.l1 == ParseDlData(body[..DL_DATA_SIZE], 0)
    ensures r.Some? ==> r.value.hasL2 == (|body| == 2 * DL_DATA_SIZE)
    ensures r.Some? ==> r.value.l2 == if |body| == DL_DATA_SIZE then data.l2
                                      else ParseDlData(body[DL_DATA_SIZE..], 0)
  {
    if |body| == DL_DATA_SIZE then
      ParseDlDataLocal(body, 0);
      Some(data.(l1 := ParseDlData(body, 0), hasL2 := false))
    else if |body| == DL_DATA_SIZE * 2 then
      ParseDlDataLocal(body, 0);
      ParseDlDataLocal(body, DL_DATA_SIZE);
      assert body[DL_DATA_SIZE..DL_DATA_SIZE + DL_DATA_SIZE] == body[DL_DATA_SIZE..];
      Some(data.(l1 := ParseDlData(body, 0), l2 := ParseDlData(body, DL_DATA_SIZE), hasL2 := true))
    else
      None
  }
}
