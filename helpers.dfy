/**
 * The frame and record encoders of the test helpers (`build_dl_data`,
 * `build_packet`, `build_30a_packet`, `build_50a_packet`), taking the raw
 * integers that the float arguments of the Python test helpers are scaled to. They are
 * the inverse of the decoder: what they lay out is what `ParseStep` and
 * `ParseDlData` read back.
 */
module Builders {
  import opened Bytes
  import opened Protocol
  import opened Framing

  /** Raw output voltage of `build_dl_data`'s default 122.0 V. */
  const DEFAULT_OUTPUT_VOLTAGE_RAW: int := 1_220_000

  /** A signed field written at offset `k` is read back at `k`. */
  lemma I32BEAt(r: seq<byte>, k: nat, v: int)
    requires IsI32(v) && k + 4 <= |r|
    requires r[k..k + 4] == EncodeI32BE(v)
    ensures I32BE(r, k) == v
  {
    var e := EncodeI32BE(v);
    var w := r[k..k + 4];
    assert r[k] == w[0] && r[k + 1] == w[1] && r[k + 2] == w[2] && r[k + 3] == w[3];
    U32BEOfSameBytes(r, e, k, 0);
  }

  /**
   * `build_dl_data`: one 34-byte DLData block with the measurements at the
   * offsets the decoder reads, reserved word 0, backlight 5, neutral 0,
   * boost 1 or 0, temperature 25, then the error code and the status.
   */
  function BuildDlData(voltage: int, current: int, power: int, energy: int, outputVoltage: int,
                       frequency: int, error: byte, status: byte, boost: bool): (r: seq<byte>)
    requires IsI32(voltage) && IsI32(current) && IsI32(power) && IsI32(energy)
    requires IsI32(outputVoltage) && IsI32(frequency)
    ensures |r| == DL_DATA_SIZE
    ensures r[24] == 5 && r[25] == 0 && r[27] == 25
    ensures (r[26] == 1) == boost
    ensures r[32] == error && r[33] == status
  {
    EncodeI32BE(voltage) + EncodeI32BE(current) + EncodeI32BE(power) + EncodeI32BE(energy)
    + EncodeI32BE(0) + EncodeI32BE(outputVoltage) + [5, 0, if boost then 1 else 0, 25]
    + EncodeI32BE(frequency) + [error, status]
  }

  /**
   * Every measurement of an encoded block sits, as a big-endian signed 32-bit
   * field, at the offset the decoder reads it from.
   */
  lemma BuildDlDataLayout(voltage: int, current: int, power: int, energy: int, outputVoltage: int,
                          frequency: int, error: byte, status: byte, boost: bool)
    requires IsI32(voltage) && IsI32(current) && IsI32(power) && IsI32(energy)
    requires IsI32(outputVoltage) && IsI32(frequency)
    ensures var r := BuildDlData(voltage, current, power, energy, outputVoltage, frequency, error, status, boost);
            I32BE(r, 0) == voltage && I32BE(r, 4) == current && I32BE(r, 8) == power &&
            I32BE(r, 12) == energy && I32BE(r, 20) == outputVoltage && I32BE(r, 28) == frequency
  {
    var r := BuildDlData(voltage, current, power, energy, outputVoltage, frequency, error, status, boost);
    var a := EncodeI32BE(voltage) + EncodeI32BE(current) + EncodeI32BE(power) + EncodeI32BE(energy);
    var b := EncodeI32BE(0) + EncodeI32BE(outputVoltage) + [5, 0, if boost then 1 else 0, 25];
    var c := EncodeI32BE(frequency) + [error, status];
    assert r == a + b + c;
    assert r[0..4] == a[0..4] == EncodeI32BE(voltage);
    assert r[4..8] == a[4..8] == EncodeI32BE(current);
    assert r[8..12] == a[8..12] == EncodeI32BE(power);
    assert r[12..16] == a[12..16] == EncodeI32BE(energy);
    assert r[20..24] == b[4..8] == EncodeI32BE(outputVoltage);
    assert r[28..32] == c[0..4] == EncodeI32BE(frequency);
    I32BEAt(r, 0, voltage);
    I32BEAt(r, 4, current);
    I32BEAt(r, 8, power);
    I32BEAt(r, 12, energy);
    I32BEAt(r, 20, outputVoltage);
    I32BEAt(r, 28, frequency);
  }

  /**
   * Decoding an encoded block gives back exactly the encoded values, with
   * `boost` true iff it was encoded true.
   */
  lemma ParseBuiltDlData(voltage: int, current: int, power: int, energy: int, outputVoltage: int,
                         frequency: int, error: byte, status: byte, boost: bool)
    requires IsI32(voltage) && IsI32(current) && IsI32(power) && IsI32(energy)
    requires IsI32(outputVoltage) && IsI32(frequency)
    ensures ParseDlData(BuildDlData(voltage, current, power, energy, outputVoltage, frequency, error, status, boost), 0)
            == Line(voltage, current, power, energy, outputVoltage, frequency, error, status, boost)
  {
    BuildDlDataLayout(voltage, current, power, energy, outputVoltage, frequency, error, status, boost);
  }

  /**
   * `build_packet`: identifier, version 1, message id 0, the command, the
   * body length (big-endian), the body and the tail 0x7121.
   */
  function BuildPacket(cmd: byte, body: seq<byte>): (r: seq<byte>)
    requires |body| < TWO_16
    ensures |r| == HEADER_SIZE + |body| + TAIL_SIZE
    ensures U32BE(r, 0) == PACKET_IDENTIFIER
    ensures r[4] == 1 && r[5] == 0 && r[6] == cmd
    ensures U16BE(r, 7) == |body|
    ensures r[HEADER_SIZE..HEADER_SIZE + |body|] == body
    ensures U16BE(r, |r| - TAIL_SIZE) == PACKET_TAIL
  {
    var ident := EncodeU32BE(PACKET_IDENTIFIER);
    var len := EncodeU16BE(|body|);
    var tail := EncodeU16BE(PACKET_TAIL);
    var r := ident + [1, 0, cmd] + len + body + tail;
    U32BEOfSameBytes(r, ident, 0, 0);
    U16BEOfSameBytes(r, len, 7, 0);
    U16BEOfSameBytes(r, tail, |r| - TAIL_SIZE, 0);
    assert r[HEADER_SIZE..HEADER_SIZE + |body|] == body;
    r
  }

  /** `build_30a_packet`: a DLReport frame with one line (boost off). */
  function Build30APacket(voltage: int, current: int, power: int, energy: int, outputVoltage: int,
                          frequency: int, error: byte, status: byte): (r: seq<byte>)
    requires IsI32(voltage) && IsI32(current) && IsI32(power) && IsI32(energy)
    requires IsI32(outputVoltage) && IsI32(frequency)
    ensures |r| == HEADER_SIZE + DL_DATA_SIZE + TAIL_SIZE
    ensures r[6] == CMD_DL_REPORT && U16BE(r, 7) == DL_DATA_SIZE
  {
    BuildPacket(CMD_DL_REPORT,
                BuildDlData(voltage, current, power, energy, outputVoltage, frequency, error, status, false))
  }

  /**
   * `build_50a_packet`: a DLReport frame with two lines, each with the
   * default output voltage, error 0, status 1 and boost off.
   */
  function Build50APacket(l1Voltage: int, l1Current: int, l1Power: int, l1Energy: int,
                          l2Voltage: int, l2Current: int, l2Power: int, l2Energy: int,
                          frequency: int): (r: seq<byte>)
    requires IsI32(l1Voltage) && IsI32(l1Current) && IsI32(l1Power) && IsI32(l1Energy)
    requires IsI32(l2Voltage) && IsI32(l2Current) && IsI32(l2Power) && IsI32(l2Energy)
    requires IsI32(frequency)
    ensures |r| == HEADER_SIZE + 2 * DL_DATA_SIZE + TAIL_SIZE
    ensures r[6] == CMD_DL_REPORT && U16BE(r, 7) == 2 * DL_DATA_SIZE
  {
    BuildPacket(CMD_DL_REPORT,
                TwoLineBody(l1Voltage, l1Current, l1Power, l1Energy, l2Voltage, l2Current, l2Power, l2Energy, frequency))
  }

  /** The 68-byte body of `build_50a_packet`: line 1's block, then line 2's. */
  function TwoLineBody(l1Voltage: int, l1Current: int, l1Power: int, l1Energy: int,
                       l2Voltage: int, l2Current: int, l2Power: int, l2Energy: int,
                       frequency: int): (r: seq<byte>)
    requires IsI32(l1Voltage) && IsI32(l1Current) && IsI32(l1Power) && IsI32(l1Energy)
    requires IsI32(l2Voltage) && IsI32(l2Current) && IsI32(l2Power) && IsI32(l2Energy)
    requires IsI32(frequency)
    ensures |r| == 2 * DL_DATA_SIZE
  {
    BuildDlData(l1Voltage, l1Current, l1Power, l1Energy, DEFAULT_OUTPUT_VOLTAGE_RAW, frequency, 0, 1, false)
    + BuildDlData(l2Voltage, l2Current, l2Power, l2Energy, DEFAULT_OUTPUT_VOLTAGE_RAW, frequency, 0, 1, false)
  }
}
