/**
 * `PowerWatchdogManager` without its Bluetooth connection: the registered
 * sensors, the latest telemetry and the packet reassembly buffer, updated in
 * place by the notification handler. Every method is proved to leave the
 * object in the state that the functions of module `Reassembly` describe.
 */
module Manager {
  import opened Bytes
  import opened Protocol
  import opened Framing
  import opened Reassembly

  class PowerWatchdogManager {
    var sensors: seq<Sensor>
    var data: WatchdogData
    var rxBuffer: seq<byte>
    /** Every `async_write_ha_state` call made on a registered sensor, in order. */
    var stateWrites: seq<Sensor>

    /** The part of the object the notification handler reads and changes. */
    function State(): Session
      reads this
    {
      Session(rxBuffer, data, stateWrites)
    }

    constructor ()
      ensures sensors == [] && data == NoData && rxBuffer == [] && stateWrites == []
    {
      sensors := [];
      data := NoData;
      rxBuffer := [];
      stateWrites := [];
    }

    /** `register_sensor`: the sensor is notified after every later report. */
    method RegisterSensor(sensor: Sensor)
      modifies this
      ensures sensors == old(sensors) + [sensor]
      ensures State() == old(State())
    {
      sensors := sensors + [sensor];
    }

    /** The `_rx_buffer.clear()` that `connect_loop` performs on every connection. */
    method ClearBuffer()
      modifies this
      ensures rxBuffer == []
      ensures sensors == old(sensors) && data == old(data) && stateWrites == old(stateWrites)
    {
      rxBuffer := [];
    }

    /**
     * `_notification_handler`: append the chunk, clear the buffer on overflow,
     * otherwise extract packets until a step has to wait.
     */
    method NotificationHandler(raw: seq<byte>)
      modifies this
      ensures sensors == old(sensors)
      ensures State() == Feed(old(State()), sensors, raw)
    {
      rxBuffer := rxBuffer + raw;
      if |rxBuffer| > MAX_BUFFER_SIZE {
        rxBuffer := [];
        return;
      }
      ghost var target := Drain(State(), sensors);
      var more := true;
      while more
        invariant sensors == old(sensors)
        invariant more ==> Drain(State(), sensors) == target
        invariant !more ==> State() == target
        decreases |rxBuffer| + (if more then 1 else 0)
      {
        more := TryParsePacket();
      }
    }

    /**
     * `_try_parse_packet`: one extraction step. Returns whether bytes were
     * consumed beyond resynchronisation (false: more data is needed).
     */
    method TryParsePacket() returns (consumed: bool)
      modifies this
      ensures sensors == old(sensors)
      ensures consumed == !ParseStep(old(rxBuffer)).outcome.NeedMoreData?
      ensures State() == Dispatch(ParseStep(old(rxBuffer)).outcome,
                                  old(State()).(rx := ParseStep(old(rxBuffer)).rest), sensors)
    {
      SkipToIdentifier();
      ghost var synced := rxBuffer;
      ghost var step := ParseStep(old(rxBuffer));
      assert synced == Resync(old(rxBuffer));
      assert step == ParseFrame(synced);
      ParseFrameCases(synced);

      if |rxBuffer| < HEADER_SIZE {
        assert step == Step(NeedMoreData, rxBuffer);
        return false;
      }
      var cmd := rxBuffer[6];
      var dataLen := U16BE(rxBuffer, 7);
      if dataLen > MAX_BUFFER_SIZE {
        rxBuffer := rxBuffer[4..];
        assert step == Step(InvalidLength, rxBuffer);
        return true;
      }
      var totalLen := HEADER_SIZE + dataLen + TAIL_SIZE;
      if |rxBuffer| < totalLen {
        assert step == Step(NeedMoreData, rxBuffer);
        return false;
      }
      var body := rxBuffer[HEADER_SIZE..HEADER_SIZE + dataLen];
      var tail := U16BE(rxBuffer, HEADER_SIZE + dataLen);
      rxBuffer := rxBuffer[totalLen..];
      if tail != PACKET_TAIL {
        assert step == Step(BadTail, rxBuffer);
        return true;
      }
      assert step == Step(Frame(cmd, body), rxBuffer);
      DispatchFrame(cmd, body, State(), sensors);
      match Classify(cmd) {
        case DlReport => ParseDlReport(body);
        case ErrorReport =>
        case Alarm =>
        case Unknown(_) =>
      }
      return true;
    }

    /**
     * The scan at the top of `_try_parse_packet`: drop the first byte while at
     * least 4 bytes are buffered and they are not the packet identifier.
     */
    method SkipToIdentifier()
      modifies this
      ensures rxBuffer == Resync(old(rxBuffer))
      ensures sensors == old(sensors) && data == old(data) && stateWrites == old(stateWrites)
    {
      while |rxBuffer| >= 4 && U32BE(rxBuffer, 0) != PACKET_IDENTIFIER
        invariant Resync(rxBuffer) == Resync(old(rxBuffer))
        invariant sensors == old(sensors) && data == old(data) && stateWrites == old(stateWrites)
        decreases |rxBuffer|
      {
        rxBuffer := rxBuffer[1..];
      }
    }

    /**
     * `_parse_dl_report`: replace the telemetry from a 34- or 68-byte body and
     * then notify every registered sensor once, in registration order; a body
     * of any other length is dropped.
     */
    method ParseDlReport(body: seq<byte>)
      modifies this
      ensures sensors == old(sensors)
      ensures State() == Report(old(State()), body, sensors)
    {
      if |body| == DL_DATA_SIZE {
        data := data.(l1 := ParseDlData(body, 0), hasL2 := false);
      } else if |body| == DL_DATA_SIZE * 2 {
        data := data.(l1 := ParseDlData(body, 0), l2 := ParseDlData(body, DL_DATA_SIZE), hasL2 := true);
      } else {
        return;
      }
      assert DecodeDlReport(old(data), body) == Some(data);
      for i := 0 to |sensors|
        invariant sensors == old(sensors) && rxBuffer == old(rxBuffer)
        invariant data == DecodeDlReport(old(data), body).value
        invariant stateWrites == old(stateWrites) + sensors[..i]
      {
        stateWrites := stateWrites + [sensors[i]];
      }
    }
  }
}
