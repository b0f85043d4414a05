/**
 * What the notification handler does with the frames the encoders build:
 * a well-formed frame is extracted in one step and dispatched once, however
 * its bytes are split across notifications; frames that arrive together are
 * applied in order; garbage, a spurious identifier with an absurd length and
 * a frame with a bad tail are skipped; and the telemetry decoded from a
 * one-line or two-line report is exactly what was encoded.
 */
module Scenarios {
  import opened Bytes
  import opened Protocol
  import opened Framing
  import opened Reassembly
  import opened Builders

  /** Dispatch never looks at or changes the buffer. */
  lemma DispatchRx(o: Outcome, s: Session, sensors: seq<Sensor>, x: seq<byte>)
    ensures Dispatch(o, s.(rx := x), sensors) == Dispatch(o, s, sensors).(rx := x)
  {
  }

  /** A built frame, whatever follows it, is extracted by one step and nothing more is consumed. */
  lemma FrameStep(cmd: byte, body: seq<byte>, rest: seq<byte>)
    requires |body| <= MAX_BUFFER_SIZE
    ensures ParseStep(BuildPacket(cmd, body) + rest) == Step(Frame(cmd, body), rest)
  {
    var f := BuildPacket(cmd, body);
    var x := f + rest;
    var n := |body|;
    IdentAtAppend(f, rest, 0);
    assert Resync(x) == x;
    U16BEOfSameBytes(x, f, 7, 7);
    U16BEOfSameBytes(x, f, HEADER_SIZE + n, HEADER_SIZE + n);
    assert FrameLength(x) == |f|;
    assert x[HEADER_SIZE..HEADER_SIZE + n] == f[HEADER_SIZE..HEADER_SIZE + n];
    assert x[|f|..] == rest;
    ParseFrameCases(x);
  }

  /** Every proper prefix of a built frame waits for more bytes and is kept whole. */
  lemma FramePrefixWaits(cmd: byte, body: seq<byte>, n: nat)
    requires |body| <= MAX_BUFFER_SIZE
    requires n < |BuildPacket(cmd, body)|
    ensures Quiescent(BuildPacket(cmd, body)[..n])
  {
    var f := BuildPacket(cmd, body);
    var p := f[..n];
    if n >= 4 {
      U32BEOfSameBytes(p, f, 0, 0);
    }
    assert Resync(p) == p;
    if n >= HEADER_SIZE {
      U16BEOfSameBytes(p, f, 7, 7);
      assert FrameLength(p) == |f|;
    }
    ParseFrameCases(p);
  }

  /** Draining a buffer that starts with a built frame dispatches that frame, then drains the rest. */
  lemma DrainFrame(s: Session, sensors: seq<Sensor>, cmd: byte, body: seq<byte>, rest: seq<byte>)
    requires |body| <= MAX_BUFFER_SIZE
    ensures Drain(s.(rx := BuildPacket(cmd, body) + rest), sensors) ==
            Drain(Dispatch(Frame(cmd, body), s, sensors).(rx := rest), sensors)
  {
    FrameStep(cmd, body, rest);
    DispatchRx(Frame(cmd, body), s, sensors, rest);
  }

  /** A session with an empty buffer is not changed by draining. */
  lemma DrainEmpty(s: Session, sensors: seq<Sensor>)
    requires s.rx == []
    ensures Drain(s, sensors) == s
  {
    EmptyQuiescent();
    DrainQuiescent(s, sensors);
  }

  /** Draining a buffer that holds exactly one built frame dispatches it and empties the buffer. */
  lemma DrainOneFrame(s: Session, sensors: seq<Sensor>, cmd: byte, body: seq<byte>)
    requires |body| <= MAX_BUFFER_SIZE
    ensures Drain(s.(rx := BuildPacket(cmd, body)), sensors) == Dispatch(Frame(cmd, body), s, sensors).(rx := [])
  {
    var f := BuildPacket(cmd, body);
    assert f == f + [];
    DrainFrame(s, sensors, cmd, body, []);
    DrainEmpty(Dispatch(Frame(cmd, body), s, sensors).(rx := []), sensors);
  }

  /** One notification carrying exactly one frame, into an empty buffer, dispatches it and leaves the buffer empty. */
  lemma FeedOneFrame(s: Session, sensors: seq<Sensor>, cmd: byte, body: seq<byte>)
    requires s.rx == []
    requires HEADER_SIZE + |body| + TAIL_SIZE <= MAX_BUFFER_SIZE
    ensures Feed(s, sensors, BuildPacket(cmd, body)) == Dispatch(Frame(cmd, body), s, sensors)
  {
    var f := BuildPacket(cmd, body);
    assert s.rx + f == f;
    DrainOneFrame(s, sensors, cmd, body);
  }

  /** Notifications with no bytes leave a session with an empty buffer as it is. */
  lemma {:induction false} FeedAllEmpty(s: Session, sensors: seq<Sensor>, chunks: seq<seq<byte>>)
    requires s.rx == []
    requires Flatten(chunks) == []
    ensures FeedAll(s, sensors, chunks) == s
    decreases |chunks|
  {
    if chunks != [] {
      assert chunks[0] == [] && Flatten(chunks[1..]) == [];
      assert s.rx + chunks[0] == [];
      DrainEmpty(s, sensors);
      FeedAllEmpty(s, sensors, chunks[1..]);
    }
  }

  /**
   * The chunks that complete a frame whose first `n` bytes are buffered
   * dispatch it exactly once, when its last byte arrives.
   */
  lemma {:induction false} ChunkedPrefix(s: Session, sensors: seq<Sensor>, chunks: seq<seq<byte>>,
                                        cmd: byte, body: seq<byte>, n: nat)
    requires HEADER_SIZE + |body| + TAIL_SIZE <= MAX_BUFFER_SIZE
    requires n < |BuildPacket(cmd, body)|
    requires s.rx == BuildPacket(cmd, body)[..n]
    requires Flatten(chunks) == BuildPacket(cmd, body)[n..]
    ensures FeedAll(s, sensors, chunks) == Dispatch(Frame(cmd, body), s.(rx := []), sensors)
    decreases |chunks|
  {
    var f := BuildPacket(cmd, body);
    if chunks == [] {
      assert false;
    }
    var c := chunks[0];
    var m := n + |c|;
    assert f[n..] == c + Flatten(chunks[1..]);
    assert s.rx + c == f[..m];
    assert Flatten(chunks[1..]) == f[m..];
    if m < |f| {
      FramePrefixWaits(cmd, body, m);
      DrainQuiescent(s.(rx := f[..m]), sensors);
      ChunkedPrefix(s.(rx := f[..m]), sensors, chunks[1..], cmd, body, m);
    } else {
      assert f[..m] == f + [];
      DrainFrame(s, sensors, cmd, body, []);
      var t := Dispatch(Frame(cmd, body), s, sensors).(rx := []);
      DrainEmpty(t, sensors);
      DispatchRx(Frame(cmd, body), s, sensors, []);
      FeedAllEmpty(t, sensors, chunks[1..]);
    }
  }

  /**
   * Fragmentation: however a frame is split across notifications (empty
   * notifications included), starting from an empty buffer, it is dispatched
   * exactly once and the buffer ends empty.
   */
  lemma ChunkedFrame(s: Session, sensors: seq<Sensor>, chunks: seq<seq<byte>>, cmd: byte, body: seq<byte>)
    requires s.rx == []
    requires HEADER_SIZE + |body| + TAIL_SIZE <= MAX_BUFFER_SIZE
    requires Flatten(chunks) == BuildPacket(cmd, body)
    ensures FeedAll(s, sensors, chunks) == Dispatch(Frame(cmd, body), s, sensors)
  {
    var f := BuildPacket(cmd, body);
    assert f[..0] == [] && f[0..] == f;
    ChunkedPrefix(s, sensors, chunks, cmd, body, 0);
  }

  /**
   * Two frames in one notification are both dispatched, in order, and the
   * buffer ends empty.
   */
  lemma TwoFramesInOneNotification(s: Session, sensors: seq<Sensor>,
                                   cmd1: byte, body1: seq<byte>, cmd2: byte, body2: seq<byte>)
    requires s.rx == []
    requires HEADER_SIZE + |body1| + TAIL_SIZE + HEADER_SIZE + |body2| + TAIL_SIZE <= MAX_BUFFER_SIZE
    ensures Feed(s, sensors, BuildPacket(cmd1, body1) + BuildPacket(cmd2, body2)) ==
            Dispatch(Frame(cmd2, body2), Dispatch(Frame(cmd1, body1), s, sensors), sensors)
  {
    var f1 := BuildPacket(cmd1, body1);
    var f2 := BuildPacket(cmd2, body2);
    var s1 := Dispatch(Frame(cmd1, body1), s, sensors);
    assert Feed(s, sensors, f1 + f2) == Drain(s.(rx := f1 + f2), sensors) by {
      assert s.rx + (f1 + f2) == f1 + f2;
    }
    assert Drain(s.(rx := f1 + f2), sensors) == Drain(s1.(rx := f2), sensors) by {
      DrainFrame(s, sensors, cmd1, body1, f2);
    }
    assert Drain(s1.(rx := f2), sensors) == Dispatch(Frame(cmd2, body2), s1, sensors).(rx := []) by {
      DrainOneFrame(s1, sensors, cmd2, body2);
    }
  }

  /**
   * The first bytes of a frame, delivered into an empty buffer, are kept
   * whole and change nothing else until the rest arrives.
   */
  lemma PartialFrameBuffered(s: Session, sensors: seq<Sensor>, cmd: byte, body: seq<byte>, n: nat)
    requires s.rx == []
    requires HEADER_SIZE + |body| + TAIL_SIZE <= MAX_BUFFER_SIZE
    requires n < |BuildPacket(cmd, body)|
    ensures Feed(s, sensors, BuildPacket(cmd, body)[..n]) == s.(rx := BuildPacket(cmd, body)[..n])
  {
    var p := BuildPacket(cmd, body)[..n];
    assert Feed(s, sensors, p) == Drain(s.(rx := p), sensors) by {
      assert s.rx + p == p;
    }
    FramePrefixWaits(cmd, body, n);
    DrainQuiescent(s.(rx := p), sensors);
  }

  /**
   * A one-line DLReport replaces line 1 with exactly the encoded values,
   * clears `hasL2`, keeps line 2 and notifies every sensor once.
   */
  lemma SingleLineReport(s: Session, sensors: seq<Sensor>,
                         voltage: int, current: int, power: int, energy: int, outputVoltage: int,
                         frequency: int, error: byte, status: byte, boost: bool)
    requires IsI32(voltage) && IsI32(current) && IsI32(power) && IsI32(energy)
    requires IsI32(outputVoltage) && IsI32(frequency)
    ensures Dispatch(Frame(CMD_DL_REPORT,
                           BuildDlData(voltage, current, power, energy, outputVoltage, frequency, error, status, boost)),
                     s, sensors) ==
            s.(data := s.data.(l1 := Line(voltage, current, power, energy, outputVoltage, frequency, error, status, boost),
                               hasL2 := false),
               writes := s.writes + sensors)
  {
    var body := BuildDlData(voltage, current, power, energy, outputVoltage, frequency, error, status, boost);
    DispatchFrame(CMD_DL_REPORT, body, s, sensors);
    assert body[..DL_DATA_SIZE] == body;
    ParseBuiltDlData(voltage, current, power, energy, outputVoltage, frequency, error, status, boost);
  }

  /**
   * The 30 A round trip: a `build_30a_packet` frame delivered into an empty
   * buffer sets line 1 to exactly the encoded values with boost off, reports
   * a single line, keeps line 2, notifies every sensor once and leaves the
   * buffer empty.
   */
  lemma SingleLineRoundTrip(s: Session, sensors: seq<Sensor>,
                            voltage: int, current: int, power: int, energy: int, outputVoltage: int,
                            frequency: int, error: byte, status: byte)
    requires s.rx == []
    requires IsI32(voltage) && IsI32(current) && IsI32(power) && IsI32(energy)
    requires IsI32(outputVoltage) && IsI32(frequency)
    ensures Feed(s, sensors, Build30APacket(voltage, current, power, energy, outputVoltage, frequency, error, status)) ==
            Session([],
                    s.data.(l1 := Line(voltage, current, power, energy, outputVoltage, frequency, error, status, false),
                            hasL2 := false),
                    s.writes + sensors)
  {
    var body := BuildDlData(voltage, current, power, energy, outputVoltage, frequency, error, status, false);
    FeedOneFrame(s, sensors, CMD_DL_REPORT, body);
    SingleLineReport(s, sensors, voltage, current, power, energy, outputVoltage, frequency, error, status, false);
  }

  /**
   * The 50 A round trip: a `build_50a_packet` frame delivered into an empty
   * buffer sets both lines to exactly the encoded values (default output
   * voltage, error 0, status 1, boost off), marks line 2 present, notifies
   * every sensor once and leaves the buffer empty.
   */
  lemma TwoLineRoundTrip(s: Session, sensors: seq<Sensor>,
                         l1Voltage: int, l1Current: int, l1Power: int, l1Energy: int,
                         l2Voltage: int, l2Current: int, l2Power: int, l2Energy: int, frequency: int)
    requires s.rx == []
    requires IsI32(l1Voltage) && IsI32(l1Current) && IsI32(l1Power) && IsI32(l1Energy)
    requires IsI32(l2Voltage) && IsI32(l2Current) && IsI32(l2Power) && IsI32(l2Energy)
    requires IsI32(frequency)
    ensures Feed(s, sensors, Build50APacket(l1Voltage, l1Current, l1Power, l1Energy,
                                            l2Voltage, l2Current, l2Power, l2Energy, frequency)) ==
            Session([],
                    WatchdogData(Line(l1Voltage, l1Current, l1Power, l1Energy, DEFAULT_OUTPUT_VOLTAGE_RAW, frequency, 0, 1, false),
                                 Line(l2Voltage, l2Current, l2Power, l2Energy, DEFAULT_OUTPUT_VOLTAGE_RAW, frequency, 0, 1, false),
                                 true),
                    s.writes + sensors)
  {
    var a := BuildDlData(l1Voltage, l1Current, l1Power, l1Energy, DEFAULT_OUTPUT_VOLTAGE_RAW, frequency, 0, 1, false);
    var b := BuildDlData(l2Voltage, l2Current, l2Power, l2Energy, DEFAULT_OUTPUT_VOLTAGE_RAW, frequency, 0, 1, false);
    var body := TwoLineBody(l1Voltage, l1Current, l1Power, l1Energy, l2Voltage, l2Current, l2Power, l2Energy, frequency);
    assert body == a + b;
    assert body[..DL_DATA_SIZE] == a && body[DL_DATA_SIZE..] == b;
    FeedOneFrame(s, sensors, CMD_DL_REPORT, body);
    DispatchFrame(CMD_DL_REPORT, body, s, sensors);
    ParseBuiltDlData(l1Voltage, l1Current, l1Power, l1Energy, DEFAULT_OUTPUT_VOLTAGE_RAW, frequency, 0, 1, false);
    ParseBuiltDlData(l2Voltage, l2Current, l2Power, l2Energy, DEFAULT_OUTPUT_VOLTAGE_RAW, frequency, 0, 1, false);
  }

  /**
   * Two one-line reports in one notification: the later one's values are
   * kept, and every sensor is notified once per report.
   */
  lemma LastReportWins(s: Session, sensors: seq<Sensor>,
                       v1: int, c1: int, p1: int, e1: int, v2: int, c2: int, p2: int, e2: int,
                       outputVoltage: int, frequency: int, error: byte, status: byte)
    requires s.rx == []
    requires IsI32(v1) && IsI32(c1) && IsI32(p1) && IsI32(e1)
    requires IsI32(v2) && IsI32(c2) && IsI32(p2) && IsI32(e2)
    requires IsI32(outputVoltage) && IsI32(frequency)
    ensures Feed(s, sensors, Build30APacket(v1, c1, p1, e1, outputVoltage, frequency, error, status)
                             + Build30APacket(v2, c2, p2, e2, outputVoltage, frequency, error, status)) ==
            Session([],
                    s.data.(l1 := Line(v2, c2, p2, e2, outputVoltage, frequency, error, status, false), hasL2 := false),
                    s.writes + sensors + sensors)
  {
    var b1 := BuildDlData(v1, c1, p1, e1, outputVoltage, frequency, error, status, false);
    var b2 := BuildDlData(v2, c2, p2, e2, outputVoltage, frequency, error, status, false);
    TwoFramesInOneNotification(s, sensors, CMD_DL_REPORT, b1, CMD_DL_REPORT, b2);
    SingleLineReport(s, sensors, v1, c1, p1, e1, outputVoltage, frequency, error, status, false);
    var s1 := Dispatch(Frame(CMD_DL_REPORT, b1), s, sensors);
    SingleLineReport(s1, sensors, v2, c2, p2, e2, outputVoltage, frequency, error, status, false);
  }

  /**
   * An error report between two one-line reports in one notification does
   * not disturb them: the telemetry is the second report's, and every
   * sensor is notified once per report.
   */
  lemma ErrorReportBetweenReports(s: Session, sensors: seq<Sensor>, errorBody: seq<byte>,
                                  v1: int, v2: int, current: int, power: int, energy: int,
                                  outputVoltage: int, frequency: int, error: byte, status: byte)
    requires s.rx == []
    requires HEADER_SIZE + |errorBody| + TAIL_SIZE + 2 * (HEADER_SIZE + DL_DATA_SIZE + TAIL_SIZE) <= MAX_BUFFER_SIZE
    requires IsI32(v1) && IsI32(v2) && IsI32(current) && IsI32(power) && IsI32(energy)
    requires IsI32(outputVoltage) && IsI32(frequency)
    ensures Feed(s, sensors, Build30APacket(v1, current, power, energy, outputVoltage, frequency, error, status)
                             + BuildPacket(CMD_ERROR_REPORT, errorBody)
                             + Build30APacket(v2, current, power, energy, outputVoltage, frequency, error, status)) ==
            Session([],
                    s.data.(l1 := Line(v2, current, power, energy, outputVoltage, frequency, error, status, false),
                            hasL2 := false),
                    s.writes + sensors + sensors)
  {
    var b1 := BuildDlData(v1, current, power, energy, outputVoltage, frequency, error, status, false);
    var b2 := BuildDlData(v2, current, power, energy, outputVoltage, frequency, error, status, false);
    var f1 := BuildPacket(CMD_DL_REPORT, b1);
    var fe := BuildPacket(CMD_ERROR_REPORT, errorBody);
    var f2 := BuildPacket(CMD_DL_REPORT, b2);
    var s1 := Dispatch(Frame(CMD_DL_REPORT, b1), s, sensors);
    assert Feed(s, sensors, f1 + fe + f2) == Drain(s.(rx := f1 + (fe + f2)), sensors) by {
      assert s.rx + (f1 + fe + f2) == f1 + (fe + f2);
    }
    assert Drain(s.(rx := f1 + (fe + f2)), sensors) == Drain(s1.(rx := fe + f2), sensors) by {
      DrainFrame(s, sensors, CMD_DL_REPORT, b1, fe + f2);
    }
    assert Drain(s1.(rx := fe + f2), sensors) == Drain(s1.(rx := f2), sensors) by {
      IgnoredFrame(s1, sensors, CMD_ERROR_REPORT, errorBody, f2);
    }
    assert Drain(s1.(rx := f2), sensors) == Dispatch(Frame(CMD_DL_REPORT, b2), s1, sensors).(rx := []) by {
      DrainOneFrame(s1, sensors, CMD_DL_REPORT, b2);
    }
    SingleLineReport(s, sensors, v1, current, power, energy, outputVoltage, frequency, error, status, false);
    SingleLineReport(s1, sensors, v2, current, power, energy, outputVoltage, frequency, error, status, false);
  }

  /** No byte of `g` can start the packet identifier. */
  predicate NoIdentifierByte(g: seq<byte>) {
    forall i :: 0 <= i < |g| ==> g[i] != 0x24
  }

  /**
   * Garbage that holds no 0x24 byte, in front of a buffer that starts with
   * the identifier, is dropped by resynchronisation with no other effect.
   */
  lemma GarbageSkipped(s: Session, sensors: seq<Sensor>, g: seq<byte>, x: seq<byte>)
    requires NoIdentifierByte(g)
    requires IdentAt(x, 0)
    ensures Drain(s.(rx := g + x), sensors) == Drain(s.(rx := x), sensors)
  {
    forall k | 0 <= k < |g| ensures !IdentAt(g + x, k) {
      if k + 4 <= |g + x| {
        assert (g + x)[k] == g[k];
        IdentAtBytes(g + x, k);
      }
    }
    ResyncSkipsGarbage(g, x);
    DrainResync(s.(rx := g + x), sensors);
    DrainResync(s.(rx := x), sensors);
  }

  /**
   * A spurious identifier whose length field exceeds the maximum loses just
   * its 4 identifier bytes in one step, whatever follows it.
   */
  lemma AbsurdLengthStep(hd: seq<byte>, x: seq<byte>)
    requires |hd| == HEADER_SIZE && IdentAt(hd, 0) && U16BE(hd, 7) > MAX_BUFFER_SIZE
    ensures ParseStep(hd + x) == Step(InvalidLength, hd[4..] + x)
  {
    var buf := hd + x;
    IdentAtAppend(hd, x, 0);
    assert Resync(buf) == buf;
    U16BEOfSameBytes(buf, hd, 7, 7);
    assert buf[4..] == hd[4..] + x;
    ParseFrameCases(buf);
  }

  /**
   * When the rest of such a header holds no 0x24 byte, the frame that
   * follows it is handled as if the spurious header had never arrived.
   */
  lemma AbsurdLengthSkipped(s: Session, sensors: seq<Sensor>, hd: seq<byte>, x: seq<byte>)
    requires |hd| == HEADER_SIZE && IdentAt(hd, 0) && U16BE(hd, 7) > MAX_BUFFER_SIZE
    requires NoIdentifierByte(hd[4..])
    requires IdentAt(x, 0)
    ensures Drain(s.(rx := hd + x), sensors) == Drain(s.(rx := x), sensors)
  {
    AbsurdLengthStep(hd, x);
    assert Drain(s.(rx := hd + x), sensors) == Drain(s.(rx := hd[4..] + x), sensors);
    GarbageSkipped(s, sensors, hd[4..], x);
  }

  /**
   * A header whose length field passes the guard but whose whole frame
   * would be longer than MAX_BUFFER_SIZE can never be completed: every
   * buffer that starts with it and fits the limit waits, so the handler
   * keeps it until an overflow clears the buffer.
   */
  lemma OversizedFrameWaits(hd: seq<byte>, x: seq<byte>)
    requires |hd| == HEADER_SIZE && IdentAt(hd, 0)
    requires MAX_BUFFER_SIZE < HEADER_SIZE + U16BE(hd, 7) + TAIL_SIZE
    requires U16BE(hd, 7) <= MAX_BUFFER_SIZE
    requires |hd + x| <= MAX_BUFFER_SIZE
    ensures Quiescent(hd + x)
  {
    var buf := hd + x;
    IdentAtAppend(hd, x, 0);
    assert Resync(buf) == buf;
    U16BEOfSameBytes(buf, hd, 7, 7);
    ParseFrameCases(buf);
  }

  /**
   * A frame whose tail is not 0x7121 is consumed whole and dropped: nothing
   * is decoded and no sensor is notified; the bytes after it are handled as
   * if it had never arrived.
   */
  lemma BadTailDropped(s: Session, sensors: seq<Sensor>, cmd: byte, body: seq<byte>, tail: seq<byte>, rest: seq<byte>)
    requires |body| <= MAX_BUFFER_SIZE
    requires |tail| == TAIL_SIZE && U16BE(tail, 0) != PACKET_TAIL
    ensures var f := BuildPacket(cmd, body);
            Drain(s.(rx := f[..HEADER_SIZE + |body|] + tail + rest), sensors) == Drain(s.(rx := rest), sensors)
  {
    var f := BuildPacket(cmd, body);
    var n := |body|;
    var g := f[..HEADER_SIZE + n];
    var x := g + tail + rest;
    U32BEOfSameBytes(x, f, 0, 0);
    assert Resync(x) == x;
    U16BEOfSameBytes(x, f, 7, 7);
    U16BEOfSameBytes(x, tail, HEADER_SIZE + n, 0);
    assert FrameLength(x) == HEADER_SIZE + n + TAIL_SIZE;
    assert x[FrameLength(x)..] == rest;
    ParseFrameCases(x);
  }

  /**
   * A frame whose command is not 1 (error report, alarm or unknown), or a
   * DLReport whose body is neither 34 nor 68 bytes, is consumed and changes
   * nothing else.
   */
  lemma IgnoredFrame(s: Session, sensors: seq<Sensor>, cmd: byte, body: seq<byte>, rest: seq<byte>)
    requires |body| <= MAX_BUFFER_SIZE
    requires cmd != CMD_DL_REPORT || (|body| != DL_DATA_SIZE && |body| != 2 * DL_DATA_SIZE)
    ensures Drain(s.(rx := BuildPacket(cmd, body) + rest), sensors) == Drain(s.(rx := rest), sensors)
  {
    DrainFrame(s, sensors, cmd, body, rest);
    DispatchFrame(cmd, body, s, sensors);
  }
}
