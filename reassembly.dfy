/**
 * The notification handler of `PowerWatchdogManager` as functions of its
 * state: command dispatch, the `while self._try_parse_packet()` loop run to
 * its fixed point, and the overflow guard. The class in module `Manager` is
 * proved to do exactly what these functions say; the lemmas here state what
 * the handler guarantees about any byte stream, however it is chunked.
 */
module Reassembly {
  import opened Bytes
  import opened Protocol
  import opened Framing

  /** A registered sensor entity; notifying it is its `async_write_ha_state` call. */
  datatype Sensor = Sensor(id: nat)

  /**
   * What the handler reads and changes: the reassembly buffer, the latest
   * telemetry, and the log of sensor notifications in the order they happened.
   */
  datatype Session = Session(rx: seq<byte>, data: WatchdogData, writes: seq<Sensor>)

  /**
   * `_parse_dl_report`: a body of a valid length replaces the telemetry and
   * then every registered sensor is notified once, in registration order;
   * any other body changes nothing.
   */
  function Report(s: Session, body: seq<byte>, sensors: seq<Sensor>): (t: Session)
    ensures t.rx == s.rx
    ensures (|body| == DL_DATA_SIZE || |body| == 2 * DL_DATA_SIZE) ==>
              t == s.(data := DecodeDlReport(s.data, body).value, writes := s.writes + sensors)
    ensures !(|body| == DL_DATA_SIZE || |body| == 2 * DL_DATA_SIZE) ==> t == s
  {
    match DecodeDlReport(s.data, body)
    case Some(d) => s.(data := d, writes := s.writes + sensors)
    case None => s
  }

  /**
   * The dispatch at the end of `_try_parse_packet`. Only a frame with a good
   * tail and command 1 can change the telemetry or notify a sensor; error
   * reports, alarms, unknown commands, bad tails and skipped identifiers leave
   * everything but the buffer as it was.
   */
  function Dispatch(o: Outcome, s: Session, sensors: seq<Sensor>): (t: Session)
    ensures t.rx == s.rx && s.writes <= t.writes
    ensures t != s ==> o.Frame? && o.command == CMD_DL_REPORT
  {
    match o
    case Frame(cmd, body) =>
      (match Classify(cmd)
       case DlReport => Report(s, body, sensors)
       case ErrorReport => s
       case Alarm => s
       case Unknown(_) => s)
    case _ => s
  }

  /** A frame with a good tail is decoded exactly when its command is 1. */
  lemma DispatchFrame(cmd: byte, body: seq<byte>, s: Session, sensors: seq<Sensor>)
    ensures Dispatch(Frame(cmd, body), s, sensors) ==
            if cmd == CMD_DL_REPORT then Report(s, body, sensors) else s
  {
  }

  /**
   * `while self._try_parse_packet(): pass` — steps until one waits. Each step
   * that does not wait shortens the buffer, so the loop ends, and it ends
   * with a buffer that holds no complete frame at an identifier.
   */
  function Drain(s: Session, sensors: seq<Sensor>): (t: Session)
    ensures Quiescent(t.rx)
    ensures SuffixOf(t.rx, s.rx)
    ensures s.writes <= t.writes
    decreases |s.rx|
  {
    var p := ParseStep(s.rx);
    if p.outcome.NeedMoreData? then
      WaitIsQuiescent(s.rx);
      s.(rx := p.rest)
    else
      var t := Drain(Dispatch(p.outcome, s.(rx := p.rest), sensors), sensors);
      SuffixTransitive(t.rx, p.rest, s.rx);
      t
  }

  /**
   * `_notification_handler`: append the chunk; if the buffer is then longer
   * than MAX_BUFFER_SIZE, clear it and parse nothing; otherwise drain it.
   * Afterwards the buffer never exceeds MAX_BUFFER_SIZE.
   */
  function Feed(s: Session, sensors: seq<Sensor>, raw: seq<byte>): (t: Session)
    ensures |t.rx| <= MAX_BUFFER_SIZE && Quiescent(t.rx)
    ensures |s.rx| + |raw| > MAX_BUFFER_SIZE ==> t == s.(rx := [])
    ensures |s.rx| + |raw| <= MAX_BUFFER_SIZE ==> t == Drain(s.(rx := s.rx + raw), sensors)
  {
    var buf := s.rx + raw;
    if |buf| > MAX_BUFFER_SIZE then
      EmptyQuiescent();
      s.(rx := [])
    else
      var t := Drain(s.(rx := buf), sensors);
      assert SuffixOf(t.rx, buf);
      t
  }

  /** Feeding the chunks one notification at a time. */
  function FeedAll(s: Session, sensors: seq<Sensor>, chunks: seq<seq<byte>>): Session
    decreases |chunks|
  {
    if chunks == [] then s else FeedAll(Feed(s, sensors, chunks[0]), sensors, chunks[1..])
  }

  /** The bytes of all chunks, in order. */
  function Flatten(chunks: seq<seq<byte>>): seq<byte>
    decreases |chunks|
  {
    if chunks == [] then [] else chunks[0] + Flatten(chunks[1..])
  }

  /** Draining only sees the synchronised buffer. */
  lemma DrainResync(s: Session, sensors: seq<Sensor>)
    ensures Drain(s, sensors) == Drain(s.(rx := Resync(s.rx)), sensors)
  {
    ParseStepResync(s.rx);
    ResyncIdempotent(s.rx);
  }

  /**
   * Fragmentation transparency: draining a buffer and then draining what is
   * left followed by more bytes ends exactly where draining all the bytes at
   * once ends — same buffer, same telemetry, same notifications.
   */
  lemma {:induction false} DrainAppend(s: Session, sensors: seq<Sensor>, b: seq<byte>)
    ensures Drain(s.(rx := s.rx + b), sensors) ==
            Drain(Drain(s, sensors).(rx := Drain(s, sensors).rx + b), sensors)
    decreases |s.rx|
  {
    var p := ParseStep(s.rx);
    if p.outcome.NeedMoreData? {
      DrainResync(s.(rx := s.rx + b), sensors);
      DrainResync(s.(rx := Resync(s.rx) + b), sensors);
      ResyncAppend(s.rx, b);
    } else {
      ParseStepAppend(s.rx, b);
      var s' := Dispatch(p.outcome, s.(rx := p.rest), sensors);
      assert Dispatch(p.outcome, s.(rx := p.rest + b), sensors) == s'.(rx := s'.rx + b);
      DrainAppend(s', sensors, b);
    }
  }

  /**
   * Two notifications, neither of which overflows, have the same effect as
   * draining their bytes together.
   */
  lemma FeedTwoChunks(s: Session, sensors: seq<Sensor>, a: seq<byte>, b: seq<byte>)
    requires |s.rx| + |a| <= MAX_BUFFER_SIZE
    requires |Feed(s, sensors, a).rx| + |b| <= MAX_BUFFER_SIZE
    ensures Feed(Feed(s, sensors, a), sensors, b) == Drain(s.(rx := s.rx + a + b), sensors)
  {
    DrainAppend(s.(rx := s.rx + a), sensors, b);
  }

  /** No notification in `chunks`, fed one after another from `s`, overflows the buffer. */
  predicate NeverOverflows(s: Session, sensors: seq<Sensor>, chunks: seq<seq<byte>>)
    decreases |chunks|
  {
    chunks == [] ||
    (|s.rx| + |chunks[0]| <= MAX_BUFFER_SIZE && NeverOverflows(Feed(s, sensors, chunks[0]), sensors, chunks[1..]))
  }

  lemma AppendAssociative(a: seq<byte>, b: seq<byte>, c: seq<byte>)
    ensures a + b + c == a + (b + c)
  {
  }

  /**
   * Fragmentation transparency for any number of notifications: from a
   * waiting buffer, as long as no notification overflows, feeding the
   * chunks one at a time ends exactly where draining all their bytes at
   * once ends.
   */
  lemma {:induction false} FeedAllDrains(s: Session, sensors: seq<Sensor>, chunks: seq<seq<byte>>)
    requires Quiescent(s.rx)
    requires NeverOverflows(s, sensors, chunks)
    ensures FeedAll(s, sensors, chunks) == Drain(s.(rx := s.rx + Flatten(chunks)), sensors)
    decreases |chunks|
  {
    if chunks == [] {
      assert s.rx + Flatten(chunks) == s.rx;
      DrainQuiescent(s, sensors);
    } else {
      var c, f := chunks[0], Flatten(chunks[1..]);
      var u := s.(rx := s.rx + c);
      var s1 := Feed(s, sensors, c);
      assert s1 == Drain(u, sensors);
      FeedAllDrains(s1, sensors, chunks[1..]);
      DrainAppend(u, sensors, f);
      assert u.(rx := u.rx + f) == s.(rx := s.rx + Flatten(chunks)) by {
        assert Flatten(chunks) == c + f;
        AppendAssociative(s.rx, c, f);
      }
    }
  }

  /** Draining a quiescent buffer changes nothing. */
  lemma DrainQuiescent(s: Session, sensors: seq<Sensor>)
    requires Quiescent(s.rx)
    ensures Drain(s, sensors) == s
  {
  }
}
