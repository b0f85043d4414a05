/**
 * Framing of the Power Watchdog stream, one extraction step at a time:
 *
 *   identifier (4 B, 0x24797740) | version | msgId | cmd | dataLen (2 B BE)
 *   | body (dataLen B) | tail (2 B, 0x7121)
 *
 * `ParseStep` is what one call of `_try_parse_packet` does to the reassembly
 * buffer: resynchronise on the identifier, wait for a header, drop a spurious
 * identifier whose length field is absurd, wait for the whole frame, and
 * consume the frame whether or not its tail is right.
 */
module Framing {
  import opened Bytes

  const PACKET_IDENTIFIER: nat := 0x2479_7740
  const PACKET_TAIL: nat := 0x7121
  const HEADER_SIZE: nat := 9
  const TAIL_SIZE: nat := 2
  /** Largest buffer the handler keeps, and largest body length it believes. */
  const MAX_BUFFER_SIZE: nat := 8192

  /** The packet identifier starts at offset `k`. */
  predicate IdentAt(buf: seq<byte>, k: nat) {
    k + 4 <= |buf| && U32BE(buf, k) == PACKET_IDENTIFIER
  }

  /** The identifier, read big-endian, is the byte sequence 24 79 77 40. */
  lemma IdentAtBytes(buf: seq<byte>, k: nat)
    requires k + 4 <= |buf|
    ensures IdentAt(buf, k) <==> buf[k] == 0x24 && buf[k + 1] == 0x79 && buf[k + 2] == 0x77 && buf[k + 3] == 0x40
  {
  }

  /** Appending bytes does not change whether the identifier starts at `k` when it fits before them. */
  lemma IdentAtAppend(a: seq<byte>, b: seq<byte>, k: nat)
    requires k + 4 <= |a|
    ensures IdentAt(a + b, k) == IdentAt(a, k)
  {
    U32BEOfSameBytes(a + b, a, k, k);
  }

  /** `a` is what is left of `b` after removing bytes from its front. */
  predicate SuffixOf(a: seq<byte>, b: seq<byte>) {
    |a| <= |b| && a == b[|b| - |a|..]
  }

  lemma SuffixTransitive(a: seq<byte>, b: seq<byte>, c: seq<byte>)
    requires SuffixOf(a, b) && SuffixOf(b, c)
    ensures SuffixOf(a, c)
  {
    assert c[|c| - |a|..] == c[|c| - |b|..][|b| - |a|..];
  }

  /** A buffer from which the resynchronisation loop removes nothing. */
  predicate Synced(buf: seq<byte>) {
    |buf| < 4 || IdentAt(buf, 0)
  }

  /**
   * The resynchronisation loop: leading bytes are dropped one at a time until
   * the identifier is at offset 0 or fewer than 4 bytes remain. The result is
   * a suffix of the buffer, and no identifier starts in the dropped part.
   */
  function Resync(buf: seq<byte>): (r: seq<byte>)
    ensures SuffixOf(r, buf)
    ensures Synced(r)
    ensures forall k :: 0 <= k < |buf| - |r| ==> !IdentAt(buf, k)
    decreases |buf|
  {
    if Synced(buf) then buf
    else
      var r := Resync(buf[1..]);
      assert forall k :: 1 <= k < |buf| - |r| ==> IdentAt(buf, k) == IdentAt(buf[1..], k - 1) by {
        forall k | 1 <= k < |buf| - |r| ensures IdentAt(buf, k) == IdentAt(buf[1..], k - 1) {
          if k + 4 <= |buf| {
            U32BEOfSameBytes(buf, buf[1..], k, k - 1);
          }
        }
      }
      r
  }

  /** A buffer that is already synchronised is left alone. */
  lemma ResyncIdempotent(buf: seq<byte>)
    ensures Resync(Resync(buf)) == Resync(buf)
  {
  }

  /** What one extraction step found. */
  datatype Outcome =
    | NeedMoreData                          // returns False: wait for more bytes
    | InvalidLength                         // absurd dataLen: the identifier is dropped
    | BadTail                               // frame consumed, tail wrong, not decoded
    | Frame(command: byte, body: seq<byte>) // frame consumed and handed to dispatch

  datatype Step = Step(outcome: Outcome, rest: seq<byte>)

  /** Total length of the frame whose header is at offset 0. */
  function FrameLength(buf: seq<byte>): nat
    requires HEADER_SIZE <= |buf|
  {
    HEADER_SIZE + U16BE(buf, 7) + TAIL_SIZE
  }

  /**
   * The part of a step after resynchronisation, on a buffer `r` whose
   * identifier (if any) is at offset 0.
   */
  function ParseFrame(r: seq<byte>): (s: Step)
    ensures SuffixOf(s.rest, r)
    ensures s.outcome.NeedMoreData? ==> s.rest == r
    ensures !s.outcome.NeedMoreData? ==> |s.rest| < |r|
    ensures s.outcome.Frame? ==> |s.outcome.body| <= MAX_BUFFER_SIZE
  {
    if |r| < HEADER_SIZE then Step(NeedMoreData, r)
    else
      var dataLen := U16BE(r, 7);
      if dataLen > MAX_BUFFER_SIZE then Step(InvalidLength, r[4..])
      else
        var total := HEADER_SIZE + dataLen + TAIL_SIZE;
        if |r| < total then Step(NeedMoreData, r)
        else if U16BE(r, HEADER_SIZE + dataLen) != PACKET_TAIL then Step(BadTail, r[total..])
        else Step(Frame(r[6], r[HEADER_SIZE..HEADER_SIZE + dataLen]), r[total..])
  }

  /** One call of `_try_parse_packet` on the buffer `buf`. */
  function ParseStep(buf: seq<byte>): (s: Step)
    ensures SuffixOf(s.rest, buf)
    ensures s.outcome.NeedMoreData? ==> s.rest == Resync(buf)
    ensures !s.outcome.NeedMoreData? ==> |s.rest| < |buf|
    ensures s.outcome.Frame? ==> |s.outcome.body| <= MAX_BUFFER_SIZE
  {
    ParseFrame(Resync(buf))
  }

  /** Only the synchronised buffer matters to a step. */
  lemma ParseStepResync(buf: seq<byte>)
    ensures ParseStep(buf) == ParseStep(Resync(buf))
  {
    ResyncIdempotent(buf);
  }

  /**
   * Proof helper: the branches of `ParseFrame`, one fact per case, for
   * callers that must not unfold it. `SyncedStep` states the same rules as
   * the behaviour of a step.
   */
  lemma ParseFrameCases(r: seq<byte>)
    ensures |r| < HEADER_SIZE ==> ParseFrame(r) == Step(NeedMoreData, r)
    ensures HEADER_SIZE <= |r| && U16BE(r, 7) > MAX_BUFFER_SIZE ==>
              ParseFrame(r) == Step(InvalidLength, r[4..])
    ensures HEADER_SIZE <= |r| && U16BE(r, 7) <= MAX_BUFFER_SIZE && |r| < FrameLength(r) ==>
              ParseFrame(r) == Step(NeedMoreData, r)
    ensures HEADER_SIZE <= |r| && U16BE(r, 7) <= MAX_BUFFER_SIZE && FrameLength(r) <= |r| ==>
              ParseFrame(r) == if U16BE(r, FrameLength(r) - TAIL_SIZE) == PACKET_TAIL
                               then Step(Frame(r[6], r[HEADER_SIZE..FrameLength(r) - TAIL_SIZE]), r[FrameLength(r)..])
                               else Step(BadTail, r[FrameLength(r)..])
  {
  }

  /**
   * The rules of a step once the identifier is at offset 0 (or fewer than 4
   * bytes are buffered): it waits, removing nothing, while the header or the
   * frame is incomplete; it drops exactly the 4 identifier bytes when the
   * length field exceeds the maximum; otherwise it consumes exactly the frame,
   * whatever its tail, and decodes it only when the tail is 0x7121.
   */
  lemma SyncedStep(buf: seq<byte>)
    requires Synced(buf)
    ensures |buf| < HEADER_SIZE ==> ParseStep(buf) == Step(NeedMoreData, buf)
    ensures HEADER_SIZE <= |buf| && U16BE(buf, 7) > MAX_BUFFER_SIZE ==>
              ParseStep(buf) == Step(InvalidLength, buf[4..])
    ensures HEADER_SIZE <= |buf| && U16BE(buf, 7) <= MAX_BUFFER_SIZE && |buf| < FrameLength(buf) ==>
              ParseStep(buf) == Step(NeedMoreData, buf)
    ensures HEADER_SIZE <= |buf| && U16BE(buf, 7) <= MAX_BUFFER_SIZE && FrameLength(buf) <= |buf| ==>
              && ParseStep(buf).rest == buf[FrameLength(buf)..]
              && (ParseStep(buf).outcome.Frame? <==> U16BE(buf, FrameLength(buf) - TAIL_SIZE) == PACKET_TAIL)
              && (ParseStep(buf).outcome.Frame? ==>
                    ParseStep(buf).outcome == Frame(buf[6], buf[HEADER_SIZE..FrameLength(buf) - TAIL_SIZE]))
  {
  }

  /**
   * A buffer with nothing left to do: a step on it waits and removes nothing,
   * so it holds no complete frame starting at an identifier.
   */
  predicate Quiescent(buf: seq<byte>) {
    ParseStep(buf) == Step(NeedMoreData, buf)
  }

  /** The frame decision only looks at bytes of the frame, so more bytes after it change nothing. */
  lemma ParseFrameAppend(r: seq<byte>, b: seq<byte>)
    requires !ParseFrame(r).outcome.NeedMoreData?
    ensures ParseFrame(r + b) == Step(ParseFrame(r).outcome, ParseFrame(r).rest + b)
  {
    var rb := r + b;
    assert U16BE(rb, 7) == U16BE(r, 7);
    var dataLen := U16BE(r, 7);
    if dataLen > MAX_BUFFER_SIZE {
      assert rb[4..] == r[4..] + b;
    } else {
      var total := HEADER_SIZE + dataLen + TAIL_SIZE;
      assert U16BE(rb, HEADER_SIZE + dataLen) == U16BE(r, HEADER_SIZE + dataLen);
      assert rb[total..] == r[total..] + b;
      assert rb[HEADER_SIZE..HEADER_SIZE + dataLen] == r[HEADER_SIZE..HEADER_SIZE + dataLen];
    }
  }

  /** An empty buffer has nothing to parse. */
  lemma EmptyQuiescent()
    ensures Quiescent([])
  {
    assert Resync([]) == [];
  }

  /** After a step that waits, a further step waits too and removes nothing more. */
  lemma WaitIsQuiescent(buf: seq<byte>)
    requires ParseStep(buf).outcome.NeedMoreData?
    ensures Quiescent(ParseStep(buf).rest)
  {
    ParseStepResync(buf);
  }

  /** A step that made progress gives the same result when more bytes follow. */
  lemma ParseStepAppend(a: seq<byte>, b: seq<byte>)
    requires !ParseStep(a).outcome.NeedMoreData?
    ensures ParseStep(a + b) == Step(ParseStep(a).outcome, ParseStep(a).rest + b)
  {
    ResyncAppendSynced(a, b);
    ParseFrameAppend(Resync(a), b);
  }

  /** Resynchronising a longer buffer drops the same bytes, then goes on over the new ones. */
  lemma {:induction false} ResyncAppend(a: seq<byte>, b: seq<byte>)
    ensures Resync(a + b) == Resync(Resync(a) + b)
    decreases |a|
  {
    if Synced(a) {
    } else {
      IdentAtAppend(a, b, 0);
      assert (a + b)[1..] == a[1..] + b;
      ResyncAppend(a[1..], b);
    }
  }

  /** When resynchronisation stopped at an identifier, appending leaves it there. */
  lemma ResyncAppendSynced(a: seq<byte>, b: seq<byte>)
    requires |Resync(a)| >= 4
    ensures Resync(a + b) == Resync(a) + b
  {
    ResyncAppend(a, b);
    IdentAtAppend(Resync(a), b, 0);
  }

  /**
   * Bytes before a frame are skipped without harm when no identifier starts
   * among them: resynchronising `g + x`, where `x` starts with the identifier,
   * leaves exactly `x`.
   */
  lemma {:induction false} ResyncSkipsGarbage(g: seq<byte>, x: seq<byte>)
    requires IdentAt(x, 0)
    requires forall k :: 0 <= k < |g| ==> !IdentAt(g + x, k)
    ensures Resync(g + x) == x
    decreases |g|
  {
    if g == [] {
      assert g + x == x;
    } else {
      assert !IdentAt(g + x, 0);
      assert (g + x)[1..] == g[1..] + x;
      forall k | 0 <= k < |g[1..]| ensures !IdentAt(g[1..] + x, k) {
        assert !IdentAt(g + x, k + 1);
        U32BEOfSameBytes(g + x, g[1..] + x, k + 1, k);
      }
      ResyncSkipsGarbage(g[1..], x);
    }
  }
}
