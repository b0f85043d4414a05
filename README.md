# Power Watchdog packet reassembly, in Dafny

This project models the receive path of the Hughes Power Watchdog Home
Assistant integration. It also proves what that path guarantees.

The device streams framed binary packets over a Bluetooth GATT
characteristic:

    identifier 24 79 77 40 | version | msgId | cmd | dataLen (2 B, big-endian)
    | body (dataLen bytes) | tail 71 21

A notification may carry part of a packet, one packet or several.
`PowerWatchdogManager` handles each one in four steps:

- It appends the notification to a reassembly buffer.
- It clears the buffer if it has grown beyond `MAX_BUFFER_SIZE` (8192 in
  this model; the source imports the name without giving a value).
- Otherwise it repeatedly extracts one packet:
  - it resynchronises on the identifier;
  - it waits for a complete header and frame;
  - it skips an identifier whose length field is absurd;
  - it drops a frame whose tail is wrong.
- It dispatches each good frame by command.

A DLReport (command 1) body holds one 34-byte DLData block (30 A models) or
two (50 A models, L1 then L2). Each block is decoded into a `LineData`
record, and every registered sensor is then notified once.

The project has seven modules:

- `Bytes`: big-endian unsigned 16/32-bit and signed 32-bit fields, read and
  written.
- `Protocol`: `LineData` and `WatchdogData`, command classification, the
  DLData decoder and the DLReport length rules.
- `Framing`: one call of `_try_parse_packet` on the buffer, as a pure
  function (`Resync` then `ParseFrame`). Also holds the lemmas on how a step
  behaves when more bytes follow.
- `Reassembly`: the handler as functions of a `Session` (buffer, telemetry,
  log of sensor notifications).
  - `Dispatch`, `Report`, `Drain` (the `while self._try_parse_packet()` loop
    run to its fixed point) and `Feed` (one notification, with the overflow
    guard).
  - `FeedAll` and `Flatten` feed a list of notifications and concatenate
    their bytes.
  - The fragmentation lemmas.
- `Manager`: the `PowerWatchdogManager` class with its fields updated in
  place. Each method is proved to leave the object in the state the
  `Reassembly` functions describe.
- `Builders`: the frame and block encoders of `tests/helpers.py`.
- `Scenarios`: end-to-end lemmas. They cover:
  - round trips of encoded packets through the handler;
  - fragmentation;
  - concatenated frames;
  - garbage, an absurd length and a bad tail;
  - ignored commands.

Measurements are kept as the raw signed 32-bit integers the device sends.
The conversion to rounded floats is not modelled.

## Model

| member | source | states |
|---|---|---|
| `Bytes.U16BE` | custom_components/hughes_power_watchdog/models.py:198 | a ">H" field is a value below 2^16 |
| `Bytes.U32BE` | custom_components/hughes_power_watchdog/models.py:190 | a ">I" field is a value below 2^32 |
| `Bytes.I32BE` | custom_components/hughes_power_watchdog/models.py:260-267 | a ">i" field is a signed 32-bit value; it is negative iff the top bit of its first byte is set; it is congruent to the unsigned reading modulo 2^32 |
| `Bytes.EncodeU16BE` | tests/helpers.py:43-44 | `struct.pack(">H")` gives 2 bytes that read back as the value |
| `Bytes.EncodeU32BE` | tests/helpers.py:41 | `struct.pack(">I")` gives 4 bytes that read back as the value |
| `Bytes.EncodeI32BE` | tests/helpers.py:27-34 | `struct.pack(">i")` gives 4 bytes that read back as the same signed value |
| `Bytes.U16BEInjective` | custom_components/hughes_power_watchdog/models.py:198 | re-encoding a read 16-bit field gives back its two bytes |
| `Bytes.U32BEInjective` | custom_components/hughes_power_watchdog/models.py:190 | re-encoding a read 32-bit field gives back its four bytes |
| `Bytes.I32BEInjective` | custom_components/hughes_power_watchdog/models.py:260 | re-encoding a read signed field gives back its four bytes |
| `Bytes.U32BEOfSameBytes` | custom_components/hughes_power_watchdog/models.py:260-267 | a 32-bit field depends only on its own four bytes, wherever they sit |
| `Protocol.Classify` | custom_components/hughes_power_watchdog/models.py:220-228 | commands 1, 2 and 14 are told apart; every other byte is unknown; no byte is lost |
| `Protocol.ParseDlData` | custom_components/hughes_power_watchdog/models.py:256-281 | every field is set; the six measurements are signed 32-bit; boost is true iff byte 26 is 1; error code and status are bytes 32 and 33 verbatim |
| `Protocol.ParseDlDataLocal` | custom_components/hughes_power_watchdog/models.py:257-269 | a block decodes the same at any offset of a larger buffer |
| `Protocol.ParseDlDataIgnoresUnreadBytes` | custom_components/hughes_power_watchdog/models.py:264-269 | blocks that differ only in the reserved word and the backlight, neutral and temperature bytes decode identically |
| `Protocol.DecodeDlReport` | custom_components/hughes_power_watchdog/models.py:234-250 | a body is accepted iff it is 34 or 68 bytes. 34 bytes: line 1 decoded, `hasL2` false, line 2 kept. 68 bytes: both lines decoded from their halves, `hasL2` true |
| `Framing.IdentAtBytes` | custom_components/hughes_power_watchdog/models.py:190 | the identifier matches exactly when the bytes are 24 79 77 40 |
| `Framing.Resync` | custom_components/hughes_power_watchdog/models.py:188-192 | the scan leaves a suffix of the buffer that starts with the identifier or is shorter than 4 bytes; no identifier started in the dropped bytes |
| `Framing.ResyncIdempotent` | custom_components/hughes_power_watchdog/models.py:188-192 | scanning a scanned buffer drops nothing |
| `Framing.ResyncAppend` | custom_components/hughes_power_watchdog/models.py:188-192 | scanning a longer buffer drops the same bytes first, then continues over the new ones |
| `Framing.ResyncAppendSynced` | custom_components/hughes_power_watchdog/models.py:188-192 | once the identifier is found, appending bytes does not move it |
| `Framing.ResyncSkipsGarbage` | custom_components/hughes_power_watchdog/models.py:188-192 | leading bytes with no identifier among them are dropped, exactly up to the next frame |
| `Framing.ParseFrame` | custom_components/hughes_power_watchdog/models.py:194-218 | a wait removes nothing; any other outcome shortens the buffer to a suffix; a frame body is at most MAX_BUFFER_SIZE bytes |
| `Framing.ParseStep` | custom_components/hughes_power_watchdog/models.py:186-218 | one call returns a suffix of the buffer; on a wait it is exactly the resynchronised buffer; every consuming outcome makes it strictly shorter |
| `Framing.ParseStepResync` | custom_components/hughes_power_watchdog/models.py:186-192 | only the resynchronised buffer affects a step |
| `Framing.ParseFrameCases` | custom_components/hughes_power_watchdog/models.py:194-218 | proof helper for the manager's step: one fact per branch (short header waits; absurd length drops 4 bytes; short frame waits; bad tail consumes the frame; good tail consumes it and yields command and body) |
| `Framing.SyncedStep` | custom_components/hughes_power_watchdog/models.py:194-218 | on a buffer starting at the identifier: waits exactly on a short header or frame; absurd length drops only the identifier; otherwise exactly the frame is consumed and decoded iff the tail is 0x7121 |
| `Framing.EmptyQuiescent` | custom_components/hughes_power_watchdog/models.py:189-195 | an empty buffer makes a step wait |
| `Framing.WaitIsQuiescent` | custom_components/hughes_power_watchdog/models.py:194-207 | after a waiting step a further step waits too and removes nothing |
| `Framing.ParseFrameAppend` | custom_components/hughes_power_watchdog/models.py:197-212 | a consuming decision reads only bytes of the frame, so bytes after it change nothing |
| `Framing.ParseStepAppend` | custom_components/hughes_power_watchdog/models.py:186-212 | a step that consumed gives the same outcome, and the same rest plus the new bytes, when more bytes follow |
| `Reassembly.Report` | custom_components/hughes_power_watchdog/models.py:234-254 | a 34- or 68-byte body, whatever its bytes, replaces the telemetry with its decoding and then notifies every registered sensor once, in order; a body of any other length changes nothing; the buffer is never touched |
| `Reassembly.Dispatch` | custom_components/hughes_power_watchdog/models.py:214-230 | only a frame with a good tail and command 1 changes anything; the buffer is never touched; notifications are only appended |
| `Reassembly.DispatchFrame` | custom_components/hughes_power_watchdog/models.py:220-230 | a good frame is handed to the report parser iff its command is 1 |
| `Reassembly.Drain` | custom_components/hughes_power_watchdog/models.py:177-178 | the extraction loop ends on a buffer on which a step waits; that buffer is a suffix of the input; notifications are only appended |
| `Reassembly.Feed` | custom_components/hughes_power_watchdog/models.py:165-178 | a notification that takes the buffer past MAX_BUFFER_SIZE clears it and changes nothing else; otherwise the loop runs. Afterwards the buffer is within the limit and waiting |
| `Reassembly.DrainResync` | custom_components/hughes_power_watchdog/models.py:186-192 | draining sees only the resynchronised buffer |
| `Reassembly.DrainAppend` | custom_components/hughes_power_watchdog/models.py:165-178 | fragmentation transparency: draining, then draining the remainder plus more bytes, equals draining all bytes at once |
| `Reassembly.FeedTwoChunks` | custom_components/hughes_power_watchdog/models.py:165-178 | two non-overflowing notifications equal one notification of their concatenation |
| `Reassembly.FeedAllDrains` | custom_components/hughes_power_watchdog/models.py:165-178 | from a waiting buffer, any number of notifications none of which overflows end exactly where draining all their bytes at once ends |
| `Reassembly.DrainQuiescent` | custom_components/hughes_power_watchdog/models.py:177-178 | the loop on a waiting buffer changes nothing |
| `Manager.PowerWatchdogManager.constructor` | custom_components/hughes_power_watchdog/models.py:99-109 | no sensors, empty telemetry, empty buffer |
| `Manager.PowerWatchdogManager.RegisterSensor` | custom_components/hughes_power_watchdog/models.py:111-113 | the sensor is appended; nothing else changes |
| `Manager.PowerWatchdogManager.ClearBuffer` | custom_components/hughes_power_watchdog/models.py:139 | the buffer is emptied on (re)connection; nothing else changes |
| `Manager.PowerWatchdogManager.NotificationHandler` | custom_components/hughes_power_watchdog/models.py:165-178 | the new state is `Feed` of the old state and the chunk |
| `Manager.PowerWatchdogManager.TryParsePacket` | custom_components/hughes_power_watchdog/models.py:180-230 | returns false exactly when the step waits; the new state is the step's outcome dispatched on the remaining buffer |
| `Manager.PowerWatchdogManager.SkipToIdentifier` | custom_components/hughes_power_watchdog/models.py:188-192 | the in-place scan leaves exactly `Resync` of the old buffer |
| `Manager.PowerWatchdogManager.ParseDlReport` | custom_components/hughes_power_watchdog/models.py:234-254 | the new state is `Report` of the old state and the body |
| `Builders.I32BEAt` | tests/helpers.py:27-34 | a signed field written at an offset reads back there |
| `Builders.BuildDlData` | tests/helpers.py:14-36 | the block is 34 bytes: backlight 5, neutral 0, temperature 25; byte 26 is 1 iff boost; error and status at 32 and 33 |
| `Builders.BuildDlDataLayout` | tests/helpers.py:26-35 | each measurement reads back from the offset the decoder uses |
| `Builders.ParseBuiltDlData` | tests/helpers.py:14-36 | decoding an encoded block gives exactly the encoded values |
| `Builders.BuildPacket` | tests/helpers.py:39-45 | length is 9 + body + 2; identifier, version 1, msgId 0 and command in the header; big-endian body length; the body verbatim; tail 0x7121 |
| `Builders.Build30APacket` | tests/helpers.py:48-64 | a DLReport frame with a 34-byte body |
| `Builders.Build50APacket` | tests/helpers.py:67-87 | a DLReport frame with a 68-byte body |
| `Builders.TwoLineBody` | tests/helpers.py:79-87 | the 50 A body is two 34-byte blocks |
| `Scenarios.DispatchRx` | custom_components/hughes_power_watchdog/models.py:220-230 | dispatch neither reads nor writes the buffer |
| `Scenarios.FrameStep` | custom_components/hughes_power_watchdog/models.py:186-218 | a built frame, whatever follows, is extracted in one step with its command and body; exactly the bytes after it remain |
| `Scenarios.FramePrefixWaits` | custom_components/hughes_power_watchdog/models.py:194-207 | every proper prefix of a frame waits and is kept whole |
| `Scenarios.DrainFrame` | custom_components/hughes_power_watchdog/models.py:209-230 | a buffer starting with a frame dispatches it, then drains the rest |
| `Scenarios.DrainEmpty` | custom_components/hughes_power_watchdog/models.py:177-178 | the loop on an empty buffer changes nothing |
| `Scenarios.DrainOneFrame` | custom_components/hughes_power_watchdog/models.py:177-230 | a buffer holding exactly one frame dispatches it and ends empty |
| `Scenarios.FeedOneFrame` | custom_components/hughes_power_watchdog/models.py:165-230 | one notification carrying one frame, into an empty buffer, dispatches it and leaves the buffer empty |
| `Scenarios.FeedAllEmpty` | custom_components/hughes_power_watchdog/models.py:165-178 | empty notifications leave an empty-buffer session unchanged |
| `Scenarios.ChunkedPrefix` | custom_components/hughes_power_watchdog/models.py:165-207 | with part of a frame buffered, the chunks that complete it dispatch it exactly once |
| `Scenarios.ChunkedFrame` | custom_components/hughes_power_watchdog/models.py:165-230 | however a frame is split into notifications, it is dispatched exactly once and the buffer ends empty |
| `Scenarios.PartialFrameBuffered` | custom_components/hughes_power_watchdog/models.py:194-207 | the first bytes of a frame are kept whole, with nothing decoded and nothing notified |
| `Scenarios.TwoFramesInOneNotification` | custom_components/hughes_power_watchdog/models.py:177-178 | two frames in one notification are both dispatched, in order; the buffer ends empty |
| `Scenarios.SingleLineReport` | custom_components/hughes_power_watchdog/models.py:234-254 | a one-line report sets line 1 to the encoded values, clears `hasL2`, keeps line 2 and notifies each sensor once |
| `Scenarios.SingleLineRoundTrip` | tests/helpers.py:48-64 | a 30 A packet, into an empty buffer: line 1 is the encoded values with boost off; single-line; line 2 kept; each sensor notified once; buffer empty |
| `Scenarios.TwoLineRoundTrip` | tests/helpers.py:67-87 | a 50 A packet, into an empty buffer: both lines are the encoded values, `hasL2` is set, each sensor is notified once, the buffer is empty |
| `Scenarios.LastReportWins` | tests/test_protocol.py:206-215 | of two reports in one notification, the later one's values are kept and sensors are notified twice |
| `Scenarios.ErrorReportBetweenReports` | tests/test_protocol.py:308-323 | an error report between two reports is consumed without effect; the second report's values are kept |
| `Scenarios.GarbageSkipped` | custom_components/hughes_power_watchdog/models.py:188-192 | bytes without 0x24 before a frame are dropped with no other effect |
| `Scenarios.AbsurdLengthStep` | custom_components/hughes_power_watchdog/models.py:200-203 | an identifier whose length exceeds MAX_BUFFER_SIZE loses exactly its 4 bytes in one step |
| `Scenarios.AbsurdLengthSkipped` | custom_components/hughes_power_watchdog/models.py:200-203 | after such a header, the following frame is handled as if the header had never arrived |
| `Scenarios.OversizedFrameWaits` | custom_components/hughes_power_watchdog/models.py:200-207 | a length that passes the guard but makes the frame longer than MAX_BUFFER_SIZE waits on every buffer within the limit |
| `Scenarios.BadTailDropped` | custom_components/hughes_power_watchdog/models.py:209-218 | a frame with a tail other than 0x7121 is consumed whole, and nothing is decoded or notified |
| `Scenarios.IgnoredFrame` | custom_components/hughes_power_watchdog/models.py:220-250 | a frame with a command other than 1, or a report of the wrong body length, is consumed without effect |

## Left out

- Bluetooth I/O is not modelled: `connect_loop`, device lookup, the connection, the notification subscription, the handshake write, reconnect sleeps and `_on_disconnected`. The buffer clear on every connection is kept as `ClearBuffer`.
- Logging and the warning on overflow are not modelled.
- `ParseDlData`: keeps the raw signed 32-bit measurements. The division by 10 000 or 100 and the `round()` to floats at models.py:271-277 are not modelled, because they are floating point.
- `BuildDlData`: takes the raw integers directly. The float arguments and their `int(x * 10_000)` / `int(x * 100)` conversion are not modelled. A value that `struct.pack(">i")` would reject is excluded by `requires IsI32`.
- `BuildPacket`: a body of 65 536 bytes or more, which `struct.pack(">H")` would reject, is excluded by `requires`. A command byte outside 0-255, which `bytes([...])` would reject, is excluded by the `byte` type.
- Sensor notifications are modelled as a log of the sensors notified, in order. What `async_write_ha_state` then does is not part of this model (`sensor.py`).
- `MAX_BUFFER_SIZE` is 8192, a value chosen for this model: `const.py` does not define it, and models.py:170 and :200 only use the name. The lemmas need at least 79 (`TwoLineRoundTrip`, `FeedOneFrame` on a 50 A packet) and at least 133 for `ErrorReportBetweenReports` with the 32-byte error body of test_protocol.py:315. It must be below 65436 so that the length of test_protocol.py:494 fits a 16-bit field.
- `PACKET_IDENTIFIER`, `PACKET_TAIL`, the sizes and the command codes take the values the test suite asserts (test_protocol.py:508-540). `const.py` as shown does not define them either.
- Concurrency: the handler is modelled as running one notification at a time to completion, as a Home Assistant callback does.
- Not part of this model: `sensor.py`, `button.py`, `config_flow.py`, `__init__.py`.
