# SunnyBeamTool in Dafny

This project models the `SunnyBeam` class of SunnyBeamTool. The class is a
client for the SMA Sunny Beam display, which it reaches over USB. The tool talks to the device in
HDLC-like frames. Each frame is delimited by 0x7E. Bytes 0x7E and 0x7D inside
a frame are escaped as 0x7D followed by the byte XOR 0x20. Each frame carries
a CRC-16/X-25 frame check sequence (FCS), little-endian, in the two bytes
before the closing flag.

The model covers:

- **Bytes** (`bytes.dfy`): bytes as `bv8`. It includes Python's slice and
  slice-assignment semantics with negative and clamped bounds. It also covers
  `int.to_bytes(4, 'little')`, including its OverflowError, and the signed
  32-bit `struct.unpack('i')`.
- **CRC** (`crc_table.dfy`, `crc.dfy`): the 256-entry `fcstable` and the
  table-driven FCS step. The step is proved equal to a byte-wise shift
  register with the reflected polynomial 0x8408. Every table entry is proved
  to be what eight register shifts produce from its index. The CRC is tied to
  CRC-16/X-25 by its check value, 0x906E for "123456789".
- **Frame encoding** (`codec.dfy`): the send path's un-escaping of the body
  before the CRC, the device-ID splice at bytes 7-8, and the byte stuffing of
  the checksum that is written into the slot `msg[-3:-1]`.
- **Frame scanning** (`scanner.dfy`): the receive loop.
  - It drops the two raw header bytes of each USB read.
  - It looks for the opening and closing 0x7E.
  - It applies the "0x01 0x60" idle rule, which deletes the last collected
    byte.
  - It un-escapes bytes and verifies the checksum.

  Both the loop and the checksum check are proved against a function. The
  main result proved: a frame built by the send path, once read back, comes
  out as the flag, the un-escaped body, the correct little-endian CRC and the
  flag, and its checksum verifies.
- **Measurement records** (`records.dfy`): the 12-byte record slicing of a
  combined reply and the reversal of the record list.
- **Protocol** (`protocol.dfy`): every request of the class as a function of
  the session (`__connected`, `__device_id`) and of the transport state:
  - connect and the device-ID search;
  - the SYN-online handshake;
  - live data;
  - the combined multi-frame read for today's and last month's series.

  The transport state is a queue of chunks still to be read, a queue of
  results for the writes still to come, and the log of frames written.
- **The class** (`sunnybeam.dfy`): `SunnyBeam` and its USB `Transport` as
  classes whose methods mutate fields. Each method is proved to produce
  exactly the outcome and new transport state of its protocol function.
- **The stand-alone `calc_checksum`** (`checksum_routine.dfy`): the routine
  as written and as evidently intended (see Findings). The class method
  uses the intended version.

Python exceptions that escape an operation become `Raised(...)` outcomes:

- IndexError: deleting from an empty buffer, or `tmpbuf[10]` on a short frame.
- TypeError: `len(0)` when a series request's combined read returns 0 (see Findings), or splicing a missing device ID.
- struct.error: a short slice.
- OverflowError: `to_bytes`.
- UnboundLocalError: `get_measurements` after a write that returned 0.

The ValueError or OverflowError that `int(...)` raises on a NaN or infinite
`pac` float is not among them (see "## Left out").

## Model

| member | source | states |
|---|---|---|
| Bytes.LittleEndian16 | sunnybeamtool/sunnybeamtool.py:159 | the two-byte little-endian form of the CRC recombines to the CRC |
| Bytes.LittleEndianRoundTrip | sunnybeamtool/sunnybeamtool.py:248 | reading back the n little-endian bytes of any value below 256^n gives the value |
| Bytes.FromLittleEndianBound | sunnybeamtool/sunnybeamtool.py:248 | n little-endian bytes denote a value below 256^n |
| Bytes.ToBytes4 | sunnybeamtool/sunnybeamtool.py:247-248 | `to_bytes(4, 'little')` succeeds exactly for 0 <= v < 2^32, and its four bytes read back as v |
| Bytes.Int32LittleEndian | sunnybeamtool/sunnybeamtool.py:135 | the timestamp is the unsigned little-endian value of the four bytes, less 2^32 when the top bit of byte 3 is set; so it is a signed 32-bit value, negative exactly when that bit is set |
| CrcTable.TableIsGenerated | sunnybeamtool/sunnybeamtool.py:287-321 | the table has 256 entries, each equal to eight shift-register rounds (polynomial 0x8408) applied to its index |
| Crc.EntryIsGenerated | sunnybeamtool/sunnybeamtool.py:280-281 | the entry the FCS step looks up is the register image of the low byte of fcs XOR b |
| Crc.StepIsShift | sunnybeamtool/sunnybeamtool.py:280-282 | one table-driven FCS step equals the byte-wise shift-register step, for every FCS and byte |
| Crc.FoldIsShift | sunnybeamtool/sunnybeamtool.py:272-282 | folding a byte string with the table equals folding it with the shift register |
| Crc.TableCrcIsCrc16 | sunnybeamtool/sunnybeamtool.py:270-283 | the table-driven CRC (init 0xFFFF, final XOR 0xFFFF) equals the reference CRC-16 on every input |
| Crc.CheckValue | sunnybeamtool/sunnybeamtool.py:13 | the reference CRC has the X-25 check value 0x906E on "123456789" |
| FrameCodec.UnescapeLength | sunnybeamtool/sunnybeamtool.py:146-155 | the un-escaped body has one byte per non-0x7D byte of the input |
| FrameCodec.UnescapeAppend | sunnybeamtool/sunnybeamtool.py:146-155 | un-escaping a concatenation is un-escaping the parts with the pending-escape state carried across |
| FrameCodec.UnescapeForCrc | sunnybeamtool/sunnybeamtool.py:146-155 | the send path's loop returns the un-escaped body, one byte per non-0x7D input byte |
| FrameCodec.StuffShape | sunnybeamtool/sunnybeamtool.py:160-169 | stuffed bytes never contain 0x7E, and stuffing adds one byte per 0x7E or 0x7D |
| FrameCodec.UnescapeStuff | sunnybeamtool/sunnybeamtool.py:160-169 | un-escaping stuffed bytes gives back the original bytes with no escape pending (the round trip) |
| FrameCodec.StuffChecksum | sunnybeamtool/sunnybeamtool.py:160-169 | the stuffing loop returns the stuffed checksum, which has no 0x7E and the stated length |
| FrameCodec.DeviceIdSplice | sunnybeamtool/sunnybeamtool.py:143-144 | splicing a two-byte ID puts it at bytes 7-8 and changes no other byte or the length |
| FrameCodec.ChecksumSlot | sunnybeamtool/sunnybeamtool.py:157-170 | the sent frame keeps the prefix and closing byte, and its slot holds 2 to 4 flag-free bytes that un-escape to the little-endian CRC of the un-escaped body |
| FrameScanner.RecvUnmask | sunnybeamtool/sunnybeamtool.py:216-223 | the receive path's three escape branches (0x5E, 0x5D, else XOR 0x20) agree with the send path's XOR 0x20 |
| FrameScanner.ScanChunkBytes | sunnybeamtool/sunnybeamtool.py:195-227 | the per-chunk loop leaves exactly the scan state of the chunk's specification function |
| FrameScanner.ScanFromShift | sunnybeamtool/sunnybeamtool.py:198-227 | scanning depends only on the remaining bytes and on whether the previous byte is 0x01 |
| FrameScanner.HeaderIgnored | sunnybeamtool/sunnybeamtool.py:195-198 | the first two raw bytes of a read never reach the output, except that byte 1 matters when it is 0x01 |
| FrameScanner.ScanFromPrefix | sunnybeamtool/sunnybeamtool.py:198-227 | scanning a chunk is scanning a prefix of it, then going on from where the prefix ended |
| FrameScanner.ChunkBoundary | sunnybeamtool/sunnybeamtool.py:188-227 | a frame split over two reads scans as if it came in one read, when the idle-rule context matches |
| FrameScanner.IdlePairVanishes | sunnybeamtool/sunnybeamtool.py:208-210 | inside a frame, a 0x01 0x60 pair leaves the collected bytes as they were |
| FrameScanner.IdlePairOnEmptyFails | sunnybeamtool/sunnybeamtool.py:208-209 | an idle pair right after the header, with nothing collected, makes `del buf_out[-1]` fail |
| FrameScanner.ScanFromClosed | sunnybeamtool/sunnybeamtool.py:225-227 | once the closing flag is found, the output stays non-empty and ends in 0x7E, or in 0x5E when the closing flag followed 0x7D, and nothing more is collected |
| FrameScanner.ReadLoopShape | sunnybeamtool/sunnybeamtool.py:188-230 | the read loop consumes a prefix of at most `max_iterations` chunks and keeps a closed frame closed; once the frame has ended, no further chunk is read and the frame is returned as it is |
| FrameScanner.ScanSegment | sunnybeamtool/sunnybeamtool.py:198-225 | a flag-free and idle-free stretch of a chunk is collected as its un-escaping |
| FrameScanner.ScanByteInSegment | sunnybeamtool/sunnybeamtool.py:199-225 | one non-flag byte outside an idle pair advances the scan as one step of un-escaping |
| FrameScanner.FrameLayout | sunnybeamtool/sunnybeamtool.py:170 | a sent frame behind a two-byte header opens and closes with 0x7E and has no flag between |
| FrameScanner.ScanWholeFrame | sunnybeamtool/sunnybeamtool.py:198-227 | a whole frame in one read scans to flag, un-escaped contents, flag, with the loop ended |
| FrameScanner.ChecksumVerifies | sunnybeamtool/sunnybeamtool.py:235-238 | a buffer that ends with the little-endian CRC of its body passes the checksum comparison |
| FrameScanner.ReceiveInvertsSend | sunnybeamtool/sunnybeamtool.py:142-240 | reading back a frame the send path produced gives flag, the un-escaped body, its CRC and flag, and the checksum verifies |
| MeasurementDecoder.Reverse | sunnybeamtool/sunnybeamtool.py:139 | reversing, defined by moving the head to the end, has the same length and puts element n-1-k at position k |
| MeasurementDecoder.DecodeFromShape | sunnybeamtool/sunnybeamtool.py:130-135 | slicing succeeds exactly when no 12-byte slice is short (otherwise struct.error); the k-th record is read at offset i+12k |
| MeasurementDecoder.ParseShape | sunnybeamtool/sunnybeamtool.py:125-139 | empty input gives 0; otherwise ceil((n-5)/12) records in reverse order, or struct.error exactly when (n-5) is not a multiple of 12 |
| MeasurementDecoder.ParseMeasurements | sunnybeamtool/sunnybeamtool.py:125-139 | the parsing loop returns the result of the parser's specification function |
| Protocol.ContinuationCommand | sunnybeamtool/sunnybeamtool.py:109 | the continuation request is a 15-byte flagged frame carrying the line count at byte 10 |
| Protocol.GetMeasurementsF | sunnybeamtool/sunnybeamtool.py:45-66 | a disconnected session returns 0 without traffic; a success is 0 or three 4-byte values |
| Protocol.GetSeriesF | sunnybeamtool/sunnybeamtool.py:68-89 | a disconnected session returns 0 without traffic; a success is 0 or a record list |
| Protocol.SpliceBoth | sunnybeamtool/sunnybeamtool.py:143-170 | splicing ID and checksum slot yields prefix, ID, template middle, slot, closing byte |
| Protocol.SentFrameLayout | sunnybeamtool/sunnybeamtool.py:142-170 | the frame sent with a device ID has the template's bytes 0-6, the ID at 7-8, the template middle, the stuffed checksum, and the closing byte |
| Protocol.ReadFrameShape | sunnybeamtool/sunnybeamtool.py:179-240 | reading consumes at most `max_iterations` queued chunks, writes nothing, and a frame whose end was found is non-empty and ends in 0x7E, or in 0x5E when the closing flag followed 0x7D |
| Protocol.ReadBackSentFrame | sunnybeamtool/sunnybeamtool.py:179-240 | a queued sent frame is read back in one iteration as flag, body, CRC, flag, with a verifying checksum |
| Protocol.SynOnlineShape | sunnybeamtool/sunnybeamtool.py:260-267 | the handshake logs the checksummed SYN frame, is false exactly when the write returns 0 (and then reads nothing), and reads at most 5 chunks |
| Protocol.SearchRequestShape | sunnybeamtool/sunnybeamtool.py:243-248 | the search request exists exactly when serial+140000000 fits in 32 bits, holds it little-endian in bytes 12-15, and keeps the rest of the template |
| Protocol.SearchReplyShape | sunnybeamtool/sunnybeamtool.py:250-257 | a found device ID is two bytes after a write that returned non-zero; the only exceptions are OverflowError and IndexError |
| Protocol.SearchReply | sunnybeamtool/sunnybeamtool.py:243-257 | an out-of-range serial raises OverflowError with no traffic; otherwise the checksummed request is written, a write returning 0 gives None with nothing read, and after a non-zero write the result is `data[5:7]` when the reply has at least 7 bytes and None when it is shorter (IndexError when the read fails) |
| Protocol.ConnectShape | sunnybeamtool/sunnybeamtool.py:33-42 | a stored ID is two bytes, a fresh connection always has an ID, and a refused SET_FEATURE changes nothing |
| Protocol.StaleSessionRaises | sunnybeamtool/sunnybeamtool.py:37-47 | a connected session whose reconnect search fails keeps `connected` with no ID, and the next live request raises TypeError |
| Protocol.CombinedLoopTrace | sunnybeamtool/sunnybeamtool.py:100-119 | the loop makes at most 19 exchanges, the first with no request, each next one requesting the previous reply's line count |
| Protocol.CombinedLoopPayload | sunnybeamtool/sunnybeamtool.py:113-117 | the collected data is the concatenation of `frame[12:-3]` over the frames read |
| Protocol.CombinedLoopStop | sunnybeamtool/sunnybeamtool.py:103-115 | a collected result stops on an empty frame, a zero line count, or the exhausted budget |
| Protocol.ExchangeSent | sunnybeamtool/sunnybeamtool.py:107-113 | one iteration logs exactly the continuation request for the line count, or nothing for 0xFF |
| Protocol.CombinedLoopRequests | sunnybeamtool/sunnybeamtool.py:107-119 | the frames written by the loop are exactly the requests of its exchanges, in order |
| Protocol.CombinedReadBounds | sunnybeamtool/sunnybeamtool.py:100-122 | the combined read from line count 0xFF makes at most 19 exchanges, collects their payloads, and writes exactly their continuation requests |
| Protocol.CombinedReadZero | sunnybeamtool/sunnybeamtool.py:92-98 | a handshake answering false, or a first request whose write returns 0, makes the combined read return 0 with the transport as left by that step; a missing device ID raises TypeError at the first request |
| Protocol.ContinuationWriteFails | sunnybeamtool/sunnybeamtool.py:107-112 | a continuation request whose write returns 0 ends the loop with 0 |
| Protocol.ShortReplyRaises | sunnybeamtool/sunnybeamtool.py:113-119 | a non-empty reply of at most 10 bytes makes `tmpbuf[10]` raise IndexError |
| Protocol.CombinedLoopRaises | sunnybeamtool/sunnybeamtool.py:100-119 | the loop raises nothing but what its iterations raise and the IndexError of `tmpbuf[10]` |
| Protocol.IterationRaisesIndexOnly | sunnybeamtool/sunnybeamtool.py:107-113 | with a device ID, one iteration can raise only IndexError |
| Protocol.SynOnlineRaisesIndexOnly | sunnybeamtool/sunnybeamtool.py:260-267 | the handshake can raise only IndexError |
| Protocol.SendWithId | sunnybeamtool/sunnybeamtool.py:142-176 | a send with a device ID never raises |
| Protocol.CombinedRaisesIndexOnly | sunnybeamtool/sunnybeamtool.py:92-122 | with a device ID, the combined read can raise only IndexError |
| Protocol.ParseRaisesStructOnly | sunnybeamtool/sunnybeamtool.py:125-139 | the parser can raise only struct.error |
| Protocol.SeriesOnZeroRaises | sunnybeamtool/sunnybeamtool.py:76-77 | as written, a connected series request whose combined read returns 0 raises TypeError (from `len(0)` at line 126) |
| Protocol.SilentDeviceRaises | sunnybeamtool/sunnybeamtool.py:76-77 | as written, a connected series request on a device that accepts no writes raises TypeError |
| Protocol.IntendedSeriesReturnsZero | sunnybeamtool/sunnybeamtool.py:68-89 | the corrected series request returns 0 when the combined read does, agrees with the code otherwise, and with a device ID raises only IndexError or struct.error |
| ChecksumRoutine.PyInvert | sunnybeamtool/sunnybeamtool.py:273 | `~` on a bool is -b-1, never 0 |
| ChecksumRoutine.FoldEscaping | sunnybeamtool/sunnybeamtool.py:272-282 | with escaping on, the routine's loop folds exactly the un-escaped body |
| ChecksumRoutine.FoldRaw | sunnybeamtool/sunnybeamtool.py:272-282 | with escaping off, the loop folds the body as it is |
| ChecksumRoutine.AsWrittenIgnoresFlag | sunnybeamtool/sunnybeamtool.py:269-283 | as written, the routine returns the CRC of the un-escaped `msg[1:-3]` whatever the flag |
| ChecksumRoutine.IntendedHonoursFlag | sunnybeamtool/sunnybeamtool.py:269-283 | with `not ignore_escaping`, the routine returns the CRC of the raw body when escaping is ignored, and of the un-escaped body otherwise |
| ChecksumRoutine.FlagIgnoredOnEscapedBody | sunnybeamtool/sunnybeamtool.py:273 | on a frame whose body is 7D 5E, the routine as written and as intended disagree |
| ChecksumRoutine.FlagChecksum | sunnybeamtool/sunnybeamtool.py:270-283 | the CRC of the single byte 7E is 0x6A81 |
| ChecksumRoutine.EscapedFlagChecksum | sunnybeamtool/sunnybeamtool.py:270-283 | the CRC of the bytes 7D 5E is 0xF400 |
| SunnyBeamTool.Transport.constructor | sunnybeamtool/sunnybeamtool.py:191 | a new transport holds the given read chunks and write results and has sent nothing |
| SunnyBeamTool.Transport.Write | sunnybeamtool/sunnybeamtool.py:176 | a write returns and leaves what `WriteF` says |
| SunnyBeamTool.Transport.Read | sunnybeamtool/sunnybeamtool.py:191 | a read returns and leaves what `ReadF` says |
| SunnyBeamTool.SunnyBeam.constructor | sunnybeamtool/sunnybeamtool.py:12-14 | a new tool is not connected and has no device ID |
| SunnyBeamTool.SunnyBeam.Connect | sunnybeamtool/sunnybeamtool.py:16-42 | no device changes nothing; otherwise the session and transport become what `ConnectF` says, and an exception leaves the session unchanged |
| SunnyBeamTool.SunnyBeam.GetMeasurements | sunnybeamtool/sunnybeamtool.py:45-66 | the live request's result and transport are those of `GetMeasurementsF` |
| SunnyBeamTool.SunnyBeam.GetTodayMeasurements | sunnybeamtool/sunnybeamtool.py:68-77 | today's series is `GetSeriesF` with the day command |
| SunnyBeamTool.SunnyBeam.GetLastMonthMeasurements | sunnybeamtool/sunnybeamtool.py:80-89 | last month's series is `GetSeriesF` with the month command |
| SunnyBeamTool.SunnyBeam.GetSeries | sunnybeamtool/sunnybeamtool.py:70-77 | the shared body of the two series requests: not connected gives 0, otherwise the combined read parsed |
| SunnyBeamTool.SunnyBeam.DoCombinedReadMessages | sunnybeamtool/sunnybeamtool.py:92-122 | the combined read's result and transport are those of its specification function |
| SunnyBeamTool.SunnyBeam.CollectReplies | sunnybeamtool/sunnybeamtool.py:100-122 | the `while linecnt != 0` loop ends exactly as the recursive `CombinedLoop` from budget 20 and line count 0xFF |
| SunnyBeamTool.SunnyBeam.RequestNext | sunnybeamtool/sunnybeamtool.py:107-113 | one iteration's request and read match the iteration function |
| SunnyBeamTool.SunnyBeam.SendRawMessage | sunnybeamtool/sunnybeamtool.py:142-176 | the frame written and the result match `SendF`; without a device-ID splice the send never raises |
| SunnyBeamTool.SunnyBeam.ReadRawMessage | sunnybeamtool/sunnybeamtool.py:179-240 | the buffer and transport match `ReadFrameF`, and the bad-CRC warning fires exactly when the checksum comparison fails |
| SunnyBeamTool.SunnyBeam.SearchDeviceId | sunnybeamtool/sunnybeamtool.py:243-257 | the search's result and transport match `SearchDeviceIdF` |
| SunnyBeamTool.SunnyBeam.DoSynOnline | sunnybeamtool/sunnybeamtool.py:260-267 | the handshake's result and transport match `SynOnlineF` |
| SunnyBeamTool.SunnyBeam.CalcChecksum | sunnybeamtool/sunnybeamtool.py:269-283 | with the escape test corrected (see Findings): the CRC-16/X-25 of the raw `msg[1:-3]` when escaping is ignored, of the un-escaped `msg[1:-3]` otherwise |

## Left out

- USB discovery is left out: `core.find`, `reset`, `set_configuration`, `claim_interface` and the `manufacturer`/`serial_number` strings. `Connect` takes `found`, `featureAccepted` (the SET_FEATURE control transfer returned 0) and the serial number as an integer.
- `int(self.__dev.serial_number)` raising ValueError on a non-numeric serial is not modelled, because the serial number is passed as an integer.
- The `asyncio.sleep` delays, the endpoints, `buffer_size` and the 1000 ms timeouts are left out. pyusb's `read` and `write` raise USBTimeoutError or USBError on a timeout or a transfer failure, and the tool catches neither. These transport exceptions are not modelled. The model's transport never raises: an exhausted read queue yields an empty chunk, and an exhausted write queue the result 0.
- `crcmod` is a library: its `x-25` function is modelled by the reference `Crc.Crc16`. `Crc.CheckValue` ties that reference to the X-25 check value.
- Bytes.Int32LittleEndian: `struct.unpack('i', ...)` at line 135 uses the host's native byte order and int size; the model fixes them to a 4-byte little-endian int, as on x86 and ARM hosts. A big-endian host is not modelled.
- The float decoding is kept as raw bytes: `struct.unpack('f')`, `int(...)` and `round(...)` in live data, and `round(..., 0)` in records. `datetime.utcfromtimestamp` is kept as the signed timestamp. Floating point is not modelled, so neither is the ValueError or OverflowError that `int(...)` at line 58 raises when `pac` decodes to NaN or infinity, nor any error of `utcfromtimestamp` on an out-of-range timestamp.
- Logging is left out, except the bad-CRC warning, which is the `badCrc` result of `ReadRawMessage`.
- Protocol.GetMeasurementsF: its own contract states only the disconnected case and the shape of a success. The exact outcome of every branch is its definition, and `SunnyBeam.GetMeasurements` is proved equal to it.
- Protocol.GetSeriesF: its own contract states only the disconnected case and the shape of a success. The parse and error branches are its definition, and `ParseShape` describes the parse.
- SunnyBeamTool.SunnyBeam.CalcChecksum: models the corrected escape test, not the one at line 273. `ChecksumRoutine.CalcChecksumAsWritten` keeps the test as written (see Findings). The tool itself never calls this routine.
- A session with no `__device_id` attribute is modelled with the ID `None`. The AttributeError Python would raise is unreachable. Outside `connect`, the attribute is read only at line 144, on paths guarded by `__connected` (lines 47, 70, 82). `__connected` is set only after `__device_id` has been assigned (lines 37-42). A connected session whose later search failed holds `None`, which raises TypeError (`StaleSessionRaises`), not AttributeError.
- SunnyBeamTool.SunnyBeam.GetSeries: follows the code as written, so a combined read that returns 0 raises TypeError. The evidently intended behaviour is `Protocol.GetSeriesIntendedF` (see Findings). The class keeps the behaviour the tool's callers actually see.
- The example script that drives the class is not part of this model.

## Findings

| source | as written | input that shows it | evidently intended | confidence | as-written member | corrected member |
|---|---|---|---|---|---|---|
| sunnybeamtool/sunnybeamtool.py:273 | `~ignore_escaping and b == 0x7d`: `~` on a bool gives -1 or -2, which is always true, so escape markers are always skipped | `calc_checksum(bytes([0x7E, 0x7D, 0x5E, 0, 0, 0x7E]), True)` gives the CRC of 7E (0x6A81) instead of the CRC of 7D 5E (0xF400) | `not ignore_escaping and b == 0x7d` | not executed | ChecksumRoutine.FlagIgnoredOnEscapedBody | ChecksumRoutine.IntendedHonoursFlag |
| sunnybeamtool/sunnybeamtool.py:76-77 | `get_today_measurements` and `get_last_month_measurements` pass the combined read's result to the parser. The combined read returns the int 0 on a failed handshake or write (lines 93-98, 110-112), and the parser's `len(rawdata)` (line 126) then raises TypeError | a connected session whose device accepts no writes: the handshake's write returns 0, `__do_combined_read_messages` returns 0, and `get_today_measurements()` raises TypeError | return 0, as a disconnected session does (lines 70-72) | not executed | Protocol.SilentDeviceRaises | Protocol.IntendedSeriesReturnsZero |
