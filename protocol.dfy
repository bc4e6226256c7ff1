/** The request/reply protocol of the Sunny Beam, over an abstract transport:
    a queue of raw read chunks, a queue of write results and a log of the
    frames written. Each operation is a function from the transport's state
    (and the session's) to its outcome and the new transport state; Python
    exceptions that escape an operation are `Raised` outcomes. */
module Protocol {
  import opened Bytes
  import opened FrameCodec
  import opened FrameScanner
  import opened MeasurementDecoder

  /** The transport as the protocol sees it: the chunks still to be read, the
      results of the writes still to come, and every frame written so far. */
  datatype Wire = Wire(chunks: seq<seq<byte>>, writes: seq<nat>, sent: seq<seq<byte>>)

  /** The connection state of a `SunnyBeam`: `__connected` and `__device_id`. */
  datatype Session = Session(connected: bool, deviceId: Option<seq<byte>>)

  /** What a combined read returns: 0 on a failed handshake or write, the
      collected payload otherwise. */
  datatype Combined = ZeroCombined | Collected(data: seq<byte>)

  /** What the public requests return: 0, the three raw values of the live
      reading, or a list of records. */
  datatype Reply =
    | ZeroReply
    | Instant(pac: seq<byte>, etoday: seq<byte>, etotal: seq<byte>)
    | Series(records: seq<Record>)

  // ---------------------------------------------------------------------
  // Command templates

  const SynOnlineCommand: seq<byte> :=
    [0x7e, 0xff, 0x03, 0x40, 0x41, 0x00, 0x00, 0x00, 0x00, 0x80, 0x00, 0x0a, 0x00, 0x00, 0x00, 0x00, 0x2d, 0x2e, 0x7e]
  const SearchCommand: seq<byte> :=
    [0x7e, 0xFF, 0x03, 0x40, 0x41, 0x00, 0x00, 0x00, 0x00, 0x90, 0x00, 0x02, 0x00, 0x00, 0x00, 0x00, 0x00, 0x00, 0x7e]
  const LiveDataCommand: seq<byte> :=
    [0x7e, 0xff, 0x03, 0x40, 0x41, 0x00, 0x00, 0x00, 0x00, 0x10, 0x00, 0x0b, 0x0f, 0x09, 0x00, 0x00, 0x00, 0x7e]
  const TodayCommand: seq<byte> :=
    [0x7e, 0xff, 0x03, 0x40, 0x41, 0x00, 0x00, 0x00, 0x00, 0x10, 0x00, 0x0b, 0x04, 0x19, 0x01, 0xd1, 0x4c, 0x20, 0x4a,
     0xff, 0xff, 0xff, 0x7f, 0x00, 0x00, 0x7e]
  const LastMonthCommand: seq<byte> :=
    [0x7e, 0xff, 0x03, 0x40, 0x41, 0x00, 0x00, 0xd4, 0xf5, 0x10, 0x00, 0x0b, 0x04, 0x7d, 0x31, 0x02, 0x7f, 0x25, 0x1f,
     0x4a, 0xff, 0xff, 0xff, 0x7f, 0x00, 0x00, 0x7e]

  /** The request for the next part of a combined reply, naming the number
      of lines still to come. */
  function ContinuationCommand(linecnt: byte): (r: seq<byte>)
    ensures |r| == 15 && r[10] == linecnt && r[0] == Flag && r[14] == Flag
  {
    [0x7e, 0xff, 0x03, 0x40, 0x41, 0x00, 0x00, 0x00, 0x00, 0x10, linecnt, 0x0b, 0x00, 0x00, 0x7e]
  }

  const SerialOffset: int := 140000000
  const CombinedBudget: nat := 20
  const NoLineCount: byte := 0xFF
  const LineCountIndex: nat := 10
  const PayloadStart: nat := 12
  const SynOnlineReads: nat := 5
  const SearchReads: nat := 20
  const DataReads: nat := 50

  // ---------------------------------------------------------------------
  // The transport

  /** A write: the next queued result (0 once the queue is empty) and the
      frame appended to the log. */
  function WriteF(w: Wire, data: seq<byte>): (nat, Wire)
  {
    if w.writes == [] then (0, w.(sent := w.sent + [data]))
    else (w.writes[0], w.(writes := w.writes[1..], sent := w.sent + [data]))
  }

  /** A read: the next queued chunk (empty once the queue is empty). */
  function ReadF(w: Wire): (seq<byte>, Wire)
  {
    (NextChunk(w.chunks), w.(chunks := RestChunks(w.chunks)))
  }

  // ---------------------------------------------------------------------
  // Sending and receiving frames

  /** The frame the send path writes for `msg`: the device ID spliced into
      bytes 7-8 when asked (a missing ID makes the slice assignment raise
      TypeError), then the stuffed checksum written into the slot. */
  function Encode(msg: seq<byte>, setDeviceId: bool, deviceId: Option<seq<byte>>): Result<seq<byte>>
  {
    if !setDeviceId then Ok(WithChecksum(msg))
    else if deviceId.None? then Raised(TypeError)
    else Ok(WithChecksum(WithDeviceId(msg, deviceId.value)))
  }

  /** `__send_raw_message`: the write's result. */
  function SendF(w: Wire, msg: seq<byte>, setDeviceId: bool, deviceId: Option<seq<byte>>): (Result<nat>, Wire)
  {
    match Encode(msg, setDeviceId, deviceId)
    case Raised(e) => (Raised(e), w)
    case Ok(frame) =>
      var written := WriteF(w, frame);
      (Ok(written.0), written.1)
  }

  /** `__read_raw_message`: the scanned frame, or IndexError when the idle
      rule deletes from an empty buffer. The checksum check only logs. */
  function ReadFrameF(w: Wire, maxIterations: nat): (Result<seq<byte>>, Wire)
  {
    var stOut := ReadLoop(InitialScan, w.chunks, maxIterations);
    var st, rest := stOut.0, stOut.1;
    (if st.failed then Raised(IndexError) else Ok(st.out), w.(chunks := rest))
  }

  /** `__do_syn_online`: false when the write returns 0, otherwise true after
      one read whose result is discarded. */
  function SynOnlineF(w: Wire): (Result<bool>, Wire)
  {
    var nOut := SendF(w, SynOnlineCommand, false, None);
    var n, w1 := nOut.0, nOut.1;
    if n.Raised? then (Raised(n.error), w1)
    else if n.value == 0 then (Ok(false), w1)
    else
      var replyOut := ReadFrameF(w1, SynOnlineReads);
      var reply, w2 := replyOut.0, replyOut.1;
      if reply.Raised? then (Raised(reply.error), w2) else (Ok(true), w2)
  }

  /** The search request for a serial number: `serial + 140000000` as four
      little-endian bytes in bytes 12-15, or OverflowError when that does
      not fit. */
  function SearchRequest(serial: int): Result<seq<byte>>
  {
    match ToBytes4(serial + SerialOffset)
    case Raised(e) => Raised(e)
    case Ok(b) => Ok(PySplice(SearchCommand, 12, 16, b))
  }

  /** `__search_device_id`: bytes 5-6 of the reply, or None when the write
      returns 0 or the reply is shorter than 7 bytes. */
  function SearchDeviceIdF(w: Wire, serial: int): (Result<Option<seq<byte>>>, Wire)
  {
    match SearchRequest(serial)
    case Raised(e) => (Raised(e), w)
    case Ok(request) =>
      var nOut := SendF(w, request, false, None);
      var n, w1 := nOut.0, nOut.1;
      if n.Raised? then (Raised(n.error), w1)
      else if n.value > 0 then
        var dataOut := ReadFrameF(w1, SearchReads);
        var data, w2 := dataOut.0, dataOut.1;
        if data.Raised? then (Raised(data.error), w2)
        else if |data.value| < 7 then (Ok(None), w2)
        else (Ok(Some(data.value[5..7])), w2)
      else (Ok(None), w1)
  }

  /** `connect`, from the point where the device was found and configured;
      `featureAccepted` is whether the SET_FEATURE control transfer returned
      0. A failed search stores None as the device ID but leaves the
      connected flag as it was. */
  function ConnectF(s: Session, w: Wire, featureAccepted: bool, serial: int): (Result<Session>, Wire)
  {
    if !featureAccepted then (Ok(s), w)
    else
      var idOut := SearchDeviceIdF(w, serial);
      var id, w1 := idOut.0, idOut.1;
      if id.Raised? then (Raised(id.error), w1)
      else if id.value.None? then (Ok(s.(deviceId := None)), w1)
      else (Ok(Session(true, id.value)), w1)
  }

  // ---------------------------------------------------------------------
  // Combined reads

  /** One frame of a combined read and the continuation request (if any)
      sent before it. */
  datatype Exchange = Exchange(request: Option<byte>, reply: seq<byte>)

  /** The outcome of the continuation loop, the transport after it, and the
      exchanges it made. */
  datatype Run = Run(outcome: Result<Combined>, wire: Wire, trace: seq<Exchange>)

  /** The part of a frame a combined read keeps: `frame[12:-3]`, for frames
      longer than 12 bytes. */
  function Payload(frame: seq<byte>): seq<byte>
  {
    if |frame| > PayloadStart then PySlice(frame, PayloadStart, -3) else []
  }

  function Payloads(trace: seq<Exchange>): seq<byte>
  {
    if trace == [] then [] else Payload(trace[0].reply) + Payloads(trace[1..])
  }

  /** The request a line count calls for: none for 0xFF. */
  function RequestFor(linecnt: byte): Option<byte>
  {
    if linecnt == NoLineCount then None else Some(linecnt)
  }

  /** The continuation loop, with `min` and `linecnt` as they stand at the
      top of an iteration and `acc` the payload collected so far; `exchange`
      is the traffic of one iteration, `Iteration` below. */
  function CombinedLoop(exchange: ExchangeStep, w: Wire, min: nat, linecnt: byte, acc: seq<byte>): Run
    requires min >= 1
    decreases min
  {
    if linecnt == 0 || min == 1 then Run(Ok(Collected(acc)), w, [])
    else
      var ex := exchange(w, linecnt);
      var w2 := ex.1;
      if ex.0.Raised? then Run(Raised(ex.0.error), w2, [])
      else if ex.0.value.None? then Run(Ok(ZeroCombined), w2, [])
      else
        var tmp := ex.0.value.value;
        var step := Exchange(RequestFor(linecnt), tmp);
        if |tmp| == 0 then Run(Ok(Collected(acc)), w2, [step])
        else if |tmp| <= LineCountIndex then Run(Raised(IndexError), w2, [step])
        else
          var r := CombinedLoop(exchange, w2, min - 1, tmp[LineCountIndex], acc + Payload(tmp));
          r.(trace := [step] + r.trace)
  }

  /** The traffic of one iteration of the continuation loop, as a function
      of the transport and the line count. */
  type ExchangeStep = (Wire, byte) -> (Result<Option<seq<byte>>>, Wire)

  function Iteration(deviceId: Option<seq<byte>>): ExchangeStep
  {
    (w, linecnt) => ExchangeF(w, deviceId, linecnt)
  }

  /** `exchange` is the loop's iteration for the device ID `deviceId`. The
      trigger keeps the definition of an iteration out of proofs that only
      apply `exchange`. */
  ghost predicate StepOf(exchange: ExchangeStep, deviceId: Option<seq<byte>>)
  {
    forall w: Wire, linecnt: byte {:trigger ExchangeF(w, deviceId, linecnt)} ::
      exchange(w, linecnt) == ExchangeF(w, deviceId, linecnt)
  }

  lemma IterationIsStep(deviceId: Option<seq<byte>>)
    ensures StepOf(Iteration(deviceId), deviceId)
  {
  }

  /** The traffic of one iteration of the continuation loop: the
      continuation request when `linecnt` calls for one, then a frame read.
      None when the request's write returns 0. */
  function ExchangeF(w: Wire, deviceId: Option<seq<byte>>, linecnt: byte): (Result<Option<seq<byte>>>, Wire)
  {
    if RequestFor(linecnt).None? then ReadReply(w)
    else
      var sendOut := SendF(w, ContinuationCommand(linecnt), true, deviceId);
      var sendResult, w1 := sendOut.0, sendOut.1;
      if sendResult.Raised? then (Raised(sendResult.error), w1)
      else if sendResult.value == 0 then (Ok(None), w1)
      else ReadReply(w1)
  }

  /** The frame read of one iteration. */
  function ReadReply(w: Wire): (Result<Option<seq<byte>>>, Wire)
  {
    var frameOut := ReadFrameF(w, DataReads);
    if frameOut.0.Raised? then (Raised(frameOut.0.error), frameOut.1)
    else (Ok(Some(frameOut.0.value)), frameOut.1)
  }

  /** `__do_combined_read_messages`: the handshake, the first request, then
      the continuation loop. */
  function CombinedF(w: Wire, deviceId: Option<seq<byte>>, command: seq<byte>): (Result<Combined>, Wire)
  {
    var synOut := SynOnlineF(w);
    var syn, w1 := synOut.0, synOut.1;
    if syn.Raised? then (Raised(syn.error), w1)
    else if !syn.value then (Ok(ZeroCombined), w1)
    else
      var nOut := SendF(w1, command, true, deviceId);
      var n, w2 := nOut.0, nOut.1;
      if n.Raised? then (Raised(n.error), w2)
      else if n.value == 0 then (Ok(ZeroCombined), w2)
      else
        var r := CombinedLoop(Iteration(deviceId), w2, CombinedBudget, NoLineCount, []);
        (r.outcome, r.wire)
  }

  // ---------------------------------------------------------------------
  // The public requests

  /** `get_measurements`: 0 when not connected or the handshake fails; the
      raw bytes 25-28, 29-32 and 33-36 of the reply; StructError for a
      non-empty reply shorter than 37 bytes; UnboundLocalError when the
      request's write returns 0. */
  function GetMeasurementsF(s: Session, w: Wire): (r: (Result<Reply>, Wire))
    ensures !s.connected ==> r == (Ok(ZeroReply), w)
    ensures r.0.Ok? ==> r.0.value.ZeroReply? || r.0.value.Instant?
    ensures r.0.Ok? && r.0.value.Instant? ==>
              |r.0.value.pac| == 4 && |r.0.value.etoday| == 4 && |r.0.value.etotal| == 4
  {
    if !s.connected then (Ok(ZeroReply), w)
    else
      var synOut := SynOnlineF(w);
      var syn, w1 := synOut.0, synOut.1;
      if syn.Raised? then (Raised(syn.error), w1)
      else if !syn.value then (Ok(ZeroReply), w1)
      else
        var nOut := SendF(w1, LiveDataCommand, true, s.deviceId);
        var n, w2 := nOut.0, nOut.1;
        if n.Raised? then (Raised(n.error), w2)
        else if n.value > 0 then
          var bufOut := ReadFrameF(w2, DataReads);
          var buf, w3 := bufOut.0, bufOut.1;
          if buf.Raised? then (Raised(buf.error), w3)
          else if |buf.value| <= 0 then (Ok(ZeroReply), w3)
          else if |buf.value| < 37 then (Raised(StructError), w3)
          else (Ok(Instant(buf.value[25..29], buf.value[29..33], buf.value[33..37])), w3)
        else (Raised(UnboundLocalError), w2)
  }

  /** `get_today_measurements` and `get_last_month_measurements`: 0 when not
      connected; otherwise a combined read parsed into records. A combined
      read that returns 0 makes the parser take `len(0)`, a TypeError. */
  function GetSeriesF(s: Session, w: Wire, command: seq<byte>): (r: (Result<Reply>, Wire))
    ensures !s.connected ==> r == (Ok(ZeroReply), w)
    ensures r.0.Ok? ==> r.0.value.ZeroReply? || r.0.value.Series?
  {
    if !s.connected then (Ok(ZeroReply), w)
    else
      var cOut := CombinedF(w, s.deviceId, command);
      var c, w1 := cOut.0, cOut.1;
      if c.Raised? then (Raised(c.error), w1)
      else if c.value.ZeroCombined? then (Raised(TypeError), w1)
      else (ParsedReply(c.value.data), w1)
  }

  /** The series requests as evidently intended: a combined read that
      returns 0 gives 0, like every other failure of the requests. */
  function GetSeriesIntendedF(s: Session, w: Wire, command: seq<byte>): (Result<Reply>, Wire)
  {
    if !s.connected then (Ok(ZeroReply), w)
    else
      var cOut := CombinedF(w, s.deviceId, command);
      var c, w1 := cOut.0, cOut.1;
      if c.Raised? then (Raised(c.error), w1)
      else if c.value.ZeroCombined? then (Ok(ZeroReply), w1)
      else (ParsedReply(c.value.data), w1)
  }

  /** The parser's result as a reply. */
  function ParsedReply(data: seq<byte>): Result<Reply>
  {
    match Parse(data)
    case Raised(e) => Raised(e)
    case Ok(Zero) => Ok(ZeroReply)
    case Ok(Records(list)) => Ok(Series(list))
  }

  // ---------------------------------------------------------------------
  // Properties of the protocol

  /** Splicing the device ID and then a checksum slot leaves the template
      cut around bytes 7-8 and the slot. */
  lemma SpliceBoth(msg: seq<byte>, id: seq<byte>, slot: seq<byte>)
    requires |msg| >= 12 && |id| == 2
    ensures PySplice(WithDeviceId(msg, id), -3, -1, slot)
         == msg[..7] + id + msg[9..|msg| - 3] + slot + [msg[|msg| - 1]]
  {
    var spliced := WithDeviceId(msg, id);
    assert spliced == msg[..7] + id + msg[9..];
    assert spliced[..|msg| - 3] == msg[..7] + id + msg[9..|msg| - 3];
    assert spliced[|msg| - 1..] == [msg[|msg| - 1]];
  }

  /** A frame sent with the device ID differs from its template only in
      bytes 7-8, which hold the ID, and in the checksum slot, which holds the
      stuffed checksum of the spliced message; the opening and closing flags
      stay, and the frame grows by the number of checksum bytes stuffed. */
  lemma SentFrameLayout(msg: seq<byte>, id: seq<byte>)
    requires |msg| >= 12 && |id| == 2
    ensures Encode(msg, true, Some(id)).Ok?
    ensures var f := Encode(msg, true, Some(id)).value;
            var slot := Stuff(Checksum(WithDeviceId(msg, id)));
            && |f| == |msg| + CountSpecial(Checksum(WithDeviceId(msg, id)))
            && f[..7] == msg[..7]
            && f[7..9] == id
            && f[9..|msg| - 3] == msg[9..|msg| - 3]
            && f[|msg| - 3..|f| - 1] == slot
            && f[|f| - 1] == msg[|msg| - 1]
  {
    var c := Checksum(WithDeviceId(msg, id));
    var slot := Stuff(c);
    StuffShape(c);
    SpliceBoth(msg, id, slot);
    var head := msg[..7] + id + msg[9..|msg| - 3];
    assert |head| == |msg| - 3;
    assert head[..7] == msg[..7] && head[7..9] == id && head[9..] == msg[9..|msg| - 3];
    PartsOfFrame(head, slot, msg[|msg| - 1]);
  }

  /** The pieces of a frame laid out as a head, a slot and a closing byte. */
  lemma PartsOfFrame(head: seq<byte>, slot: seq<byte>, last: byte)
    ensures var f := head + slot + [last];
            && |f| == |head| + |slot| + 1
            && f[..|head|] == head
            && f[|head|..|f| - 1] == slot
            && f[|f| - 1] == last
  {
    var f := head + slot + [last];
    assert f[..|head|] == head;
    assert f[|head|..|f| - 1] == slot;
  }

  /** A read returns a frame scanned from the queue's first chunks: it takes
      at most `maxIterations` chunks, leaves the rest in order, and writes
      nothing. A frame that the scan closed ends with the closing flag. */
  lemma ReadFrameShape(w: Wire, maxIterations: nat)
    ensures var res := ReadFrameF(w, maxIterations);
            var r, w1 := res.0, res.1;
            && w1.writes == w.writes && w1.sent == w.sent
            && |w1.chunks| <= |w.chunks| && w1.chunks == w.chunks[|w.chunks| - |w1.chunks|..]
            && |w.chunks| - |w1.chunks| <= maxIterations
            && (ReadLoop(InitialScan, w.chunks, maxIterations).0.ended ==>
                  r.Ok? && |r.value| > 0 && (r.value[|r.value| - 1] == Flag || r.value[|r.value| - 1] == Unmask(Flag)))
  {
    ReadLoopShape(InitialScan, w.chunks, maxIterations);
  }

  /** A frame the send path built, read back in one chunk, comes out
      un-escaped with its checksum intact, and only that chunk is consumed. */
  lemma ReadBackSentFrame(w: Wire, msg: seq<byte>, hdr: seq<byte>, rest: seq<seq<byte>>, maxIterations: nat)
    requires |msg| >= 4 && msg[0] == Flag && msg[|msg| - 1] == Flag && |hdr| == HeaderLength
    requires Flag !in msg[1..|msg| - 3]
    requires !UnescapeFrom(msg[1..|msg| - 3], false).pending
    requires NoIdlePair(WithChecksum(msg))
    requires w.chunks == [hdr + WithChecksum(msg)] + rest && maxIterations >= 1
    ensures var body := Unescape(msg[1..|msg| - 3]);
            var out := [Flag] + body + LittleEndian16(Crc.Crc16(body)) + [Flag];
            && ReadFrameF(w, maxIterations) == (Ok(out), w.(chunks := rest))
            && !BadChecksum(out)
  {
    ReceiveInvertsSend(msg, hdr);
    var st := ScanChunk(InitialScan, hdr + WithChecksum(msg));
    assert ReadLoop(InitialScan, w.chunks, maxIterations) == ReadLoop(st, rest, maxIterations - 1);
  }

  /** The handshake sends the syn-online frame and reports failure exactly
      when that write returns 0, in which case it reads nothing; on success
      it consumes at most five chunks. */
  lemma SynOnlineShape(w: Wire)
    ensures var res := SynOnlineF(w);
            var r, w1 := res.0, res.1;
            && w1.sent == w.sent + [WithChecksum(SynOnlineCommand)]
            && (r == Ok(false) <==> (w.writes == [] || w.writes[0] == 0))
            && (r == Ok(false) ==> w1.chunks == w.chunks)
            && (r.Raised? ==> r.error == IndexError)
            && |w1.chunks| <= |w.chunks| && |w.chunks| - |w1.chunks| <= SynOnlineReads
  {
    var nOut := SendF(w, SynOnlineCommand, false, None);
    var n, w1 := nOut.0, nOut.1;
    ReadFrameShape(w1, SynOnlineReads);
  }

  /** The search request carries `serial + 140000000` little-endian in bytes
      12-15 and the template everywhere else; it exists exactly when that
      number fits in 32 unsigned bits. */
  lemma SearchRequestShape(serial: int)
    ensures SearchRequest(serial).Ok? <==> 0 <= serial + SerialOffset < 0x1_0000_0000
    ensures SearchRequest(serial).Raised? ==> SearchRequest(serial).error == OverflowError
    ensures SearchRequest(serial).Ok? ==>
              var r := SearchRequest(serial).value;
              && |r| == |SearchCommand|
              && FromLittleEndian(r[12..16]) == serial + SerialOffset
              && r[..12] == SearchCommand[..12] && r[16..] == SearchCommand[16..]
  {
    var b := ToBytes4(serial + SerialOffset);
    if b.Ok? {
      var r := PySplice(SearchCommand, 12, 16, b.value);
      assert r == SearchCommand[..12] + b.value + SearchCommand[16..];
      assert r[12..16] == b.value;
    }
  }

  /** A device ID found by the search is two bytes long, taken from a reply
      of at least seven bytes to a write that succeeded. */
  lemma SearchReplyShape(w: Wire, serial: int)
    ensures var res := SearchDeviceIdF(w, serial);
            var r, w1 := res.0, res.1;
            && (r.Ok? && r.value.Some? ==> |r.value.value| == 2 && w.writes != [] && w.writes[0] > 0)
            && (r.Raised? ==> r.error == OverflowError || r.error == IndexError)
  {
    SearchRequestShape(serial);
  }

  /** The search's result: OverflowError for a serial number out of range;
      otherwise the request is written, and a write that returns 0 gives
      None with nothing read; after a non-zero write, a reply shorter than
      7 bytes gives None and a longer one its bytes 5-6, while a failed read
      raises IndexError. */
  lemma SearchReply(w: Wire, serial: int)
    ensures SearchRequest(serial).Raised? ==> SearchDeviceIdF(w, serial) == (Raised(OverflowError), w)
    ensures SearchRequest(serial).Ok? ==>
              var sent := SendF(w, SearchRequest(serial).value, false, None);
              var got := ReadFrameF(sent.1, SearchReads);
              && sent.0 == Ok(if w.writes == [] then 0 else w.writes[0])
              && sent.1.sent == w.sent + [WithChecksum(SearchRequest(serial).value)]
              && (sent.0 == Ok(0) ==> SearchDeviceIdF(w, serial) == (Ok(None), sent.1))
              && (sent.0 != Ok(0) && got.0.Raised? ==> SearchDeviceIdF(w, serial) == (Raised(IndexError), got.1))
              && (sent.0 != Ok(0) && got.0.Ok? ==>
                    SearchDeviceIdF(w, serial)
                    == (if |got.0.value| < 7 then Ok(None) else Ok(Some(got.0.value[5..7])), got.1))
  {
    SearchRequestShape(serial);
  }

  /** Connecting keeps the device ID two bytes long whenever it is set, and
      a session it newly connects has a device ID. */
  lemma ConnectShape(s: Session, w: Wire, featureAccepted: bool, serial: int)
    requires s.deviceId.Some? ==> |s.deviceId.value| == 2
    ensures var res := ConnectF(s, w, featureAccepted, serial);
            var r, w1 := res.0, res.1;
            && (r.Ok? && r.value.deviceId.Some? ==> |r.value.deviceId.value| == 2)
            && (r.Ok? && r.value.connected && !s.connected ==> r.value.deviceId.Some?)
            && (!featureAccepted ==> r == Ok(s) && w1 == w)
  {
    SearchReplyShape(w, serial);
  }

  /** A connected session whose reconnect found no device stays connected
      with no device ID, and its next live request that gets past the
      handshake raises TypeError at the ID splice. */
  lemma StaleSessionRaises(s: Session, w: Wire, serial: int, w2: Wire)
    requires s.connected
    requires SearchDeviceIdF(w, serial).0 == Ok(None)
    requires SynOnlineF(w2).0 == Ok(true)
    ensures ConnectF(s, w, true, serial).0 == Ok(Session(true, None))
    ensures GetMeasurementsF(Session(true, None), w2).0 == Raised(TypeError)
  {
  }

  /** The frames the continuation requests of a trace are sent as, with
      `frameOf` giving the frame for a line count. */
  function SentRequests(trace: seq<Exchange>, frameOf: byte -> seq<byte>): seq<seq<byte>>
  {
    if trace == [] then []
    else
      (if trace[0].request.Some? then [frameOf(trace[0].request.value)] else [])
      + SentRequests(trace[1..], frameOf)
  }

  /** Exchange `next` follows exchange `prev` in a combined read: `prev`'s
      reply carries a non-zero line count at byte 10, and `next` was
      requested with that count (no request for 0xFF). */
  predicate Follows(prev: Exchange, next: Exchange)
  {
    |prev.reply| > LineCountIndex && prev.reply[LineCountIndex] != 0
    && next.request == RequestFor(prev.reply[LineCountIndex])
  }

  predicate Chained(trace: seq<Exchange>)
  {
    forall k | 1 <= k < |trace| :: Follows(trace[k - 1], trace[k])
  }

  /** The continuation loop reads at most `min - 1` frames. The first is
      requested according to `linecnt`, which was not 0; each later one
      follows the one before it. */
  lemma {:induction false} CombinedLoopTrace(exchange: ExchangeStep, w: Wire, min: nat, linecnt: byte, acc: seq<byte>)
    requires min >= 1
    ensures var r := CombinedLoop(exchange, w, min, linecnt, acc);
            && |r.trace| <= min - 1
            && (|r.trace| > 0 ==> linecnt != 0 && r.trace[0].request == RequestFor(linecnt))
            && Chained(r.trace)
    decreases min
  {
    if linecnt != 0 && min != 1 {
      var ex := exchange(w, linecnt);
      if ex.0.Ok? && ex.0.value.Some? && |ex.0.value.value| > LineCountIndex {
        var tmp := ex.0.value.value;
        var r1 := CombinedLoop(exchange, ex.1, min - 1, tmp[LineCountIndex], acc + Payload(tmp));
        CombinedLoopTrace(exchange, ex.1, min - 1, tmp[LineCountIndex], acc + Payload(tmp));
        ChainedCons(Exchange(RequestFor(linecnt), tmp), r1.trace);
      }
    }
  }

  /** An exchange followed by a chained trace that follows it is chained. */
  lemma ChainedCons(e: Exchange, rest: seq<Exchange>)
    requires Chained(rest)
    requires rest != [] ==> Follows(e, rest[0])
    ensures Chained([e] + rest)
  {
    var t := [e] + rest;
    forall k | 1 <= k < |t|
      ensures Follows(t[k - 1], t[k])
    {
      if k > 1 {
        assert t[k - 1] == rest[k - 2] && t[k] == rest[k - 1];
      }
    }
  }

  /** A collected result of the continuation loop is `acc` followed by
      `frame[12:-3]` of every frame longer than 12 bytes. */
  lemma {:induction false} CombinedLoopPayload(exchange: ExchangeStep, w: Wire, min: nat, linecnt: byte, acc: seq<byte>)
    requires min >= 1
    ensures var r := CombinedLoop(exchange, w, min, linecnt, acc);
            r.outcome.Ok? && r.outcome.value.Collected? ==> r.outcome.value.data == acc + Payloads(r.trace)
    decreases min
  {
    if linecnt != 0 && min != 1 {
      var ex := exchange(w, linecnt);
      if ex.0.Ok? && ex.0.value.Some? {
        var tmp := ex.0.value.value;
        var step := Exchange(RequestFor(linecnt), tmp);
        if |tmp| > LineCountIndex {
          var r1 := CombinedLoop(exchange, ex.1, min - 1, tmp[LineCountIndex], acc + Payload(tmp));
          CombinedLoopPayload(exchange, ex.1, min - 1, tmp[LineCountIndex], acc + Payload(tmp));
          PayloadsCons(step, r1.trace);
        } else if |tmp| == 0 {
          PayloadsCons(step, []);
        }
      }
    }
  }

  lemma PayloadsCons(e: Exchange, rest: seq<Exchange>)
    ensures Payloads([e] + rest) == Payload(e.reply) + Payloads(rest)
    ensures Payloads([e]) == Payload(e.reply)
  {
    assert ([e] + rest)[1..] == rest;
    assert [e][1..] == [];
  }

  /** A collected result of the continuation loop stopped on an empty frame,
      a line count of 0 or the budget. */
  lemma {:induction false} CombinedLoopStop(exchange: ExchangeStep, w: Wire, min: nat, linecnt: byte, acc: seq<byte>)
    requires min >= 1
    ensures var r := CombinedLoop(exchange, w, min, linecnt, acc);
            r.outcome.Ok? && r.outcome.value.Collected? ==>
              if r.trace == [] then linecnt == 0 || min == 1
              else
                var last := r.trace[|r.trace| - 1].reply;
                last == [] || (|last| > LineCountIndex && last[LineCountIndex] == 0) || |r.trace| == min - 1
    decreases min
  {
    if linecnt != 0 && min != 1 {
      var ex := exchange(w, linecnt);
      if ex.0.Ok? && ex.0.value.Some? && |ex.0.value.value| > LineCountIndex {
        var tmp := ex.0.value.value;
        var r1 := CombinedLoop(exchange, ex.1, min - 1, tmp[LineCountIndex], acc + Payload(tmp));
        CombinedLoopStop(exchange, ex.1, min - 1, tmp[LineCountIndex], acc + Payload(tmp));
        LastOfCons(Exchange(RequestFor(linecnt), tmp), r1.trace);
      }
    }
  }

  lemma LastOfCons<T>(e: T, rest: seq<T>)
    ensures ([e] + rest)[|rest|] == if rest == [] then e else rest[|rest| - 1]
  {
  }

  /** The frame a continuation request for `linecnt` is sent as. */
  function RequestFrame(linecnt: byte, id: seq<byte>): seq<byte>
  {
    WithChecksum(WithDeviceId(ContinuationCommand(linecnt), id))
  }

  function RequestFrames(id: seq<byte>): byte -> seq<byte>
  {
    linecnt => RequestFrame(linecnt, id)
  }

  /** `exchange` writes the continuation request its line count calls for,
      carrying the device ID `id`, and nothing else. */
  ghost predicate LogsRequests(exchange: ExchangeStep, frameOf: byte -> seq<byte>)
  {
    forall w: Wire, linecnt: byte ::
      exchange(w, linecnt).1.sent == w.sent + (if RequestFor(linecnt).Some? then [frameOf(linecnt)] else [])
  }

  /** The loop's iteration writes only its continuation request. */
  lemma IterationLogsRequests(id: seq<byte>)
    ensures LogsRequests(Iteration(Some(id)), RequestFrames(id))
  {
    forall w: Wire, linecnt: byte
      ensures ExchangeF(w, Some(id), linecnt).1.sent
           == w.sent + (if RequestFor(linecnt).Some? then [RequestFrame(linecnt, id)] else [])
    {
      ExchangeSent(w, id, linecnt);
    }
  }

  /** One iteration logs its continuation request, if any, and reading
      writes nothing. */
  lemma ExchangeSent(w: Wire, id: seq<byte>, linecnt: byte)
    ensures ExchangeF(w, Some(id), linecnt).1.sent
         == w.sent + (if RequestFor(linecnt).Some? then [RequestFrame(linecnt, id)] else [])
  {
    if RequestFor(linecnt).Some? {
      var sendOut := SendF(w, ContinuationCommand(linecnt), true, Some(id));
      assert Encode(ContinuationCommand(linecnt), true, Some(id)) == Ok(RequestFrame(linecnt, id));
      assert sendOut.1.sent == w.sent + [RequestFrame(linecnt, id)];
      assert ReadFrameF(sendOut.1, DataReads).1.sent == sendOut.1.sent;
    } else {
      assert ReadFrameF(w, DataReads).1.sent == w.sent;
    }
  }

  /** The only frames the continuation loop writes, when it collects a
      result, are its continuation requests, each carrying the device ID. */
  lemma {:induction false} CombinedLoopRequests(exchange: ExchangeStep, frameOf: byte -> seq<byte>, w: Wire, min: nat, linecnt: byte, acc: seq<byte>)
    requires min >= 1 && LogsRequests(exchange, frameOf)
    ensures var r := CombinedLoop(exchange, w, min, linecnt, acc);
            r.outcome.Ok? && r.outcome.value.Collected? ==> r.wire.sent == w.sent + SentRequests(r.trace, frameOf)
    decreases min
  {
    if linecnt != 0 && min != 1 {
      var ex := exchange(w, linecnt);
      StepLogs(exchange, frameOf, w, linecnt);
      if ex.0.Ok? && ex.0.value.Some? {
        var tmp := ex.0.value.value;
        var step := Exchange(RequestFor(linecnt), tmp);
        if |tmp| > LineCountIndex {
          var r1 := CombinedLoop(exchange, ex.1, min - 1, tmp[LineCountIndex], acc + Payload(tmp));
          CombinedLoopRequests(exchange, frameOf, ex.1, min - 1, tmp[LineCountIndex], acc + Payload(tmp));
          SentRequestsCons(step, r1.trace, frameOf);
          AppendAssoc(w.sent, SentRequests([step], frameOf), SentRequests(r1.trace, frameOf));
        } else if |tmp| == 0 {
          SentRequestsCons(step, [], frameOf);
        }
      }
    }
  }

  lemma StepLogs(exchange: ExchangeStep, frameOf: byte -> seq<byte>, w: Wire, linecnt: byte)
    requires LogsRequests(exchange, frameOf)
    ensures exchange(w, linecnt).1.sent == w.sent + (if RequestFor(linecnt).Some? then [frameOf(linecnt)] else [])
  {
  }

  lemma SentRequestsCons(e: Exchange, rest: seq<Exchange>, frameOf: byte -> seq<byte>)
    ensures SentRequests([e], frameOf) == (if e.request.Some? then [frameOf(e.request.value)] else [])
    ensures SentRequests([e] + rest, frameOf) == SentRequests([e], frameOf) + SentRequests(rest, frameOf)
  {
    assert ([e] + rest)[1..] == rest;
    assert [e][1..] == [];
  }

  lemma AppendAssoc<T>(a: seq<T>, b: seq<T>, c: seq<T>)
    ensures (a + b) + c == a + (b + c)
  {
  }

  /** A combined read makes at most 19 exchanges, the first without a
      continuation request; a collected result is the concatenated payloads,
      and the only frames written are the continuation requests. */
  lemma CombinedReadBounds(w: Wire, id: Option<seq<byte>>)
    ensures var r := CombinedLoop(Iteration(id), w, CombinedBudget, NoLineCount, []);
            && |r.trace| <= CombinedBudget - 1
            && (|r.trace| > 0 ==> r.trace[0].request == None)
            && (r.outcome.Ok? && r.outcome.value.Collected? ==> r.outcome.value.data == Payloads(r.trace))
            && (r.outcome.Ok? && r.outcome.value.Collected? && id.Some? ==>
                  r.wire.sent == w.sent + SentRequests(r.trace, RequestFrames(id.value)))
  {
    if id.Some? {
      IterationLogsRequests(id.value);
      CombinedLoopRequests(Iteration(id), RequestFrames(id.value), w, CombinedBudget, NoLineCount, []);
    }
    CombinedLoopTrace(Iteration(id), w, CombinedBudget, NoLineCount, []);
    CombinedLoopPayload(Iteration(id), w, CombinedBudget, NoLineCount, []);
    assert [] + Payloads(CombinedLoop(Iteration(id), w, CombinedBudget, NoLineCount, []).trace)
        == Payloads(CombinedLoop(Iteration(id), w, CombinedBudget, NoLineCount, []).trace);
  }

  // ---------------------------------------------------------------------
  // Failures of the combined read

  /** A handshake that answers false, or a first request whose write returns
      0, makes the combined read return 0; a first request without a device
      ID raises TypeError at the slice assignment. */
  lemma CombinedReadZero(w: Wire, id: Option<seq<byte>>, command: seq<byte>)
    ensures SynOnlineF(w).0 == Ok(false) ==> CombinedF(w, id, command) == (Ok(ZeroCombined), SynOnlineF(w).1)
    ensures SynOnlineF(w).0 == Ok(true) && SendF(SynOnlineF(w).1, command, true, id).0 == Ok(0) ==>
              CombinedF(w, id, command) == (Ok(ZeroCombined), SendF(SynOnlineF(w).1, command, true, id).1)
    ensures SynOnlineF(w).0 == Ok(true) && id.None? ==> CombinedF(w, id, command).0 == Raised(TypeError)
  {
  }

  /** A continuation request whose write returns 0 ends the loop with 0. */
  lemma ContinuationWriteFails(w: Wire, id: Option<seq<byte>>, min: nat, linecnt: byte, acc: seq<byte>)
    requires min >= 2 && linecnt != 0 && linecnt != NoLineCount
    requires SendF(w, ContinuationCommand(linecnt), true, id).0 == Ok(0)
    ensures CombinedLoop(Iteration(id), w, min, linecnt, acc).outcome == Ok(ZeroCombined)
  {
  }

  /** A non-empty reply too short to hold a line count makes `tmpbuf[10]`
      raise IndexError. */
  lemma ShortReplyRaises(w: Wire, id: Option<seq<byte>>, min: nat, linecnt: byte, acc: seq<byte>)
    requires min >= 2 && linecnt != 0
    ensures var reply := ExchangeF(w, id, linecnt).0;
            reply.Ok? && reply.value.Some? && 0 < |reply.value.value| <= LineCountIndex ==>
              CombinedLoop(Iteration(id), w, min, linecnt, acc).outcome == Raised(IndexError)
  {
  }

  /** As written, a connected series request whose combined read returns 0
      raises TypeError, from `len(0)` in the parser. */
  lemma SeriesOnZeroRaises(s: Session, w: Wire, command: seq<byte>)
    requires s.connected
    ensures CombinedF(w, s.deviceId, command).0 == Ok(ZeroCombined) ==> GetSeriesF(s, w, command).0 == Raised(TypeError)
  {
  }

  /** A device that accepts no writes: the handshake's write returns 0, so a
      connected series request raises TypeError instead of returning 0. */
  lemma SilentDeviceRaises(id: seq<byte>, command: seq<byte>)
    ensures GetSeriesF(Session(true, Some(id)), Wire([], [], []), command).0 == Raised(TypeError)
  {
    CombinedReadZero(Wire([], [], []), Some(id), command);
  }

  /** An iteration raises nothing but IndexError. */
  ghost predicate RaisesIndexOnly(exchange: ExchangeStep)
  {
    forall w: Wire, linecnt: byte :: exchange(w, linecnt).0.Raised? ==> exchange(w, linecnt).0.error == IndexError
  }

  /** With a device ID, an iteration can fail only by reading a frame whose
      idle rule deletes from an empty buffer. */
  lemma IterationRaisesIndexOnly(id: seq<byte>)
    ensures RaisesIndexOnly(Iteration(Some(id)))
  {
    forall w: Wire, linecnt: byte
      ensures Iteration(Some(id))(w, linecnt).0.Raised? ==> Iteration(Some(id))(w, linecnt).0.error == IndexError
    {
      assert Iteration(Some(id))(w, linecnt) == ExchangeF(w, Some(id), linecnt);
    }
  }

  /** The continuation loop raises only what its iterations raise and the
      IndexError of `tmpbuf[10]`. */
  lemma {:induction false} CombinedLoopRaises(exchange: ExchangeStep, w: Wire, min: nat, linecnt: byte, acc: seq<byte>)
    requires min >= 1 && RaisesIndexOnly(exchange)
    ensures var r := CombinedLoop(exchange, w, min, linecnt, acc);
            r.outcome.Raised? ==> r.outcome.error == IndexError
    decreases min
  {
    if linecnt != 0 && min != 1 {
      var ex := exchange(w, linecnt);
      if ex.0.Ok? && ex.0.value.Some? && |ex.0.value.value| > LineCountIndex {
        var tmp := ex.0.value.value;
        CombinedLoopRaises(exchange, ex.1, min - 1, tmp[LineCountIndex], acc + Payload(tmp));
      }
    }
  }

  /** The intended series request returns 0 when the combined read does,
      agrees with the code as written otherwise, and with a device ID never
      raises TypeError: only IndexError from a malformed reply or
      struct.error from a short record. */
  lemma IntendedSeriesReturnsZero(s: Session, w: Wire, command: seq<byte>)
    ensures s.connected && CombinedF(w, s.deviceId, command).0 == Ok(ZeroCombined) ==>
              GetSeriesIntendedF(s, w, command) == (Ok(ZeroReply), CombinedF(w, s.deviceId, command).1)
    ensures CombinedF(w, s.deviceId, command).0 != Ok(ZeroCombined) ==>
              GetSeriesIntendedF(s, w, command) == GetSeriesF(s, w, command)
    ensures s.deviceId.Some? && GetSeriesIntendedF(s, w, command).0.Raised? ==>
              GetSeriesIntendedF(s, w, command).0.error in {IndexError, StructError}
  {
    if s.connected && s.deviceId.Some? {
      IterationRaisesIndexOnly(s.deviceId.value);
      CombinedRaisesIndexOnly(w, s.deviceId.value, command);
      ParseRaisesStructOnly(CombinedF(w, s.deviceId, command));
    }
  }

  /** With a device ID, the combined read raises only IndexError. */
  lemma CombinedRaisesIndexOnly(w: Wire, id: seq<byte>, command: seq<byte>)
    requires RaisesIndexOnly(Iteration(Some(id)))
    ensures CombinedF(w, Some(id), command).0.Raised? ==> CombinedF(w, Some(id), command).0.error == IndexError
  {
    var w1 := SynOnlineF(w).1;
    var w2 := SendF(w1, command, true, Some(id)).1;
    SynOnlineRaisesIndexOnly(w);
    SendWithId(w1, command, id);
    CombinedLoopRaises(Iteration(Some(id)), w2, CombinedBudget, NoLineCount, []);
  }

  /** The handshake raises only IndexError. */
  lemma SynOnlineRaisesIndexOnly(w: Wire)
    ensures SynOnlineF(w).0.Raised? ==> SynOnlineF(w).0.error == IndexError
  {
  }

  /** A send with a device ID does not raise. */
  lemma SendWithId(w: Wire, msg: seq<byte>, id: seq<byte>)
    ensures SendF(w, msg, true, Some(id)).0.Ok?
  {
  }

  /** The parser's reply raises only struct.error. */
  lemma ParseRaisesStructOnly(c: (Result<Combined>, Wire))
    ensures c.0.Ok? && c.0.value.Collected? && ParsedReply(c.0.value.data).Raised? ==>
              ParsedReply(c.0.value.data).error == StructError
  {
    if c.0.Ok? && c.0.value.Collected? {
      ParseShape(c.0.value.data);
    }
  }
}
