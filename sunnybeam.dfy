/** The `SunnyBeam` class: a session (`__connected`, `__device_id`) over a USB
    transport, whose request methods send command frames and read reply
    frames. Each method is proved to leave the session and the transport
    exactly as the matching function of `Protocol` says, so the properties
    proved there hold of the methods. */
module SunnyBeamTool {
  import opened Bytes
  import opened Crc
  import opened FrameCodec
  import opened FrameScanner
  import opened MeasurementDecoder
  import opened Protocol
  import opened ChecksumRoutine

  /** The USB device: bulk reads yield the queued chunks, bulk writes yield
      the queued results and are logged. */
  class Transport {
    var chunks: seq<seq<byte>>
    var writes: seq<nat>
    var sent: seq<seq<byte>>

    function Snapshot(): Wire
      reads this
    {
      Wire(chunks, writes, sent)
    }

    constructor(chunks: seq<seq<byte>>, writes: seq<nat>)
      ensures Snapshot() == Wire(chunks, writes, [])
    {
      this.chunks := chunks;
      this.writes := writes;
      this.sent := [];
    }

    /** `write(endpoint=0x02, data=msg)`: the number of bytes written. */
    method Write(data: seq<byte>) returns (n: nat)
      modifies this
      ensures (n, Snapshot()) == WriteF(old(Snapshot()), data)
    {
      sent := sent + [data];
      if writes == [] {
        n := 0;
      } else {
        n := writes[0];
        writes := writes[1..];
      }
    }

    /** `read(0x81, buffer_size)`: the next chunk. */
    method Read() returns (chunk: seq<byte>)
      modifies this
      ensures (chunk, Snapshot()) == ReadF(old(Snapshot()))
    {
      chunk := NextChunk(chunks);
      chunks := RestChunks(chunks);
    }
  }

  /** What the continuation loop leaves behind: its outcome and the
      transport. */
  function Outcome(r: Run): (Result<Combined>, Wire)
  {
    (r.outcome, r.wire)
  }

  class SunnyBeam {
    var connected: bool
    var deviceId: Option<seq<byte>>
    const dev: Transport

    function State(): Session
      reads this
    {
      Session(connected, deviceId)
    }

    /** A new tool is not connected. */
    constructor(dev: Transport)
      ensures State() == Session(false, None) && this.dev == dev
    {
      connected := false;
      deviceId := None;
      this.dev := dev;
    }

    /** `connect`: nothing happens when no device is `found`; otherwise the
        session and the transport change as `ConnectF` says, and a raised
        error leaves the session as it was. */
    method Connect(found: bool, featureAccepted: bool, serial: int) returns (r: Result<()>)
      modifies this, dev
      ensures !found ==> r == Ok(()) && State() == old(State()) && dev.Snapshot() == old(dev.Snapshot())
      ensures found ==>
                var res := ConnectF(old(State()), old(dev.Snapshot()), featureAccepted, serial);
                && dev.Snapshot() == res.1
                && (res.0.Ok? ==> r == Ok(()) && State() == res.0.value)
                && (res.0.Raised? ==> r == Raised(res.0.error) && State() == old(State()))
    {
      if !found || !featureAccepted {
        return Ok(());
      }
      var id := SearchDeviceId(serial);
      if id.Raised? {
        return Raised(id.error);
      }
      deviceId := id.value;
      if deviceId.Some? {
        connected := true;
      }
      return Ok(());
    }

    /** `get_measurements`. */
    method GetMeasurements() returns (r: Result<Reply>)
      modifies dev
      ensures (r, dev.Snapshot()) == GetMeasurementsF(State(), old(dev.Snapshot()))
    {
      if !connected {
        return Ok(ZeroReply);
      }
      var syn := DoSynOnline();
      if syn.Raised? {
        return Raised(syn.error);
      }
      if !syn.value {
        return Ok(ZeroReply);
      }
      var resu := SendRawMessage(LiveDataCommand, true);
      if resu.Raised? {
        return Raised(resu.error);
      }
      if resu.value > 0 {
        var buf, _ := ReadRawMessage(DataReads);
        if buf.Raised? {
          return Raised(buf.error);
        }
        if |buf.value| <= 0 {
          return Ok(ZeroReply);
        }
        if |buf.value| < 37 {
          return Raised(StructError);
        }
        return Ok(Instant(buf.value[25..29], buf.value[29..33], buf.value[33..37]));
      }
      return Raised(UnboundLocalError);
    }

    /** `get_today_measurements`. */
    method GetTodayMeasurements() returns (r: Result<Reply>)
      modifies dev
      ensures (r, dev.Snapshot()) == GetSeriesF(State(), old(dev.Snapshot()), TodayCommand)
    {
      r := GetSeries(TodayCommand);
    }

    /** `get_last_month_measurements`. */
    method GetLastMonthMeasurements() returns (r: Result<Reply>)
      modifies dev
      ensures (r, dev.Snapshot()) == GetSeriesF(State(), old(dev.Snapshot()), LastMonthCommand)
    {
      r := GetSeries(LastMonthCommand);
    }

    /** The body the two series requests share: a combined read, then the
        parser, which takes `len` of the 0 a failed read returns. */
    method GetSeries(command: seq<byte>) returns (r: Result<Reply>)
      modifies dev
      ensures (r, dev.Snapshot()) == GetSeriesF(State(), old(dev.Snapshot()), command)
    {
      if !connected {
        return Ok(ZeroReply);
      }
      var data := DoCombinedReadMessages(command);
      if data.Raised? {
        return Raised(data.error);
      }
      if data.value.ZeroCombined? {
        return Raised(TypeError);
      }
      var parsed := ParseMeasurements(data.value.data);
      if parsed.Raised? {
        return Raised(parsed.error);
      }
      if parsed.value.Zero? {
        return Ok(ZeroReply);
      }
      return Ok(Series(parsed.value.list));
    }

    /** `__do_combined_read_messages`. */
    method DoCombinedReadMessages(inputMsg: seq<byte>) returns (r: Result<Combined>)
      modifies dev
      ensures (r, dev.Snapshot()) == CombinedF(old(dev.Snapshot()), deviceId, inputMsg)
    {
      var syn := DoSynOnline();
      if syn.Raised? {
        return Raised(syn.error);
      }
      if !syn.value {
        return Ok(ZeroCombined);
      }
      var first := SendRawMessage(inputMsg, true);
      if first.Raised? {
        return Raised(first.error);
      }
      if first.value == 0 {
        return Ok(ZeroCombined);
      }
      IterationIsStep(deviceId);
      r := CollectReplies(Iteration(deviceId));
    }

    /** The loop of `__do_combined_read_messages`: at most 19 exchanges,
        following the line count of each reply. */
    method CollectReplies(ghost exchange: ExchangeStep) returns (r: Result<Combined>)
      requires StepOf(exchange, deviceId)
      modifies dev
      ensures (r, dev.Snapshot()) == Outcome(CombinedLoop(exchange, old(dev.Snapshot()), CombinedBudget, NoLineCount, []))
    {
      ghost var goal := Outcome(CombinedLoop(exchange, dev.Snapshot(), CombinedBudget, NoLineCount, []));
      var bufOut: seq<byte> := [];
      var min: nat := CombinedBudget;
      var linecnt: byte := NoLineCount;
      while linecnt != 0
        invariant min >= 1
        invariant Outcome(CombinedLoop(exchange, dev.Snapshot(), min, linecnt, bufOut)) == goal
        decreases min
      {
        min := min - 1;
        if min == 0 {
          break;
        }
        var tmpbuf := RequestNext(exchange, linecnt);
        if tmpbuf.Raised? {
          return Raised(tmpbuf.error);
        }
        if tmpbuf.value.None? {
          return Ok(ZeroCombined);
        }
        var frame := tmpbuf.value.value;
        if |frame| <= 0 {
          return Ok(Collected(bufOut));
        }
        if |frame| > PayloadStart {
          bufOut := bufOut + PySlice(frame, PayloadStart, -3);
        } else {
          assert bufOut + Payload(frame) == bufOut;
        }
        if |frame| <= LineCountIndex {
          return Raised(IndexError);
        }
        linecnt := frame[LineCountIndex];
      }
      return Ok(Collected(bufOut));
    }

    /** The traffic of one iteration of the combined read's loop: the
        continuation request when `linecnt` calls for one (None when its
        write returns 0), then a frame read. */
    method RequestNext(ghost exchange: ExchangeStep, linecnt: byte) returns (r: Result<Option<seq<byte>>>)
      requires StepOf(exchange, deviceId)
      modifies dev
      ensures (r, dev.Snapshot()) == exchange(old(dev.Snapshot()), linecnt)
    {
      ghost var w := dev.Snapshot();
      assert exchange(w, linecnt) == ExchangeF(w, deviceId, linecnt);
      if linecnt != NoLineCount {
        var resu := SendRawMessage(ContinuationCommand(linecnt), true);
        if resu.Raised? {
          return Raised(resu.error);
        }
        if resu.value == 0 {
          return Ok(None);
        }
      }
      var tmpbuf, _ := ReadRawMessage(DataReads);
      if tmpbuf.Raised? {
        return Raised(tmpbuf.error);
      }
      return Ok(Some(tmpbuf.value));
    }

    /** `__send_raw_message`: splice the device ID, compute the CRC of the
        un-escaped `msg[1:-3]`, stuff it into `msg[-3:-1]` and write. */
    method SendRawMessage(msg: seq<byte>, setDeviceId: bool) returns (r: Result<nat>)
      modifies dev
      ensures (r, dev.Snapshot()) == SendF(old(dev.Snapshot()), msg, setDeviceId, deviceId)
      ensures !setDeviceId ==> r.Ok?
    {
      var m := msg;
      if setDeviceId {
        if deviceId.None? {
          return Raised(TypeError);
        }
        m := PySplice(m, 7, 9, deviceId.value);
      }
      var msgForCrc := UnescapeForCrc(PySlice(m, 1, -3));
      var checksum := LittleEndian16(Crc16(msgForCrc));
      var newcrc := StuffChecksum(checksum);
      m := PySplice(m, -3, -1, newcrc);
      var n := dev.Write(m);
      return Ok(n);
    }

    /** `__read_raw_message`: up to `maxIterations` reads, each chunk scanned
        from its third byte on, until the closing flag. `badCrc` is the
        warning the checksum check logs; it does not change the result. */
    method ReadRawMessage(maxIterations: nat) returns (r: Result<seq<byte>>, badCrc: bool)
      modifies dev
      ensures (r, dev.Snapshot()) == ReadFrameF(old(dev.Snapshot()), maxIterations)
      ensures badCrc <==> r.Ok? && BadChecksum(r.value)
    {
      var st := InitialScan;
      var i := 0;
      while i < maxIterations
        invariant i <= maxIterations && !st.ended && !st.failed
        invariant dev.writes == old(dev.writes) && dev.sent == old(dev.sent)
        invariant ReadLoop(st, dev.chunks, maxIterations - i) == ReadLoop(InitialScan, old(dev.chunks), maxIterations)
        decreases maxIterations - i
      {
        var bufIn := dev.Read();
        if |bufIn| > HeaderLength {
          st := ScanChunkBytes(st, bufIn);
          if st.failed {
            return Raised(IndexError), false;
          }
          if st.ended {
            break;
          }
        }
        i := i + 1;
      }
      var bufOut := st.out;
      badCrc := false;
      if |bufOut| > 2 {
        var crc := LittleEndian16(Crc16(PySlice(bufOut, 1, -3)));
        var returnedCrc := PySlice(bufOut, -3, -1);
        badCrc := crc != returnedCrc;
      }
      return Ok(bufOut), badCrc;
    }

    /** `__search_device_id`. */
    method SearchDeviceId(serial: int) returns (r: Result<Option<seq<byte>>>)
      modifies dev
      ensures (r, dev.Snapshot()) == SearchDeviceIdF(old(dev.Snapshot()), serial)
    {
      var prepared := ToBytes4(serial + SerialOffset);
      if prepared.Raised? {
        return Raised(prepared.error);
      }
      var basicMsg := PySplice(SearchCommand, 12, 16, prepared.value);
      var resu := SendRawMessage(basicMsg, false);
      if resu.value > 0 {
        var data, _ := ReadRawMessage(SearchReads);
        if data.Raised? {
          return Raised(data.error);
        }
        if |data.value| < 7 {
          return Ok(None);
        }
        return Ok(Some(data.value[5..7]));
      }
      return Ok(None);
    }

    /** `__do_syn_online`. */
    method DoSynOnline() returns (r: Result<bool>)
      modifies dev
      ensures (r, dev.Snapshot()) == SynOnlineF(old(dev.Snapshot()))
    {
      var resu := SendRawMessage(SynOnlineCommand, false);
      if resu.value == 0 {
        return Ok(false);
      }
      var reply, _ := ReadRawMessage(SynOnlineReads);
      if reply.Raised? {
        return Raised(reply.error);
      }
      return Ok(true);
    }

    /** `calc_checksum` with its escape test corrected to `not ignore_escaping`
        (see `ChecksumRoutine` for the test as written): the table loop over
        `msg[1:-3]`, the CRC-16/X-25 of the raw body when escaping is ignored
        and of the un-escaped body otherwise. */
    method CalcChecksum(msg: seq<byte>, ignoreEscaping: bool) returns (r: bv16)
      ensures ignoreEscaping ==> r == Crc16(PySlice(msg, 1, -3))
      ensures !ignoreEscaping ==> r == Crc16(Unescape(PySlice(msg, 1, -3)))
    {
      var body := PySlice(msg, 1, -3);
      var escaping := !ignoreEscaping;
      var fcs: bv16 := InitialFcs;
      var escapeNext := false;
      for i := 0 to |body|
        invariant ChecksumFold(fcs, body[i..], escaping, escapeNext) == ChecksumFold(InitialFcs, body, escaping, false)
      {
        ghost var before := ChecksumFold(fcs, body[i..], escaping, escapeNext);
        assert body[i..][0] == body[i] && body[i..][1..] == body[i + 1..];
        var b := body[i];
        if escaping && b == Escape {
          escapeNext := true;
          assert before == ChecksumFold(fcs, body[i + 1..], escaping, escapeNext);
          continue;
        } else if escapeNext {
          b := Unmask(b);
          escapeNext := false;
        }
        assert before == ChecksumFold(FcsStep(fcs, b), body[i + 1..], escaping, false);
        fcs := FcsStep(fcs, b);
      }
      assert body[|body|..] == [];
      IntendedHonoursFlag(msg, ignoreEscaping);
      r := fcs ^ FinalXor;
    }
  }
}
