/** Incoming frame reassembly: the byte scanner of the receive path. Each
    transport read yields a chunk whose first two bytes are a transport
    header; the rest is scanned for the 0x7E that opens a frame and the 0x7E
    that closes it, un-escaping as it goes and dropping the device's 0x01 0x60
    idle artifact. The start and escape state carry from chunk to chunk. */
module FrameScanner {
  import opened Bytes
  import opened Crc
  import opened FrameCodec

  const HeaderLength: nat := 2
  const IdleFirst: byte := 0x01
  const IdleSecond: byte := 0x60

  /** The scanner's state: the bytes emitted so far (`buf_out`), whether the
      opening flag was seen (`start_found`), whether an escape marker waits
      for its byte (`previous_char_is_escape`), whether the closing flag was
      seen (`end_found`), and whether `del buf_out[-1]` hit an empty buffer,
      which raises IndexError in the tool. */
  datatype Scan = Scan(out: seq<byte>, started: bool, escaped: bool, ended: bool, failed: bool)

  const InitialScan := Scan([], false, false, false, false)

  /** The receive path's escape rule: 0x5E stands for 0x7E, 0x5D for 0x7D,
      anything else is XOR-ed with 0x20. The three cases are one XOR, the
      send path's rule. */
  function RecvUnmask(b: byte): (r: byte)
    ensures r == Unmask(b)
  {
    if b == 0x5E then 0x7E else if b == 0x5D then 0x7D else Unmask(b)
  }

  /** One byte `b` of a chunk, `prev` being the raw byte before it in the same
      chunk (for the first scanned byte, the second header byte). */
  function ScanByte(st: Scan, prev: byte, b: byte): Scan
  {
    var started := st.started || b == Flag;
    var ended := st.started && b == Flag;
    if started && b == IdleSecond && prev == IdleFirst then
      if st.out == [] then st.(failed := true)
      else st.(out := st.out[..|st.out| - 1])
    else if b == Escape then st.(escaped := true)
    else Scan(st.out + [if st.escaped then RecvUnmask(b) else b], started, false, ended, false)
  }

  /** Scanning `chunk` from position `p` on, until its end, the closing flag
      or a failure. */
  function ScanFrom(st: Scan, chunk: seq<byte>, p: nat): Scan
    requires HeaderLength <= p <= |chunk|
    decreases |chunk| - p
  {
    if p == |chunk| || st.ended || st.failed then st
    else ScanFrom(ScanByte(st, chunk[p - 1], chunk[p]), chunk, p + 1)
  }

  /** One chunk: chunks of two bytes or fewer carry no payload. */
  function ScanChunk(st: Scan, chunk: seq<byte>): Scan
  {
    if |chunk| > HeaderLength then ScanFrom(st, chunk, HeaderLength) else st
  }

  /** A read on the transport: the next queued chunk, or nothing. */
  function NextChunk(q: seq<seq<byte>>): seq<byte>
  {
    if q == [] then [] else q[0]
  }

  function RestChunks(q: seq<seq<byte>>): seq<seq<byte>>
  {
    if q == [] then [] else q[1..]
  }

  /** The outer read loop: up to `budget` reads from the queue `q`, stopping
      after the chunk that holds the closing flag. Yields the final state and
      the unread chunks. */
  function ReadLoop(st: Scan, q: seq<seq<byte>>, budget: nat): (Scan, seq<seq<byte>>)
    decreases budget
  {
    if budget == 0 || st.ended || st.failed then (st, q)
    else ReadLoop(ScanChunk(st, NextChunk(q)), RestChunks(q), budget - 1)
  }

  /** The check that closes the receive path: the CRC of `buf_out[1:-3]`
      (already un-escaped) against `buf_out[-3:-1]`, for buffers longer than
      two bytes. A mismatch is only logged. */
  predicate BadChecksum(buf: seq<byte>)
  {
    |buf| > 2 && LittleEndian16(Crc16(PySlice(buf, 1, -3))) != PySlice(buf, -3, -1)
  }

  // ---------------------------------------------------------------------
  // The inner loop of the receive path

  /** The loop over `buf_in[2:]` of one chunk. */
  method ScanChunkBytes(st0: Scan, bufIn: seq<byte>) returns (st: Scan)
    requires !st0.ended && !st0.failed
    ensures st == ScanChunk(st0, bufIn)
  {
    st := st0;
    if |bufIn| > HeaderLength {
      var bufOut, startFound, previousCharIsEscape := st0.out, st0.started, st0.escaped;
      var endFound := false;
      for p := HeaderLength to |bufIn|
        invariant !endFound
        invariant ScanFrom(Scan(bufOut, startFound, previousCharIsEscape, false, false), bufIn, p)
               == ScanFrom(st0, bufIn, HeaderLength)
      {
        var myByte := bufIn[p];
        if myByte == Flag {
          if !startFound {
            startFound := true;
          } else {
            endFound := true;
          }
        }
        if startFound && myByte == IdleSecond && bufIn[p - 1] == IdleFirst {
          if |bufOut| == 0 {
            return Scan(bufOut, startFound, previousCharIsEscape, false, true);
          }
          bufOut := bufOut[..|bufOut| - 1];
          continue;
        }
        if myByte == Escape {
          previousCharIsEscape := true;
          continue;
        }
        if previousCharIsEscape {
          if myByte == 0x5E {
            myByte := 0x7E;
          } else if myByte == 0x5D {
            myByte := 0x7D;
          } else {
            myByte := Unmask(myByte);
          }
          previousCharIsEscape := false;
        }
        bufOut := bufOut + [myByte];
        if endFound {
          return Scan(bufOut, startFound, previousCharIsEscape, true, false);
        }
      }
      st := Scan(bufOut, startFound, previousCharIsEscape, false, false);
    }
  }

  // ---------------------------------------------------------------------
  // Properties of the scanner

  /** The scan of a chunk depends on the raw bytes from position `p` on and,
      of the byte before them, only on whether it is 0x01. */
  lemma {:induction false} ScanFromShift(st: Scan, c: seq<byte>, p: nat, d: seq<byte>, q: nat)
    requires HeaderLength <= p <= |c| && HeaderLength <= q <= |d|
    requires c[p..] == d[q..]
    requires (c[p - 1] == IdleFirst) == (d[q - 1] == IdleFirst)
    ensures ScanFrom(st, c, p) == ScanFrom(st, d, q)
    decreases |c| - p
  {
    assert |c| - p == |d| - q by {
      assert |c[p..]| == |d[q..]|;
    }
    if p < |c| && !st.ended && !st.failed {
      assert c[p] == c[p..][0] == d[q..][0] == d[q];
      assert c[p + 1..] == c[p..][1..] == d[q..][1..] == d[q + 1..];
      ScanFromShift(ScanByte(st, c[p - 1], c[p]), c, p + 1, d, q + 1);
    }
  }

  /** The transport header is never emitted: the first header byte plays no
      part at all, the second only through the 0x01 0x60 rule. */
  lemma HeaderIgnored(st: Scan, c: seq<byte>, h0: byte, h1: byte)
    requires |c| >= HeaderLength
    requires (h1 == IdleFirst) == (c[1] == IdleFirst)
    ensures ScanChunk(st, c) == ScanChunk(st, [h0, h1] + c[HeaderLength..])
  {
    var d := [h0, h1] + c[HeaderLength..];
    if |c| > HeaderLength {
      assert d[HeaderLength..] == c[HeaderLength..];
      ScanFromShift(st, c, HeaderLength, d, HeaderLength);
    }
  }

  /** Scanning a chunk stops where a scan of its first `|c1|` bytes stops,
      unless that scan ran to the end, in which case it goes on from there. */
  lemma {:induction false} ScanFromPrefix(st: Scan, c1: seq<byte>, c: seq<byte>, p: nat)
    requires HeaderLength <= p <= |c1| <= |c| && c1 == c[..|c1|]
    ensures ScanFrom(st, c, p) == ScanFrom(ScanFrom(st, c1, p), c, |c1|)
    decreases |c1| - p
  {
    if p < |c1| && !st.ended && !st.failed {
      ScanFromPrefix(ScanByte(st, c1[p - 1], c1[p]), c1, c, p + 1);
    }
  }

  /** A frame may span reads: the state carried from one chunk to the next
      (the bytes so far, the opening flag, a pending escape marker) makes
      scanning `h1 + a` then `h2 + b` the same as scanning `h1 + a + b` in one
      read, provided the second header byte agrees with the last byte of `a`
      on being 0x01. */
  lemma ChunkBoundary(st: Scan, h1: seq<byte>, a: seq<byte>, h2: seq<byte>, b: seq<byte>)
    requires |h1| == HeaderLength && |h2| == HeaderLength && |a| > 0 && |b| > 0
    requires (h2[1] == IdleFirst) == (a[|a| - 1] == IdleFirst)
    ensures ScanChunk(ScanChunk(st, h1 + a), h2 + b) == ScanChunk(st, h1 + a + b)
  {
    var c1, c2, c := h1 + a, h2 + b, h1 + a + b;
    assert c[..|c1|] == c1;
    ScanFromPrefix(st, c1, c, HeaderLength);
    var s1 := ScanFrom(st, c1, HeaderLength);
    assert c[|c1|..] == b == c2[HeaderLength..];
    assert c[|c1| - 1] == a[|a| - 1];
    ScanFromShift(s1, c, |c1|, c2, HeaderLength);
  }

  /** Once the opening flag is seen, an idle pair 0x01 0x60 inside a chunk
      leaves no trace: the 0x01 is emitted and removed again, and a pending
      escape marker is consumed by it. */
  lemma IdlePairVanishes(st: Scan, prev: byte)
    requires st.started && !st.ended && !st.failed
    ensures ScanByte(ScanByte(st, prev, IdleFirst), IdleFirst, IdleSecond) == st.(escaped := false)
  {
    var s1 := ScanByte(st, prev, IdleFirst);
    assert s1.out[..|s1.out| - 1] == st.out;
  }

  /** An idle pair straddling the header, with nothing emitted yet after the
      opening flag was seen, makes the tool delete from an empty buffer. */
  lemma IdlePairOnEmptyFails(st: Scan, c: seq<byte>)
    requires st.started && !st.ended && !st.failed && st.out == []
    requires |c| > HeaderLength && c[1] == IdleFirst && c[2] == IdleSecond
    ensures ScanChunk(st, c).failed
  {
    var s1 := ScanByte(st, c[1], c[2]);
    assert s1.failed;
    assert ScanFrom(st, c, HeaderLength) == ScanFrom(s1, c, HeaderLength + 1);
  }

  /** A scan that has ended has not failed, is non-empty, and its last byte
      is the closing flag 0x7E, or 0x5E when that flag followed an escape
      marker. */
  predicate ClosedByFlag(st: Scan)
  {
    st.ended ==> !st.failed && st.started && |st.out| > 0 && (st.out[|st.out| - 1] == Flag || st.out[|st.out| - 1] == Unmask(Flag))
  }

  lemma {:induction false} ScanFromClosed(st: Scan, c: seq<byte>, p: nat)
    requires HeaderLength <= p <= |c| && ClosedByFlag(st)
    ensures ClosedByFlag(ScanFrom(st, c, p))
    ensures st.ended ==> ScanFrom(st, c, p) == st
    decreases |c| - p
  {
    if p < |c| && !st.ended && !st.failed {
      ScanFromClosed(ScanByte(st, c[p - 1], c[p]), c, p + 1);
    }
  }

  /** The read loop only ends on a closing flag, which it keeps as the last
      byte of the frame; it consumes at most `budget` chunks and leaves the
      rest of the queue in order, and once the frame has ended it reads no
      further chunk. */
  lemma {:induction false} ReadLoopShape(st: Scan, q: seq<seq<byte>>, budget: nat)
    requires ClosedByFlag(st)
    ensures ClosedByFlag(ReadLoop(st, q, budget).0)
    ensures st.ended ==> ReadLoop(st, q, budget) == (st, q)
    ensures var rest := ReadLoop(st, q, budget).1;
            |rest| <= |q| && rest == q[|q| - |rest|..] && |q| - |rest| <= budget
    decreases budget
  {
    if budget > 0 && !st.ended && !st.failed {
      var c := NextChunk(q);
      if |c| > HeaderLength {
        ScanFromClosed(st, c, HeaderLength);
      }
      ReadLoopShape(ScanChunk(st, c), RestChunks(q), budget - 1);
      var rest := ReadLoop(st, q, budget).1;
      if q != [] {
        assert rest == q[1..][|q| - 1 - |rest|..];
      }
    }
  }

  /** No idle pair 0x01 0x60 among the bytes of `s`. */
  predicate NoIdlePair(s: seq<byte>)
  {
    forall k | 1 <= k < |s| :: !(s[k - 1] == IdleFirst && s[k] == IdleSecond)
  }

  /** A stretch of a chunk with no flag in it (and, once the opening flag was
      seen, no idle pair) is un-escaped exactly as the send path un-escapes:
      the scan appends its un-escaping and carries the escape marker on. */
  lemma {:induction false} ScanSegment(st: Scan, c: seq<byte>, p: nat, q: nat)
    requires HeaderLength <= p <= q <= |c| && !st.ended && !st.failed
    requires Flag !in c[p..q]
    requires st.started ==> NoIdlePair(c[p - 1..q])
    ensures var u := UnescapeFrom(c[p..q], st.escaped);
            ScanFrom(st, c, p) == ScanFrom(Scan(st.out + u.bytes, st.started, u.pending, false, false), c, q)
    decreases q - p
  {
    if p == q {
      assert c[p..q] == [];
      assert st.out + [] == st.out;
    } else {
      SegmentTail(c, p, q);
      if st.started {
        IdleFreeTail(c, p, q);
      }
      ScanByteInSegment(st, c[p - 1], c[p], c[p + 1..q]);
      ScanSegment(ScanByte(st, c[p - 1], c[p]), c, p + 1, q);
    }
  }

  /** The first byte of a flag-free stretch, and the rest of it. */
  lemma SegmentTail(c: seq<byte>, p: nat, q: nat)
    requires p < q <= |c| && Flag !in c[p..q]
    ensures c[p] != Flag && Flag !in c[p + 1..q]
    ensures c[p..q] == [c[p]] + c[p + 1..q]
  {
    assert c[p..q][0] == c[p];
    assert c[p..q][1..] == c[p + 1..q];
  }

  /** A stretch without an idle pair starts without one, and its tail has
      none either. */
  lemma IdleFreeTail(c: seq<byte>, p: nat, q: nat)
    requires 1 <= p < q <= |c| && NoIdlePair(c[p - 1..q])
    ensures !(c[p - 1] == IdleFirst && c[p] == IdleSecond)
    ensures NoIdlePair(c[p..q])
  {
    assert c[p - 1..q][0] == c[p - 1] && c[p - 1..q][1] == c[p];
    forall k | 1 <= k < |c[p..q]|
      ensures !(c[p..q][k - 1] == IdleFirst && c[p..q][k] == IdleSecond)
    {
      assert c[p..q][k - 1] == c[p - 1..q][k] && c[p..q][k] == c[p - 1..q][k + 1];
    }
  }

  /** Scanning a byte that is neither a flag nor the end of an idle pair
      un-escapes it as the send path would. */
  lemma ScanByteInSegment(st: Scan, prev: byte, b: byte, rest: seq<byte>)
    requires !st.ended && !st.failed && b != Flag
    requires st.started ==> !(prev == IdleFirst && b == IdleSecond)
    ensures var s1 := ScanByte(st, prev, b);
            var u := UnescapeFrom([b] + rest, st.escaped);
            var u1 := UnescapeFrom(rest, s1.escaped);
            && !s1.ended && !s1.failed && s1.started == st.started
            && s1.out + u1.bytes == st.out + u.bytes && u1.pending == u.pending
  {
    assert ([b] + rest)[0] == b && ([b] + rest)[1..] == rest;
    if b != Escape {
      var u1 := UnescapeFrom(rest, false);
      var x := if st.escaped then Unmask(b) else b;
      assert (st.out + [x]) + u1.bytes == st.out + ([x] + u1.bytes);
    }
  }

  /** Where the parts of a frame lie in a chunk that holds it behind a
      two-byte header, for any checksum slot without a flag byte. */
  lemma {:induction false} FrameLayout(msg: seq<byte>, slot: seq<byte>, hdr: seq<byte>)
    requires |msg| >= 4 && msg[0] == Flag && msg[|msg| - 1] == Flag && |hdr| == HeaderLength
    requires Flag !in msg[1..|msg| - 3] && Flag !in slot
    requires NoIdlePair(PySplice(msg, -3, -1, slot))
    ensures var c := hdr + PySplice(msg, -3, -1, slot);
            && |c| >= 4
            && c[2] == Flag && c[|c| - 1] == Flag
            && c[3..|c| - 1] == msg[1..|msg| - 3] + slot
            && Flag !in c[3..|c| - 1]
            && NoIdlePair(c[2..|c| - 1])
  {
    var f := PySplice(msg, -3, -1, slot);
    var body := msg[1..|msg| - 3];
    assert f == msg[..|msg| - 3] + slot + [Flag];
    var c := hdr + f;
    var n := |c|;
    assert c[3..n - 1] == body + slot;
    var mid := c[2..n - 1];
    assert mid == f[..|f| - 1];
    assert NoIdlePair(mid) by {
      forall k | 1 <= k < |mid|
        ensures !(mid[k - 1] == IdleFirst && mid[k] == IdleSecond)
      {
        assert mid[k - 1] == f[k - 1] && mid[k] == f[k];
      }
    }
  }

  /** A chunk holding one whole frame, whose bytes between the flags un-escape
      to `u` with no escape left pending, scans to the two flags around `u`. */
  lemma ScanWholeFrame(c: seq<byte>, u: seq<byte>)
    requires |c| >= 4 && c[2] == Flag && c[|c| - 1] == Flag
    requires Flag !in c[3..|c| - 1] && NoIdlePair(c[2..|c| - 1])
    requires UnescapeFrom(c[3..|c| - 1], false) == Unescaped(u, false)
    ensures ScanChunk(InitialScan, c) == Scan([Flag] + u + [Flag], true, false, true, false)
  {
    var n := |c|;
    var s1 := Scan([Flag], true, false, false, false);
    assert ScanByte(InitialScan, c[1], c[2]) == s1;
    ScanSegment(s1, c, 3, n - 1);
    var s2 := Scan([Flag] + u, true, false, false, false);
    assert ScanByte(s2, c[n - 2], c[n - 1]) == Scan([Flag] + u + [Flag], true, false, true, false);
  }

  /** A frame that carries the checksum of its own body passes the check. */
  lemma ChecksumVerifies(body: seq<byte>)
    ensures !BadChecksum([Flag] + body + LittleEndian16(Crc16(body)) + [Flag])
  {
    var crc := LittleEndian16(Crc16(body));
    var out := [Flag] + body + crc + [Flag];
    assert PySlice(out, 1, -3) == body;
    assert PySlice(out, -3, -1) == crc;
  }

  /** The receive path inverts the send path. A frame as the send path builds
      it from `msg` (opening flag, body, stuffed checksum, closing flag),
      read in one chunk behind any two-byte header, is scanned to the end:
      the result is the opening flag, the un-escaped body, the little-endian
      checksum and the closing flag, and its checksum verifies. This holds
      when the body holds no raw flag and no dangling escape marker and the
      frame holds no idle pair. */
  lemma ReceiveInvertsSend(msg: seq<byte>, hdr: seq<byte>)
    requires |msg| >= 4 && msg[0] == Flag && msg[|msg| - 1] == Flag && |hdr| == HeaderLength
    requires Flag !in msg[1..|msg| - 3]
    requires !UnescapeFrom(msg[1..|msg| - 3], false).pending
    requires NoIdlePair(WithChecksum(msg))
    ensures var out := [Flag] + Unescape(msg[1..|msg| - 3]) + LittleEndian16(Crc16(Unescape(msg[1..|msg| - 3]))) + [Flag];
            && ScanChunk(InitialScan, hdr + WithChecksum(msg)) == Scan(out, true, false, true, false)
            && !BadChecksum(out)
  {
    var body := msg[1..|msg| - 3];
    var crc := LittleEndian16(Crc16(Unescape(body)));
    var slot := Stuff(Checksum(msg));
    ChecksumSlot(msg);
    FrameLayout(msg, slot, hdr);
    var c := hdr + WithChecksum(msg);
    UnescapeAppend(body, slot, false);
    ScanWholeFrame(c, Unescape(body) + crc);
    assert [Flag] + (Unescape(body) + crc) + [Flag] == [Flag] + Unescape(body) + crc + [Flag];
    ChecksumVerifies(Unescape(body));
  }
}
