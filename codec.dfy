/** Outgoing frame encoding: the un-escaping that yields the checksum input,
    octet stuffing of the checksum bytes (section 4.2 of RFC 1662), the
    device-ID splice and the write of the stuffed checksum into the frame's
    checksum slot.

    A frame on the wire is 0x7E, an escaped body, the escaped little-endian
    checksum, 0x7E. Command templates carry two placeholder bytes where the
    checksum goes: the slot is `msg[-3:-1]`. */
module FrameCodec {
  import opened Bytes
  import opened Crc

  const Flag: byte := 0x7E
  const Escape: byte := 0x7D
  const EscapeXor: byte := 0x20

  /** The byte an escape marker stands for: its successor XOR 0x20. */
  function Unmask(b: byte): byte
  {
    b ^ EscapeXor
  }

  /** The bytes produced so far by an un-escaping pass, and whether an escape
      marker is still waiting for its byte. */
  datatype Unescaped = Unescaped(bytes: seq<byte>, pending: bool)

  /** Un-escaping as the send path and the checksum routine do it, starting
      with the escape flag `pending`: every 0x7D is dropped and sets the flag,
      every other byte is emitted, XOR-ed with 0x20 when the flag is set, and
      clears the flag. */
  function UnescapeFrom(s: seq<byte>, pending: bool): Unescaped
    decreases |s|
  {
    if s == [] then Unescaped([], pending)
    else if s[0] == Escape then UnescapeFrom(s[1..], true)
    else
      var rest := UnescapeFrom(s[1..], false);
      Unescaped([if pending then Unmask(s[0]) else s[0]] + rest.bytes, rest.pending)
  }

  function Unescape(s: seq<byte>): seq<byte>
  {
    UnescapeFrom(s, false).bytes
  }

  /** The number of bytes of `s` that are not escape markers. */
  function CountNonEscape(s: seq<byte>): nat
  {
    if s == [] then 0 else (if s[0] == Escape then 0 else 1) + CountNonEscape(s[1..])
  }

  /** Un-escaping drops exactly the escape markers: one output byte per
      other input byte. */
  lemma {:induction false} UnescapeLength(s: seq<byte>, pending: bool)
    ensures |UnescapeFrom(s, pending).bytes| == CountNonEscape(s)
    decreases |s|
  {
    if s != [] {
      UnescapeLength(s[1..], s[0] == Escape);
      UnescapeLength(s[1..], false);
    }
  }

  /** Un-escaping is a left-to-right pass: `a + b` un-escapes to the
      un-escaping of `a` followed by that of `b`, the flag carried over. */
  lemma {:induction false} UnescapeAppend(a: seq<byte>, b: seq<byte>, pending: bool)
    ensures UnescapeFrom(a + b, pending).bytes
         == UnescapeFrom(a, pending).bytes + UnescapeFrom(b, UnescapeFrom(a, pending).pending).bytes
    ensures UnescapeFrom(a + b, pending).pending == UnescapeFrom(b, UnescapeFrom(a, pending).pending).pending
    decreases |a|
  {
    if a == [] {
      assert a + b == b;
    } else {
      assert (a + b)[1..] == a[1..] + b;
      UnescapeAppend(a[1..], b, a[0] == Escape);
      UnescapeAppend(a[1..], b, false);
    }
  }

  /** Octet stuffing of one checksum byte: 0x7E becomes 7D 5E, 0x7D becomes
      7D 5D, any other byte is sent as it is. */
  function StuffByte(b: byte): (r: seq<byte>)
  {
    if b == Flag then [Escape, 0x5E]
    else if b == Escape then [Escape, 0x5D]
    else [b]
  }

  function Stuff(s: seq<byte>): seq<byte>
  {
    if s == [] then [] else StuffByte(s[0]) + Stuff(s[1..])
  }

  /** The number of bytes of `s` that stuffing replaces by two. */
  function CountSpecial(s: seq<byte>): nat
  {
    if s == [] then 0 else (if s[0] == Flag || s[0] == Escape then 1 else 0) + CountSpecial(s[1..])
  }

  /** Stuffing never emits a flag byte, and lengthens its input by one byte
      for every flag or escape byte in it. */
  lemma {:induction false} StuffShape(s: seq<byte>)
    ensures Flag !in Stuff(s)
    ensures |Stuff(s)| == |s| + CountSpecial(s)
  {
    if s != [] {
      StuffShape(s[1..]);
    }
  }

  /** Un-escaping inverts stuffing, from a state with no escape pending, and
      leaves no escape pending. */
  lemma {:induction false} UnescapeStuff(s: seq<byte>)
    ensures UnescapeFrom(Stuff(s), false) == Unescaped(s, false)
  {
    if s != [] {
      var head := StuffByte(s[0]);
      UnescapeStuff(s[1..]);
      UnescapeAppend(head, Stuff(s[1..]), false);
      if s[0] == Flag || s[0] == Escape {
        assert head[1..][1..] == [];
      } else {
        assert head[1..] == [];
      }
    }
  }

  // ---------------------------------------------------------------------
  // The frame encoder

  /** The region the checksum covers: `msg[1:-3]`, between the opening flag
      and the checksum slot. */
  function CrcBody(msg: seq<byte>): seq<byte>
  {
    PySlice(msg, 1, -3)
  }

  /** The checksum the send path computes for `msg`: the CRC of the
      un-escaped body, little-endian. */
  function Checksum(msg: seq<byte>): seq<byte>
  {
    LittleEndian16(Crc16(Unescape(CrcBody(msg))))
  }

  /** `msg[7:9] = device_id`. */
  function WithDeviceId(msg: seq<byte>, id: seq<byte>): seq<byte>
  {
    PySplice(msg, 7, 9, id)
  }

  /** `msg[-3:-1] = newcrc`: the stuffed checksum replaces the slot. */
  function WithChecksum(msg: seq<byte>): seq<byte>
  {
    PySplice(msg, -3, -1, Stuff(Checksum(msg)))
  }

  /** Splicing the device ID changes bytes 7 and 8 and nothing else. */
  lemma DeviceIdSplice(msg: seq<byte>, id: seq<byte>)
    requires |msg| >= 9 && |id| == 2
    ensures |WithDeviceId(msg, id)| == |msg|
    ensures WithDeviceId(msg, id)[7..9] == id
    ensures forall i | 0 <= i < |msg| && i != 7 && i != 8 :: WithDeviceId(msg, id)[i] == msg[i]
  {
  }

  /** Writing the checksum keeps every byte before the slot and the closing
      byte, and puts in the slot the stuffed checksum: two to four bytes, no
      flag among them, which un-escape to the little-endian CRC of the
      un-escaped body. The frame grows by the number of checksum bytes that
      needed stuffing. */
  lemma ChecksumSlot(msg: seq<byte>)
    requires |msg| >= 4
    ensures var f := WithChecksum(msg);
            var slot := Stuff(Checksum(msg));
            && |f| == |msg| + CountSpecial(Checksum(msg))
            && f[..|msg| - 3] == msg[..|msg| - 3]
            && f[|msg| - 3..|f| - 1] == slot
            && f[|f| - 1] == msg[|msg| - 1]
            && 2 <= |slot| <= 4
            && Flag !in slot
            && UnescapeFrom(slot, false) == Unescaped(LittleEndian16(Crc16(Unescape(msg[1..|msg| - 3]))), false)
  {
    var c := Checksum(msg);
    StuffShape(c);
    UnescapeStuff(c);
    assert CountSpecial(c) <= 2 by {
      assert c[1..][1..] == [];
      assert CountSpecial(c[1..]) <= 1;
    }
  }

  // ---------------------------------------------------------------------
  // The two loops of the send path

  /** The loop that builds `msg_for_crc` from `msg[1:-3]`. */
  method UnescapeForCrc(body: seq<byte>) returns (msgForCrc: seq<byte>)
    ensures msgForCrc == Unescape(body)
    ensures |msgForCrc| == CountNonEscape(body)
  {
    msgForCrc := [];
    var escapeNext := false;
    for i := 0 to |body|
      invariant msgForCrc + UnescapeFrom(body[i..], escapeNext).bytes == Unescape(body)
    {
      ghost var before := escapeNext;
      assert body[i..][0] == body[i] && body[i..][1..] == body[i + 1..];
      var b := body[i];
      if b == Escape {
        escapeNext := true;
      } else {
        if escapeNext {
          b := Unmask(b);
          escapeNext := false;
        }
        ghost var rest := UnescapeFrom(body[i + 1..], false).bytes;
        assert UnescapeFrom(body[i..], before).bytes == [b] + rest;
        assert (msgForCrc + [b]) + rest == msgForCrc + ([b] + rest);
        msgForCrc := msgForCrc + [b];
      }
    }
    assert body[|body|..] == [];
    UnescapeLength(body, false);
  }

  /** The loop that builds `newcrc` from the two checksum bytes. */
  method StuffChecksum(checksum: seq<byte>) returns (newcrc: seq<byte>)
    ensures newcrc == Stuff(checksum)
    ensures Flag !in newcrc && |newcrc| == |checksum| + CountSpecial(checksum)
  {
    newcrc := [];
    for i := 0 to |checksum|
      invariant newcrc + Stuff(checksum[i..]) == Stuff(checksum)
    {
      assert checksum[i..][0] == checksum[i] && checksum[i..][1..] == checksum[i + 1..];
      var value := checksum[i];
      ghost var rest := Stuff(checksum[i + 1..]);
      assert Stuff(checksum[i..]) == StuffByte(value) + rest;
      assert (newcrc + StuffByte(value)) + rest == newcrc + (StuffByte(value) + rest);
      if value == Flag {
        newcrc := newcrc + [Escape, 0x5E];
      } else if value == Escape {
        newcrc := newcrc + [Escape, 0x5D];
      } else {
        newcrc := newcrc + [value];
      }
    }
    assert checksum[|checksum|..] == [];
    StuffShape(checksum);
  }
}
