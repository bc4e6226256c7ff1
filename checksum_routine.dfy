/** The stand-alone checksum routine `calc_checksum`: the table-driven FCS of
    `msg[1:-3]`, meant to skip escape markers only when `ignore_escaping` is
    false. Its test is `~ignore_escaping`, Python's bitwise complement of a
    bool, which is -1 or -2 and so always true: escape markers are always
    skipped, whatever the flag. */
module ChecksumRoutine {
  import opened Bytes
  import opened Crc
  import opened FrameCodec

  /** Python's `~` on a bool, which acts as the integer 0 or 1. */
  function PyInvert(b: bool): (r: int)
    ensures r == -(if b then 1 else 0) - 1
  {
    if b then -2 else -1
  }

  /** The routine's loop over `body`: with `escaping` set, a 0x7D is skipped
      and the next byte is XOR-ed with 0x20; every other byte is folded into
      the FCS with the table. */
  function ChecksumFold(fcs: bv16, body: seq<byte>, escaping: bool, escapeNext: bool): bv16
    decreases |body|
  {
    if body == [] then fcs
    else if escaping && body[0] == Escape then ChecksumFold(fcs, body[1..], escaping, true)
    else ChecksumFold(FcsStep(fcs, if escapeNext then Unmask(body[0]) else body[0]), body[1..], escaping, false)
  }

  /** With escaping on, the loop folds exactly the un-escaped body. */
  lemma {:induction false} FoldEscaping(fcs: bv16, body: seq<byte>, escapeNext: bool)
    ensures ChecksumFold(fcs, body, true, escapeNext) == FcsFold(fcs, UnescapeFrom(body, escapeNext).bytes)
    decreases |body|
  {
    if body != [] {
      if body[0] == Escape {
        FoldEscaping(fcs, body[1..], true);
      } else {
        var b := if escapeNext then Unmask(body[0]) else body[0];
        FoldEscaping(FcsStep(fcs, b), body[1..], false);
        var u := UnescapeFrom(body, escapeNext).bytes;
        assert u == [b] + UnescapeFrom(body[1..], false).bytes;
        assert u[0] == b && u[1..] == UnescapeFrom(body[1..], false).bytes;
      }
    }
  }

  /** With escaping off, the loop folds the body as it is. */
  lemma {:induction false} FoldRaw(fcs: bv16, body: seq<byte>)
    ensures ChecksumFold(fcs, body, false, false) == FcsFold(fcs, body)
    decreases |body|
  {
    if body != [] {
      FoldRaw(FcsStep(fcs, body[0]), body[1..]);
    }
  }

  /** `calc_checksum` as written: the escape test is `~ignore_escaping`. */
  function CalcChecksumAsWritten(msg: seq<byte>, ignoreEscaping: bool): bv16
  {
    ChecksumFold(InitialFcs, PySlice(msg, 1, -3), PyInvert(ignoreEscaping) != 0, false) ^ FinalXor
  }

  /** As written, the routine is the CRC-16/X-25 of the un-escaped body
      whichever way the flag is set. */
  lemma AsWrittenIgnoresFlag(msg: seq<byte>, ignoreEscaping: bool)
    ensures CalcChecksumAsWritten(msg, ignoreEscaping) == Crc16(Unescape(PySlice(msg, 1, -3)))
  {
    FoldEscaping(InitialFcs, PySlice(msg, 1, -3), false);
    TableCrcIsCrc16(Unescape(PySlice(msg, 1, -3)));
  }

  /** `calc_checksum` as evidently intended: the escape test is
      `not ignore_escaping`. */
  function CalcChecksumIntended(msg: seq<byte>, ignoreEscaping: bool): bv16
  {
    ChecksumFold(InitialFcs, PySlice(msg, 1, -3), !ignoreEscaping, false) ^ FinalXor
  }

  /** The intended routine honours the flag: the CRC of the raw body when
      escaping is ignored, of the un-escaped body otherwise. */
  lemma IntendedHonoursFlag(msg: seq<byte>, ignoreEscaping: bool)
    ensures ignoreEscaping ==> CalcChecksumIntended(msg, ignoreEscaping) == Crc16(PySlice(msg, 1, -3))
    ensures !ignoreEscaping ==> CalcChecksumIntended(msg, ignoreEscaping) == Crc16(Unescape(PySlice(msg, 1, -3)))
  {
    if ignoreEscaping {
      FoldRaw(InitialFcs, PySlice(msg, 1, -3));
      TableCrcIsCrc16(PySlice(msg, 1, -3));
    } else {
      FoldEscaping(InitialFcs, PySlice(msg, 1, -3), false);
      TableCrcIsCrc16(Unescape(PySlice(msg, 1, -3)));
    }
  }

  /** A six-byte frame whose body is an escaped 0x7E: asked to ignore
      escaping, the routine as written still un-escapes the body, and
      disagrees with the intended one. */
  lemma FlagIgnoredOnEscapedBody(msg: seq<byte>)
    requires |msg| == 6 && msg[1] == Escape && msg[2] == 0x5E
    ensures CalcChecksumAsWritten(msg, true) != CalcChecksumIntended(msg, true)
  {
    var body := PySlice(msg, 1, -3);
    assert body == [Escape, 0x5E];
    AsWrittenIgnoresFlag(msg, true);
    IntendedHonoursFlag(msg, true);
    assert body[1..] == [0x5E] && body[1..][1..] == [];
    assert UnescapeFrom(body[1..], true).bytes == [Flag];
    FlagChecksum();
    EscapedFlagChecksum();
  }

  /** The checksum of a lone 0x7E, by the reference definition. */
  lemma FlagChecksum()
    ensures Crc16([0x7E]) == 0x6A81
  {
    assert ShiftStep(InitialFcs, 0x7E) == 0x957E;
  }

  /** The checksum of its escaped form 0x7D 0x5E. */
  lemma EscapedFlagChecksum()
    ensures Crc16([0x7D, 0x5E]) == 0xF400
  {
    assert [0x7D, 0x5E][1..] == [0x5E];
    assert ShiftStep(InitialFcs, 0x7D) == 0xA7E5;
    assert ShiftStep(0xA7E5, 0x5E) == 0x0BFF;
  }
}
