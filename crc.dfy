/** CRC-16/X-25, the 16-bit frame check sequence of section 3.1 and
    Appendix C.2 of RFC 1662, with initial value 0xFFFF and a final XOR of
    0xFFFF. The send and receive paths compute it with a library function;
    it is defined here byte by byte, each byte's effect on the low byte of
    the register computed by eight shifts of the register. The checksum
    routine computes it with the lookup table; that fold is proved equal to
    the reference one. */
module Crc {
  import opened Bytes
  import opened CrcTable

  const InitialFcs: bv16 := 0xFFFF
  const FinalXor: bv16 := 0xFFFF

  /** The low byte of the register, as a table index. */
  function LowByte(c: bv16): byte
  {
    (c & 0xFF) as byte
  }

  /** One table step: `fcs = (fcs >> 8) ^ fcstable[(fcs ^ b) & 0xff]`. */
  function FcsStep(fcs: bv16, b: byte): bv16
  {
    TableIsGenerated(0);
    (fcs >> 8) ^ FcsTable[LowByte(fcs ^ b as bv16) as int]
  }

  /** The running FCS after folding `data` into `fcs` with the table, first
      byte first. */
  function FcsFold(fcs: bv16, data: seq<byte>): bv16
    decreases |data|
  {
    if data == [] then fcs else FcsFold(FcsStep(fcs, data[0]), data[1..])
  }

  /** The reference step: the register shifts out its low byte, XOR-ed with
      the input byte, through eight rounds of the polynomial. */
  function ShiftStep(fcs: bv16, b: byte): bv16
  {
    (fcs >> 8) ^ EightRounds(LowByte(fcs ^ b as bv16) as bv16)
  }

  /** The reference register after folding `data` into `fcs`. */
  function ShiftFold(fcs: bv16, data: seq<byte>): bv16
    decreases |data|
  {
    if data == [] then fcs else ShiftFold(ShiftStep(fcs, data[0]), data[1..])
  }

  /** The CRC-16/X-25 of `data`, by the reference definition. */
  function Crc16(data: seq<byte>): bv16
  {
    ShiftFold(InitialFcs, data) ^ FinalXor
  }

  /** The CRC computed with the lookup table. */
  function TableCrc16(data: seq<byte>): bv16
  {
    FcsFold(InitialFcs, data) ^ FinalXor
  }

  /** The entry a step looks up is the one the register generates. */
  lemma EntryIsGenerated(fcs: bv16, b: byte)
    ensures |FcsTable| == 256
    ensures FcsTable[LowByte(fcs ^ b as bv16) as int] == EightRounds(LowByte(fcs ^ b as bv16) as bv16)
  {
    TableIsGenerated(LowByte(fcs ^ b as bv16));
  }

  lemma TableStepParts(fcs: bv16, b: byte)
    ensures |FcsTable| == 256
    ensures FcsStep(fcs, b) == (fcs >> 8) ^ FcsTable[LowByte(fcs ^ b as bv16) as int]
  {
    TableIsGenerated(0);
  }

  lemma ShiftStepParts(fcs: bv16, b: byte)
    ensures ShiftStep(fcs, b) == (fcs >> 8) ^ EightRounds(LowByte(fcs ^ b as bv16) as bv16)
  {
  }

  /** A table step is the reference step. */
  lemma StepIsShift(fcs: bv16, b: byte)
    ensures FcsStep(fcs, b) == ShiftStep(fcs, b)
  {
    EntryIsGenerated(fcs, b);
    TableStepParts(fcs, b);
    ShiftStepParts(fcs, b);
  }

  lemma {:induction false} FoldIsShift(fcs: bv16, data: seq<byte>)
    ensures FcsFold(fcs, data) == ShiftFold(fcs, data)
    decreases |data|
  {
    if data != [] {
      StepIsShift(fcs, data[0]);
      FoldIsShift(FcsStep(fcs, data[0]), data[1..]);
    }
  }

  /** The table-driven CRC is the reference CRC on every input. */
  lemma TableCrcIsCrc16(data: seq<byte>)
    ensures TableCrc16(data) == Crc16(data)
  {
    FoldIsShift(InitialFcs, data);
  }

  /** The standard check value of CRC-16/X-25: the checksum of the ASCII
      string "123456789" is 0x906E. */
  lemma CheckValue()
    ensures Crc16([0x31, 0x32, 0x33, 0x34, 0x35, 0x36, 0x37, 0x38, 0x39]) == 0x906E
  {
  }
}
