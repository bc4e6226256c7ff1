/** Bytes, Python's slicing rules, the exceptions the tool can raise, and the
    little-endian integer encodings used on the wire. */
module Bytes {

  type byte = bv8

  datatype Option<T> = None | Some(value: T)

  /** The Python exceptions that escape the modelled code. */
  datatype PyError =
    | IndexError         // `del buf_out[-1]` on an empty buffer, `tmpbuf[10]` on a short frame
    | TypeError          // `len(0)`, or `msg[7:9] = None`
    | StructError        // `struct.unpack` on a slice of the wrong size
    | OverflowError      // `int.to_bytes` on a value that does not fit
    | UnboundLocalError  // `return (pac, ...)` with `pac` never assigned

  datatype Result<T> = Ok(value: T) | Raised(error: PyError)

  /** Python's normalisation of a slice bound against a sequence of length `len`. */
  function PyBound(len: nat, i: int): (r: nat)
    ensures r <= len
    ensures 0 <= i <= len ==> r == i
    ensures i < 0 && -i <= len ==> r == len + i
  {
    if i < 0 then (if len + i < 0 then 0 else len + i)
    else if i > len then len
    else i
  }

  /** Python's `s[start:stop]`. */
  function PySlice(s: seq<byte>, start: int, stop: int): seq<byte>
  {
    var a := PyBound(|s|, start);
    var b := PyBound(|s|, stop);
    if a < b then s[a..b] else []
  }

  /** Python's slice assignment `s[start:stop] = x` on a bytearray (an empty
      range inserts `x` at `start`). */
  function PySplice(s: seq<byte>, start: int, stop: int, x: seq<byte>): seq<byte>
  {
    var a := PyBound(|s|, start);
    var b := PyBound(|s|, stop);
    s[..a] + x + s[if b < a then a else b..]
  }

  /** `v.to_bytes(length=2, byteorder='little')` for a 16-bit value. */
  function LittleEndian16(v: bv16): (r: seq<byte>)
    ensures |r| == 2
    ensures (r[0] as bv16) | ((r[1] as bv16) << 8) == v
  {
    [(v & 0xFF) as byte, (v >> 8) as byte]
  }

  function Pow256(n: nat): (r: nat)
    ensures r >= 1
  {
    if n == 0 then 1 else 256 * Pow256(n - 1)
  }

  /** The unsigned value of a little-endian byte string. */
  function FromLittleEndian(s: seq<byte>): nat
  {
    if s == [] then 0 else s[0] as nat + 256 * FromLittleEndian(s[1..])
  }

  /** The `n` little-endian bytes of `v` (the low `n` bytes when `v` is larger). */
  function ToLittleEndian(v: nat, n: nat): (r: seq<byte>)
    ensures |r| == n
  {
    if n == 0 then [] else [(v % 256) as byte] + ToLittleEndian(v / 256, n - 1)
  }

  lemma {:induction false} LittleEndianRoundTrip(v: nat, n: nat)
    requires v < Pow256(n)
    ensures FromLittleEndian(ToLittleEndian(v, n)) == v
  {
    if n > 0 {
      var r := ToLittleEndian(v, n);
      assert r[1..] == ToLittleEndian(v / 256, n - 1);
      DigitSplit(v, Pow256(n - 1));
      LittleEndianRoundTrip(v / 256, n - 1);
      assert r[0] as nat == v % 256;
    }
  }

  /** The low digit and the rest of a number below `256 * p`. */
  lemma DigitSplit(v: nat, p: nat)
    requires v < 256 * p
    ensures v / 256 < p
    ensures ((v % 256) as byte) as nat == v % 256
    ensures v == v % 256 + 256 * (v / 256)
  {
  }

  lemma {:induction false} FromLittleEndianBound(s: seq<byte>)
    ensures FromLittleEndian(s) < Pow256(|s|)
  {
    if s != [] {
      FromLittleEndianBound(s[1..]);
    }
  }

  /** Python's `v.to_bytes(length=4, byteorder='little')`, which raises
      OverflowError for a negative value or one that needs more than 4 bytes. */
  function ToBytes4(v: int): (r: Result<seq<byte>>)
    ensures r.Ok? <==> 0 <= v < 0x1_0000_0000
    ensures r.Ok? ==> |r.value| == 4 && FromLittleEndian(r.value) == v
  {
    if 0 <= v < 0x1_0000_0000 then
      assert Pow256(4) == 0x1_0000_0000;
      LittleEndianRoundTrip(v, 4);
      Ok(ToLittleEndian(v, 4))
    else Raised(OverflowError)
  }

  /** `struct.unpack('i', s)[0]`: a little-endian two's-complement 32-bit
      integer, the unsigned value less 2^32 when the sign bit is set. */
  function Int32LittleEndian(s: seq<byte>): (r: int)
    requires |s| == 4
    ensures -0x8000_0000 <= r < 0x8000_0000
    ensures r >= 0 <==> s[3] < 0x80
    ensures r == FromLittleEndian(s) - (if s[3] >= 0x80 then 0x1_0000_0000 else 0)
  {
    FourBytes(s);
    var u := s[0] as int + 0x100 * s[1] as int + 0x1_0000 * s[2] as int + 0x100_0000 * s[3] as int;
    if u >= 0x8000_0000 then u - 0x1_0000_0000 else u
  }

  /** The unsigned value of four little-endian bytes, digit by digit. */
  lemma FourBytes(s: seq<byte>)
    requires |s| == 4
    ensures FromLittleEndian(s)
         == s[0] as int + 0x100 * s[1] as int + 0x1_0000 * s[2] as int + 0x100_0000 * s[3] as int
  {
    assert s[1..][1..] == s[2..] && s[2..][1..] == s[3..] && s[3..][1..] == [];
    assert FromLittleEndian(s[3..]) == s[3] as int;
    assert FromLittleEndian(s[2..]) == s[2] as int + 0x100 * s[3] as int;
    assert FromLittleEndian(s[1..]) == s[1] as int + 0x100 * s[2] as int + 0x1_0000 * s[3] as int;
  }
}
