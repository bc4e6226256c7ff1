/** Slicing of a combined reply into measurement records: from offset 5 on,
    every 12 bytes hold a record whose bytes 0-3 are a little-endian 32-bit
    timestamp and whose bytes 8-11 are a 32-bit float. The float is kept as
    its four raw bytes. */
module MeasurementDecoder {
  import opened Bytes

  const FirstRecord: nat := 5
  const RecordSize: nat := 12

  /** One record: the signed timestamp and the raw bytes of the value. */
  datatype Record = Record(timestamp: int, value: seq<byte>)

  /** What the parser returns: 0 for an empty input, a list otherwise. */
  datatype Parsed = Zero | Records(list: seq<Record>)

  /** The record whose slice starts at offset `i`. */
  function RecordAt(raw: seq<byte>, i: nat): Record
    requires i + RecordSize <= |raw|
  {
    Record(Int32LittleEndian(raw[i..i + 4]), raw[i + 8..i + RecordSize])
  }

  /** The records from offset `i` on, in slicing order; a final slice shorter
      than 12 bytes makes `struct.unpack` raise. */
  function DecodeFrom(raw: seq<byte>, i: nat): Result<seq<Record>>
    decreases |raw| - i
  {
    if i >= |raw| then Ok([])
    else if i + RecordSize > |raw| then Raised(StructError)
    else
      match DecodeFrom(raw, i + RecordSize)
      case Ok(rest) => Ok([RecordAt(raw, i)] + rest)
      case Raised(e) => Raised(e)
  }

  /** `list(reversed(s))`: the last element first. */
  function Reverse<T>(s: seq<T>): (r: seq<T>)
    ensures |r| == |s|
    ensures forall k | 0 <= k < |s| :: r[k] == s[|s| - 1 - k]
  {
    if s == [] then [] else Reverse(s[1..]) + [s[0]]
  }

  /** The parser: 0 for an empty input, otherwise the records in reverse
      order of slicing. */
  function Parse(raw: seq<byte>): Result<Parsed>
  {
    if |raw| == 0 then Ok(Zero)
    else
      match DecodeFrom(raw, FirstRecord)
      case Ok(list) => Ok(Records(Reverse(list)))
      case Raised(e) => Raised(e)
  }

  /** The number of slices from offset `i` on: the ceiling of (n - i) / 12. */
  function SliceCount(n: nat, i: nat): nat
  {
    if i >= n then 0 else (n - i + RecordSize - 1) / RecordSize
  }

  /** Decoding from offset `i` fails exactly when the last slice is short;
      otherwise it yields one record per slice, the `k`-th read from offset
      `i + 12 k`. */
  lemma {:induction false} DecodeFromShape(raw: seq<byte>, i: nat)
    ensures DecodeFrom(raw, i).Ok? <==> (i >= |raw| || (|raw| - i) % RecordSize == 0)
    ensures DecodeFrom(raw, i).Raised? ==> DecodeFrom(raw, i).error == StructError
    ensures DecodeFrom(raw, i).Ok? ==>
              var list := DecodeFrom(raw, i).value;
              && |list| == SliceCount(|raw|, i)
              && forall k | 0 <= k < |list| :: i + RecordSize * k + RecordSize <= |raw| && list[k] == RecordAt(raw, i + RecordSize * k)
    decreases |raw| - i
  {
    if i < |raw| && i + RecordSize <= |raw| {
      DecodeFromShape(raw, i + RecordSize);
      if DecodeFrom(raw, i).Ok? {
        ConsRecord(raw, i, DecodeFrom(raw, i + RecordSize).value);
      }
    }
  }

  /** The record at `i` followed by the records from `i + 12` are the
      records from `i`, each at its own offset. */
  lemma ConsRecord(raw: seq<byte>, i: nat, rest: seq<Record>)
    requires i + RecordSize <= |raw|
    requires forall k | 0 <= k < |rest| ::
               i + RecordSize + RecordSize * k + RecordSize <= |raw| && rest[k] == RecordAt(raw, i + RecordSize + RecordSize * k)
    ensures var list := [RecordAt(raw, i)] + rest;
            forall k | 0 <= k < |list| :: i + RecordSize * k + RecordSize <= |raw| && list[k] == RecordAt(raw, i + RecordSize * k)
  {
    var list := [RecordAt(raw, i)] + rest;
    forall k | 0 <= k < |list|
      ensures i + RecordSize * k + RecordSize <= |raw| && list[k] == RecordAt(raw, i + RecordSize * k)
    {
      if k > 0 {
        assert list[k] == rest[k - 1];
        assert i + RecordSize + RecordSize * (k - 1) == i + RecordSize * k;
      }
    }
  }

  /** The parser's whole contract: empty input gives 0; otherwise the input
      parses exactly when no slice is short, into ceil((n - 5) / 12) records
      (none when n <= 5), the `k`-th from the end read at offset 5 + 12 k. */
  lemma ParseShape(raw: seq<byte>)
    ensures |raw| == 0 ==> Parse(raw) == Ok(Zero)
    ensures |raw| > 0 ==>
              (Parse(raw).Ok? <==> (|raw| <= FirstRecord || (|raw| - FirstRecord) % RecordSize == 0))
    ensures Parse(raw).Raised? ==> Parse(raw).error == StructError
    ensures |raw| > 0 && Parse(raw).Ok? ==>
              var list := Parse(raw).value.list;
              var m := SliceCount(|raw|, FirstRecord);
              && |list| == m
              && forall k | 0 <= k < m ::
                   FirstRecord + RecordSize * k + RecordSize <= |raw|
                   && list[m - 1 - k] == RecordAt(raw, FirstRecord + RecordSize * k)
  {
    DecodeFromShape(raw, FirstRecord);
  }

  /** The loop of the parser: one record per stride, appended, then the list
      reversed. */
  method ParseMeasurements(rawdata: seq<byte>) returns (r: Result<Parsed>)
    ensures r == Parse(rawdata)
  {
    if |rawdata| <= 0 {
      return Ok(Zero);
    }
    var data: seq<Record> := [];
    var i := FirstRecord;
    ghost var all := DecodeFrom(rawdata, FirstRecord);
    if all.Ok? {
      assert data + all.value == all.value;
    }
    while i < |rawdata|
      invariant FirstRecord <= i
      invariant DecodeFrom(rawdata, FirstRecord)
             == (match DecodeFrom(rawdata, i)
                 case Ok(rest) => Ok(data + rest)
                 case Raised(e) => Raised(e))
      decreases |rawdata| - i
    {
      if i + RecordSize > |rawdata| {
        return Raised(StructError);
      }
      var part := RecordAt(rawdata, i);
      ghost var next := DecodeFrom(rawdata, i + RecordSize);
      if next.Ok? {
        assert data + ([part] + next.value) == (data + [part]) + next.value;
      }
      data := data + [part];
      i := i + RecordSize;
    }
    assert data + [] == data;
    return Ok(Records(Reverse(data)));
  }
}
