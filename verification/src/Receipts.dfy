/** The binary receipt records of internal/storage/receipt.go. Varints follow the "Base 128 Varints"
    section of the Protocol Buffers Encoding specification, in the minimal form. */
module Receipts {
  import opened Base
  import opened Bytes

  // ----- Varints -----

  /** binary.AppendUvarint: groups of seven bits, least significant first. */
  function Varint(x: nat): (r: seq<byte>)
    ensures |r| >= 1
  {
    if x < 128 then [x] else [x % 128 + 128] + Varint(x / 128)
  }

  /** binary.Uvarint from byte number `i` on: the value of the bytes and how many there were; None when the
      bytes run out or the value passes 64 bits. */
  function Uvarint(data: seq<byte>, i: nat): Option<(nat, nat)>
    decreases |data|
  {
    if data == [] || i >= 10 then None
    else if data[0] < 128 then (if i == 9 && data[0] > 1 then None else Some((data[0], 1)))
    else
      match Uvarint(data[1..], i + 1)
      case None => None
      case Some((value, size)) => Some((data[0] - 128 + 128 * value, size + 1))
  }

  /** What byte number `i` and those after it can hold. */
  function Capacity(i: nat): nat
    requires i <= 9
    decreases 9 - i
  {
    if i == 9 then 2 else 128 * Capacity(i + 1)
  }

  lemma {:induction false} CapacityIs64Bits()
    ensures Capacity(0) == 0x1_0000_0000_0000_0000
  {
    assert Capacity(8) == 0x100 && Capacity(7) == 0x8000 && Capacity(6) == 0x40_0000;
    assert Capacity(5) == 0x2000_0000 && Capacity(4) == 0x10_0000_0000 && Capacity(3) == 0x800_0000_0000;
    assert Capacity(2) == 0x4_0000_0000_0000 && Capacity(1) == 0x200_0000_0000_0000;
  }

  lemma {:induction false} ReadsWritten(x: nat, rest: seq<byte>, i: nat)
    requires i <= 9 && x < Capacity(i)
    ensures Uvarint(Varint(x) + rest, i) == Some((x, |Varint(x)|))
  {
    if x >= 128 {
      ReadsWritten(x / 128, rest, i + 1);
      assert (Varint(x) + rest)[1..] == Varint(x / 128) + rest;
    }
  }

  lemma {:induction false} ReadFits(data: seq<byte>, i: nat)
    requires i <= 9 && Uvarint(data, i).Some?
    ensures var (value, size) := Uvarint(data, i).value; value < Capacity(i) && 1 <= size <= |data|
  {
    if data[0] < 128 {
      CapacityLarge(i);
    } else {
      assert i < 9;
      ReadFits(data[1..], i + 1);
    }
  }

  lemma {:induction false} CapacityLarge(i: nat)
    requires i <= 9
    ensures Capacity(i) >= if i == 9 then 2 else 128
    decreases 9 - i
  {
    if i < 9 { CapacityLarge(i + 1); }
  }

  /** Bytes that are as few as their value needs are the bytes written for it. */
  lemma {:induction false} MinimalIsWritten(data: seq<byte>, i: nat)
    requires Uvarint(data, i).Some?
    requires |Varint(Uvarint(data, i).value.0)| == Uvarint(data, i).value.1 <= |data|
    ensures data[..Uvarint(data, i).value.1] == Varint(Uvarint(data, i).value.0)
  {
    if data[0] >= 128 {
      var (value, size) := Uvarint(data[1..], i + 1).value;
      assert (data[0] - 128 + 128 * value) / 128 == value && (data[0] - 128 + 128 * value) % 128 == data[0] - 128;
      ReadSizes(data[1..], i + 1);
      MinimalIsWritten(data[1..], i + 1);
      assert data[..size + 1] == [data[0]] + data[1..][..size];
    }
  }

  lemma {:induction false} ReadSizes(data: seq<byte>, i: nat)
    requires Uvarint(data, i).Some?
    ensures 1 <= Uvarint(data, i).value.1 <= |data|
  {
    if data[0] >= 128 { ReadSizes(data[1..], i + 1); }
  }

  /** readReceiptUint: a varint in its minimal form, and the bytes after it. */
  function ReadUint(data: seq<byte>): Option<(uint64, seq<byte>)> {
    match Uvarint(data, 0)
    case None => None
    case Some((value, size)) =>
      ReadFits(data, 0);
      CapacityIs64Bits();
      if |Varint(value)| != size then None else Some((value, data[size..]))
  }

  /** Reading undoes writing, and succeeds on nothing else. */
  lemma {:induction false} ReadUintExact(data: seq<byte>, x: uint64, rest: seq<byte>)
    ensures ReadUint(data) == Some((x, rest)) <==> data == Varint(x) + rest
  {
    CapacityIs64Bits();
    if data == Varint(x) + rest {
      ReadsWritten(x, rest, 0);
      assert data[|Varint(x)|..] == rest;
    }
    if ReadUint(data) == Some((x, rest)) {
      ReadFits(data, 0);
      MinimalIsWritten(data, 0);
      var size := Uvarint(data, 0).value.1;
      assert data == data[..size] + data[size..];
    }
  }

  // ----- Strings -----

  /** A Go string: its length is a 63-bit integer. */
  type Text = s: seq<byte> | |s| <= 0x7FFF_FFFF_FFFF_FFFF

  function WriteText(value: Text): seq<byte> {
    Varint(|value|) + value
  }

  function ReadText(data: seq<byte>): Option<(seq<byte>, seq<byte>)> {
    match ReadUint(data)
    case None => None
    case Some((length, rest)) => if length > |rest| then None else Some((rest[..length], rest[length..]))
  }

  lemma {:induction false} ReadTextExact(data: seq<byte>, value: Text, rest: seq<byte>)
    ensures ReadText(data) == Some((value, rest)) <==> data == WriteText(value) + rest
  {
    if data == WriteText(value) + rest {
      assert data == Varint(|value|) + (value + rest);
      ReadUintExact(data, |value|, value + rest);
    }
    if ReadText(data) == Some((value, rest)) {
      var (length, after) := ReadUint(data).value;
      ReadUintExact(data, length, after);
      assert after == value + rest;
      assert data == Varint(|value|) + value + rest;
    }
  }

  // ----- Records -----

  const RECEIPT_VERSION: uint32 := 2
  const MAX_RECEIPT_EVENTS := 0x10_0000

  datatype Record = Record(
    version: uint32, request: Text, hash: Text, index: uint64, term: uint64, workflow: Text, first: uint64,
        last: uint64)

  predicate ValidRecord(r: Record) {
    && r.version == RECEIPT_VERSION && r.request != [] && r.hash != [] && r.index != 0 && r.term != 0
    && r.workflow != [] && r.first != 0 && r.last >= r.first && r.last - r.first < MAX_RECEIPT_EVENTS
  }

  const RECEIPT_MAGIC: seq<byte> := [0, 67, 72, 82, 82, 1]

  function Body(r: Record): seq<byte> {
    Varint(r.version) + (Varint(r.index) + (Varint(r.term) + (Varint(r.first) + (Varint(r.last) +
    (WriteText(r.request) + (WriteText(r.hash) + WriteText(r.workflow)))))))
  }

  /** encodeReceiptRecord */
  function Encode(r: Record): Option<seq<byte>> {
    if ValidRecord(r) then Some(RECEIPT_MAGIC + Body(r)) else None
  }

  datatype Numbers = Numbers(version: uint64, index: uint64, term: uint64, first: uint64, last: uint64)

  function ReadNumbers(data: seq<byte>): Option<(Numbers, seq<byte>)> {
    var a := ReadUint(data);
    if a.None? then None else
    var b := ReadUint(a.value.1);
    if b.None? then None else
    var c := ReadUint(b.value.1);
    if c.None? then None else
    var d := ReadUint(c.value.1);
    if d.None? then None else
    var e := ReadUint(d.value.1);
    if e.None? then None else
    Some((Numbers(a.value.0, b.value.0, c.value.0, d.value.0, e.value.0), e.value.1))
  }

  function WriteNumbers(n: Numbers, rest: seq<byte>): seq<byte> {
    Varint(n.version) + (Varint(n.index) + (Varint(n.term) + (Varint(n.first) + (Varint(n.last) + rest))))
  }

  lemma {:induction false} ReadNumbersExact(data: seq<byte>, n: Numbers, rest: seq<byte>)
    ensures ReadNumbers(data) == Some((n, rest)) <==> data == WriteNumbers(n, rest)
  {
    hide ReadUint, Varint;
    var d4 := Varint(n.last) + rest;
    var d3 := Varint(n.first) + d4;
    var d2 := Varint(n.term) + d3;
    var d1 := Varint(n.index) + d2;
    ReadUintExact(d4, n.last, rest);
    ReadUintExact(d3, n.first, d4);
    ReadUintExact(d2, n.term, d3);
    ReadUintExact(d1, n.index, d2);
    ReadUintExact(data, n.version, d1);
    if ReadNumbers(data) == Some((n, rest)) {
      var a := ReadUint(data).value.1;
      var b := ReadUint(a).value.1;
      var c := ReadUint(b).value.1;
      var d := ReadUint(c).value.1;
      ReadUintExact(data, n.version, a);
      ReadUintExact(a, n.index, b);
      ReadUintExact(b, n.term, c);
      ReadUintExact(c, n.first, d);
      ReadUintExact(d, n.last, rest);
    }
  }

  function ReadTexts(data: seq<byte>): Option<(seq<byte>, seq<byte>, seq<byte>)> {
    var a := ReadText(data);
    if a.None? then None else
    var b := ReadText(a.value.1);
    if b.None? then None else
    var c := ReadText(b.value.1);
    if c.None? || c.value.1 != [] then None else
    Some((a.value.0, b.value.0, c.value.0))
  }

  lemma {:induction false} ReadTextsExact(data: seq<byte>, request: Text, hash: Text, workflow: Text)
    ensures ReadTexts(data) == Some((request, hash, workflow))
            <==> data == WriteText(request) + (WriteText(hash) + WriteText(workflow))
  {
    hide ReadText, WriteText;
    var d2 := WriteText(workflow);
    assert d2 == d2 + [];
    var d1 := WriteText(hash) + d2;
    ReadTextExact(d2, workflow, []);
    ReadTextExact(d1, hash, d2);
    ReadTextExact(data, request, d1);
    if ReadTexts(data) == Some((request, hash, workflow)) {
      var a := ReadText(data).value.1;
      var b := ReadText(a).value.1;
      ReadTextExact(data, request, a);
      ReadTextExact(a, hash, b);
      ReadTextExact(b, workflow, []);
      assert WriteText(workflow) + [] == WriteText(workflow);
    }
  }

  /** decodeBinaryReceiptRecord, of a Go slice. */
  function DecodeBody(data: Text): Option<Record> {
    match ReadNumbers(data)
    case None => None
    case Some((n, rest)) =>
      match ReadTexts(rest)
      case None => None
      case Some((request, hash, workflow)) =>
        TextsWithin(data);
        if n.version > MAX_UINT32 then None
        else
          var r := Record(n.version, request, hash, n.index, n.term, workflow, n.first, n.last);
          if ValidRecord(r) then Some(r) else None
  }

  /** The texts of a slice are slices of it. */
  lemma {:induction false} TextsWithin(data: seq<byte>)
    requires ReadNumbers(data).Some? && ReadTexts(ReadNumbers(data).value.1).Some?
    ensures var (request, hash, workflow) := ReadTexts(ReadNumbers(data).value.1).value;
            |request| <= |data| && |hash| <= |data| && |workflow| <= |data|
  {
    hide ReadUint;
    forall d | ReadUint(d).Some? ensures |ReadUint(d).value.1| <= |d| {
      ReadUintExact(d, ReadUint(d).value.0, ReadUint(d).value.1);
    }
  }

  /** The binary form of a record: decoding accepts exactly the encodings of valid records, and gives the
      record back. */
  lemma {:induction false} BinaryCodec(data: Text, r: Record)
    ensures DecodeBody(data) == Some(r) <==> ValidRecord(r) && data == Body(r)
  {
    hide ReadNumbers, ReadTexts, WriteText, Varint;
    var n := Numbers(r.version, r.index, r.term, r.first, r.last);
    var tail := WriteText(r.request) + (WriteText(r.hash) + WriteText(r.workflow));
    assert Body(r) == WriteNumbers(n, tail);
    ReadNumbersExact(data, n, tail);
    ReadTextsExact(tail, r.request, r.hash, r.workflow);
    if DecodeBody(data) == Some(r) {
      var rest := ReadNumbers(data).value.1;
      ReadNumbersExact(data, n, rest);
      ReadTextsExact(rest, r.request, r.hash, r.workflow);
    }
  }

  /** encodeReceiptRecord then decodeBinaryReceiptRecord is the identity on valid records. */
  lemma {:induction false} ReceiptRoundTrip(r: Record)
    requires hide DecodeBody;
             |Body(r)| <= MAX_INT64
    ensures Encode(r).Some? <==> ValidRecord(r)
    ensures ValidRecord(r) ==> DecodeBody(Encode(r).value[|RECEIPT_MAGIC|..]) == Some(r)
  {
    if ValidRecord(r) {
      assert Encode(r).value[|RECEIPT_MAGIC|..] == Body(r);
      BinaryCodec(Body(r), r);
    }
  }

  /** encodeReceiptRecord appends field after field. */
  method EncodeRecord(r: Record) returns (data: Option<seq<byte>>)
    ensures data == Encode(r)
  {
    if !ValidRecord(r) { return None; }
    hide Varint, WriteText;
    var buffer := RECEIPT_MAGIC + Varint(r.version);
    buffer := buffer + Varint(r.index);
    buffer := buffer + Varint(r.term);
    buffer := buffer + Varint(r.first);
    buffer := buffer + Varint(r.last);
    ghost var texts := WriteText(r.request) + (WriteText(r.hash) + WriteText(r.workflow));
    NumbersAppended(r, buffer, texts);
    ghost var numbers := buffer;
    buffer := AppendText(buffer, r.request);
    buffer := AppendText(buffer, r.hash);
    buffer := AppendText(buffer, r.workflow);
    assert buffer == numbers + texts;
    return Some(buffer);
  }

  lemma {:induction false} NumbersAppended(r: Record, numbers: seq<byte>, texts: seq<byte>)
    requires numbers == RECEIPT_MAGIC + Varint(r.version) + Varint(r.index) + Varint(r.term) + Varint(r.first)
             + Varint(r.last)
    requires texts == WriteText(r.request) + (WriteText(r.hash) + WriteText(r.workflow))
    ensures numbers + texts == RECEIPT_MAGIC + Body(r)
  {
    hide Varint, WriteText;
    var e := Varint(r.last) + texts;
    var d := Varint(r.first) + e;
    var c := Varint(r.term) + d;
    var b := Varint(r.index) + c;
    assert Body(r) == Varint(r.version) + b;
    hide Body;
    var n1 := RECEIPT_MAGIC + Varint(r.version);
    var n2 := n1 + Varint(r.index);
    var n3 := n2 + Varint(r.term);
    assert n1 + b == RECEIPT_MAGIC + Body(r);
    assert n2 + c == n1 + b;
    assert n3 + d == n2 + c;
    assert n3 + Varint(r.first) + e == n3 + d;
  }

  method AppendText(data: seq<byte>, value: Text) returns (data': seq<byte>)
    ensures data' == data + WriteText(value)
  {
    data' := data + Varint(|value|);
    data' := data' + value;
  }

  /** The varints of a record, read one after another. */
  function ReadUints(data: seq<byte>, count: nat): Option<(seq<uint64>, seq<byte>)> {
    if count == 0 then Some(([], data))
    else
      match ReadUints(data, count - 1)
      case None => None
      case Some((values, rest)) =>
        match ReadUint(rest)
        case None => None
        case Some((value, rest')) => Some((values + [value], rest'))
  }

  lemma {:induction false} ReadUintsFails(data: seq<byte>, m: nat, n: nat)
    requires m <= n && ReadUints(data, m).None?
    ensures ReadUints(data, n).None?
  {
    if m < n { ReadUintsFails(data, m, n - 1); }
  }

  lemma {:induction false} FiveUints(data: seq<byte>)
    ensures ReadNumbers(data) ==
            match ReadUints(data, 5)
            case None => None
            case Some((values, rest)) =>
              if |values| != 5 then None
                  else Some((Numbers(values[0], values[1], values[2], values[3], values[4]), rest))
  {
    hide ReadUint;
    var one, two, three, four := ReadUints(data, 1), ReadUints(data, 2), ReadUints(data, 3), ReadUints(data, 4);
    assert ReadUints(data, 0) == Some(([], data));
    assert one.Some? ==> |one.value.0| == 1;
    assert two.Some? ==> |two.value.0| == 2;
    assert three.Some? ==> |three.value.0| == 3;
    assert four.Some? ==> |four.value.0| == 4;
  }

  /** decodeBinaryReceiptRecord reads five varints in a loop, then three strings, and then nothing. */
  method DecodeRecord(data: Text) returns (r: Option<Record>)
    ensures r == DecodeBody(data)
  {
    hide ReadUint, ReadText;
    var values: seq<uint64>, rest: seq<byte> := [], data;
    FiveUints(data);
    for index := 0 to 5
      invariant |values| == index && ReadUints(data, index) == Some((values, rest))
    {
      var read := ReadUint(rest);
      if read.None? {
        ReadUintsFails(data, index + 1, 5);
        return None;
      }
      values, rest := values + [read.value.0], read.value.1;
    }
    var request := ReadText(rest);
    if request.None? { return None; }
    var hash := ReadText(request.value.1);
    if hash.None? { return None; }
    var workflow := ReadText(hash.value.1);
    if workflow.None? || |workflow.value.1| != 0 || values[0] > MAX_UINT32 { return None; }
    TextsWithin(data);
    var record := Record(values[0], request.value.0, hash.value.0, values[1], values[2], workflow.value.0, values[3],
        values[4]);
    return if ValidRecord(record) then Some(record) else None;
  }
}
