/** Byte strings in the order Pebble keeps them. */
module Bytes {
  import opened Base

  type byte = x: int | 0 <= x < 256

  /** bytes.Compare(a, b) < 0 */
  predicate Less(a: seq<byte>, b: seq<byte>) {
    if |b| == 0 then false
    else if |a| == 0 then true
    else if a[0] != b[0] then a[0] < b[0]
    else Less(a[1..], b[1..])
  }

  lemma {:induction false} LessPrefixed(p: seq<byte>, a: seq<byte>, b: seq<byte>)
    ensures Less(p + a, p + b) <==> Less(a, b)
  {
    if p == [] {
      assert p + a == a && p + b == b;
    } else {
      assert (p + a)[1..] == p[1..] + a && (p + b)[1..] == p[1..] + b;
      LessPrefixed(p[1..], a, b);
    }
  }

  // ----- Big-endian integers -----

  function Power256(width: nat): (r: nat)
    ensures r > 0
  {
    if width == 0 then 1 else 256 * Power256(width - 1)
  }

  /** The low `width` bytes of `n`, most significant first. */
  function BigEndian(n: nat, width: nat): (r: seq<byte>)
    ensures |r| == width
  {
    if width == 0 then [] else BigEndian(n / 256, width - 1) + [n % 256]
  }

  function Value(s: seq<byte>): nat {
    if s == [] then 0 else Value(s[..|s| - 1]) * 256 + s[|s| - 1]
  }

  lemma {:induction false} ValueOfBigEndian(n: nat, width: nat)
    requires n < Power256(width)
    ensures Value(BigEndian(n, width)) == n
  {
    if width > 0 {
      ValueOfBigEndian(n / 256, width - 1);
      assert BigEndian(n, width)[..width - 1] == BigEndian(n / 256, width - 1);
    }
  }

  lemma {:induction false} BigEndianOfValue(s: seq<byte>)
    ensures Value(s) < Power256(|s|) && BigEndian(Value(s), |s|) == s
  {
    if s != [] {
      BigEndianOfValue(s[..|s| - 1]);
      assert s == s[..|s| - 1] + [s[|s| - 1]];
    }
  }

  /** Big-endian integers of one width sort as numbers. */
  lemma {:induction false} BigEndianOrder(a: nat, b: nat, width: nat)
    requires a < Power256(width) && b < Power256(width)
    ensures Less(BigEndian(a, width), BigEndian(b, width)) <==> a < b
  {
    if width > 0 {
      BigEndianOrder(a / 256, b / 256, width - 1);
      LessLast(BigEndian(a / 256, width - 1), BigEndian(b / 256, width - 1), a % 256, b % 256);
      if BigEndian(a / 256, width - 1) == BigEndian(b / 256, width - 1) {
        ValueOfBigEndian(a / 256, width - 1);
        ValueOfBigEndian(b / 256, width - 1);
      }
    }
  }

  /** With equal lengths, a last byte matters only when all before it agree. */
  lemma {:induction false} LessLast(a: seq<byte>, b: seq<byte>, x: byte, y: byte)
    requires |a| == |b|
    ensures Less(a + [x], b + [y]) <==> if a == b then x < y else Less(a, b)
  {
    if a == [] {
      assert a + [x] == [x] && b + [y] == [y];
    } else {
      assert (a + [x])[1..] == a[1..] + [x] && (b + [y])[1..] == b[1..] + [y];
      LessLast(a[1..], b[1..], x, y);
      assert a == [a[0]] + a[1..] && b == [b[0]] + b[1..];
    }
  }

  // ----- Prefix ranges -----

  predicate IsPrefix(p: seq<byte>, key: seq<byte>) {
    p <= key
  }

  /** The least string above every string that starts with `p`, when there is one. */
  function PrefixUpper(p: seq<byte>): Option<seq<byte>> {
    if p == [] then None
    else if p[|p| - 1] != 0xFF then Some(p[..|p| - 1] + [p[|p| - 1] + 1])
    else PrefixUpper(p[..|p| - 1])
  }

  /** The scan [p, prefixUpper(p)) meets exactly the keys that start with `p`; a missing bound leaves the
      scan open above. */
  lemma {:induction false} PrefixRange(p: seq<byte>, key: seq<byte>)
    ensures !Less(key, p) && (PrefixUpper(p).Some? ==> Less(key, PrefixUpper(p).value)) <==> IsPrefix(p, key)
  {
    if p != [] {
      UpperHead(p);
      if key != [] {
        PrefixRange(p[1..], key[1..]);
        assert p == [p[0]] + p[1..] && key == [key[0]] + key[1..];
      }
    }
  }

  /** The bound keeps the first byte and bounds the rest, or raises the first byte. */
  lemma {:induction false} UpperHead(p: seq<byte>)
    requires p != []
    ensures PrefixUpper(p) ==
            match PrefixUpper(p[1..])
            case Some(u) => Some([p[0]] + u)
            case None => if p[0] == 0xFF then None else Some([p[0] + 1])
  {
    if |p| > 1 {
      var front := p[..|p| - 1];
      UpperHead(front);
      assert p[1..][..|p| - 2] == front[1..];
      if p[|p| - 1] != 0xFF {
        assert p[..|p| - 1] + [p[|p| - 1] + 1] == [p[0]] + (p[1..][..|p| - 2] + [p[|p| - 1] + 1]);
      }
    } else {
      assert p[..0] == [] && p[1..] == [];
      assert p[0] != 0xFF ==> [] + [p[0] + 1] == [p[0] + 1];
    }
  }

  /** prefixUpper: copies the prefix and raises its last byte that is not full. */
  method ComputePrefixUpper(prefix: seq<byte>) returns (upper: Option<seq<byte>>)
    ensures upper == PrefixUpper(prefix)
  {
    var copy := new byte[|prefix|](i requires 0 <= i < |prefix| => prefix[i]);
    var index := |prefix| - 1;
    assert prefix[..index + 1] == prefix;
    while index >= 0
      invariant -1 <= index < |prefix| && copy[..] == prefix
      invariant PrefixUpper(prefix[..index + 1]) == PrefixUpper(prefix)
    {
      var front := prefix[..index + 1];
      assert front[..index] == prefix[..index] && copy[index] == front[index];
      if copy[index] != 0xFF {
        copy[index] := copy[index] + 1;
        assert copy[..index + 1] == front[..index] + [front[index] + 1];
        return Some(copy[..index + 1]);
      }
      index := index - 1;
    }
    return None;
  }
}

/** The keys of internal/storage/codec.go, internal/storage/segments.go and internal/storage/retention.go. */
module Keys {
  import opened Base
  import opened Bytes

  function NumberKey(prefix: byte, value: uint64): seq<byte> {
    [prefix] + BigEndian(value, 8)
  }

  lemma {:induction false} Power256Widths()
    ensures Power256(8) == 0x1_0000_0000_0000_0000 && Power256(4) == 0x1_0000_0000
  {
    assert Power256(1) == 256;
    assert Power256(2) == 0x1_0000;
    assert Power256(3) == 0x100_0000;
    assert Power256(4) == 0x1_0000_0000;
    assert Power256(5) == 0x100_0000_0000;
    assert Power256(6) == 0x1_0000_0000_0000;
    assert Power256(7) == 0x100_0000_0000_0000;
    assert Power256(8) == 0x1_0000_0000_0000_0000;
  }

  /** Bytewise scans of number keys run in numeric order, and a key gives its number back. */
  lemma {:induction false} NumberKeyOrder(prefix: byte, a: uint64, b: uint64)
    ensures Less(NumberKey(prefix, a), NumberKey(prefix, b)) <==> a < b
    ensures |NumberKey(prefix, a)| == 9 && Value(NumberKey(prefix, a)[1..]) == a
  {
    Power256Widths();
    LessPrefixed([prefix], BigEndian(a, 8), BigEndian(b, 8));
    BigEndianOrder(a, b, 8);
    ValueOfBigEndian(a, 8);
    assert NumberKey(prefix, a)[1..] == BigEndian(a, 8);
  }

  // ----- Segmented keys -----

  /** A length and the bytes it counts; the length is cut to 32 bits. */
  function Segment(value: seq<byte>): seq<byte> {
    BigEndian(|value|, 4) + value
  }

  function Segments(values: seq<seq<byte>>): seq<byte> {
    if values == [] then [] else Segment(values[0]) + Segments(values[1..])
  }

  function SegmentedKey(prefix: byte, values: seq<seq<byte>>): seq<byte> {
    [prefix] + Segments(values)
  }

  predicate Short(value: seq<byte>) {
    |value| < 0x1_0000_0000
  }

  /** The values that the cursor of segmentedValues reads from `rest`, which must hold `count` of them. */
  function Parse(rest: seq<byte>, count: nat): Option<seq<seq<byte>>> {
    if count == 0 then (if rest == [] then Some([]) else None)
    else if |rest| < 4 then None
    else
      var length := Value(rest[..4]);
      if length == 0 || 4 + length > |rest| then None
      else
        Prefixed([rest[4..4 + length]], Parse(rest[4 + length..], count - 1))
  }

  function SegmentedValues(key: seq<byte>, prefix: byte, count: nat): Option<seq<seq<byte>>> {
    if |key| < 6 || key[0] != prefix then None else Parse(key[1..], count)
  }

  lemma {:induction false} SegmentLength(value: seq<byte>)
    requires Short(value)
    ensures Value(Segment(value)[..4]) == |value| && Segment(value)[4..] == value && |Segment(value)| == 4 + |value|
  {
    Power256Widths();
    ValueOfBigEndian(|value|, 4);
    assert Segment(value)[..4] == BigEndian(|value|, 4);
  }

  lemma {:induction false} ParseSegments(values: seq<seq<byte>>)
    requires forall v | v in values :: Short(v) && v != []
    ensures Parse(Segments(values), |values|) == Some(values)
  {
    if values != [] {
      var v, rest := values[0], Segments(values[1..]);
      SegmentLength(v);
      ParseSegments(values[1..]);
      assert Segments(values)[..4] == Segment(v)[..4];
      assert Segments(values)[4..4 + |v|] == v && Segments(values)[4 + |v|..] == rest;
      assert values == [v] + values[1..];
    }
  }

  lemma {:induction false} SegmentsParsed(rest: seq<byte>, count: nat)
    requires Parse(rest, count).Some?
    ensures var values := Parse(rest, count).value;
            |values| == count && forall v | v in values :: Short(v) && v != []
    ensures Segments(Parse(rest, count).value) == rest
  {
    if count > 0 {
      var length := Value(rest[..4]);
      var after := rest[4 + length..];
      SegmentsParsed(after, count - 1);
      Power256Widths();
      BigEndianOfValue(rest[..4]);
      assert rest == rest[..4] + rest[4..4 + length] + after;
      var values := Parse(rest, count).value;
      assert values[1..] == Parse(after, count - 1).value;
    }
  }

  /** A segmented key parses back exactly when it holds a value and all its values are short and not empty. */
  lemma {:induction false} SegmentedRoundTrip(prefix: byte, values: seq<seq<byte>>)
    ensures SegmentedValues(SegmentedKey(prefix, values), prefix, |values|) == Some(values)
            <==> values != [] && forall v | v in values :: Short(v) && v != []
  {
    var key := SegmentedKey(prefix, values);
    assert key[1..] == Segments(values);
    if values != [] && forall v | v in values :: Short(v) && v != [] {
      ParseSegments(values);
      SegmentLength(values[0]);
      assert |Segments(values)| >= |Segment(values[0])| >= 5;
    }
    if SegmentedValues(key, prefix, |values|) == Some(values) {
      SegmentsParsed(Segments(values), |values|);
    }
  }

  /** Only segmented keys parse, and a parsed key is the key of the values it gave. */
  lemma {:induction false} SegmentedParsed(key: seq<byte>, prefix: byte, count: nat)
    requires SegmentedValues(key, prefix, count).Some?
    ensures var values := SegmentedValues(key, prefix, count).value;
            |values| == count && (forall v | v in values :: Short(v) && v != []) && SegmentedKey(prefix, values) == key
  {
    SegmentsParsed(key[1..], count);
    assert key == [prefix] + key[1..];
  }

  /** Keys of short values are equal only when they are built alike, however many values they hold. */
  lemma {:induction false} SegmentedInjective(p: byte, a: seq<seq<byte>>, q: byte, b: seq<seq<byte>>)
    requires forall v | v in a + b :: Short(v)
    requires SegmentedKey(p, a) == SegmentedKey(q, b)
    ensures p == q && a == b
  {
    assert SegmentedKey(p, a)[1..] == Segments(a) && SegmentedKey(q, b)[1..] == Segments(b);
    assert p == SegmentedKey(p, a)[0] && q == SegmentedKey(q, b)[0];
    SegmentsInjective(a, b);
  }

  lemma {:induction false} SegmentsInjective(a: seq<seq<byte>>, b: seq<seq<byte>>)
    requires forall v | v in a + b :: Short(v)
    requires Segments(a) == Segments(b)
    ensures a == b
  {
    if a != [] && b != [] {
      assert a[0] in a + b && b[0] in a + b;
      SegmentLength(a[0]);
      SegmentLength(b[0]);
      var x, y := Segments(a[1..]), Segments(b[1..]);
      assert Segments(a)[..4] == Segment(a[0])[..4] && Segments(b)[..4] == Segment(b[0])[..4];
      assert Segments(a)[..4 + |a[0]|] == Segment(a[0]) && Segments(b)[..4 + |b[0]|] == Segment(b[0]);
      assert Segments(a)[4 + |a[0]|..] == x && Segments(b)[4 + |b[0]|..] == y;
      assert forall v | v in a[1..] + b[1..] :: v in a + b;
      SegmentsInjective(a[1..], b[1..]);
      assert a == [a[0]] + a[1..] && b == [b[0]] + b[1..];
    }
  }

  function Zeros(n: nat): (r: seq<byte>)
    ensures |r| == n && forall i | 0 <= i < n :: r[i] == 0
  {
    seq(n, i => 0)
  }

  function Empties(n: nat): (r: seq<seq<byte>>)
    ensures |r| == n && forall i | 0 <= i < n :: r[i] == []
  {
    seq(n, i => [])
  }

  lemma {:induction false} EmptySegments(n: nat)
    ensures Segments(Empties(n)) == Zeros(4 * n)
  {
    if n > 0 {
      EmptySegments(n - 1);
      assert Empties(n)[1..] == Empties(n - 1);
      assert BigEndian(0, 1) == [0] && BigEndian(0, 2) == [0, 0] && BigEndian(0, 3) == [0, 0, 0];
      assert Segment([]) == [0, 0, 0, 0];
      assert Zeros(4 * n) == [0, 0, 0, 0] + Zeros(4 * (n - 1));
    }
  }

  lemma {:induction false} ZeroLength()
    ensures BigEndian(0x1_0000_0000, 4) == [0, 0, 0, 0]
  {
    assert 0x1_0000_0000 / 256 == 0x100_0000 && 0x100_0000 / 256 == 0x1_0000;
    assert BigEndian(0x100, 1) == [0] && BigEndian(0x1_0000, 2) == [0, 0] && BigEndian(0x100_0000, 3) == [0, 0, 0];
  }

  /** The bound on the length is needed: a value of 2^32 zero bytes has the key of 2^30 + 1 empty values. */
  lemma {:induction false} LongValuesCollide(prefix: byte)
    ensures SegmentedKey(prefix, [Zeros(0x1_0000_0000)]) == SegmentedKey(prefix, Empties(0x4000_0001))
    ensures [Zeros(0x1_0000_0000)] != Empties(0x4000_0001)
  {
    EmptySegments(0x4000_0001);
    ZeroLength();
    var long: seq<byte> := Zeros(0x1_0000_0000);
    hide Zeros, BigEndian;
    assert Segments([long]) == Segment(long) + Segments([]) == Segment(long);
    assert Segment(long) == [0, 0, 0, 0] + long;
    assert [0, 0, 0, 0] + long == Zeros(4 * 0x4000_0001);
    assert |[long]| != |Empties(0x4000_0001)|;
  }

  /** segmentedKey appends each value after its length. */
  method ComputeSegmentedKey(prefix: byte, values: seq<seq<byte>>) returns (key: seq<byte>)
    ensures key == SegmentedKey(prefix, values)
  {
    key := [prefix];
    for i := 0 to |values|
      invariant key + Segments(values[i..]) == SegmentedKey(prefix, values)
    {
      assert values[i..][1..] == values[i + 1..];
      key := key + BigEndian(|values[i]|, 4);
      key := key + values[i];
    }
    assert values[|values|..] == [];
  }

  function Prefixed(found: seq<seq<byte>>, parsed: Option<seq<seq<byte>>>): Option<seq<seq<byte>>> {
    if parsed.None? then None else Some(found + parsed.value)
  }

  lemma {:induction false} PrefixedTwice(found: seq<seq<byte>>, value: seq<byte>, parsed: Option<seq<seq<byte>>>)
    ensures Prefixed(found, Prefixed([value], parsed)) == Prefixed(found + [value], parsed)
  {
    if parsed.Some? { assert found + ([value] + parsed.value) == found + [value] + parsed.value; }
  }

  /** segmentedValues moves a cursor over the key. */
  method ComputeSegmentedValues(key: seq<byte>, prefix: byte, count: nat) returns (values: Option<seq<seq<byte>>>)
    ensures values == SegmentedValues(key, prefix, count)
  {
    if |key| < 6 || key[0] != prefix { return None; }
    var found: seq<seq<byte>> := [];
    var position := 1;
    assert Parse(key[1..], count) == Prefixed([], Parse(key[1..], count)) by {
      if Parse(key[1..], count).Some? { assert [] + Parse(key[1..], count).value == Parse(key[1..], count).value; }
    }
    while |found| < count
      invariant 1 <= position <= |key| && |found| <= count
      invariant Parse(key[1..], count) == Prefixed(found, Parse(key[position..], count - |found|))
    {
      if position + 4 > |key| { return None; }
      var length := Value(key[position..position + 4]);
      ghost var rest := key[position..];
      assert rest[..4] == key[position..position + 4];
      position := position + 4;
      if length == 0 || position + length > |key| { return None; }
      assert rest[4..4 + length] == key[position..position + length];
      assert rest[4 + length..] == key[position + length..];
      PrefixedTwice(found, key[position..position + length], Parse(rest[4 + length..], count - |found| - 1));
      found := found + [key[position..position + length]];
      position := position + length;
    }
    if position != |key| { return None; }
    assert key[position..] == [] && found + [] == found;
    return Some(found);
  }

  // ----- Keys of materialized segments -----

  function MaterializedSegmentKey(prefix: byte, workflow: seq<byte>, index: uint64): seq<byte> {
    [prefix] + Segment(workflow) + BigEndian(index, 8)
  }

  /** The segments of one workflow are the keys in the prefix range of its segmented key, and they are
      met there in the order in which they were applied. */
  lemma {:induction false} SegmentScan(prefix: byte, workflow: seq<byte>, other: seq<byte>, a: uint64, b: uint64)
    requires Short(workflow) && Short(other)
    ensures IsPrefix(SegmentedKey(prefix, [workflow]), MaterializedSegmentKey(prefix, other, a)) <==> other == workflow
    ensures Less(MaterializedSegmentKey(prefix, workflow, a), MaterializedSegmentKey(prefix, workflow, b)) <==> a < b
  {
    Power256Widths();
    var p, key := SegmentedKey(prefix, [workflow]), MaterializedSegmentKey(prefix, other, a);
    assert Segments([workflow]) == Segment(workflow) + Segments([]) == Segment(workflow);
    SegmentLength(workflow);
    SegmentLength(other);
    if IsPrefix(p, key) {
      assert p[1..5] == Segment(workflow)[..4] && key[1..5] == Segment(other)[..4];
      assert p[1..5] == key[1..5];
      assert p[5..] == workflow && key[5..5 + |other|] == other;
      assert p[5..] == key[5..5 + |workflow|];
    }
    LessPrefixed([prefix] + Segment(workflow), BigEndian(a, 8), BigEndian(b, 8));
    BigEndianOrder(a, b, 8);
  }
}
