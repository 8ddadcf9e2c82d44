/** The hand-written protobuf reader of internal/asr/bpevocab.go: base-128 varints, keys, and the two messages. */
module ProtoReader {
  import opened Options
  import opened Bytes

  const TWO64: nat := 0x1_0000_0000_0000_0000

  function Pow128(i: nat): (p: nat)
    ensures p > 0
  {
    if i == 0 then 1 else 128 * Pow128(i - 1)
  }

  /** The value and what is left. */
  datatype Varint = Varint(value: nat, rest: seq<Byte>)

  /** protoVarint from byte i on, with v so far: at most ten bytes, and what does not fit 64 bits is lost. */
  function VarintFrom(b: seq<Byte>, i: nat, v: nat): (r: Option<Varint>)
    ensures r.Some? ==> |r.value.rest| < |b|
  {
    if b == [] || i >= 10 then None
    else
      var more := v + (b[0] % 128) * Pow128(i) % TWO64;
      if b[0] < 128 then Some(Varint(more, b[1..])) else VarintFrom(b[1..], i + 1, more)
  }

  /** protoVarint */
  method ProtoVarint(b: seq<Byte>) returns (r: Option<Varint>)
    ensures r == VarintFrom(b, 0, 0)
  {
    var v, i, weight := 0, 0, 1;
    assert b[0..] == b;
    while i < |b| && i < 10
      invariant 0 <= i <= |b| && i <= 10 && v >= 0 && weight == Pow128(i)
      invariant VarintFrom(b, 0, 0) == VarintFrom(b[i..], i, v)
    {
      assert b[i..][1..] == b[i + 1..];
      v := v + (b[i] % 128) * weight % TWO64;
      if b[i] < 128 {
        return Some(Varint(v, b[i + 1..]));
      }
      weight := 128 * weight;
      i := i + 1;
    }
    return None;
  }

  /** The base-128 encoding of a number. */
  function Encode(n: nat): (b: seq<Byte>)
    ensures b != []
  {
    if n < 128 then [n] else [n % 128 + 128] + Encode(n / 128)
  }

  lemma {:induction false} TenIsTooMany(i: nat)
    requires i >= 10
    ensures Pow128(i) >= TWO64
  {
    if i == 10 {
      assert Pow128(2) == 16384 && Pow128(4) == 268435456;
      assert Pow128(6) == 4398046511104 && Pow128(8) == 72057594037927936;
    } else {
      TenIsTooMany(i - 1);
    }
  }

  /** A number weighed is its low seven bits weighed and the rest at the next weight. */
  lemma Weighed(m: nat, p: nat)
    requires p > 0
    ensures m >= 1 ==> m * p >= p
    ensures m * p == (m / 128) * (128 * p) + (m % 128) * p
    ensures (m / 128) * (128 * p) >= 0 && (m % 128) * p >= 0
  {
    var q, r := m / 128, m % 128;
    assert m == 128 * q + r;
    assert (128 * q) * p == q * (128 * p);
  }

  /** The value so far, a continued encoding and whatever follows: the whole value, and exactly its bytes consumed. */
  lemma {:induction false} EncodeContinues(m: nat, i: nat, v: nat, rest: seq<Byte>)
    requires m * Pow128(i) < TWO64 && (m > 0 || i == 0)
    ensures VarintFrom(Encode(m) + rest, i, v) == Some(Varint(v + m * Pow128(i), rest))
    decreases m
  {
    var p := Pow128(i);
    Weighed(m, p);
    if i >= 10 { TenIsTooMany(i); }
    if m < 128 {
      LastByte(m, i, v, rest);
    } else {
      assert Pow128(i + 1) == 128 * p;
      OneByte(m, i, v, rest);
      EncodeContinues(m / 128, i + 1, v + (m % 128) * p, rest);
    }
  }

  lemma LastByte(m: nat, i: nat, v: nat, rest: seq<Byte>)
    requires m < 128 && i < 10 && m * Pow128(i) < TWO64
    ensures VarintFrom(Encode(m) + rest, i, v) == Some(Varint(v + m * Pow128(i), rest))
  {
    var b := Encode(m) + rest;
    assert b == [m] + rest && b[1..] == rest;
  }

  lemma OneByte(m: nat, i: nat, v: nat, rest: seq<Byte>)
    requires m >= 128 && i < 10 && (m % 128) * Pow128(i) < TWO64
    ensures VarintFrom(Encode(m) + rest, i, v) == VarintFrom(Encode(m / 128) + rest, i + 1, v + (m % 128) * Pow128(i))
  {
    var b := Encode(m) + rest;
    assert b == [m % 128 + 128] + (Encode(m / 128) + rest) && b[1..] == Encode(m / 128) + rest;
    assert b[0] % 128 == m % 128;
  }

  /** protoVarint inverts base-128 encoding for every 64-bit number and consumes exactly its bytes. */
  lemma VarintInverts(n: nat, rest: seq<Byte>)
    requires n < TWO64
    ensures VarintFrom(Encode(n) + rest, 0, 0) == Some(Varint(n, rest))
  {
    assert n * Pow128(0) == n;
    EncodeContinues(n, 0, 0, rest);
  }

  /** protoKey */
  datatype Key = Key(field: nat, wire: nat, rest: seq<Byte>)

  function KeyOf(b: seq<Byte>): (k: Option<Key>)
    ensures k.Some? ==> |k.value.rest| < |b| && k.value.wire < 8
  {
    var v := VarintFrom(b, 0, 0);
    if v.None? then None else Some(Key(v.value.value / 8, v.value.value % 8, v.value.rest))
  }

  method ProtoKey(b: seq<Byte>) returns (k: Option<Key>)
    ensures k == KeyOf(b)
  {
    var v := ProtoVarint(b);
    if v.None? {
      return None;
    }
    return Some(Key(v.value.value / 8, v.value.value % 8, v.value.rest));
  }

  function EncodeKey(field: nat, wire: nat): seq<Byte> { Encode(field * 8 + wire) }

  lemma KeyReadsBack(field: nat, wire: nat, rest: seq<Byte>)
    requires wire < 8 && field * 8 + wire < TWO64
    ensures KeyOf(EncodeKey(field, wire) + rest) == Some(Key(field, wire, rest))
  {
    VarintInverts(field * 8 + wire, rest);
    KeyParts(field, wire);
  }

  lemma KeyParts(field: nat, wire: nat)
    requires wire < 8
    ensures (field * 8 + wire) / 8 == field && (field * 8 + wire) % 8 == wire
  {}

  // --- one field ------------------------------------------------------------------------

  /** A field as it stands in a message: its number, and what its wire type carries. */
  datatype Field = Number(field: nat, value: nat) | Fixed64(field: nat, bytes: seq<Byte>) | Bytes(field: nat, bytes: seq<Byte>) | Fixed32(field: nat, bytes: seq<Byte>)

  /** What follows a key: the field and the rest; None when it is cut short or the wire type is none of 0, 1, 2, 5. */
  datatype Taken = Taken(f: Field, rest: seq<Byte>)

  function FieldOf(k: Key): (t: Option<Taken>)
    ensures t.Some? ==> |t.value.rest| <= |k.rest|
  {
    if k.wire == 2 then
      var n := VarintFrom(k.rest, 0, 0);
      if n.None? || n.value.value > |n.value.rest| then None
      else Some(Taken(Bytes(k.field, n.value.rest[..n.value.value]), n.value.rest[n.value.value..]))
    else if k.wire == 0 then
      var n := VarintFrom(k.rest, 0, 0);
      if n.None? then None else Some(Taken(Number(k.field, n.value.value), n.value.rest))
    else if k.wire == 5 then
      if |k.rest| < 4 then None else Some(Taken(Fixed32(k.field, k.rest[..4]), k.rest[4..]))
    else if k.wire == 1 then
      if |k.rest| < 8 then None else Some(Taken(Fixed64(k.field, k.rest[..8]), k.rest[8..]))
    else None
  }

  predicate WellFormed(f: Field) {
    && f.field * 8 + 7 < TWO64
    && match f
       case Number(_, v) => v < TWO64
       case Fixed64(_, b) => |b| == 8
       case Bytes(_, b) => |b| < TWO64
       case Fixed32(_, b) => |b| == 4
  }

  function EncodeField(f: Field): (b: seq<Byte>)
    ensures b != []
  {
    match f
    case Number(n, v) => EncodeKey(n, 0) + Encode(v)
    case Fixed64(n, b) => EncodeKey(n, 1) + b
    case Bytes(n, b) => EncodeKey(n, 2) + (Encode(|b|) + b)
    case Fixed32(n, b) => EncodeKey(n, 5) + b
  }

  /** The next field of a message. */
  function Next(data: seq<Byte>): (t: Option<Taken>)
    ensures t.Some? ==> |t.value.rest| < |data|
  {
    var k := KeyOf(data);
    if k.None? then None else FieldOf(k.value)
  }

  /** A field written is the field read, and what follows it is left. */
  lemma FieldReadsBack(f: Field, rest: seq<Byte>)
    requires WellFormed(f)
    ensures Next(EncodeField(f) + rest) == Some(Taken(f, rest))
  {
    match f
    case Number(n, v) =>
      BehindKey(n, 0, Encode(v), rest);
      VarintInverts(v, rest);
    case Fixed64(n, b) =>
      BehindKey(n, 1, b, rest);
      CutBack(b, rest);
    case Bytes(n, b) =>
      BehindKey(n, 2, Encode(|b|) + b, rest);
      assert Encode(|b|) + b + rest == Encode(|b|) + (b + rest);
      VarintInverts(|b|, b + rest);
      CutBack(b, rest);
    case Fixed32(n, b) =>
      BehindKey(n, 5, b, rest);
      CutBack(b, rest);
  }

  lemma BehindKey(n: nat, wire: nat, b: seq<Byte>, rest: seq<Byte>)
    requires wire < 8 && n * 8 + 7 < TWO64
    ensures Next(EncodeKey(n, wire) + b + rest) == FieldOf(Key(n, wire, b + rest))
  {
    assert EncodeKey(n, wire) + b + rest == EncodeKey(n, wire) + (b + rest);
    KeyReadsBack(n, wire, b + rest);
  }

  lemma CutBack(b: seq<Byte>, rest: seq<Byte>)
    ensures (b + rest)[..|b|] == b && (b + rest)[|b|..] == rest
  {}

  function EncodeAll(fields: seq<Field>): seq<Byte> {
    if fields == [] then [] else EncodeField(fields[0]) + EncodeAll(fields[1..])
  }

  /** Seven bits a byte, the lowest first, and the top bit on all but the last. */
  lemma {:induction false} GroupsOfSeven(n: nat)
    ensures n < 128 ==> Encode(n) == [n]
    ensures n >= 128 ==> Encode(n)[0] == 128 + n % 128 && Encode(n)[1..] == Encode(n / 128)
    ensures Encode(300) == [172, 2]
  {
    assert Encode(2) == [2];
  }
}
