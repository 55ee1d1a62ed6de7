/** The 48-byte journal record: little-endian fields, reserved zero bytes and a
    trailing checksum. */
module Codec {
  import opened Types
  import opened Words
  import opened Risk
  import opened Crc32
  import opened EngineLaws

  const RECORD_SIZE: nat := 48
  const CHECKSUM_OFFSET: nat := 44
  const MAGIC: nat := 0x324A_424C
  const VERSION: nat := 1
  const NEW_ORDER_RECORD: byte := 1
  const CANCEL_RECORD: byte := 2

  // ---------------------------------------------------------------------
  // Bytes as numbers

  function BitsValue(bits: seq<bool>): nat {
    if bits == [] then 0 else (if bits[0] then 1 else 0) + 2 * BitsValue(bits[1..])
  }

  function NatBits(x: nat, n: nat): (bits: seq<bool>)
    ensures |bits| == n
  {
    if n == 0 then [] else [x % 2 == 1] + NatBits(x / 2, n - 1)
  }

  lemma {:induction false} NatBitsRoundTrip(x: nat, n: nat)
    requires x < PowerOfTwo(n)
    ensures BitsValue(NatBits(x, n)) == x
  {
    if n > 0 {
      NatBitsRoundTrip(x / 2, n - 1);
      assert NatBits(x, n)[1..] == NatBits(x / 2, n - 1);
    }
  }

  lemma {:induction false} BitsValueFits(bits: seq<bool>)
    ensures BitsValue(bits) < PowerOfTwo(|bits|)
  {
    if bits != [] {
      BitsValueFits(bits[1..]);
    }
  }

  function MaskIf(on: bool, mask: byte): byte { if on then mask else 0 }

  function FromBits(s: seq<bool>): byte
    requires |s| == 8
  {
    MaskIf(s[0], 1) | MaskIf(s[1], 2) | MaskIf(s[2], 4) | MaskIf(s[3], 8)
    | MaskIf(s[4], 16) | MaskIf(s[5], 32) | MaskIf(s[6], 64) | MaskIf(s[7], 128)
  }

  lemma {:induction false} BitsOfFromBits(s: seq<bool>)
    requires |s| == 8
    ensures Bits(FromBits(s)) == s
  {
  }

  function IntOf(b: byte): u8 {
    BitsValueFits(Bits(b));
    assert PowerOfTwo(8) == 256;
    BitsValue(Bits(b))
  }

  /** The low byte of `x`, as a C++ narrowing cast gives it. */
  function ByteOf(x: nat): byte { FromBits(NatBits(x, 8)) }

  lemma {:induction false} ByteRoundTrip(x: u8)
    ensures IntOf(ByteOf(x)) == x
  {
    hide FromBits, Bits;
    BitsOfFromBits(NatBits(x, 8));
    assert PowerOfTwo(8) == 256;
    NatBitsRoundTrip(x, 8);
  }

  // ---------------------------------------------------------------------
  // Little-endian integers

  function LittleEndian(v: nat, n: nat): (b: seq<byte>)
    ensures |b| == n
  {
    if n == 0 then [] else [ByteOf(v % 256)] + LittleEndian(v / 256, n - 1)
  }

  function Value(b: seq<byte>): nat {
    if b == [] then 0 else IntOf(b[0]) + 256 * Value(b[1..])
  }

  function Range(n: nat): nat { if n == 0 then 1 else 256 * Range(n - 1) }

  lemma {:induction false} ValueRoundTrip(v: nat, n: nat)
    requires v < Range(n)
    ensures Value(LittleEndian(v, n)) == v
  {
    hide ByteOf, IntOf;
    if n > 0 {
      ValueRoundTrip(v / 256, n - 1);
      ByteRoundTrip(v % 256);
      assert LittleEndian(v, n)[1..] == LittleEndian(v / 256, n - 1);
    }
  }

  lemma {:induction false} Ranges()
    ensures Range(2) == 0x1_0000 && Range(4) == 0x1_0000_0000 && Range(8) == WORD
  {
    assert Range(1) == 256;
    assert Range(3) == 0x100_0000;
    assert Range(5) == 0x100_0000_0000;
    assert Range(6) == 0x1_0000_0000_0000;
    assert Range(7) == 0x100_0000_0000_0000;
  }

  /** The value of `b` fits in `|b|` bytes. */
  lemma {:induction false} ValueFits(b: seq<byte>)
    ensures Value(b) < Range(|b|)
  {
    hide IntOf;
    if b != [] {
      ValueFits(b[1..]);
    }
  }

  /** Writes a field in place, low byte first. */
  method Put(bytes: array<byte>, offset: nat, n: nat, value: nat)
    requires offset + n <= bytes.Length
    modifies bytes
    ensures bytes[..offset + n] == old(bytes[..offset]) + LittleEndian(value, n)
    ensures bytes[offset + n..] == old(bytes[offset + n..])
  {
    hide ByteOf, LittleEndian;
    var v := value;
    var i := 0;
    ghost var tail := bytes[offset + n..];
    ghost var done := bytes[..offset];
    while i < n
      invariant 0 <= i <= n
      invariant bytes[..offset + i] == done
      invariant old(bytes[..offset]) + LittleEndian(value, n) == done + LittleEndian(v, n - i)
      invariant bytes[offset + n..] == tail
    {
      LowByteFirst(done, v, n - i);
      bytes[offset + i] := ByteOf(v % 256);
      done := done + [ByteOf(v % 256)];
      v := v / 256;
      i := i + 1;
    }
    NothingLeft(done, v);
  }

  lemma {:induction false} LowByteFirst(done: seq<byte>, v: nat, n: nat)
    requires n > 0
    ensures done + LittleEndian(v, n) == done + [ByteOf(v % 256)] + LittleEndian(v / 256, n - 1)
  {
    hide ByteOf;
  }

  lemma {:induction false} NothingLeft(done: seq<byte>, v: nat)
    ensures done + LittleEndian(v, 0) == done
  {
  }

  /** Reads a field back, low byte first. */
  method Get(bytes: seq<byte>, offset: nat, n: nat) returns (value: nat)
    requires offset + n <= |bytes|
    ensures value == Value(bytes[offset..offset + n])
  {
    hide IntOf, Value, Range;
    ghost var field := bytes[offset..offset + n];
    value := 0;
    var scale := 1;
    var i := 0;
    ValueStart(field);
    while i < n
      invariant 0 <= i <= n
      invariant value == Value(field[..i]) && scale == Range(i)
    {
      ValueSnoc(field, i);
      value := value + scale * IntOf(bytes[offset + i]);
      scale := 256 * scale;
      i := i + 1;
    }
    assert field[..n] == field;
  }

  lemma {:induction false} ValueStart(b: seq<byte>)
    ensures Value(b[..0]) == 0 && Range(0) == 1
  {
  }

  lemma {:induction false} ValueSnoc(b: seq<byte>, i: nat)
    requires i < |b|
    ensures Value(b[..i + 1]) == Value(b[..i]) + Range(i) * IntOf(b[i])
    ensures Range(i + 1) == 256 * Range(i)
  {
    hide IntOf, Value;
    ValueCons(b[..i + 1]);
    ValueStart(b);
    if i == 0 {
      assert b[..1][1..] == b[..0];
    } else {
      var t, x, r := b[1..], IntOf(b[i]), Range(i - 1);
      ValueSnoc(t, i - 1);
      ValueCons(b[..i]);
      assert b[..i + 1][1..] == t[..i] && b[..i][1..] == t[..i - 1];
      Regroup256(r, x);
    }
  }

  lemma {:induction false} ValueCons(b: seq<byte>)
    requires b != []
    ensures Value(b) == IntOf(b[0]) + 256 * Value(b[1..])
  {
    hide IntOf;
  }

  lemma {:induction false} Regroup256(r: nat, x: nat)
    ensures 256 * (r * x) == (256 * r) * x
  {
  }

  // ---------------------------------------------------------------------
  // Records

  function Zeros(n: nat): (z: seq<byte>)
    ensures |z| == n
  {
    seq(n, _ => 0 as byte)
  }

  function PriceOf(bits: u64): i64 { if bits >= 0x8000_0000_0000_0000 then bits - WORD else bits }

  function RecordType(c: Command): byte { if c.NewOrder? then NEW_ORDER_RECORD else CANCEL_RECORD }

  function IdOf(c: Command): u64 { if c.NewOrder? then c.order.id else c.id }

  function Prefix(c: Command): (b: seq<byte>)
    ensures |b| == 8
  {
    LittleEndian(MAGIC, 4) + LittleEndian(VERSION, 2) + [RecordType(c)] + Zeros(1)
  }

  function Codes(o: Order): (b: seq<byte>)
    ensures |b| == 4
  {
    [ByteOf(o.side), ByteOf(o.kind), ByteOf(o.tif), ByteOf(o.flags)]
  }

  function Payload(c: Command): (b: seq<byte>)
    ensures |b| == 16
  {
    match c
    case NewOrder(o) => Codes(o) + LittleEndian(PriceBits(o.price), 8) + LittleEndian(o.quantity, 4)
    case Cancel(_) => Zeros(16)
  }

  /** Everything the checksum covers. */
  function Body(ordinal: u64, c: Command): (b: seq<byte>)
    ensures |b| == CHECKSUM_OFFSET
  {
    Prefix(c) + LittleEndian(ordinal, 8) + LittleEndian(IdOf(c), 8) + Payload(c) + Zeros(4)
  }

  function Encode(ordinal: u64, c: Command): (b: seq<byte>)
    ensures |b| == RECORD_SIZE
  {
    var body := Body(ordinal, c);
    body + PutWord(Checksum(body))
  }

  datatype JournalError =
    | NoError | BadMagic | BadVersion | BadType | BadOrdinal | BadChecksum | Truncated

  function ValidateRecord(r: seq<byte>, expected: u64): JournalError
    requires |r| == RECORD_SIZE
  {
    if Value(r[0..4]) != MAGIC then BadMagic
    else if Value(r[4..6]) != VERSION then BadVersion
    else if r[6] != NEW_ORDER_RECORD && r[6] != CANCEL_RECORD then BadType
    else if Value(r[8..16]) != expected then BadOrdinal
    else if GetWord(r[44..48]) != Checksum(r[..44]) then BadChecksum
    else NoError
  }

  lemma {:induction false} FieldFits(b: seq<byte>)
    ensures |b| == 4 ==> Value(b) < 0x1_0000_0000
    ensures |b| == 8 ==> Value(b) < WORD
  {
    ValueFits(b);
    Ranges();
  }

  function DecodeOrder(r: seq<byte>): Order
    requires |r| == RECORD_SIZE
  {
    FieldFits(r[16..24]);
    FieldFits(r[28..36]);
    FieldFits(r[36..40]);
    Order(Value(r[16..24]), IntOf(r[24]), IntOf(r[25]), IntOf(r[26]), IntOf(r[27]),
          PriceOf(Value(r[28..36])), Value(r[36..40]), 0)
  }

  function Decode(r: seq<byte>): Command
    requires |r| == RECORD_SIZE
  {
    FieldFits(r[16..24]);
    if r[6] == NEW_ORDER_RECORD then NewOrder(DecodeOrder(r)) else Cancel(Value(r[16..24]))
  }

  /** The reader's tests, field by field in its order, with the checksum computed
      by the loops. */
  method CheckRecord(r: seq<byte>, expected: u64) returns (error: JournalError)
    requires |r| == RECORD_SIZE
    ensures error == ValidateRecord(r, expected)
  {
    hide Value, Checksum, GetWord;
    var magic := Get(r, 0, 4);
    if magic != MAGIC {
      return BadMagic;
    }
    var version := Get(r, 4, 2);
    if version != VERSION {
      return BadVersion;
    }
    if r[6] != NEW_ORDER_RECORD && r[6] != CANCEL_RECORD {
      return BadType;
    }
    var ordinal := Get(r, 8, 8);
    if ordinal != expected {
      return BadOrdinal;
    }
    var crc := Compute(r[..CHECKSUM_OFFSET]);
    error := if GetWord(r[CHECKSUM_OFFSET..]) != crc then BadChecksum else NoError;
    assert r[44..48] == r[CHECKSUM_OFFSET..];
  }

  method DecodeRecord(r: seq<byte>) returns (c: Command)
    requires |r| == RECORD_SIZE
    ensures c == Decode(r)
  {
    hide Value, IntOf;
    FieldFits(r[16..24]);
    FieldFits(r[28..36]);
    FieldFits(r[36..40]);
    var id := Get(r, 16, 8);
    if r[6] != NEW_ORDER_RECORD {
      return Cancel(id);
    }
    var price := Get(r, 28, 8);
    var quantity := Get(r, 36, 4);
    c := NewOrder(Order(id, IntOf(r[24]), IntOf(r[25]), IntOf(r[26]), IntOf(r[27]), PriceOf(price), quantity, 0));
  }

  // ---------------------------------------------------------------------
  // Decoding undoes encoding

  lemma {:induction false} Middle(a: seq<byte>, b: seq<byte>, c: seq<byte>)
    ensures (a + b + c)[|a|..|a| + |b|] == b
  {
  }

  lemma {:induction false} PrefixFields(c: Command)
    ensures var p := Prefix(c);
            p[0..4] == LittleEndian(MAGIC, 4) && p[4..6] == LittleEndian(VERSION, 2) && p[6] == RecordType(c)
  {
    hide LittleEndian, RecordType;
    var m, v := LittleEndian(MAGIC, 4), LittleEndian(VERSION, 2);
    Middle([], m, v + ([RecordType(c)] + Zeros(1)));
    Middle(m, v, [RecordType(c)] + Zeros(1));
    assert Prefix(c) == [] + m + (v + ([RecordType(c)] + Zeros(1)));
    assert Prefix(c) == m + v + ([RecordType(c)] + Zeros(1));
  }

  /** Where each field lies in an encoded record. */
  lemma {:induction false} RecordFields(ordinal: u64, c: Command)
    ensures var r := Encode(ordinal, c);
            && r[..8] == Prefix(c)
            && r[8..16] == LittleEndian(ordinal, 8)
            && r[16..24] == LittleEndian(IdOf(c), 8)
            && r[24..40] == Payload(c)
            && r[..44] == Body(ordinal, c)
            && r[44..48] == PutWord(Checksum(Body(ordinal, c)))
  {
    hide Prefix, LittleEndian, Payload, PutWord, Checksum;
    var p, o, i, y, z := Prefix(c), LittleEndian(ordinal, 8), LittleEndian(IdOf(c), 8), Payload(c), Zeros(4);
    var w := PutWord(Checksum(Body(ordinal, c)));
    Regroup(p, o, i, y, z, w);
    var r := Encode(ordinal, c);
    assert r == Body(ordinal, c) + w;
    assert r[..8] == p;
    Middle(p, o, i + y + z + w);
    Middle(p + o, i, y + z + w);
    Middle(p + o + i, y, z + w);
  }

  lemma {:induction false} Regroup(p: seq<byte>, o: seq<byte>, i: seq<byte>, y: seq<byte>, z: seq<byte>, w: seq<byte>)
    ensures var r := p + o + i + y + z + w;
            r == p + o + (i + y + z + w) && r == p + o + i + (y + z + w) && r == p + o + i + y + (z + w)
  {
  }

  lemma {:induction false} PayloadFields(o: Order)
    ensures var y := Payload(NewOrder(o));
            && y[..4] == Codes(o)
            && y[4..12] == LittleEndian(PriceBits(o.price), 8)
            && y[12..16] == LittleEndian(o.quantity, 4)
  {
    hide LittleEndian, Codes;
    Middle(Codes(o), LittleEndian(PriceBits(o.price), 8), LittleEndian(o.quantity, 4));
  }

  lemma {:induction false} CodesRoundTrip(o: Order)
    ensures var b := Codes(o);
            IntOf(b[0]) == o.side && IntOf(b[1]) == o.kind && IntOf(b[2]) == o.tif && IntOf(b[3]) == o.flags
  {
    hide ByteOf, IntOf;
    ByteRoundTrip(o.side);
    ByteRoundTrip(o.kind);
    ByteRoundTrip(o.tif);
    ByteRoundTrip(o.flags);
  }

  lemma {:induction false} SubField(r: seq<byte>, a: nat, b: nat, c: nat, d: nat)
    requires a <= c <= d <= b <= |r|
    ensures r[c..d] == r[a..b][c - a..d - a]
  {
    var x, y := r[c..d], r[a..b][c - a..d - a];
    assert |x| == |y|;
    forall i | 0 <= i < |x|
      ensures x[i] == y[i]
    {
      assert x[i] == r[c + i];
    }
  }

  lemma {:induction false} OrderRoundTrip(ordinal: u64, o: Order)
    ensures DecodeOrder(Encode(ordinal, NewOrder(o))) == o.(sequence := 0)
  {
    var r := Encode(ordinal, NewOrder(o));
    var y := Payload(NewOrder(o));
    RecordFields(ordinal, NewOrder(o));
    PayloadFields(o);
    hide Encode, Payload, LittleEndian, Codes, Value, IntOf;
    Ranges();
    ValueRoundTrip(o.id, 8);
    ValueRoundTrip(PriceBits(o.price), 8);
    ValueRoundTrip(o.quantity, 4);
    SubField(r, 24, 40, 28, 36);
    SubField(r, 24, 40, 36, 40);
    SubField(r, 24, 40, 24, 28);
    CodesRoundTrip(o);
    assert r[24] == r[24..28][0] && r[25] == r[24..28][1] && r[26] == r[24..28][2] && r[27] == r[24..28][3];
  }

  lemma {:induction false} HeaderRoundTrip(ordinal: u64, c: Command)
    ensures var r := Encode(ordinal, c);
            && Value(r[0..4]) == MAGIC && Value(r[4..6]) == VERSION && r[6] == RecordType(c)
            && Value(r[8..16]) == ordinal && Value(r[16..24]) == IdOf(c)
  {
    var r := Encode(ordinal, c);
    RecordFields(ordinal, c);
    PrefixFields(c);
    hide Encode, Prefix, LittleEndian, Value;
    SubField(r, 0, 8, 0, 4);
    SubField(r, 0, 8, 4, 6);
    assert r[6] == r[..8][6];
    Ranges();
    ValueRoundTrip(MAGIC, 4);
    ValueRoundTrip(VERSION, 2);
    ValueRoundTrip(ordinal, 8);
    ValueRoundTrip(IdOf(c), 8);
  }

  /** Every command survives the journal, except for the sequence number it
      carried, and its record is accepted at its own ordinal and no other. */
  lemma {:induction false} RecordRoundTrip(ordinal: u64, c: Command)
    ensures Decode(Encode(ordinal, c)) == Unsequenced(c)
    ensures forall expected: u64 :: ValidateRecord(Encode(ordinal, c), expected) == NoError <==> expected == ordinal
  {
    HeaderRoundTrip(ordinal, c);
    RecordFields(ordinal, c);
    if c.NewOrder? {
      OrderRoundTrip(ordinal, c.order);
    }
    hide Encode, DecodeOrder, Value, Checksum, GetWord, PutWord, Body;
    WordRoundTrip(Checksum(Body(ordinal, c)));
  }

  /** A valid record hit by a burst of at most 32 bits, anywhere in its 48 bytes,
      is rejected at every ordinal. */
  lemma {:induction false} BurstRejected(r: seq<byte>, s: seq<byte>, ordinal: u64, expected: u64, k: nat, n: nat)
    requires |r| == |s| == RECORD_SIZE && r != s && n <= 32
    requires ValidateRecord(r, ordinal) == NoError
    requires DifferOnlyWithin(BitString(r), BitString(s), k, n)
    ensures ValidateRecord(s, expected) != NoError
  {
    hide GetWord, Checksum, BitString, Value;
    assert r[44..48] == r[44..] && s[44..48] == s[44..];
    BurstBreaksBlock(r, s, k, n);
  }

  /** In particular, any damage confined to four consecutive bytes. */
  lemma {:induction false} WindowRejected(r: seq<byte>, s: seq<byte>, ordinal: u64, expected: u64, at: nat)
    requires |r| == |s| == RECORD_SIZE && r != s && at + 4 <= RECORD_SIZE
    requires ValidateRecord(r, ordinal) == NoError
    requires r[..at] == s[..at] && r[at + 4..] == s[at + 4..]
    ensures ValidateRecord(s, expected) != NoError
  {
    hide BitString, ValidateRecord;
    WindowBits(r, s, at);
    BurstRejected(r, s, ordinal, expected, 8 * at, 32);
  }

  lemma {:induction false} WindowBits(r: seq<byte>, s: seq<byte>, at: nat)
    requires |r| == |s| && at + 4 <= |r| && r[..at] == s[..at] && r[at + 4..] == s[at + 4..]
    ensures DifferOnlyWithin(BitString(r), BitString(s), 8 * at, 32)
  {
    hide BitString;
    var a, x, y, t := r[..at], r[at..at + 4], s[at..at + 4], r[at + 4..];
    assert r == a + (x + t) && s == a + (y + t);
    BitStringConcat(a, x + t);
    BitStringConcat(a, y + t);
    BitStringConcat(x, t);
    BitStringConcat(y, t);
  }
}
