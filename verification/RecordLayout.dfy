/** The 48 bytes of a journal record, byte by byte, and exactly which 48 bytes a reader
    takes for a record. */
module RecordLayout {
  import opened Types
  import opened Risk
  import opened Crc32
  import opened Codec

  // ---------------------------------------------------------------------
  // Bytes and numbers

  function UnitAt(s: seq<bool>, i: nat): nat
    requires i < |s|
  {
    if s[i] then 1 else 0
  }

  lemma {:induction false} ValueStep(s: seq<bool>, i: nat)
    requires i < |s|
    ensures BitsValue(s[i..]) == UnitAt(s, i) + 2 * BitsValue(s[i + 1..])
  {
    assert s[i..][1..] == s[i + 1..];
  }

  lemma {:induction false} FourBits(s: seq<bool>, i: nat)
    requires i + 4 <= |s|
    ensures BitsValue(s[i..]) == UnitAt(s, i) + 2 * UnitAt(s, i + 1) + 4 * UnitAt(s, i + 2) + 8 * UnitAt(s, i + 3)
                                 + 16 * BitsValue(s[i + 4..])
  {
    hide BitsValue, UnitAt;
    ValueStep(s, i);
    ValueStep(s, i + 1);
    ValueStep(s, i + 2);
    ValueStep(s, i + 3);
  }

  lemma {:induction false} NoBitsValue()
    ensures BitsValue([]) == 0
  {
  }

  /** One if all bits of the mask are on in `b`. */
  function Unit(b: byte, mask: byte): nat { if b & mask == mask then 1 else 0 }

  lemma {:induction false} UnitsOf(b: byte)
    ensures |Bits(b)| == 8
    ensures UnitAt(Bits(b), 0) == Unit(b, 1) && UnitAt(Bits(b), 1) == Unit(b, 2)
    ensures UnitAt(Bits(b), 2) == Unit(b, 4) && UnitAt(Bits(b), 3) == Unit(b, 8)
    ensures UnitAt(Bits(b), 4) == Unit(b, 16) && UnitAt(Bits(b), 5) == Unit(b, 32)
    ensures UnitAt(Bits(b), 6) == Unit(b, 64) && UnitAt(Bits(b), 7) == Unit(b, 128)
  {
  }

  /** The number that a byte stands for. */
  lemma {:induction false} ByteIsBinary(b: byte)
    ensures IntOf(b) == Unit(b, 1) + 2 * Unit(b, 2) + 4 * Unit(b, 4) + 8 * Unit(b, 8)
                        + 16 * Unit(b, 16) + 32 * Unit(b, 32) + 64 * Unit(b, 64) + 128 * Unit(b, 128)
  {
    hide BitsValue, Unit, UnitAt, Bits;
    UnitsOf(b);
    var s := Bits(b);
    assert s[0..] == s && s[8..] == [];
    FourBits(s, 0);
    FourBits(s, 4);
    NoBitsValue();
  }

  lemma {:induction false} ByteInjective(a: byte, b: byte)
    requires IntOf(a) == IntOf(b)
    ensures a == b
  {
    hide Bits, BitsValue;
    EightLong(a);
    EightLong(b);
    BitsValueInjective(Bits(a), Bits(b));
    BitsInjective(a, b);
  }

  lemma {:induction false} BitsValueInjective(a: seq<bool>, b: seq<bool>)
    requires |a| == |b| && BitsValue(a) == BitsValue(b)
    ensures a == b
  {
    if a != [] {
      BitsValueInjective(a[1..], b[1..]);
      assert a == [a[0]] + a[1..] && b == [b[0]] + b[1..];
    }
  }

  /** Digit `i` of a number to the base 256: what is left after `i` shifts by eight
      bits, cut to a byte. */
  function Digit(v: nat, i: nat): nat { if i == 0 then v % 256 else Digit(v / 256, i - 1) }

  /** The bytes are the digits of `v`, the lowest first. */
  ghost predicate Digits(b: seq<byte>, v: nat) {
    forall i :: 0 <= i < |b| ==> IntOf(b[i]) == Digit(v, i)
  }

  lemma {:induction false} DigitsTail(b: seq<byte>, v: nat)
    requires b != []
    ensures Digits(b, v) <==> IntOf(b[0]) == v % 256 && Digits(b[1..], v / 256)
  {
    hide IntOf;
    if Digits(b, v) {
      assert IntOf(b[0]) == Digit(v, 0);
      forall i | 0 <= i < |b| - 1
        ensures IntOf(b[1..][i]) == Digit(v / 256, i)
      {
        assert b[1..][i] == b[i + 1] && Digit(v, i + 1) == Digit(v / 256, i);
      }
    }
    if IntOf(b[0]) == v % 256 && Digits(b[1..], v / 256) {
      forall i | 0 <= i < |b|
        ensures IntOf(b[i]) == Digit(v, i)
      {
        if i > 0 {
          assert b[i] == b[1..][i - 1];
        }
      }
    }
  }

  /** Assembling a field gives `v` exactly when its bytes are the digits of `v`. */
  lemma {:induction false} ValueIffDigits(b: seq<byte>, v: nat)
    requires v < Range(|b|)
    ensures Value(b) == v <==> Digits(b, v)
  {
    hide IntOf, Digits;
    if b == [] {
      NoDigits(v);
    } else {
      DigitsTail(b, v);
      ValueCons(b);
      ValueIffDigits(b[1..], v / 256);
    }
  }

  lemma {:induction false} NoDigits(v: nat)
    ensures Digits([], v)
  {
  }

  lemma {:induction false} FieldDigits(v: nat, n: nat)
    requires v < Range(n)
    ensures Digits(LittleEndian(v, n), v)
  {
    hide LittleEndian, Digits, Value;
    ValueRoundTrip(v, n);
    ValueIffDigits(LittleEndian(v, n), v);
  }

  // ---------------------------------------------------------------------
  // What is written

  /** The letters L, B, J and 2. */
  const LETTERS: seq<byte> := [0x4C, 0x42, 0x4A, 0x32]

  lemma {:induction false} SmallBytes()
    ensures IntOf(0) == 0 && IntOf(1) == 1 && IntOf(2) == 2
  {
    hide IntOf;
    ByteIsBinary(0);
    ByteIsBinary(1);
    ByteIsBinary(2);
  }

  lemma {:induction false} LetterBytes()
    ensures IntOf(0x4C) == 0x4C && IntOf(0x42) == 0x42 && IntOf(0x4A) == 0x4A && IntOf(0x32) == 0x32
  {
    hide IntOf;
    ByteIsBinary(0x4C);
    ByteIsBinary(0x42);
    ByteIsBinary(0x4A);
    ByteIsBinary(0x32);
  }

  lemma {:induction false} ValueInjective(a: seq<byte>, b: seq<byte>)
    requires |a| == |b| && Value(a) == Value(b)
    ensures a == b
  {
    hide IntOf;
    if a != [] {
      ValueCons(a);
      ValueCons(b);
      ValueInjective(a[1..], b[1..]);
      ByteInjective(a[0], b[0]);
      assert a == [a[0]] + a[1..] && b == [b[0]] + b[1..];
    }
  }

  lemma {:induction false} NoValue()
    ensures Value([]) == 0
  {
  }

  lemma {:induction false} MagicIsLetters(b: seq<byte>)
    requires |b| == 4
    ensures Value(b) == MAGIC <==> b == LETTERS
  {
    hide IntOf, Value;
    LetterBytes();
    NoValue();
    ValueCons(LETTERS);
    ValueCons(LETTERS[1..]);
    ValueCons(LETTERS[2..]);
    ValueCons(LETTERS[3..]);
    assert LETTERS[1..][1..] == LETTERS[2..] && LETTERS[2..][1..] == LETTERS[3..] && LETTERS[3..][1..] == [];
    assert Value(LETTERS) == MAGIC;
    if Value(b) == MAGIC {
      ValueInjective(b, LETTERS);
    }
  }

  lemma {:induction false} VersionIsOne(b: seq<byte>)
    requires |b| == 2
    ensures Value(b) == VERSION <==> b == [1, 0]
  {
    hide IntOf, Value;
    SmallBytes();
    NoValue();
    var one: seq<byte> := [1, 0];
    ValueCons(one);
    ValueCons(one[1..]);
    assert one[1..][1..] == [];
    assert Value(one) == VERSION;
    if Value(b) == VERSION {
      ValueInjective(b, one);
    }
  }

  /** The header of a record: letters, version, kind and a reserved byte. */
  ghost predicate HeaderLayout(r: seq<byte>, ordinal: u64, c: Command)
    requires |r| == 48
  {
    && r[0..4] == LETTERS && r[4..6] == [1, 0] && r[6] == (if c.NewOrder? then 1 else 2) && r[7] == 0
    && Digits(r[8..16], ordinal) && Digits(r[16..24], if c.NewOrder? then c.order.id else c.id)
  }

  /** The fields of an order; the price in two's complement. */
  ghost predicate OrderLayout(r: seq<byte>, o: Order)
    requires |r| == 48
  {
    && IntOf(r[24]) == o.side && IntOf(r[25]) == o.kind && IntOf(r[26]) == o.tif && IntOf(r[27]) == o.flags
    && Digits(r[28..36], if o.price < 0 then o.price + WORD else o.price)
    && Digits(r[36..40], o.quantity)
  }

  ghost predicate Layout(r: seq<byte>, ordinal: u64, c: Command)
    requires |r| == 48
  {
    && HeaderLayout(r, ordinal, c)
    && (c.NewOrder? ==> OrderLayout(r, c.order))
    && (c.Cancel? ==> forall i :: 24 <= i < 40 ==> r[i] == 0)
    && (forall i :: 40 <= i < 44 ==> r[i] == 0)
    && Pack(BitString(r[44..48])) == Checksum(r[..44])
  }

  lemma {:induction false} HeaderIsLaidOut(ordinal: u64, c: Command)
    ensures HeaderLayout(Encode(ordinal, c), ordinal, c)
  {
    var r := Encode(ordinal, c);
    HeaderRoundTrip(ordinal, c);
    RecordFields(ordinal, c);
    hide Encode, Value, LittleEndian, Digits;
    MagicIsLetters(r[0..4]);
    VersionIsOne(r[4..6]);
    Ranges();
    FieldDigits(ordinal, 8);
    FieldDigits(IdOf(c), 8);
    assert r[7] == r[..8][7];
  }

  lemma {:induction false} OrderIsLaidOut(ordinal: u64, o: Order)
    ensures OrderLayout(Encode(ordinal, NewOrder(o)), o)
  {
    var r := Encode(ordinal, NewOrder(o));
    RecordFields(ordinal, NewOrder(o));
    PayloadFields(o);
    hide Encode, Payload, LittleEndian, Codes, IntOf, Digits;
    Ranges();
    FieldDigits(PriceBits(o.price), 8);
    FieldDigits(o.quantity, 4);
    SubField(r, 24, 40, 28, 36);
    SubField(r, 24, 40, 36, 40);
    SubField(r, 24, 40, 24, 28);
    CodesRoundTrip(o);
    assert r[24] == r[24..28][0] && r[25] == r[24..28][1] && r[26] == r[24..28][2] && r[27] == r[24..28][3];
  }

  lemma {:induction false} RestIsLaidOut(ordinal: u64, c: Command)
    ensures var r := Encode(ordinal, c);
            && (c.Cancel? ==> forall i :: 24 <= i < 40 ==> r[i] == 0)
            && (forall i :: 40 <= i < 44 ==> r[i] == 0)
            && Pack(BitString(r[44..48])) == Checksum(r[..44])
  {
    var r := Encode(ordinal, c);
    RecordFields(ordinal, c);
    BodyEnds(ordinal, c);
    hide Encode, Payload, PutWord, Checksum, Body, Pack, BitString, GetWord;
    WordRoundTrip(Checksum(Body(ordinal, c)));
    WordIsPacked(r[44..48]);
    forall i | 40 <= i < 44
      ensures r[i] == 0
    {
      assert r[i] == r[..44][i];
    }
    if c.Cancel? {
      CancelPayload(c);
      forall i | 24 <= i < 40
        ensures r[i] == 0
      {
        assert r[i] == r[24..40][i - 24];
      }
    }
  }

  lemma {:induction false} CancelPayload(c: Command)
    requires c.Cancel?
    ensures forall i :: 0 <= i < 16 ==> Payload(c)[i] == 0
  {
  }

  lemma {:induction false} BodyEnds(ordinal: u64, c: Command)
    ensures forall i :: 40 <= i < 44 ==> Body(ordinal, c)[i] == 0
  {
    hide Prefix, LittleEndian, Payload;
  }

  /** Every byte of an encoded record. */
  lemma {:induction false} RecordIsLaidOut(ordinal: u64, c: Command)
    ensures Layout(Encode(ordinal, c), ordinal, c)
  {
    hide Encode, HeaderLayout, OrderLayout, Pack, BitString, Checksum;
    HeaderIsLaidOut(ordinal, c);
    RestIsLaidOut(ordinal, c);
    if c.NewOrder? {
      OrderIsLaidOut(ordinal, c.order);
    }
  }

  /** The codes that stand for sides, kinds and times in force. */
  lemma {:induction false} CodesAre(ordinal: u64, o: Order)
    ensures var r := Encode(ordinal, NewOrder(o));
            && (o.side == BUY ==> r[24] == 0) && (o.side == SELL ==> r[24] == 1)
            && (o.kind == LIMIT ==> r[25] == 0) && (o.kind == MARKET ==> r[25] == 1)
            && (o.tif == GTC ==> r[26] == 0) && (o.tif == IOC ==> r[26] == 1) && (o.tif == FOK ==> r[26] == 2)
  {
    hide Encode, IntOf, Digits;
    OrderIsLaidOut(ordinal, o);
    SmallBytes();
    var r := Encode(ordinal, NewOrder(o));
    CodeIs(r[24]);
    CodeIs(r[25]);
    CodeIs(r[26]);
  }

  lemma {:induction false} CodeIs(b: byte)
    ensures (IntOf(b) == 0 ==> b == 0) && (IntOf(b) == 1 ==> b == 1) && (IntOf(b) == 2 ==> b == 2)
  {
    hide IntOf;
    SmallBytes();
    if IntOf(b) == 0 {
      ByteInjective(b, 0);
    } else if IntOf(b) == 1 {
      ByteInjective(b, 1);
    } else if IntOf(b) == 2 {
      ByteInjective(b, 2);
    }
  }

  // ---------------------------------------------------------------------
  // What is read

  /** The verdict on 48 bytes: what is wrong with them first, read off the bytes. */
  lemma {:induction false} VerdictIs(r: seq<byte>, expected: u64)
    requires |r| == RECORD_SIZE
    ensures var letters, version := r[0..4] == LETTERS, r[4..6] == [1, 0];
            var kind, ordinal := r[6] == 1 || r[6] == 2, Digits(r[8..16], expected);
            var sum := Pack(BitString(r[44..48])) == Checksum(r[..44]);
            var verdict := ValidateRecord(r, expected);
            && (verdict == NoError <==> letters && version && kind && ordinal && sum)
            && (verdict == BadMagic <==> !letters)
            && (verdict == BadVersion <==> letters && !version)
            && (verdict == BadType <==> letters && version && !kind)
            && (verdict == BadOrdinal <==> letters && version && kind && !ordinal)
            && (verdict == BadChecksum <==> letters && version && kind && ordinal && !sum)
  {
    hide Value, Digits, Pack, BitString, Checksum, GetWord;
    MagicIsLetters(r[0..4]);
    VersionIsOne(r[4..6]);
    Ranges();
    ValueIffDigits(r[8..16], expected);
    WordIsPacked(r[44..48]);
  }

  /** What a reader makes of 48 bytes of the right kind. */
  lemma {:induction false} DecodeReads(r: seq<byte>)
    requires |r| == RECORD_SIZE && (r[6] == 1 || r[6] == 2)
    ensures var c := Decode(r);
            && (c.NewOrder? <==> r[6] == 1)
            && Digits(r[16..24], if c.NewOrder? then c.order.id else c.id)
            && (c.NewOrder? ==> OrderLayout(r, c.order) && c.order.sequence == 0)
  {
    hide Value, IntOf, Digits;
    ReadsBack(r[16..24]);
    ReadsBack(r[28..36]);
    ReadsBack(r[36..40]);
    FieldFits(r[28..36]);
  }

  lemma {:induction false} ReadsBack(b: seq<byte>)
    ensures Digits(b, Value(b))
  {
    hide Digits, Value;
    ValueFits(b);
    ValueIffDigits(b, Value(b));
  }
}
