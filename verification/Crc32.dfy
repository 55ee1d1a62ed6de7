/** The reflected CRC-32 of section 8.1.1.6.2 of ITU-T V.42, as the journal
    computes it: a byte loop around a bit loop.

    The bit-serial register is the reference. The byte loop equals it; a message
    followed by its checksum always leaves the register at one fixed residue,
    and nothing else does; and two equally long messages that differ only
    within 32 consecutive bits never leave the register equal. */
module Crc32 {

  type byte = bv8

  const POLYNOMIAL: bv32 := 0xEDB8_8320
  const INITIAL: bv32 := 0xFFFF_FFFF

  function Xor(a: bv32, b: bv32): bv32 { a ^ b }
  function Half(r: bv32): bv32 { r >> 1 }
  predicate Odd(r: bv32) { r & 1 == 1 }
  function Bit(b: bool): bv32 { if b then 1 else 0 }

  /** One shift of the register. */
  function Shift(r: bv32): bv32 {
    if Odd(r) then Xor(Half(r), POLYNOMIAL) else Half(r)
  }

  function Step(r: bv32, b: bool): bv32 { Shift(Xor(r, Bit(b))) }

  /** The register after absorbing a string of bits, one at a time. */
  function Absorb(r: bv32, bits: seq<bool>): bv32
    decreases |bits|
  {
    if bits == [] then r else Absorb(Step(r, bits[0]), bits[1..])
  }

  /** The bits of a byte, least significant first. */
  function Bits(b: byte): seq<bool> {
    [b & 1 == 1, b & 2 == 2, b & 4 == 4, b & 8 == 8, b & 16 == 16, b & 32 == 32, b & 64 == 64, b & 128 == 128]
  }

  function BitString(data: seq<byte>): (bits: seq<bool>)
    ensures |bits| == 8 * |data|
  {
    if data == [] then [] else Bits(data[0]) + BitString(data[1..])
  }

  function Register(data: seq<byte>): bv32 { Absorb(INITIAL, BitString(data)) }

  function Complement(r: bv32): bv32 { !r }

  function Checksum(data: seq<byte>): bv32 { Complement(Register(data)) }

  // ---------------------------------------------------------------------
  // The register as a function of its input

  lemma {:induction false} AbsorbConcat(r: bv32, a: seq<bool>, b: seq<bool>)
    ensures Absorb(r, a + b) == Absorb(Absorb(r, a), b)
    decreases |a|
  {
    hide Step;
    if a == [] {
      assert a + b == b;
    } else {
      AbsorbConcat(Step(r, a[0]), a[1..], b);
      assert (a + b)[1..] == a[1..] + b;
    }
  }

  lemma {:induction false} ShiftInjective(a: bv32, b: bv32)
    requires Shift(a) == Shift(b)
    ensures a == b
  {
  }

  lemma {:induction false} XorInjective(a: bv32, b: bv32, c: bv32)
    requires Xor(a, c) == Xor(b, c)
    ensures a == b
  {
    assert (a ^ c) ^ c == a;
    assert (b ^ c) ^ c == b;
  }

  lemma {:induction false} StepInjective(a: bv32, b: bv32, c: bool)
    requires Step(a, c) == Step(b, c)
    ensures a == b
  {
    hide Shift, Xor, Bit;
    ShiftInjective(Xor(a, Bit(c)), Xor(b, Bit(c)));
    XorInjective(a, b, Bit(c));
  }

  /** Equal input never makes different registers equal. */
  lemma {:induction false} AbsorbInjective(a: bv32, b: bv32, bits: seq<bool>)
    requires Absorb(a, bits) == Absorb(b, bits)
    ensures a == b
    decreases |bits|
  {
    hide Step;
    if bits != [] {
      AbsorbInjective(Step(a, bits[0]), Step(b, bits[0]), bits[1..]);
      StepInjective(a, b, bits[0]);
    }
  }

  // ---------------------------------------------------------------------
  // Up to 32 bits are absorbed as one word

  function Push(p: bv32, b: bool): bv32 { Xor(p << 1, Bit(b)) }

  /** The bits as a word, the first one lowest. */
  function Pack(bits: seq<bool>): bv32 {
    if bits == [] then 0 else Push(Pack(bits[1..]), bits[0])
  }

  function Shifts(r: bv32, n: nat): bv32
    decreases n
  {
    if n == 0 then r else Shifts(Shift(r), n - 1)
  }

  /** The `n` low bits. */
  function Low(n: nat): bv32 {
    if n == 0 then 0 else Push(Low(n - 1), true)
  }

  predicate Within(p: bv32, mask: bv32) { p & !mask == 0 }

  lemma {:induction false} PushWithin(p: bv32, mask: bv32, b: bool)
    requires Within(p, mask)
    ensures Within(Push(p, b), Push(mask, true))
  {
    hide Within, Push;
    if b {
      PushOneWithin(p, mask);
    } else {
      PushZeroWithin(p, mask);
    }
  }

  lemma {:induction false} PushOneWithin(p: bv32, mask: bv32)
    requires Within(p, mask)
    ensures Within(Push(p, true), Push(mask, true))
  {
  }

  lemma {:induction false} PushZeroWithin(p: bv32, mask: bv32)
    requires Within(p, mask)
    ensures Within(Push(p, false), Push(mask, true))
  {
  }

  lemma {:induction false} WithinBasics(a: bv32, b: bv32, c: bv32)
    ensures Within(0, a) && Within(a, a)
    ensures Within(a, b) && Within(b, c) ==> Within(a, c)
  {
  }

  lemma {:induction false} PackFits(bits: seq<bool>)
    ensures Within(Pack(bits), Low(|bits|))
    decreases |bits|
  {
    hide Push, Within;
    if bits == [] {
      WithinBasics(Low(0), 0, 0);
    } else {
      PackFits(bits[1..]);
      PushWithin(Pack(bits[1..]), Low(|bits| - 1), bits[0]);
    }
  }

  lemma {:induction false} LowGrows(n: nat)
    ensures Within(Low(n), Low(n + 1))
  {
    hide Push, Within;
    if n == 0 {
      WithinBasics(Low(1), 0, 0);
    } else {
      LowGrows(n - 1);
      PushWithin(Low(n - 1), Low(n), true);
    }
  }

  lemma {:induction false} LowWithin(n: nat, m: nat)
    requires n <= m
    ensures Within(Low(n), Low(m))
    decreases m - n
  {
    hide Push, Within;
    if n < m {
      LowWithin(n + 1, m);
      LowGrows(n);
    }
    WithinBasics(Low(n), Low(n + 1), Low(m));
  }

  lemma {:induction false} LowValues()
    ensures Low(31) == 0x7FFF_FFFF
  {
    assert Low(4) == 0xF;
    assert Low(8) == 0xFF;
    assert Low(12) == 0xFFF;
    assert Low(16) == 0xFFFF;
    assert Low(20) == 0xF_FFFF;
    assert Low(24) == 0xFF_FFFF;
    assert Low(28) == 0xFFF_FFFF;
  }

  predicate TopClear(p: bv32) { p & 0x8000_0000 == 0 }

  lemma {:induction false} WithinLow31(p: bv32)
    requires Within(p, 0x7FFF_FFFF)
    ensures TopClear(p)
  {
  }

  lemma {:induction false} PackTopClear(bits: seq<bool>)
    requires |bits| <= 31
    ensures TopClear(Pack(bits))
  {
    hide Push, Within, TopClear;
    PackFits(bits);
    LowWithin(|bits|, 31);
    WithinBasics(Pack(bits), Low(|bits|), Low(31));
    LowValues();
    WithinLow31(Pack(bits));
  }

  lemma {:induction false} CarryParts(r: bv32, z: bv32)
    requires TopClear(z)
    ensures Odd(Xor(r, z << 1)) == Odd(r)
    ensures Half(Xor(r, z << 1)) == Xor(Half(r), z)
  {
    assert (r ^ (z << 1)) & 1 == r & 1;
    assert (r ^ (z << 1)) >> 1 == (r >> 1) ^ z;
  }

  lemma {:induction false} XorSwap(a: bv32, b: bv32, c: bv32)
    ensures Xor(Xor(a, b), c) == Xor(Xor(a, c), b)
  {
    hide Xor;
    XorAssoc(a, b, c);
    XorAssoc(a, c, b);
    XorComm(b, c);
  }

  lemma {:induction false} XorComm(a: bv32, b: bv32)
    ensures Xor(a, b) == Xor(b, a)
  {
  }

  lemma {:induction false} XorAssoc(a: bv32, b: bv32, c: bv32)
    ensures Xor(Xor(a, b), c) == Xor(a, Xor(c, b))
  {
  }

  /** A bit xored in above the one being shifted out waits its turn. */
  lemma {:induction false} ShiftCarries(r: bv32, z: bv32)
    requires TopClear(z)
    ensures Shift(Xor(r, z << 1)) == Xor(Shift(r), z)
  {
    hide Xor, Half, Odd, TopClear;
    CarryParts(r, z);
    XorSwap(Half(r), z, POLYNOMIAL);
  }

  lemma {:induction false} XorPush(r: bv32, z: bv32, b: bool)
    ensures Xor(r, Push(z, b)) == Xor(Xor(r, Bit(b)), z << 1)
  {
    hide Xor, Bit;
    XorAssoc(r, Bit(b), z << 1);
  }

  /** Absorbing a bit before or after the word behind it is the same. */
  lemma {:induction false} XorStep(r: bv32, z: bv32, b: bool)
    requires TopClear(z)
    ensures Shift(Xor(r, Push(z, b))) == Xor(Step(r, b), z)
  {
    hide Shift, TopClear, Xor, Push, Bit;
    XorPush(r, z, b);
    ShiftCarries(Xor(r, Bit(b)), z);
  }

  lemma {:induction false} XorZero(r: bv32)
    ensures Xor(r, 0) == r
  {
  }

  lemma {:induction false} AbsorbPacked(r: bv32, bits: seq<bool>)
    requires |bits| <= 32
    ensures Absorb(r, bits) == Shifts(Xor(r, Pack(bits)), |bits|)
    decreases |bits|
  {
    if bits == [] {
      XorZero(r);
    } else {
      AbsorbPackedStep(r, bits);
    }
  }

  lemma {:induction false} AbsorbPackedStep(r: bv32, bits: seq<bool>)
    requires 0 < |bits| <= 32
    ensures Absorb(r, bits) == Shifts(Xor(r, Pack(bits)), |bits|)
    decreases |bits|, 0
  {
    hide Shift, Step, Push, TopClear, Xor;
    var z := Pack(bits[1..]);
    AbsorbPacked(Step(r, bits[0]), bits[1..]);
    PackTopClear(bits[1..]);
    assert Shift(Xor(r, Push(z, bits[0]))) == Xor(Step(r, bits[0]), z) by {
      XorStep(r, z, bits[0]);
    }
  }

  lemma {:induction false} ShiftsInjective(a: bv32, b: bv32, n: nat)
    requires Shifts(a, n) == Shifts(b, n)
    ensures a == b
    decreases n
  {
    hide Shift;
    if n > 0 {
      ShiftsInjective(Shift(a), Shift(b), n - 1);
      ShiftInjective(a, b);
    }
  }

  lemma {:induction false} PushInjective(p: bv32, q: bv32, x: bool, y: bool)
    requires TopClear(p) && TopClear(q) && Push(p, x) == Push(q, y)
    ensures p == q && x == y
  {
  }

  lemma {:induction false} PackInjective(a: seq<bool>, b: seq<bool>)
    requires |a| == |b| <= 32 && Pack(a) == Pack(b)
    ensures a == b
    decreases |a|
  {
    hide Push, TopClear;
    if a != [] {
      PackTopClear(a[1..]);
      PackTopClear(b[1..]);
      PushInjective(Pack(a[1..]), Pack(b[1..]), a[0], b[0]);
      PackInjective(a[1..], b[1..]);
      assert a == [a[0]] + a[1..] && b == [b[0]] + b[1..];
    }
  }

  lemma {:induction false} XorCancels(c: bv32, a: bv32, b: bv32)
    requires Xor(c, a) == Xor(c, b)
    ensures a == b
  {
    assert c ^ (c ^ a) == a;
    assert c ^ (c ^ b) == b;
  }

  // ---------------------------------------------------------------------
  // Bursts

  /** The two strings agree except possibly within `n` bits from `k` on. */
  ghost predicate DifferOnlyWithin(x: seq<bool>, y: seq<bool>, k: nat, n: nat) {
    && |x| == |y| && k + n <= |x|
    && x[..k] == y[..k] && x[k + n..] == y[k + n..]
  }

  lemma {:induction false} WindowDecides(s: bv32, a: seq<bool>, b: seq<bool>, tail: seq<bool>)
    requires |a| == |b| <= 32 && Absorb(s, a + tail) == Absorb(s, b + tail)
    ensures a == b
  {
    hide Absorb, Pack, Shifts, Xor;
    AbsorbConcat(s, a, tail);
    AbsorbConcat(s, b, tail);
    AbsorbInjective(Absorb(s, a), Absorb(s, b), tail);
    AbsorbPacked(s, a);
    AbsorbPacked(s, b);
    ShiftsInjective(Xor(s, Pack(a)), Xor(s, Pack(b)), |a|);
    XorCancels(s, Pack(a), Pack(b));
    PackInjective(a, b);
  }

  /** No burst of at most 32 bits leaves the register unchanged. */
  lemma {:induction false} BurstChangesRegister(r: bv32, x: seq<bool>, y: seq<bool>, k: nat, n: nat)
    requires DifferOnlyWithin(x, y, k, n) && n <= 32 && x != y
    ensures Absorb(r, x) != Absorb(r, y)
  {
    hide Absorb;
    var head, a, b, tail := x[..k], x[k..k + n], y[k..k + n], x[k + n..];
    assert x == head + (a + tail) && y == head + (b + tail);
    AbsorbConcat(r, head, a + tail);
    AbsorbConcat(r, head, b + tail);
    if Absorb(r, x) == Absorb(r, y) {
      WindowDecides(Absorb(r, head), a, b, tail);
    }
  }

  // ---------------------------------------------------------------------
  // The byte loop

  /** One round of the source's outer loop. */
  function AbsorbByte(r: bv32, b: byte): bv32 { Shifts(Xor(r, b as bv32), 8) }

  lemma {:induction false} PackDrop(s: seq<bool>, i: nat)
    requires i < |s|
    ensures Pack(s[i..]) == Push(Pack(s[i + 1..]), s[i])
  {
    hide Push;
    assert s[i..][1..] == s[i + 1..];
  }

  function PushAll(p: bv32, s: seq<bool>): bv32
    requires |s| == 8
  {
    Push(Push(Push(Push(Push(Push(Push(Push(p, s[7]), s[6]), s[5]), s[4]), s[3]), s[2]), s[1]), s[0])
  }

  lemma {:induction false} PackPrefix(s: seq<bool>, rest: seq<bool>)
    requires |s| == 8
    ensures Pack(s + rest) == PushAll(Pack(rest), s)
  {
    hide Push;
    var t := s + rest;
    PackDrop(t, 0);
    PackDrop(t, 1);
    PackDrop(t, 2);
    PackDrop(t, 3);
    PackDrop(t, 4);
    PackDrop(t, 5);
    PackDrop(t, 6);
    PackDrop(t, 7);
    assert t[0..] == t;
    assert t[8..] == rest;
  }

  /** Eight pushes at once. */
  function Append(p: bv32, b: byte): bv32 { (p << 8) ^ (b as bv32) }

  lemma {:induction false} PushByte(p: bv32, b: byte)
    ensures PushAll(p, Bits(b)) == Append(p, b)
  {
  }

  lemma {:induction false} AppendToZero(b: byte)
    ensures Append(0, b) == b as bv32
  {
  }

  lemma {:induction false} PackByte(b: byte)
    ensures Pack(Bits(b)) == b as bv32
  {
    hide Push, Append, Bits, PushAll;
    EightLong(b);
    assert Bits(b) + [] == Bits(b);
    PackPrefix(Bits(b), []);
    PushByte(0, b);
    AppendToZero(b);
  }

  lemma {:induction false} EightLong(b: byte)
    ensures |Bits(b)| == 8
  {
  }

  lemma {:induction false} ByteRound(r: bv32, b: byte)
    ensures AbsorbByte(r, b) == Absorb(r, Bits(b))
  {
    hide Absorb, Shifts, Xor, Pack;
    AbsorbPacked(r, Bits(b));
    PackByte(b);
  }

  lemma {:induction false} BitStringConcat(a: seq<byte>, b: seq<byte>)
    ensures BitString(a + b) == BitString(a) + BitString(b)
    decreases |a|
  {
    hide Bits, BitString;
    if a == [] {
      assert a + b == b;
      NoBits();
    } else {
      BitStringConcat(a[1..], b);
      assert (a + b)[1..] == a[1..] + b;
      FirstBits(a);
      FirstBits(a + b);
      assert Bits(a[0]) + (BitString(a[1..]) + BitString(b)) == Bits(a[0]) + BitString(a[1..]) + BitString(b);
    }
  }

  lemma {:induction false} NoBits()
    ensures BitString([]) == []
  {
  }

  lemma {:induction false} FirstBits(data: seq<byte>)
    requires data != []
    ensures BitString(data) == Bits(data[0]) + BitString(data[1..])
  {
    hide Bits;
  }

  lemma {:induction false} RegisterConcat(a: seq<byte>, b: seq<byte>)
    ensures Register(a + b) == Absorb(Register(a), BitString(b))
  {
    hide Absorb, BitString;
    BitStringConcat(a, b);
    AbsorbConcat(INITIAL, BitString(a), BitString(b));
  }

  lemma {:induction false} RegisterSnoc(data: seq<byte>, i: nat)
    requires i < |data|
    ensures Register(data[..i + 1]) == AbsorbByte(Register(data[..i]), data[i])
  {
    hide Absorb, Register, AbsorbByte, Bits;
    RegisterConcat(data[..i], [data[i]]);
    assert data[..i + 1] == data[..i] + [data[i]];
    assert BitString([data[i]]) == Bits(data[i]);
    ByteRound(Register(data[..i]), data[i]);
  }

  /** The branch-free shift of the source. */
  lemma {:induction false} MaskedShift(r: bv32)
    ensures (r >> 1) ^ (POLYNOMIAL & (0 - (r & 1))) == Shift(r)
  {
    LowBit(r);
    if r & 1 == 1 {
      AllOnesMask(POLYNOMIAL);
    } else {
      NoMask(r >> 1, POLYNOMIAL);
    }
  }

  lemma {:induction false} LowBit(r: bv32)
    ensures r & 1 == 1 || r & 1 == 0
  {
  }

  lemma {:induction false} AllOnesMask(p: bv32)
    ensures p & (0 - 1) == p
  {
  }

  lemma {:induction false} NoMask(r: bv32, p: bv32)
    ensures r ^ (p & (0 - 0)) == r
  {
  }

  /** The nested loops of the source compute the bit-serial checksum. */
  method Compute(data: seq<byte>) returns (crc: bv32)
    ensures crc == Checksum(data)
  {
    hide Register, AbsorbByte;
    RegisterEmpty(data);
    crc := INITIAL;
    var i := 0;
    while i < |data|
      invariant 0 <= i <= |data|
      invariant crc == Register(data[..i])
    {
      RegisterSnoc(data, i);
      crc := AbsorbRound(crc, data[i]);
      i := i + 1;
    }
    assert data[..|data|] == data;
    crc := !crc;
  }

  lemma {:induction false} RegisterEmpty(data: seq<byte>)
    ensures Register(data[..0]) == INITIAL
  {
  }

  method AbsorbRound(crc0: bv32, b: byte) returns (crc: bv32)
    ensures crc == AbsorbByte(crc0, b)
  {
    hide Shift;
    crc := crc0 ^ (b as bv32);
    var bit := 0;
    while bit < 8
      invariant 0 <= bit <= 8
      invariant Shifts(crc, 8 - bit) == AbsorbByte(crc0, b)
    {
      MaskedShift(crc);
      var mask := 0 - (crc & 1);
      crc := (crc >> 1) ^ (POLYNOMIAL & mask);
      bit := bit + 1;
    }
  }

  // ---------------------------------------------------------------------
  // The residue

  /** Where the register ends after a message and `n` checksum bits. */
  function Residue(n: nat): bv32 { Shifts(INITIAL, n) }

  lemma {:induction false} ComplementXor(r: bv32, w: bv32)
    ensures Xor(r, w) == INITIAL <==> w == Complement(r)
  {
    hide Xor, Complement;
    AllOnes(r);
    if Xor(r, w) == INITIAL {
      XorCancels(r, w, Complement(r));
    }
  }

  lemma {:induction false} AllOnes(r: bv32)
    ensures Xor(r, Complement(r)) == INITIAL
  {
  }

  /** `tail` holds the checksum of `data` exactly when the register over both
      ends at the residue. */
  lemma {:induction false} ChecksumIffResidue(data: seq<byte>, tail: seq<byte>)
    requires |tail| == 4
    ensures Pack(BitString(tail)) == Checksum(data) <==> Register(data + tail) == Residue(8 * |tail|)
  {
    hide Register, Shifts, Pack, Absorb, Xor, Complement, BitString;
    var r, w := Register(data), Pack(BitString(tail));
    RegisterConcat(data, tail);
    AbsorbPacked(r, BitString(tail));
    ComplementXor(r, w);
    var n := 8 * |tail|;
    if Shifts(Xor(r, w), n) == Residue(n) {
      ShiftsInjective(Xor(r, w), INITIAL, n);
    }
  }

  // ---------------------------------------------------------------------
  // The checksum field

  /** Little-endian storage of a word. */
  function PutWord(w: bv32): (b: seq<byte>)
    ensures |b| == 4
  {
    [(w & 0xFF) as byte, ((w >> 8) & 0xFF) as byte, ((w >> 16) & 0xFF) as byte, ((w >> 24) & 0xFF) as byte]
  }

  function GetWord(b: seq<byte>): bv32
    requires |b| == 4
  {
    (b[0] as bv32) | ((b[1] as bv32) << 8) | ((b[2] as bv32) << 16) | ((b[3] as bv32) << 24)
  }

  lemma {:induction false} WordRoundTrip(w: bv32)
    ensures GetWord(PutWord(w)) == w
  {
  }

  lemma {:induction false} PackCons(b: byte, rest: seq<byte>)
    ensures Pack(BitString([b] + rest)) == Append(Pack(BitString(rest)), b)
  {
    hide Push, Append, Bits, Pack, PushAll;
    EightLong(b);
    assert ([b] + rest)[1..] == rest;
    PackPrefix(Bits(b), BitString(rest));
    PushByte(Pack(BitString(rest)), b);
  }

  lemma {:induction false} AssembleWord(a: byte, b: byte, c: byte, d: byte)
    ensures Append(Append(Append(Append(0, d), c), b), a) == GetWord([a, b, c, d])
  {
  }

  /** Reading the field is packing its bits. */
  lemma {:induction false} WordIsPacked(t: seq<byte>)
    requires |t| == 4
    ensures GetWord(t) == Pack(BitString(t))
  {
    hide Append, BitString, Pack, GetWord;
    assert t == [t[0]] + [t[1], t[2], t[3]];
    assert [t[1], t[2], t[3]] == [t[1]] + [t[2], t[3]];
    assert [t[2], t[3]] == [t[2]] + [t[3]];
    assert [t[3]] == [t[3]] + [];
    PackCons(t[0], [t[1], t[2], t[3]]);
    PackCons(t[1], [t[2], t[3]]);
    PackCons(t[2], [t[3]]);
    PackCons(t[3], []);
    PackNothing();
    AssembleWord(t[0], t[1], t[2], t[3]);
    assert t == [t[0], t[1], t[2], t[3]];
  }

  lemma {:induction false} PackNothing()
    ensures Pack(BitString([])) == 0
  {
  }

  lemma {:induction false} BitsInjective(a: byte, b: byte)
    requires Bits(a) == Bits(b)
    ensures a == b
  {
    hide Bits, Pack;
    PackByte(a);
    PackByte(b);
    Widen(a, b);
  }

  lemma {:induction false} Widen(a: byte, b: byte)
    requires a as bv32 == b as bv32
    ensures a == b
  {
  }

  lemma {:induction false} BitStringInjective(x: seq<byte>, y: seq<byte>)
    requires |x| == |y| && BitString(x) == BitString(y)
    ensures x == y
    decreases |x|
  {
    hide Bits;
    if x != [] {
      var a, b := BitString(x), BitString(y);
      assert Bits(x[0]) == a[..8] && Bits(y[0]) == b[..8] by { EightLong(x[0]); EightLong(y[0]); }
      assert BitString(x[1..]) == a[8..] && BitString(y[1..]) == b[8..] by { EightLong(x[0]); EightLong(y[0]); }
      BitsInjective(x[0], y[0]);
      BitStringInjective(x[1..], y[1..]);
      assert x == [x[0]] + x[1..] && y == [y[0]] + y[1..];
    }
  }

  /** The code word property: a block with a correct checksum stays detectably
      wrong under any burst of up to 32 bits, checksum field included. */
  lemma {:induction false} BurstBreaksBlock(x: seq<byte>, y: seq<byte>, k: nat, n: nat)
    requires |x| == |y| && |x| >= 4 && x != y && n <= 32
    requires DifferOnlyWithin(BitString(x), BitString(y), k, n)
    requires GetWord(x[|x| - 4..]) == Checksum(x[..|x| - 4])
    ensures GetWord(y[|y| - 4..]) != Checksum(y[..|y| - 4])
  {
    hide GetWord, Checksum, Absorb, Pack, BitString, Residue;
    var m := |x| - 4;
    WordIsPacked(x[m..]);
    WordIsPacked(y[m..]);
    ChecksumIffResidue(x[..m], x[m..]);
    ChecksumIffResidue(y[..m], y[m..]);
    assert x == x[..m] + x[m..] && y == y[..m] + y[m..];
    if BitString(x) == BitString(y) {
      BitStringInjective(x, y);
    }
    BurstChangesRegister(INITIAL, BitString(x), BitString(y), k, n);
  }
}
