/** Which code the checksum is: the frame check sequence of section 8.1.1.6.2 of
    ITU-T V.42, defined by long division of polynomials over the two-element field. The
    generator is given by the exponents of its terms. */
module CrcDivision {
  import opened Crc32

  /** Coefficients, highest power first. */
  type Polynomial = seq<bool>

  /** The powers of x in the generator. */
  predicate Term(k: nat) {
    || k == 32 || k == 26 || k == 23 || k == 22 || k == 16 || k == 12 || k == 11 || k == 10
    || k == 8 || k == 7 || k == 5 || k == 4 || k == 2 || k == 1 || k == 0
  }

  function Generator(): (g: Polynomial)
    ensures |g| == 33
    ensures forall i :: 0 <= i < 33 ==> g[i] == Term(32 - i)
  {
    seq(33, i requires 0 <= i < 33 => Term(32 - i))
  }

  function Repeat(b: bool, n: nat): (p: Polynomial)
    ensures |p| == n
  {
    seq(n, _ => b)
  }

  /** Adds `g` to the highest coefficients of `p`. */
  function AddFront(p: Polynomial, g: Polynomial): (r: Polynomial)
    requires |g| <= |p|
    ensures |r| == |p|
    ensures forall i :: 0 <= i < |p| ==> r[i] == if i < |g| then p[i] != g[i] else p[i]
  {
    seq(|p|, i requires 0 <= i < |p| => if i < |g| then p[i] != g[i] else p[i])
  }

  function Flip(p: Polynomial): (r: Polynomial)
    ensures |r| == |p|
  {
    seq(|p|, i requires 0 <= i < |p| => !p[i])
  }

  /** The remainder of long division by the generator. */
  function Remainder(p: Polynomial): (r: Polynomial)
    requires |p| >= 32
    ensures |r| == 32
    decreases |p|
  {
    if |p| == 32 then p
    else if p[0] then Remainder(AddFront(p, Generator())[1..])
    else Remainder(p[1..])
  }

  /** The dividend of V.42: the message times x^32, its first 32 coefficients inverted. */
  function Dividend(bits: seq<bool>): (p: Polynomial)
    ensures |p| == |bits| + 32
  {
    AddFront(bits + Repeat(false, 32), Repeat(true, 32))
  }

  // ---------------------------------------------------------------------
  // Words as polynomials

  function Double(p: bv32): bv32 { p << 1 }

  lemma {:induction false} PushIs(p: bv32, b: bool)
    ensures Push(p, b) == Xor(Double(p), Bit(b))
  {
    hide Xor, Bit;
  }

  lemma {:induction false} PushXor(p: bv32, q: bv32, a: bool, b: bool)
    requires TopClear(p) && TopClear(q)
    ensures Xor(Push(p, a), Push(q, b)) == Push(Xor(p, q), a != b)
  {
    hide Xor, Bit, TopClear, Push, Double;
    PushIs(p, a);
    PushIs(q, b);
    PushIs(Xor(p, q), a != b);
    XorPairs(Double(p), Bit(a), Double(q), Bit(b));
    DoubleXor(p, q);
    BitXor(a, b);
  }

  lemma {:induction false} XorPairs(a: bv32, b: bv32, c: bv32, d: bv32)
    ensures Xor(Xor(a, b), Xor(c, d)) == Xor(Xor(a, c), Xor(b, d))
  {
    hide Xor;
    XorAssoc(a, b, Xor(c, d));
    XorAssoc(c, d, b);
    XorAssoc(a, c, Xor(b, d));
    XorComm(Xor(b, d), c);
  }

  lemma {:induction false} DoubleXor(p: bv32, q: bv32)
    requires TopClear(p) && TopClear(q)
    ensures Xor(Double(p), Double(q)) == Double(Xor(p, q))
  {
    hide Xor, TopClear, Half, Odd, Double;
    Doubled(p);
    CarryDoubled(Double(p), q);
    XorClear(p, q);
    Doubled(Xor(p, q));
    HalfAndOdd(Xor(Double(p), Double(q)), Double(Xor(p, q)));
  }

  lemma {:induction false} CarryDoubled(r: bv32, z: bv32)
    requires TopClear(z)
    ensures Odd(Xor(r, Double(z))) == Odd(r)
    ensures Half(Xor(r, Double(z))) == Xor(Half(r), z)
  {
    hide Xor, TopClear, Half, Odd;
    CarryParts(r, z);
  }

  lemma {:induction false} Doubled(p: bv32)
    requires TopClear(p)
    ensures Half(Double(p)) == p && !Odd(Double(p))
  {
  }

  lemma {:induction false} XorClear(p: bv32, q: bv32)
    requires TopClear(p) && TopClear(q)
    ensures TopClear(Xor(p, q))
  {
  }

  lemma {:induction false} HalfAndOdd(a: bv32, b: bv32)
    requires Half(a) == Half(b) && Odd(a) == Odd(b)
    ensures a == b
  {
  }

  lemma {:induction false} BitXor(a: bool, b: bool)
    ensures Xor(Bit(a), Bit(b)) == Bit(a != b)
  {
  }

  /** Adding coefficients is xor of the words. */
  lemma {:induction false} PackAdds(p: Polynomial, q: Polynomial)
    requires |p| == |q| <= 32
    ensures Pack(AddFront(p, q)) == Xor(Pack(p), Pack(q))
  {
    hide Push, Xor, TopClear;
    if p == [] {
      XorZero(0);
    } else {
      PackAdds(p[1..], q[1..]);
      PackTopClear(p[1..]);
      PackTopClear(q[1..]);
      PushXor(Pack(p[1..]), Pack(q[1..]), p[0], q[0]);
      assert AddFront(p, q)[1..] == AddFront(p[1..], q[1..]);
    }
  }

  lemma {:induction false} PushNothing()
    ensures Push(0, false) == 0
  {
  }

  lemma {:induction false} PackZero(n: nat)
    ensures Pack(Repeat(false, n)) == 0
  {
    hide Push;
    if n > 0 {
      PackZero(n - 1);
      assert Repeat(false, n)[1..] == Repeat(false, n - 1);
      PushNothing();
    }
  }

  /** A lowest coefficient of zero does not show in the word. */
  lemma {:induction false} PackPads(p: Polynomial)
    ensures Pack(p + [false]) == Pack(p)
  {
    hide Push;
    if p == [] {
      PushNothing();
      assert [false][1..] == [];
    } else {
      PackPads(p[1..]);
      assert (p + [false])[1..] == p[1..] + [false];
    }
  }

  function PushFour(p: bv32, a: bool, b: bool, c: bool, d: bool): bv32 { Push(Push(Push(Push(p, d), c), b), a) }

  lemma {:induction false} PackOne(g: Polynomial, i: nat)
    requires i < |g|
    ensures Pack(g[i..]) == Push(Pack(g[i + 1..]), g[i])
  {
    hide Push;
    assert g[i..][1..] == g[i + 1..];
  }

  lemma {:induction false} PackFour(g: Polynomial, i: nat)
    requires i + 4 <= |g|
    ensures Pack(g[i..]) == PushFour(Pack(g[i + 4..]), g[i], g[i + 1], g[i + 2], g[i + 3])
  {
    hide Push, Pack;
    PackOne(g, i);
    PackOne(g, i + 1);
    PackOne(g, i + 2);
    PackOne(g, i + 3);
  }

  /** The constant in the source is the generator without its leading term. */
  lemma {:induction false} PolynomialIsGenerator()
    ensures Pack(Generator()[1..]) == POLYNOMIAL
  {
    hide Pack, PushFour, Generator, Term;
    var g := Generator()[1..];
    Terms(g);
    LowPowers(g);
    HighPowers(g);
    assert g[0..] == g;
  }

  lemma {:induction false} LowPowers(g: Polynomial)
    requires |g| == 32
    requires !g[16] && !g[17] && !g[18] && g[19] && g[20] && g[21] && !g[22] && g[23]
    requires g[24] && !g[25] && g[26] && g[27] && !g[28] && g[29] && g[30] && g[31]
    ensures Pack(g[16..]) == 0xEDB8
  {
    hide Pack, PushFour;
    PackNothing();
    assert g[32..] == [];
    PackFour(g, 28);
    PackFour(g, 24);
    PackFour(g, 20);
    PackFour(g, 16);
    Nibbles();
  }

  lemma {:induction false} HighPowers(g: Polynomial)
    requires |g| == 32 && Pack(g[16..]) == 0xEDB8
    requires !g[0] && !g[1] && !g[2] && !g[3] && !g[4] && g[5] && !g[6] && !g[7]
    requires g[8] && g[9] && !g[10] && !g[11] && !g[12] && !g[13] && !g[14] && g[15]
    ensures Pack(g[0..]) == 0xEDB8_8320
  {
    hide Pack, PushFour;
    PackFour(g, 12);
    PackFour(g, 8);
    PackFour(g, 4);
    PackFour(g, 0);
    Nibbles();
  }

  lemma {:induction false} Terms(g: Polynomial)
    requires g == Generator()[1..]
    ensures !g[0] && !g[1] && !g[2] && !g[3] && !g[4] && g[5] && !g[6] && !g[7]
    ensures g[8] && g[9] && !g[10] && !g[11] && !g[12] && !g[13] && !g[14] && g[15]
    ensures !g[16] && !g[17] && !g[18] && g[19] && g[20] && g[21] && !g[22] && g[23]
    ensures g[24] && !g[25] && g[26] && g[27] && !g[28] && g[29] && g[30] && g[31]
  {
  }

  lemma {:induction false} Nibbles()
    ensures PushFour(0, false, true, true, true) == 0xE
    ensures PushFour(0xE, true, false, true, true) == 0xED
    ensures PushFour(0xED, true, true, false, true) == 0xEDB
    ensures PushFour(0xEDB, false, false, false, true) == 0xEDB8
    ensures PushFour(0xEDB8, false, false, false, true) == 0xE_DB88
    ensures PushFour(0xE_DB88, true, true, false, false) == 0xED_B883
    ensures PushFour(0xED_B883, false, true, false, false) == 0xEDB_8832
    ensures PushFour(0xEDB_8832, false, false, false, false) == 0xEDB8_8320
  {
  }

  // ---------------------------------------------------------------------
  // The register is the remainder

  lemma {:induction false} ShiftBit(b: bool)
    ensures Shift(Bit(b)) == if b then POLYNOMIAL else 0
  {
  }

  /** The coefficients after one bit: drop the highest, and if the sum with the bit was
      one, add the rest of the generator. */
  function Next(c: Polynomial, b: bool): (r: Polynomial)
    requires |c| == 32
    ensures |r| == 32
  {
    AddFront(c[1..] + [false], if c[0] != b then Generator()[1..] else Repeat(false, 32))
  }

  lemma {:induction false} StepIsNext(c: Polynomial, b: bool)
    requires |c| == 32
    ensures Step(Pack(c), b) == Pack(Next(c, b))
  {
    hide Shift, Xor, Push, Pack, AddFront, Generator, Repeat, Bit, TopClear;
    var tail := c[1..];
    PackOne(c, 0);
    assert c[0..] == c;
    PackTopClear(tail);
    XorStep(Bit(b), Pack(tail), c[0]);
    XorComm(Pack(c), Bit(b));
    BitXor(b, c[0]);
    ShiftBit(c[0] != b);
    XorComm(Pack(tail), if c[0] != b then POLYNOMIAL else 0);
    PackPads(tail);
    PolynomialIsGenerator();
    PackZero(32);
    PackAdds(tail + [false], if c[0] != b then Generator()[1..] else Repeat(false, 32));
  }

  /** One bit of the register is one step of long division. */
  lemma {:induction false} NextDivides(c: Polynomial, bits: seq<bool>)
    requires |c| == 32 && bits != []
    ensures Remainder(AddFront(bits + Repeat(false, 32), c))
         == Remainder(AddFront(bits[1..] + Repeat(false, 32), Next(c, bits[0])))
  {
    hide Generator;
    var z := Repeat(false, 32);
    var p := AddFront(bits + z, c);
    var p' := if p[0] then AddFront(p, Generator())[1..] else p[1..];
    var n := AddFront(bits[1..] + z, Next(c, bits[0]));
    assert |p'| == |n| == |p| - 1;
    forall i | 0 <= i < |n|
      ensures p'[i] == n[i]
    {
      assert (bits + z)[i + 1] == (bits[1..] + z)[i];
    }
    assert p' == n;
  }

  lemma {:induction false} AbsorbDivides(c: Polynomial, bits: seq<bool>)
    requires |c| == 32
    ensures Absorb(Pack(c), bits) == Pack(Remainder(AddFront(bits + Repeat(false, 32), c)))
    decreases |bits|
  {
    hide Step, Pack, Next;
    if bits == [] {
      assert AddFront([] + Repeat(false, 32), c) == c;
    } else {
      StepIsNext(c, bits[0]);
      AbsorbDivides(Next(c, bits[0]), bits[1..]);
      NextDivides(c, bits);
    }
  }

  lemma {:induction false} PackOnes()
    ensures Pack(Repeat(true, 32)) == INITIAL
  {
    hide Pack, PushFour;
    var g := Repeat(true, 32);
    PackFour(g, 28);
    PackFour(g, 24);
    PackFour(g, 20);
    PackFour(g, 16);
    PackFour(g, 12);
    PackFour(g, 8);
    PackFour(g, 4);
    PackFour(g, 0);
    PackNothing();
    assert g[32..] == [] && g[0..] == g;
    OneNibbles();
  }

  lemma {:induction false} OneNibbles()
    ensures PushFour(0, true, true, true, true) == 0xF
    ensures PushFour(0xF, true, true, true, true) == 0xFF
    ensures PushFour(0xFF, true, true, true, true) == 0xFFF
    ensures PushFour(0xFFF, true, true, true, true) == 0xFFFF
    ensures PushFour(0xFFFF, true, true, true, true) == 0xF_FFFF
    ensures PushFour(0xF_FFFF, true, true, true, true) == 0xFF_FFFF
    ensures PushFour(0xFF_FFFF, true, true, true, true) == 0xFFF_FFFF
    ensures PushFour(0xFFF_FFFF, true, true, true, true) == 0xFFFF_FFFF
  {
  }

  lemma {:induction false} ComplementIsXor(r: bv32)
    ensures Complement(r) == Xor(r, INITIAL)
  {
  }

  /** The checksum of any bytes is the V.42 frame check sequence: the ones complement
      of the remainder of the dividend. */
  lemma {:induction false} ChecksumIsV42(data: seq<byte>)
    ensures Checksum(data) == Pack(Flip(Remainder(Dividend(BitString(data)))))
  {
    hide Absorb, Pack, Xor, Complement, BitString, Remainder;
    var ones := Repeat(true, 32);
    PackOnes();
    AbsorbDivides(ones, BitString(data));
    var r := Remainder(Dividend(BitString(data)));
    ComplementIsXor(Pack(r));
    PackAdds(r, ones);
    assert AddFront(r, ones) == Flip(r);
  }

  // ---------------------------------------------------------------------
  // The residue

  function ShiftFour(r: bv32): bv32 { Shift(Shift(Shift(Shift(r)))) }

  lemma {:induction false} FourShifts(r: bv32, n: nat)
    ensures Shifts(r, n + 4) == Shifts(ShiftFour(r), n)
  {
    hide Shift;
    var a := Shift(r);
    var b := Shift(a);
    assert Shifts(r, n + 4) == Shifts(a, n + 3);
    assert Shifts(a, n + 3) == Shifts(b, n + 2);
    assert Shifts(b, n + 2) == Shifts(Shift(b), n + 1);
  }

  lemma {:induction false} ShiftedOnes()
    ensures ShiftFour(0xFFFF_FFFF) == 0xB242_0DE3
    ensures ShiftFour(0xB242_0DE3) == 0x2DFD_1072
    ensures ShiftFour(0x2DFD_1072) == 0x39B1_F1CF
    ensures ShiftFour(0x39B1_F1CF) == 0xBE26_ED00
    ensures ShiftFour(0xBE26_ED00) == 0x0BE2_6ED0
    ensures ShiftFour(0x0BE2_6ED0) == 0x00BE_26ED
    ensures ShiftFour(0x00BE_26ED) == 0x86D8_30BA
    ensures ShiftFour(0x86D8_30BA) == 0xDEBB_20E3
  {
  }

  /** The residue that V.42 states for a block followed by its check sequence, which
      reads C704DD7B with the highest power first. */
  lemma {:induction false} ResidueValue()
    ensures Residue(32) == 0xDEBB_20E3
  {
    hide Shifts, ShiftFour;
    ShiftedOnes();
    FourShifts(0xFFFF_FFFF, 28);
    FourShifts(0xB242_0DE3, 24);
    FourShifts(0x2DFD_1072, 20);
    FourShifts(0x39B1_F1CF, 16);
    FourShifts(0xBE26_ED00, 12);
    FourShifts(0x0BE2_6ED0, 8);
    FourShifts(0x00BE_26ED, 4);
    FourShifts(0x86D8_30BA, 0);
    NoShifts(0xDEBB_20E3);
  }

  lemma {:induction false} NoShifts(r: bv32)
    ensures Shifts(r, 0) == r
  {
  }
}
