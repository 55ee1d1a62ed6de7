/** Arithmetic of machine words: masks, powers of two and wrapping counters. */
module Words {
  import opened Types

  function PowerOfTwo(n: nat): (p: nat)
    ensures p > 0
  {
    if n == 0 then 1 else 2 * PowerOfTwo(n - 1)
  }

  /** Bitwise and. */
  function BitAnd(x: nat, y: nat): nat {
    if x == 0 || y == 0 then 0
    else (if x % 2 == 1 && y % 2 == 1 then 1 else 0) + 2 * BitAnd(x / 2, y / 2)
  }

  lemma {:induction false} BitAndStep(x: nat, y: nat)
    ensures BitAnd(x, y) == (if x % 2 == 1 && y % 2 == 1 then 1 else 0) + 2 * BitAnd(x / 2, y / 2)
  {
  }

  /** Masking with `2^k - 1` is the remainder modulo `2^k`. */
  lemma {:induction false} MaskIsMod(x: nat, k: nat)
    ensures BitAnd(x, PowerOfTwo(k) - 1) == x % PowerOfTwo(k)
    decreases k
  {
    hide BitAnd;
    if k == 0 {
      AndZero(x);
    } else {
      var p := PowerOfTwo(k - 1);
      MaskIsMod(x / 2, k - 1);
      BitAndStep(x, 2 * p - 1);
      assert (2 * p - 1) / 2 == p - 1 && (2 * p - 1) % 2 == 1;
      HalfMod(x, p);
    }
  }

  lemma {:induction false} AndZero(x: nat)
    ensures BitAnd(x, 0) == 0
  {
  }

  lemma {:induction false} HalfMod(x: nat, p: nat)
    requires p > 0
    ensures x % (2 * p) == x % 2 + 2 * (x / 2 % p)
  {
    var h, r := x / 2, x % 2;
    var q, m := h / p, h % p;
    assert x == 2 * h + r && h == q * p + m;
    assert x == (2 * p) * q + (r + 2 * m) by {
      assert 2 * (q * p) == (2 * p) * q;
    }
    ModIs(x, 2 * p, q, r + 2 * m);
  }

  lemma {:induction false} MultipleBounds(d: int, k: int)
    requires d >= 0
    ensures k >= 1 ==> d * k >= d
    ensures k <= -1 ==> d * k <= -d
  {
    if k >= 1 {
      assert d * k == d + d * (k - 1);
    } else if k <= -1 {
      assert d * k == -d + d * (k + 1);
    }
  }

  /** A number written as `d * q + r` with a small `r` has remainder `r`. */
  lemma {:induction false} ModIs(x: nat, d: nat, q: nat, r: nat)
    requires d > 0 && r < d && x == d * q + r
    ensures x % d == r && x / d == q
  {
    var q': int, r': int := x / d, x % d;
    var k := q' - q;
    assert d * k == r - r';
    MultipleBounds(d, k);
  }

  ghost predicate IsPowerOfTwo(c: nat) {
    exists k: nat :: c == PowerOfTwo(k)
  }

  /** The usual test, `c & (c - 1) == 0`, accepts a positive number exactly when it
      is a power of two; then `k` is the exponent. */
  lemma {:induction false} PowerOfTwoTest(c: nat) returns (k: nat)
    requires c > 0
    ensures BitAnd(c, c - 1) == 0 <==> IsPowerOfTwo(c)
    ensures BitAnd(c, c - 1) == 0 ==> c == PowerOfTwo(k)
  {
    hide BitAnd, PowerOfTwo;
    k := TestFindsPower(c);
    if IsPowerOfTwo(c) {
      var j: nat :| c == PowerOfTwo(j);
      PowerPassesTest(j);
    }
  }

  lemma {:induction false} TestFindsPower(c: nat) returns (k: nat)
    requires c > 0
    ensures BitAnd(c, c - 1) == 0 ==> c == PowerOfTwo(k)
    decreases c
  {
    k := 0;
    if c > 1 {
      if c % 2 == 0 {
        k := TestFindsPower(c / 2);
        assert (c - 1) / 2 == c / 2 - 1;
        k := k + 1;
      } else {
        assert (c - 1) / 2 == c / 2;
        AndSelf(c / 2);
      }
    }
  }

  lemma {:induction false} PowerPassesTest(k: nat)
    ensures BitAnd(PowerOfTwo(k), PowerOfTwo(k) - 1) == 0
  {
    if k > 0 {
      PowerPassesTest(k - 1);
      var p := PowerOfTwo(k - 1);
      assert (2 * p - 1) / 2 == p - 1 && 2 * p / 2 == p;
      BitAndStep(2 * p, 2 * p - 1);
    }
  }

  lemma {:induction false} AndSelf(x: nat)
    ensures BitAnd(x, x) == x
  {
    if x > 0 {
      AndSelf(x / 2);
    }
  }

  lemma {:induction false} PowerDivides(k: nat, m: nat) returns (q: nat)
    requires k <= m
    ensures PowerOfTwo(m) == PowerOfTwo(k) * q
    decreases m - k
  {
    if k == m {
      q := 1;
    } else {
      var r := PowerDivides(k + 1, m);
      q := 2 * r;
      assert PowerOfTwo(k + 1) * r == PowerOfTwo(k) * (2 * r);
    }
  }

  lemma {:induction false} WordIsPower()
    ensures PowerOfTwo(64) == WORD
  {
    assert PowerOfTwo(8) == 0x100;
    PowerSum(8, 8);
    assert PowerOfTwo(16) == 0x1_0000;
    PowerSum(16, 16);
    assert PowerOfTwo(32) == 0x1_0000_0000;
    PowerSum(32, 32);
  }

  lemma {:induction false} PowerSum(a: nat, b: nat)
    ensures PowerOfTwo(a + b) == PowerOfTwo(a) * PowerOfTwo(b)
  {
    if a > 0 {
      PowerSum(a - 1, b);
      assert 2 * (PowerOfTwo(a - 1) * PowerOfTwo(b)) == PowerOfTwo(a) * PowerOfTwo(b);
    }
  }

  /** Wrapping a counter at 2^64 does not change its slot. */
  lemma {:induction false} WrapKeepsSlot(x: nat, k: nat)
    requires k <= 64
    ensures (x % WORD) % PowerOfTwo(k) == x % PowerOfTwo(k)
  {
    hide PowerOfTwo;
    WordIsPower();
    var q := PowerDivides(k, 64);
    var p, y := PowerOfTwo(k), x % WORD;
    DivMod(y, p);
    Nested(x, p, q, WORD, x / WORD, y / p, y % p);
  }

  lemma {:induction false} DivMod(x: nat, p: nat)
    requires p > 0
    ensures x == p * (x / p) + x % p && x % p < p
  {
  }

  lemma {:induction false} Nested(x: nat, p: nat, q: nat, w: nat, d: nat, a: nat, r: nat)
    requires r < p && w == p * q && x == w * d + (p * a + r)
    ensures x % p == r
  {
    Distribute(p, q, d, a);
    ModIs(x, p, q * d + a, r);
  }

  lemma {:induction false} Distribute(p: nat, q: nat, d: nat, a: nat)
    ensures p * (q * d + a) == (p * q) * d + p * a
  {
  }

  lemma {:induction false} WrapAdd(a: nat, n: nat)
    ensures (a % WORD + n) % WORD == (a + n) % WORD
  {
  }

  /** The difference of two wrapped counters is exact while they are close. */
  lemma {:induction false} WrapDifference(a: nat, b: nat)
    requires b <= a < b + WORD
    ensures (a % WORD - b % WORD) % WORD == a - b
    ensures a % WORD == b % WORD <==> a == b
  {
  }

  /** Counters less than a full turn apart use different slots. */
  lemma {:induction false} SlotsDistinct(i: nat, j: nat, n: nat)
    requires n > 0 && i < j < i + n
    ensures i % n != j % n
  {
    var k: int := j as int / n - i as int / n;
    assert j - i == n * k + (j % n - i % n);
    MultipleBounds(n, k);
  }
}
