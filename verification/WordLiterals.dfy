/**
 The operators on words by ordinary arithmetic and by bit vectors: what they give on numbers written out.
 */
module WordLiterals {
  import opened Words

  // ----- shifts and rotations are divisions -----

  lemma {:induction false} ShlIs(x: nat, n: nat)
    ensures Shl(x, n) == x * Pow2(n)
  {
    if n > 0 { ShlIs(x, n - 1); }
  }

  lemma DividedBy(x: nat, q: nat, r: nat, m: nat)
    requires r < m && x == q * m + r
    ensures x / m == q && x % m == r
  {
    var d := x / m - q;
    assert m * d == x / m * m - q * m;
    NoMultiple(r - x % m, d, m);
    NoFactor(d, m);
  }

  lemma NoFactor(d: int, m: nat)
    requires m > 0 && m * d == 0
    ensures d == 0
  {}

  lemma ShrIs(x: nat, n: nat)
    ensures Shr(x, n) == x / Pow2(n) && Low(x, n) == x % Pow2(n)
  {
    hide Pow2, Low, Shr, Shl;
    Parts(x, n);
    ShlIs(Shr(x, n), n);
    LowBelow(x, n);
    DividedBy(x, Shr(x, n), Low(x, n), Pow2(n));
  }

  /** A rotation by division: the remainder moves up, the quotient comes in below. */
  lemma RotlIs(x: nat, r: nat, w: nat)
    requires r <= w && x < Pow2(w)
    ensures Rotl(x, r, w) == x % Pow2(w - r) * Pow2(r) + x / Pow2(w - r)
  {
    hide Rotl, Pow2, Low, Shr, Shl;
    RotlSwaps(x, r, w);
    ShrIs(x, w - r);
    ShlIs(Low(x, w - r), r);
  }

  // ----- exclusive or is that of bit vectors -----

  /** The lowest eight bits as a number. */
  function Low8(v: bv64): (n: nat)
    ensures n < 256
  {
    (if v & 1 == 0 then 0 else 1) + (if v & 2 == 0 then 0 else 2) + (if v & 4 == 0 then 0 else 4) +
    (if v & 8 == 0 then 0 else 8) + (if v & 16 == 0 then 0 else 16) + (if v & 32 == 0 then 0 else 32) +
    (if v & 64 == 0 then 0 else 64) + (if v & 128 == 0 then 0 else 128)
  }

  function Differ(x: nat, y: nat): (d: nat)
    ensures d < 2
  {
    if x == y then 0 else 1
  }

  /** Exclusive or acts on the upper and on the lower part. */
  lemma {:induction false} XorJoin(a: nat, b: nat, x: nat, y: nat, n: nat)
    requires x < Pow2(n) && y < Pow2(n)
    ensures Xor(Shl(a, n) + x, Shl(b, n) + y) == Shl(Xor(a, b), n) + Xor(x, y)
  {
    hide Xor;
    if n == 0 {
      XorZero(0);
    } else {
      var p, q := Shl(a, n - 1) + x / 2, Shl(b, n - 1) + y / 2;
      XorJoin(a, b, x / 2, y / 2, n - 1);
      XorByBit(x, y, x / 2, y / 2, x % 2, y % 2);
      XorByBit(Shl(a, n) + x, Shl(b, n) + y, p, q, x % 2, y % 2);
    }
  }

  lemma XorByBit(x: nat, y: nat, p: nat, q: nat, b: nat, c: nat)
    requires b < 2 && c < 2 && x == 2 * p + b && y == 2 * q + c
    ensures Xor(x, y) == 2 * Xor(p, q) + Differ(b, c)
  {
    hide Xor;
    OneBit(x, y);
  }

  lemma XorBytes(a: nat, b: nat, x: nat, y: nat)
    requires x < 256 && y < 256
    ensures Xor(256 * a + x, 256 * b + y) == 256 * Xor(a, b) + Xor(x, y)
  {
    hide Xor, Shl;
    EightTwice(a);
    EightTwice(b);
    EightTwice(Xor(a, b));
    XorJoin(a, b, x, y, 8);
  }


  lemma XorFourBits(a: nat, b: nat, x3: nat, y3: nat, x2: nat, y2: nat, x1: nat, y1: nat, x0: nat, y0: nat)
    requires x3 < 2 && y3 < 2 && x2 < 2 && y2 < 2 && x1 < 2 && y1 < 2 && x0 < 2 && y0 < 2
    ensures Xor(16 * a + 8 * x3 + 4 * x2 + 2 * x1 + x0, 16 * b + 8 * y3 + 4 * y2 + 2 * y1 + y0) ==
      16 * Xor(a, b) + 8 * Differ(x3, y3) + 4 * Differ(x2, y2) + 2 * Differ(x1, y1) + Differ(x0, y0)
  {
    hide Xor, Differ;
    var p3, q3 := 2 * a + x3, 2 * b + y3;
    var p2, q2 := 2 * p3 + x2, 2 * q3 + y2;
    var p1, q1 := 2 * p2 + x1, 2 * q2 + y1;
    XorByBit(p3, q3, a, b, x3, y3);
    XorByBit(p2, q2, p3, q3, x2, y2);
    XorByBit(p1, q1, p2, q2, x1, y1);
    XorByBit(2 * p1 + x0, 2 * q1 + y0, p1, q1, x0, y0);
  }

  function Bit(v: bv64, m: bv64): (b: nat)
    ensures b < 2
  {
    if v & m == 0 then 0 else 1
  }

  lemma BitsDiffer(u: bv64, v: bv64, m: bv64)
    requires m in {1, 2, 4, 8, 16, 32, 64, 128}
    ensures Bit(u ^ v, m) == Differ(Bit(u, m), Bit(v, m))
  {}

  lemma Low8Bits(v: bv64)
    ensures Low8(v) ==
      16 * (8 * Bit(v, 128) + 4 * Bit(v, 64) + 2 * Bit(v, 32) + Bit(v, 16)) +
      8 * Bit(v, 8) + 4 * Bit(v, 4) + 2 * Bit(v, 2) + Bit(v, 1)
  {}

  lemma XorLow8(u: bv64, v: bv64)
    ensures Xor(Low8(u), Low8(v)) == Low8(u ^ v)
  {
    hide Xor, Low8, Bit, Differ;
    Low8Bits(u);
    Low8Bits(v);
    Low8Bits(u ^ v);
    XorZero(0);
    forall m: bv64 | m in {1, 2, 4, 8, 16, 32, 64, 128}
      ensures Bit(u ^ v, m) == Differ(Bit(u, m), Bit(v, m))
    {
      BitsDiffer(u, v, m);
    }
    XorFourBits(0, 0, Bit(u, 128), Bit(v, 128), Bit(u, 64), Bit(v, 64), Bit(u, 32), Bit(v, 32), Bit(u, 16), Bit(v, 16));
    XorFourBits(8 * Bit(u, 128) + 4 * Bit(u, 64) + 2 * Bit(u, 32) + Bit(u, 16),
                8 * Bit(v, 128) + 4 * Bit(v, 64) + 2 * Bit(v, 32) + Bit(v, 16),
                Bit(u, 8), Bit(v, 8), Bit(u, 4), Bit(v, 4), Bit(u, 2), Bit(v, 2), Bit(u, 1), Bit(v, 1));
  }

  /** The number that `n` bytes of a word stand for, and that all eight of them do. */
  function Number(v: bv64, n: nat): nat { if n == 0 then 0 else Low8(v) + 256 * Number(v >> 8, n - 1) }

  function Word(v: bv64): nat {
    Low8(v) + 0x100 * Low8(v >> 8) + 0x1_0000 * Low8(v >> 16) + 0x100_0000 * Low8(v >> 24) +
    0x1_0000_0000 * Low8(v >> 32) + 0x100_0000_0000 * Low8(v >> 40) + 0x1_0000_0000_0000 * Low8(v >> 48) +
    0x100_0000_0000_0000 * Low8(v >> 56)
  }

  lemma WordIs(v: bv64)
    ensures Word(v) == Number(v, 8)
  {
    hide Low8;
    assert v >> 8 >> 8 == v >> 16;
    assert v >> 16 >> 8 == v >> 24;
    assert v >> 24 >> 8 == v >> 32;
    assert v >> 32 >> 8 == v >> 40;
    assert v >> 40 >> 8 == v >> 48;
    assert v >> 48 >> 8 == v >> 56;
    assert Number(v >> 56, 1) == Low8(v >> 56);
    assert Number(v >> 48, 2) == Low8(v >> 48) + 256 * Number(v >> 56, 1);
    assert Number(v >> 40, 3) == Low8(v >> 40) + 256 * Number(v >> 48, 2);
    assert Number(v >> 32, 4) == Low8(v >> 32) + 256 * Number(v >> 40, 3);
    assert Number(v >> 24, 5) == Low8(v >> 24) + 256 * Number(v >> 32, 4);
    assert Number(v >> 16, 6) == Low8(v >> 16) + 256 * Number(v >> 24, 5);
    assert Number(v >> 8, 7) == Low8(v >> 8) + 256 * Number(v >> 16, 6);
  }

  /** The two operations by name, so that a proof can do without what they are. */
  function Differing(u: bv64, v: bv64): bv64 { u ^ v }

  function Upper(v: bv64): bv64 { v >> 8 }

  lemma NumberStep(v: bv64, n: nat)
    requires n > 0
    ensures Number(v, n) == Low8(v) + 256 * Number(Upper(v), n - 1)
  {
    hide Low8;
  }

  lemma UpperDiffering(u: bv64, v: bv64)
    ensures Upper(Differing(u, v)) == Differing(Upper(u), Upper(v))
  {}

  lemma Low8Differing(u: bv64, v: bv64)
    ensures Xor(Low8(u), Low8(v)) == Low8(Differing(u, v))
  {
    hide Xor, Low8;
    XorLow8(u, v);
  }

  /** An exclusive or of numbers is the number of the exclusive or. */
  lemma {:induction false} XorNumbers(u: bv64, v: bv64, n: nat)
    ensures Xor(Number(u, n), Number(v, n)) == Number(Differing(u, v), n)
    decreases n, 1
  {
    hide Differing;
    if n == 0 {
      XorZero(0);
    } else {
      XorNumbersStep(u, v, n);
    }
  }

  lemma {:induction false} XorNumbersStep(u: bv64, v: bv64, n: nat)
    requires n > 0
    ensures Xor(Number(u, n), Number(v, n)) == Number(Differing(u, v), n)
    decreases n, 0
  {
    hide Xor, Low8, Number, Differing, Upper;
    NumberStep(u, n);
    NumberStep(v, n);
    NumberStep(Differing(u, v), n);
    UpperDiffering(u, v);
    XorNumbers(Upper(u), Upper(v), n - 1);
    Low8Differing(u, v);
    XorBytes(Number(Upper(u), n - 1), Number(Upper(v), n - 1), Low8(u), Low8(v));
  }

  lemma XorWords(u: bv64, v: bv64)
    ensures Xor(Word(u), Word(v)) == Word(u ^ v)
  {
    hide Xor, Word, Number;
    XorNumbers(u, v, 8);
    WordIs(u);
    WordIs(v);
    WordIs(u ^ v);
  }
}
