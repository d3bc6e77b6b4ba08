/**
 Unsigned machine words as numbers, with the operators the hash functions use on them, each defined bit by bit. A
 word of `w` bits is a number below `Pow2(w)`; what an operator carries out of it is dropped.
 */
module Words {

  function Pow2(n: nat): (r: nat)
    ensures r > 0
  {
    if n == 0 then 1 else 2 * Pow2(n - 1)
  }

  function Xor(a: nat, b: nat): nat
    decreases a + b
  {
    if a == 0 && b == 0 then 0 else (if a % 2 != b % 2 then 1 else 0) + 2 * Xor(a / 2, b / 2)
  }

  function Or(a: nat, b: nat): nat
    decreases a + b
  {
    if a == 0 && b == 0 then 0 else (if a % 2 == 1 || b % 2 == 1 then 1 else 0) + 2 * Or(a / 2, b / 2)
  }

  /** `x << n`, before anything is dropped. */
  function Shl(x: nat, n: nat): nat { if n == 0 then x else 2 * Shl(x, n - 1) }

  /** `x >> n`. */
  function Shr(x: nat, n: nat): nat { if n == 0 then x else Shr(x / 2, n - 1) }

  /** The lowest `n` bits. */
  function Low(x: nat, n: nat): nat { if n == 0 then 0 else x % 2 + 2 * Low(x / 2, n - 1) }

  /** `rotl32` and `rotl64`: the bits pushed out at the top come in at the bottom. */
  function Rotl(x: nat, r: nat, w: nat): nat
    requires r <= w
  {
    Or(Low(Shl(x, r), w), Shr(x, w - r))
  }

  /** `x ^= x >> s`. */
  function Fold(x: nat, s: nat): nat { Xor(x, Shr(x, s)) }

  // ----- bit by bit -----

  lemma {:induction false} XorZero(a: nat)
    ensures Xor(a, 0) == a == Or(a, 0)
  {
    if a > 0 {
      XorZero(a / 2);
    }
  }

  lemma OneBit(a: nat, b: nat)
    ensures Xor(a, b) % 2 == (if a % 2 != b % 2 then 1 else 0) && Xor(a, b) / 2 == Xor(a / 2, b / 2)
    ensures Or(a, b) % 2 == (if a % 2 == 1 || b % 2 == 1 then 1 else 0) && Or(a, b) / 2 == Or(a / 2, b / 2)
  {}

  lemma {:induction false} XorUndone(a: nat, b: nat)
    ensures Xor(Xor(a, b), b) == a
    decreases a + b
  {
    hide Xor;
    OneBit(a, b);
    OneBit(Xor(a, b), b);
    if a + b > 0 {
      XorUndone(a / 2, b / 2);
    } else {
      XorZero(0);
    }
  }

  lemma {:induction false} XorCommutes(a: nat, b: nat)
    ensures Xor(a, b) == Xor(b, a)
    decreases a + b
  {
    if a + b > 0 {
      XorCommutes(a / 2, b / 2);
    }
  }

  /** Equal exclusive ors with one operand in common have the other in common. */
  lemma XorInjective(x: nat, y: nat, c: nat)
    requires Xor(x, c) == Xor(y, c) || Xor(c, x) == Xor(c, y)
    ensures x == y
  {
    hide Xor;
    XorCommutes(x, c);
    XorCommutes(y, c);
    XorUndone(x, c);
    XorUndone(y, c);
  }

  lemma {:induction false} XorBelow(a: nat, b: nat, w: nat)
    requires a < Pow2(w) && b < Pow2(w)
    ensures Xor(a, b) < Pow2(w)
  {
    if w > 0 && a + b > 0 {
      XorBelow(a / 2, b / 2, w - 1);
    }
  }

  lemma {:induction false} LowBelow(x: nat, n: nat)
    ensures Low(x, n) < Pow2(n)
  {
    if n > 0 {
      LowBelow(x / 2, n - 1);
    }
  }

  /** A shift to the right acts on each operand of an exclusive or. */
  lemma {:induction false} ShiftXor(a: nat, b: nat, n: nat)
    ensures Shr(Xor(a, b), n) == Xor(Shr(a, n), Shr(b, n))
  {
    if n > 0 {
      ShiftXor(a / 2, b / 2, n - 1);
      assert Xor(a, b) / 2 == Xor(a / 2, b / 2);
    }
  }

  lemma {:induction false} ShrShrinks(x: nat, n: nat)
    ensures Shr(x, n) <= x && (x > 0 && n > 0 ==> Shr(x, n) < x)
  {
    if n > 0 {
      ShrShrinks(x / 2, n - 1);
    }
  }

  /** Numbers that share no bit: either or is their sum. */
  lemma {:induction false} OrOfApart(a: nat, b: nat, n: nat)
    requires b < Pow2(n)
    ensures Xor(Shl(a, n), b) == Shl(a, n) + b == Or(Shl(a, n), b)
  {
    hide Xor, Or;
    if n == 0 {
      XorZero(a);
    } else {
      OneBit(Shl(a, n), b);
      OrOfApart(a, b / 2, n - 1);
    }
  }

  lemma {:induction false} ShlPlus(a: nat, b: nat, n: nat)
    ensures Shl(a, n) + Shl(b, n) == Shl(a + b, n)
  {
    if n > 0 {
      ShlPlus(a, b, n - 1);
    }
  }

  lemma {:induction false} JoinedBelow(a: nat, b: nat, k: nat, n: nat)
    requires a < Pow2(k) && b < Pow2(n)
    ensures Shl(a, n) + b < Pow2(k + n)
  {
    if n > 0 {
      JoinedBelow(a, b / 2, k, n - 1);
    }
  }

  lemma {:induction false} ShlTwice(x: nat, a: nat, b: nat)
    ensures Shl(Shl(x, a), b) == Shl(x, a + b)
  {
    if b > 0 {
      ShlTwice(x, a, b - 1);
    }
  }

  // ----- what cannot be confused -----

  /** `x ^= x >> s` loses nothing, for any shift but 0. */
  lemma {:induction false} FoldInjective(x: nat, y: nat, s: nat)
    requires s > 0 && Fold(x, s) == Fold(y, s)
    ensures x == y
    decreases x + y
  {
    hide Xor, Shr;
    if x + y > 0 {
      var p, q := Shr(x, s), Shr(y, s);
      ShiftXor(x, p, s);
      ShiftXor(y, q, s);
      ShrShrinks(x, s);
      ShrShrinks(y, s);
      FoldInjective(p, q, s);
      XorUndone(x, p);
      XorUndone(y, q);
    }
  }

  /** The upper and the lower part of a number. */
  lemma {:induction false} Parts(x: nat, s: nat)
    ensures x == Shl(Shr(x, s), s) + Low(x, s)
  {
    if s > 0 {
      Parts(x / 2, s - 1);
    }
  }

  lemma {:induction false} ShrBelow(x: nat, r: nat, s: nat)
    requires x < Pow2(r + s)
    ensures Shr(x, s) < Pow2(r)
  {
    if s > 0 {
      ShrBelow(x / 2, r, s - 1);
    }
  }

  lemma {:induction false} LowOfShl(x: nat, r: nat, s: nat)
    ensures Low(Shl(x, r), r + s) == Shl(Low(x, s), r)
  {
    if r > 0 {
      LowOfShl(x, r - 1, s);
    }
  }

  lemma {:induction false} PartsApart(a: nat, b: nat, c: nat, d: nat, n: nat)
    requires b < Pow2(n) && d < Pow2(n)
    requires Shl(a, n) + b == Shl(c, n) + d
    ensures a == c && b == d
  {
    if n > 0 {
      PartsApart(a, b / 2, c, d / 2, n - 1);
    }
  }

  /** A rotation swaps the upper and the lower part of a word. */
  lemma RotlSwaps(x: nat, r: nat, w: nat)
    requires r <= w && x < Pow2(w)
    ensures Rotl(x, r, w) == Shl(Low(x, w - r), r) + Shr(x, w - r)
    ensures Shr(x, w - r) < Pow2(r)
  {
    hide Low, Shl, Shr, Or, Pow2;
    ShrBelow(x, r, w - r);
    LowOfShl(x, r, w - r);
    OrOfApart(Low(x, w - r), Shr(x, w - r), r);
  }

  lemma RotlInjective(x: nat, y: nat, r: nat, w: nat)
    requires r <= w && x < Pow2(w) && y < Pow2(w)
    requires Rotl(x, r, w) == Rotl(y, r, w)
    ensures x == y
  {
    hide Low, Shl, Shr, Rotl, Pow2;
    RotlSwaps(x, r, w);
    RotlSwaps(y, r, w);
    PartsApart(Low(x, w - r), Shr(x, w - r), Low(y, w - r), Shr(y, w - r), r);
    Parts(x, w - r);
    Parts(y, w - r);
  }

  lemma {:induction false} LowFits(x: nat, n: nat)
    requires x < Pow2(n)
    ensures Low(x, n) == x
  {
    if n > 0 {
      LowFits(x / 2, n - 1);
    }
  }

  lemma RotlBelow(x: nat, r: nat, w: nat)
    requires r <= w && x < Pow2(w)
    ensures Rotl(x, r, w) < Pow2(w)
  {
    hide Low, Shl, Shr, Rotl, Pow2;
    var low, up := Low(x, w - r), Shr(x, w - r);
    RotlSwaps(x, r, w);
    LowBelow(x, w - r);
    JoinedBelow(low, up, w - r, r);
  }

  /** A factor that has an inverse can be taken out of a product that wraps around. */
  lemma TimesInjective(x: nat, y: nat, f: nat, inverse: nat, m: nat)
    requires x < m && y < m && f * inverse % m == 1
    requires x * f % m == y * f % m
    ensures x == y
  {
    var k, d := f * inverse / m, x - y;
    var q := x * f / m - y * f / m;
    assert f * inverse == m * k + 1;
    assert d * f == m * q by {
      assert x * f == m * (x * f / m) + x * f % m;
      assert y * f == m * (y * f / m) + y * f % m;
      assert d * f == x * f - y * f;
    }
    assert d * (f * inverse) == (d * f) * inverse;
    assert d * (m * k + 1) == m * (k * d) + d;
    assert (m * q) * inverse == m * (q * inverse);
    NoMultiple(d, q * inverse - k * d, m);
  }

  lemma NoMultiple(d: int, z: int, m: nat)
    requires d == m * z && -(m as int) < d < m
    ensures d == 0
  {}

  /** A summand can be taken off a sum that wraps around. */
  lemma PlusInjective(x: nat, y: nat, c: nat, m: nat)
    requires x < m && y < m && (x + c) % m == (y + c) % m
    ensures x == y
  {
    NoMultiple(x - y, (x + c) / m - (y + c) / m, m);
  }

  // ----- the steps of the hash functions, on words of any width -----

  function Plus(x: nat, y: nat, w: nat): (r: nat)
    ensures r < Pow2(w)
  {
    (x + y) % Pow2(w)
  }

  function Times(x: nat, f: nat, w: nat): (r: nat)
    ensures r < Pow2(w)
  {
    x * f % Pow2(w)
  }

  /** `f` and `g` undo each other's multiplication in words of `w` bits. */
  predicate Inverse(f: nat, g: nat, w: nat) { f * g % Pow2(w) == 1 }

  lemma TimesApart(x: nat, y: nat, f: nat, g: nat, w: nat)
    requires x < Pow2(w) && y < Pow2(w) && Inverse(f, g, w) && Times(x, f, w) == Times(y, f, w)
    ensures x == y
  {
    hide Pow2;
    TimesInjective(x, y, f, g, Pow2(w));
  }

  /** `k *= f; k = ROTL(k, r); k *= g`: what is made of a piece of the key before it meets the state. */
  function Mix(k: nat, f: nat, r: nat, g: nat, w: nat): (m: nat)
    requires r <= w
    ensures m < Pow2(w)
  {
    Times(Rotl(Times(k, f, w), r, w), g, w)
  }

  lemma MixInjective(x: nat, y: nat, f: nat, r: nat, g: nat, f': nat, g': nat, w: nat)
    requires r <= w && x < Pow2(w) && y < Pow2(w) && Inverse(f, f', w) && Inverse(g, g', w)
    requires Mix(x, f, r, g, w) == Mix(y, f, r, g, w)
    ensures x == y
  {
    hide Times, Rotl, Pow2, Inverse;
    var p, q := Times(x, f, w), Times(y, f, w);
    RotlBelow(p, r, w);
    RotlBelow(q, r, w);
    TimesApart(Rotl(p, r, w), Rotl(q, r, w), g, g', w);
    RotlInjective(p, q, r, w);
    TimesApart(x, y, f, f', w);
  }

  /** `fmix`, with the shifts and factors of either width. */
  function Fmix(h: nat, s: nat, f: nat, t: nat, g: nat, u: nat, w: nat): nat {
    Fold(Times(Fold(Times(Fold(h, s), f, w), t), g, w), u)
  }

  lemma FoldBelow(x: nat, s: nat, w: nat)
    requires x < Pow2(w)
    ensures Fold(x, s) < Pow2(w)
  {
    hide Xor, Shr, Pow2;
    ShrShrinks(x, s);
    XorBelow(x, Shr(x, s), w);
  }

  lemma FmixInjective(x: nat, y: nat, s: nat, f: nat, t: nat, g: nat, u: nat, f': nat, g': nat, w: nat)
    requires s > 0 && t > 0 && u > 0 && x < Pow2(w) && y < Pow2(w) && Inverse(f, f', w) && Inverse(g, g', w)
    requires Fmix(x, s, f, t, g, u, w) == Fmix(y, s, f, t, g, u, w)
    ensures x == y
  {
    hide Times, Fold, Pow2, Inverse;
    var x1, y1 := Fold(x, s), Fold(y, s);
    var x2, y2 := Times(x1, f, w), Times(y1, f, w);
    var x3, y3 := Fold(x2, t), Fold(y2, t);
    FoldBelow(x, s, w);
    FoldBelow(y, s, w);
    FoldBelow(x2, t, w);
    FoldBelow(y2, t, w);
    FoldInjective(Times(x3, g, w), Times(y3, g, w), u);
    TimesApart(x3, y3, g, g', w);
    FoldInjective(x2, y2, t);
    TimesApart(x1, y1, f, f', w);
    FoldInjective(x, y, s);
  }

  lemma FmixBelow(x: nat, s: nat, f: nat, t: nat, g: nat, u: nat, w: nat)
    ensures Fmix(x, s, f, t, g, u, w) < Pow2(w)
  {
    hide Times, Fold, Pow2;
    var x2 := Times(Fold(x, s), f, w);
    FoldBelow(Times(Fold(x2, t), g, w), u, w);
  }

  /** `h = h*5+c`. */
  function Scale(h: nat, c: nat, w: nat): (n: nat)
    ensures n < Pow2(w)
  {
    Plus(Times(h, 5, w), c, w)
  }

  lemma ScaleInjective(x: nat, y: nat, c: nat, fifth: nat, w: nat)
    requires x < Pow2(w) && y < Pow2(w) && Inverse(5, fifth, w) && Scale(x, c, w) == Scale(y, c, w)
    ensures x == y
  {
    hide Times, Pow2, Inverse;
    PlusInjective(Times(x, 5, w), Times(y, 5, w), c, Pow2(w));
    TimesApart(x, y, 5, fifth, w);
  }

  /** `h ^= m; h = ROTL(h, r)`: the state takes in a mixed piece of the key. */
  function Absorb(h: nat, m: nat, r: nat, w: nat): nat
    requires r <= w
  {
    Rotl(Xor(h, m), r, w)
  }

  lemma AbsorbBelow(h: nat, m: nat, r: nat, w: nat)
    requires r <= w && h < Pow2(w) && m < Pow2(w)
    ensures Absorb(h, m, r, w) < Pow2(w)
  {
    hide Xor, Rotl, Pow2;
    XorBelow(h, m, w);
    RotlBelow(Xor(h, m), r, w);
  }

  lemma AbsorbInjective(h: nat, m: nat, h': nat, m': nat, r: nat, w: nat)
    requires r <= w && h < Pow2(w) && m < Pow2(w) && h' < Pow2(w) && m' < Pow2(w)
    requires Absorb(h, m, r, w) == Absorb(h', m', r, w)
    ensures Xor(h, m) == Xor(h', m')
  {
    hide Xor, Rotl, Pow2;
    XorBelow(h, m, w);
    XorBelow(h', m', w);
    RotlInjective(Xor(h, m), Xor(h', m'), r, w);
  }

  // ----- words made of bytes -----

  type Byte = b: nat | b < 256

  /** The number whose bytes, lowest first, are `s`: what `getblock` reads on a little-endian machine. */
  function Little(s: seq<Byte>): nat {
    if |s| == 0 then 0 else s[0] + 256 * Little(s[1..])
  }

  lemma {:induction false} LittleInjective(s: seq<Byte>, t: seq<Byte>)
    requires |s| == |t| && Little(s) == Little(t)
    ensures s == t
  {
    if |s| > 0 {
      assert Little(s) % 256 == s[0] && Little(t) % 256 == t[0];
      LittleInjective(s[1..], t[1..]);
      assert s == [s[0]] + s[1..] && t == [t[0]] + t[1..];
    }
  }

  lemma {:induction false} LittleBelow(s: seq<Byte>)
    ensures Little(s) < Pow2(8 * |s|)
  {
    if |s| > 0 {
      LittleBelow(s[1..]);
      Byteful(8 * |s| - 8);
    }
  }

  lemma {:induction false} Grows(m: nat, n: nat)
    requires m <= n
    ensures Pow2(m) <= Pow2(n)
    decreases n
  {
    if m < n {
      Grows(m, n - 1);
    }
  }

  lemma Byteful(n: nat)
    ensures Pow2(n + 8) == 256 * Pow2(n)
  {
    assert Pow2(n + 8) == 4 * Pow2(n + 6) && Pow2(n + 6) == 4 * Pow2(n + 4);
    assert Pow2(n + 4) == 4 * Pow2(n + 2) && Pow2(n + 2) == 4 * Pow2(n);
  }

  /** The switch over the tail: from the last byte down to byte `i`, each is shifted to its place and or-ed in. */
  function Down(t: seq<Byte>, i: nat): nat
    requires i <= |t|
    decreases |t| - i
  {
    if i == |t| then 0 else Xor(Down(t, i + 1), Shl(t[i], 8 * i))
  }

  lemma ByteOnTop(rest: nat, b: Byte, n: nat)
    ensures Xor(Shl(rest, n + 8), Shl(b, n)) == Shl(b + 256 * rest, n)
  {
    hide Xor, Shl;
    assert b < Pow2(8);
    JoinedBelow(b, 0, 8, n);
    OrOfApart(rest, Shl(b, n), n + 8);
    ShlTwice(rest, 8, n);
    EightTwice(rest);
    ShlPlus(256 * rest, b, n);
  }

  lemma EightTwice(x: nat)
    ensures Shl(x, 8) == 256 * x
  {
    assert Shl(x, 8) == 4 * Shl(x, 6) && Shl(x, 6) == 4 * Shl(x, 4);
    assert Shl(x, 4) == 4 * Shl(x, 2) && Shl(x, 2) == 2 * Shl(x, 1);
  }

  lemma {:induction false} DownIs(t: seq<Byte>, i: nat)
    requires i <= |t|
    ensures Down(t, i) == Shl(Little(t[i..]), 8 * i)
    decreases |t| - i
  {
    hide Xor, Shl;
    if i < |t| {
      DownIs(t, i + 1);
      assert t[i..][1..] == t[i + 1..];
      ByteOnTop(Little(t[i + 1..]), t[i], 8 * i);
    } else {
      ShlZero(8 * i);
    }
  }

  lemma {:induction false} ShlZero(n: nat)
    ensures Shl(0, n) == 0
  {
    if n > 0 {
      ShlZero(n - 1);
    }
  }

  /** The switch reads the tail as the same number as a block with those bytes. */
  lemma TailIsLittle(t: seq<Byte>)
    ensures Down(t, 0) == Little(t)
  {
    DownIs(t, 0);
    assert t[0..] == t;
  }
}
