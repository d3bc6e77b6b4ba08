/**
 MurmurHash3_x64_128: the hash of a key, and that no two keys of one length share it when they differ in a single
 16-byte block, or only in the tail.
 */
module Murmur64 {
  import opened Words

  /** The two words of the state, of a block, or of a result. */
  datatype Pair = Pair(a: nat, b: nat)

  const W := 64
  const C1 := 0x87c37b91114253d5
  const C2 := 0x4cf5ad432745937f
  const FMIX1 := 0xff51afd7ed558ccd
  const FMIX2 := 0xc4ceb9fe1a85ec53

  predicate Fits(h: Pair) { h.a < Pow2(W) && h.b < Pow2(W) }

  function Mix1(k: nat): (m: nat)
    ensures m < Pow2(W)
  {
    Mix(k, C1, 31, C2, W)
  }

  function Mix2(k: nat): (m: nat)
    ensures m < Pow2(W)
  {
    Mix(k, C2, 33, C1, W)
  }

  function Avalanche(h: nat): (r: nat)
    ensures r < Pow2(W)
  {
    FmixBelow(h, 33, FMIX1, 33, FMIX2, 33, W);
    Fmix(h, 33, FMIX1, 33, FMIX2, 33, W)
  }

  /** One turn of the loop over the blocks. */
  function Round(h: Pair, k: Pair): (n: Pair)
    ensures Fits(n)
  {
    var a := Scale(Plus(Absorb(h.a, Mix1(k.a), 27, W), h.b, W), 0x52dce729, W);
    var b := Scale(Plus(Absorb(h.b, Mix2(k.b), 31, W), a, W), 0x38495ab5, W);
    Pair(a, b)
  }

  /** Block `i` of a key. */
  function Block(key: seq<Byte>, i: nat): Pair
    requires 16 * i + 16 <= |key|
  {
    Pair(Little(key[16 * i..16 * i + 8]), Little(key[16 * i + 8..16 * i + 16]))
  }

  /** The state after `n` blocks. */
  function Body(key: seq<Byte>, seed: nat, n: nat): Pair
    requires 16 * n <= |key|
  {
    if n == 0 then Pair(seed, seed) else Round(Body(key, seed, n - 1), Block(key, n - 1))
  }

  /** The bytes that do not fill a block. */
  function Rest(key: seq<Byte>): (t: seq<Byte>)
    ensures |t| == |key| % 16
  {
    key[|key| / 16 * 16..]
  }

  /** The switch over the tail. */
  function Tail(h: Pair, t: seq<Byte>): Pair {
    Pair(
      if |t| > 0 then Xor(h.a, Mix1(Down(if |t| > 8 then t[..8] else t, 0))) else h.a,
      if |t| > 8 then Xor(h.b, Mix2(Down(t[8..], 0))) else h.b)
  }

  /** `h1 += h2; h2 += h1`. */
  function Cross(h: Pair): (n: Pair)
    ensures Fits(n)
  {
    var a := Plus(h.a, h.b, W);
    Pair(a, Plus(h.b, a, W))
  }

  function Final(h: Pair, length: nat): (n: Pair)
    ensures Fits(n)
  {
    var c := Cross(Pair(Xor(h.a, length), Xor(h.b, length)));
    Cross(Pair(Avalanche(c.a), Avalanche(c.b)))
  }

  function Hash(key: seq<Byte>, seed: nat): (n: Pair)
    ensures Fits(n)
  {
    Final(Tail(Body(key, seed, |key| / 16), Rest(key)), |key|)
  }

  /** The routine: a loop over the blocks that updates the state, then the tail and the end. */
  method Murmur(key: seq<Byte>, seed: nat) returns (out: Pair)
    ensures out == Hash(key, seed)
  {
    hide Times, Plus, Rotl, Xor, Little, Pow2, Avalanche, Tail, Rest;
    var blocks := |key| / 16;
    var h1, h2 := seed, seed;
    for i := 0 to blocks
      invariant Pair(h1, h2) == Body(key, seed, i)
    {
      var k1, k2 := Little(key[16 * i..16 * i + 8]), Little(key[16 * i + 8..16 * i + 16]);
      k1 := Times(Rotl(Times(k1, C1, W), 31, W), C2, W);
      h1 := Xor(h1, k1);
      h1 := Plus(Rotl(h1, 27, W), h2, W);
      h1 := Plus(Times(h1, 5, W), 0x52dce729, W);
      k2 := Times(Rotl(Times(k2, C2, W), 33, W), C1, W);
      h2 := Xor(h2, k2);
      h2 := Plus(Rotl(h2, 31, W), h1, W);
      h2 := Plus(Times(h2, 5, W), 0x38495ab5, W);
    }
    out := Final(Tail(Pair(h1, h2), Rest(key)), |key|);
  }

  // ----- nothing is lost on the way -----

  lemma Inverses()
    ensures Inverse(C1, 0xa98409e882ce4d7d, W) && Inverse(C2, 0xa81e14edd9de2c7f, W)
    ensures Inverse(FMIX1, 0x4f74430c22a54005, W) && Inverse(FMIX2, 0x9cb4b2f8129337db, W)
    ensures Inverse(5, 0xcccccccccccccccd, W)
  {
    SixtyFour();
  }

  lemma SixtyFour()
    ensures Pow2(32) == 0x1_0000_0000 && Pow2(W) == 0x1_0000_0000_0000_0000
  {
    Byteful(0);
    Byteful(8);
    Byteful(16);
    Byteful(24);
    Byteful(32);
    Byteful(40);
    Byteful(48);
    Byteful(56);
  }

  lemma MixesApart(x: nat, y: nat)
    requires x < Pow2(W) && y < Pow2(W)
    ensures Mix1(x) == Mix1(y) ==> x == y
    ensures Mix2(x) == Mix2(y) ==> x == y
  {
    hide Mix, Pow2, Inverse;
    Inverses();
    if Mix1(x) == Mix1(y) {
      MixInjective(x, y, C1, 31, C2, 0xa98409e882ce4d7d, 0xa81e14edd9de2c7f, W);
    }
    if Mix2(x) == Mix2(y) {
      MixInjective(x, y, C2, 33, C1, 0xa81e14edd9de2c7f, 0xa98409e882ce4d7d, W);
    }
  }

  /** What one half of a round keeps apart. */
  lemma HalfApart(h: nat, m: nat, h': nat, m': nat, r: nat, other: nat, c: nat)
    requires r <= W && h < Pow2(W) && m < Pow2(W) && h' < Pow2(W) && m' < Pow2(W)
    requires Scale(Plus(Absorb(h, m, r, W), other, W), c, W) == Scale(Plus(Absorb(h', m', r, W), other, W), c, W)
    ensures Xor(h, m) == Xor(h', m')
  {
    hide Scale, Absorb, Xor, Pow2, Inverse;
    Inverses();
    AbsorbBelow(h, m, r, W);
    AbsorbBelow(h', m', r, W);
    ScaleInjective(Plus(Absorb(h, m, r, W), other, W), Plus(Absorb(h', m', r, W), other, W), c, 0xcccccccccccccccd, W);
    PlusInjective(Absorb(h, m, r, W), Absorb(h', m', r, W), other, Pow2(W));
    AbsorbInjective(h, m, h', m', r, W);
  }

  /** With one block, different states stay different. */
  lemma RoundKeepsStates(h: Pair, g: Pair, k: Pair)
    requires Fits(h) && Fits(g) && Round(h, k) == Round(g, k)
    ensures h == g
  {
    hide Scale, Absorb, Plus, Xor, Mix1, Mix2, Pow2;
    HalfApart(h.b, Mix2(k.b), g.b, Mix2(k.b), 31, Round(h, k).a, 0x38495ab5);
    XorInjective(h.b, g.b, Mix2(k.b));
    HalfApart(h.a, Mix1(k.a), g.a, Mix1(k.a), 27, h.b, 0x52dce729);
    XorInjective(h.a, g.a, Mix1(k.a));
  }

  /** From one state, different blocks lead to different states. */
  lemma RoundKeepsBlocks(h: Pair, k: Pair, l: Pair)
    requires Fits(h) && Fits(k) && Fits(l) && Round(h, k) == Round(h, l)
    ensures k == l
  {
    hide Scale, Absorb, Plus, Xor, Mix1, Mix2, Pow2;
    HalfApart(h.b, Mix2(k.b), h.b, Mix2(l.b), 31, Round(h, k).a, 0x38495ab5);
    XorInjective(Mix2(k.b), Mix2(l.b), h.b);
    HalfApart(h.a, Mix1(k.a), h.a, Mix1(l.a), 27, h.b, 0x52dce729);
    XorInjective(Mix1(k.a), Mix1(l.a), h.a);
    MixesApart(k.a, l.a);
    MixesApart(k.b, l.b);
  }

  lemma CrossKeeps(h: Pair, g: Pair)
    requires Fits(h) && Fits(g) && Cross(h) == Cross(g)
    ensures h == g
  {
    hide Pow2;
    PlusInjective(h.b, g.b, Cross(h).a, Pow2(W));
    PlusInjective(h.a, g.a, h.b, Pow2(W));
  }

  lemma AvalancheKeeps(x: nat, y: nat)
    requires x < Pow2(W) && y < Pow2(W) && Avalanche(x) == Avalanche(y)
    ensures x == y
  {
    hide Fmix, Pow2, Inverse;
    Inverses();
    FmixInjective(x, y, 33, FMIX1, 33, FMIX2, 33, 0x4f74430c22a54005, 0x9cb4b2f8129337db, W);
  }

  /** The end of the routine maps different states to different results. */
  lemma FinalKeeps(h: Pair, g: Pair, length: nat)
    requires Fits(h) && Fits(g) && length < Pow2(W) && Final(h, length) == Final(g, length)
    ensures h == g
  {
    hide Avalanche, Cross, Xor, Pow2;
    var x, y := Pair(Xor(h.a, length), Xor(h.b, length)), Pair(Xor(g.a, length), Xor(g.b, length));
    XorBelow(h.a, length, W);
    XorBelow(h.b, length, W);
    XorBelow(g.a, length, W);
    XorBelow(g.b, length, W);
    var c, d := Cross(x), Cross(y);
    CrossKeeps(Pair(Avalanche(c.a), Avalanche(c.b)), Pair(Avalanche(d.a), Avalanche(d.b)));
    AvalancheKeeps(c.a, d.a);
    AvalancheKeeps(c.b, d.b);
    CrossKeeps(x, y);
    XorInjective(h.a, g.a, length);
    XorInjective(h.b, g.b, length);
  }

  /** Eight bytes at most make a word. */
  lemma BytesFit(s: seq<Byte>)
    requires |s| <= 8
    ensures Down(s, 0) == Little(s) < Pow2(W)
  {
    LittleBelow(s);
    TailIsLittle(s);
    Grows(8 * |s|, W);
  }

  lemma TailFits(h: Pair, t: seq<Byte>)
    requires Fits(h) && |t| < 16
    ensures Fits(Tail(h, t))
  {
    hide Mix1, Mix2, Xor, Pow2, Down;
    XorBelow(h.a, Mix1(Down(if |t| > 8 then t[..8] else t, 0)), W);
    if |t| > 8 {
      XorBelow(h.b, Mix2(Down(t[8..], 0)), W);
    }
  }

  /** With one tail, different states stay different. */
  lemma TailKeepsStates(h: Pair, g: Pair, t: seq<Byte>)
    requires Tail(h, t) == Tail(g, t)
    ensures h == g
  {
    hide Mix1, Mix2, Xor, Down;
    if |t| > 0 {
      XorInjective(h.a, g.a, Mix1(Down(if |t| > 8 then t[..8] else t, 0)));
    }
    if |t| > 8 {
      XorInjective(h.b, g.b, Mix2(Down(t[8..], 0)));
    }
  }

  lemma WordsApart(h: nat, s: seq<Byte>, t: seq<Byte>)
    requires |s| == |t| <= 8
    ensures Xor(h, Mix1(Down(s, 0))) == Xor(h, Mix1(Down(t, 0))) ==> s == t
    ensures Xor(h, Mix2(Down(s, 0))) == Xor(h, Mix2(Down(t, 0))) ==> s == t
  {
    hide Mix1, Mix2, Xor, Down, Little, Pow2;
    BytesFit(s);
    BytesFit(t);
    MixesApart(Little(s), Little(t));
    if Little(s) == Little(t) {
      LittleInjective(s, t);
    }
    if Xor(h, Mix1(Down(s, 0))) == Xor(h, Mix1(Down(t, 0))) {
      XorInjective(Mix1(Down(s, 0)), Mix1(Down(t, 0)), h);
    }
    if Xor(h, Mix2(Down(s, 0))) == Xor(h, Mix2(Down(t, 0))) {
      XorInjective(Mix2(Down(s, 0)), Mix2(Down(t, 0)), h);
    }
  }

  /** From one state, different tails of one length lead to different states. */
  lemma TailKeepsBytes(h: Pair, s: seq<Byte>, t: seq<Byte>)
    requires |s| == |t| < 16 && Tail(h, s) == Tail(h, t)
    ensures s == t
  {
    hide Mix1, Mix2, Xor, Down;
    if |s| > 8 {
      WordsApart(h.a, s[..8], t[..8]);
      WordsApart(h.b, s[8..], t[8..]);
      assert s == s[..8] + s[8..] && t == t[..8] + t[8..];
    } else if |s| > 0 {
      WordsApart(h.a, s, t);
    }
  }

  // ----- whole keys -----

  lemma BodyFits(key: seq<Byte>, seed: nat, n: nat)
    requires 16 * n <= |key| && seed < Pow2(W)
    ensures Fits(Body(key, seed, n))
  {
    hide Round, Pow2;
  }

  lemma BlocksApart(p: seq<Byte>, q: seq<Byte>, i: nat)
    requires 16 * i + 16 <= |p| == |q|
    ensures Fits(Block(p, i))
    ensures Block(p, i) == Block(q, i) ==> p[16 * i..16 * i + 16] == q[16 * i..16 * i + 16]
  {
    hide Little, Pow2, Down;
    var s, t := p[16 * i..16 * i + 8], p[16 * i + 8..16 * i + 16];
    var u, v := q[16 * i..16 * i + 8], q[16 * i + 8..16 * i + 16];
    BytesFit(s);
    BytesFit(t);
    if Block(p, i) == Block(q, i) {
      LittleInjective(s, u);
      LittleInjective(t, v);
      assert p[16 * i..16 * i + 16] == s + t && q[16 * i..16 * i + 16] == u + v;
    }
  }

  /** The two keys agree on every byte outside block `i`; the tail counts as the last block. */
  predicate AgreeOutside(p: seq<Byte>, q: seq<Byte>, i: nat)
    requires |p| == |q|
  {
    forall j | 0 <= j < |p| && j / 16 != i :: p[j] == q[j]
  }

  lemma SameBlock(p: seq<Byte>, q: seq<Byte>, i: nat, j: nat)
    requires |p| == |q| && AgreeOutside(p, q, i) && j != i && 16 * j + 16 <= |p|
    ensures Block(p, j) == Block(q, j)
  {
    hide Little;
    assert p[16 * j..16 * j + 8] == q[16 * j..16 * j + 8];
    assert p[16 * j + 8..16 * j + 16] == q[16 * j + 8..16 * j + 16];
  }

  /** The states agree up to block `i`; from there on they are equal only if the block is. */
  lemma {:induction false} BodiesApart(p: seq<Byte>, q: seq<Byte>, seed: nat, i: nat, n: nat)
    requires |p| == |q| && AgreeOutside(p, q, i) && 16 * n <= |p| && seed < Pow2(W)
    ensures n <= i ==> Body(p, seed, n) == Body(q, seed, n)
    ensures n > i && Body(p, seed, n) == Body(q, seed, n) ==> p[16 * i..16 * i + 16] == q[16 * i..16 * i + 16]
  {
    hide Round, Block, Pow2, AgreeOutside;
    if n > 0 {
      BodiesApart(p, q, seed, i, n - 1);
      BodyFits(p, seed, n - 1);
      BodyFits(q, seed, n - 1);
      if n - 1 == i {
        BlocksApart(p, q, i);
        BlocksApart(q, p, i);
        if Body(p, seed, n) == Body(q, seed, n) {
          RoundKeepsBlocks(Body(p, seed, i), Block(p, i), Block(q, i));
        }
      } else {
        SameBlock(p, q, i, n - 1);
        if Body(p, seed, n) == Body(q, seed, n) {
          RoundKeepsStates(Body(p, seed, n - 1), Body(q, seed, n - 1), Block(p, n - 1));
        }
      }
    }
  }

  lemma SameOutside(p: seq<Byte>, q: seq<Byte>, i: nat)
    requires |p| == |q| && AgreeOutside(p, q, i)
    requires 16 * i + 16 <= |p| ==> p[16 * i..16 * i + 16] == q[16 * i..16 * i + 16]
    requires 16 * i + 16 > |p| ==> Rest(p) == Rest(q)
    ensures p == q
  {
    forall j | 0 <= j < |p|
      ensures p[j] == q[j]
    {
      if j / 16 == i {
        if 16 * i + 16 <= |p| {
          assert p[16 * i..16 * i + 16][j - 16 * i] == q[16 * i..16 * i + 16][j - 16 * i];
        } else {
          assert Rest(p)[j - 16 * i] == Rest(q)[j - 16 * i];
        }
      }
    }
  }

  lemma SameRest(p: seq<Byte>, q: seq<Byte>, i: nat)
    requires |p| == |q| && AgreeOutside(p, q, i) && 16 * i + 16 <= |p|
    ensures Rest(p) == Rest(q)
  {}

  /** Keys of one length that differ only inside one block, or only in the tail, are told apart by their hashes. */
  lemma SingleBlockCollisionFree(p: seq<Byte>, q: seq<Byte>, seed: nat, i: nat)
    requires |p| == |q| < 0x8000_0000 && AgreeOutside(p, q, i) && seed < 0x1_0000_0000
    ensures Hash(p, seed) == Hash(q, seed) <==> p == q
  {
    hide Tail, Final, Body, AgreeOutside, Pow2, Rest;
    var n := |p| / 16;
    SixtyFour();
    if Hash(p, seed) == Hash(q, seed) {
      var h, g := Body(p, seed, n), Body(q, seed, n);
      BodyFits(p, seed, n);
      BodyFits(q, seed, n);
      TailFits(h, Rest(p));
      TailFits(g, Rest(q));
      FinalKeeps(Tail(h, Rest(p)), Tail(g, Rest(q)), |p|);
      BodiesApart(p, q, seed, i, n);
      if i < n {
        SameRest(p, q, i);
        TailKeepsStates(h, g, Rest(p));
      } else {
        TailKeepsBytes(h, Rest(p), Rest(q));
      }
      SameOutside(p, q, i);
    }
  }

  /** Nor do two seeds give one key the same hash. */
  lemma SeedsApart(key: seq<Byte>, s: nat, t: nat)
    requires |key| < 0x8000_0000 && s < 0x1_0000_0000 && t < 0x1_0000_0000 && Hash(key, s) == Hash(key, t)
    ensures s == t
  {
    hide Tail, Final, Body, Pow2, Rest;
    var n := |key| / 16;
    SixtyFour();
    BodyFits(key, s, n);
    BodyFits(key, t, n);
    TailFits(Body(key, s, n), Rest(key));
    TailFits(Body(key, t, n), Rest(key));
    FinalKeeps(Tail(Body(key, s, n), Rest(key)), Tail(Body(key, t, n), Rest(key)), |key|);
    TailKeepsStates(Body(key, s, n), Body(key, t, n), Rest(key));
    SeedsStayApart(key, s, t, n);
  }

  lemma {:induction false} SeedsStayApart(key: seq<Byte>, s: nat, t: nat, n: nat)
    requires 16 * n <= |key| && s < Pow2(W) && t < Pow2(W) && Body(key, s, n) == Body(key, t, n)
    ensures s == t
  {
    hide Round, Block, Pow2;
    if n > 0 {
      BodyFits(key, s, n - 1);
      BodyFits(key, t, n - 1);
      RoundKeepsStates(Body(key, s, n - 1), Body(key, t, n - 1), Block(key, n - 1));
      SeedsStayApart(key, s, t, n - 1);
    }
  }
}
