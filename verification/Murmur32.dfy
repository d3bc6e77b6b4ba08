/**
 MurmurHash3_x86_32: the hash of a key, and that no two keys of one length share it when they differ in a single
 4-byte block, or only in the tail.
 */
module Murmur32 {
  import opened Words

  const W := 32
  const C1 := 0xcc9e2d51
  const C2 := 0x1b873593
  const FMIX1 := 0x85ebca6b
  const FMIX2 := 0xc2b2ae35

  function Mix1(k: nat): (m: nat)
    ensures m < Pow2(W)
  {
    Mix(k, C1, 15, C2, W)
  }

  function Avalanche(h: nat): (r: nat)
    ensures r < Pow2(W)
  {
    FmixBelow(h, 16, FMIX1, 13, FMIX2, 16, W);
    Fmix(h, 16, FMIX1, 13, FMIX2, 16, W)
  }

  /** One turn of the loop over the blocks. */
  function Round(h: nat, k: nat): (n: nat)
    ensures n < Pow2(W)
  {
    Scale(Absorb(h, Mix1(k), 13, W), 0xe6546b64, W)
  }

  /** The state after `n` blocks. */
  function Body(key: seq<Byte>, seed: nat, n: nat): nat
    requires 4 * n <= |key|
  {
    if n == 0 then seed else Round(Body(key, seed, n - 1), Little(key[4 * (n - 1)..4 * n]))
  }

  /** The bytes that do not fill a block. */
  function Rest(key: seq<Byte>): (t: seq<Byte>)
    ensures |t| == |key| % 4
  {
    key[|key| / 4 * 4..]
  }

  /** The switch over the tail. */
  function Tail(h: nat, t: seq<Byte>): nat {
    if |t| > 0 then Xor(h, Mix1(Down(t, 0))) else h
  }

  function Hash(key: seq<Byte>, seed: nat): (n: nat)
    ensures n < Pow2(W)
  {
    Avalanche(Xor(Tail(Body(key, seed, |key| / 4), Rest(key)), |key|))
  }

  /** The routine: a loop over the blocks that counts up to 0, then the tail and the end. */
  method Murmur(key: seq<Byte>, seed: nat) returns (out: nat)
    ensures out == Hash(key, seed)
  {
    hide Times, Plus, Rotl, Xor, Little, Pow2, Avalanche, Tail, Rest;
    var blocks := |key| / 4;
    var h1 := seed;
    var i: int := -blocks;
    while i != 0
      invariant -blocks <= i <= 0
      invariant h1 == Body(key, seed, blocks + i)
      decreases -i
    {
      var at := 4 * (blocks + i);
      var k1 := Little(key[at..at + 4]);
      k1 := Times(Rotl(Times(k1, C1, W), 15, W), C2, W);
      h1 := Xor(h1, k1);
      h1 := Rotl(h1, 13, W);
      h1 := Plus(Times(h1, 5, W), 0xe6546b64, W);
      i := i + 1;
    }
    out := Avalanche(Xor(Tail(h1, Rest(key)), |key|));
  }

  // ----- nothing is lost on the way -----

  lemma ThirtyTwo()
    ensures Pow2(W) == 0x1_0000_0000
  {
    Byteful(0);
    Byteful(8);
    Byteful(16);
    Byteful(24);
  }

  lemma Inverses()
    ensures Inverse(C1, 0xdee13bb1, W) && Inverse(C2, 0x56ed309b, W)
    ensures Inverse(FMIX1, 0xa5cb9243, W) && Inverse(FMIX2, 0x7ed1b41d, W)
    ensures Inverse(5, 0xcccccccd, W)
  {
    ThirtyTwo();
  }

  /** With one block, different states stay different. */
  lemma RoundKeepsStates(h: nat, g: nat, k: nat)
    requires h < Pow2(W) && g < Pow2(W) && Round(h, k) == Round(g, k)
    ensures h == g
  {
    hide Scale, Absorb, Xor, Mix1, Pow2, Inverse;
    Inverses();
    AbsorbBelow(h, Mix1(k), 13, W);
    AbsorbBelow(g, Mix1(k), 13, W);
    ScaleInjective(Absorb(h, Mix1(k), 13, W), Absorb(g, Mix1(k), 13, W), 0xe6546b64, 0xcccccccd, W);
    AbsorbInjective(h, Mix1(k), g, Mix1(k), 13, W);
    XorInjective(h, g, Mix1(k));
  }

  /** Four bytes at most make a word, and mixing keeps different words different. */
  lemma WordsApart(h: nat, s: seq<Byte>, t: seq<Byte>)
    requires |s| == |t| <= 4 && Xor(h, Mix1(Little(s))) == Xor(h, Mix1(Little(t)))
    ensures s == t
  {
    hide Mix, Xor, Little, Pow2, Inverse;
    XorInjective(Mix1(Little(s)), Mix1(Little(t)), h);
    LittleBelow(s);
    LittleBelow(t);
    Grows(8 * |s|, W);
    Inverses();
    MixInjective(Little(s), Little(t), C1, 15, C2, 0xdee13bb1, 0x56ed309b, W);
    LittleInjective(s, t);
  }

  /** From one state, different blocks lead to different states. */
  lemma RoundKeepsBlocks(h: nat, s: seq<Byte>, t: seq<Byte>)
    requires h < Pow2(W) && |s| == |t| == 4 && Round(h, Little(s)) == Round(h, Little(t))
    ensures s == t
  {
    hide Scale, Absorb, Xor, Mix1, Pow2, Inverse, Little;
    var m, n := Mix1(Little(s)), Mix1(Little(t));
    Inverses();
    AbsorbBelow(h, m, 13, W);
    AbsorbBelow(h, n, 13, W);
    ScaleInjective(Absorb(h, m, 13, W), Absorb(h, n, 13, W), 0xe6546b64, 0xcccccccd, W);
    AbsorbInjective(h, m, h, n, 13, W);
    WordsApart(h, s, t);
  }

  /** The end of the routine maps different states to different results. */
  lemma FinalKeeps(h: nat, g: nat, length: nat)
    requires h < Pow2(W) && g < Pow2(W) && length < Pow2(W)
    requires Avalanche(Xor(h, length)) == Avalanche(Xor(g, length))
    ensures h == g
  {
    hide Fmix, Pow2, Inverse, Xor;
    Inverses();
    XorBelow(h, length, W);
    XorBelow(g, length, W);
    FmixInjective(Xor(h, length), Xor(g, length), 16, FMIX1, 13, FMIX2, 16, 0xa5cb9243, 0x7ed1b41d, W);
    XorInjective(h, g, length);
  }

  lemma TailFits(h: nat, t: seq<Byte>)
    requires h < Pow2(W)
    ensures Tail(h, t) < Pow2(W)
  {
    hide Mix1, Xor, Pow2, Down;
    XorBelow(h, Mix1(Down(t, 0)), W);
  }

  /** With one tail, different states stay different. */
  lemma TailKeepsStates(h: nat, g: nat, t: seq<Byte>)
    requires Tail(h, t) == Tail(g, t)
    ensures h == g
  {
    hide Mix1, Xor, Down;
    XorInjective(h, g, if |t| > 0 then Mix1(Down(t, 0)) else 0);
  }

  /** From one state, different tails of one length lead to different states. */
  lemma TailKeepsBytes(h: nat, s: seq<Byte>, t: seq<Byte>)
    requires |s| == |t| < 4 && Tail(h, s) == Tail(h, t)
    ensures s == t
  {
    hide Mix1, Xor, Down, Little;
    if |s| > 0 {
      TailIsLittle(s);
      TailIsLittle(t);
      WordsApart(h, s, t);
    }
  }

  // ----- whole keys -----

  lemma BodyFits(key: seq<Byte>, seed: nat, n: nat)
    requires 4 * n <= |key| && seed < Pow2(W)
    ensures Body(key, seed, n) < Pow2(W)
  {
    hide Round, Pow2;
  }

  /** The two keys agree on every byte outside block `i`; the tail counts as the last block. */
  predicate AgreeOutside(p: seq<Byte>, q: seq<Byte>, i: nat)
    requires |p| == |q|
  {
    forall j | 0 <= j < |p| && j / 4 != i :: p[j] == q[j]
  }

  lemma SameBlock(p: seq<Byte>, q: seq<Byte>, i: nat, j: nat)
    requires |p| == |q| && AgreeOutside(p, q, i) && j != i && 4 * j + 4 <= |p|
    ensures p[4 * j..4 * (j + 1)] == q[4 * j..4 * (j + 1)]
  {}

  /** The states agree up to block `i`; from there on they are equal only if the block is. */
  lemma {:induction false} BodiesApart(p: seq<Byte>, q: seq<Byte>, seed: nat, i: nat, n: nat)
    requires |p| == |q| && AgreeOutside(p, q, i) && 4 * n <= |p| && seed < Pow2(W)
    ensures n <= i ==> Body(p, seed, n) == Body(q, seed, n)
    ensures n > i && Body(p, seed, n) == Body(q, seed, n) ==> p[4 * i..4 * (i + 1)] == q[4 * i..4 * (i + 1)]
  {
    hide Round, Little, Pow2, AgreeOutside;
    if n > 0 {
      BodiesApart(p, q, seed, i, n - 1);
      BodyFits(p, seed, n - 1);
      BodyFits(q, seed, n - 1);
      if n - 1 == i {
        if Body(p, seed, n) == Body(q, seed, n) {
          RoundKeepsBlocks(Body(p, seed, i), p[4 * i..4 * (i + 1)], q[4 * i..4 * (i + 1)]);
        }
      } else {
        SameBlock(p, q, i, n - 1);
        if Body(p, seed, n) == Body(q, seed, n) {
          RoundKeepsStates(Body(p, seed, n - 1), Body(q, seed, n - 1), Little(p[4 * (n - 1)..4 * n]));
        }
      }
    }
  }

  lemma SameOutside(p: seq<Byte>, q: seq<Byte>, i: nat)
    requires |p| == |q| && AgreeOutside(p, q, i)
    requires 4 * i + 4 <= |p| ==> p[4 * i..4 * (i + 1)] == q[4 * i..4 * (i + 1)]
    requires 4 * i + 4 > |p| ==> Rest(p) == Rest(q)
    ensures p == q
  {
    forall j | 0 <= j < |p|
      ensures p[j] == q[j]
    {
      if j / 4 == i {
        if 4 * i + 4 <= |p| {
          assert p[4 * i..4 * (i + 1)][j - 4 * i] == q[4 * i..4 * (i + 1)][j - 4 * i];
        } else {
          assert Rest(p)[j - 4 * i] == Rest(q)[j - 4 * i];
        }
      }
    }
  }

  lemma SameRest(p: seq<Byte>, q: seq<Byte>, i: nat)
    requires |p| == |q| && AgreeOutside(p, q, i) && 4 * i + 4 <= |p|
    ensures Rest(p) == Rest(q)
  {}

  /** Keys of one length that differ only inside one block, or only in the tail, are told apart by their hashes. */
  lemma SingleBlockCollisionFree(p: seq<Byte>, q: seq<Byte>, seed: nat, i: nat)
    requires |p| == |q| < 0x8000_0000 && AgreeOutside(p, q, i) && seed < 0x1_0000_0000
    ensures Hash(p, seed) == Hash(q, seed) <==> p == q
  {
    hide Tail, Avalanche, Body, AgreeOutside, Pow2, Rest, Xor;
    var n := |p| / 4;
    ThirtyTwo();
    if Hash(p, seed) == Hash(q, seed) {
      var h, g := Body(p, seed, n), Body(q, seed, n);
      BodyFits(p, seed, n);
      BodyFits(q, seed, n);
      TailFits(h, Rest(p));
      TailFits(g, Rest(q));
      FinalKeeps(Tail(h, Rest(p)), Tail(g, Rest(q)), |p|);
      BodiesApart(p, q, seed, i, n);
      if i < n {
        SameRest(p, q, i);
        TailKeepsStates(h, g, Rest(p));
      } else {
        TailKeepsBytes(h, Rest(p), Rest(q));
      }
      SameOutside(p, q, i);
    }
  }
}
