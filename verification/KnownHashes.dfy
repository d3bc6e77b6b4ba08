/**
 Known answers. The published hashes of "The quick brown fox jumps over the lazy dog", two blocks and a tail of eleven
 bytes, and of the empty key with seed 1, worked out word by word: no constant, shift or rotation can be another one.
 */
module KnownHashes {
  import opened Words
  import opened WordLiterals
  import Murmur32
  import Murmur64

  // ----- the key -----

  function Ascii(s: string): (k: seq<Byte>)
    ensures |k| == |s|
  {
    seq(|s|, i requires 0 <= i < |s| => s[i] as nat % 256)
  }

  /** The bytes of pieces of text, one after the other. */
  function Text(ss: seq<string>): seq<Byte> {
    if ss == [] then [] else Ascii(ss[0]) + Text(ss[1..])
  }

  const FOX := ["The ", "quic", "k br", "own ", "fox ", "jump", "s ov", "er t", "he l", "azy ", "dog"]

  /** Where the pieces are, if all but the last are four bytes long. */
  lemma {:induction false} PieceAt(ss: seq<string>, i: nat)
    requires i < |ss| && forall j :: 0 <= j < |ss| - 1 ==> |ss[j]| == 4
    ensures |Text(ss)| == 4 * |ss| - 4 + |ss[|ss| - 1]|
    ensures 4 * i + |ss[i]| <= |Text(ss)| && Text(ss)[4 * i..4 * i + |ss[i]|] == Ascii(ss[i])
  {
    if |ss| > 1 {
      PieceAt(ss[1..], if i == 0 then 0 else i - 1);
    }
  }

  lemma FirstByte(t: seq<Byte>, i: nat)
    requires i < |t|
    ensures Little(t[i..]) == t[i] + 256 * Little(t[i + 1..])
  {
    assert t[i..][1..] == t[i + 1..];
  }

  lemma Letters(s: string)
    requires |s| == 3 || |s| == 4
    ensures Little(Ascii(s)) == s[0] as nat % 256 + 0x100 * (s[1] as nat % 256) + 0x1_0000 * (s[2] as nat % 256) +
      if |s| == 4 then 0x100_0000 * (s[3] as nat % 256) else 0
  {
    hide Little;
    var t := Ascii(s);
    FirstByte(t, 0);
    FirstByte(t, 1);
    FirstByte(t, 2);
    if |s| == 4 { FirstByte(t, 3); }
    assert t[0..] == t && Little([]) == 0 by { NoByte(); }
    assert t[|s|..] == [];
  }

  lemma NoByte()
    ensures Little([]) == 0
  {}

  lemma {:induction false} LittleJoin(s: seq<Byte>, t: seq<Byte>)
    ensures Little(s + t) == Little(s) + Shl(Little(t), 8 * |s|)
  {
    hide Shl;
    if s == [] {
      assert s + t == t;
      NoShift(Little(t));
    } else {
      LittleJoin(s[1..], t);
      assert (s + t)[1..] == s[1..] + t;
      ShlTwice(Little(t), 8 * |s| - 8, 8);
      EightTwice(Shl(Little(t), 8 * |s| - 8));
    }
  }

  lemma NoShift(x: nat)
    ensures Shl(x, 0) == x
  {}

  /** The words of four bytes the key is made of. */
  lemma FoxWords()
    ensures |Text(FOX)| == 43 && Little(Text(FOX)[0..4]) == 0x2065_6854 && Little(Text(FOX)[4..8]) == 0x6369_7571
    ensures Little(Text(FOX)[8..12]) == 0x7262_206b && Little(Text(FOX)[12..16]) == 0x206e_776f
  {
    hide Ascii, Little, Text;
    PieceAt(FOX, 0);
    Letters("The ");
    PieceAt(FOX, 1);
    Letters("quic");
    PieceAt(FOX, 2);
    Letters("k br");
    PieceAt(FOX, 3);
    Letters("own ");
  }

  lemma MoreFoxWords()
    ensures |Text(FOX)| == 43 && Little(Text(FOX)[16..20]) == 0x2078_6f66 && Little(Text(FOX)[20..24]) == 0x706d_756a
    ensures Little(Text(FOX)[24..28]) == 0x766f_2073 && Little(Text(FOX)[28..32]) == 0x7420_7265
  {
    hide Ascii, Little, Text;
    PieceAt(FOX, 4);
    Letters("fox ");
    PieceAt(FOX, 5);
    Letters("jump");
    PieceAt(FOX, 6);
    Letters("s ov");
    PieceAt(FOX, 7);
    Letters("er t");
  }

  lemma LastFoxWords()
    ensures |Text(FOX)| == 43 && Little(Text(FOX)[32..36]) == 0x6c20_6568 && Little(Text(FOX)[36..40]) == 0x2079_7a61
    ensures Little(Text(FOX)[40..]) == 0x67_6f64
  {
    hide Ascii, Little, Text;
    PieceAt(FOX, 8);
    Letters("he l");
    PieceAt(FOX, 9);
    Letters("azy ");
    PieceAt(FOX, 10);
    Letters("dog");
    assert Text(FOX)[40..] == Text(FOX)[40..43];
  }

  // ----- shifts and rotations by a known number of bits -----

  lemma Powers()
    ensures Pow2(13) == 0x2000 && Pow2(15) == 0x8000 && Pow2(16) == 0x1_0000 && Pow2(17) == 0x2_0000
    ensures Pow2(19) == 0x8_0000 && Pow2(27) == 0x800_0000 && Pow2(31) == 0x8000_0000 && Pow2(32) == 0x1_0000_0000
    ensures Pow2(33) == 0x2_0000_0000 && Pow2(37) == 0x20_0000_0000 && Pow2(64) == 0x1_0000_0000_0000_0000
  {
    Murmur64.SixtyFour();
    Byteful(0);
    Byteful(8);
    Byteful(5);
    Byteful(7);
    Byteful(9);
    Byteful(11);
    Byteful(19);
    Byteful(23);
    Byteful(25);
    Byteful(29);
  }

  lemma Wraps32()
    ensures forall x: nat, y: nat {:trigger Plus(x, y, 32)} :: Plus(x, y, 32) == (x + y) % 0x1_0000_0000
    ensures forall x: nat, y: nat {:trigger Times(x, y, 32)} :: Times(x, y, 32) == x * y % 0x1_0000_0000
  {
    Murmur64.SixtyFour();
  }

  lemma Wraps64()
    ensures forall x: nat, y: nat {:trigger Plus(x, y, 64)} :: Plus(x, y, 64) == (x + y) % 0x1_0000_0000_0000_0000
    ensures forall x: nat, y: nat {:trigger Times(x, y, 64)} :: Times(x, y, 64) == x * y % 0x1_0000_0000_0000_0000
  {
    Murmur64.SixtyFour();
  }

  lemma AllRotl(r: nat, w: nat)
    requires r <= w
    ensures forall x: nat {:trigger Rotl(x, r, w)} :: x < Pow2(w) ==>
      Rotl(x, r, w) == x % Pow2(w - r) * Pow2(r) + x / Pow2(w - r)
  {
    forall x: nat | x < Pow2(w) ensures Rotl(x, r, w) == x % Pow2(w - r) * Pow2(r) + x / Pow2(w - r) {
      RotlIs(x, r, w);
    }
  }

  lemma AllShr(n: nat)
    ensures forall x: nat {:trigger Shr(x, n)} :: Shr(x, n) == x / Pow2(n)
  {
    forall x: nat ensures Shr(x, n) == x / Pow2(n) { ShrIs(x, n); }
  }

  // ----- 32 bits -----

  /** The exclusive ors on the way to the hash of 32 bits. */
  lemma Exclusives32()
    ensures Xor(0, 0xb0ba_3006) == 0xb0ba_3006 && Xor(0x4458_99d7, 0x1388_46a0) == 0x57d0_df77
    ensures Xor(0x71ff_0246, 0x533c_ae6c) == 0x22c3_ac2a && Xor(0x31ee_c11c, 0xa122_a74e) == 0x90cc_6652
    ensures Xor(0xa648_05e1, 0xc7ac_3016) == 0x61e4_35f7 && Xor(0x880f_0890, 0xc395_c108) == 0x4b9a_c998
  {
    hide Xor;
    XorWords(0, 0xb0ba_3006);
    XorWords(0x4458_99d7, 0x1388_46a0);
    XorWords(0x71ff_0246, 0x533c_ae6c);
    XorWords(0x31ee_c11c, 0xa122_a74e);
    XorWords(0xa648_05e1, 0xc7ac_3016);
    XorWords(0x880f_0890, 0xc395_c108);
  }

  lemma MoreExclusives32()
    ensures Xor(0xa453_9aa3, 0x19ef_4671) == 0xbdbc_dcd2 && Xor(0xf058_21f7, 0xb59b_61ae) == 0x45c3_4059
    ensures Xor(0xee8c_36fc, 0x595f_e4f3) == 0xb7d3_d20f && Xor(0x499e_3e46, 0xe5e2_91b8) == 0xac7c_affe
    ensures Xor(0xd453_972f, 0xb727_f739) == 0x6374_6016 && Xor(0x6374_6016, 0x2b) == 0x6374_603d
  {
    hide Xor;
    XorWords(0xa453_9aa3, 0x19ef_4671);
    XorWords(0xf058_21f7, 0xb59b_61ae);
    XorWords(0xee8c_36fc, 0x595f_e4f3);
    XorWords(0x499e_3e46, 0xe5e2_91b8);
    XorWords(0xd453_972f, 0xb727_f739);
    XorWords(0x6374_6016, 0x2b);
  }

  /** The products on the way. */
  lemma Products32()
    ensures Times(0x2065_6854, 0xcc9e_2d51, 32) == 0x6744_c694 && Times(0x634a_33a2, 0x1b87_3593, 32) == 0xb0ba_3006
    ensures Times(0x6369_7571, 0xcc9e_2d51, 32) == 0x85c1_05c1 && Times(0x82e0_c2e0, 0x1b87_3593, 32) == 0x1388_46a0
    ensures Times(0x7262_206b, 0xcc9e_2d51, 32) == 0xb6c9_10db && Times(0x886d_db64, 0x1b87_3593, 32) == 0x533c_ae6c
    ensures Times(0x206e_776f, 0xcc9e_2d51, 32) == 0xd874_4d1f && Times(0x268f_ec3a, 0x1b87_3593, 32) == 0xa122_a74e
    ensures Times(0x2078_6f66, 0xcc9e_2d51, 32) == 0x7aa4_2d46 && Times(0x16a3_3d52, 0x1b87_3593, 32) == 0xc7ac_3016
    ensures Times(0x706d_756a, 0xcc9e_2d51, 32) == 0xbfb1_c88a && Times(0xe445_5fd8, 0x1b87_3593, 32) == 0xc395_c108
    ensures Times(0x766f_2073, 0xcc9e_2d51, 32) == 0xacd7_7b63 && Times(0xbdb1_d66b, 0x1b87_3593, 32) == 0x19ef_4671
    ensures Times(0x7420_7265, 0xcc9e_2d51, 32) == 0x88b5_f2f5 && Times(0xf97a_c45a, 0x1b87_3593, 32) == 0xb59b_61ae
    ensures Times(0x6c20_6568, 0xcc9e_2d51, 32) == 0x5e43_5de8 && Times(0xaef4_2f21, 0x1b87_3593, 32) == 0x595f_e4f3
    ensures Times(0x2079_7a61, 0xcc9e_2d51, 32) == 0x74d0_c5b1 && Times(0x62d8_ba68, 0x1b87_3593, 32) == 0xe5e2_91b8
    ensures Times(0x67_6f64, 0xcc9e_2d51, 32) == 0xbf06_d2a4 && Times(0x6952_5f83, 0x1b87_3593, 32) == 0xb727_f739
    ensures Times(0x4600_d617, 5, 32) == 0x5e04_2e73 && Times(0x1bee_eafa, 5, 32) == 0x8baa_96e2
    ensures Times(0x7585_4458, 5, 32) == 0x4b9a_55b8 && Times(0x8cca_5219, 5, 32) == 0xbff3_9a7d
    ensures Times(0x86be_ec3c, 5, 32) == 0xa1ba_9d2c && Times(0x5933_0973, 5, 32) == 0xbdff_2f3f
    ensures Times(0x9b9a_57b7, 5, 32) == 0xa03_b693 && Times(0x680b_28b8, 5, 32) == 0x837_cb98
    ensures Times(0x7a41_f6fa, 5, 32) == 0x6349_d2e2 && Times(0x95ff_d58f, 5, 32) == 0xedff_2bcb
  {
    hide Pow2, Times;
    Wraps32();
  }

  /** The rotations on the way. */
  lemma Rotations32()
    ensures Rotl(0x6744_c694, 15, 32) == 0x634a_33a2 && Rotl(0xb0ba_3006, 13, 32) == 0x4600_d617
    ensures Rotl(0x85c1_05c1, 15, 32) == 0x82e0_c2e0 && Rotl(0x57d0_df77, 13, 32) == 0x1bee_eafa
    ensures Rotl(0xb6c9_10db, 15, 32) == 0x886d_db64 && Rotl(0x22c3_ac2a, 13, 32) == 0x7585_4458
    ensures Rotl(0xd874_4d1f, 15, 32) == 0x268f_ec3a && Rotl(0x90cc_6652, 13, 32) == 0x8cca_5219
    ensures Rotl(0x7aa4_2d46, 15, 32) == 0x16a3_3d52 && Rotl(0x61e4_35f7, 13, 32) == 0x86be_ec3c
    ensures Rotl(0xbfb1_c88a, 15, 32) == 0xe445_5fd8 && Rotl(0x4b9a_c998, 13, 32) == 0x5933_0973
    ensures Rotl(0xacd7_7b63, 15, 32) == 0xbdb1_d66b && Rotl(0xbdbc_dcd2, 13, 32) == 0x9b9a_57b7
    ensures Rotl(0x88b5_f2f5, 15, 32) == 0xf97a_c45a && Rotl(0x45c3_4059, 13, 32) == 0x680b_28b8
    ensures Rotl(0x5e43_5de8, 15, 32) == 0xaef4_2f21 && Rotl(0xb7d3_d20f, 13, 32) == 0x7a41_f6fa
    ensures Rotl(0x74d0_c5b1, 15, 32) == 0x62d8_ba68 && Rotl(0xac7c_affe, 13, 32) == 0x95ff_d58f
    ensures Rotl(0xbf06_d2a4, 15, 32) == 0x6952_5f83
  {
    hide Pow2, Rotl;
    Powers();
    AllRotl(13, 32);
    AllRotl(15, 32);
  }

  lemma Mixes32()
    ensures Murmur32.Mix1(0x2065_6854) == 0xb0ba_3006 && Murmur32.Mix1(0x6369_7571) == 0x1388_46a0
    ensures Murmur32.Mix1(0x7262_206b) == 0x533c_ae6c && Murmur32.Mix1(0x206e_776f) == 0xa122_a74e
    ensures Murmur32.Mix1(0x2078_6f66) == 0xc7ac_3016 && Murmur32.Mix1(0x706d_756a) == 0xc395_c108
    ensures Murmur32.Mix1(0x766f_2073) == 0x19ef_4671 && Murmur32.Mix1(0x7420_7265) == 0xb59b_61ae
    ensures Murmur32.Mix1(0x6c20_6568) == 0x595f_e4f3 && Murmur32.Mix1(0x2079_7a61) == 0xe5e2_91b8
    ensures Murmur32.Mix1(0x67_6f64) == 0xb727_f739
  {
    hide Times, Rotl;
    Products32();
    Rotations32();
  }

  lemma Turns32()
    ensures Murmur32.Round(0, 0x2065_6854) == 0x4458_99d7 && Murmur32.Round(0x4458_99d7, 0x6369_7571) == 0x71ff_0246
    ensures Murmur32.Round(0x71ff_0246, 0x7262_206b) == 0x31ee_c11c
    ensures Murmur32.Round(0x31ee_c11c, 0x206e_776f) == 0xa648_05e1
    ensures Murmur32.Round(0xa648_05e1, 0x2078_6f66) == 0x880f_0890
    ensures Murmur32.Round(0x880f_0890, 0x706d_756a) == 0xa453_9aa3
    ensures Murmur32.Round(0xa453_9aa3, 0x766f_2073) == 0xf058_21f7
    ensures Murmur32.Round(0xf058_21f7, 0x7420_7265) == 0xee8c_36fc
    ensures Murmur32.Round(0xee8c_36fc, 0x6c20_6568) == 0x499e_3e46
    ensures Murmur32.Round(0x499e_3e46, 0x2079_7a61) == 0xd453_972f
  {
    hide Pow2, Rotl, Xor, Mix, Times, Plus;
    Wraps32();
    Exclusives32();
    MoreExclusives32();
    Mixes32();
    Rotations32();
    Products32();
  }

  lemma Tail32()
    ensures Xor(0xd453_972f, Murmur32.Mix1(0x67_6f64)) == 0x6374_6016
  {
    hide Mix, Xor;
    Exclusives32();
    MoreExclusives32();
    Mixes32();
  }

  /** The end. */
  lemma Shifts32()
    ensures Shr(0x6374_603d, 16) == 0x6374 && Shr(0xd17_f983, 13) == 0x68bf && Shr(0x2e4f_d96c, 16) == 0x2e4f
  {
    hide Pow2, Shr, Low;
    Powers();
    AllShr(13);
    AllShr(16);
  }

  lemma Folds32()
    ensures Xor(0x6374_603d, 0x6374) == 0x6374_0349 && Xor(0xd17_f983, 0x68bf) == 0xd17_913c
    ensures Xor(0x2e4f_d96c, 0x2e4f) == 0x2e4f_f723
  {
    hide Xor;
    XorWords(0x6374_603d, 0x6374);
    XorWords(0xd17_f983, 0x68bf);
    XorWords(0x2e4f_d96c, 0x2e4f);
  }

  lemma Factors32()
    ensures Times(0x6374_0349, 0x85eb_ca6b, 32) == 0xd17_f983 && Times(0xd17_913c, 0xc2b2_ae35, 32) == 0x2e4f_d96c
  {
    hide Pow2, Times;
    Wraps32();
  }

  lemma End32()
    ensures Murmur32.Avalanche(0x6374_603d) == 0x2e4f_f723
  {
    hide Xor, Shr, Times;
    Factors32();
    Shifts32();
    Folds32();
  }

  /** The end for the empty key with seed 1. */
  lemma SeedShifts32()
    ensures Shr(1, 16) == 0 && Shr(0x85eb_ca6b, 13) == 0x4_2f5e && Shr(0x514e_79f9, 16) == 0x514e
  {
    hide Pow2, Shr, Low;
    Powers();
    AllShr(13);
    AllShr(16);
  }

  lemma SeedFolds32()
    ensures Xor(1, 0) == 1 && Xor(0x85eb_ca6b, 0x4_2f5e) == 0x85ef_e535 && Xor(0x514e_79f9, 0x514e) == 0x514e_28b7
  {
    hide Xor;
    XorWords(1, 0);
    XorWords(0x85eb_ca6b, 0x4_2f5e);
    XorWords(0x514e_79f9, 0x514e);
  }

  lemma SeedFactors32()
    ensures Times(1, 0x85eb_ca6b, 32) == 0x85eb_ca6b && Times(0x85ef_e535, 0xc2b2_ae35, 32) == 0x514e_79f9
  {
    hide Pow2, Times;
    Wraps32();
  }

  lemma SeedEnd32()
    ensures Murmur32.Avalanche(1) == 0x514e_28b7
  {
    hide Xor, Shr, Times;
    SeedFactors32();
    SeedShifts32();
    SeedFolds32();
  }

  /** The published hash of 32 bits. */
  lemma KnownAnswer32()
    ensures Murmur32.Hash(Text(FOX), 0) == 0x2e4f_f723 && Murmur32.Hash([], 1) == 0x514e_28b7
  {
    hide Text, Little, Murmur32.Round, Murmur32.Avalanche, Murmur32.Mix1, Xor;
    var key := Text(FOX);
    FoxWords();
    MoreFoxWords();
    LastFoxWords();
    Turns32();
    assert Murmur32.Body(key, 0, 1) == 0x4458_99d7;
    assert Murmur32.Body(key, 0, 2) == 0x71ff_0246;
    assert Murmur32.Body(key, 0, 3) == 0x31ee_c11c;
    assert Murmur32.Body(key, 0, 4) == 0xa648_05e1;
    assert Murmur32.Body(key, 0, 5) == 0x880f_0890;
    assert Murmur32.Body(key, 0, 6) == 0xa453_9aa3;
    assert Murmur32.Body(key, 0, 7) == 0xf058_21f7;
    assert Murmur32.Body(key, 0, 8) == 0xee8c_36fc;
    assert Murmur32.Body(key, 0, 9) == 0x499e_3e46;
    assert Murmur32.Body(key, 0, 10) == 0xd453_972f;
    TailIsLittle(Murmur32.Rest(key));
    Tail32();
    Exclusives32();
    MoreExclusives32();
    End32();
    XorZero(1);
    SeedEnd32();
  }

  // ----- 128 bits -----

  /** The exclusive ors on the way to the hash of 128 bits. */
  lemma Exclusives64()
    ensures Xor(0, 0xede9_38f3_5bfb_b35d) == 0xede9_38f3_5bfb_b35d
    ensures Xor(0, 0x9b19_a81a_60aa_0b18) == 0x9b19_a81a_60aa_0b18
    ensures Xor(0x65f_5407_0009_580c, 0x82e3_20fa_65ae_eb7a) == 0x84bc_74fd_65a7_b376
    ensures Xor(0x1185_bfe0_bc38_3732, 0x3480_5824_91ed_f347) == 0x2505_e7c4_2dd5_c475
  {
    hide Xor;
    XorWords(0, 0xede9_38f3_5bfb_b35d);
    XorWords(0, 0x9b19_a81a_60aa_0b18);
    XorWords(0x65f_5407_0009_580c, 0x82e3_20fa_65ae_eb7a);
    XorWords(0x1185_bfe0_bc38_3732, 0x3480_5824_91ed_f347);
  }

  lemma MoreExclusives64()
    ensures Xor(0xef7e_f36e_84b3_6d66, 0xbe2c_c085_7617_1173) == 0x5152_33eb_f2a4_7c15
    ensures Xor(0x2011_2c4d_ac59_411d, 0x307f_8a9b_c938_d855) == 0x106e_a6d6_6561_9948
    ensures Xor(0x5152_33eb_f2a4_7c15, 0x2b) == 0x5152_33eb_f2a4_7c3e
    ensures Xor(0x106e_a6d6_6561_9948, 0x2b) == 0x106e_a6d6_6561_9963
  {
    hide Xor;
    XorWords(0xef7e_f36e_84b3_6d66, 0xbe2c_c085_7617_1173);
    XorWords(0x2011_2c4d_ac59_411d, 0x307f_8a9b_c938_d855);
    XorWords(0x5152_33eb_f2a4_7c15, 0x2b);
    XorWords(0x106e_a6d6_6561_9948, 0x2b);
  }

  /** The products on the way. */
  lemma Products64()
    ensures Times(0x6369_7571_2065_6854, 0x87c3_7b91_1142_53d5, 64) == 0x88af_ee47_4edb_09e4
    ensures Times(0x206e_776f_7262_206b, 0x4cf5_ad43_2745_937f, 64) == 0xbad6_d15c_2122_8615
    ensures Times(0xa76d_84f2_4457_f723, 0x4cf5_ad43_2745_937f, 64) == 0xede9_38f3_5bfb_b35d
    ensures Times(0x4245_0c2b_75ad_a2b8, 0x87c3_7b91_1142_53d5, 64) == 0x9b19_a81a_60aa_0b18
    ensures Times(0x706d_756a_2078_6f66, 0x87c3_7b91_1142_53d5, 64) == 0x4017_930c_8e9e_c1de
    ensures Times(0x7420_7265_766f_2073, 0x4cf5_ad43_2745_937f, 64) == 0xd23f_1255_d4c2_220d
    ensures Times(0x474f_60ef_200b_c986, 0x4cf5_ad43_2745_937f, 64) == 0x82e3_20fa_65ae_eb7a
    ensures Times(0xa984_441b_a47e_24ab, 0x87c3_7b91_1142_53d5, 64) == 0x3480_5824_91ed_f347
    ensures Times(0x2079_7a61_6c20_6568, 0x87c3_7b91_1142_53d5, 64) == 0x5256_d81b_84a5_1788
    ensures Times(0x67_6f64, 0x4cf5_ad43_2745_937f, 64) == 0x4c1c_9940_da3a_ae9c
    ensures Times(0xc252_8bc4_292b_6c0d, 0x4cf5_ad43_2745_937f, 64) == 0xbe2c_c085_7617_1173
    ensures Times(0xb475_5d38_9839_3281, 0x87c3_7b91_1142_53d5, 64) == 0x307f_8a9b_c938_d855
    ensures Times(0x9adf_dd9a_ef6f_49c7, 5, 64) == 0x65f_5406_ad2c_70e3
    ensures Times(0x36b4_5993_4d96_2c19, 5, 64) == 0x1185_bfe0_83ee_dc7d
    ensures Times(0xfcb2_fd7c_705e_1ad9, 5, 64) == 0xef7e_f36e_31d6_863d
    ensures Times(0x669_d5a9_1736_6148, 5, 64) == 0x2011_2c4d_740f_e668
  {
    hide Pow2, Times;
    Wraps64();
  }

  /** The rotations on the way. */
  lemma Rotations64()
    ensures Rotl(0x88af_ee47_4edb_09e4, 31, 64) == 0xa76d_84f2_4457_f723
    ensures Rotl(0xbad6_d15c_2122_8615, 33, 64) == 0x4245_0c2b_75ad_a2b8
    ensures Rotl(0xede9_38f3_5bfb_b35d, 27, 64) == 0x9adf_dd9a_ef6f_49c7
    ensures Rotl(0x9b19_a81a_60aa_0b18, 31, 64) == 0x3055_058c_4d8c_d40d
    ensures Rotl(0x4017_930c_8e9e_c1de, 31, 64) == 0x474f_60ef_200b_c986
    ensures Rotl(0xd23f_1255_d4c2_220d, 33, 64) == 0xa984_441b_a47e_24ab
    ensures Rotl(0x84bc_74fd_65a7_b376, 27, 64) == 0xeb2d_3d9b_b425_e3a7
    ensures Rotl(0x2505_e7c4_2dd5_c475, 31, 64) == 0x16ea_e23a_9282_f3e2
    ensures Rotl(0x5256_d81b_84a5_1788, 31, 64) == 0xc252_8bc4_292b_6c0d
    ensures Rotl(0x4c1c_9940_da3a_ae9c, 33, 64) == 0xb475_5d38_9839_3281
  {
    hide Pow2, Rotl;
    Powers();
    AllRotl(27, 64);
    AllRotl(31, 64);
    AllRotl(33, 64);
  }

  lemma Mixes64()
    ensures Murmur64.Mix1(0x6369_7571_2065_6854) == 0xede9_38f3_5bfb_b35d
    ensures Murmur64.Mix1(0x706d_756a_2078_6f66) == 0x82e3_20fa_65ae_eb7a
    ensures Murmur64.Mix1(0x2079_7a61_6c20_6568) == 0xbe2c_c085_7617_1173
    ensures Murmur64.Mix2(0x206e_776f_7262_206b) == 0x9b19_a81a_60aa_0b18
    ensures Murmur64.Mix2(0x7420_7265_766f_2073) == 0x3480_5824_91ed_f347
    ensures Murmur64.Mix2(0x67_6f64) == 0x307f_8a9b_c938_d855
  {
    hide Times, Rotl;
    Products64();
    Rotations64();
  }

  lemma Turns64()
    ensures Murmur64.Round(Murmur64.Pair(0, 0),
                           Murmur64.Pair(0x6369_7571_2065_6854, 0x206e_776f_7262_206b)) ==
      Murmur64.Pair(0x65f_5407_0009_580c, 0x1185_bfe0_bc38_3732)
    ensures Murmur64.Round(Murmur64.Pair(0x65f_5407_0009_580c, 0x1185_bfe0_bc38_3732),
                           Murmur64.Pair(0x706d_756a_2078_6f66, 0x7420_7265_766f_2073)) ==
      Murmur64.Pair(0xef7e_f36e_84b3_6d66, 0x2011_2c4d_ac59_411d)
  {
    hide Pow2, Rotl, Xor, Mix, Times, Plus;
    Wraps64();
    Exclusives64();
    MoreExclusives64();
    Mixes64();
    Rotations64();
    Products64();
  }

  /** The end. */
  lemma Shifts64()
    ensures Shr(0x61c0_dac2_5806_15a1, 33) == 0x30e0_6d61 && Shr(0x7796_5a9b_e257_b1c0, 33) == 0x3bcb_2d4d
    ensures Shr(0x4c54_3c4d_9559_bdb7, 33) == 0x262a_1e26 && Shr(0x722f_8198_bd67_af04, 33) == 0x3917_c0cc
    ensures Shr(0x5249_d958_d092_e328, 33) == 0x2924_ecac && Shr(0x96f7_802e_43e8_b7cc, 33) == 0x4b7b_c017
  {
    hide Pow2, Shr, Low;
    Powers();
    AllShr(33);
  }

  lemma Folds64()
    ensures Xor(0x61c0_dac2_5806_15a1, 0x30e0_6d61) == 0x61c0_dac2_68e6_78c0
    ensures Xor(0x7796_5a9b_e257_b1c0, 0x3bcb_2d4d) == 0x7796_5a9b_d99c_9c8d
    ensures Xor(0x4c54_3c4d_9559_bdb7, 0x262a_1e26) == 0x4c54_3c4d_b373_a391
  {
    hide Xor;
    XorWords(0x61c0_dac2_5806_15a1, 0x30e0_6d61);
    XorWords(0x7796_5a9b_e257_b1c0, 0x3bcb_2d4d);
    XorWords(0x4c54_3c4d_9559_bdb7, 0x262a_1e26);
  }

  lemma MoreFolds64()
    ensures Xor(0x722f_8198_bd67_af04, 0x3917_c0cc) == 0x722f_8198_8470_6fc8
    ensures Xor(0x5249_d958_d092_e328, 0x2924_ecac) == 0x5249_d958_f9b6_0f84
    ensures Xor(0x96f7_802e_43e8_b7cc, 0x4b7b_c017) == 0x96f7_802e_0893_77db
  {
    hide Xor;
    XorWords(0x722f_8198_bd67_af04, 0x3917_c0cc);
    XorWords(0x5249_d958_d092_e328, 0x2924_ecac);
    XorWords(0x96f7_802e_43e8_b7cc, 0x4b7b_c017);
  }

  lemma Factors64()
    ensures Times(0x61c0_dac2_68e6_78c0, 0xff51_afd7_ed55_8ccd, 64) == 0x7796_5a9b_e257_b1c0
    ensures Times(0x7796_5a9b_d99c_9c8d, 0xc4ce_b9fe_1a85_ec53, 64) == 0x4c54_3c4d_9559_bdb7
    ensures Times(0x722f_8198_8470_6fc8, 0xff51_afd7_ed55_8ccd, 64) == 0x5249_d958_d092_e328
    ensures Times(0x5249_d958_f9b6_0f84, 0xc4ce_b9fe_1a85_ec53, 64) == 0x96f7_802e_43e8_b7cc
  {
    hide Pow2, Times;
    Wraps64();
  }

  lemma Avalanches64()
    ensures Murmur64.Avalanche(0x61c0_dac2_5806_15a1) == 0x4c54_3c4d_b373_a391
    ensures Murmur64.Avalanche(0x722f_8198_bd67_af04) == 0x96f7_802e_0893_77db
  {
    hide Xor, Shr, Times;
    Factors64();
    Shifts64();
    Folds64();
    MoreFolds64();
  }

  lemma End64()
    ensures Murmur64.Final(Murmur64.Pair(0x5152_33eb_f2a4_7c15, 0x106e_a6d6_6561_9948), 43) ==
      Murmur64.Pair(0xe34b_bc7b_bc07_1b6c, 0x7a43_3ca9_c49a_9347)
  {
    hide Pow2, Xor, Fmix, Plus;
    Wraps64();
    Exclusives64();
    MoreExclusives64();
    Avalanches64();
  }

  /** The end for the empty key with seed 1. */
  lemma SeedShifts64()
    ensures Shr(2, 33) == 0 && Shr(0xfea3_5faf_daab_199a, 33) == 0x7f51_afd7
    ensures Shr(0x3abf_2a20_7859_16f7, 33) == 0x1d5f_9510 && Shr(3, 33) == 0
    ensures Shr(0xfdf5_0f87_c800_a667, 33) == 0x7efa_87c3 && Shr(0xb51_81c5_0c50_182c, 33) == 0x5a8_c0e2
  {
    hide Pow2, Shr, Low;
    Powers();
    AllShr(33);
  }

  lemma SeedFolds64()
    ensures Xor(2, 0) == 2 && Xor(0xfea3_5faf_daab_199a, 0x7f51_afd7) == 0xfea3_5faf_a5fa_b64d
    ensures Xor(0x3abf_2a20_7859_16f7, 0x1d5f_9510) == 0x3abf_2a20_6506_83e7
  {
    hide Xor;
    XorWords(2, 0);
    XorWords(0xfea3_5faf_daab_199a, 0x7f51_afd7);
    XorWords(0x3abf_2a20_7859_16f7, 0x1d5f_9510);
  }

  lemma SeedMoreFolds64()
    ensures Xor(3, 0) == 3 && Xor(0xfdf5_0f87_c800_a667, 0x7efa_87c3) == 0xfdf5_0f87_b6fa_21a4
    ensures Xor(0xb51_81c5_0c50_182c, 0x5a8_c0e2) == 0xb51_81c5_09f8_d8ce
  {
    hide Xor;
    XorWords(3, 0);
    XorWords(0xfdf5_0f87_c800_a667, 0x7efa_87c3);
    XorWords(0xb51_81c5_0c50_182c, 0x5a8_c0e2);
  }

  lemma SeedFactors64()
    ensures Times(2, 0xff51_afd7_ed55_8ccd, 64) == 0xfea3_5faf_daab_199a
    ensures Times(0xfea3_5faf_a5fa_b64d, 0xc4ce_b9fe_1a85_ec53, 64) == 0x3abf_2a20_7859_16f7
    ensures Times(3, 0xff51_afd7_ed55_8ccd, 64) == 0xfdf5_0f87_c800_a667
    ensures Times(0xfdf5_0f87_b6fa_21a4, 0xc4ce_b9fe_1a85_ec53, 64) == 0xb51_81c5_0c50_182c
  {
    hide Pow2, Times;
    Wraps64();
  }

  lemma SeedAvalanches64()
    ensures Murmur64.Avalanche(2) == 0x3abf_2a20_6506_83e7 && Murmur64.Avalanche(3) == 0xb51_81c5_09f8_d8ce
  {
    hide Xor, Shr, Times;
    SeedFactors64();
    SeedShifts64();
    SeedFolds64();
    SeedMoreFolds64();
  }

  lemma SeedEnd64()
    ensures Murmur64.Final(Murmur64.Pair(1, 1), 0) == Murmur64.Pair(0x4610_abe5_6eff_5cb5, 0x5162_2daa_78f8_3583)
  {
    hide Pow2, Xor, Fmix, Plus;
    Wraps64();
    XorZero(1);
    SeedAvalanches64();
  }

  /** The words of eight bytes. */
  lemma FoxPairs()
    ensures |Text(FOX)| == 43
    ensures Little(Text(FOX)[0..8]) == 0x6369_7571_2065_6854
    ensures Little(Text(FOX)[8..16]) == 0x206e_776f_7262_206b
    ensures Little(Text(FOX)[16..24]) == 0x706d_756a_2078_6f66
    ensures Little(Text(FOX)[24..32]) == 0x7420_7265_766f_2073
    ensures Little(Text(FOX)[32..40]) == 0x2079_7a61_6c20_6568
    ensures Little(Text(FOX)[40..]) == 0x67_6f64
  {
    hide Text, Little, Pow2, Shl;
    var key := Text(FOX);
    Powers();
    FoxWords();
    MoreFoxWords();
    LastFoxWords();
    LittleJoin(key[0..4], key[4..8]);
    assert key[0..4] + key[4..8] == key[0..8];
    ShlIs(0x6369_7571, 32);
    LittleJoin(key[8..12], key[12..16]);
    assert key[8..12] + key[12..16] == key[8..16];
    ShlIs(0x206e_776f, 32);
    LittleJoin(key[16..20], key[20..24]);
    assert key[16..20] + key[20..24] == key[16..24];
    ShlIs(0x706d_756a, 32);
    LittleJoin(key[24..28], key[28..32]);
    assert key[24..28] + key[28..32] == key[24..32];
    ShlIs(0x7420_7265, 32);
    LittleJoin(key[32..36], key[36..40]);
    assert key[32..36] + key[36..40] == key[32..40];
    ShlIs(0x2079_7a61, 32);
  }

  /** The published hash of 128 bits. */
  lemma KnownAnswer64()
    ensures Murmur64.Hash(Text(FOX), 0) == Murmur64.Pair(0xe34b_bc7b_bc07_1b6c, 0x7a43_3ca9_c49a_9347)
    ensures Murmur64.Hash([], 1) == Murmur64.Pair(0x4610_abe5_6eff_5cb5, 0x5162_2daa_78f8_3583)
  {
    hide Text, Little, Murmur64.Round, Murmur64.Final, Murmur64.Mix1, Murmur64.Mix2, Xor;
    var key := Text(FOX);
    FoxPairs();
    Turns64();
    assert Murmur64.Body(key, 0, 1) == Murmur64.Pair(0x65f_5407_0009_580c, 0x1185_bfe0_bc38_3732);
    assert Murmur64.Body(key, 0, 2) == Murmur64.Pair(0xef7e_f36e_84b3_6d66, 0x2011_2c4d_ac59_411d);
    var t := Murmur64.Rest(key);
    assert t[..8] == key[32..40] && t[8..] == key[40..];
    TailIsLittle(t[..8]);
    TailIsLittle(t[8..]);
    Mixes64();
    Exclusives64();
    MoreExclusives64();
    End64();
    SeedEnd64();
  }
}
