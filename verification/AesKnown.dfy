/**
  The values FIPS 197 gives: the ten round constants, the start of key expansions of its appendix A, and the
  encryption of its appendix C.1 from key to ciphertext.
 */
module AesKnown {
  import opened Gf256
  import opened AesSpec
  import opened AesTables
  import opened Aes

  // ---------------------------------------------------------------------------------------------
  // The substitution box
  // ---------------------------------------------------------------------------------------------

  /** Whatever multiplies `x` to 1 is its inverse. */
  lemma OnlyInverse(x: bv8, y: bv8)
    requires Mul(x, y) == 1
    ensures Inverse(x) == y
  {
    hide Mul, Pow, Log;
    MulZero(x);
    MulZero(y);
    var k := Log(x) + Log(y);
    MulByLogs(x, y);
    SomePowers();
    PowZero();
    if k % 255 != 0 {
      PowInjective(0, k % 255);
    }
    assert k == 255 || k == 510;
    if k == 510 {
      assert Log(x) == 255 && Log(y) == 255;
    }
  }

  /** A product, written out. */
  function Product(a: bv8, b: bv8): bv8 {
    var a1, b1 := Xtime(a), Half(b);
    var a2, b2 := Xtime(a1), Half(b1);
    var a3, b3 := Xtime(a2), Half(b2);
    var a4, b4 := Xtime(a3), Half(b3);
    var a5, b5 := Xtime(a4), Half(b4);
    var a6, b6 := Xtime(a5), Half(b5);
    var a7, b7 := Xtime(a6), Half(b6);
    Add(Part(a, b), Add(Part(a1, b1), Add(Part(a2, b2), Add(Part(a3, b3),
      Add(Part(a4, b4), Add(Part(a5, b5), Add(Part(a6, b6), Add(Part(a7, b7), 0))))))))
  }

  /** `y` is the inverse of `x`, and `s` what the box makes of it. */
  predicate Entry(x: bv8, y: bv8, s: bv8) {
    (Product(x, y) == 1 || x == y == 0) && Affine(y) == s
  }

  lemma EntryIs(x: bv8, y: bv8, s: bv8)
    requires Entry(x, y, s)
    ensures SBox(x) == s
  {
    hide Mul, Xtime, Half, Part, Add, Affine;
    if x != 0 || y != 0 {
      hide Inverse;
      MulUnrolled(x, y);
      OnlyInverse(x, y);
    }
  }

  // ---------------------------------------------------------------------------------------------
  // Round constants and key expansions
  // ---------------------------------------------------------------------------------------------

  /** The ten round constants. */
  lemma RoundConstants()
    ensures RoundConstant(0) == 0x0100_0000 && RoundConstant(1) == 0x0200_0000
    ensures RoundConstant(2) == 0x0400_0000 && RoundConstant(3) == 0x0800_0000
    ensures RoundConstant(4) == 0x1000_0000 && RoundConstant(5) == 0x2000_0000
    ensures RoundConstant(6) == 0x4000_0000 && RoundConstant(7) == 0x8000_0000
    ensures RoundConstant(8) == 0x1b00_0000 && RoundConstant(9) == 0x3600_0000
  {
    assert Doubled(0) == 0x01 && Doubled(1) == 0x02 && Doubled(2) == 0x04 && Doubled(3) == 0x08;
    assert Doubled(4) == 0x10 && Doubled(5) == 0x20 && Doubled(6) == 0x40 && Doubled(7) == 0x80;
    assert Doubled(8) == 0x1b && Doubled(9) == 0x36;
  }

  /** The start of the 192-bit expansion of appendix A.2. */
  lemma Expansion192(w: seq<bv32>)
    requires |w| == 64 && Expanded(w, 6, 12)
    requires w[0] == 0x8e73b0f7 && w[1] == 0xda0e6452 && w[2] == 0xc810f32b && w[3] == 0x809079e5
    requires w[4] == 0x62f8ead2 && w[5] == 0x522c6b7b
    ensures w[6] == 0xfe0c91f7 && w[7] == 0x2402f5a5 && w[8] == 0xec12068e && w[9] == 0x6c827f6b
    ensures w[10] == 0x0e7a95b9 && w[11] == 0x5c56fec2
  {
    assert SubWord(RotWord(0x522c6b7b)) == 0x717f2100 by {
      hide SBox;
      EntryIs(0x52, 0x05, 0x00);
      EntryIs(0x2c, 0x30, 0x71);
      EntryIs(0x6b, 0xdf, 0x7f);
      EntryIs(0x7b, 0x06, 0x21);
    }
    hide SubWord, RotWord, RoundConstant;
    RoundConstants();
    assert ExpandedAt(w, 6, 6) && ExpandedAt(w, 6, 7) && ExpandedAt(w, 6, 8) && ExpandedAt(w, 6, 9);
    assert ExpandedAt(w, 6, 10) && ExpandedAt(w, 6, 11);
  }

  lemma Expansion256Words()
    ensures SubWord(RotWord(0x0914dff4)) == 0xfa9ebf01 && SubWord(0x2067fcde) == 0xb785b01d
  {
    hide SBox;
    EntryIs(0x09, 0x4f, 0x01);
    EntryIs(0x14, 0x99, 0xfa);
    EntryIs(0xdf, 0x6b, 0x9e);
    EntryIs(0xf4, 0x68, 0xbf);
    EntryIs(0x20, 0x3a, 0xb7);
    EntryIs(0x67, 0x43, 0x85);
    EntryIs(0xfc, 0xcd, 0xb0);
    EntryIs(0xde, 0x90, 0x1d);
  }

  /** The start of the 256-bit expansion of appendix A.3. */
  lemma Expansion256(w: seq<bv32>)
    requires |w| == 64 && Expanded(w, 8, 16)
    requires w[0] == 0x603deb10 && w[1] == 0x15ca71be && w[2] == 0x2b73aef0 && w[3] == 0x857d7781
    requires w[4] == 0x1f352c07 && w[5] == 0x3b6108d7 && w[6] == 0x2d9810a3 && w[7] == 0x0914dff4
    ensures w[8] == 0x9ba35411 && w[9] == 0x8e6925af && w[10] == 0xa51a8b5f && w[11] == 0x2067fcde
    ensures w[12] == 0xa8b09c1a && w[13] == 0x93d194cd && w[14] == 0xbe49846e && w[15] == 0xb75d5b9a
  {
    hide SBox;
    Expansion256Words();
    hide SubWord, RotWord, RoundConstant;
    RoundConstants();
    assert ExpandedAt(w, 8, 8) && ExpandedAt(w, 8, 9) && ExpandedAt(w, 8, 10) && ExpandedAt(w, 8, 11);
    assert ExpandedAt(w, 8, 12) && ExpandedAt(w, 8, 13) && ExpandedAt(w, 8, 14) && ExpandedAt(w, 8, 15);
  }

  lemma Group1(w: seq<bv32>)
    requires |w| == 64 && Expanded(w, 4, 44)
    requires w[0] == 0x00010203 && w[1] == 0x04050607 && w[2] == 0x08090a0b && w[3] == 0x0c0d0e0f
    ensures w[4] == 0xd6aa74fd && w[5] == 0xd2af72fa && w[6] == 0xdaa678f1 && w[7] == 0xd6ab76fe
  {
    assert SubWord(RotWord(0x0c0d0e0f)) == 0xd7ab76fe by {
      hide SBox;
      EntryIs(0x0c, 0xb0, 0xfe);
      EntryIs(0x0d, 0xe1, 0xd7);
      EntryIs(0x0e, 0xe5, 0xab);
      EntryIs(0x0f, 0xc7, 0x76);
    }
    hide SubWord, RotWord, RoundConstant;
    RoundConstants();
    assert ExpandedAt(w, 4, 4) && ExpandedAt(w, 4, 5) && ExpandedAt(w, 4, 6) && ExpandedAt(w, 4, 7);
  }

  lemma Group2(w: seq<bv32>)
    requires |w| == 64 && Expanded(w, 4, 44)
    requires w[4] == 0xd6aa74fd && w[5] == 0xd2af72fa && w[6] == 0xdaa678f1 && w[7] == 0xd6ab76fe
    ensures w[8] == 0xb692cf0b && w[9] == 0x643dbdf1 && w[10] == 0xbe9bc500 && w[11] == 0x6830b3fe
  {
    assert SubWord(RotWord(0xd6ab76fe)) == 0x6238bbf6 by {
      hide SBox;
      EntryIs(0xd6, 0xe2, 0xf6);
      EntryIs(0xab, 0x4a, 0x62);
      EntryIs(0x76, 0xba, 0x38);
      EntryIs(0xfe, 0x41, 0xbb);
    }
    hide SubWord, RotWord, RoundConstant;
    RoundConstants();
    assert ExpandedAt(w, 4, 8) && ExpandedAt(w, 4, 9) && ExpandedAt(w, 4, 10) && ExpandedAt(w, 4, 11);
  }

  lemma Group3(w: seq<bv32>)
    requires |w| == 64 && Expanded(w, 4, 44)
    requires w[8] == 0xb692cf0b && w[9] == 0x643dbdf1 && w[10] == 0xbe9bc500 && w[11] == 0x6830b3fe
    ensures w[12] == 0xb6ff744e && w[13] == 0xd2c2c9bf && w[14] == 0x6c590cbf && w[15] == 0x0469bf41
  {
    assert SubWord(RotWord(0x6830b3fe)) == 0x046dbb45 by {
      hide SBox;
      EntryIs(0x68, 0xf4, 0x45);
      EntryIs(0x30, 0x2c, 0x04);
      EntryIs(0xb3, 0xef, 0x6d);
      EntryIs(0xfe, 0x41, 0xbb);
    }
    hide SubWord, RotWord, RoundConstant;
    RoundConstants();
    assert ExpandedAt(w, 4, 12) && ExpandedAt(w, 4, 13) && ExpandedAt(w, 4, 14) && ExpandedAt(w, 4, 15);
  }

  lemma Group4(w: seq<bv32>)
    requires |w| == 64 && Expanded(w, 4, 44)
    requires w[12] == 0xb6ff744e && w[13] == 0xd2c2c9bf && w[14] == 0x6c590cbf && w[15] == 0x0469bf41
    ensures w[16] == 0x47f7f7bc && w[17] == 0x95353e03 && w[18] == 0xf96c32bc && w[19] == 0xfd058dfd
  {
    assert SubWord(RotWord(0x0469bf41)) == 0xf90883f2 by {
      hide SBox;
      EntryIs(0x04, 0xcb, 0xf2);
      EntryIs(0x69, 0x47, 0xf9);
      EntryIs(0xbf, 0x57, 0x08);
      EntryIs(0x41, 0xfe, 0x83);
    }
    hide SubWord, RotWord, RoundConstant;
    RoundConstants();
    assert ExpandedAt(w, 4, 16) && ExpandedAt(w, 4, 17) && ExpandedAt(w, 4, 18) && ExpandedAt(w, 4, 19);
  }

  lemma Group5(w: seq<bv32>)
    requires |w| == 64 && Expanded(w, 4, 44)
    requires w[16] == 0x47f7f7bc && w[17] == 0x95353e03 && w[18] == 0xf96c32bc && w[19] == 0xfd058dfd
    ensures w[20] == 0x3caaa3e8 && w[21] == 0xa99f9deb && w[22] == 0x50f3af57 && w[23] == 0xadf622aa
  {
    assert SubWord(RotWord(0xfd058dfd)) == 0x6b5d5454 by {
      hide SBox;
      EntryIs(0xfd, 0x1a, 0x54);
      EntryIs(0x05, 0x52, 0x6b);
      EntryIs(0x8d, 0x02, 0x5d);
    }
    hide SubWord, RotWord, RoundConstant;
    RoundConstants();
    assert ExpandedAt(w, 4, 20) && ExpandedAt(w, 4, 21) && ExpandedAt(w, 4, 22) && ExpandedAt(w, 4, 23);
  }

  lemma Group6(w: seq<bv32>)
    requires |w| == 64 && Expanded(w, 4, 44)
    requires w[20] == 0x3caaa3e8 && w[21] == 0xa99f9deb && w[22] == 0x50f3af57 && w[23] == 0xadf622aa
    ensures w[24] == 0x5e390f7d && w[25] == 0xf7a69296 && w[26] == 0xa7553dc1 && w[27] == 0x0aa31f6b
  {
    assert SubWord(RotWord(0xadf622aa)) == 0x4293ac95 by {
      hide SBox;
      EntryIs(0xad, 0xe7, 0x95);
      EntryIs(0xf6, 0x03, 0x42);
      EntryIs(0x22, 0x5a, 0x93);
      EntryIs(0xaa, 0x12, 0xac);
    }
    hide SubWord, RotWord, RoundConstant;
    RoundConstants();
    assert ExpandedAt(w, 4, 24) && ExpandedAt(w, 4, 25) && ExpandedAt(w, 4, 26) && ExpandedAt(w, 4, 27);
  }

  lemma Group7(w: seq<bv32>)
    requires |w| == 64 && Expanded(w, 4, 44)
    requires w[24] == 0x5e390f7d && w[25] == 0xf7a69296 && w[26] == 0xa7553dc1 && w[27] == 0x0aa31f6b
    ensures w[28] == 0x14f9701a && w[29] == 0xe35fe28c && w[30] == 0x440adf4d && w[31] == 0x4ea9c026
  {
    assert SubWord(RotWord(0x0aa31f6b)) == 0x0ac07f67 by {
      hide SBox;
      EntryIs(0x0a, 0x29, 0x67);
      EntryIs(0xa3, 0xc3, 0x0a);
      EntryIs(0x1f, 0xb2, 0xc0);
      EntryIs(0x6b, 0xdf, 0x7f);
    }
    hide SubWord, RotWord, RoundConstant;
    RoundConstants();
    assert ExpandedAt(w, 4, 28) && ExpandedAt(w, 4, 29) && ExpandedAt(w, 4, 30) && ExpandedAt(w, 4, 31);
  }

  lemma Group8(w: seq<bv32>)
    requires |w| == 64 && Expanded(w, 4, 44)
    requires w[28] == 0x14f9701a && w[29] == 0xe35fe28c && w[30] == 0x440adf4d && w[31] == 0x4ea9c026
    ensures w[32] == 0x47438735 && w[33] == 0xa41c65b9 && w[34] == 0xe016baf4 && w[35] == 0xaebf7ad2
  {
    assert SubWord(RotWord(0x4ea9c026)) == 0xd3baf72f by {
      hide SBox;
      EntryIs(0x4e, 0xe9, 0x2f);
      EntryIs(0xa9, 0xc8, 0xd3);
      EntryIs(0xc0, 0x0b, 0xba);
      EntryIs(0x26, 0xa8, 0xf7);
    }
    hide SubWord, RotWord, RoundConstant;
    RoundConstants();
    assert ExpandedAt(w, 4, 32) && ExpandedAt(w, 4, 33) && ExpandedAt(w, 4, 34) && ExpandedAt(w, 4, 35);
  }

  lemma Group9(w: seq<bv32>)
    requires |w| == 64 && Expanded(w, 4, 44)
    requires w[32] == 0x47438735 && w[33] == 0xa41c65b9 && w[34] == 0xe016baf4 && w[35] == 0xaebf7ad2
    ensures w[36] == 0x549932d1 && w[37] == 0xf0855768 && w[38] == 0x1093ed9c && w[39] == 0xbe2c974e
  {
    assert SubWord(RotWord(0xaebf7ad2)) == 0x08dab5e4 by {
      hide SBox;
      EntryIs(0xae, 0xd2, 0xe4);
      EntryIs(0xbf, 0x57, 0x08);
      EntryIs(0x7a, 0xd0, 0xda);
      EntryIs(0xd2, 0xae, 0xb5);
    }
    hide SubWord, RotWord, RoundConstant;
    RoundConstants();
    assert ExpandedAt(w, 4, 36) && ExpandedAt(w, 4, 37) && ExpandedAt(w, 4, 38) && ExpandedAt(w, 4, 39);
  }

  lemma Group10(w: seq<bv32>)
    requires |w| == 64 && Expanded(w, 4, 44)
    requires w[36] == 0x549932d1 && w[37] == 0xf0855768 && w[38] == 0x1093ed9c && w[39] == 0xbe2c974e
    ensures w[40] == 0x13111d7f && w[41] == 0xe3944a17 && w[42] == 0xf307a78b && w[43] == 0x4d2b30c5
  {
    assert SubWord(RotWord(0xbe2c974e)) == 0x71882fae by {
      hide SBox;
      EntryIs(0xbe, 0x86, 0xae);
      EntryIs(0x2c, 0x30, 0x71);
      EntryIs(0x97, 0x72, 0x88);
      EntryIs(0x4e, 0xe9, 0x2f);
    }
    hide SubWord, RotWord, RoundConstant;
    RoundConstants();
    assert ExpandedAt(w, 4, 40) && ExpandedAt(w, 4, 41) && ExpandedAt(w, 4, 42) && ExpandedAt(w, 4, 43);
  }

  /** The 128-bit expansion of appendix C.1, whole. */
  lemma Expansion128(w: seq<bv32>)
    requires |w| == 64 && Expanded(w, 4, 44)
    requires w[0] == 0x00010203 && w[1] == 0x04050607 && w[2] == 0x08090a0b && w[3] == 0x0c0d0e0f
    ensures KeyBlock(w, 0) == Four(0x00010203, 0x04050607, 0x08090a0b, 0x0c0d0e0f)
    ensures KeyBlock(w, 1) == Four(0xd6aa74fd, 0xd2af72fa, 0xdaa678f1, 0xd6ab76fe)
    ensures KeyBlock(w, 2) == Four(0xb692cf0b, 0x643dbdf1, 0xbe9bc500, 0x6830b3fe)
    ensures KeyBlock(w, 3) == Four(0xb6ff744e, 0xd2c2c9bf, 0x6c590cbf, 0x0469bf41)
    ensures KeyBlock(w, 4) == Four(0x47f7f7bc, 0x95353e03, 0xf96c32bc, 0xfd058dfd)
    ensures KeyBlock(w, 5) == Four(0x3caaa3e8, 0xa99f9deb, 0x50f3af57, 0xadf622aa)
    ensures KeyBlock(w, 6) == Four(0x5e390f7d, 0xf7a69296, 0xa7553dc1, 0x0aa31f6b)
    ensures KeyBlock(w, 7) == Four(0x14f9701a, 0xe35fe28c, 0x440adf4d, 0x4ea9c026)
    ensures KeyBlock(w, 8) == Four(0x47438735, 0xa41c65b9, 0xe016baf4, 0xaebf7ad2)
    ensures KeyBlock(w, 9) == Four(0x549932d1, 0xf0855768, 0x1093ed9c, 0xbe2c974e)
    ensures KeyBlock(w, 10) == Four(0x13111d7f, 0xe3944a17, 0xf307a78b, 0x4d2b30c5)
  {
    hide Expanded;
    Group1(w);
    Group2(w);
    Group3(w);
    Group4(w);
    Group5(w);
    Group6(w);
    Group7(w);
    Group8(w);
    Group9(w);
    Group10(w);
  }

  // ---------------------------------------------------------------------------------------------
  // The rounds
  // ---------------------------------------------------------------------------------------------

  /** A block written as its four words. */
  function Four(a: bv32, b: bv32, c: bv32, d: bv32): Block {
    BlockOf(Quad(a, b, c, d))
  }

  /** A column is mixed by doublings and sums alone. */
  function Doublings(x: Col): Col {
    Col(Add4(Xtime(x.b0), Times3(x.b1), x.b2, x.b3), Add4(Xtime(x.b1), Times3(x.b2), x.b3, x.b0),
        Add4(Xtime(x.b2), Times3(x.b3), x.b0, x.b1), Add4(Xtime(x.b3), Times3(x.b0), x.b1, x.b2))
  }

  lemma MixIs(x: Col)
    ensures Mix(x) == Doublings(x)
  {
    hide Mul, Add4, Xtime, Times3;
    forall b: bv8
      ensures Mul(2, b) == Xtime(b) && Mul(3, b) == Times3(b)
    {
      SmallTimes(b);
    }
  }

  lemma SmallTimes(b: bv8)
    ensures Mul(2, b) == Xtime(b) && Mul(3, b) == Times3(b)
  {
    hide Mul, Xtime;
    SmallProducts(b);
    AddCommutes(b, Xtime(b));
  }

  lemma MixBlockIs(x: Block, k: Block)
    ensures AddBlock(MixBlock(x), k)
      == AddBlock(Block(Doublings(x.c0), Doublings(x.c1), Doublings(x.c2), Doublings(x.c3)), k)
  {
    hide Mix, Doublings, AddCol;
    MixIs(x.c0);
    MixIs(x.c1);
    MixIs(x.c2);
    MixIs(x.c3);
  }

  /** The block after round `n`, from the one before, what substitution and shifting make of it, and the key. */
  lemma NextForward(x: Block, ks: seq<Block>, n: nat, before: Block, sub: Block, key: Block, after: Block)
    requires n + 1 < |ks| && Forward(x, ks, n) == before && ks[n + 1] == key
    requires SubShift(before) == sub && AddBlock(MixBlock(sub), key) == after
    ensures Forward(x, ks, n + 1) == after
  {
    hide SubShift, AddBlock, MixBlock;
  }

  /** The round keys of the example. */
  ghost predicate ExampleKeys(ks: seq<Block>) {
    && |ks| == 11
    && ks[0] == Four(0x00010203, 0x04050607, 0x08090a0b, 0x0c0d0e0f)
    && ks[1] == Four(0xd6aa74fd, 0xd2af72fa, 0xdaa678f1, 0xd6ab76fe)
    && ks[2] == Four(0xb692cf0b, 0x643dbdf1, 0xbe9bc500, 0x6830b3fe)
    && ks[3] == Four(0xb6ff744e, 0xd2c2c9bf, 0x6c590cbf, 0x0469bf41)
    && ks[4] == Four(0x47f7f7bc, 0x95353e03, 0xf96c32bc, 0xfd058dfd)
    && ks[5] == Four(0x3caaa3e8, 0xa99f9deb, 0x50f3af57, 0xadf622aa)
    && ks[6] == Four(0x5e390f7d, 0xf7a69296, 0xa7553dc1, 0x0aa31f6b)
    && ks[7] == Four(0x14f9701a, 0xe35fe28c, 0x440adf4d, 0x4ea9c026)
    && ks[8] == Four(0x47438735, 0xa41c65b9, 0xe016baf4, 0xaebf7ad2)
    && ks[9] == Four(0x549932d1, 0xf0855768, 0x1093ed9c, 0xbe2c974e)
    && ks[10] == Four(0x13111d7f, 0xe3944a17, 0xf307a78b, 0x4d2b30c5)
  }

  lemma Start(ks: seq<Block>)
    requires ExampleKeys(ks)
    ensures Forward(Four(0x00112233, 0x44556677, 0x8899aabb, 0xccddeeff), ks, 0)
      == Four(0x00102030, 0x40506070, 0x8090a0b0, 0xc0d0e0f0)
  {
  }

  lemma Sub1()
    ensures SubShift(Four(0x00102030, 0x40506070, 0x8090a0b0, 0xc0d0e0f0))
      == Four(0x6353e08c, 0x0960e104, 0xcd70b751, 0xbacad0e7)
  {
    hide SBox;
    EntryIs(0x00, 0x00, 0x63);
    EntryIs(0x10, 0x74, 0xca);
    EntryIs(0x20, 0x3a, 0xb7);
    EntryIs(0x30, 0x2c, 0x04);
    EntryIs(0x40, 0x1d, 0x09);
    EntryIs(0x50, 0xed, 0x53);
    EntryIs(0x60, 0x16, 0xd0);
    EntryIs(0x70, 0x79, 0x51);
    EntryIs(0x80, 0x83, 0xcd);
    EntryIs(0x90, 0xde, 0x60);
    EntryIs(0xa0, 0xfb, 0xe0);
    EntryIs(0xb0, 0x0c, 0xe7);
    EntryIs(0xc0, 0x0b, 0xba);
    EntryIs(0xd0, 0x7a, 0x70);
    EntryIs(0xe0, 0xb1, 0xe1);
    EntryIs(0xf0, 0x5b, 0x8c);
  }

  lemma Sub2()
    ensures SubShift(Four(0x89d810e8, 0x855ace68, 0x2d1843d8, 0xcb128fe4))
      == Four(0xa7be1a69, 0x97ad739b, 0xd8c9ca45, 0x1f618b61)
  {
    hide SBox;
    EntryIs(0x89, 0x9e, 0xa7);
    EntryIs(0xd8, 0x94, 0x61);
    EntryIs(0x10, 0x74, 0xca);
    EntryIs(0xe8, 0x08, 0x9b);
    EntryIs(0x85, 0x73, 0x97);
    EntryIs(0x5a, 0x22, 0xbe);
    EntryIs(0xce, 0xac, 0x8b);
    EntryIs(0x68, 0xf4, 0x45);
    EntryIs(0x2d, 0x44, 0xd8);
    EntryIs(0x18, 0x58, 0xad);
    EntryIs(0x43, 0x67, 0x1a);
    EntryIs(0xcb, 0x04, 0x1f);
    EntryIs(0x12, 0xaa, 0xc9);
    EntryIs(0x8f, 0xa4, 0x73);
    EntryIs(0xe4, 0xc6, 0x69);
  }

  lemma Sub3()
    ensures SubShift(Four(0x4915598f, 0x55e5d7a0, 0xdaca94fa, 0x1f0a63f7))
      == Four(0x3bd92268, 0xfc74fb73, 0x5767cbe0, 0xc0590e2d)
  {
    hide SBox;
    EntryIs(0x49, 0x64, 0x3b);
    EntryIs(0x15, 0x2b, 0x59);
    EntryIs(0x59, 0x3e, 0xcb);
    EntryIs(0x8f, 0xa4, 0x73);
    EntryIs(0x55, 0x24, 0xfc);
    EntryIs(0xe5, 0x0e, 0xd9);
    EntryIs(0xd7, 0xea, 0x0e);
    EntryIs(0xa0, 0xfb, 0xe0);
    EntryIs(0xda, 0xc4, 0x57);
    EntryIs(0xca, 0x53, 0x74);
    EntryIs(0x94, 0xd8, 0x22);
    EntryIs(0xfa, 0x7d, 0x2d);
    EntryIs(0x1f, 0xb2, 0xc0);
    EntryIs(0x0a, 0x29, 0x67);
    EntryIs(0x63, 0xd3, 0xfb);
    EntryIs(0xf7, 0x8c, 0x68);
  }

  lemma Sub4()
    ensures SubShift(Four(0xfa636a28, 0x25b339c9, 0x40668a31, 0x57244d17))
      == Four(0x2d6d7ef0, 0x3f33e334, 0x093602dd, 0x5bfb12c7)
  {
    hide SBox;
    EntryIs(0xfa, 0x7d, 0x2d);
    EntryIs(0x63, 0xd3, 0xfb);
    EntryIs(0x6a, 0x91, 0x02);
    EntryIs(0x28, 0xc1, 0x34);
    EntryIs(0x25, 0x4d, 0x3f);
    EntryIs(0xb3, 0xef, 0x6d);
    EntryIs(0x39, 0x35, 0x12);
    EntryIs(0xc9, 0x27, 0xdd);
    EntryIs(0x40, 0x1d, 0x09);
    EntryIs(0x66, 0x36, 0x33);
    EntryIs(0x8a, 0x95, 0x7e);
    EntryIs(0x31, 0x45, 0xc7);
    EntryIs(0x57, 0xbf, 0x5b);
    EntryIs(0x24, 0x55, 0x36);
    EntryIs(0x4d, 0x25, 0xe3);
    EntryIs(0x17, 0x5f, 0xf0);
  }

  lemma Sub5()
    ensures SubShift(Four(0x24724023, 0x6966b3fa, 0x6ed27532, 0x88425b6c))
      == Four(0x36339d50, 0xf9b53926, 0x9f2c092d, 0xc4406d23)
  {
    hide SBox;
    EntryIs(0x24, 0x55, 0x36);
    EntryIs(0x72, 0x97, 0x40);
    EntryIs(0x40, 0x1d, 0x09);
    EntryIs(0x23, 0xf1, 0x26);
    EntryIs(0x69, 0x47, 0xf9);
    EntryIs(0x66, 0x36, 0x33);
    EntryIs(0xb3, 0xef, 0x6d);
    EntryIs(0xfa, 0x7d, 0x2d);
    EntryIs(0x6e, 0x21, 0x9f);
    EntryIs(0xd2, 0xae, 0xb5);
    EntryIs(0x75, 0xb5, 0x9d);
    EntryIs(0x32, 0x92, 0x23);
    EntryIs(0x88, 0x9b, 0xc4);
    EntryIs(0x42, 0x37, 0x2c);
    EntryIs(0x5b, 0xf0, 0x39);
    EntryIs(0x6c, 0x33, 0x50);
  }

  lemma Sub6()
    ensures SubShift(Four(0xc81677bc, 0x9b7ac93b, 0x25027992, 0xb0261996))
      == Four(0xe8dab690, 0x1477d465, 0x3ff7f5e2, 0xe747dd4f)
  {
    hide SBox;
    EntryIs(0xc8, 0xa9, 0xe8);
    EntryIs(0x16, 0x60, 0x47);
    EntryIs(0x77, 0x3c, 0xf5);
    EntryIs(0xbc, 0xbd, 0x65);
    EntryIs(0x9b, 0x88, 0x14);
    EntryIs(0x7a, 0xd0, 0xda);
    EntryIs(0xc9, 0x27, 0xdd);
    EntryIs(0x3b, 0x6f, 0xe2);
    EntryIs(0x25, 0x4d, 0x3f);
    EntryIs(0x02, 0x8d, 0x77);
    EntryIs(0x79, 0x70, 0xb6);
    EntryIs(0x92, 0x32, 0x4f);
    EntryIs(0xb0, 0x0c, 0xe7);
    EntryIs(0x26, 0xa8, 0xf7);
    EntryIs(0x19, 0x3f, 0xd4);
    EntryIs(0x96, 0x84, 0x90);
  }

  lemma Sub7()
    ensures SubShift(Four(0xc62fe109, 0xf75eedc3, 0xcc79395d, 0x84f9cf5d))
      == Four(0xb458124c, 0x68b68a01, 0x4b99f82e, 0x5f15554c)
  {
    hide SBox;
    EntryIs(0xc6, 0xe4, 0xb4);
    EntryIs(0x2f, 0xc2, 0x15);
    EntryIs(0xe1, 0x0d, 0xf8);
    EntryIs(0x09, 0x4f, 0x01);
    EntryIs(0xf7, 0x8c, 0x68);
    EntryIs(0x5e, 0x61, 0x58);
    EntryIs(0xed, 0x50, 0x55);
    EntryIs(0xc3, 0xa3, 0x2e);
    EntryIs(0xcc, 0x1b, 0x4b);
    EntryIs(0x79, 0x70, 0xb6);
    EntryIs(0x39, 0x35, 0x12);
    EntryIs(0x5d, 0xec, 0x4c);
    EntryIs(0x84, 0x96, 0x5f);
    EntryIs(0xf9, 0x9c, 0x99);
    EntryIs(0xcf, 0xe6, 0x8a);
  }

  lemma Sub8()
    ensures SubShift(Four(0xd1876c0f, 0x79c4300a, 0xb45594ad, 0xd66ff41f))
      == Four(0x3e1c22c0, 0xb6fcbf76, 0x8da85067, 0xf6170495)
  {
    hide SBox;
    EntryIs(0xd1, 0x07, 0x3e);
    EntryIs(0x87, 0x56, 0x17);
    EntryIs(0x6c, 0x33, 0x50);
    EntryIs(0x0f, 0xc7, 0x76);
    EntryIs(0x79, 0x70, 0xb6);
    EntryIs(0xc4, 0xda, 0x1c);
    EntryIs(0x30, 0x2c, 0x04);
    EntryIs(0x0a, 0x29, 0x67);
    EntryIs(0xb4, 0x11, 0x8d);
    EntryIs(0x55, 0x24, 0xfc);
    EntryIs(0x94, 0xd8, 0x22);
    EntryIs(0xad, 0xe7, 0x95);
    EntryIs(0xd6, 0xe2, 0xf6);
    EntryIs(0x6f, 0x3b, 0xa8);
    EntryIs(0xf4, 0x68, 0xbf);
    EntryIs(0x1f, 0xb2, 0xc0);
  }

  lemma Sub9()
    ensures SubShift(Four(0xfde3bad2, 0x05e5d0d7, 0x3547964e, 0xf1fe37f1))
      == Four(0x54d990a1, 0x6ba09ab5, 0x96bbf40e, 0xa111702f)
  {
    hide SBox;
    EntryIs(0xfd, 0x1a, 0x54);
    EntryIs(0xe3, 0xeb, 0x11);
    EntryIs(0xba, 0x76, 0xf4);
    EntryIs(0xd2, 0xae, 0xb5);
    EntryIs(0x05, 0x52, 0x6b);
    EntryIs(0xe5, 0x0e, 0xd9);
    EntryIs(0xd0, 0x7a, 0x70);
    EntryIs(0xd7, 0xea, 0x0e);
    EntryIs(0x35, 0x39, 0x96);
    EntryIs(0x47, 0x69, 0xa0);
    EntryIs(0x96, 0x84, 0x90);
    EntryIs(0x4e, 0xe9, 0x2f);
    EntryIs(0xf1, 0x23, 0xa1);
    EntryIs(0xfe, 0x41, 0xbb);
    EntryIs(0x37, 0x42, 0x9a);
  }

  lemma Sub10()
    ensures SubShift(Four(0xbd6e7c3d, 0xf2b5779e, 0x0b61216e, 0x8b10b689))
      == Four(0x7ad5fda7, 0x89ef4e27, 0x2bca100b, 0x3d9ff59f)
  {
    hide SBox;
    EntryIs(0xbd, 0xbc, 0x7a);
    EntryIs(0x6e, 0x21, 0x9f);
    EntryIs(0x7c, 0xa1, 0x10);
    EntryIs(0x3d, 0xbb, 0x27);
    EntryIs(0xf2, 0x38, 0x89);
    EntryIs(0xb5, 0x75, 0xd5);
    EntryIs(0x77, 0x3c, 0xf5);
    EntryIs(0x9e, 0x89, 0x0b);
    EntryIs(0x0b, 0xc0, 0x2b);
    EntryIs(0x61, 0x5e, 0xef);
    EntryIs(0x21, 0x6e, 0xfd);
    EntryIs(0x8b, 0xd9, 0x3d);
    EntryIs(0x10, 0x74, 0xca);
    EntryIs(0xb6, 0x78, 0x4e);
    EntryIs(0x89, 0x9e, 0xa7);
  }

  lemma Round1(ks: seq<Block>)
    requires ExampleKeys(ks)
    ensures Forward(Four(0x00112233, 0x44556677, 0x8899aabb, 0xccddeeff), ks, 1)
      == Four(0x89d810e8, 0x855ace68, 0x2d1843d8, 0xcb128fe4)
  {
    hide Forward, SubShift, MixBlock;
    var sub, key := Four(0x6353e08c, 0x0960e104, 0xcd70b751, 0xbacad0e7),
      Four(0xd6aa74fd, 0xd2af72fa, 0xdaa678f1, 0xd6ab76fe);
    Start(ks);
    Sub1();
    MixBlockIs(sub, key);
    NextForward(Four(0x00112233, 0x44556677, 0x8899aabb, 0xccddeeff), ks, 0,
      Four(0x00102030, 0x40506070, 0x8090a0b0, 0xc0d0e0f0), sub, key,
      Four(0x89d810e8, 0x855ace68, 0x2d1843d8, 0xcb128fe4));
  }

  lemma Round2(ks: seq<Block>)
    requires ExampleKeys(ks)
    ensures Forward(Four(0x00112233, 0x44556677, 0x8899aabb, 0xccddeeff), ks, 2)
      == Four(0x4915598f, 0x55e5d7a0, 0xdaca94fa, 0x1f0a63f7)
  {
    hide Forward, SubShift, MixBlock;
    var sub, key := Four(0xa7be1a69, 0x97ad739b, 0xd8c9ca45, 0x1f618b61),
      Four(0xb692cf0b, 0x643dbdf1, 0xbe9bc500, 0x6830b3fe);
    Round1(ks);
    Sub2();
    MixBlockIs(sub, key);
    NextForward(Four(0x00112233, 0x44556677, 0x8899aabb, 0xccddeeff), ks, 1,
      Four(0x89d810e8, 0x855ace68, 0x2d1843d8, 0xcb128fe4), sub, key,
      Four(0x4915598f, 0x55e5d7a0, 0xdaca94fa, 0x1f0a63f7));
  }

  lemma Round3(ks: seq<Block>)
    requires ExampleKeys(ks)
    ensures Forward(Four(0x00112233, 0x44556677, 0x8899aabb, 0xccddeeff), ks, 3)
      == Four(0xfa636a28, 0x25b339c9, 0x40668a31, 0x57244d17)
  {
    hide Forward, SubShift, MixBlock;
    var sub, key := Four(0x3bd92268, 0xfc74fb73, 0x5767cbe0, 0xc0590e2d),
      Four(0xb6ff744e, 0xd2c2c9bf, 0x6c590cbf, 0x0469bf41);
    Round2(ks);
    Sub3();
    MixBlockIs(sub, key);
    NextForward(Four(0x00112233, 0x44556677, 0x8899aabb, 0xccddeeff), ks, 2,
      Four(0x4915598f, 0x55e5d7a0, 0xdaca94fa, 0x1f0a63f7), sub, key,
      Four(0xfa636a28, 0x25b339c9, 0x40668a31, 0x57244d17));
  }

  lemma Round4(ks: seq<Block>)
    requires ExampleKeys(ks)
    ensures Forward(Four(0x00112233, 0x44556677, 0x8899aabb, 0xccddeeff), ks, 4)
      == Four(0x24724023, 0x6966b3fa, 0x6ed27532, 0x88425b6c)
  {
    hide Forward, SubShift, MixBlock;
    var sub, key := Four(0x2d6d7ef0, 0x3f33e334, 0x093602dd, 0x5bfb12c7),
      Four(0x47f7f7bc, 0x95353e03, 0xf96c32bc, 0xfd058dfd);
    Round3(ks);
    Sub4();
    MixBlockIs(sub, key);
    NextForward(Four(0x00112233, 0x44556677, 0x8899aabb, 0xccddeeff), ks, 3,
      Four(0xfa636a28, 0x25b339c9, 0x40668a31, 0x57244d17), sub, key,
      Four(0x24724023, 0x6966b3fa, 0x6ed27532, 0x88425b6c));
  }

  lemma Round5(ks: seq<Block>)
    requires ExampleKeys(ks)
    ensures Forward(Four(0x00112233, 0x44556677, 0x8899aabb, 0xccddeeff), ks, 5)
      == Four(0xc81677bc, 0x9b7ac93b, 0x25027992, 0xb0261996)
  {
    hide Forward, SubShift, MixBlock;
    var sub, key := Four(0x36339d50, 0xf9b53926, 0x9f2c092d, 0xc4406d23),
      Four(0x3caaa3e8, 0xa99f9deb, 0x50f3af57, 0xadf622aa);
    Round4(ks);
    Sub5();
    MixBlockIs(sub, key);
    NextForward(Four(0x00112233, 0x44556677, 0x8899aabb, 0xccddeeff), ks, 4,
      Four(0x24724023, 0x6966b3fa, 0x6ed27532, 0x88425b6c), sub, key,
      Four(0xc81677bc, 0x9b7ac93b, 0x25027992, 0xb0261996));
  }

  lemma Round6(ks: seq<Block>)
    requires ExampleKeys(ks)
    ensures Forward(Four(0x00112233, 0x44556677, 0x8899aabb, 0xccddeeff), ks, 6)
      == Four(0xc62fe109, 0xf75eedc3, 0xcc79395d, 0x84f9cf5d)
  {
    hide Forward, SubShift, MixBlock;
    var sub, key := Four(0xe8dab690, 0x1477d465, 0x3ff7f5e2, 0xe747dd4f),
      Four(0x5e390f7d, 0xf7a69296, 0xa7553dc1, 0x0aa31f6b);
    Round5(ks);
    Sub6();
    MixBlockIs(sub, key);
    NextForward(Four(0x00112233, 0x44556677, 0x8899aabb, 0xccddeeff), ks, 5,
      Four(0xc81677bc, 0x9b7ac93b, 0x25027992, 0xb0261996), sub, key,
      Four(0xc62fe109, 0xf75eedc3, 0xcc79395d, 0x84f9cf5d));
  }

  lemma Round7(ks: seq<Block>)
    requires ExampleKeys(ks)
    ensures Forward(Four(0x00112233, 0x44556677, 0x8899aabb, 0xccddeeff), ks, 7)
      == Four(0xd1876c0f, 0x79c4300a, 0xb45594ad, 0xd66ff41f)
  {
    hide Forward, SubShift, MixBlock;
    var sub, key := Four(0xb458124c, 0x68b68a01, 0x4b99f82e, 0x5f15554c),
      Four(0x14f9701a, 0xe35fe28c, 0x440adf4d, 0x4ea9c026);
    Round6(ks);
    Sub7();
    MixBlockIs(sub, key);
    NextForward(Four(0x00112233, 0x44556677, 0x8899aabb, 0xccddeeff), ks, 6,
      Four(0xc62fe109, 0xf75eedc3, 0xcc79395d, 0x84f9cf5d), sub, key,
      Four(0xd1876c0f, 0x79c4300a, 0xb45594ad, 0xd66ff41f));
  }

  lemma Round8(ks: seq<Block>)
    requires ExampleKeys(ks)
    ensures Forward(Four(0x00112233, 0x44556677, 0x8899aabb, 0xccddeeff), ks, 8)
      == Four(0xfde3bad2, 0x05e5d0d7, 0x3547964e, 0xf1fe37f1)
  {
    hide Forward, SubShift, MixBlock;
    var sub, key := Four(0x3e1c22c0, 0xb6fcbf76, 0x8da85067, 0xf6170495),
      Four(0x47438735, 0xa41c65b9, 0xe016baf4, 0xaebf7ad2);
    Round7(ks);
    Sub8();
    MixBlockIs(sub, key);
    NextForward(Four(0x00112233, 0x44556677, 0x8899aabb, 0xccddeeff), ks, 7,
      Four(0xd1876c0f, 0x79c4300a, 0xb45594ad, 0xd66ff41f), sub, key,
      Four(0xfde3bad2, 0x05e5d0d7, 0x3547964e, 0xf1fe37f1));
  }

  lemma Round9(ks: seq<Block>)
    requires ExampleKeys(ks)
    ensures Forward(Four(0x00112233, 0x44556677, 0x8899aabb, 0xccddeeff), ks, 9)
      == Four(0xbd6e7c3d, 0xf2b5779e, 0x0b61216e, 0x8b10b689)
  {
    hide Forward, SubShift, MixBlock;
    var sub, key := Four(0x54d990a1, 0x6ba09ab5, 0x96bbf40e, 0xa111702f),
      Four(0x549932d1, 0xf0855768, 0x1093ed9c, 0xbe2c974e);
    Round8(ks);
    Sub9();
    MixBlockIs(sub, key);
    NextForward(Four(0x00112233, 0x44556677, 0x8899aabb, 0xccddeeff), ks, 8,
      Four(0xfde3bad2, 0x05e5d0d7, 0x3547964e, 0xf1fe37f1), sub, key,
      Four(0xbd6e7c3d, 0xf2b5779e, 0x0b61216e, 0x8b10b689));
  }

  lemma FromBytes()
    ensures Bytes([0x00, 0x11, 0x22, 0x33, 0x44, 0x55, 0x66, 0x77, 0x88, 0x99, 0xaa, 0xbb, 0xcc, 0xdd, 0xee, 0xff])
      == Four(0x00112233, 0x44556677, 0x8899aabb, 0xccddeeff)
    ensures Bytes([0x69, 0xc4, 0xe0, 0xd8, 0x6a, 0x7b, 0x04, 0x30, 0xd8, 0xcd, 0xb7, 0x80, 0x70, 0xb4, 0xc5, 0x5a])
      == Four(0x69c4e0d8, 0x6a7b0430, 0xd8cdb780, 0x70b4c55a)
  {
  }

  lemma WordOf(w: bv32, a: bv8, b: bv8, c: bv8, d: bv8)
    requires ColOf(w) == Col(a, b, c, d)
    ensures w == Word(a, b, c, d)
  {
  }

  lemma KeyWords(w: seq<bv32>, key: seq<bv8>)
    requires |w| == 64
    requires key == [0x00, 0x01, 0x02, 0x03, 0x04, 0x05, 0x06, 0x07, 0x08, 0x09, 0x0a, 0x0b, 0x0c, 0x0d, 0x0e, 0x0f]
    requires Loaded(w, key, 4)
    ensures w[0] == 0x00010203 && w[1] == 0x04050607 && w[2] == 0x08090a0b && w[3] == 0x0c0d0e0f
  {
    hide ColOf;
    WordOf(w[0], key[0], key[1], key[2], key[3]);
    WordOf(w[1], key[4], key[5], key[6], key[7]);
    WordOf(w[2], key[8], key[9], key[10], key[11]);
    WordOf(w[3], key[12], key[13], key[14], key[15]);
  }

  lemma ExampleEncrypted(ks: seq<Block>)
    requires ExampleKeys(ks)
    ensures Encrypted(Four(0x00112233, 0x44556677, 0x8899aabb, 0xccddeeff), ks)
      == Four(0x69c4e0d8, 0x6a7b0430, 0xd8cdb780, 0x70b4c55a)
  {
    hide Forward, SubShift;
    Round9(ks);
    Sub10();
    assert AddBlock(Four(0x7ad5fda7, 0x89ef4e27, 0x2bca100b, 0x3d9ff59f),
      Four(0x13111d7f, 0xe3944a17, 0xf307a78b, 0x4d2b30c5))
      == Four(0x69c4e0d8, 0x6a7b0430, 0xd8cdb780, 0x70b4c55a);
  }

  /** Appendix C.1: the key 00 01 .. 0f takes the block 00 11 .. ff to 69 c4 .. 5a. */
  lemma KnownAnswer(w: seq<bv32>, key: seq<bv8>)
    requires |w| == 64
    requires key == [0x00, 0x01, 0x02, 0x03, 0x04, 0x05, 0x06, 0x07, 0x08, 0x09, 0x0a, 0x0b, 0x0c, 0x0d, 0x0e, 0x0f]
    requires Schedule(w, key, 4)
    ensures Encrypted(
        Bytes([0x00, 0x11, 0x22, 0x33, 0x44, 0x55, 0x66, 0x77, 0x88, 0x99, 0xaa, 0xbb, 0xcc, 0xdd, 0xee, 0xff]),
        Keys(w, 10))
      == Bytes([0x69, 0xc4, 0xe0, 0xd8, 0x6a, 0x7b, 0x04, 0x30, 0xd8, 0xcd, 0xb7, 0x80, 0x70, 0xb4, 0xc5, 0x5a])
  {
    hide Encrypted, Expanded, Four, KeyBlock;
    KeyWords(w, key);
    Expansion128(w);
    ExampleEncrypted(Keys(w, 10));
    FromBytes();
  }
}
