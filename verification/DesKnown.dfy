/**
  A worked example through the key schedule and the sixteen rounds: the answer that is published for the key
  13 34 57 79 9B BC DF F1 and the block 01 23 45 67 89 AB CD EF.
 */
module DesKnown {
  import opened Des
  import opened DesRound

  const KEY := Block(0x13, 0x34, 0x57, 0x79, 0x9b, 0xbc, 0xdf, 0xf1)
  const PLAIN := Block(0x01, 0x23, 0x45, 0x67, 0x89, 0xab, 0xcd, 0xef)
  const ANSWER := Block(0x85, 0xe8, 0x13, 0x54, 0x0f, 0x0a, 0xb4, 0x05)

  // ---------------------------------------------------------------------------------------------
  // The permuted choices, for any key
  // ---------------------------------------------------------------------------------------------

  lemma Places()
    ensures Place(0) == 31 && Place(1) == 30 && Place(2) == 29 && Place(3) == 28
    ensures Place(4) == 27 && Place(5) == 26 && Place(6) == 25 && Place(7) == 24
    ensures Place(8) == 23 && Place(9) == 22 && Place(10) == 21 && Place(11) == 20
    ensures Place(12) == 19 && Place(13) == 18 && Place(14) == 17 && Place(15) == 16
    ensures Place(16) == 15 && Place(17) == 14 && Place(18) == 13 && Place(19) == 12
    ensures Place(20) == 11 && Place(21) == 10 && Place(22) == 9 && Place(23) == 8
    ensures Place(24) == 7 && Place(25) == 6 && Place(26) == 5 && Place(27) == 4
  {
  }

  lemma GatherStep(key: Block, table: seq<bv6>, n: nat)
    requires n < |table| <= 28
    ensures Gathered(key, table, n + 1) == Gathered(key, table, n) | BitNum(key, table[n], Place(n))
  {
    hide BitNum, Place;
  }

  /** Seven more bits of a permuted choice. */
  lemma GatherSeven(key: Block, table: seq<bv6>, n: nat)
    requires n + 7 <= |table| <= 28
    ensures Gathered(key, table, n + 7) == Gathered(key, table, n)
      | BitNum(key, table[n], Place(n)) | BitNum(key, table[n + 1], Place(n + 1))
      | BitNum(key, table[n + 2], Place(n + 2)) | BitNum(key, table[n + 3], Place(n + 3))
      | BitNum(key, table[n + 4], Place(n + 4)) | BitNum(key, table[n + 5], Place(n + 5))
      | BitNum(key, table[n + 6], Place(n + 6))
  {
    hide BitNum, Place, Gathered;
    GatherStep(key, table, n);
    GatherStep(key, table, n + 1);
    GatherStep(key, table, n + 2);
    GatherStep(key, table, n + 3);
    GatherStep(key, table, n + 4);
    GatherStep(key, table, n + 5);
    GatherStep(key, table, n + 6);
  }

  lemma TableC()
    ensures |KEY_PERM_C| == 28
    ensures KEY_PERM_C[0] == 56 && KEY_PERM_C[1] == 48 && KEY_PERM_C[2] == 40 && KEY_PERM_C[3] == 32
    ensures KEY_PERM_C[4] == 24 && KEY_PERM_C[5] == 16 && KEY_PERM_C[6] == 8 && KEY_PERM_C[7] == 0
    ensures KEY_PERM_C[8] == 57 && KEY_PERM_C[9] == 49 && KEY_PERM_C[10] == 41 && KEY_PERM_C[11] == 33
    ensures KEY_PERM_C[12] == 25 && KEY_PERM_C[13] == 17 && KEY_PERM_C[14] == 9 && KEY_PERM_C[15] == 1
    ensures KEY_PERM_C[16] == 58 && KEY_PERM_C[17] == 50 && KEY_PERM_C[18] == 42 && KEY_PERM_C[19] == 34
    ensures KEY_PERM_C[20] == 26 && KEY_PERM_C[21] == 18 && KEY_PERM_C[22] == 10 && KEY_PERM_C[23] == 2
    ensures KEY_PERM_C[24] == 59 && KEY_PERM_C[25] == 51 && KEY_PERM_C[26] == 43 && KEY_PERM_C[27] == 35
  {
  }

  lemma TableD()
    ensures |KEY_PERM_D| == 28
    ensures KEY_PERM_D[0] == 62 && KEY_PERM_D[1] == 54 && KEY_PERM_D[2] == 46 && KEY_PERM_D[3] == 38
    ensures KEY_PERM_D[4] == 30 && KEY_PERM_D[5] == 22 && KEY_PERM_D[6] == 14 && KEY_PERM_D[7] == 6
    ensures KEY_PERM_D[8] == 61 && KEY_PERM_D[9] == 53 && KEY_PERM_D[10] == 45 && KEY_PERM_D[11] == 37
    ensures KEY_PERM_D[12] == 29 && KEY_PERM_D[13] == 21 && KEY_PERM_D[14] == 13 && KEY_PERM_D[15] == 5
    ensures KEY_PERM_D[16] == 60 && KEY_PERM_D[17] == 52 && KEY_PERM_D[18] == 44 && KEY_PERM_D[19] == 36
    ensures KEY_PERM_D[20] == 28 && KEY_PERM_D[21] == 20 && KEY_PERM_D[22] == 12 && KEY_PERM_D[23] == 4
    ensures KEY_PERM_D[24] == 27 && KEY_PERM_D[25] == 19 && KEY_PERM_D[26] == 11 && KEY_PERM_D[27] == 3
  {
  }

  lemma KnownC()
    ensures Gathered(KEY, KEY_PERM_C, |KEY_PERM_C|) == 0xf0ccaaf0
  {
    hide Place, KEY_PERM_C;
    Places();
    TableC();
    GatherSeven(KEY, KEY_PERM_C, 0);
    GatherSeven(KEY, KEY_PERM_C, 7);
    GatherSeven(KEY, KEY_PERM_C, 14);
    GatherSeven(KEY, KEY_PERM_C, 21);
  }

  lemma KnownD()
    ensures Gathered(KEY, KEY_PERM_D, |KEY_PERM_D|) == 0x556678f0
  {
    hide Place, KEY_PERM_D;
    Places();
    TableD();
    GatherSeven(KEY, KEY_PERM_D, 0);
    GatherSeven(KEY, KEY_PERM_D, 7);
    GatherSeven(KEY, KEY_PERM_D, 14);
    GatherSeven(KEY, KEY_PERM_D, 21);
  }

  lemma SelectStep(c: bv32, d: bv32, n: nat)
    requires n < 48
    ensures Selected(c, d, n + 1)
      == Selected(c, d, n)[n / 8 := Selected(c, d, n)[n / 8] | SelectedBit(c, d, n)]
  {
    hide SelectedBit;
  }

  /** Two more bits of the compression, in the same byte. */
  lemma SelectTwo(c: bv32, d: bv32, n: nat, row: seq<bv8>, b: nat)
    requires n + 2 <= 48 && n % 2 == 0 && row == Selected(c, d, n) && b == n / 8
    ensures Selected(c, d, n + 2) == row[b := row[b] | SelectedBit(c, d, n) | SelectedBit(c, d, n + 1)]
  {
    hide SelectedBit, Selected;
    SelectStep(c, d, n);
    SelectStep(c, d, n + 1);
  }

  function Or8(a: bv8, b: bv8, c: bv8, d: bv8, e: bv8, f: bv8, g: bv8, h: bv8): bv8 {
    a | b | c | d | e | f | g | h
  }

  /** Byte `b` of the compression. */
  function Eight(c: bv32, d: bv32, b: nat): bv8
    requires b < 6
  {
    Or8(SelectedBit(c, d, 8 * b), SelectedBit(c, d, 8 * b + 1),
        SelectedBit(c, d, 8 * b + 2), SelectedBit(c, d, 8 * b + 3),
        SelectedBit(c, d, 8 * b + 4), SelectedBit(c, d, 8 * b + 5),
        SelectedBit(c, d, 8 * b + 6), SelectedBit(c, d, 8 * b + 7))
  }

  lemma SelectByte(c: bv32, d: bv32, b: nat)
    requires b < 6 && Selected(c, d, 8 * b)[b] == 0
    ensures Selected(c, d, 8 * b + 8) == Selected(c, d, 8 * b)[b := Eight(c, d, b)]
  {
    hide SelectedBit, Selected;
    var n, row := 8 * b, Selected(c, d, 8 * b);
    SelectTwo(c, d, n, row, b);
    SelectTwo(c, d, n + 2, Selected(c, d, n + 2), b);
    SelectTwo(c, d, n + 4, Selected(c, d, n + 4), b);
    SelectTwo(c, d, n + 6, Selected(c, d, n + 6), b);
  }

  lemma FirstHalf(c: bv32, d: bv32)
    ensures Selected(c, d, 24) == [Eight(c, d, 0), Eight(c, d, 1), Eight(c, d, 2), 0, 0, 0]
  {
    hide Eight;
    assert Selected(c, d, 0) == [0, 0, 0, 0, 0, 0];
    hide Selected;
    SelectByte(c, d, 0);
    SelectByte(c, d, 1);
    SelectByte(c, d, 2);
  }

  lemma CompressedIs(c: bv32, d: bv32)
    ensures ToKey(Selected(c, d, |KEY_COMPRESSION|)) == RoundKey(
      Eight(c, d, 0), Eight(c, d, 1), Eight(c, d, 2), Eight(c, d, 3), Eight(c, d, 4), Eight(c, d, 5))
  {
    hide Eight, Selected;
    FirstHalf(c, d);
    SelectByte(c, d, 3);
    SelectByte(c, d, 4);
    SelectByte(c, d, 5);
  }

  lemma TableCompression()
    ensures KEY_COMPRESSION[0] == 13 && KEY_COMPRESSION[1] == 16 && KEY_COMPRESSION[2] == 10 && KEY_COMPRESSION[3] == 23
    ensures KEY_COMPRESSION[4] == 0 && KEY_COMPRESSION[5] == 4 && KEY_COMPRESSION[6] == 2 && KEY_COMPRESSION[7] == 27
    ensures KEY_COMPRESSION[8] == 14 && KEY_COMPRESSION[9] == 5 && KEY_COMPRESSION[10] == 20 && KEY_COMPRESSION[11] == 9
    ensures KEY_COMPRESSION[12] == 22 && KEY_COMPRESSION[13] == 18 && KEY_COMPRESSION[14] == 11 && KEY_COMPRESSION[15] == 3
    ensures KEY_COMPRESSION[16] == 25 && KEY_COMPRESSION[17] == 7 && KEY_COMPRESSION[18] == 15 && KEY_COMPRESSION[19] == 6
    ensures KEY_COMPRESSION[20] == 26 && KEY_COMPRESSION[21] == 19 && KEY_COMPRESSION[22] == 12 && KEY_COMPRESSION[23] == 1
    ensures KEY_COMPRESSION[24] == 40 && KEY_COMPRESSION[25] == 51 && KEY_COMPRESSION[26] == 30 && KEY_COMPRESSION[27] == 36
    ensures KEY_COMPRESSION[28] == 46 && KEY_COMPRESSION[29] == 54 && KEY_COMPRESSION[30] == 29 && KEY_COMPRESSION[31] == 39
    ensures KEY_COMPRESSION[32] == 50 && KEY_COMPRESSION[33] == 44 && KEY_COMPRESSION[34] == 32 && KEY_COMPRESSION[35] == 47
    ensures KEY_COMPRESSION[36] == 43 && KEY_COMPRESSION[37] == 48 && KEY_COMPRESSION[38] == 38 && KEY_COMPRESSION[39] == 55
    ensures KEY_COMPRESSION[40] == 33 && KEY_COMPRESSION[41] == 52 && KEY_COMPRESSION[42] == 45 && KEY_COMPRESSION[43] == 41
    ensures KEY_COMPRESSION[44] == 49 && KEY_COMPRESSION[45] == 35 && KEY_COMPRESSION[46] == 28 && KEY_COMPRESSION[47] == 31
  {
  }

  lemma SelectedAt(c: bv32, d: bv32, j: nat, k: bv6, p: bv3)
    requires j < 48 && KEY_COMPRESSION[j] == k && (7 - j % 8) as bv3 == p
    ensures SelectedBit(c, d, j) ==
      if j < 24 then BitNumIntR(c, (k & 0x1f) as bv5, p) else BitNumIntR(d, ((k - 28) & 0x1f) as bv5, p)
  {
    hide BitNumIntR;
  }

  lemma Eight0(c: bv32, d: bv32)
    ensures Eight(c, d, 0) == Or8(
      BitNumIntR(c, 13, 7), BitNumIntR(c, 16, 6), BitNumIntR(c, 10, 5), BitNumIntR(c, 23, 4),
      BitNumIntR(c, 0, 3), BitNumIntR(c, 4, 2), BitNumIntR(c, 2, 1), BitNumIntR(c, 27, 0))
  {
    hide BitNumIntR, KEY_COMPRESSION, SelectedBit, Or8;
    TableCompression();
    SelectedAt(c, d, 0, 13, 7);
    SelectedAt(c, d, 1, 16, 6);
    SelectedAt(c, d, 2, 10, 5);
    SelectedAt(c, d, 3, 23, 4);
    SelectedAt(c, d, 4, 0, 3);
    SelectedAt(c, d, 5, 4, 2);
    SelectedAt(c, d, 6, 2, 1);
    SelectedAt(c, d, 7, 27, 0);
  }

  lemma Eight1(c: bv32, d: bv32)
    ensures Eight(c, d, 1) == Or8(
      BitNumIntR(c, 14, 7), BitNumIntR(c, 5, 6), BitNumIntR(c, 20, 5), BitNumIntR(c, 9, 4),
      BitNumIntR(c, 22, 3), BitNumIntR(c, 18, 2), BitNumIntR(c, 11, 1), BitNumIntR(c, 3, 0))
  {
    hide BitNumIntR, KEY_COMPRESSION, SelectedBit, Or8;
    TableCompression();
    SelectedAt(c, d, 8, 14, 7);
    SelectedAt(c, d, 9, 5, 6);
    SelectedAt(c, d, 10, 20, 5);
    SelectedAt(c, d, 11, 9, 4);
    SelectedAt(c, d, 12, 22, 3);
    SelectedAt(c, d, 13, 18, 2);
    SelectedAt(c, d, 14, 11, 1);
    SelectedAt(c, d, 15, 3, 0);
  }

  lemma Eight2(c: bv32, d: bv32)
    ensures Eight(c, d, 2) == Or8(
      BitNumIntR(c, 25, 7), BitNumIntR(c, 7, 6), BitNumIntR(c, 15, 5), BitNumIntR(c, 6, 4),
      BitNumIntR(c, 26, 3), BitNumIntR(c, 19, 2), BitNumIntR(c, 12, 1), BitNumIntR(c, 1, 0))
  {
    hide BitNumIntR, KEY_COMPRESSION, SelectedBit, Or8;
    TableCompression();
    SelectedAt(c, d, 16, 25, 7);
    SelectedAt(c, d, 17, 7, 6);
    SelectedAt(c, d, 18, 15, 5);
    SelectedAt(c, d, 19, 6, 4);
    SelectedAt(c, d, 20, 26, 3);
    SelectedAt(c, d, 21, 19, 2);
    SelectedAt(c, d, 22, 12, 1);
    SelectedAt(c, d, 23, 1, 0);
  }

  lemma Eight3(c: bv32, d: bv32)
    ensures Eight(c, d, 3) == Or8(
      BitNumIntR(d, 12, 7), BitNumIntR(d, 23, 6), BitNumIntR(d, 2, 5), BitNumIntR(d, 8, 4),
      BitNumIntR(d, 18, 3), BitNumIntR(d, 26, 2), BitNumIntR(d, 1, 1), BitNumIntR(d, 11, 0))
  {
    hide BitNumIntR, KEY_COMPRESSION, SelectedBit, Or8;
    TableCompression();
    SelectedAt(c, d, 24, 40, 7);
    SelectedAt(c, d, 25, 51, 6);
    SelectedAt(c, d, 26, 30, 5);
    SelectedAt(c, d, 27, 36, 4);
    SelectedAt(c, d, 28, 46, 3);
    SelectedAt(c, d, 29, 54, 2);
    SelectedAt(c, d, 30, 29, 1);
    SelectedAt(c, d, 31, 39, 0);
  }

  lemma Eight4(c: bv32, d: bv32)
    ensures Eight(c, d, 4) == Or8(
      BitNumIntR(d, 22, 7), BitNumIntR(d, 16, 6), BitNumIntR(d, 4, 5), BitNumIntR(d, 19, 4),
      BitNumIntR(d, 15, 3), BitNumIntR(d, 20, 2), BitNumIntR(d, 10, 1), BitNumIntR(d, 27, 0))
  {
    hide BitNumIntR, KEY_COMPRESSION, SelectedBit, Or8;
    TableCompression();
    SelectedAt(c, d, 32, 50, 7);
    SelectedAt(c, d, 33, 44, 6);
    SelectedAt(c, d, 34, 32, 5);
    SelectedAt(c, d, 35, 47, 4);
    SelectedAt(c, d, 36, 43, 3);
    SelectedAt(c, d, 37, 48, 2);
    SelectedAt(c, d, 38, 38, 1);
    SelectedAt(c, d, 39, 55, 0);
  }

  lemma Eight5(c: bv32, d: bv32)
    ensures Eight(c, d, 5) == Or8(
      BitNumIntR(d, 5, 7), BitNumIntR(d, 24, 6), BitNumIntR(d, 17, 5), BitNumIntR(d, 13, 4),
      BitNumIntR(d, 21, 3), BitNumIntR(d, 7, 2), BitNumIntR(d, 0, 1), BitNumIntR(d, 3, 0))
  {
    hide BitNumIntR, KEY_COMPRESSION, SelectedBit, Or8;
    TableCompression();
    SelectedAt(c, d, 40, 33, 7);
    SelectedAt(c, d, 41, 52, 6);
    SelectedAt(c, d, 42, 45, 5);
    SelectedAt(c, d, 43, 41, 4);
    SelectedAt(c, d, 44, 49, 3);
    SelectedAt(c, d, 45, 35, 2);
    SelectedAt(c, d, 46, 28, 1);
    SelectedAt(c, d, 47, 31, 0);
  }

  lemma HalvesStep(key: Block, n: nat, c: bv32, d: bv32)
    requires n < 16 && Halves(key, n) == (c, d)
    ensures Halves(key, n + 1) == (TurnedHalf(c, KEY_SHIFT[n]), TurnedHalf(d, KEY_SHIFT[n]))
    ensures SubKey(key, n)
      == ToKey(Selected(TurnedHalf(c, KEY_SHIFT[n]), TurnedHalf(d, KEY_SHIFT[n]), |KEY_COMPRESSION|))
  {
    hide TurnedHalf, Selected;
  }

  /** The key of a round, once both halves are turned. */
  lemma KeyOf(n: nat, shift: Turn, c: bv32, d: bv32, c': bv32, d': bv32)
    requires n < 16 && Halves(KEY, n) == (c, d) && KEY_SHIFT[n] == shift
    requires c' == TurnedHalf(c, shift) && d' == TurnedHalf(d, shift)
    ensures Halves(KEY, n + 1) == (c', d')
    ensures SubKey(KEY, n) == RoundKey(
      Eight(c', d', 0), Eight(c', d', 1), Eight(c', d', 2), Eight(c', d', 3), Eight(c', d', 4), Eight(c', d', 5))
  {
    hide *;
    HalvesStep(KEY, n, c, d);
    CompressedIs(c', d');
  }

  lemma Key0()
    ensures Halves(KEY, 0) == (0xf0ccaaf0, 0x556678f0)
  {
    hide Gathered, KEY_PERM_C, KEY_PERM_D;
    KnownC();
    KnownD();
  }

  // ---------------------------------------------------------------------------------------------
  // The sixteen rounds
  // ---------------------------------------------------------------------------------------------

  /** The words after `n` rounds on the example. */
  function After(n: nat): (bv32, bv32)
    requires n <= 16
  {
    Rounds(Mixed, 0xcc00ccff, 0xf0aaf0aa, Schedule(KEY, Encrypt), n)
  }

  lemma Next(n: nat, l: bv32, r: bv32, key: RoundKey, m: bv32)
    requires n < 16 && After(n) == (l, r) && SubKey(KEY, n) == key && Mixed(l, r, key) == m
    ensures After(n + 1) == (r, m)
  {
    hide Mixed, Rounds, SubKey;
    NextRound(0xcc00ccff, 0xf0aaf0aa, Schedule(KEY, Encrypt), n);
  }

  lemma Round0()
    ensures Halves(KEY, 0) == (0xf0ccaaf0, 0x556678f0) && After(0) == (0xcc00ccff, 0xf0aaf0aa)
  {
    hide Halves;
    Key0();
  }

  lemma Mix1()
    ensures Mixed(0xcc00ccff, 0xf0aaf0aa, RoundKey(0x1b, 0x02, 0xef, 0xfc, 0x70, 0x72)) == 0xef4a6544
  {
  }

  lemma Round1()
    ensures Halves(KEY, 1) == (0xe19955f0, 0xaaccf1e0) && After(1) == (0xf0aaf0aa, 0xef4a6544)
  {
    hide Halves, SubKey, Eight, After, Mixed;
    Round0();
    KeyOf(0, 1, 0xf0ccaaf0, 0x556678f0, 0xe19955f0, 0xaaccf1e0);
    var c, d: bv32 := 0xe19955f0, 0xaaccf1e0;
    Eight0(c, d);
    Eight1(c, d);
    Eight2(c, d);
    Eight3(c, d);
    Eight4(c, d);
    Eight5(c, d);
    Mix1();
    Next(0, 0xcc00ccff, 0xf0aaf0aa, RoundKey(0x1b, 0x02, 0xef, 0xfc, 0x70, 0x72), 0xef4a6544);
  }

  lemma Mix2()
    ensures Mixed(0xf0aaf0aa, 0xef4a6544, RoundKey(0x79, 0xae, 0xd9, 0xdb, 0xc9, 0xe5)) == 0xcc017709
  {
  }

  lemma Round2()
    ensures Halves(KEY, 2) == (0xc332abf0, 0x5599e3d0) && After(2) == (0xef4a6544, 0xcc017709)
  {
    hide Halves, SubKey, Eight, After, Mixed;
    Round1();
    KeyOf(1, 1, 0xe19955f0, 0xaaccf1e0, 0xc332abf0, 0x5599e3d0);
    var c, d: bv32 := 0xc332abf0, 0x5599e3d0;
    Eight0(c, d);
    Eight1(c, d);
    Eight2(c, d);
    Eight3(c, d);
    Eight4(c, d);
    Eight5(c, d);
    Mix2();
    Next(1, 0xf0aaf0aa, 0xef4a6544, RoundKey(0x79, 0xae, 0xd9, 0xdb, 0xc9, 0xe5), 0xcc017709);
  }

  lemma Mix3()
    ensures Mixed(0xef4a6544, 0xcc017709, RoundKey(0x55, 0xfc, 0x8a, 0x42, 0xcf, 0x99)) == 0xa25c0bf4
  {
  }

  lemma Round3()
    ensures Halves(KEY, 3) == (0x0ccaaff0, 0x56678f50) && After(3) == (0xcc017709, 0xa25c0bf4)
  {
    hide Halves, SubKey, Eight, After, Mixed;
    Round2();
    KeyOf(2, 2, 0xc332abf0, 0x5599e3d0, 0x0ccaaff0, 0x56678f50);
    var c, d: bv32 := 0x0ccaaff0, 0x56678f50;
    Eight0(c, d);
    Eight1(c, d);
    Eight2(c, d);
    Eight3(c, d);
    Eight4(c, d);
    Eight5(c, d);
    Mix3();
    Next(2, 0xef4a6544, 0xcc017709, RoundKey(0x55, 0xfc, 0x8a, 0x42, 0xcf, 0x99), 0xa25c0bf4);
  }

  lemma Mix4()
    ensures Mixed(0xcc017709, 0xa25c0bf4, RoundKey(0x72, 0xad, 0xd6, 0xdb, 0x35, 0x1d)) == 0x77220045
  {
  }

  lemma Round4()
    ensures Halves(KEY, 4) == (0x332abfc0, 0x599e3d50) && After(4) == (0xa25c0bf4, 0x77220045)
  {
    hide Halves, SubKey, Eight, After, Mixed;
    Round3();
    KeyOf(3, 2, 0x0ccaaff0, 0x56678f50, 0x332abfc0, 0x599e3d50);
    var c, d: bv32 := 0x332abfc0, 0x599e3d50;
    Eight0(c, d);
    Eight1(c, d);
    Eight2(c, d);
    Eight3(c, d);
    Eight4(c, d);
    Eight5(c, d);
    Mix4();
    Next(3, 0xcc017709, 0xa25c0bf4, RoundKey(0x72, 0xad, 0xd6, 0xdb, 0x35, 0x1d), 0x77220045);
  }

  lemma Mix5()
    ensures Mixed(0xa25c0bf4, 0x77220045, RoundKey(0x7c, 0xec, 0x07, 0xeb, 0x53, 0xa8)) == 0x8a4fa637
  {
  }

  lemma Round5()
    ensures Halves(KEY, 5) == (0xccaaff00, 0x6678f550) && After(5) == (0x77220045, 0x8a4fa637)
  {
    hide Halves, SubKey, Eight, After, Mixed;
    Round4();
    KeyOf(4, 2, 0x332abfc0, 0x599e3d50, 0xccaaff00, 0x6678f550);
    var c, d: bv32 := 0xccaaff00, 0x6678f550;
    Eight0(c, d);
    Eight1(c, d);
    Eight2(c, d);
    Eight3(c, d);
    Eight4(c, d);
    Eight5(c, d);
    Mix5();
    Next(4, 0xa25c0bf4, 0x77220045, RoundKey(0x7c, 0xec, 0x07, 0xeb, 0x53, 0xa8), 0x8a4fa637);
  }

  lemma Mix6()
    ensures Mixed(0x77220045, 0x8a4fa637, RoundKey(0x63, 0xa5, 0x3e, 0x50, 0x7b, 0x2f)) == 0xe967cd69
  {
  }

  lemma Round6()
    ensures Halves(KEY, 6) == (0x32abfc30, 0x99e3d550) && After(6) == (0x8a4fa637, 0xe967cd69)
  {
    hide Halves, SubKey, Eight, After, Mixed;
    Round5();
    KeyOf(5, 2, 0xccaaff00, 0x6678f550, 0x32abfc30, 0x99e3d550);
    var c, d: bv32 := 0x32abfc30, 0x99e3d550;
    Eight0(c, d);
    Eight1(c, d);
    Eight2(c, d);
    Eight3(c, d);
    Eight4(c, d);
    Eight5(c, d);
    Mix6();
    Next(5, 0x77220045, 0x8a4fa637, RoundKey(0x63, 0xa5, 0x3e, 0x50, 0x7b, 0x2f), 0xe967cd69);
  }

  lemma Mix7()
    ensures Mixed(0x8a4fa637, 0xe967cd69, RoundKey(0xec, 0x84, 0xb7, 0xf6, 0x18, 0xbc)) == 0x064aba10
  {
  }

  lemma Round7()
    ensures Halves(KEY, 7) == (0xcaaff0c0, 0x678f5560) && After(7) == (0xe967cd69, 0x064aba10)
  {
    hide Halves, SubKey, Eight, After, Mixed;
    Round6();
    KeyOf(6, 2, 0x32abfc30, 0x99e3d550, 0xcaaff0c0, 0x678f5560);
    var c, d: bv32 := 0xcaaff0c0, 0x678f5560;
    Eight0(c, d);
    Eight1(c, d);
    Eight2(c, d);
    Eight3(c, d);
    Eight4(c, d);
    Eight5(c, d);
    Mix7();
    Next(6, 0x8a4fa637, 0xe967cd69, RoundKey(0xec, 0x84, 0xb7, 0xf6, 0x18, 0xbc), 0x064aba10);
  }

  lemma Mix8()
    ensures Mixed(0xe967cd69, 0x064aba10, RoundKey(0xf7, 0x8a, 0x3a, 0xc1, 0x3b, 0xfb)) == 0xd5694b90
  {
  }

  lemma Round8()
    ensures Halves(KEY, 8) == (0x2abfc330, 0x9e3d5590) && After(8) == (0x064aba10, 0xd5694b90)
  {
    hide Halves, SubKey, Eight, After, Mixed;
    Round7();
    KeyOf(7, 2, 0xcaaff0c0, 0x678f5560, 0x2abfc330, 0x9e3d5590);
    var c, d: bv32 := 0x2abfc330, 0x9e3d5590;
    Eight0(c, d);
    Eight1(c, d);
    Eight2(c, d);
    Eight3(c, d);
    Eight4(c, d);
    Eight5(c, d);
    Mix8();
    Next(7, 0xe967cd69, 0x064aba10, RoundKey(0xf7, 0x8a, 0x3a, 0xc1, 0x3b, 0xfb), 0xd5694b90);
  }

  lemma Mix9()
    ensures Mixed(0x064aba10, 0xd5694b90, RoundKey(0xe0, 0xdb, 0xeb, 0xed, 0xe7, 0x81)) == 0x247cc67a
  {
  }

  lemma Round9()
    ensures Halves(KEY, 9) == (0x557f8660, 0x3c7aab30) && After(9) == (0xd5694b90, 0x247cc67a)
  {
    hide Halves, SubKey, Eight, After, Mixed;
    Round8();
    KeyOf(8, 1, 0x2abfc330, 0x9e3d5590, 0x557f8660, 0x3c7aab30);
    var c, d: bv32 := 0x557f8660, 0x3c7aab30;
    Eight0(c, d);
    Eight1(c, d);
    Eight2(c, d);
    Eight3(c, d);
    Eight4(c, d);
    Eight5(c, d);
    Mix9();
    Next(8, 0x064aba10, 0xd5694b90, RoundKey(0xe0, 0xdb, 0xeb, 0xed, 0xe7, 0x81), 0x247cc67a);
  }

  lemma Mix10()
    ensures Mixed(0xd5694b90, 0x247cc67a, RoundKey(0xb1, 0xf3, 0x47, 0xba, 0x46, 0x4f)) == 0xb7d5d7b2
  {
  }

  lemma Round10()
    ensures Halves(KEY, 10) == (0x55fe1990, 0xf1eaacc0) && After(10) == (0x247cc67a, 0xb7d5d7b2)
  {
    hide Halves, SubKey, Eight, After, Mixed;
    Round9();
    KeyOf(9, 2, 0x557f8660, 0x3c7aab30, 0x55fe1990, 0xf1eaacc0);
    var c, d: bv32 := 0x55fe1990, 0xf1eaacc0;
    Eight0(c, d);
    Eight1(c, d);
    Eight2(c, d);
    Eight3(c, d);
    Eight4(c, d);
    Eight5(c, d);
    Mix10();
    Next(9, 0xd5694b90, 0x247cc67a, RoundKey(0xb1, 0xf3, 0x47, 0xba, 0x46, 0x4f), 0xb7d5d7b2);
  }

  lemma Mix11()
    ensures Mixed(0x247cc67a, 0xb7d5d7b2, RoundKey(0x21, 0x5f, 0xd3, 0xde, 0xd3, 0x86)) == 0xc5783c78
  {
  }

  lemma Round11()
    ensures Halves(KEY, 11) == (0x57f86650, 0xc7aab330) && After(11) == (0xb7d5d7b2, 0xc5783c78)
  {
    hide Halves, SubKey, Eight, After, Mixed;
    Round10();
    KeyOf(10, 2, 0x55fe1990, 0xf1eaacc0, 0x57f86650, 0xc7aab330);
    var c, d: bv32 := 0x57f86650, 0xc7aab330;
    Eight0(c, d);
    Eight1(c, d);
    Eight2(c, d);
    Eight3(c, d);
    Eight4(c, d);
    Eight5(c, d);
    Mix11();
    Next(10, 0x247cc67a, 0xb7d5d7b2, RoundKey(0x21, 0x5f, 0xd3, 0xde, 0xd3, 0x86), 0xc5783c78);
  }

  lemma Mix12()
    ensures Mixed(0xb7d5d7b2, 0xc5783c78, RoundKey(0x75, 0x71, 0xf5, 0x94, 0x67, 0xe9)) == 0x75bd1858
  {
  }

  lemma Round12()
    ensures Halves(KEY, 12) == (0x5fe19950, 0x1eaaccf0) && After(12) == (0xc5783c78, 0x75bd1858)
  {
    hide Halves, SubKey, Eight, After, Mixed;
    Round11();
    KeyOf(11, 2, 0x57f86650, 0xc7aab330, 0x5fe19950, 0x1eaaccf0);
    var c, d: bv32 := 0x5fe19950, 0x1eaaccf0;
    Eight0(c, d);
    Eight1(c, d);
    Eight2(c, d);
    Eight3(c, d);
    Eight4(c, d);
    Eight5(c, d);
    Mix12();
    Next(11, 0xb7d5d7b2, 0xc5783c78, RoundKey(0x75, 0x71, 0xf5, 0x94, 0x67, 0xe9), 0x75bd1858);
  }

  lemma Mix13()
    ensures Mixed(0xc5783c78, 0x75bd1858, RoundKey(0x97, 0xc5, 0xd1, 0xfa, 0xba, 0x41)) == 0x18c3155a
  {
  }

  lemma Round13()
    ensures Halves(KEY, 13) == (0x7f866550, 0x7aab33c0) && After(13) == (0x75bd1858, 0x18c3155a)
  {
    hide Halves, SubKey, Eight, After, Mixed;
    Round12();
    KeyOf(12, 2, 0x5fe19950, 0x1eaaccf0, 0x7f866550, 0x7aab33c0);
    var c, d: bv32 := 0x7f866550, 0x7aab33c0;
    Eight0(c, d);
    Eight1(c, d);
    Eight2(c, d);
    Eight3(c, d);
    Eight4(c, d);
    Eight5(c, d);
    Mix13();
    Next(12, 0xc5783c78, 0x75bd1858, RoundKey(0x97, 0xc5, 0xd1, 0xfa, 0xba, 0x41), 0x18c3155a);
  }

  lemma Mix14()
    ensures Mixed(0x75bd1858, 0x18c3155a, RoundKey(0x5f, 0x43, 0xb7, 0xf2, 0xe7, 0x3a)) == 0xc28c960d
  {
  }

  lemma Round14()
    ensures Halves(KEY, 14) == (0xfe199550, 0xeaaccf10) && After(14) == (0x18c3155a, 0xc28c960d)
  {
    hide Halves, SubKey, Eight, After, Mixed;
    Round13();
    KeyOf(13, 2, 0x7f866550, 0x7aab33c0, 0xfe199550, 0xeaaccf10);
    var c, d: bv32 := 0xfe199550, 0xeaaccf10;
    Eight0(c, d);
    Eight1(c, d);
    Eight2(c, d);
    Eight3(c, d);
    Eight4(c, d);
    Eight5(c, d);
    Mix14();
    Next(13, 0x75bd1858, 0x18c3155a, RoundKey(0x5f, 0x43, 0xb7, 0xf2, 0xe7, 0x3a), 0xc28c960d);
  }

  lemma Mix15()
    ensures Mixed(0x18c3155a, 0xc28c960d, RoundKey(0xbf, 0x91, 0x8d, 0x3d, 0x3f, 0x0a)) == 0x43423234
  {
  }

  lemma Round15()
    ensures Halves(KEY, 15) == (0xf8665570, 0xaab33c70) && After(15) == (0xc28c960d, 0x43423234)
  {
    hide Halves, SubKey, Eight, After, Mixed;
    Round14();
    KeyOf(14, 2, 0xfe199550, 0xeaaccf10, 0xf8665570, 0xaab33c70);
    var c, d: bv32 := 0xf8665570, 0xaab33c70;
    Eight0(c, d);
    Eight1(c, d);
    Eight2(c, d);
    Eight3(c, d);
    Eight4(c, d);
    Eight5(c, d);
    Mix15();
    Next(14, 0x18c3155a, 0xc28c960d, RoundKey(0xbf, 0x91, 0x8d, 0x3d, 0x3f, 0x0a), 0x43423234);
  }

  lemma Mix16()
    ensures Mixed(0xc28c960d, 0x43423234, RoundKey(0xcb, 0x3d, 0x8b, 0x0e, 0x17, 0xf5)) == 0x0a4cd995
  {
  }

  lemma Round16()
    ensures Halves(KEY, 16) == (0xf0ccaaf0, 0x556678f0) && After(16) == (0x43423234, 0x0a4cd995)
  {
    hide Halves, SubKey, Eight, After, Mixed;
    Round15();
    KeyOf(15, 1, 0xf8665570, 0xaab33c70, 0xf0ccaaf0, 0x556678f0);
    var c, d: bv32 := 0xf0ccaaf0, 0x556678f0;
    Eight0(c, d);
    Eight1(c, d);
    Eight2(c, d);
    Eight3(c, d);
    Eight4(c, d);
    Eight5(c, d);
    Mix16();
    Next(15, 0xc28c960d, 0x43423234, RoundKey(0xcb, 0x3d, 0x8b, 0x0e, 0x17, 0xf5), 0x0a4cd995);
  }

  /** The cipher's published answer. */
  lemma KnownAnswer()
    ensures Crypt(PLAIN, Schedule(KEY, Encrypt)) == ANSWER
  {
    hide Mixed, Schedule, Rounds;
    Round16();
    assert InitialLeft(PLAIN) == 0xcc00ccff && InitialRight(PLAIN) == 0xf0aaf0aa;
    assert FinalBlock(0x0a4cd995, 0x43423234) == ANSWER;
  }
}
