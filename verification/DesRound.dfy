/**
  What a round of DES adds to a word, bit by bit, as FIPS 46-3 describes it: the right word is expanded and
  the round key added, eight boxes each turn six bits into four, and the permutation P spreads the 32 bits.
 */
module DesRound {
  import opened Des

  /** Bit `n` of a word, counted from 1 at the left as the standard does. */
  predicate Bit(w: bv32, n: bv6)
    requires 1 <= n <= 32
  {
    (w >> (32 - n)) & 1 == 1
  }

  /** The permutation P: which bit of its input stands at bit `n` of its output. */
  function P(n: bv6): (p: bv6)
    requires 1 <= n <= 32
    ensures 1 <= p <= 32
  {
    if n <= 16 then
      if n == 1 then 16 else if n == 2 then 7 else if n == 3 then 20 else if n == 4 then 21
      else if n == 5 then 29 else if n == 6 then 12 else if n == 7 then 28 else if n == 8 then 17
      else if n == 9 then 1 else if n == 10 then 15 else if n == 11 then 23 else if n == 12 then 26
      else if n == 13 then 5 else if n == 14 then 18 else if n == 15 then 31 else 10
    else
      if n == 17 then 2 else if n == 18 then 8 else if n == 19 then 24 else if n == 20 then 14
      else if n == 21 then 32 else if n == 22 then 27 else if n == 23 then 3 else if n == 24 then 9
      else if n == 25 then 19 else if n == 26 then 13 else if n == 27 then 30 else if n == 28 then 6
      else if n == 29 then 22 else if n == 30 then 11 else if n == 31 then 4 else 25
  }

  lemma PermutedBit1(s: bv32, n: bv6)
    requires 1 <= n <= 4
    ensures Bit(Permuted(s), n) == Bit(s, P(n))
  {
  }

  lemma PermutedBit2(s: bv32, n: bv6)
    requires 5 <= n <= 8
    ensures Bit(Permuted(s), n) == Bit(s, P(n))
  {
  }

  lemma PermutedBit3(s: bv32, n: bv6)
    requires 9 <= n <= 12
    ensures Bit(Permuted(s), n) == Bit(s, P(n))
  {
  }

  lemma PermutedBit4(s: bv32, n: bv6)
    requires 13 <= n <= 16
    ensures Bit(Permuted(s), n) == Bit(s, P(n))
  {
  }

  lemma PermutedBit5(s: bv32, n: bv6)
    requires 17 <= n <= 20
    ensures Bit(Permuted(s), n) == Bit(s, P(n))
  {
  }

  lemma PermutedBit6(s: bv32, n: bv6)
    requires 21 <= n <= 24
    ensures Bit(Permuted(s), n) == Bit(s, P(n))
  {
  }

  lemma PermutedBit7(s: bv32, n: bv6)
    requires 25 <= n <= 28
    ensures Bit(Permuted(s), n) == Bit(s, P(n))
  {
  }

  lemma PermutedBit8(s: bv32, n: bv6)
    requires 29 <= n <= 32
    ensures Bit(Permuted(s), n) == Bit(s, P(n))
  {
  }

  lemma PermutedBit(s: bv32, n: bv6)
    requires 1 <= n <= 32
    ensures Bit(Permuted(s), n) == Bit(s, P(n))
  {
    hide *;
    if n <= 4 { PermutedBit1(s, n); }
    else if n <= 8 { PermutedBit2(s, n); }
    else if n <= 12 { PermutedBit3(s, n); }
    else if n <= 16 { PermutedBit4(s, n); }
    else if n <= 20 { PermutedBit5(s, n); }
    else if n <= 24 { PermutedBit6(s, n); }
    else if n <= 28 { PermutedBit7(s, n); }
    else { PermutedBit8(s, n); }
  }

  /** What box `g`, counted from 1, gives for a round key and the word it is mixed with. */
  function BoxOutput(r: bv32, key: RoundKey, g: bv6): bv8
    requires 1 <= g <= 8
  {
    if g == 1 then SBOX1[FipsIndex(r, key, 5, 42) as int]
    else if g == 2 then SBOX2[FipsIndex(r, key, 9, 36) as int]
    else if g == 3 then SBOX3[FipsIndex(r, key, 13, 30) as int]
    else if g == 4 then SBOX4[FipsIndex(r, key, 17, 24) as int]
    else if g == 5 then SBOX5[FipsIndex(r, key, 21, 18) as int]
    else if g == 6 then SBOX6[FipsIndex(r, key, 25, 12) as int]
    else if g == 7 then SBOX7[FipsIndex(r, key, 29, 6) as int]
    else SBOX8[FipsIndex(r, key, 1, 0) as int]
  }

  /** The box whose output bit `n` belongs to. */
  function Group(n: bv6): (g: bv6)
    requires 1 <= n <= 32
    ensures 1 <= g <= 8
  {
    ((n - 1) >> 2) + 1
  }

  /** The bit that stands at `n` when four bits of each box follow one another. */
  predicate FourthBit(x: bv8, n: bv6)
    requires 1 <= n <= 32
  {
    (x >> (3 - ((n - 1) & 3))) & 1 == 1
  }

  /** Bit `n` of the eight outputs of four bits each, one after the other. */
  predicate OutputBit(r: bv32, key: RoundKey, n: bv6)
    requires 1 <= n <= 32
  {
    FourthBit(BoxOutput(r, key, Group(n)), n)
  }

  /** Four bits a box, side by side. */
  function Joined(a: bv8, b: bv8, c: bv8, d: bv8, e: bv8, f: bv8, g: bv8, h: bv8): bv32 {
    (a as bv32 << 28) | (b as bv32 << 24) | (c as bv32 << 20) | (d as bv32 << 16)
    | (e as bv32 << 12) | (f as bv32 << 8) | (g as bv32 << 4) | (h as bv32)
  }

  function Pick(a: bv8, b: bv8, c: bv8, d: bv8, e: bv8, f: bv8, g: bv8, h: bv8, k: bv6): bv8 {
    if k == 1 then a else if k == 2 then b else if k == 3 then c else if k == 4 then d
    else if k == 5 then e else if k == 6 then f else if k == 7 then g else h
  }

  lemma JoinedBit(a: bv8, b: bv8, c: bv8, d: bv8, e: bv8, f: bv8, g: bv8, h: bv8, n: bv6)
    requires 1 <= n <= 32 && a < 16 && b < 16 && c < 16 && d < 16 && e < 16 && f < 16 && g < 16 && h < 16
    ensures Bit(Joined(a, b, c, d, e, f, g, h), n) == FourthBit(Pick(a, b, c, d, e, f, g, h, Group(n)), n)
  {
  }

  /** `v` stands among the sixteen entries of a box from place `k`. */
  predicate Stands(box: seq<bv8>, k: nat, v: bv8)
    requires k + 16 <= |box|
  {
    || box[k] == v || box[k + 1] == v || box[k + 2] == v || box[k + 3] == v
    || box[k + 4] == v || box[k + 5] == v || box[k + 6] == v || box[k + 7] == v
    || box[k + 8] == v || box[k + 9] == v || box[k + 10] == v || box[k + 11] == v
    || box[k + 12] == v || box[k + 13] == v || box[k + 14] == v || box[k + 15] == v
  }

  /** Every row of a box is a permutation: its sixteen entries are exactly 0 to 15. */
  ghost predicate RowsPermute(box: seq<bv8>) {
    && |box| == 64
    && forall v: bv8 ::
      && (Stands(box, 0, v) <==> v < 16) && (Stands(box, 16, v) <==> v < 16)
      && (Stands(box, 32, v) <==> v < 16) && (Stands(box, 48, v) <==> v < 16)
  }

  lemma Box1Permutes()
    ensures RowsPermute(SBOX1)
  {
  }

  lemma Box2Permutes()
    ensures RowsPermute(SBOX2)
  {
  }

  lemma Box3Permutes()
    ensures RowsPermute(SBOX3)
  {
  }

  lemma Box4Permutes()
    ensures RowsPermute(SBOX4)
  {
  }

  lemma Box5Permutes()
    ensures RowsPermute(SBOX5)
  {
  }

  lemma Box6Permutes()
    ensures RowsPermute(SBOX6)
  {
  }

  lemma Box7Permutes()
    ensures RowsPermute(SBOX7)
  {
  }

  lemma Box8Permutes()
    ensures RowsPermute(SBOX8)
  {
  }

  /** Every row of every box of the cipher is a permutation of 0 to 15. */
  lemma BoxesPermute()
    ensures RowsPermute(SBOX1) && RowsPermute(SBOX2) && RowsPermute(SBOX3) && RowsPermute(SBOX4)
    ensures RowsPermute(SBOX5) && RowsPermute(SBOX6) && RowsPermute(SBOX7) && RowsPermute(SBOX8)
  {
    hide RowsPermute;
    Box1Permutes();
    Box2Permutes();
    Box3Permutes();
    Box4Permutes();
    Box5Permutes();
    Box6Permutes();
    Box7Permutes();
    Box8Permutes();
  }

  lemma Entry(box: seq<bv8>, k: nat)
    requires RowsPermute(box) && k < 64
    ensures box[k] < 16
  {
    if k < 16 {
      assert Stands(box, 0, box[k]);
    } else if k < 32 {
      assert Stands(box, 16, box[k]);
    } else if k < 48 {
      assert Stands(box, 32, box[k]);
    } else {
      assert Stands(box, 48, box[k]);
    }
  }

  lemma OutputsSmall(r: bv32, key: RoundKey, g: bv6)
    requires 1 <= g <= 8
    ensures BoxOutput(r, key, g) < 16
  {
    hide RowsPermute, FipsIndex, SBOX1, SBOX2, SBOX3, SBOX4, SBOX5, SBOX6, SBOX7, SBOX8;
    BoxesPermute();
    if g == 1 { Entry(SBOX1, FipsIndex(r, key, 5, 42) as int); }
    else if g == 2 { Entry(SBOX2, FipsIndex(r, key, 9, 36) as int); }
    else if g == 3 { Entry(SBOX3, FipsIndex(r, key, 13, 30) as int); }
    else if g == 4 { Entry(SBOX4, FipsIndex(r, key, 17, 24) as int); }
    else if g == 5 { Entry(SBOX5, FipsIndex(r, key, 21, 18) as int); }
    else if g == 6 { Entry(SBOX6, FipsIndex(r, key, 25, 12) as int); }
    else if g == 7 { Entry(SBOX7, FipsIndex(r, key, 29, 6) as int); }
    else { Entry(SBOX8, FipsIndex(r, key, 1, 0) as int); }
  }

  lemma OutputPicked(r: bv32, key: RoundKey, g: bv6)
    requires 1 <= g <= 8
    ensures BoxOutput(r, key, g) == Pick(
      BoxOutput(r, key, 1), BoxOutput(r, key, 2), BoxOutput(r, key, 3), BoxOutput(r, key, 4),
      BoxOutput(r, key, 5), BoxOutput(r, key, 6), BoxOutput(r, key, 7), BoxOutput(r, key, 8), g)
  {
    hide BoxOutput;
  }

  /** The outputs side by side are the word the boxes give. */
  lemma SubstitutedJoins(r: bv32, key: RoundKey)
    ensures Substituted(Looked(Expanded(r, key))) == Joined(
      BoxOutput(r, key, 1), BoxOutput(r, key, 2), BoxOutput(r, key, 3), BoxOutput(r, key, 4),
      BoxOutput(r, key, 5), BoxOutput(r, key, 6), BoxOutput(r, key, 7), BoxOutput(r, key, 8))
  {
    hide FipsIndex, Looked, Expanded, SBOX1, SBOX2, SBOX3, SBOX4, SBOX5, SBOX6, SBOX7, SBOX8;
    IndicesAreFips(r, key);
  }

  lemma SubstitutedBit(r: bv32, key: RoundKey, n: bv6)
    requires 1 <= n <= 32
    ensures Bit(Substituted(Looked(Expanded(r, key))), n) == FourthBit(BoxOutput(r, key, Group(n)), n)
  {
    hide *;
    SubstitutedJoins(r, key);
    OutputsSmall(r, key, 1);
    OutputsSmall(r, key, 2);
    OutputsSmall(r, key, 3);
    OutputsSmall(r, key, 4);
    OutputsSmall(r, key, 5);
    OutputsSmall(r, key, 6);
    OutputsSmall(r, key, 7);
    OutputsSmall(r, key, 8);
    OutputPicked(r, key, Group(n));
    JoinedBit(BoxOutput(r, key, 1), BoxOutput(r, key, 2), BoxOutput(r, key, 3), BoxOutput(r, key, 4),
              BoxOutput(r, key, 5), BoxOutput(r, key, 6), BoxOutput(r, key, 7), BoxOutput(r, key, 8), n);
  }

  /** What was added to `a`, bit by bit, to give `d`. */
  function Added(a: bv32, d: bv32): bv32 {
    d ^ a
  }

  lemma AddedTwice(x: bv32, l: bv32)
    ensures (x ^ l) ^ l == x
  {
  }

  lemma AddedIs(l: bv32, r: bv32, key: RoundKey)
    ensures Added(l, Mixed(l, r, key)) == Permuted(Substituted(Looked(Expanded(r, key))))
  {
    hide Substituted, Looked, Expanded, Permuted;
    AddedTwice(F(r, key), l);
  }

  /** Bit `n` of what a round adds to the left word is bit P(n) of the eight box outputs. */
  lemma RoundBit(l: bv32, r: bv32, key: RoundKey, n: bv6)
    requires 1 <= n <= 32
    ensures Bit(Added(l, Mixed(l, r, key)), n) == OutputBit(r, key, P(n))
  {
    hide Added, Mixed, Substituted, Looked, Expanded, Permuted, Bit, FourthBit, BoxOutput, Group, P;
    AddedIs(l, r, key);
    PermutedBit(Substituted(Looked(Expanded(r, key))), n);
    SubstitutedBit(r, key, P(n));
  }

  lemma NextRound(l: bv32, r: bv32, ks: seq<RoundKey>, i: nat)
    requires i < |ks|
    ensures var (a, b) := Rounds(Mixed, l, r, ks, i);
      Rounds(Mixed, l, r, ks, i + 1) == (b, Mixed(a, b, ks[i]))
  {
    hide Mixed;
  }

  /** The same of every round the cipher runs: the right word moves left, and the left word is added to. */
  lemma EveryRound(l: bv32, r: bv32, ks: seq<RoundKey>, i: nat, n: bv6)
    requires i < |ks| && 1 <= n <= 32
    ensures var (a, b) := Rounds(Mixed, l, r, ks, i);
      var (c, d) := Rounds(Mixed, l, r, ks, i + 1);
      c == b && Bit(Added(a, d), n) == OutputBit(b, ks[i], P(n))
  {
    hide Added, Mixed, Bit, OutputBit, P, Rounds;
    var (a, b) := Rounds(Mixed, l, r, ks, i);
    NextRound(l, r, ks, i);
    RoundBit(a, b, ks[i], n);
  }
}
