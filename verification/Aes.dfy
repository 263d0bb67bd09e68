/**
  AES as the program runs it (FIPS 197): key expansion, encryption and the equivalent inverse cipher
  on 32-bit words and tables, proved against module AesSpec.
 */
module Aes {
  import opened Gf256
  import opened AesSpec
  import opened AesTables

  // ---------------------------------------------------------------------------------------------
  // Bytes, words and blocks
  // ---------------------------------------------------------------------------------------------

  /** Four words: the state of the ciphers and one round key. */
  datatype Quad = Quad(w0: bv32, w1: bv32, w2: bv32, w3: bv32)

  function BlockOf(q: Quad): Block {
    Block(ColOf(q.w0), ColOf(q.w1), ColOf(q.w2), ColOf(q.w3))
  }

  function XorQuad(p: Quad, q: Quad): Quad {
    Quad(Xor(p.w0, q.w0), Xor(p.w1, q.w1), Xor(p.w2, q.w2), Xor(p.w3, q.w3))
  }

  lemma BlockOfXor(p: Quad, q: Quad)
    ensures BlockOf(XorQuad(p, q)) == AddBlock(BlockOf(p), BlockOf(q))
  {
    hide Xor, ColOf, AddCol;
    ColOfXor(p.w0, q.w0);
    ColOfXor(p.w1, q.w1);
    ColOfXor(p.w2, q.w2);
    ColOfXor(p.w3, q.w3);
  }

  /** The block that 16 bytes make, column by column. */
  function Bytes(s: seq<bv8>): Block
    requires |s| == 16
  {
    Block(Col(s[0], s[1], s[2], s[3]), Col(s[4], s[5], s[6], s[7]),
          Col(s[8], s[9], s[10], s[11]), Col(s[12], s[13], s[14], s[15]))
  }

  lemma BytesInjective(s: seq<bv8>, t: seq<bv8>)
    requires |s| == |t| == 16 && Bytes(s) == Bytes(t)
    ensures s == t
  {
  }

  method GetBlock(a: array<bv8>) returns (q: Quad)
    requires a.Length == 16
    ensures BlockOf(q) == Bytes(a[..])
  {
    hide Word, ColOf;
    q := Quad(Word(a[0], a[1], a[2], a[3]), Word(a[4], a[5], a[6], a[7]),
              Word(a[8], a[9], a[10], a[11]), Word(a[12], a[13], a[14], a[15]));
    ColOfWord(a[0], a[1], a[2], a[3]);
    ColOfWord(a[4], a[5], a[6], a[7]);
    ColOfWord(a[8], a[9], a[10], a[11]);
    ColOfWord(a[12], a[13], a[14], a[15]);
  }

  method PutWord(w: bv32, a: array<bv8>, i: nat)
    requires i + 4 <= a.Length
    modifies a
    ensures a[i] == Top(w) && a[i + 1] == Second(w) && a[i + 2] == Third(w) && a[i + 3] == Low(w)
    ensures forall k :: 0 <= k < a.Length && !(i <= k < i + 4) ==> a[k] == old(a[k])
  {
    hide Top, Second, Third, Low;
    a[i] := Top(w);
    a[i + 1] := Second(w);
    a[i + 2] := Third(w);
    a[i + 3] := Low(w);
  }

  method PutBlock(q: Quad, a: array<bv8>)
    requires a.Length == 16
    modifies a
    ensures Bytes(a[..]) == BlockOf(q)
  {
    hide Top, Second, Third, Low;
    PutWord(q.w0, a, 0);
    PutWord(q.w1, a, 4);
    PutWord(q.w2, a, 8);
    PutWord(q.w3, a, 12);
  }

  // ---------------------------------------------------------------------------------------------
  // Rounds
  // ---------------------------------------------------------------------------------------------

  /** The word that four entries of the forward tables give. */
  function ForwardEntry(t: Tables, k: bv32, w: bv32, x: bv32, y: bv32, z: bv32): bv32
    requires t.Sized()
  {
    Sum5(k, t.ft0[Idx(Top(w))], t.ft1[Idx(Second(x))], t.ft2[Idx(Third(y))], t.ft3[Idx(Low(z))])
  }

  lemma ForwardEntryMixes(t: Tables, k: bv32, w: bv32, x: bv32, y: bv32, z: bv32)
    requires t.Valid()
    ensures ColOf(ForwardEntry(t, k, w, x, y, z))
         == AddCol(Mix(SubCol(Top(w), Second(x), Third(y), Low(z))), ColOf(k))
  {
    hide Top, Second, Third, Low, ColOf, SBox, InvSBox, ForwardWord, ReverseWord, Rotr8, Sum5, AddCol, Mix, Idx;
    assert t.RightAt(Top(w)) && t.RightAt(Second(x)) && t.RightAt(Third(y)) && t.RightAt(Low(z));
    ForwardTables(k, SBox(Top(w)), SBox(Second(x)), SBox(Third(y)), SBox(Low(z)));
  }

  function ForwardRound(t: Tables, k: Quad, y: Quad): Quad
    requires t.Sized()
  {
    Quad(ForwardEntry(t, k.w0, y.w0, y.w1, y.w2, y.w3), ForwardEntry(t, k.w1, y.w1, y.w2, y.w3, y.w0),
         ForwardEntry(t, k.w2, y.w2, y.w3, y.w0, y.w1), ForwardEntry(t, k.w3, y.w3, y.w0, y.w1, y.w2))
  }

  lemma ForwardRoundIs(t: Tables, k: Quad, y: Quad)
    requires t.Valid()
    ensures BlockOf(ForwardRound(t, k, y)) == AddBlock(MixBlock(SubShift(BlockOf(y))), BlockOf(k))
  {
    hide Top, Second, Third, Low, SBox, ForwardEntry, AddCol, Mix, Tables.Valid, Tables.Sized;
    ForwardEntryMixes(t, k.w0, y.w0, y.w1, y.w2, y.w3);
    ForwardEntryMixes(t, k.w1, y.w1, y.w2, y.w3, y.w0);
    ForwardEntryMixes(t, k.w2, y.w2, y.w3, y.w0, y.w1);
    ForwardEntryMixes(t, k.w3, y.w3, y.w0, y.w1, y.w2);
  }

  function ReverseEntry(t: Tables, k: bv32, w: bv32, x: bv32, y: bv32, z: bv32): bv32
    requires t.Sized()
  {
    Sum5(k, t.rt0[Idx(Top(w))], t.rt1[Idx(Second(x))], t.rt2[Idx(Third(y))], t.rt3[Idx(Low(z))])
  }

  lemma ReverseEntryUnmixes(t: Tables, k: bv32, w: bv32, x: bv32, y: bv32, z: bv32)
    requires t.Valid()
    ensures ColOf(ReverseEntry(t, k, w, x, y, z))
         == AddCol(Unmix(InvSubCol(Top(w), Second(x), Third(y), Low(z))), ColOf(k))
  {
    hide Top, Second, Third, Low, ColOf, SBox, InvSBox, ForwardWord, ReverseWord, Rotr8, Sum5, AddCol, Unmix, Idx;
    assert t.RightAt(Top(w)) && t.RightAt(Second(x)) && t.RightAt(Third(y)) && t.RightAt(Low(z));
    ReverseTables(k, InvSBox(Top(w)), InvSBox(Second(x)), InvSBox(Third(y)), InvSBox(Low(z)));
  }

  function ReverseRound(t: Tables, k: Quad, y: Quad): Quad
    requires t.Sized()
  {
    Quad(ReverseEntry(t, k.w0, y.w0, y.w3, y.w2, y.w1), ReverseEntry(t, k.w1, y.w1, y.w0, y.w3, y.w2),
         ReverseEntry(t, k.w2, y.w2, y.w1, y.w0, y.w3), ReverseEntry(t, k.w3, y.w3, y.w2, y.w1, y.w0))
  }

  lemma ReverseRoundIs(t: Tables, k: Quad, y: Quad)
    requires t.Valid()
    ensures BlockOf(ReverseRound(t, k, y)) == AddBlock(UnmixBlock(InvSubShift(BlockOf(y))), BlockOf(k))
  {
    hide Top, Second, Third, Low, InvSBox, ReverseEntry, AddCol, Unmix, Tables.Valid, Tables.Sized;
    ReverseEntryUnmixes(t, k.w0, y.w0, y.w3, y.w2, y.w1);
    ReverseEntryUnmixes(t, k.w1, y.w1, y.w0, y.w3, y.w2);
    ReverseEntryUnmixes(t, k.w2, y.w2, y.w1, y.w0, y.w3);
    ReverseEntryUnmixes(t, k.w3, y.w3, y.w2, y.w1, y.w0);
  }

  /** A key word and four substituted bytes, as the last rounds sum them. */
  function LastSum(k: bv32, a: bv8, b: bv8, c: bv8, d: bv8): bv32 {
    k ^ (a as bv32 << 24) ^ (b as bv32 << 16) ^ (c as bv32 << 8) ^ d as bv32
  }

  lemma LastSumIs(k: bv32, a: bv8, b: bv8, c: bv8, d: bv8)
    ensures ColOf(LastSum(k, a, b, c, d)) == AddCol(Col(a, b, c, d), ColOf(k))
    ensures LastSum(k, a, b, c, d) == Xor(k, Word(a, b, c, d))
  {
  }

  function LastEntry(box: seq<bv8>, k: bv32, w: bv32, x: bv32, y: bv32, z: bv32): bv32
    requires |box| == 256
  {
    LastSum(k, box[Idx(Top(w))], box[Idx(Second(x))], box[Idx(Third(y))], box[Idx(Low(z))])
  }

  function ForwardLast(t: Tables, k: Quad, y: Quad): Quad
    requires t.Sized()
  {
    Quad(LastEntry(t.fsb, k.w0, y.w0, y.w1, y.w2, y.w3), LastEntry(t.fsb, k.w1, y.w1, y.w2, y.w3, y.w0),
         LastEntry(t.fsb, k.w2, y.w2, y.w3, y.w0, y.w1), LastEntry(t.fsb, k.w3, y.w3, y.w0, y.w1, y.w2))
  }

  lemma ForwardLastEntry(t: Tables, k: bv32, w: bv32, x: bv32, y: bv32, z: bv32)
    requires t.Valid()
    ensures ColOf(LastEntry(t.fsb, k, w, x, y, z)) == AddCol(SubCol(Top(w), Second(x), Third(y), Low(z)), ColOf(k))
  {
    hide Top, Second, Third, Low, ColOf, SBox, InvSBox, Quarters, LastSum, AddCol, Idx;
    assert t.RightAt(Top(w)) && t.RightAt(Second(x)) && t.RightAt(Third(y)) && t.RightAt(Low(z));
    LastSumIs(k, SBox(Top(w)), SBox(Second(x)), SBox(Third(y)), SBox(Low(z)));
  }

  lemma ForwardLastIs(t: Tables, k: Quad, y: Quad)
    requires t.Valid()
    ensures BlockOf(ForwardLast(t, k, y)) == AddBlock(SubShift(BlockOf(y)), BlockOf(k))
  {
    hide Top, Second, Third, Low, SBox, LastEntry, AddCol, Tables.RightAt;
    ForwardLastEntry(t, k.w0, y.w0, y.w1, y.w2, y.w3);
    ForwardLastEntry(t, k.w1, y.w1, y.w2, y.w3, y.w0);
    ForwardLastEntry(t, k.w2, y.w2, y.w3, y.w0, y.w1);
    ForwardLastEntry(t, k.w3, y.w3, y.w0, y.w1, y.w2);
  }

  function ReverseLast(t: Tables, k: Quad, y: Quad): Quad
    requires t.Sized()
  {
    Quad(LastEntry(t.rsb, k.w0, y.w0, y.w3, y.w2, y.w1), LastEntry(t.rsb, k.w1, y.w1, y.w0, y.w3, y.w2),
         LastEntry(t.rsb, k.w2, y.w2, y.w1, y.w0, y.w3), LastEntry(t.rsb, k.w3, y.w3, y.w2, y.w1, y.w0))
  }

  lemma ReverseLastEntry(t: Tables, k: bv32, w: bv32, x: bv32, y: bv32, z: bv32)
    requires t.Valid()
    ensures ColOf(LastEntry(t.rsb, k, w, x, y, z)) == AddCol(InvSubCol(Top(w), Second(x), Third(y), Low(z)), ColOf(k))
  {
    hide Top, Second, Third, Low, ColOf, SBox, InvSBox, Quarters, LastSum, AddCol, Idx;
    assert t.RightAt(Top(w)) && t.RightAt(Second(x)) && t.RightAt(Third(y)) && t.RightAt(Low(z));
    LastSumIs(k, InvSBox(Top(w)), InvSBox(Second(x)), InvSBox(Third(y)), InvSBox(Low(z)));
  }

  lemma ReverseLastIs(t: Tables, k: Quad, y: Quad)
    requires t.Valid()
    ensures BlockOf(ReverseLast(t, k, y)) == AddBlock(InvSubShift(BlockOf(y)), BlockOf(k))
  {
    hide Top, Second, Third, Low, InvSBox, LastEntry, AddCol, Tables.RightAt;
    ReverseLastEntry(t, k.w0, y.w0, y.w3, y.w2, y.w1);
    ReverseLastEntry(t, k.w1, y.w1, y.w0, y.w3, y.w2);
    ReverseLastEntry(t, k.w2, y.w2, y.w1, y.w0, y.w3);
    ReverseLastEntry(t, k.w3, y.w3, y.w2, y.w1, y.w0);
  }

  // ---------------------------------------------------------------------------------------------
  // Key expansion
  // ---------------------------------------------------------------------------------------------

  ghost function SubWord(w: bv32): bv32 {
    Word(SBox(Top(w)), SBox(Second(w)), SBox(Third(w)), SBox(Low(w)))
  }

  function RotWord(w: bv32): bv32 {
    Word(Second(w), Third(w), Low(w), Top(w))
  }

  /** Word `i` of the key schedule, from the word `nk` back and the word before (section 5.2 of FIPS 197). */
  ghost function KeyWord(nk: nat, i: nat, back: bv32, prev: bv32): bv32
    requires 0 < nk <= i
  {
    if i % nk == 0 then Xor(back, Xor(SubWord(RotWord(prev)), RoundConstant((i - nk) / nk)))
    else if nk > 6 && i % nk == 4 then Xor(back, SubWord(prev))
    else Xor(back, prev)
  }

  lemma Place4(g: nat, j: nat)
    requires j < 4
    ensures (4 * g + 4 + j) % 4 == j && (4 * g + j) / 4 == g
  {
  }

  lemma Place6(g: nat, j: nat)
    requires j < 6
    ensures (6 * g + 6 + j) % 6 == j && (6 * g + j) / 6 == g
  {
  }

  lemma Place8(g: nat, j: nat)
    requires j < 8
    ensures (8 * g + 8 + j) % 8 == j && (8 * g + j) / 8 == g
  {
  }

  lemma GroupPlace(nk: nat, g: nat, j: nat)
    requires (nk == 4 || nk == 6 || nk == 8) && j < nk
    ensures nk * g + nk + j >= nk && (nk * g + nk + j) % nk == j && (nk * g + j) / nk == g
  {
    match nk
    case 4 => Place4(g, j);
    case 6 => Place6(g, j);
    case _ => Place8(g, j);
  }

  ghost predicate ExpandedAt(w: seq<bv32>, nk: nat, i: nat)
    requires 0 < nk <= i < |w|
  {
    w[i] == KeyWord(nk, i, w[i - nk], w[i - 1])
  }

  /** The first `n` words follow from the first `nk`. */
  ghost predicate Expanded(w: seq<bv32>, nk: nat, n: nat)
    requires 0 < nk && n <= |w|
  {
    forall i :: nk <= i < n ==> ExpandedAt(w, nk, i)
  }

  /** The sum that starts each group of key words: the rotation is in the choice of bytes. */
  function GroupStart(t: Tables, k: bv32, p: bv32): bv32
    requires t.Sized()
  {
    LastSum(k, t.fsb[Idx(Second(p))], t.fsb[Idx(Third(p))], t.fsb[Idx(Low(p))], t.fsb[Idx(Top(p))])
  }

  lemma GroupStartIs(t: Tables, g: nat, back: bv32, prev: bv32)
    requires t.Valid() && g < 10
    ensures GroupStart(t, Xor(back, t.rcon[g]), prev) == Xor(back, Xor(SubWord(RotWord(prev)), RoundConstant(g)))
  {
    hide Top, Second, Third, Low, Word, SBox, InvSBox, Quarters, LastSum, Xor, Idx, RoundConstant;
    assert t.RightAt(Top(prev)) && t.RightAt(Second(prev)) && t.RightAt(Third(prev)) && t.RightAt(Low(prev));
    LastSumIs(Xor(back, t.rcon[g]), SBox(Second(prev)), SBox(Third(prev)), SBox(Low(prev)), SBox(Top(prev)));
    ColOfWord(Second(prev), Third(prev), Low(prev), Top(prev));
    XorAssociates(back, t.rcon[g], SubWord(RotWord(prev)));
  }

  lemma XorAssociates(a: bv32, b: bv32, c: bv32)
    ensures Xor(Xor(a, b), c) == Xor(a, Xor(c, b))
  {
  }

  lemma SubWordEntry(t: Tables, k: bv32, w: bv32)
    requires t.Valid()
    ensures LastEntry(t.fsb, k, w, w, w, w) == Xor(k, SubWord(w))
  {
    hide Top, Second, Third, Low, Word, SBox, InvSBox, Quarters, LastSum, Xor, Idx;
    assert t.RightAt(Top(w)) && t.RightAt(Second(w)) && t.RightAt(Third(w)) && t.RightAt(Low(w));
    LastSumIs(k, SBox(Top(w)), SBox(Second(w)), SBox(Third(w)), SBox(Low(w)));
  }

  lemma FirstOfGroup(t: Tables, nk: nat, g: nat, back: bv32, prev: bv32)
    requires t.Valid() && g < 10 && (nk == 4 || nk == 6 || nk == 8)
    ensures GroupStart(t, Xor(back, t.rcon[g]), prev) == KeyWord(nk, nk * g + nk, back, prev)
  {
    hide GroupStart, RotWord, SubWord, RoundConstant, Xor;
    GroupPlace(nk, g, 0);
    GroupStartIs(t, g, back, prev);
  }

  lemma RestOfGroup(nk: nat, g: nat, j: nat, back: bv32, prev: bv32)
    requires (nk == 4 || nk == 6 || nk == 8) && 0 < j < nk && !(nk == 8 && j == 4)
    ensures Xor(back, prev) == KeyWord(nk, nk * g + nk + j, back, prev)
  {
    hide RotWord, SubWord, RoundConstant, Xor;
    GroupPlace(nk, g, j);
  }

  /** A word inside a group that is the sum of the word before and the one a key's length back. */
  lemma RestAt(w: seq<bv32>, nk: nat, g: nat, j: nat, i: nat)
    requires (nk == 4 || nk == 6 || nk == 8) && 0 < j < nk && !(nk == 8 && j == 4)
    requires nk <= i == nk * g + nk + j < |w| && w[i] == Xor(w[i - nk], w[i - 1])
    ensures ExpandedAt(w, nk, i)
  {
    hide KeyWord, Xor;
    RestOfGroup(nk, g, j, w[i - nk], w[i - 1]);
  }

  lemma MiddleOfGroup(t: Tables, g: nat, back: bv32, prev: bv32)
    requires t.Valid()
    ensures LastEntry(t.fsb, back, prev, prev, prev, prev) == KeyWord(8, 8 * g + 12, back, prev)
  {
    hide LastEntry, RotWord, SubWord, RoundConstant, Xor;
    GroupPlace(8, g, 4);
    SubWordEntry(t, back, prev);
  }

  lemma TablesSized(t: Tables)
    requires t.Valid()
    ensures t.Sized()
  {
  }

  lemma ConstantInTable(t: Tables, g: nat)
    requires t.Valid() && g < 10
    ensures t.rcon[g] == RoundConstant(g)
  {
  }

  lemma ExpandedStart(w: seq<bv32>, nk: nat)
    requires 0 < nk <= |w|
    ensures Expanded(w, nk, nk)
  {
  }

  /** Expansion so far survives in a longer stretch of words that begins alike. */
  lemma ExpandedPrefix(v: seq<bv32>, w: seq<bv32>, nk: nat, n: nat)
    requires 0 < nk && n <= |v| <= |w| && v[..n] == w[..n] && Expanded(v, nk, n)
    ensures Expanded(w, nk, n)
  {
    hide KeyWord;
    forall i | nk <= i < n
      ensures ExpandedAt(w, nk, i)
    {
      assert ExpandedAt(v, nk, i);
      assert w[i] == w[..n][i] && w[i - nk] == w[..n][i - nk] && w[i - 1] == w[..n][i - 1];
      assert v[i] == v[..n][i] && v[i - nk] == v[..n][i - nk] && v[i - 1] == v[..n][i - 1];
    }
  }

  /** The word that starts a group. */
  lemma StartAt(t: Tables, w: seq<bv32>, nk: nat, g: nat, i: nat)
    requires t.Valid() && g < 10 && (nk == 4 || nk == 6 || nk == 8) && nk <= i == nk * g + nk < |w|
    requires w[i] == GroupStart(t, Xor(w[i - nk], RoundConstant(g)), w[i - 1])
    ensures ExpandedAt(w, nk, i)
  {
    hide KeyWord, Xor, GroupStart, Tables.Valid, RoundConstant;
    TablesSized(t);
    ConstantInTable(t, g);
    FirstOfGroup(t, nk, g, w[i - nk], w[i - 1]);
  }

  /** The word in the middle of a group for 256 bits. */
  lemma MiddleAt(t: Tables, w: seq<bv32>, g: nat, i: nat)
    requires t.Valid() && i == 8 * g + 12 < |w|
    requires w[i] == LastEntry(t.fsb, w[i - 8], w[i - 1], w[i - 1], w[i - 1], w[i - 1])
    ensures ExpandedAt(w, 8, i)
  {
    hide KeyWord, LastEntry, Tables.Valid;
    TablesSized(t);
    MiddleOfGroup(t, g, w[i - 8], w[i - 1]);
  }

  ghost predicate Group128Done(t: Tables, w: seq<bv32>, p: nat, rcon: bv32)
    requires t.Sized() && p + 8 <= |w|
  {
    && w[p + 4] == GroupStart(t, Xor(w[p], rcon), w[p + 3])
    && w[p + 5] == Xor(w[p + 1], w[p + 4])
    && w[p + 6] == Xor(w[p + 2], w[p + 5])
    && w[p + 7] == Xor(w[p + 3], w[p + 6])
  }

  /** One group of 4 key words. */
  method Group128(t: Tables, rk: array<bv32>, p: nat, rcon: bv32)
    requires t.Sized() && p + 8 <= rk.Length
    modifies rk
    ensures rk[..p + 4] == old(rk[..p + 4])
    ensures Group128Done(t, rk[..], p, rcon)
  {
    hide Xor, GroupStart, LastEntry;
    rk[p + 4] := GroupStart(t, Xor(rk[p], rcon), rk[p + 3]);
    rk[p + 5] := Xor(rk[p + 1], rk[p + 4]);
    rk[p + 6] := Xor(rk[p + 2], rk[p + 5]);
    rk[p + 7] := Xor(rk[p + 3], rk[p + 6]);
    ghost var w := rk[..];
    assert forall k :: p <= k < p + 8 ==> w[k] == rk[k];
  }

  lemma Group128Expands(t: Tables, w: seq<bv32>, g: nat)
    requires t.Valid() && g < 10 && 4 * g + 8 <= |w|
    requires Expanded(w, 4, 4 * g + 4) && Group128Done(t, w, 4 * g, RoundConstant(g))
    ensures Expanded(w, 4, 4 * g + 8)
  {
    hide ExpandedAt, Xor, GroupStart, LastEntry, Tables.Valid, RoundConstant;
    var p := 4 * g;
    TablesSized(t);
    StartAt(t, w, 4, g, p + 4);
    RestAt(w, 4, g, 1, p + 5);
    RestAt(w, 4, g, 2, p + 6);
    RestAt(w, 4, g, 3, p + 7);
  }

  method Expand128(t: Tables, rk: array<bv32>)
    requires t.Valid() && rk.Length == 64
    modifies rk
    ensures rk[..4] == old(rk[..4]) && Expanded(rk[..], 4, 44)
  {
    hide KeyWord, Group128Done, Expanded, Tables.Valid, RoundConstant;
    ExpandedStart(rk[..], 4);
    TablesSized(t);
    for i := 0 to 10
      invariant rk[..4] == old(rk[..4]) && Expanded(rk[..], 4, 4 * i + 4)
    {
      ghost var before := rk[..];
      ConstantInTable(t, i);
      Group128(t, rk, 4 * i, t.rcon[i]);
      ExpandedPrefix(before, rk[..], 4, 4 * i + 4);
      Group128Expands(t, rk[..], i);
    }
  }

  ghost predicate Group192Done(t: Tables, w: seq<bv32>, p: nat, rcon: bv32)
    requires t.Sized() && p + 12 <= |w|
  {
    && w[p + 6] == GroupStart(t, Xor(w[p], rcon), w[p + 5])
    && w[p + 7] == Xor(w[p + 1], w[p + 6])
    && w[p + 8] == Xor(w[p + 2], w[p + 7])
    && w[p + 9] == Xor(w[p + 3], w[p + 8])
    && w[p + 10] == Xor(w[p + 4], w[p + 9])
    && w[p + 11] == Xor(w[p + 5], w[p + 10])
  }

  /** One group of 6 key words. */
  method Group192(t: Tables, rk: array<bv32>, p: nat, rcon: bv32)
    requires t.Sized() && p + 12 <= rk.Length
    modifies rk
    ensures rk[..p + 6] == old(rk[..p + 6])
    ensures Group192Done(t, rk[..], p, rcon)
  {
    hide Xor, GroupStart, LastEntry;
    rk[p + 6] := GroupStart(t, Xor(rk[p], rcon), rk[p + 5]);
    rk[p + 7] := Xor(rk[p + 1], rk[p + 6]);
    rk[p + 8] := Xor(rk[p + 2], rk[p + 7]);
    rk[p + 9] := Xor(rk[p + 3], rk[p + 8]);
    rk[p + 10] := Xor(rk[p + 4], rk[p + 9]);
    rk[p + 11] := Xor(rk[p + 5], rk[p + 10]);
    ghost var w := rk[..];
    assert forall k :: p <= k < p + 12 ==> w[k] == rk[k];
  }

  lemma Group192Early(t: Tables, w: seq<bv32>, g: nat, p: nat)
    requires t.Valid() && g < 8 && p == 6 * g && p + 12 <= |w|
    requires t.Sized() && Group192Done(t, w, p, RoundConstant(g))
    ensures ExpandedAt(w, 6, p + 6) && ExpandedAt(w, 6, p + 7) && ExpandedAt(w, 6, p + 8)
  {
    hide ExpandedAt, Xor, GroupStart, LastEntry, Tables.Valid, RoundConstant;
    StartAt(t, w, 6, g, p + 6);
    RestAt(w, 6, g, 1, p + 7);
    RestAt(w, 6, g, 2, p + 8);
  }

  lemma Group192Late(t: Tables, w: seq<bv32>, g: nat, p: nat)
    requires t.Valid() && g < 8 && p == 6 * g && p + 12 <= |w|
    requires t.Sized() && Group192Done(t, w, p, RoundConstant(g))
    ensures ExpandedAt(w, 6, p + 9) && ExpandedAt(w, 6, p + 10) && ExpandedAt(w, 6, p + 11)
  {
    hide ExpandedAt, Xor, GroupStart, LastEntry, Tables.Valid, RoundConstant;
    RestAt(w, 6, g, 3, p + 9);
    RestAt(w, 6, g, 4, p + 10);
    RestAt(w, 6, g, 5, p + 11);
  }

  lemma Group192Expands(t: Tables, w: seq<bv32>, g: nat)
    requires t.Valid() && g < 8 && 6 * g + 12 <= |w|
    requires Expanded(w, 6, 6 * g + 6) && Group192Done(t, w, 6 * g, RoundConstant(g))
    ensures Expanded(w, 6, 6 * g + 12)
  {
    hide ExpandedAt, Group192Done, Tables.Valid, RoundConstant;
    TablesSized(t);
    Group192Early(t, w, g, 6 * g);
    Group192Late(t, w, g, 6 * g);
  }

  method Expand192(t: Tables, rk: array<bv32>)
    requires t.Valid() && rk.Length == 64
    modifies rk
    ensures rk[..6] == old(rk[..6]) && Expanded(rk[..], 6, 54)
  {
    hide KeyWord, Group192Done, Expanded, Tables.Valid, RoundConstant;
    ExpandedStart(rk[..], 6);
    TablesSized(t);
    for i := 0 to 8
      invariant rk[..6] == old(rk[..6]) && Expanded(rk[..], 6, 6 * i + 6)
    {
      ghost var before := rk[..];
      ConstantInTable(t, i);
      Group192(t, rk, 6 * i, t.rcon[i]);
      ExpandedPrefix(before, rk[..], 6, 6 * i + 6);
      Group192Expands(t, rk[..], i);
    }
  }

  ghost predicate Group256Done(t: Tables, w: seq<bv32>, p: nat, rcon: bv32)
    requires t.Sized() && p + 16 <= |w|
  {
    && w[p + 8] == GroupStart(t, Xor(w[p], rcon), w[p + 7])
    && w[p + 9] == Xor(w[p + 1], w[p + 8])
    && w[p + 10] == Xor(w[p + 2], w[p + 9])
    && w[p + 11] == Xor(w[p + 3], w[p + 10])
    && w[p + 12] == LastEntry(t.fsb, w[p + 4], w[p + 11], w[p + 11], w[p + 11], w[p + 11])
    && w[p + 13] == Xor(w[p + 5], w[p + 12])
    && w[p + 14] == Xor(w[p + 6], w[p + 13])
    && w[p + 15] == Xor(w[p + 7], w[p + 14])
  }

  /** One group of 8 key words. */
  method Group256(t: Tables, rk: array<bv32>, p: nat, rcon: bv32)
    requires t.Sized() && p + 16 <= rk.Length
    modifies rk
    ensures rk[..p + 8] == old(rk[..p + 8])
    ensures Group256Done(t, rk[..], p, rcon)
  {
    hide Xor, GroupStart, LastEntry;
    rk[p + 8] := GroupStart(t, Xor(rk[p], rcon), rk[p + 7]);
    rk[p + 9] := Xor(rk[p + 1], rk[p + 8]);
    rk[p + 10] := Xor(rk[p + 2], rk[p + 9]);
    rk[p + 11] := Xor(rk[p + 3], rk[p + 10]);
    rk[p + 12] := LastEntry(t.fsb, rk[p + 4], rk[p + 11], rk[p + 11], rk[p + 11], rk[p + 11]);
    rk[p + 13] := Xor(rk[p + 5], rk[p + 12]);
    rk[p + 14] := Xor(rk[p + 6], rk[p + 13]);
    rk[p + 15] := Xor(rk[p + 7], rk[p + 14]);
    ghost var w := rk[..];
    assert forall k :: p <= k < p + 16 ==> w[k] == rk[k];
  }

  lemma Group256Early(t: Tables, w: seq<bv32>, g: nat, p: nat)
    requires t.Valid() && g < 7 && p == 8 * g && p + 16 <= |w|
    requires t.Sized() && Group256Done(t, w, p, RoundConstant(g))
    ensures ExpandedAt(w, 8, p + 8) && ExpandedAt(w, 8, p + 9) && ExpandedAt(w, 8, p + 10) && ExpandedAt(w, 8, p + 11)
  {
    hide ExpandedAt, Xor, GroupStart, LastEntry, Tables.Valid, RoundConstant;
    StartAt(t, w, 8, g, p + 8);
    RestAt(w, 8, g, 1, p + 9);
    RestAt(w, 8, g, 2, p + 10);
    RestAt(w, 8, g, 3, p + 11);
  }

  lemma Group256Late(t: Tables, w: seq<bv32>, g: nat, p: nat)
    requires t.Valid() && g < 7 && p == 8 * g && p + 16 <= |w|
    requires t.Sized() && Group256Done(t, w, p, RoundConstant(g))
    ensures ExpandedAt(w, 8, p + 12) && ExpandedAt(w, 8, p + 13) && ExpandedAt(w, 8, p + 14) && ExpandedAt(w, 8, p + 15)
  {
    hide ExpandedAt, Xor, GroupStart, LastEntry, Tables.Valid, RoundConstant;
    MiddleAt(t, w, g, p + 12);
    RestAt(w, 8, g, 5, p + 13);
    RestAt(w, 8, g, 6, p + 14);
    RestAt(w, 8, g, 7, p + 15);
  }

  lemma Group256Expands(t: Tables, w: seq<bv32>, g: nat)
    requires t.Valid() && g < 7 && 8 * g + 16 <= |w|
    requires Expanded(w, 8, 8 * g + 8) && Group256Done(t, w, 8 * g, RoundConstant(g))
    ensures Expanded(w, 8, 8 * g + 16)
  {
    hide ExpandedAt, Group256Done, Tables.Valid, RoundConstant;
    TablesSized(t);
    Group256Early(t, w, g, 8 * g);
    Group256Late(t, w, g, 8 * g);
  }

  method Expand256(t: Tables, rk: array<bv32>)
    requires t.Valid() && rk.Length == 64
    modifies rk
    ensures rk[..8] == old(rk[..8]) && Expanded(rk[..], 8, 64)
  {
    hide KeyWord, Group256Done, Expanded, Tables.Valid, RoundConstant;
    ExpandedStart(rk[..], 8);
    TablesSized(t);
    for i := 0 to 7
      invariant rk[..8] == old(rk[..8]) && Expanded(rk[..], 8, 8 * i + 8)
    {
      ghost var before := rk[..];
      ConstantInTable(t, i);
      Group256(t, rk, 8 * i, t.rcon[i]);
      ExpandedPrefix(before, rk[..], 8, 8 * i + 8);
      Group256Expands(t, rk[..], i);
    }
  }

  // ---------------------------------------------------------------------------------------------
  // Decryption keys
  // ---------------------------------------------------------------------------------------------

  function KeyQuad(w: seq<bv32>, r: nat): Quad
    requires 4 * r + 4 <= |w|
  {
    Quad(w[4 * r], w[4 * r + 1], w[4 * r + 2], w[4 * r + 3])
  }

  function KeyBlock(w: seq<bv32>, r: nat): Block
    requires 4 * r + 4 <= |w|
  {
    BlockOf(KeyQuad(w, r))
  }

  /** The round keys in a schedule of words. */
  function Keys(w: seq<bv32>, nr: nat): (ks: seq<Block>)
    requires 4 * nr + 4 <= |w|
    ensures |ks| == nr + 1 && forall r :: 0 <= r <= nr ==> ks[r] == KeyBlock(w, r)
  {
    seq(nr + 1, r requires 0 <= r <= nr => KeyBlock(w, r))
  }

  /** The word that four entries of the key tables give. */
  function KeyEntry(kt0: seq<bv32>, kt1: seq<bv32>, kt2: seq<bv32>, kt3: seq<bv32>, w: bv32): bv32
    requires |kt0| == |kt1| == |kt2| == |kt3| == 256
  {
    Xor(Xor(Xor(kt0[Idx(Top(w))], kt1[Idx(Second(w))]), kt2[Idx(Third(w))]), kt3[Idx(Low(w))])
  }

  lemma XorNothing(p: bv32, q: bv32, r: bv32, s: bv32, x: Col)
    ensures Xor(Xor(Xor(p, q), r), s) == Sum5(0, p, q, r, s)
    ensures AddCol(x, ColOf(0)) == x
  {
  }

  lemma KeyEntryUnmixes(kt0: seq<bv32>, kt1: seq<bv32>, kt2: seq<bv32>, kt3: seq<bv32>, w: bv32)
    requires KeyTables(kt0, kt1, kt2, kt3)
    ensures ColOf(KeyEntry(kt0, kt1, kt2, kt3, w)) == Unmix(ColOf(w))
  {
    hide Top, Second, Third, Low, ReverseWord, Rotr8, Sum5, AddCol, Unmix, Idx, Xor;
    var a, b, c, d := Top(w), Second(w), Third(w), Low(w);
    assert Quarters(ReverseWord(a), kt0[Idx(a)], kt1[Idx(a)], kt2[Idx(a)], kt3[Idx(a)]);
    assert Quarters(ReverseWord(b), kt0[Idx(b)], kt1[Idx(b)], kt2[Idx(b)], kt3[Idx(b)]);
    assert Quarters(ReverseWord(c), kt0[Idx(c)], kt1[Idx(c)], kt2[Idx(c)], kt3[Idx(c)]);
    assert Quarters(ReverseWord(d), kt0[Idx(d)], kt1[Idx(d)], kt2[Idx(d)], kt3[Idx(d)]);
    XorNothing(kt0[Idx(a)], kt1[Idx(b)], kt2[Idx(c)], kt3[Idx(d)], Unmix(ColOf(w)));
    ReverseTables(0, a, b, c, d);
  }

  method CopyWords(src: array<bv32>, rk: nat, dst: array<bv32>, sk: nat)
    requires src != dst && rk + 4 <= src.Length && sk + 4 <= dst.Length
    modifies dst
    ensures dst[..sk] == old(dst[..sk])
    ensures dst[sk] == src[rk] && dst[sk + 1] == src[rk + 1] && dst[sk + 2] == src[rk + 2] && dst[sk + 3] == src[rk + 3]
  {
    dst[sk] := src[rk];
    dst[sk + 1] := src[rk + 1];
    dst[sk + 2] := src[rk + 2];
    dst[sk + 3] := src[rk + 3];
  }

  method UnmixWords(kt0: seq<bv32>, kt1: seq<bv32>, kt2: seq<bv32>, kt3: seq<bv32>,
                    src: array<bv32>, rk: nat, dst: array<bv32>, sk: nat)
    requires |kt0| == |kt1| == |kt2| == |kt3| == 256
    requires src != dst && rk + 4 <= src.Length && sk + 4 <= dst.Length
    modifies dst
    ensures dst[..sk] == old(dst[..sk])
    ensures dst[sk] == KeyEntry(kt0, kt1, kt2, kt3, src[rk])
    ensures dst[sk + 1] == KeyEntry(kt0, kt1, kt2, kt3, src[rk + 1])
    ensures dst[sk + 2] == KeyEntry(kt0, kt1, kt2, kt3, src[rk + 2])
    ensures dst[sk + 3] == KeyEntry(kt0, kt1, kt2, kt3, src[rk + 3])
  {
    hide KeyEntry;
    dst[sk] := KeyEntry(kt0, kt1, kt2, kt3, src[rk]);
    dst[sk + 1] := KeyEntry(kt0, kt1, kt2, kt3, src[rk + 1]);
    dst[sk + 2] := KeyEntry(kt0, kt1, kt2, kt3, src[rk + 2]);
    dst[sk + 3] := KeyEntry(kt0, kt1, kt2, kt3, src[rk + 3]);
  }

  /** The first `n` decryption keys are in place. */
  ghost predicate Reversed(e: seq<bv32>, d: seq<bv32>, nr: nat, n: nat)
    requires 4 * nr + 4 <= |e| && 4 * n <= |d| && n <= nr
  {
    && (n > 0 ==> KeyBlock(d, 0) == KeyBlock(e, nr))
    && forall r :: 1 <= r < n ==> KeyBlock(d, r) == UnmixBlock(KeyBlock(e, nr - r))
  }

  lemma SameKey(v: seq<bv32>, w: seq<bv32>, r: nat)
    requires 4 * r + 4 <= |v| && 4 * r + 4 <= |w| && v[..4 * r + 4] == w[..4 * r + 4]
    ensures KeyBlock(v, r) == KeyBlock(w, r)
  {
    hide BlockOf;
    forall k | 0 <= k < 4 * r + 4
      ensures v[k] == w[k]
    {
      assert v[..4 * r + 4][k] == w[..4 * r + 4][k];
    }
  }

  lemma ReversedPrefix(e: seq<bv32>, d: seq<bv32>, d': seq<bv32>, nr: nat, n: nat)
    requires 4 * nr + 4 <= |e| && 4 * n <= |d| == |d'| && n <= nr && d[..4 * n] == d'[..4 * n]
    requires Reversed(e, d, nr, n)
    ensures Reversed(e, d', nr, n)
  {
    hide KeyBlock;
    forall r: nat | r < n
      ensures KeyBlock(d, r) == KeyBlock(d', r)
    {
      assert d[..4 * r + 4] == d[..4 * n][..4 * r + 4];
      assert d'[..4 * r + 4] == d'[..4 * n][..4 * r + 4];
      SameKey(d, d', r);
    }
  }

  lemma UnmixedKey(kt0: seq<bv32>, kt1: seq<bv32>, kt2: seq<bv32>, kt3: seq<bv32>,
      e: seq<bv32>, d: seq<bv32>, r: nat, s: nat)
    requires KeyTables(kt0, kt1, kt2, kt3) && 4 * r + 4 <= |e| && 4 * s + 4 <= |d|
    requires d[4 * s] == KeyEntry(kt0, kt1, kt2, kt3, e[4 * r])
    requires d[4 * s + 1] == KeyEntry(kt0, kt1, kt2, kt3, e[4 * r + 1])
    requires d[4 * s + 2] == KeyEntry(kt0, kt1, kt2, kt3, e[4 * r + 2])
    requires d[4 * s + 3] == KeyEntry(kt0, kt1, kt2, kt3, e[4 * r + 3])
    ensures KeyBlock(d, s) == UnmixBlock(KeyBlock(e, r))
  {
    hide KeyTables, KeyEntry, ColOf, Unmix;
    KeyEntryUnmixes(kt0, kt1, kt2, kt3, e[4 * r]);
    KeyEntryUnmixes(kt0, kt1, kt2, kt3, e[4 * r + 1]);
    KeyEntryUnmixes(kt0, kt1, kt2, kt3, e[4 * r + 2]);
    KeyEntryUnmixes(kt0, kt1, kt2, kt3, e[4 * r + 3]);
  }

  lemma ReversedFirst(e: seq<bv32>, d: seq<bv32>, nr: nat)
    requires 4 * nr + 4 <= |e| && 4 <= |d| && 1 <= nr
    requires d[0] == e[4 * nr] && d[1] == e[4 * nr + 1] && d[2] == e[4 * nr + 2] && d[3] == e[4 * nr + 3]
    ensures Reversed(e, d, nr, 1)
  {
    hide ColOf;
  }

  lemma ReversedNext(e: seq<bv32>, d: seq<bv32>, nr: nat, n: nat)
    requires 4 * nr + 4 <= |e| && 4 * n + 4 <= |d| && 1 <= n < nr
    requires Reversed(e, d, nr, n) && KeyBlock(d, n) == UnmixBlock(KeyBlock(e, nr - n))
    ensures Reversed(e, d, nr, n + 1)
  {
    hide KeyBlock, UnmixBlock;
  }

  lemma ReversedAll(e: seq<bv32>, d: seq<bv32>, nr: nat)
    requires 4 * nr + 4 <= |e| && 4 * nr + 4 <= |d| && 1 <= nr
    requires Reversed(e, d, nr, nr)
    requires d[4 * nr] == e[0] && d[4 * nr + 1] == e[1] && d[4 * nr + 2] == e[2] && d[4 * nr + 3] == e[3]
    ensures KeysInverse(Keys(e, nr), Keys(d, nr))
  {
    hide UnmixBlock, ColOf;
    assert KeyBlock(d, nr) == KeyBlock(e, 0);
    hide KeyBlock;
  }

  /** The decryption keys, read from the encryption keys backwards. */
  method BuildDrk(t: Tables, erk: array<bv32>, drk: array<bv32>, nr: nat)
    requires t.Valid() && erk != drk && erk.Length == drk.Length == 64 && 1 <= nr <= 14
    modifies drk
    ensures KeysInverse(Keys(erk[..], nr), Keys(drk[..], nr))
  {
    hide Tables.Valid, KeyTables, KeyEntry, KeyBlock, UnmixBlock, Reversed, Keys, KeysInverse;
    var kt0, kt1, kt2, kt3 := GenKeyTables(t);
    KeyTablesSized(kt0, kt1, kt2, kt3);
    ghost var e := erk[..];
    var rk := 4 * nr;
    CopyWords(erk, rk, drk, 0);
    ReversedFirst(e, drk[..], nr);
    rk := rk + 4;
    var sk := 4;
    for i := 1 to nr
      invariant rk == 4 * (nr - i) + 8 && sk == 4 * i
      invariant Reversed(e, drk[..], nr, i) && erk[..] == e
    {
      rk := rk - 8;
      ghost var before := drk[..];
      UnmixWords(kt0, kt1, kt2, kt3, erk, rk, drk, sk);
      ghost var d := drk[..];
      ReversedPrefix(e, before, d, nr, i);
      UnmixedKey(kt0, kt1, kt2, kt3, e, d, nr - i, i);
      ReversedNext(e, d, nr, i);
      rk := rk + 4;
      sk := sk + 4;
    }
    rk := rk - 8;
    ghost var before := drk[..];
    CopyWords(erk, rk, drk, sk);
    ReversedPrefix(e, before, drk[..], nr, nr);
    ReversedAll(e, drk[..], nr);
  }

  lemma KeyTablesSized(kt0: seq<bv32>, kt1: seq<bv32>, kt2: seq<bv32>, kt3: seq<bv32>)
    requires KeyTables(kt0, kt1, kt2, kt3)
    ensures |kt0| == |kt1| == |kt2| == |kt3| == 256
  {
  }

  // ---------------------------------------------------------------------------------------------
  // The cipher context
  // ---------------------------------------------------------------------------------------------

  ghost predicate Reached(ks: seq<Block>, x: Block, n: nat, q: Quad, encrypting: bool)
    requires n < |ks|
  {
    BlockOf(q) == if encrypting then Forward(x, ks, n) else Backward(x, ks, n)
  }

  /** One round of encryption. */
  method FRound(t: Tables, rk: array<bv32>, r: nat, y: Quad, ghost x: Block, ghost ks: seq<Block>) returns (z: Quad)
    requires t.Valid() && 4 * r + 4 <= rk.Length && 1 <= r < |ks| && ks[r] == KeyBlock(rk[..], r)
    requires Reached(ks, x, r - 1, y, true)
    ensures Reached(ks, x, r, z, true)
  {
    hide Tables.Valid, ForwardRound, SubShift, MixBlock, AddBlock, BlockOf;
    TablesSized(t);
    var k := Quad(rk[4 * r], rk[4 * r + 1], rk[4 * r + 2], rk[4 * r + 3]);
    z := ForwardRound(t, k, y);
    ForwardRoundIs(t, k, y);
  }

  /** One round of decryption. */
  method RRound(t: Tables, rk: array<bv32>, r: nat, y: Quad, ghost x: Block, ghost ks: seq<Block>) returns (z: Quad)
    requires t.Valid() && 4 * r + 4 <= rk.Length && 1 <= r < |ks| && ks[r] == KeyBlock(rk[..], r)
    requires Reached(ks, x, r - 1, y, false)
    ensures Reached(ks, x, r, z, false)
  {
    hide Tables.Valid, ReverseRound, InvSubShift, UnmixBlock, AddBlock, BlockOf;
    TablesSized(t);
    var k := Quad(rk[4 * r], rk[4 * r + 1], rk[4 * r + 2], rk[4 * r + 3]);
    z := ReverseRound(t, k, y);
    ReverseRoundIs(t, k, y);
  }

  lemma ForwardFirst(x: Block, ks: seq<Block>, q: Quad, k: Quad)
    requires |ks| >= 1 && BlockOf(q) == x && ks[0] == BlockOf(k)
    ensures Reached(ks, x, 0, XorQuad(q, k), true) && Reached(ks, x, 0, XorQuad(q, k), false)
  {
    hide BlockOf, AddBlock;
    BlockOfXor(q, k);
  }

  lemma ForwardEnds(t: Tables, x: Block, ks: seq<Block>, y: Quad, k: Quad)
    requires t.Valid() && |ks| >= 2 && Reached(ks, x, |ks| - 2, y, true) && BlockOf(k) == ks[|ks| - 1]
    ensures t.Sized() && BlockOf(ForwardLast(t, k, y)) == Encrypted(x, ks)
  {
    hide BlockOf, AddBlock, SubShift, MixBlock, ForwardLast;
    ForwardLastIs(t, k, y);
  }

  lemma BackwardEnds(t: Tables, x: Block, ks: seq<Block>, y: Quad, k: Quad)
    requires t.Valid() && |ks| >= 2 && Reached(ks, x, |ks| - 2, y, false) && BlockOf(k) == ks[|ks| - 1]
    ensures t.Sized() && BlockOf(ReverseLast(t, k, y)) == Decrypted(x, ks)
  {
    hide BlockOf, AddBlock, InvSubShift, UnmixBlock, ReverseLast;
    ReverseLastIs(t, k, y);
  }

  method GetKey(rk: array<bv32>, r: nat) returns (k: Quad)
    requires 4 * r + 4 <= rk.Length
    ensures k == KeyQuad(rk[..], r)
  {
    k := Quad(rk[4 * r], rk[4 * r + 1], rk[4 * r + 2], rk[4 * r + 3]);
  }

  predicate RoundCount(nr: nat) {
    nr == 10 || nr == 12 || nr == 14
  }

  /** All forward rounds but the last, on the state in `x`. */
  method ForwardRounds(t: Tables, rk: array<bv32>, nr: nat, s: Quad, ghost b: Block) returns (y: Quad)
    requires t.Valid() && RoundCount(nr) && rk.Length == 64
    requires Reached(Keys(rk[..], nr), b, 0, s, true)
    ensures Reached(Keys(rk[..], nr), b, nr - 1, y, true)
  {
    hide Tables.Valid, Reached, KeyBlock;
    ghost var ks := Keys(rk[..], nr);
    var x := s;
    y := FRound(t, rk, 1, x, b, ks);
    x := FRound(t, rk, 2, y, b, ks);
    y := FRound(t, rk, 3, x, b, ks);
    x := FRound(t, rk, 4, y, b, ks);
    y := FRound(t, rk, 5, x, b, ks);
    x := FRound(t, rk, 6, y, b, ks);
    y := FRound(t, rk, 7, x, b, ks);
    x := FRound(t, rk, 8, y, b, ks);
    y := FRound(t, rk, 9, x, b, ks);
    if nr > 10 {
      x := FRound(t, rk, 10, y, b, ks);
      y := FRound(t, rk, 11, x, b, ks);
    }
    if nr > 12 {
      x := FRound(t, rk, 12, y, b, ks);
      y := FRound(t, rk, 13, x, b, ks);
    }
  }

  method ReverseRounds(t: Tables, rk: array<bv32>, nr: nat, s: Quad, ghost b: Block) returns (y: Quad)
    requires t.Valid() && RoundCount(nr) && rk.Length == 64
    requires Reached(Keys(rk[..], nr), b, 0, s, false)
    ensures Reached(Keys(rk[..], nr), b, nr - 1, y, false)
  {
    hide Tables.Valid, Reached, KeyBlock;
    ghost var ks := Keys(rk[..], nr);
    var x := s;
    y := RRound(t, rk, 1, x, b, ks);
    x := RRound(t, rk, 2, y, b, ks);
    y := RRound(t, rk, 3, x, b, ks);
    x := RRound(t, rk, 4, y, b, ks);
    y := RRound(t, rk, 5, x, b, ks);
    x := RRound(t, rk, 6, y, b, ks);
    y := RRound(t, rk, 7, x, b, ks);
    x := RRound(t, rk, 8, y, b, ks);
    y := RRound(t, rk, 9, x, b, ks);
    if nr > 10 {
      x := RRound(t, rk, 10, y, b, ks);
      y := RRound(t, rk, 11, x, b, ks);
    }
    if nr > 12 {
      x := RRound(t, rk, 12, y, b, ks);
      y := RRound(t, rk, 13, x, b, ks);
    }
  }

  method EncryptBlock(t: Tables, rk: array<bv32>, nr: nat, x: Quad) returns (z: Quad)
    requires t.Valid() && RoundCount(nr) && rk.Length == 64
    ensures BlockOf(z) == Encrypted(BlockOf(x), Keys(rk[..], nr))
  {
    hide Tables.Valid, Reached, BlockOf;
    ghost var b, ks := BlockOf(x), Keys(rk[..], nr);
    var k := GetKey(rk, 0);
    ForwardFirst(b, ks, x, k);
    var y := ForwardRounds(t, rk, nr, XorQuad(x, k), b);
    k := GetKey(rk, nr);
    ForwardEnds(t, b, ks, y, k);
    z := ForwardLast(t, k, y);
  }

  method DecryptBlock(t: Tables, rk: array<bv32>, nr: nat, x: Quad) returns (z: Quad)
    requires t.Valid() && RoundCount(nr) && rk.Length == 64
    ensures BlockOf(z) == Decrypted(BlockOf(x), Keys(rk[..], nr))
  {
    hide Tables.Valid, Reached, BlockOf;
    ghost var b, ks := BlockOf(x), Keys(rk[..], nr);
    var k := GetKey(rk, 0);
    ForwardFirst(b, ks, x, k);
    var y := ReverseRounds(t, rk, nr, XorQuad(x, k), b);
    k := GetKey(rk, nr);
    BackwardEnds(t, b, ks, y, k);
    z := ReverseLast(t, k, y);
  }

  /** Key words in the order of the key's bytes. */
  ghost predicate Loaded(w: seq<bv32>, key: seq<bv8>, n: nat)
    requires n <= |w| && 4 * n <= |key|
  {
    forall i :: 0 <= i < n ==> ColOf(w[i]) == Col(key[4 * i], key[4 * i + 1], key[4 * i + 2], key[4 * i + 3])
  }

  method LoadKey(key: array<bv8>, n: nat, rk: array<bv32>)
    requires 4 * n <= key.Length && n <= rk.Length
    modifies rk
    ensures Loaded(rk[..], key[..], n)
  {
    hide ColOf, Word;
    for i := 0 to n
      invariant forall j :: 0 <= j < i ==> ColOf(rk[j]) == Col(key[4 * j], key[4 * j + 1], key[4 * j + 2], key[4 * j + 3])
    {
      rk[i] := Word(key[4 * i], key[4 * i + 1], key[4 * i + 2], key[4 * i + 3]);
      ColOfWord(key[4 * i], key[4 * i + 1], key[4 * i + 2], key[4 * i + 3]);
    }
  }

  lemma StillLoaded(v: seq<bv32>, w: seq<bv32>, key: seq<bv8>, n: nat)
    requires n <= |v| == |w| && 4 * n <= |key| && v[..n] == w[..n] && Loaded(v, key, n)
    ensures Loaded(w, key, n)
  {
    hide ColOf;
    forall i | 0 <= i < n
      ensures w[i] == v[i]
    {
      assert w[..n][i] == v[..n][i];
    }
  }

  /** The key schedule of FIPS 197 for this key. */
  ghost predicate Schedule(w: seq<bv32>, key: seq<bv8>, nk: nat)
    requires 0 < nk <= 8 && |w| == 64 && 4 * nk <= |key|
  {
    Loaded(w, key, nk) && Expanded(w, nk, 4 * (nk + 7))
  }

  lemma ExpandedLess(w: seq<bv32>, nk: nat, m: nat, n: nat)
    requires 0 < nk && m <= n <= |w| && Expanded(w, nk, n)
    ensures Expanded(w, nk, m)
  {
    hide ExpandedAt;
  }

  class Context {
    const t: Tables
    const erk: array<bv32>
    const drk: array<bv32>
    var nr: nat

    ghost predicate Valid() {
      t.Valid() && erk != drk && erk.Length == drk.Length == 64
    }

    /** A key has been set. */
    ghost predicate Ready()
      reads this, erk, drk
    {
      Valid() && RoundCount(nr) && KeysInverse(Keys(erk[..], nr), Keys(drk[..], nr))
    }

    constructor ()
      ensures Valid() && fresh(erk) && fresh(drk)
    {
      var tables := GenTables();
      t := tables;
      erk, drk := new bv32[64](_ => 0), new bv32[64](_ => 0);
      nr := 0;
    }

    /** Sets the key; a key of no known length is refused and changes nothing. */
    method SetKey(key: array<bv8>, nbits: int) returns (r: int)
      requires Valid() && (nbits == 128 || nbits == 192 || nbits == 256 ==> key.Length * 8 >= nbits)
      modifies this, erk, drk
      ensures r == 0 <==> nbits == 128 || nbits == 192 || nbits == 256
      ensures r == 0 ==> Ready() && nr == nbits / 32 + 6 && Schedule(erk[..], key[..], nbits / 32)
      ensures r != 0 ==> r == 1 && nr == old(nr) && erk[..] == old(erk[..]) && drk[..] == old(drk[..])
    {
      hide Tables.Valid, Loaded, Expanded, KeysInverse, Keys;
      if nbits == 128 {
        nr := 10;
      } else if nbits == 192 {
        nr := 12;
      } else if nbits == 256 {
        nr := 14;
      } else {
        return 1;
      }
      LoadKey(key, nbits / 32, erk);
      ghost var loaded := erk[..];
      if nbits == 128 {
        Expand128(t, erk);
      } else if nbits == 192 {
        Expand192(t, erk);
        ExpandedLess(erk[..], 6, 52, 54);
      } else {
        Expand256(t, erk);
        ExpandedLess(erk[..], 8, 60, 64);
      }
      StillLoaded(loaded, erk[..], key[..], nbits / 32);
      BuildDrk(t, erk, drk, nr);
      r := 0;
    }

    /** Encrypts a block; `input` and `output` may be one buffer. */
    method Encrypt(input: array<bv8>, output: array<bv8>)
      requires Ready() && input.Length == output.Length == 16
      modifies output
      ensures Ready() && Bytes(output[..]) == Encrypted(old(Bytes(input[..])), Keys(erk[..], nr))
    {
      hide Tables.Valid, KeysInverse, BlockOf, Bytes, Keys, Encrypted;
      var x := GetBlock(input);
      var z := EncryptBlock(t, erk, nr, x);
      PutBlock(z, output);
    }

    method Decrypt(input: array<bv8>, output: array<bv8>)
      requires Ready() && input.Length == output.Length == 16
      modifies output
      ensures Ready() && Bytes(output[..]) == Decrypted(old(Bytes(input[..])), Keys(drk[..], nr))
    {
      hide Tables.Valid, KeysInverse, BlockOf, Bytes, Keys, Decrypted;
      var x := GetBlock(input);
      var z := DecryptBlock(t, drk, nr, x);
      PutBlock(z, output);
    }

    lemma Undone(x: Block)
      requires Ready()
      ensures Decrypted(Encrypted(x, Keys(erk[..], nr)), Keys(drk[..], nr)) == x
    {
      hide Tables.Valid, KeysInverse, Encrypted, Decrypted;
      DecryptedInverts(x, Keys(erk[..], nr), Keys(drk[..], nr));
    }

    method EncryptDecrypt(input: array<bv8>, output: array<bv8>)
      requires Ready() && input.Length == output.Length == 16
      modifies output
      ensures Ready() && output[..] == old(input[..])
    {
      hide *;
      ghost var plain := input[..];
      Encrypt(input, output);
      Decrypt(output, output);
      Undone(Bytes(plain));
      BytesInjective(output[..], plain);
    }

    /** Whatever the key, decrypting what was encrypted gives the block back. */
    method RoundTrip(key: array<bv8>, nbits: int, input: array<bv8>, output: array<bv8>)
      requires Valid() && (nbits == 128 || nbits == 192 || nbits == 256) && key.Length * 8 >= nbits
      requires input.Length == output.Length == 16
      modifies this, erk, drk, output
      ensures output[..] == old(input[..])
    {
      hide *;
      var r := SetKey(key, nbits);
      EncryptDecrypt(input, output);
    }
  }
}
