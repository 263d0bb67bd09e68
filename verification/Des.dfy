/**
  The DES and triple-DES block ciphers (FIPS 46-3), on the program's own words: a block is eight
  bytes, the state two 32-bit words, a round key six bytes.
 */
module Des {

  datatype Block = Block(b0: bv8, b1: bv8, b2: bv8, b3: bv8, b4: bv8, b5: bv8, b6: bv8, b7: bv8)
  datatype RoundKey = RoundKey(k0: bv8, k1: bv8, k2: bv8, k3: bv8, k4: bv8, k5: bv8)
  datatype Mode = Encrypt | Decrypt

  function Other(mode: Mode): Mode {
    if mode == Encrypt then Decrypt else Encrypt
  }

  function Byte(b: Block, i: bv3): bv8 {
    if i == 0 then b.b0 else if i == 1 then b.b1 else if i == 2 then b.b2 else if i == 3 then b.b3
    else if i == 4 then b.b4 else if i == 5 then b.b5 else if i == 6 then b.b6 else b.b7
  }

  /** Bit `i` of a block, counted from the left, put `c` places from the right. */
  function BitNum(b: Block, i: bv6, c: bv5): bv32 {
    ((Byte(b, ((i >> 3) & 7) as bv3) >> (7 - ((i & 7) as bv3))) & 1) as bv32 << c
  }

  /** Bit `i` of a word, counted from the left, put `c` places from the right of a byte. */
  function BitNumIntR(w: bv32, i: bv5, c: bv3): bv8 {
    ((w >> (31 - i)) & 1) as bv8 << c
  }

  /** Bit `i` of a word, counted from the left, put `c` places from the left. */
  function BitNumIntL(w: bv32, i: bv5, c: bv5): bv32 {
    ((w << i) & 0x8000_0000) >> c
  }

  // ---------------------------------------------------------------------------------------------
  // The initial permutation and its inverse
  // ---------------------------------------------------------------------------------------------

  function InitialLeft(b: Block): bv32 {
      BitNum(b, 57, 31) | BitNum(b, 49, 30) | BitNum(b, 41, 29) | BitNum(b, 33, 28)
      | BitNum(b, 25, 27) | BitNum(b, 17, 26) | BitNum(b, 9, 25) | BitNum(b, 1, 24)
      | BitNum(b, 59, 23) | BitNum(b, 51, 22) | BitNum(b, 43, 21) | BitNum(b, 35, 20)
      | BitNum(b, 27, 19) | BitNum(b, 19, 18) | BitNum(b, 11, 17) | BitNum(b, 3, 16)
      | BitNum(b, 61, 15) | BitNum(b, 53, 14) | BitNum(b, 45, 13) | BitNum(b, 37, 12)
      | BitNum(b, 29, 11) | BitNum(b, 21, 10) | BitNum(b, 13, 9) | BitNum(b, 5, 8)
      | BitNum(b, 63, 7) | BitNum(b, 55, 6) | BitNum(b, 47, 5) | BitNum(b, 39, 4)
      | BitNum(b, 31, 3) | BitNum(b, 23, 2) | BitNum(b, 15, 1) | BitNum(b, 7, 0)
  }

  function InitialRight(b: Block): bv32 {
      BitNum(b, 56, 31) | BitNum(b, 48, 30) | BitNum(b, 40, 29) | BitNum(b, 32, 28)
      | BitNum(b, 24, 27) | BitNum(b, 16, 26) | BitNum(b, 8, 25) | BitNum(b, 0, 24)
      | BitNum(b, 58, 23) | BitNum(b, 50, 22) | BitNum(b, 42, 21) | BitNum(b, 34, 20)
      | BitNum(b, 26, 19) | BitNum(b, 18, 18) | BitNum(b, 10, 17) | BitNum(b, 2, 16)
      | BitNum(b, 60, 15) | BitNum(b, 52, 14) | BitNum(b, 44, 13) | BitNum(b, 36, 12)
      | BitNum(b, 28, 11) | BitNum(b, 20, 10) | BitNum(b, 12, 9) | BitNum(b, 4, 8)
      | BitNum(b, 62, 7) | BitNum(b, 54, 6) | BitNum(b, 46, 5) | BitNum(b, 38, 4)
      | BitNum(b, 30, 3) | BitNum(b, 22, 2) | BitNum(b, 14, 1) | BitNum(b, 6, 0)
  }

  function FinalBlock(l: bv32, r: bv32): Block {
    Block(
      BitNumIntR(r, 7, 7) | BitNumIntR(l, 7, 6) | BitNumIntR(r, 15, 5) | BitNumIntR(l, 15, 4)
      | BitNumIntR(r, 23, 3) | BitNumIntR(l, 23, 2) | BitNumIntR(r, 31, 1) | BitNumIntR(l, 31, 0),
      BitNumIntR(r, 6, 7) | BitNumIntR(l, 6, 6) | BitNumIntR(r, 14, 5) | BitNumIntR(l, 14, 4)
      | BitNumIntR(r, 22, 3) | BitNumIntR(l, 22, 2) | BitNumIntR(r, 30, 1) | BitNumIntR(l, 30, 0),
      BitNumIntR(r, 5, 7) | BitNumIntR(l, 5, 6) | BitNumIntR(r, 13, 5) | BitNumIntR(l, 13, 4)
      | BitNumIntR(r, 21, 3) | BitNumIntR(l, 21, 2) | BitNumIntR(r, 29, 1) | BitNumIntR(l, 29, 0),
      BitNumIntR(r, 4, 7) | BitNumIntR(l, 4, 6) | BitNumIntR(r, 12, 5) | BitNumIntR(l, 12, 4)
      | BitNumIntR(r, 20, 3) | BitNumIntR(l, 20, 2) | BitNumIntR(r, 28, 1) | BitNumIntR(l, 28, 0),
      BitNumIntR(r, 3, 7) | BitNumIntR(l, 3, 6) | BitNumIntR(r, 11, 5) | BitNumIntR(l, 11, 4)
      | BitNumIntR(r, 19, 3) | BitNumIntR(l, 19, 2) | BitNumIntR(r, 27, 1) | BitNumIntR(l, 27, 0),
      BitNumIntR(r, 2, 7) | BitNumIntR(l, 2, 6) | BitNumIntR(r, 10, 5) | BitNumIntR(l, 10, 4)
      | BitNumIntR(r, 18, 3) | BitNumIntR(l, 18, 2) | BitNumIntR(r, 26, 1) | BitNumIntR(l, 26, 0),
      BitNumIntR(r, 1, 7) | BitNumIntR(l, 1, 6) | BitNumIntR(r, 9, 5) | BitNumIntR(l, 9, 4)
      | BitNumIntR(r, 17, 3) | BitNumIntR(l, 17, 2) | BitNumIntR(r, 25, 1) | BitNumIntR(l, 25, 0),
      BitNumIntR(r, 0, 7) | BitNumIntR(l, 0, 6) | BitNumIntR(r, 8, 5) | BitNumIntR(l, 8, 4)
      | BitNumIntR(r, 16, 3) | BitNumIntR(l, 16, 2) | BitNumIntR(r, 24, 1) | BitNumIntR(l, 24, 0)
    )
  }

  lemma FinalInvertsInitial(b: Block)
    ensures FinalBlock(InitialLeft(b), InitialRight(b)) == b
  {
  }

  lemma InitialInvertsFinal(l: bv32, r: bv32)
    ensures InitialLeft(FinalBlock(l, r)) == l
    ensures InitialRight(FinalBlock(l, r)) == r
  {
  }

  // ---------------------------------------------------------------------------------------------
  // The round function
  // ---------------------------------------------------------------------------------------------

  const SBOX1: seq<bv8> :=
    [14, 4, 13, 1, 2, 15, 11, 8, 3, 10, 6, 12, 5, 9, 0, 7]
    + [0, 15, 7, 4, 14, 2, 13, 1, 10, 6, 12, 11, 9, 5, 3, 8]
    + [4, 1, 14, 8, 13, 6, 2, 11, 15, 12, 9, 7, 3, 10, 5, 0]
    + [15, 12, 8, 2, 4, 9, 1, 7, 5, 11, 3, 14, 10, 0, 6, 13]
  const SBOX2: seq<bv8> :=
    [15, 1, 8, 14, 6, 11, 3, 4, 9, 7, 2, 13, 12, 0, 5, 10]
    + [3, 13, 4, 7, 15, 2, 8, 14, 12, 0, 1, 10, 6, 9, 11, 5]
    + [0, 14, 7, 11, 10, 4, 13, 1, 5, 8, 12, 6, 9, 3, 2, 15]
    + [13, 8, 10, 1, 3, 15, 4, 2, 11, 6, 7, 12, 0, 5, 14, 9]
  const SBOX3: seq<bv8> :=
    [10, 0, 9, 14, 6, 3, 15, 5, 1, 13, 12, 7, 11, 4, 2, 8]
    + [13, 7, 0, 9, 3, 4, 6, 10, 2, 8, 5, 14, 12, 11, 15, 1]
    + [13, 6, 4, 9, 8, 15, 3, 0, 11, 1, 2, 12, 5, 10, 14, 7]
    + [1, 10, 13, 0, 6, 9, 8, 7, 4, 15, 14, 3, 11, 5, 2, 12]
  const SBOX4: seq<bv8> :=
    [7, 13, 14, 3, 0, 6, 9, 10, 1, 2, 8, 5, 11, 12, 4, 15]
    + [13, 8, 11, 5, 6, 15, 0, 3, 4, 7, 2, 12, 1, 10, 14, 9]
    + [10, 6, 9, 0, 12, 11, 7, 13, 15, 1, 3, 14, 5, 2, 8, 4]
    + [3, 15, 0, 6, 10, 1, 13, 8, 9, 4, 5, 11, 12, 7, 2, 14]
  const SBOX5: seq<bv8> :=
    [2, 12, 4, 1, 7, 10, 11, 6, 8, 5, 3, 15, 13, 0, 14, 9]
    + [14, 11, 2, 12, 4, 7, 13, 1, 5, 0, 15, 10, 3, 9, 8, 6]
    + [4, 2, 1, 11, 10, 13, 7, 8, 15, 9, 12, 5, 6, 3, 0, 14]
    + [11, 8, 12, 7, 1, 14, 2, 13, 6, 15, 0, 9, 10, 4, 5, 3]
  const SBOX6: seq<bv8> :=
    [12, 1, 10, 15, 9, 2, 6, 8, 0, 13, 3, 4, 14, 7, 5, 11]
    + [10, 15, 4, 2, 7, 12, 9, 5, 6, 1, 13, 14, 0, 11, 3, 8]
    + [9, 14, 15, 5, 2, 8, 12, 3, 7, 0, 4, 10, 1, 13, 11, 6]
    + [4, 3, 2, 12, 9, 5, 15, 10, 11, 14, 1, 7, 6, 0, 8, 13]
  const SBOX7: seq<bv8> :=
    [4, 11, 2, 14, 15, 0, 8, 13, 3, 12, 9, 7, 5, 10, 6, 1]
    + [13, 0, 11, 7, 4, 9, 1, 10, 14, 3, 5, 12, 2, 15, 8, 6]
    + [1, 4, 11, 13, 12, 3, 7, 14, 10, 15, 6, 8, 0, 5, 9, 2]
    + [6, 11, 13, 8, 1, 4, 10, 7, 9, 5, 0, 15, 14, 2, 3, 12]
  const SBOX8: seq<bv8> :=
    [13, 2, 8, 4, 6, 15, 11, 1, 10, 9, 3, 14, 5, 0, 12, 7]
    + [1, 15, 13, 8, 10, 3, 7, 4, 12, 5, 6, 11, 0, 14, 9, 2]
    + [7, 11, 4, 1, 9, 12, 14, 2, 0, 6, 10, 13, 15, 3, 5, 8]
    + [2, 1, 14, 7, 4, 10, 8, 13, 15, 12, 9, 0, 3, 5, 6, 11]

  /** Brings the outer two of six bits to the front: the row, then the column. */
  function SboxBit(a: bv8): bv8 {
    (a & 0x20) | ((a & 0x1f) >> 1) | ((a & 0x01) << 4)
  }

  function ExpandHigh(r: bv32): bv32 {
    BitNumIntL(r, 31, 0) | ((r & 0xf0000000) >> 1) | BitNumIntL(r, 4, 5)
    | BitNumIntL(r, 3, 6) | ((r & 0x0f000000) >> 3) | BitNumIntL(r, 8, 11)
    | BitNumIntL(r, 7, 12) | ((r & 0x00f00000) >> 5) | BitNumIntL(r, 12, 17)
    | BitNumIntL(r, 11, 18) | ((r & 0x000f0000) >> 7) | BitNumIntL(r, 16, 23)
  }

  function ExpandLow(r: bv32): bv32 {
    BitNumIntL(r, 15, 0) | ((r & 0x0000f000) << 15) | BitNumIntL(r, 20, 5)
    | BitNumIntL(r, 19, 6) | ((r & 0x00000f00) << 13) | BitNumIntL(r, 24, 11)
    | BitNumIntL(r, 23, 12) | ((r & 0x000000f0) << 11) | BitNumIntL(r, 28, 17)
    | BitNumIntL(r, 27, 18) | ((r & 0x0000000f) << 9) | BitNumIntL(r, 0, 23)
  }

  function Expanded(r: bv32, key: RoundKey): RoundKey {
    var t1, t2 := ExpandHigh(r), ExpandLow(r);
    RoundKey(((t1 >> 24) & 0xff) as bv8 ^ key.k0, ((t1 >> 16) & 0xff) as bv8 ^ key.k1, ((t1 >> 8) & 0xff) as bv8 ^ key.k2,
             ((t2 >> 24) & 0xff) as bv8 ^ key.k3, ((t2 >> 16) & 0xff) as bv8 ^ key.k4, ((t2 >> 8) & 0xff) as bv8 ^ key.k5)
  }

  function Permuted(s: bv32): bv32 {
    BitNumIntL(s, 15, 0) | BitNumIntL(s, 6, 1) | BitNumIntL(s, 19, 2) | BitNumIntL(s, 20, 3)
    | BitNumIntL(s, 28, 4) | BitNumIntL(s, 11, 5) | BitNumIntL(s, 27, 6) | BitNumIntL(s, 16, 7)
    | BitNumIntL(s, 0, 8) | BitNumIntL(s, 14, 9) | BitNumIntL(s, 22, 10) | BitNumIntL(s, 25, 11)
    | BitNumIntL(s, 4, 12) | BitNumIntL(s, 17, 13) | BitNumIntL(s, 30, 14) | BitNumIntL(s, 9, 15)
    | BitNumIntL(s, 1, 16) | BitNumIntL(s, 7, 17) | BitNumIntL(s, 23, 18) | BitNumIntL(s, 13, 19)
    | BitNumIntL(s, 31, 20) | BitNumIntL(s, 26, 21) | BitNumIntL(s, 2, 22) | BitNumIntL(s, 8, 23)
    | BitNumIntL(s, 18, 24) | BitNumIntL(s, 12, 25) | BitNumIntL(s, 29, 26) | BitNumIntL(s, 5, 27)
    | BitNumIntL(s, 21, 28) | BitNumIntL(s, 10, 29) | BitNumIntL(s, 3, 30) | BitNumIntL(s, 24, 31)
  }

  /** Where the round function looks in each of the eight boxes. */
  datatype Indices = Indices(i1: bv6, i2: bv6, i3: bv6, i4: bv6, i5: bv6, i6: bv6, i7: bv6, i8: bv6)

  function Substituted(i: Indices): bv32 {
    (SBOX1[i.i1 as int] as bv32 << 28) | (SBOX2[i.i2 as int] as bv32 << 24)
    | (SBOX3[i.i3 as int] as bv32 << 20) | (SBOX4[i.i4 as int] as bv32 << 16)
    | (SBOX5[i.i5 as int] as bv32 << 12) | (SBOX6[i.i6 as int] as bv32 << 8)
    | (SBOX7[i.i7 as int] as bv32 << 4) | (SBOX8[i.i8 as int] as bv32)
  }

  function Looked(e: RoundKey): Indices {
    Indices(
      SboxBit(e.k0 >> 2) as bv6,
      SboxBit(((e.k0 & 0x03) << 4) | (e.k1 >> 4)) as bv6,
      SboxBit(((e.k1 & 0x0f) << 2) | (e.k2 >> 6)) as bv6,
      SboxBit(e.k2 & 0x3f) as bv6,
      SboxBit(e.k3 >> 2) as bv6,
      SboxBit(((e.k3 & 0x03) << 4) | (e.k4 >> 4)) as bv6,
      SboxBit(((e.k4 & 0x0f) << 2) | (e.k5 >> 6)) as bv6,
      SboxBit(e.k5 & 0x3f) as bv6)
  }

  function F(r: bv32, key: RoundKey): bv32 {
    Permuted(Substituted(Looked(Expanded(r, key))))
  }

  // What FIPS 46-3 says of the same: group g of the expansion is six neighbouring bits of the word
  // read as a ring, the g-th six key bits are added, and row and column select from the box.

  function Turned(w: bv32, n: bv5): bv32 {
    (w << n) | (w >> (0 - n))
  }

  function KeyBits(key: RoundKey): bv48 {
    (key.k0 as bv48 << 40) | (key.k1 as bv48 << 32) | (key.k2 as bv48 << 24)
    | (key.k3 as bv48 << 16) | (key.k4 as bv48 << 8) | key.k5 as bv48
  }

  function RowColumn(x: bv6): bv6 {
    var row, column := ((x >> 4) & 2) | (x & 1), (x >> 1) & 0xf;
    (row << 4) | column
  }

  function FipsIndex(r: bv32, key: RoundKey, turn: bv5, down: bv6): bv6
    requires down < 48
  {
    RowColumn((Turned(r, turn) & 0x3f) as bv6 ^ ((KeyBits(key) >> down) & 0x3f) as bv6)
  }

  lemma Index1IsFips(r: bv32, key: RoundKey)
    ensures Looked(Expanded(r, key)).i1 == FipsIndex(r, key, 5, 42)
  {
  }

  lemma Index2IsFips(r: bv32, key: RoundKey)
    ensures Looked(Expanded(r, key)).i2 == FipsIndex(r, key, 9, 36)
  {
  }

  lemma Index3IsFips(r: bv32, key: RoundKey)
    ensures Looked(Expanded(r, key)).i3 == FipsIndex(r, key, 13, 30)
  {
  }

  lemma Index4IsFips(r: bv32, key: RoundKey)
    ensures Looked(Expanded(r, key)).i4 == FipsIndex(r, key, 17, 24)
  {
  }

  lemma Index5IsFips(r: bv32, key: RoundKey)
    ensures Looked(Expanded(r, key)).i5 == FipsIndex(r, key, 21, 18)
  {
  }

  lemma Index6IsFips(r: bv32, key: RoundKey)
    ensures Looked(Expanded(r, key)).i6 == FipsIndex(r, key, 25, 12)
  {
  }

  lemma Index7IsFips(r: bv32, key: RoundKey)
    ensures Looked(Expanded(r, key)).i7 == FipsIndex(r, key, 29, 6)
  {
  }

  lemma Index8IsFips(r: bv32, key: RoundKey)
    ensures Looked(Expanded(r, key)).i8 == FipsIndex(r, key, 1, 0)
  {
  }

  lemma IndicesAreFips(r: bv32, key: RoundKey)
    ensures Looked(Expanded(r, key)) == Indices(
      FipsIndex(r, key, 5, 42), FipsIndex(r, key, 9, 36), FipsIndex(r, key, 13, 30), FipsIndex(r, key, 17, 24),
      FipsIndex(r, key, 21, 18), FipsIndex(r, key, 25, 12), FipsIndex(r, key, 29, 6), FipsIndex(r, key, 1, 0))
  {
    hide *;
    Index1IsFips(r, key);
    Index2IsFips(r, key);
    Index3IsFips(r, key);
    Index4IsFips(r, key);
    Index5IsFips(r, key);
    Index6IsFips(r, key);
    Index7IsFips(r, key);
    Index8IsFips(r, key);
  }

  // ---------------------------------------------------------------------------------------------
  // The key schedule
  // ---------------------------------------------------------------------------------------------

  /** How far a half of 28 bits can be turned. */
  type Turn = s: bv5 | s <= 28

  const KEY_SHIFT: seq<Turn> := [1, 1, 2, 2, 2, 2, 2, 2, 1, 2, 2, 2, 2, 2, 2, 1]
  const KEY_PERM_C: seq<bv6> :=
    [56, 48, 40, 32, 24, 16, 8, 0, 57, 49, 41, 33, 25, 17]
    + [9, 1, 58, 50, 42, 34, 26, 18, 10, 2, 59, 51, 43, 35]
  const KEY_PERM_D: seq<bv6> :=
    [62, 54, 46, 38, 30, 22, 14, 6, 61, 53, 45, 37, 29, 21]
    + [13, 5, 60, 52, 44, 36, 28, 20, 12, 4, 27, 19, 11, 3]
  const KEY_COMPRESSION: seq<bv6> :=
    [13, 16, 10, 23, 0, 4, 2, 27, 14, 5, 20, 9]
    + [22, 18, 11, 3, 25, 7, 15, 6, 26, 19, 12, 1]
    + [40, 51, 30, 36, 46, 54, 29, 39, 50, 44, 32, 47]
    + [43, 48, 38, 55, 33, 52, 45, 41, 49, 35, 28, 31]

  /** The n-th place from the left of a word. */
  function Place(n: nat): bv5 {
    if n == 0 then 31 else Place(n - 1) - 1
  }

  /** The first `n` key bits a table names, from the left of a word. */
  function Gathered(key: Block, table: seq<bv6>, n: nat): bv32
    requires n <= |table| <= 28
  {
    if n == 0 then 0 else Gathered(key, table, n - 1) | BitNum(key, table[n - 1], Place(n - 1))
  }

  /** A 28-bit half, kept at the left of a word, turned left. */
  function TurnedHalf(c: bv32, shift: Turn): bv32 {
    ((c << shift) | (c >> (28 - shift))) & 0xffff_fff0
  }

  /** Both halves after `n` rounds. */
  function Halves(key: Block, n: nat): (bv32, bv32)
    requires n <= 16
  {
    if n == 0 then (Gathered(key, KEY_PERM_C, |KEY_PERM_C|), Gathered(key, KEY_PERM_D, |KEY_PERM_D|))
    else
      var (c, d) := Halves(key, n - 1);
      (TurnedHalf(c, KEY_SHIFT[n - 1]), TurnedHalf(d, KEY_SHIFT[n - 1]))
  }

  /** The bit of the halves that the compression puts at place `j`. */
  function SelectedBit(c: bv32, d: bv32, j: nat): bv8
    requires j < 48
  {
    if j < 24 then BitNumIntR(c, (KEY_COMPRESSION[j] & 0x1f) as bv5, (7 - j % 8) as bv3)
    else BitNumIntR(d, ((KEY_COMPRESSION[j] - 28) & 0x1f) as bv5, (7 - j % 8) as bv3)
  }

  /** Six bytes with the first `n` bits of the compression. */
  function Selected(c: bv32, d: bv32, n: nat): (row: seq<bv8>)
    requires n <= 48
    ensures |row| == 6
  {
    if n == 0 then [0, 0, 0, 0, 0, 0]
    else
      var row := Selected(c, d, n - 1);
      row[(n - 1) / 8 := row[(n - 1) / 8] | SelectedBit(c, d, n - 1)]
  }

  function ToKey(row: seq<bv8>): RoundKey
    requires |row| == 6
  {
    RoundKey(row[0], row[1], row[2], row[3], row[4], row[5])
  }

  /** The key of encryption round `i`. */
  function SubKey(key: Block, i: nat): RoundKey
    requires i < 16
  {
    var (c, d) := Halves(key, i + 1);
    ToKey(Selected(c, d, |KEY_COMPRESSION|))
  }

  /** All sixteen round keys; for decryption in the opposite order. */
  function Schedule(key: Block, mode: Mode): (ks: seq<RoundKey>)
    ensures |ks| == 16
  {
    seq(16, i requires 0 <= i < 16 => SubKey(key, if mode == Decrypt then 15 - i else i))
  }

  method Gather(key: Block, table: seq<bv6>) returns (w: bv32)
    requires |table| == 28
    ensures w == Gathered(key, table, |table|)
  {
    hide BitNum;
    w := 0;
    var j: bv5 := 31;
    for i := 0 to |table|
      invariant j == Place(i) && w == Gathered(key, table, i)
    {
      w := w | BitNum(key, table[i], j);
      j := j - 1;
    }
  }

  method Compress(c: bv32, d: bv32) returns (k: RoundKey)
    ensures k == ToKey(Selected(c, d, |KEY_COMPRESSION|))
  {
    var row: seq<bv8> := [0, 0, 0, 0, 0, 0];
    for j := 0 to |KEY_COMPRESSION|
      invariant row == Selected(c, d, j)
    {
      row := row[j / 8 := row[j / 8] | SelectedBit(c, d, j)];
    }
    k := ToKey(row);
  }

  method NextSubKey(key: Block, i: nat, c: bv32, d: bv32) returns (c': bv32, d': bv32, k: RoundKey)
    requires i < 16 && (c, d) == Halves(key, i)
    ensures (c', d') == Halves(key, i + 1) && k == SubKey(key, i)
  {
    c', d' := TurnedHalf(c, KEY_SHIFT[i]), TurnedHalf(d, KEY_SHIFT[i]);
    k := Compress(c', d');
  }

  method KeySchedule(key: Block, schedule: array<RoundKey>, mode: Mode)
    requires schedule.Length == 16
    modifies schedule
    ensures schedule[..] == Schedule(key, mode)
  {
    hide TurnedHalf, Gathered, SubKey;
    var c := Gather(key, KEY_PERM_C);
    var d := Gather(key, KEY_PERM_D);
    ghost var ks := Schedule(key, mode);
    for i := 0 to 16
      invariant (c, d) == Halves(key, i)
      invariant forall j :: 0 <= j < 16 && (if mode == Decrypt then 15 - j else j) < i ==> schedule[j] == ks[j]
    {
      var k;
      c, d, k := NextSubKey(key, i, c, d);
      schedule[if mode == Decrypt then 15 - i else i] := k;
    }
  }

  // ---------------------------------------------------------------------------------------------
  // The rounds
  // ---------------------------------------------------------------------------------------------

  /** The two words after `n` rounds, each of which mixes one side into the other and swaps. */
  function Rounds<W>(mix: (W, W, RoundKey) -> W, l: W, r: W, ks: seq<RoundKey>, n: nat): (W, W)
    requires n <= |ks|
  {
    if n == 0 then (l, r)
    else
      var (a, b) := Rounds(mix, l, r, ks, n - 1);
      (b, mix(a, b, ks[n - 1]))
  }

  function Mixed(l: bv32, r: bv32, key: RoundKey): bv32 {
    F(r, key) ^ l
  }

  /** The last round does not swap. */
  function Crypt(b: Block, ks: seq<RoundKey>): Block
    requires |ks| == 16
  {
    var (r, l) := Rounds(Mixed, InitialLeft(b), InitialRight(b), ks, |ks|);
    FinalBlock(l, r)
  }

  ghost predicate Reversed(ks: seq<RoundKey>, ks': seq<RoundKey>) {
    |ks| == |ks'| && forall i :: 0 <= i < |ks| ==> ks'[i] == ks[|ks| - 1 - i]
  }

  lemma SchedulesReverse(key: Block, mode: Mode)
    ensures Reversed(Schedule(key, mode), Schedule(key, Other(mode)))
  {
  }

  /** Rounds under the reversed keys, from the other end with sides swapped, retrace the rounds. */
  lemma {:induction false} RoundsUnwind<W(!new)>(mix: (W, W, RoundKey) -> W, l: W, r: W,
      ks: seq<RoundKey>, ks': seq<RoundKey>, n: nat)
    requires Reversed(ks, ks') && n <= |ks|
    requires forall a, b, k :: mix(mix(a, b, k), b, k) == a
    ensures var (a, b) := Rounds(mix, l, r, ks, |ks|);
      var (c, d) := Rounds(mix, l, r, ks, |ks| - n);
      Rounds(mix, b, a, ks', n) == (d, c)
  {
    if n > 0 {
      RoundsUnwind(mix, l, r, ks, ks', n - 1);
    }
  }

  lemma MixedTwice(l: bv32, r: bv32, key: RoundKey)
    ensures Mixed(Mixed(l, r, key), r, key) == l
  {
    hide F;
    var x := F(r, key);
    assert x ^ (x ^ l) == l;
  }

  lemma CryptUndone(b: Block, ks: seq<RoundKey>, ks': seq<RoundKey>)
    requires |ks| == 16 && Reversed(ks, ks')
    ensures Crypt(Crypt(b, ks), ks') == b
  {
    hide InitialLeft, InitialRight, FinalBlock, Mixed;
    var l, r := InitialLeft(b), InitialRight(b);
    var (x, y) := Rounds(Mixed, l, r, ks, |ks|);
    forall a, c, k
      ensures Mixed(Mixed(a, c, k), c, k) == a
    {
      MixedTwice(a, c, k);
    }
    InitialInvertsFinal(y, x);
    RoundsUnwind(Mixed, l, r, ks, ks', |ks|);
    FinalInvertsInitial(b);
  }

  /** For every key and block, each mode of DES undoes the other. */
  lemma DesRoundTrip(key: Block, b: Block, mode: Mode)
    ensures Crypt(Crypt(b, Schedule(key, mode)), Schedule(key, Other(mode))) == b
  {
    SchedulesReverse(key, mode);
    CryptUndone(b, Schedule(key, mode), Schedule(key, Other(mode)));
  }

  // ---------------------------------------------------------------------------------------------
  // Triple DES
  // ---------------------------------------------------------------------------------------------

  function TripleSchedule(key: seq<Block>, mode: Mode): (ks: seq<seq<RoundKey>>)
    requires |key| == 3
    ensures |ks| == 3 && forall i :: 0 <= i < 3 ==> |ks[i]| == 16
  {
    if mode == Encrypt then [Schedule(key[0], mode), Schedule(key[1], Other(mode)), Schedule(key[2], mode)]
    else [Schedule(key[2], mode), Schedule(key[1], Other(mode)), Schedule(key[0], mode)]
  }

  function TripleCrypt(b: Block, ks: seq<seq<RoundKey>>): Block
    requires |ks| == 3 && forall i :: 0 <= i < 3 ==> |ks[i]| == 16
  {
    Crypt(Crypt(Crypt(b, ks[0]), ks[1]), ks[2])
  }

  /**
    The order of the three passes: encryption runs the keys forwards and decrypts in the middle, decryption
    runs them backwards and encrypts in the middle; three equal keys are single DES.
   */
  lemma TripleOrder(key: seq<Block>, b: Block)
    requires |key| == 3
    ensures TripleCrypt(b, TripleSchedule(key, Encrypt))
      == Crypt(Crypt(Crypt(b, Schedule(key[0], Encrypt)), Schedule(key[1], Decrypt)), Schedule(key[2], Encrypt))
    ensures TripleCrypt(b, TripleSchedule(key, Decrypt))
      == Crypt(Crypt(Crypt(b, Schedule(key[2], Decrypt)), Schedule(key[1], Encrypt)), Schedule(key[0], Decrypt))
    ensures key[0] == key[1] == key[2] ==> forall mode ::
      TripleCrypt(b, TripleSchedule(key, mode)) == Crypt(b, Schedule(key[0], mode))
  {
    hide Crypt, Schedule;
    DesRoundTrip(key[0], b, Encrypt);
    DesRoundTrip(key[2], b, Decrypt);
  }

  /** For every three keys and block, each mode of triple DES undoes the other. */
  lemma TripleDesRoundTrip(key: seq<Block>, b: Block, mode: Mode)
    requires |key| == 3
    ensures TripleCrypt(TripleCrypt(b, TripleSchedule(key, mode)), TripleSchedule(key, Other(mode))) == b
  {
    hide Crypt, Schedule;
    var ks := TripleSchedule(key, mode);
    var first := Crypt(b, ks[0]);
    var second := Crypt(first, ks[1]);
    DesRoundTrip(if mode == Encrypt then key[2] else key[0], second, mode);
    DesRoundTrip(key[1], first, Other(mode));
    DesRoundTrip(if mode == Encrypt then key[0] else key[2], b, mode);
  }

  // ---------------------------------------------------------------------------------------------
  // In place, on arrays that may be the same
  // ---------------------------------------------------------------------------------------------

  function ToBlock(s: seq<bv8>): Block
    requires |s| == 8
  {
    Block(s[0], s[1], s[2], s[3], s[4], s[5], s[6], s[7])
  }

  /** Fifteen rounds that swap sides and one that does not. */
  method RunRounds<W>(mix: (W, W, RoundKey) -> W, l0: W, r0: W, key: array<RoundKey>) returns (l: W, r: W)
    requires key.Length == 16
    ensures (r, l) == Rounds(mix, l0, r0, key[..], key.Length)
  {
    l, r := l0, r0;
    for idx := 0 to key.Length - 1
      invariant (l, r) == Rounds(mix, l0, r0, key[..], idx)
    {
      l, r := r, mix(l, r, key[idx]);
    }
    l := mix(l, r, key[key.Length - 1]);
  }

  method DesCrypt(input: array<bv8>, output: array<bv8>, key: array<RoundKey>)
    requires input.Length == output.Length == 8 && key.Length == 16
    modifies output
    ensures ToBlock(output[..]) == Crypt(old(ToBlock(input[..])), old(key[..]))
  {
    hide InitialLeft, InitialRight, FinalBlock;
    var block := Block(input[0], input[1], input[2], input[3], input[4], input[5], input[6], input[7]);
    var l, r := InitialLeft(block), InitialRight(block);
    l, r := RunRounds(Mixed, l, r, key);
    var out := FinalBlock(l, r);
    output[0], output[1], output[2], output[3] := out.b0, out.b1, out.b2, out.b3;
    output[4], output[5], output[6], output[7] := out.b4, out.b5, out.b6, out.b7;
  }

  method TripleDesCrypt(input: array<bv8>, output: array<bv8>,
      key0: array<RoundKey>, key1: array<RoundKey>, key2: array<RoundKey>)
    requires input.Length == output.Length == 8 && key0.Length == key1.Length == key2.Length == 16
    modifies output
    ensures ToBlock(output[..]) == TripleCrypt(old(ToBlock(input[..])), old([key0[..], key1[..], key2[..]]))
  {
    hide Crypt;
    DesCrypt(input, output, key0);
    DesCrypt(output, output, key1);
    DesCrypt(output, output, key2);
  }

  method TripleKeySchedule(key: seq<Block>, mode: Mode,
      schedule0: array<RoundKey>, schedule1: array<RoundKey>, schedule2: array<RoundKey>)
    requires |key| == 3 && schedule0.Length == schedule1.Length == schedule2.Length == 16
    requires schedule0 != schedule1 && schedule1 != schedule2 && schedule0 != schedule2
    modifies schedule0, schedule1, schedule2
    ensures [schedule0[..], schedule1[..], schedule2[..]] == TripleSchedule(key, mode)
  {
    if mode == Encrypt {
      KeySchedule(key[0], schedule0, mode);
      KeySchedule(key[1], schedule1, Other(mode));
      KeySchedule(key[2], schedule2, mode);
    } else {
      KeySchedule(key[2], schedule0, mode);
      KeySchedule(key[1], schedule1, Other(mode));
      KeySchedule(key[0], schedule2, mode);
    }
  }
}
