/**
  The tables AES works through, and how the program generates them. A table entry is a 32-bit word
  that stands for a column of module AesSpec.
 */
module AesTables {
  import opened Gf256
  import opened AesSpec

  // ---------------------------------------------------------------------------------------------
  // Words and columns
  // ---------------------------------------------------------------------------------------------

  function Top(w: bv32): bv8 {
    ((w >> 24) & 0xff) as bv8
  }

  function Second(w: bv32): bv8 {
    ((w >> 16) & 0xff) as bv8
  }

  function Third(w: bv32): bv8 {
    ((w >> 8) & 0xff) as bv8
  }

  function Low(w: bv32): bv8 {
    (w & 0xff) as bv8
  }

  function ColOf(w: bv32): Col {
    Col(Top(w), Second(w), Third(w), Low(w))
  }

  /** A word from its four bytes. */
  function Word(a: bv8, b: bv8, c: bv8, d: bv8): bv32 {
    (a as bv32 << 24) | (b as bv32 << 16) | (c as bv32 << 8) | d as bv32
  }

  function Xor(v: bv32, w: bv32): bv32 {
    v ^ w
  }

  function Rotr8(w: bv32): bv32 {
    (w << 24) | (w >> 8)
  }

  lemma ColOfWord(a: bv8, b: bv8, c: bv8, d: bv8)
    ensures ColOf(Word(a, b, c, d)) == Col(a, b, c, d)
  {
  }

  lemma ColOfXor(v: bv32, w: bv32)
    ensures ColOf(Xor(v, w)) == AddCol(ColOf(v), ColOf(w))
  {
  }

  lemma ColOfRotr8(w: bv32)
    ensures ColOf(Rotr8(w)) == Col(Low(w), Top(w), Second(w), Third(w))
  {
  }

  // ---------------------------------------------------------------------------------------------
  // What the tables hold
  // ---------------------------------------------------------------------------------------------

  /** The entry of the first forward table for a substituted byte. */
  function ForwardWord(x: bv8): bv32 {
    var y := Xtime(x);
    (x ^ y) as bv32 ^ (x as bv32 << 8) ^ (x as bv32 << 16) ^ (y as bv32 << 24)
  }

  lemma ColOfForwardWord(x: bv8)
    ensures ColOf(ForwardWord(x)) == Col(Mul(2, x), x, x, Mul(3, x))
  {
    hide Mul;
    SmallProducts(x);
  }

  /** The word with these bytes from the right: the way the reverse tables are put together. */
  function Spread(p: bv8, q: bv8, r: bv8, s: bv8): bv32 {
    p as bv32 ^ (q as bv32 << 8) ^ (r as bv32 << 16) ^ (s as bv32 << 24)
  }

  lemma ColOfSpread(p: bv8, q: bv8, r: bv8, s: bv8)
    ensures ColOf(Spread(p, q, r, s)) == Col(s, r, q, p)
  {
  }

  /** The entry of the first reverse table for a byte. */
  function ReverseWord(y: bv8): bv32 {
    Spread(Mul(0x0b, y), Mul(0x0d, y), Mul(9, y), Mul(0x0e, y))
  }

  /** One word of a round: a key and four table entries. */
  function Sum5(k: bv32, p: bv32, q: bv32, r: bv32, s: bv32): bv32 {
    Xor(Xor(Xor(Xor(k, p), q), r), s)
  }

  lemma AddFive(k: bv8, p: bv8, q: bv8, r: bv8, s: bv8)
    ensures Add(Add(Add(Add(k, p), q), r), s) == Add(Add4(p, q, r, s), k)
  {
    hide Add;
    AddAssociates(k, p, q);
    AddAssociates(k, Add(p, q), r);
    AddAssociates(k, Add(Add(p, q), r), s);
    AddAssociates(Add(p, q), r, s);
    AddCommutes(k, Add4(p, q, r, s));
  }

  lemma AddAssociates(p: bv8, q: bv8, r: bv8)
    ensures Add(Add(p, q), r) == Add(p, Add(q, r))
  {
    assert (p ^ q) ^ r == p ^ (q ^ r);
  }

  lemma ColOfSum5(k: bv32, p: bv32, q: bv32, r: bv32, s: bv32)
    ensures ColOf(Sum5(k, p, q, r, s))
         == AddCol(AddCol(AddCol(AddCol(ColOf(k), ColOf(p)), ColOf(q)), ColOf(r)), ColOf(s))
  {
    hide ColOf, Xor, AddCol;
    ColOfXor(k, p);
    ColOfXor(Xor(k, p), q);
    ColOfXor(Xor(Xor(k, p), q), r);
    ColOfXor(Xor(Xor(Xor(k, p), q), r), s);
  }

  /** Four forward entries, each turned one byte further, mix a column. */
  lemma ForwardTables(k: bv32, a: bv8, b: bv8, c: bv8, d: bv8)
    ensures ColOf(Sum5(k, ForwardWord(a), Rotr8(ForwardWord(b)), Rotr8(Rotr8(ForwardWord(c))),
                       Rotr8(Rotr8(Rotr8(ForwardWord(d))))))
         == AddCol(Mix(Col(a, b, c, d)), ColOf(k))
  {
    hide Top, Second, Third, Low, Rotr8, ForwardWord, Sum5, Add, Mul, Add4;
    var p, q, r, s := ForwardWord(a), ForwardWord(b), ForwardWord(c), ForwardWord(d);
    ColOfForwardWord(a);
    ColOfForwardWord(b);
    ColOfForwardWord(c);
    ColOfForwardWord(d);
    ColOfRotr8(q);
    ColOfRotr8(r);
    ColOfRotr8(Rotr8(r));
    ColOfRotr8(s);
    ColOfRotr8(Rotr8(s));
    ColOfRotr8(Rotr8(Rotr8(s)));
    ColOfSum5(k, p, Rotr8(q), Rotr8(Rotr8(r)), Rotr8(Rotr8(Rotr8(s))));
    AddFive(Top(k), Mul(2, a), Mul(3, b), c, d);
    AddFive(Second(k), a, Mul(2, b), Mul(3, c), d);
    Add4Turns(Mul(2, b), Mul(3, c), d, a);
    AddFive(Third(k), a, b, Mul(2, c), Mul(3, d));
    Add4Turns(Mul(2, c), Mul(3, d), a, b);
    Add4Turns(b, Mul(2, c), Mul(3, d), a);
    AddFive(Low(k), Mul(3, a), b, c, Mul(2, d));
    Add4Turns(Mul(3, a), b, c, Mul(2, d));
  }

  lemma ColOfReverseWord(y: bv8)
    ensures ColOf(ReverseWord(y)) == Col(Mul(0x0e, y), Mul(9, y), Mul(0x0d, y), Mul(0x0b, y))
  {
    hide Mul, Spread;
    ColOfSpread(Mul(0x0b, y), Mul(0x0d, y), Mul(9, y), Mul(0x0e, y));
  }

  /** Four reverse entries, each turned one byte further, unmix a column. */
  lemma ReverseTables(k: bv32, a: bv8, b: bv8, c: bv8, d: bv8)
    ensures ColOf(Sum5(k, ReverseWord(a), Rotr8(ReverseWord(b)), Rotr8(Rotr8(ReverseWord(c))),
                       Rotr8(Rotr8(Rotr8(ReverseWord(d))))))
         == AddCol(Unmix(Col(a, b, c, d)), ColOf(k))
  {
    hide Top, Second, Third, Low, Rotr8, ReverseWord, Sum5, Add, Mul, Add4;
    var p, q, r, s := ReverseWord(a), ReverseWord(b), ReverseWord(c), ReverseWord(d);
    ColOfReverseWord(a);
    ColOfReverseWord(b);
    ColOfReverseWord(c);
    ColOfReverseWord(d);
    ColOfRotr8(q);
    ColOfRotr8(r);
    ColOfRotr8(Rotr8(r));
    ColOfRotr8(s);
    ColOfRotr8(Rotr8(s));
    ColOfRotr8(Rotr8(Rotr8(s)));
    ColOfSum5(k, p, Rotr8(q), Rotr8(Rotr8(r)), Rotr8(Rotr8(Rotr8(s))));
    var e, n, t, o: bv8 := 0x0e, 9, 0x0d, 0x0b;
    AddFive(Top(k), Mul(e, a), Mul(o, b), Mul(t, c), Mul(n, d));
    AddFive(Second(k), Mul(n, a), Mul(e, b), Mul(o, c), Mul(t, d));
    Add4Turns(Mul(e, b), Mul(o, c), Mul(t, d), Mul(n, a));
    AddFive(Third(k), Mul(t, a), Mul(n, b), Mul(e, c), Mul(o, d));
    Add4Turns(Mul(e, c), Mul(o, d), Mul(t, a), Mul(n, b));
    Add4Turns(Mul(n, b), Mul(e, c), Mul(o, d), Mul(t, a));
    AddFive(Low(k), Mul(o, a), Mul(t, b), Mul(n, c), Mul(e, d));
    Add4Turns(Mul(o, a), Mul(t, b), Mul(n, c), Mul(e, d));
  }

  // ---------------------------------------------------------------------------------------------
  // Bytes as indices
  // ---------------------------------------------------------------------------------------------

  function Idx(x: bv8): (i: int)
    ensures 0 <= i < 256
  {
    x as int
  }

  lemma IdxInjective(x: bv8, y: bv8)
    requires Idx(x) == Idx(y)
    ensures x == y
  {
  }

  lemma IdxNext(x: bv8)
    requires x != 0xff
    ensures Idx(x + 1) == Idx(x) + 1
  {
  }

  function ByteOf(i: nat): (x: bv8)
    requires i < 256
    ensures Idx(x) == i
  {
    if i == 0 then 0
    else
      var x := ByteOf(i - 1);
      IdxNext(x);
      x + 1
  }

  lemma ByteOfIdx(x: bv8)
    ensures ByteOf(Idx(x)) == x
  {
    hide Idx, ByteOf;
    IdxInjective(ByteOf(Idx(x)), x);
  }

  // ---------------------------------------------------------------------------------------------
  // Powers and logarithms
  // ---------------------------------------------------------------------------------------------

  ghost predicate PowTable(pow: seq<bv8>) {
    |pow| == 256 && forall k :: 0 <= k < 256 ==> pow[k] == Pow(k)
  }

  ghost predicate LogTable(log: seq<int>) {
    |log| == 256 && forall x: bv8 :: x != 0 ==> log[Idx(x)] == Log(x)
  }

  lemma PowNext(k: nat)
    ensures Pow(k + 1) == Times3(Pow(k))
  {
  }

  lemma LogIsLog(x: bv8)
    requires x != 0
    ensures 1 <= Log(x) <= 255 && Pow(Log(x)) == x
  {
  }

  method GenPowLog() returns (pow: seq<bv8>, log: seq<int>)
    ensures PowTable(pow) && LogTable(log)
  {
    hide Pow, Times3, Log, Idx;
    var p, l := new bv8[256](_ => 0), new int[256](_ => 0);
    var x: bv8 := 1;
    PowZero();
    for i := 0 to 256
      invariant x == Pow(i)
      invariant forall k :: 0 <= k < i ==> p[k] == Pow(k)
      invariant forall k :: 1 <= k < i ==> l[Idx(Pow(k))] == k
    {
      p[i] := x;
      forall k | 1 <= k < i
        ensures Idx(Pow(k)) != Idx(x)
      {
        LogUnique(k);
        LogUnique(i);
        if Idx(Pow(k)) == Idx(x) {
          IdxInjective(Pow(k), x);
        }
      }
      l[Idx(x)] := i;
      PowNext(i);
      x := Times3(x);
    }
    pow, log := p[..], l[..];
    forall x: bv8 | x != 0
      ensures log[Idx(x)] == Log(x)
    {
      LogIsLog(x);
    }
  }

  /** A product by way of the tables. */
  function TableMul(pow: seq<bv8>, log: seq<int>, x: bv8, y: bv8): (z: bv8)
    requires PowTable(pow) && LogTable(log)
    ensures z == Mul(x, y)
  {
    hide Pow, Log, Mul, Idx;
    MulZero(x);
    MulZero(y);
    if x != 0 && y != 0 then
      MulByLogs(x, y);
      pow[(log[Idx(x)] + log[Idx(y)]) % 255]
    else 0
  }

  // ---------------------------------------------------------------------------------------------
  // Round constants
  // ---------------------------------------------------------------------------------------------

  /** The round constant of round `k + 1`: `k` doublings of 1, in the top byte (section 5.2 of FIPS 197). */
  function Doubled(k: nat): bv8 {
    if k == 0 then 1 else Xtime(Doubled(k - 1))
  }

  function RoundConstant(k: nat): bv32 {
    Doubled(k) as bv32 << 24
  }

  method GenRcon() returns (rcon: seq<bv32>)
    ensures |rcon| == 10 && forall k :: 0 <= k < 10 ==> rcon[k] == RoundConstant(k)
  {
    hide Xtime;
    var a := new bv32[10](_ => 0);
    var x: bv8 := 1;
    for i := 0 to 10
      invariant x == Doubled(i)
      invariant forall k :: 0 <= k < i ==> a[k] == RoundConstant(k)
    {
      a[i] := x as bv32 << 24;
      x := Xtime(x);
    }
    rcon := a[..];
  }

  // ---------------------------------------------------------------------------------------------
  // Substitution boxes
  // ---------------------------------------------------------------------------------------------

  /** The affine map, as the program folds it. */
  method FoldAffine(x0: bv8) returns (x: bv8)
    ensures x == Affine(x0)
  {
    hide TurnLeft;
    x := x0;
    var y := x;
    y := TurnLeft(y);
    x := x ^ y;
    y := TurnLeft(y);
    x := x ^ y;
    y := TurnLeft(y);
    x := x ^ y;
    y := TurnLeft(y);
    XorsRegroup(x, y, 0x63);
    x := x ^ (y ^ 0x63);
  }

  lemma XorsRegroup(a: bv8, b: bv8, c: bv8)
    ensures (a ^ b) ^ c == a ^ (b ^ c)
  {
  }

  lemma SBoxByLog(x: bv8)
    requires x != 0
    ensures SBox(x) == Affine(Pow(255 - Log(x)))
  {
    hide Affine, Pow, Log;
  }

  lemma SBoxZero()
    ensures SBox(0) == 0x63
  {
  }

  ghost predicate ForwardBox(fsb: seq<bv8>) {
    |fsb| == 256 && forall x: bv8 :: fsb[Idx(x)] == SBox(x)
  }

  ghost predicate ReverseBox(rsb: seq<bv8>) {
    |rsb| == 256 && forall x: bv8 :: rsb[Idx(SBox(x))] == x
  }

  lemma SBoxApart(x: bv8, y: bv8)
    requires x != y
    ensures Idx(SBox(x)) != Idx(SBox(y))
  {
    hide SBox, Idx;
    if Idx(SBox(x)) == Idx(SBox(y)) {
      IdxInjective(SBox(x), SBox(y));
      SBoxInjective(x, y);
    }
  }

  method GenSBoxes(pow: seq<bv8>, log: seq<int>) returns (fsb: seq<bv8>, rsb: seq<bv8>)
    requires PowTable(pow) && LogTable(log)
    ensures ForwardBox(fsb) && ReverseBox(rsb)
  {
    hide Pow, Log, SBox, Idx, ByteOf, Affine;
    var f, r := new bv8[256](_ => 0), new bv8[256](_ => 0);
    SBoxZero();
    f[0], r[0x63] := 0x63, 0;
    ZeroIndices();
    for i := 1 to 256
      invariant forall j: nat :: j < i ==> f[j] == SBox(ByteOf(j)) && r[Idx(SBox(ByteOf(j)))] == ByteOf(j)
    {
      var b := ByteOf(i);
      ZeroIndices();
      LogIsLog(b);
      var x := FoldAffine(pow[255 - log[i]]);
      SBoxByLog(b);
      forall j: nat | j < i
        ensures Idx(SBox(ByteOf(j))) != Idx(SBox(b))
      {
        SBoxApart(ByteOf(j), b);
      }
      f[i] := x;
      r[Idx(x)] := b;
    }
    fsb, rsb := f[..], r[..];
    forall x: bv8
      ensures fsb[Idx(x)] == SBox(x) && rsb[Idx(SBox(x))] == x
    {
      ByteOfIdx(x);
    }
  }

  lemma ZeroIndices()
    ensures ByteOf(0) == 0 && Idx(0) == 0 && Idx(0x63) == 0x63
  {
  }

  /** What the reverse box holds at a byte, when it undoes the forward box. */
  lemma ReverseBoxAt(rsb: seq<bv8>, y: bv8)
    requires ReverseBox(rsb)
    ensures rsb[Idx(y)] == InvSBox(y)
  {
    hide SBox, InvSBox, Idx;
    SBoxInverts(y);
  }

  // ---------------------------------------------------------------------------------------------
  // Round tables
  // ---------------------------------------------------------------------------------------------

  datatype Tables = Tables(fsb: seq<bv8>, rsb: seq<bv8>, rcon: seq<bv32>,
                           ft0: seq<bv32>, ft1: seq<bv32>, ft2: seq<bv32>, ft3: seq<bv32>,
                           rt0: seq<bv32>, rt1: seq<bv32>, rt2: seq<bv32>, rt3: seq<bv32>)
  {
    ghost predicate Sized() {
      && |fsb| == |rsb| == 256 && |rcon| == 10
      && |ft0| == |ft1| == |ft2| == |ft3| == 256
      && |rt0| == |rt1| == |rt2| == |rt3| == 256
    }

    ghost predicate RightAt(x: bv8)
      requires Sized()
    {
      && fsb[Idx(x)] == SBox(x) && rsb[Idx(x)] == InvSBox(x)
      && Quarters(ForwardWord(SBox(x)), ft0[Idx(x)], ft1[Idx(x)], ft2[Idx(x)], ft3[Idx(x)])
      && Quarters(ReverseWord(InvSBox(x)), rt0[Idx(x)], rt1[Idx(x)], rt2[Idx(x)], rt3[Idx(x)])
    }

    ghost predicate Valid() {
      && Sized()
      && (forall k :: 0 <= k < 10 ==> rcon[k] == RoundConstant(k))
      && (forall x: bv8 :: RightAt(x))
    }
  }

  /** A word and its three turns. */
  predicate Quarters(w: bv32, w0: bv32, w1: bv32, w2: bv32, w3: bv32) {
    w0 == w && w1 == Rotr8(w) && w2 == Rotr8(Rotr8(w)) && w3 == Rotr8(Rotr8(Rotr8(w)))
  }

  /** Four tables whose entries are one word for each byte of a box, turned 0, 1, 2 and 3 times. */
  ghost predicate Filled(box: seq<bv8>, entry: bv8 -> bv32, a0: seq<bv32>, a1: seq<bv32>, a2: seq<bv32>, a3: seq<bv32>) {
    && |box| == |a0| == |a1| == |a2| == |a3| == 256
    && forall j :: 0 <= j < 256 ==> Quarters(entry(box[j]), a0[j], a1[j], a2[j], a3[j])
  }

  method GenForward(fsb: seq<bv8>) returns (ft0: seq<bv32>, ft1: seq<bv32>, ft2: seq<bv32>, ft3: seq<bv32>)
    requires |fsb| == 256
    ensures Filled(fsb, ForwardWord, ft0, ft1, ft2, ft3)
  {
    hide Rotr8, ForwardWord;
    var a0, a1, a2, a3 := new bv32[256](_ => 0), new bv32[256](_ => 0), new bv32[256](_ => 0), new bv32[256](_ => 0);
    for i := 0 to 256
      invariant forall j :: 0 <= j < i ==> Quarters(ForwardWord(fsb[j]), a0[j], a1[j], a2[j], a3[j])
    {
      a0[i] := ForwardWord(fsb[i]);
      a1[i] := Rotr8(a0[i]);
      a2[i] := Rotr8(a1[i]);
      a3[i] := Rotr8(a2[i]);
    }
    ft0, ft1, ft2, ft3 := a0[..], a1[..], a2[..], a3[..];
  }

  method GenReverse(pow: seq<bv8>, log: seq<int>, rsb: seq<bv8>)
    returns (rt0: seq<bv32>, rt1: seq<bv32>, rt2: seq<bv32>, rt3: seq<bv32>)
    requires PowTable(pow) && LogTable(log) && |rsb| == 256
    ensures Filled(rsb, ReverseWord, rt0, rt1, rt2, rt3)
  {
    hide Rotr8, Mul, Spread, Pow, Log, PowTable, LogTable;
    var a0, a1, a2, a3 := new bv32[256](_ => 0), new bv32[256](_ => 0), new bv32[256](_ => 0), new bv32[256](_ => 0);
    for i := 0 to 256
      invariant forall j :: 0 <= j < i ==> Quarters(ReverseWord(rsb[j]), a0[j], a1[j], a2[j], a3[j])
    {
      var y := rsb[i];
      a0[i] := Spread(TableMul(pow, log, 0x0b, y), TableMul(pow, log, 0x0d, y),
                      TableMul(pow, log, 0x09, y), TableMul(pow, log, 0x0e, y));
      a1[i] := Rotr8(a0[i]);
      a2[i] := Rotr8(a1[i]);
      a3[i] := Rotr8(a2[i]);
    }
    rt0, rt1, rt2, rt3 := a0[..], a1[..], a2[..], a3[..];
  }

  /** All the tables, each entry as FIPS 197 wants it. */
  method GenTables() returns (t: Tables)
    ensures t.Valid()
  {
    hide Rotr8, Mul, SBox, InvSBox, Pow, Log, Idx, ForwardWord, ReverseWord, Quarters, RoundConstant, PowTable, LogTable;
    var pow, log := GenPowLog();
    var rcon := GenRcon();
    var fsb, rsb := GenSBoxes(pow, log);
    var ft0, ft1, ft2, ft3 := GenForward(fsb);
    var rt0, rt1, rt2, rt3 := GenReverse(pow, log, rsb);
    t := Tables(fsb, rsb, rcon, ft0, ft1, ft2, ft3, rt0, rt1, rt2, rt3);
    forall x: bv8
      ensures t.RightAt(x)
    {
      ReverseBoxAt(rsb, x);
    }
  }

  lemma KeyTableEntry(t: Tables, b: bv8)
    requires t.Valid()
    ensures t.Sized()
    ensures var k := Idx(t.fsb[Idx(b)]); Quarters(ReverseWord(b), t.rt0[k], t.rt1[k], t.rt2[k], t.rt3[k])
  {
    hide Rotr8, SBox, InvSBox, Idx, ReverseWord, Quarters;
    assert t.RightAt(b) && t.RightAt(SBox(b));
    InvSBoxInverts(b);
  }

  /** The reverse tables behind the forward box: what unmixes a column that was never substituted. */
  method GenKeyTables(t: Tables) returns (kt0: seq<bv32>, kt1: seq<bv32>, kt2: seq<bv32>, kt3: seq<bv32>)
    requires t.Valid()
    ensures KeyTables(kt0, kt1, kt2, kt3)
  {
    hide Rotr8, SBox, InvSBox, Idx, ByteOf, ReverseWord, Quarters, Tables.Valid;
    var a0, a1, a2, a3 := new bv32[256](_ => 0), new bv32[256](_ => 0), new bv32[256](_ => 0), new bv32[256](_ => 0);
    for i := 0 to 256
      invariant forall j: nat :: j < i ==> Quarters(ReverseWord(ByteOf(j)), a0[j], a1[j], a2[j], a3[j])
    {
      KeyTableEntry(t, ByteOf(i));
      var k := Idx(t.fsb[i]);
      a0[i], a1[i], a2[i], a3[i] := t.rt0[k], t.rt1[k], t.rt2[k], t.rt3[k];
    }
    kt0, kt1, kt2, kt3 := a0[..], a1[..], a2[..], a3[..];
    forall x: bv8
      ensures Quarters(ReverseWord(x), kt0[Idx(x)], kt1[Idx(x)], kt2[Idx(x)], kt3[Idx(x)])
    {
      ByteOfIdx(x);
    }
  }

  ghost predicate KeyTables(kt0: seq<bv32>, kt1: seq<bv32>, kt2: seq<bv32>, kt3: seq<bv32>) {
    && |kt0| == |kt1| == |kt2| == |kt3| == 256
    && forall x: bv8 :: Quarters(ReverseWord(x), kt0[Idx(x)], kt1[Idx(x)], kt2[Idx(x)], kt3[Idx(x)])
  }
}
