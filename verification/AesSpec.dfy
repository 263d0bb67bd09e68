/**
  AES (FIPS 197) as functions of bytes and columns: the substitution box, the mixing of columns, and
  the cipher with its equivalent inverse (section 5.3.5), with the proof that one undoes the other.
 */
module AesSpec {
  import opened Gf256

  // ---------------------------------------------------------------------------------------------
  // The substitution box
  // ---------------------------------------------------------------------------------------------

  function TurnLeft(x: bv8): bv8 {
    (x << 1) | (x >> 7)
  }

  /** Each bit is summed with the four after it in the ring, and with a constant. */
  function Affine(x: bv8): bv8 {
    var y1 := TurnLeft(x);
    var y2 := TurnLeft(y1);
    var y3 := TurnLeft(y2);
    var y4 := TurnLeft(y3);
    x ^ y1 ^ y2 ^ y3 ^ y4 ^ 0x63
  }

  function AffineBack(y: bv8): bv8 {
    ((y << 1) | (y >> 7)) ^ ((y << 3) | (y >> 5)) ^ ((y << 6) | (y >> 2)) ^ 0x05
  }

  lemma AffineUndone(x: bv8)
    ensures AffineBack(Affine(x)) == x && Affine(AffineBack(x)) == x
  {
  }

  ghost function SBox(x: bv8): bv8 {
    Affine(Inverse(x))
  }

  lemma SBoxInjective(x: bv8, y: bv8)
    requires SBox(x) == SBox(y)
    ensures x == y
  {
    hide Affine, AffineBack, Inverse;
    AffineUndone(Inverse(x));
    AffineUndone(Inverse(y));
    InverseInjective(x, y);
  }

  ghost function InvSBox(y: bv8): bv8 {
    Inverse(AffineBack(y))
  }

  lemma SBoxInverts(y: bv8)
    ensures SBox(InvSBox(y)) == y
  {
    hide Affine, AffineBack, Inverse;
    InverseOfInverse(AffineBack(y));
    AffineUndone(y);
  }

  // ---------------------------------------------------------------------------------------------
  // Columns
  // ---------------------------------------------------------------------------------------------

  datatype Col = Col(b0: bv8, b1: bv8, b2: bv8, b3: bv8)

  function AddCol(x: Col, y: Col): Col {
    Col(Add(x.b0, y.b0), Add(x.b1, y.b1), Add(x.b2, y.b2), Add(x.b3, y.b3))
  }

  function Add4(p: bv8, q: bv8, r: bv8, s: bv8): bv8 {
    Add(Add(p, q), Add(r, s))
  }

  function MixByte(a: bv8, b: bv8, c: bv8, d: bv8): bv8 {
    Add4(Mul(2, a), Mul(3, b), c, d)
  }

  function UnmixByte(a: bv8, b: bv8, c: bv8, d: bv8): bv8 {
    Add4(Mul(0x0e, a), Mul(0x0b, b), Mul(0x0d, c), Mul(9, d))
  }

  function Mix(x: Col): Col {
    Col(MixByte(x.b0, x.b1, x.b2, x.b3), MixByte(x.b1, x.b2, x.b3, x.b0),
        MixByte(x.b2, x.b3, x.b0, x.b1), MixByte(x.b3, x.b0, x.b1, x.b2))
  }

  function Unmix(x: Col): Col {
    Col(UnmixByte(x.b0, x.b1, x.b2, x.b3), UnmixByte(x.b1, x.b2, x.b3, x.b0),
        UnmixByte(x.b2, x.b3, x.b0, x.b1), UnmixByte(x.b3, x.b0, x.b1, x.b2))
  }

  /** The products of a byte by the coefficients, as sums of its doubles. */
  lemma Products(x: bv8, d: bv8, q: bv8, e: bv8)
    requires d == Xtime(x) && q == Xtime(d) && e == Xtime(q)
    ensures Mul(2, x) == d && Mul(3, x) == Add(d, x) && Mul(9, x) == Add(e, x)
    ensures Mul(0x0b, x) == Add(Add(e, x), d) && Mul(0x0d, x) == Add(Add(e, x), q) && Mul(0x0e, x) == Add(Add(e, d), q)
  {
    hide Mul, Add, Xtime;
    SmallProducts(x);
  }

  lemma ThriceProduct(k: bv8, x: bv8)
    ensures Mul(k, Mul(3, x)) == Add(Mul(k, Mul(2, x)), Mul(k, x))
  {
    hide Mul, Add, Xtime;
    SmallProducts(x);
    MulAddsRight(k, Mul(2, x), x);
  }

  lemma AddThree(a: bv8, b: bv8, c: bv8)
    ensures Add(a, b) == a ^ b && Add(Add(a, b), c) == (a ^ b) ^ c
  {
  }

  lemma AddSums(a: bv8, b: bv8, x: bv8, y: bv8)
    requires a == x && b == y
    ensures Add(a, b) == x ^ y
  {
  }

  lemma OwnXors(a: bv8, b: bv8, c: bv8, g: bv8, x: bv8, d: bv8, q: bv8, e: bv8, f: bv8)
    requires a == (f ^ q) ^ e && b == (e ^ x) ^ d
    requires c == (e ^ x) ^ q && g == (f ^ d) ^ (e ^ x)
    ensures Add4(a, b, c, g) == x
  {
  }

  lemma NextXors(a: bv8, b: bv8, c: bv8, g: bv8, x: bv8, d: bv8, q: bv8, e: bv8, f: bv8)
    requires a == ((f ^ q) ^ e) ^ ((e ^ d) ^ q) && b == (f ^ d) ^ q
    requires c == (e ^ x) ^ q && g == e ^ x
    ensures Add4(a, b, c, g) == 0
  {
  }

  lemma OppositeXors(a: bv8, b: bv8, c: bv8, g: bv8, x: bv8, d: bv8, q: bv8, e: bv8, f: bv8)
    requires a == (e ^ d) ^ q && b == ((f ^ d) ^ q) ^ ((e ^ x) ^ d)
    requires c == (f ^ d) ^ e && g == e ^ x
    ensures Add4(a, b, c, g) == 0
  {
  }

  lemma LastXors(a: bv8, b: bv8, c: bv8, g: bv8, x: bv8, d: bv8, q: bv8, e: bv8, f: bv8)
    requires a == (e ^ d) ^ q && b == (e ^ x) ^ d
    requires c == ((f ^ d) ^ e) ^ ((e ^ x) ^ q) && g == f ^ d
    ensures Add4(a, b, c, g) == 0
  {
  }

  /** A byte of a column that is mixed and unmixed returns to its own place. */
  lemma OwnSum(x: bv8, d: bv8, q: bv8, e: bv8, f: bv8)
    ensures Add4(Add(Add(f, q), e), Add(Add(e, x), d), Add(Add(e, x), q), Add(Add(f, d), Add(e, x))) == x
  {
    hide Add, Add4;
    AddThree(f, q, e);
    AddThree(e, x, d);
    AddThree(e, x, q);
    AddThree(f, d, 0);
    AddSums(Add(f, d), Add(e, x), f ^ d, e ^ x);
    OwnXors(Add(Add(f, q), e), Add(Add(e, x), d), Add(Add(e, x), q), Add(Add(f, d), Add(e, x)), x, d, q, e, f);
  }

  /** In the three other places it cancels. */
  lemma NextSum(x: bv8, d: bv8, q: bv8, e: bv8, f: bv8)
    ensures Add4(Add(Add(Add(f, q), e), Add(Add(e, d), q)), Add(Add(f, d), q), Add(Add(e, x), q), Add(e, x)) == 0
  {
    hide Add, Add4;
    AddThree(f, q, e);
    AddThree(e, d, q);
    AddThree(f, d, q);
    AddThree(e, x, q);
    var a := Add(Add(Add(f, q), e), Add(Add(e, d), q));
    AddSums(Add(Add(f, q), e), Add(Add(e, d), q), (f ^ q) ^ e, (e ^ d) ^ q);
    NextXors(a, Add(Add(f, d), q), Add(Add(e, x), q), Add(e, x), x, d, q, e, f);
  }

  lemma OppositeSum(x: bv8, d: bv8, q: bv8, e: bv8, f: bv8)
    ensures Add4(Add(Add(e, d), q), Add(Add(Add(f, d), q), Add(Add(e, x), d)), Add(Add(f, d), e), Add(e, x)) == 0
  {
    hide Add, Add4;
    AddThree(e, d, q);
    AddThree(f, d, q);
    AddThree(e, x, d);
    AddThree(f, d, e);
    var b := Add(Add(Add(f, d), q), Add(Add(e, x), d));
    AddSums(Add(Add(f, d), q), Add(Add(e, x), d), (f ^ d) ^ q, (e ^ x) ^ d);
    OppositeXors(Add(Add(e, d), q), b, Add(Add(f, d), e), Add(e, x), x, d, q, e, f);
  }

  lemma LastSum(x: bv8, d: bv8, q: bv8, e: bv8, f: bv8)
    ensures Add4(Add(Add(e, d), q), Add(Add(e, x), d), Add(Add(Add(f, d), e), Add(Add(e, x), q)), Add(f, d)) == 0
  {
    hide Add, Add4;
    AddThree(e, d, q);
    AddThree(e, x, d);
    AddThree(f, d, e);
    AddThree(e, x, q);
    var c := Add(Add(Add(f, d), e), Add(Add(e, x), q));
    AddSums(Add(Add(f, d), e), Add(Add(e, x), q), (f ^ d) ^ e, (e ^ x) ^ q);
    LastXors(Add(Add(e, d), q), Add(Add(e, x), d), c, Add(f, d), x, d, q, e, f);
  }

  /** What becomes of a byte of a column that is mixed and unmixed, in its own place and in the three others. */
  lemma Coefficients(x: bv8)
    ensures Add4(Mul(0x0e, Mul(2, x)), Mul(0x0b, x), Mul(0x0d, x), Mul(9, Mul(3, x))) == x
    ensures Add4(Mul(0x0e, Mul(3, x)), Mul(0x0b, Mul(2, x)), Mul(0x0d, x), Mul(9, x)) == 0
    ensures Add4(Mul(0x0e, x), Mul(0x0b, Mul(3, x)), Mul(0x0d, Mul(2, x)), Mul(9, x)) == 0
    ensures Add4(Mul(0x0e, x), Mul(0x0b, x), Mul(0x0d, Mul(3, x)), Mul(9, Mul(2, x))) == 0
  {
    hide Mul, Add, Add4, Xtime;
    var d := Xtime(x);
    var q := Xtime(d);
    var e := Xtime(q);
    var f := Xtime(e);
    Products(x, d, q, e);
    Products(d, q, e, f);
    ThriceProduct(9, x);
    ThriceProduct(0x0b, x);
    ThriceProduct(0x0d, x);
    ThriceProduct(0x0e, x);
    OwnSum(x, d, q, e, f);
    NextSum(x, d, q, e, f);
    OppositeSum(x, d, q, e, f);
    LastSum(x, d, q, e, f);
  }

  lemma MulFourRight(k: bv8, p: bv8, q: bv8, r: bv8, s: bv8)
    ensures Mul(k, Add4(p, q, r, s)) == Add4(Mul(k, p), Mul(k, q), Mul(k, r), Mul(k, s))
  {
    hide Mul, Add;
    MulAddsRight(k, Add(p, q), Add(r, s));
    MulAddsRight(k, p, q);
    MulAddsRight(k, r, s);
  }

  lemma Add4Turns(p: bv8, q: bv8, r: bv8, s: bv8)
    ensures Add4(p, q, r, s) == Add4(s, p, q, r)
  {
    hide Add;
    AddCommutes(r, s);
    AddSwap(p, q, s, r);
    AddCommutes(p, s);
  }

  lemma AddCommutes(p: bv8, q: bv8)
    ensures Add(p, q) == Add(q, p)
  {
  }

  /** Rows and columns of a square may be summed in either order. */
  lemma AddSquare(a0: bv8, a1: bv8, a2: bv8, a3: bv8, b0: bv8, b1: bv8, b2: bv8, b3: bv8,
      c0: bv8, c1: bv8, c2: bv8, c3: bv8, d0: bv8, d1: bv8, d2: bv8, d3: bv8)
    ensures Add4(Add4(a0, a1, a2, a3), Add4(b0, b1, b2, b3), Add4(c0, c1, c2, c3), Add4(d0, d1, d2, d3))
         == Add4(Add4(a0, b0, c0, d0), Add4(a1, b1, c1, d1), Add4(a2, b2, c2, d2), Add4(a3, b3, c3, d3))
  {
    hide Add;
    AddSwap(Add(a0, a1), Add(a2, a3), Add(b0, b1), Add(b2, b3));
    AddSwap(Add(c0, c1), Add(c2, c3), Add(d0, d1), Add(d2, d3));
    AddSwap(a0, a1, b0, b1);
    AddSwap(a2, a3, b2, b3);
    AddSwap(c0, c1, d0, d1);
    AddSwap(c2, c3, d2, d3);
    AddSwap(Add(Add(a0, b0), Add(a1, b1)), Add(Add(a2, b2), Add(a3, b3)),
            Add(Add(c0, d0), Add(c1, d1)), Add(Add(c2, d2), Add(c3, d3)));
    AddSwap(Add(a0, b0), Add(a1, b1), Add(c0, d0), Add(c1, d1));
    AddSwap(Add(a2, b2), Add(a3, b3), Add(c2, d2), Add(c3, d3));
  }

  lemma UnmixMixByte(a: bv8, b: bv8, c: bv8, d: bv8)
    ensures UnmixByte(MixByte(a, b, c, d), MixByte(b, c, d, a), MixByte(c, d, a, b), MixByte(d, a, b, c)) == a
  {
    hide Mul, Add4;
    var e, o, t, n: bv8 := 0x0e, 0x0b, 0x0d, 9;
    MulFourRight(e, Mul(2, a), Mul(3, b), c, d);
    MulFourRight(o, Mul(2, b), Mul(3, c), d, a);
    MulFourRight(t, Mul(2, c), Mul(3, d), a, b);
    MulFourRight(n, Mul(2, d), Mul(3, a), b, c);
    Add4Turns(Mul(o, Mul(2, b)), Mul(o, Mul(3, c)), Mul(o, d), Mul(o, a));
    Add4Turns(Mul(t, Mul(2, c)), Mul(t, Mul(3, d)), Mul(t, a), Mul(t, b));
    Add4Turns(Mul(t, b), Mul(t, Mul(2, c)), Mul(t, Mul(3, d)), Mul(t, a));
    Add4Turns(Mul(n, Mul(3, a)), Mul(n, b), Mul(n, c), Mul(n, Mul(2, d)));
    AddSquare(Mul(e, Mul(2, a)), Mul(e, Mul(3, b)), Mul(e, c), Mul(e, d),
              Mul(o, a), Mul(o, Mul(2, b)), Mul(o, Mul(3, c)), Mul(o, d),
              Mul(t, a), Mul(t, b), Mul(t, Mul(2, c)), Mul(t, Mul(3, d)),
              Mul(n, Mul(3, a)), Mul(n, b), Mul(n, c), Mul(n, Mul(2, d)));
    Coefficients(a);
    Coefficients(b);
    Coefficients(c);
    Coefficients(d);
    AddNothing(a);
  }

  lemma AddNothing(a: bv8)
    ensures Add4(a, 0, 0, 0) == a
  {
  }

  lemma UnmixMix(x: Col)
    ensures Unmix(Mix(x)) == x
  {
    hide MixByte, UnmixByte;
    UnmixMixByte(x.b0, x.b1, x.b2, x.b3);
    UnmixMixByte(x.b1, x.b2, x.b3, x.b0);
    UnmixMixByte(x.b2, x.b3, x.b0, x.b1);
    UnmixMixByte(x.b3, x.b0, x.b1, x.b2);
  }

  lemma UnmixByteAdds(a: bv8, b: bv8, c: bv8, d: bv8, p: bv8, q: bv8, r: bv8, s: bv8)
    ensures UnmixByte(Add(a, p), Add(b, q), Add(c, r), Add(d, s)) == Add(UnmixByte(a, b, c, d), UnmixByte(p, q, r, s))
  {
    hide Mul, Add;
    MulAddsRight(0x0e, a, p);
    MulAddsRight(0x0b, b, q);
    MulAddsRight(0x0d, c, r);
    MulAddsRight(9, d, s);
    AddSwap(Mul(0x0e, a), Mul(0x0e, p), Mul(0x0b, b), Mul(0x0b, q));
    AddSwap(Mul(0x0d, c), Mul(0x0d, r), Mul(9, d), Mul(9, s));
    AddSwap(Add(Mul(0x0e, a), Mul(0x0b, b)), Add(Mul(0x0e, p), Mul(0x0b, q)),
            Add(Mul(0x0d, c), Mul(9, d)), Add(Mul(0x0d, r), Mul(9, s)));
  }

  lemma UnmixAdds(x: Col, y: Col)
    ensures Unmix(AddCol(x, y)) == AddCol(Unmix(x), Unmix(y))
  {
    hide UnmixByte, Add;
    UnmixByteAdds(x.b0, x.b1, x.b2, x.b3, y.b0, y.b1, y.b2, y.b3);
    UnmixByteAdds(x.b1, x.b2, x.b3, x.b0, y.b1, y.b2, y.b3, y.b0);
    UnmixByteAdds(x.b2, x.b3, x.b0, x.b1, y.b2, y.b3, y.b0, y.b1);
    UnmixByteAdds(x.b3, x.b0, x.b1, x.b2, y.b3, y.b0, y.b1, y.b2);
  }

  // ---------------------------------------------------------------------------------------------
  // Blocks
  // ---------------------------------------------------------------------------------------------

  datatype Block = Block(c0: Col, c1: Col, c2: Col, c3: Col)

  function AddBlock(x: Block, y: Block): Block {
    Block(AddCol(x.c0, y.c0), AddCol(x.c1, y.c1), AddCol(x.c2, y.c2), AddCol(x.c3, y.c3))
  }

  function MixBlock(x: Block): Block {
    Block(Mix(x.c0), Mix(x.c1), Mix(x.c2), Mix(x.c3))
  }

  function UnmixBlock(x: Block): Block {
    Block(Unmix(x.c0), Unmix(x.c1), Unmix(x.c2), Unmix(x.c3))
  }

  ghost function SubCol(a: bv8, b: bv8, c: bv8, d: bv8): Col {
    Col(SBox(a), SBox(b), SBox(c), SBox(d))
  }

  ghost function InvSubCol(a: bv8, b: bv8, c: bv8, d: bv8): Col {
    Col(InvSBox(a), InvSBox(b), InvSBox(c), InvSBox(d))
  }

  /** SubBytes and ShiftRows: row `i` of the block turns left by `i` columns. */
  ghost function SubShift(x: Block): Block {
    Block(SubCol(x.c0.b0, x.c1.b1, x.c2.b2, x.c3.b3), SubCol(x.c1.b0, x.c2.b1, x.c3.b2, x.c0.b3),
          SubCol(x.c2.b0, x.c3.b1, x.c0.b2, x.c1.b3), SubCol(x.c3.b0, x.c0.b1, x.c1.b2, x.c2.b3))
  }

  /** The inverse of both: row `i` turns right by `i` columns. */
  ghost function InvSubShift(x: Block): Block {
    Block(InvSubCol(x.c0.b0, x.c3.b1, x.c2.b2, x.c1.b3), InvSubCol(x.c1.b0, x.c0.b1, x.c3.b2, x.c2.b3),
          InvSubCol(x.c2.b0, x.c1.b1, x.c0.b2, x.c3.b3), InvSubCol(x.c3.b0, x.c2.b1, x.c1.b2, x.c0.b3))
  }

  lemma InvSBoxInverts(x: bv8)
    ensures InvSBox(SBox(x)) == x
  {
    hide Affine, AffineBack, Inverse;
    InverseOfInverse(x);
    AffineUndone(Inverse(x));
  }

  lemma InvSubShiftInverts(x: Block)
    ensures InvSubShift(SubShift(x)) == x
  {
    hide SBox, InvSBox;
    forall b: bv8
      ensures InvSBox(SBox(b)) == b
    {
      InvSBoxInverts(b);
    }
  }

  lemma AddColTwice(x: Col, y: Col)
    ensures AddCol(AddCol(x, y), y) == x
  {
    AddTwice(x.b0, y.b0);
    AddTwice(x.b1, y.b1);
    AddTwice(x.b2, y.b2);
    AddTwice(x.b3, y.b3);
  }

  lemma AddTwice(x: bv8, y: bv8)
    ensures Add(Add(x, y), y) == x
  {
    assert (x ^ y) ^ y == x;
  }

  lemma AddBlockTwice(x: Block, y: Block)
    ensures AddBlock(AddBlock(x, y), y) == x
  {
    hide AddCol;
    AddColTwice(x.c0, y.c0);
    AddColTwice(x.c1, y.c1);
    AddColTwice(x.c2, y.c2);
    AddColTwice(x.c3, y.c3);
  }

  lemma UnmixBlockFacts(x: Block, y: Block)
    ensures UnmixBlock(MixBlock(x)) == x
    ensures UnmixBlock(AddBlock(x, y)) == AddBlock(UnmixBlock(x), UnmixBlock(y))
  {
    hide Mix, Unmix, AddCol;
    UnmixMix(x.c0);
    UnmixMix(x.c1);
    UnmixMix(x.c2);
    UnmixMix(x.c3);
    UnmixAdds(x.c0, y.c0);
    UnmixAdds(x.c1, y.c1);
    UnmixAdds(x.c2, y.c2);
    UnmixAdds(x.c3, y.c3);
  }

  // ---------------------------------------------------------------------------------------------
  // The cipher and its equivalent inverse
  // ---------------------------------------------------------------------------------------------

  /** The block after the first key and `n` full rounds (section 5.1 of FIPS 197). */
  ghost function Forward(x: Block, ks: seq<Block>, n: nat): Block
    requires n < |ks|
  {
    if n == 0 then AddBlock(x, ks[0])
    else AddBlock(MixBlock(SubShift(Forward(x, ks, n - 1))), ks[n])
  }

  ghost function Encrypted(x: Block, ks: seq<Block>): Block
    requires |ks| >= 2
  {
    AddBlock(SubShift(Forward(x, ks, |ks| - 2)), ks[|ks| - 1])
  }

  /** The block after the first key and `n` full rounds of the equivalent inverse cipher (section 5.3.5). */
  ghost function Backward(x: Block, ks: seq<Block>, n: nat): Block
    requires n < |ks|
  {
    if n == 0 then AddBlock(x, ks[0])
    else AddBlock(UnmixBlock(InvSubShift(Backward(x, ks, n - 1))), ks[n])
  }

  ghost function Decrypted(x: Block, ks: seq<Block>): Block
    requires |ks| >= 2
  {
    AddBlock(InvSubShift(Backward(x, ks, |ks| - 2)), ks[|ks| - 1])
  }

  /** The decryption keys: the encryption keys in reverse, all but the first and the last unmixed. */
  ghost predicate KeysInverse(ks: seq<Block>, ds: seq<Block>) {
    && |ds| == |ks| >= 2
    && ds[0] == ks[|ks| - 1] && ds[|ks| - 1] == ks[0]
    && forall i :: 0 < i < |ks| - 1 ==> ds[i] == UnmixBlock(ks[|ks| - 1 - i])
  }

  /** Each inverse round meets the block where a forward round left it. */
  lemma {:induction false} BackwardMeets(x: Block, ks: seq<Block>, ds: seq<Block>, n: nat)
    requires KeysInverse(ks, ds) && n <= |ks| - 2
    ensures Backward(Encrypted(x, ks), ds, n) == SubShift(Forward(x, ks, |ks| - 2 - n))
  {
    hide AddBlock, SubShift, InvSubShift, MixBlock, UnmixBlock;
    var m := |ks| - 2;
    if n == 0 {
      AddBlockTwice(SubShift(Forward(x, ks, m)), ks[m + 1]);
    } else {
      BackwardMeets(x, ks, ds, n - 1);
      var e := Forward(x, ks, m - n + 1);
      InvSubShiftInverts(e);
      var mixed := MixBlock(SubShift(Forward(x, ks, m - n)));
      UnmixBlockFacts(mixed, ks[m - n + 1]);
      UnmixBlockFacts(SubShift(Forward(x, ks, m - n)), ks[0]);
      AddBlockTwice(SubShift(Forward(x, ks, m - n)), UnmixBlock(ks[m - n + 1]));
    }
  }

  lemma DecryptedInverts(x: Block, ks: seq<Block>, ds: seq<Block>)
    requires KeysInverse(ks, ds)
    ensures Decrypted(Encrypted(x, ks), ds) == x
  {
    hide AddBlock, SubShift, InvSubShift, UnmixBlock;
    BackwardMeets(x, ks, ds, |ks| - 2);
    InvSubShiftInverts(Forward(x, ks, 0));
    AddBlockTwice(x, ks[0]);
  }
}
