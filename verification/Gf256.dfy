/**
  The field of 256 elements that AES computes in (section 4 of FIPS 197): multiplication, the powers
  of 3, and the proof that they run through every element but 0 exactly once in each 255.
 */
module Gf256 {

  function Add(a: bv8, b: bv8): bv8 {
    a ^ b
  }

  function Half(b: bv8): bv8 {
    b >> 1
  }

  function Xtime(x: bv8): bv8 {
    (x << 1) ^ (0x1b & (0 - (x >> 7)))
  }

  function Part(a: bv8, b: bv8): bv8 {
    a & (0 - (b & 1))
  }

  /** The product of `a` and the low `n` bits of `b`. */
  function MulBits(a: bv8, b: bv8, n: nat): bv8
    decreases n
  {
    if n == 0 then 0 else Add(Part(a, b), MulBits(Xtime(a), Half(b), n - 1))
  }

  function Mul(a: bv8, b: bv8): bv8 {
    MulBits(a, b, 8)
  }

  /** One step of the program's table of powers. */
  function Times3(x: bv8): bv8 {
    Add(x, Xtime(x))
  }

  function Pow(k: nat): bv8 {
    if k == 0 then 1 else Times3(Pow(k - 1))
  }

  /** Doubling as the program writes it. */
  lemma XtimeBranches(x: bv8)
    ensures Xtime(x) == (x << 1) ^ (if x & 0x80 != 0 then 0x1b else 0x00)
  {
  }

  // ---------------------------------------------------------------------------------------------
  // Multiplication is linear
  // ---------------------------------------------------------------------------------------------

  lemma XtimeAdds(a: bv8, b: bv8)
    ensures Xtime(Add(a, b)) == Add(Xtime(a), Xtime(b))
  {
  }

  lemma PartChooses(a: bv8, b: bv8)
    ensures Part(a, b) == if b & 1 == 0 then 0 else a
  {
    assert b & 1 == 0 || b & 1 == 1;
  }

  lemma PartAdds(a: bv8, c: bv8, b: bv8)
    ensures Part(Add(a, c), b) == Add(Part(a, b), Part(c, b))
  {
    PartChooses(a, b);
    PartChooses(c, b);
    PartChooses(Add(a, c), b);
  }

  lemma PartXtime(a: bv8, b: bv8)
    ensures Part(Xtime(a), b) == Xtime(Part(a, b))
  {
  }

  lemma AddSwap(p: bv8, q: bv8, r: bv8, s: bv8)
    ensures Add(Add(p, q), Add(r, s)) == Add(Add(p, r), Add(q, s))
  {
    assert (p ^ q) ^ (r ^ s) == (p ^ r) ^ (q ^ s);
  }

  lemma {:induction false} MulBitsAdds(a: bv8, c: bv8, b: bv8, n: nat)
    ensures MulBits(Add(a, c), b, n) == Add(MulBits(a, b, n), MulBits(c, b, n))
    decreases n
  {
    if n > 0 {
      hide Xtime, Part, Add, Half;
      MulBitsAdds(Xtime(a), Xtime(c), Half(b), n - 1);
      XtimeAdds(a, c);
      PartAdds(a, c, b);
      AddSwap(Part(a, b), Part(c, b), MulBits(Xtime(a), Half(b), n - 1), MulBits(Xtime(c), Half(b), n - 1));
    }
  }

  lemma {:induction false} MulBitsXtime(a: bv8, b: bv8, n: nat)
    ensures MulBits(Xtime(a), b, n) == Xtime(MulBits(a, b, n))
    decreases n
  {
    if n > 0 {
      hide Xtime, Part, Add, Half;
      MulBitsXtime(Xtime(a), Half(b), n - 1);
      PartXtime(a, b);
      XtimeAdds(Part(a, b), MulBits(Xtime(a), Half(b), n - 1));
    }
  }

  lemma MulTimes3(a: bv8, b: bv8)
    ensures Mul(Times3(a), b) == Times3(Mul(a, b))
  {
    hide Xtime, MulBits, Add;
    MulBitsAdds(a, Xtime(a), b, 8);
    MulBitsXtime(a, b, 8);
  }

  /** Four bits of the product, written out. */
  lemma {:induction false} MulFour(a: bv8, b: bv8, n: nat)
    ensures MulBits(a, b, n + 4) ==
      var a1, b1 := Xtime(a), Half(b);
      var a2, b2 := Xtime(a1), Half(b1);
      var a3, b3 := Xtime(a2), Half(b2);
      Add(Part(a, b), Add(Part(a1, b1), Add(Part(a2, b2), Add(Part(a3, b3), MulBits(Xtime(a3), Half(b3), n)))))
  {
    hide Xtime, Part, Add, Half;
    var a1, b1 := Xtime(a), Half(b);
    var a2, b2 := Xtime(a1), Half(b1);
    assert MulBits(a2, b2, n + 2) == Add(Part(a2, b2), MulBits(Xtime(a2), Half(b2), n + 1));
    assert MulBits(a1, b1, n + 3) == Add(Part(a1, b1), MulBits(a2, b2, n + 2));
  }

  /** The product, written out. */
  lemma MulUnrolled(a: bv8, b: bv8)
    ensures Mul(a, b) ==
      var a1, b1 := Xtime(a), Half(b);
      var a2, b2 := Xtime(a1), Half(b1);
      var a3, b3 := Xtime(a2), Half(b2);
      var a4, b4 := Xtime(a3), Half(b3);
      var a5, b5 := Xtime(a4), Half(b4);
      var a6, b6 := Xtime(a5), Half(b5);
      var a7, b7 := Xtime(a6), Half(b6);
      Add(Part(a, b), Add(Part(a1, b1), Add(Part(a2, b2), Add(Part(a3, b3),
        Add(Part(a4, b4), Add(Part(a5, b5), Add(Part(a6, b6), Add(Part(a7, b7), 0))))))))
  {
    hide Xtime, Part, Add, Half;
    MulFour(a, b, 4);
    MulFour(Xtime(Xtime(Xtime(Xtime(a)))), Half(Half(Half(Half(b)))), 0);
  }

  lemma MulOne(b: bv8)
    ensures Mul(1, b) == b
  {
    MulUnrolled(1, b);
  }

  // ---------------------------------------------------------------------------------------------
  // Powers of 3
  // ---------------------------------------------------------------------------------------------

  /** Multiplying powers adds exponents. */
  lemma {:induction false} PowAdds(i: nat, j: nat)
    ensures Mul(Pow(i), Pow(j)) == Pow(i + j)
  {
    hide Mul, Times3;
    if i == 0 {
      MulOne(Pow(j));
    } else {
      PowAdds(i - 1, j);
      MulTimes3(Pow(i - 1), Pow(j));
    }
  }

  lemma {:induction false} PowNonZero(k: nat)
    ensures Pow(k) != 0
  {
    if k > 0 {
      PowNonZero(k - 1);
    }
  }

  lemma PowSum(i: nat, j: nat, x: bv8, y: bv8, z: bv8)
    requires Pow(i) == x && Pow(j) == y && Mul(x, y) == z
    ensures Pow(i + j) == z
  {
    hide Mul, Times3;
    PowAdds(i, j);
  }

  lemma PowOne()
    ensures Pow(1) == 3
  {
  }

  lemma Squarings()
    ensures Pow(1) == 0x03 && Pow(2) == 0x05 && Pow(4) == 0x11 && Pow(8) == 0x1a
    ensures Pow(16) == 0x5f && Pow(32) == 0xe5 && Pow(64) == 0x4c
  {
    SomeProducts();
    PowOne();
    hide Mul, Times3, Pow;
    PowSum(1, 1, 0x03, 0x03, 0x05);
    PowSum(2, 2, 0x05, 0x05, 0x11);
    PowSum(4, 4, 0x11, 0x11, 0x1a);
    PowSum(8, 8, 0x1a, 0x1a, 0x5f);
    PowSum(16, 16, 0x5f, 0x5f, 0xe5);
    PowSum(32, 32, 0xe5, 0xe5, 0x4c);
  }

  lemma PowFifteen()
    ensures Pow(15) == 0x35 && Pow(3) == 0x0f
  {
    SomeProducts();
    Squarings();
    hide Mul, Times3, Pow;
    PowSum(1, 2, 0x03, 0x05, 0x0f);
    PowSum(4, 8, 0x11, 0x1a, 0xa1);
    PowSum(3, 12, 0x0f, 0xa1, 0x35);
  }

  lemma PowFiftyOne()
    ensures Pow(51) == 0x0c
  {
    SomeProducts();
    Squarings();
    PowFifteen();
    hide Mul, Times3, Pow;
    PowSum(16, 32, 0x5f, 0xe5, 0x53);
    PowSum(3, 48, 0x0f, 0x53, 0x0c);
  }

  lemma PowEightyFive()
    ensures Pow(85) == 0xbd && Pow(255) == 1
  {
    SomeProducts();
    Squarings();
    hide Mul, Times3, Pow;
    PowSum(1, 4, 0x03, 0x11, 0x33);
    PowSum(16, 64, 0x5f, 0x4c, 0x83);
    PowSum(5, 80, 0x33, 0x83, 0xbd);
    PowSum(85, 85, 0xbd, 0xbd, 0xbc);
    PowSum(85, 170, 0xbd, 0xbc, 0x01);
  }

  lemma SomePowers()
    ensures Pow(15) != 1 && Pow(51) != 1 && Pow(85) != 1 && Pow(255) == 1
  {
    PowFifteen();
    PowFiftyOne();
    PowEightyFive();
    hide Pow;
  }

  lemma SomeProducts()
    ensures Mul(0x03, 0x03) == 0x05
    ensures Mul(0x05, 0x05) == 0x11
    ensures Mul(0x11, 0x11) == 0x1a
    ensures Mul(0x1a, 0x1a) == 0x5f
    ensures Mul(0x5f, 0x5f) == 0xe5
    ensures Mul(0xe5, 0xe5) == 0x4c
    ensures Mul(0x03, 0x05) == 0x0f
    ensures Mul(0x11, 0x1a) == 0xa1
    ensures Mul(0x0f, 0xa1) == 0x35
    ensures Mul(0x5f, 0xe5) == 0x53
    ensures Mul(0x0f, 0x53) == 0x0c
    ensures Mul(0x03, 0x11) == 0x33
    ensures Mul(0x5f, 0x4c) == 0x83
    ensures Mul(0x33, 0x83) == 0xbd
    ensures Mul(0xbd, 0xbd) == 0xbc
    ensures Mul(0xbd, 0xbc) == 0x01
  {
    MulUnrolled(0x03, 0x03);
    MulUnrolled(0x05, 0x05);
    MulUnrolled(0x11, 0x11);
    MulUnrolled(0x1a, 0x1a);
    MulUnrolled(0x5f, 0x5f);
    MulUnrolled(0xe5, 0xe5);
    MulUnrolled(0x03, 0x05);
    MulUnrolled(0x11, 0x1a);
    MulUnrolled(0x0f, 0xa1);
    MulUnrolled(0x5f, 0xe5);
    MulUnrolled(0x0f, 0x53);
    MulUnrolled(0x03, 0x11);
    MulUnrolled(0x5f, 0x4c);
    MulUnrolled(0x33, 0x83);
    MulUnrolled(0xbd, 0xbd);
    MulUnrolled(0xbd, 0xbc);
  }

  // ---------------------------------------------------------------------------------------------
  // The order of 3 is 255
  // ---------------------------------------------------------------------------------------------

  lemma PowStep(d: nat, n: nat)
    requires Pow(d) == 1 && d <= n
    ensures Pow(n) == Pow(n - d)
  {
    hide Mul, Times3;
    PowAdds(d, n - d);
    MulOne(Pow(n - d));
  }

  function Remainder(d: nat, n: nat): (r: nat)
    requires d > 0
    ensures r < d
  {
    if n < d then n else Remainder(d, n - d)
  }

  lemma {:induction false} RemainderLeaves(d: nat, n: nat) returns (q: nat)
    requires d > 0
    ensures n == q * d + Remainder(d, n)
  {
    if n < d {
      q := 0;
    } else {
      var p := RemainderLeaves(d, n - d);
      q := p + 1;
      assert q * d == p * d + d;
    }
  }

  /** Exponents count only up to multiples of one that gives 1. */
  lemma {:induction false} PowRemainder(d: nat, n: nat)
    requires d > 0 && Pow(d) == 1
    ensures Pow(n) == Pow(Remainder(d, n))
  {
    hide Pow;
    if n >= d {
      PowStep(d, n);
      PowRemainder(d, n - d);
    }
  }

  lemma {:induction false} PowMultiple(d: nat, k: nat)
    requires d > 0 && Pow(d) == 1
    ensures Pow(k * d) == 1
  {
    hide Pow;
    if k == 0 {
      PowZero();
    } else {
      PowMultiple(d, k - 1);
      assert k * d == (k - 1) * d + d;
      PowStep(d, k * d);
    }
  }

  /** A proper divisor of 255 divides 15, 51 or 85. */
  lemma DivisorsOf255(d: nat, q: nat) returns (k: nat)
    requires 0 < d < 255 && q * d == 255
    ensures k * d == 15 || k * d == 51 || k * d == 85
  {
    if d > 15 {
      assert q * 16 <= q * d;
      assert q == 0 || q == 1 || q == 2 || q == 3 || q == 4 || q == 5 || q == 6 || q == 7 || q == 8 || q == 9
          || q == 10 || q == 11 || q == 12 || q == 13 || q == 14 || q == 15;
      k := if d == 17 then 3 else 1;
    } else {
      assert d == 1 || d == 2 || d == 3 || d == 4 || d == 5 || d == 6 || d == 7 || d == 8 || d == 9
          || d == 10 || d == 11 || d == 12 || d == 13 || d == 14 || d == 15;
      k := if d == 1 then 15 else if d == 3 then 5 else if d == 5 then 3 else 1;
    }
  }

  lemma {:induction false} OrderIs255(d: nat)
    requires 0 < d < 255
    ensures Pow(d) != 1
  {
    hide Pow, Remainder;
    if Pow(d) == 1 {
      SomePowers();
      var q := RemainderLeaves(d, 255);
      PowRemainder(d, 255);
      if Remainder(d, 255) > 0 {
        OrderIs255(Remainder(d, 255));
      } else {
        var k := DivisorsOf255(d, q);
        PowMultiple(d, k);
      }
    }
  }

  lemma PowZero()
    ensures Pow(0) == 1
  {
  }

  /** The first 255 powers are distinct. */
  lemma PowInjective(i: nat, j: nat)
    requires i < j < 255
    ensures Pow(i) != Pow(j)
  {
    hide Pow, Mul;
    if Pow(i) == Pow(j) {
      SomePowers();
      PowAdds(i, 255 - i);
      PowAdds(j, 255 - i);
      PowStep(255, j + (255 - i));
      OrderIs255(j - i);
    }
  }

  // ---------------------------------------------------------------------------------------------
  // Every element but 0 is a power
  // ---------------------------------------------------------------------------------------------

  ghost function FirstPowers(n: nat): set<int> {
    set k: nat | k < n :: Pow(k) as int
  }

  lemma {:induction false} FirstPowersCount(n: nat)
    requires n <= 255
    ensures |FirstPowers(n)| == n
  {
    hide Pow;
    if n > 0 {
      FirstPowersCount(n - 1);
      assert FirstPowers(n) == FirstPowers(n - 1) + {Pow(n - 1) as int};
      if Pow(n - 1) as int in FirstPowers(n - 1) {
        var k: nat :| k < n - 1 && Pow(k) as int == Pow(n - 1) as int;
        PowInjective(k, n - 1);
        SameByte(Pow(k), Pow(n - 1));
      }
    }
  }

  lemma SameByte(x: bv8, y: bv8)
    requires x as int == y as int
    ensures x == y
  {
  }

  ghost function Range(n: nat): set<int> {
    if n == 0 then {} else Range(n - 1) + {n}
  }

  lemma {:induction false} RangeHolds(n: nat)
    ensures |Range(n)| == n
    ensures forall k :: k in Range(n) <==> 1 <= k <= n
  {
    if n > 0 {
      RangeHolds(n - 1);
    }
  }

  lemma {:induction false} FillsRange(s: set<int>, n: nat)
    requires s <= Range(n)
    ensures |s| <= n && (|s| == n ==> s == Range(n))
  {
    RangeHolds(n);
    if n > 0 {
      RangeHolds(n - 1);
      FillsRange(s - {n}, n - 1);
      if n in s {
        assert s == (s - {n}) + {n};
      } else {
        assert s == s - {n};
      }
    } else {
      assert s == {};
    }
  }

  lemma NonZeroByte(x: bv8)
    requires x != 0
    ensures 1 <= x as int <= 255
  {
  }

  lemma {:induction false} EveryElementIsPower(x: bv8)
    requires x != 0
    ensures exists k: nat :: k < 255 && Pow(k) == x
  {
    hide Pow;
    var powers, range := FirstPowers(255), Range(255);
    RangeHolds(255);
    forall y | y in powers
      ensures y in range
    {
      var k: nat :| k < 255 && Pow(k) as int == y;
      PowNonZero(k);
      NonZeroByte(Pow(k));
    }
    FirstPowersCount(255);
    FillsRange(powers, 255);
    NonZeroByte(x);
    assert x as int in powers;
    var k: nat :| k < 255 && Pow(k) as int == x as int;
    SameByte(Pow(k), x);
  }

  /** The logarithm as the program's table has it: 1 is at 255, the last place the loop writes. */
  ghost function Log(x: bv8): (k: nat)
    requires x != 0
    ensures 1 <= k <= 255 && Pow(k) == x
  {
    EveryElementIsPower(x);
    SomePowers();
    PowZero();
    var k: nat :| k < 255 && Pow(k) == x;
    if k == 0 then 255 else k
  }

  lemma LogUnique(k: nat)
    requires 1 <= k <= 255
    ensures Pow(k) != 0 && Log(Pow(k)) == k
  {
    hide Pow, Log;
    PowNonZero(k);
    var j := Log(Pow(k));
    SomePowers();
    PowZero();
    var a, b := if k == 255 then 0 else k, if j == 255 then 0 else j;
    assert Pow(a) == Pow(b);
    if a < b {
      PowInjective(a, b);
    } else if b < a {
      PowInjective(b, a);
    }
  }

  // ---------------------------------------------------------------------------------------------
  // Inverses and products through the tables
  // ---------------------------------------------------------------------------------------------

  /** The program's inverse: subtract the logarithm. */
  ghost function Inverse(x: bv8): bv8 {
    if x == 0 then 0 else Pow(255 - Log(x))
  }

  lemma InverseIsInverse(x: bv8)
    requires x != 0
    ensures Mul(x, Inverse(x)) == 1
  {
    hide Pow, Mul;
    PowAdds(Log(x), 255 - Log(x));
    SomePowers();
  }

  lemma InverseInjective(x: bv8, y: bv8)
    requires Inverse(x) == Inverse(y)
    ensures x == y
  {
    hide Pow, Mul, Log;
    if x != 0 {
      PowNonZero(255 - Log(x));
    }
    if y != 0 {
      PowNonZero(255 - Log(y));
    }
    if x != 0 && y != 0 && Log(x) != Log(y) {
      if Log(x) < Log(y) {
        PowInjective(255 - Log(y), 255 - Log(x));
      } else {
        PowInjective(255 - Log(x), 255 - Log(y));
      }
    }
  }

  lemma InverseOfInverse(x: bv8)
    ensures Inverse(Inverse(x)) == x
  {
    hide Pow, Mul, Log;
    if x != 0 {
      PowNonZero(255 - Log(x));
      SomePowers();
      PowZero();
      LogUnique(255);
      if Log(x) < 255 {
        LogUnique(255 - Log(x));
      }
    }
  }

  /** The program's product: add the logarithms. */
  lemma MulByLogs(x: bv8, y: bv8)
    requires x != 0 && y != 0
    ensures Mul(x, y) == Pow((Log(x) + Log(y)) % 255)
  {
    hide Pow, Mul, Log;
    var k := Log(x) + Log(y);
    PowAdds(Log(x), Log(y));
    SomePowers();
    if k >= 255 {
      PowStep(255, k);
    }
    if k == 510 {
      PowStep(255, 255);
    }
  }

  // ---------------------------------------------------------------------------------------------
  // Products by the constants of AES
  // ---------------------------------------------------------------------------------------------

  lemma PartAddsRight(a: bv8, b: bv8, c: bv8)
    ensures Part(a, Add(b, c)) == Add(Part(a, b), Part(a, c))
    ensures Half(Add(b, c)) == Add(Half(b), Half(c))
  {
    PartChooses(a, b);
    PartChooses(a, c);
    PartChooses(a, Add(b, c));
  }

  lemma {:induction false} MulBitsAddsRight(a: bv8, b: bv8, c: bv8, n: nat)
    ensures MulBits(a, Add(b, c), n) == Add(MulBits(a, b, n), MulBits(a, c, n))
    decreases n
  {
    if n > 0 {
      hide Xtime, Part, Add, Half;
      MulBitsAddsRight(Xtime(a), Half(b), Half(c), n - 1);
      PartAddsRight(a, b, c);
      AddSwap(Part(a, b), Part(a, c), MulBits(Xtime(a), Half(b), n - 1), MulBits(Xtime(a), Half(c), n - 1));
    }
  }

  lemma MulAddsRight(a: bv8, b: bv8, c: bv8)
    ensures Mul(a, Add(b, c)) == Add(Mul(a, b), Mul(a, c))
  {
    hide MulBits, Add;
    MulBitsAddsRight(a, b, c, 8);
  }

  lemma MulAdds(a: bv8, c: bv8, b: bv8)
    ensures Mul(Add(a, c), b) == Add(Mul(a, b), Mul(c, b))
  {
    hide MulBits, Add;
    MulBitsAdds(a, c, b, 8);
  }

  lemma MulXtime(a: bv8, b: bv8)
    ensures Mul(Xtime(a), b) == Xtime(Mul(a, b))
  {
    hide MulBits, Xtime;
    MulBitsXtime(a, b, 8);
  }

  lemma SmallSums()
    ensures Xtime(1) == 2 && Xtime(2) == 4 && Xtime(4) == 8
    ensures Add(2, 1) == 3 && Add(8, 1) == 9 && Add(9, 2) == 0x0b && Add(9, 4) == 0x0d && Add(0x0a, 4) == 0x0e
    ensures Add(8, 2) == 0x0a
  {
  }

  function Eightfold(x: bv8): bv8 {
    Xtime(Xtime(Xtime(x)))
  }

  /** The products AES uses, by doubling and adding. */
  lemma SmallProducts(x: bv8)
    ensures Mul(2, x) == Xtime(x)
    ensures Mul(3, x) == Add(Xtime(x), x)
    ensures Mul(9, x) == Add(Eightfold(x), x)
    ensures Mul(0x0b, x) == Add(Add(Eightfold(x), x), Xtime(x))
    ensures Mul(0x0d, x) == Add(Add(Eightfold(x), x), Xtime(Xtime(x)))
    ensures Mul(0x0e, x) == Add(Add(Eightfold(x), Xtime(x)), Xtime(Xtime(x)))
  {
    hide Mul, Xtime, Add;
    SmallSums();
    MulOne(x);
    MulXtime(1, x);
    MulXtime(2, x);
    MulXtime(4, x);
    MulAdds(2, 1, x);
    MulAdds(8, 1, x);
    MulAdds(9, 2, x);
    MulAdds(9, 4, x);
    MulAdds(8, 2, x);
    MulAdds(0x0a, 4, x);
  }

  lemma MulZero(x: bv8)
    ensures Mul(x, 0) == 0 && Mul(0, x) == 0
  {
    MulUnrolled(x, 0);
    MulUnrolled(0, x);
  }
}
