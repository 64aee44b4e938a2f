/**
 How far apart two bit errors must be for the CRC-16 of hfdl_crc.c to miss them, and from
 it the distance of the code: the order of x modulo the generator, found by squaring.
 */
module CrcDistance {
  import opened Crc
  import opened CrcDetection

  // ---------- sums of words ----------

  function Sum(x: bv16, y: bv16): bv16 {
    x ^ y
  }

  lemma BitsSum(x: bv16, y: bv16)
    ensures Bits(Sum(x, y)) == Xor(Bits(x), Bits(y))
  {
    BitsXor(x, y);
  }

  lemma Regrouped(a: bv16, b: bv16, c: bv16, d: bv16)
    ensures Sum(Sum(a, b), Sum(c, d)) == Sum(Sum(a, c), Sum(b, d))
  {
    hide Sum;
    var left, right := Sum(Sum(a, b), Sum(c, d)), Sum(Sum(a, c), Sum(b, d));
    BitsSum(a, b);
    BitsSum(c, d);
    BitsSum(a, c);
    BitsSum(b, d);
    BitsSum(Sum(a, b), Sum(c, d));
    BitsSum(Sum(a, c), Sum(b, d));
    assert Bits(left) == Bits(right);
    BitsInjective(left, right);
  }

  lemma StepWordLinear(x: bv16, y: bv16)
    ensures StepWord(Sum(x, y)) == Sum(StepWord(x), StepWord(y))
  {
    hide Sum, StepWord, Step, Xor, Bits;
    BitsSum(x, y);
    BitsStep(x);
    BitsStep(y);
    BitsStep(Sum(x, y));
    StepLinear(Bits(x), Bits(y));
    BitsSum(StepWord(x), StepWord(y));
    BitsInjective(StepWord(Sum(x, y)), Sum(StepWord(x), StepWord(y)));
  }

  /** The k lowest bits of a word. */
  function Lowest(a: bv16, k: nat): bv16
    requires k <= 16
    decreases k
  {
    if k == 0 then 0 else if BitAt(a, k - 1) then Sum(Lowest(a, k - 1), Mask(k - 1)) else Lowest(a, k - 1)
  }

  lemma BitsMask(i: nat)
    requires i < 16
    ensures Bits(Mask(i)) == Falses(16)[i := true]
  {
    forall j | 0 <= j < 16
      ensures BitAt(Mask(i), j) == (i == j)
    {
    }
  }

  lemma BitsZero()
    ensures Bits(0) == ZERO
  {}

  lemma NextBit(bits: seq<bool>, bit: bool)
    requires |bits| < 16
    ensures var r := bits + Falses(16 - |bits|);
            bits + [bit] + Falses(15 - |bits|) == if bit then Xor(r, Falses(16)[|bits| := true]) else r
  {}

  lemma {:induction false} BitsLowest(a: bv16, k: nat)
    requires k <= 16
    ensures Bits(Lowest(a, k)) == Bits(a)[..k] + Falses(16 - k)
    decreases k
  {
    hide Sum, Mask, BitAt;
    if k == 0 {
      BitsZero();
    } else {
      BitsLowest(a, k - 1);
      BitsMask(k - 1);
      BitsSum(Lowest(a, k - 1), Mask(k - 1));
      assert Bits(a)[k - 1] == BitAt(a, k - 1);
      assert Bits(a)[..k] == Bits(a)[..k - 1] + [Bits(a)[k - 1]];
      NextBit(Bits(a)[..k - 1], Bits(a)[k - 1]);
    }
  }

  lemma LowestAll(a: bv16)
    ensures Lowest(a, 16) == a
  {
    hide Lowest;
    BitsLowest(a, 16);
    assert Bits(a)[..16] + Falses(0) == Bits(a);
    BitsInjective(Lowest(a, 16), a);
  }

  // ---------- powers of x, by squaring ----------

  /** The word is x to the power n, modulo the generator. */
  predicate Power(n: nat, w: bv16) {
    w == AdvanceWord(0x8000, n)
  }

  // The square of a polynomial: x to an even power for each place of its word.

  predicate OneBitMask(mask: bv16) {
    mask != 0 && mask & (mask - 1) == 0
  }

  predicate On(a: bv16, mask: bv16) {
    a & mask != 0
  }

  lemma OnSum(x: bv16, y: bv16, mask: bv16)
    requires OneBitMask(mask)
    ensures On(Sum(x, y), mask) <==> On(x, mask) != On(y, mask)
  {
    XorAt(x, y, mask);
  }

  function Pick(a: bv16, mask: bv16, v: bv16): bv16 {
    if a & mask != 0 then v else 0
  }

  function Choose(b: bool, v: bv16): bv16 {
    if b then v else 0
  }

  function Four(x: bv16, y: bv16, z: bv16, w: bv16): bv16 {
    (x ^ y) ^ (z ^ w)
  }

  /** The terms of four places, by their masks. */
  function Places(a: bv16, m0: bv16, m1: bv16, m2: bv16, m3: bv16, v0: bv16, v1: bv16, v2: bv16, v3: bv16): bv16 {
    Four(if a & m0 != 0 then v0 else 0, if a & m1 != 0 then v1 else 0,
         if a & m2 != 0 then v2 else 0, if a & m3 != 0 then v3 else 0)
  }

  function Spread(a: bv16): bv16 {
    Sum(Sum(Places(a, 0x0001, 0x0002, 0x0004, 0x0008, 0x33B0, 0xCEC0, 0x2333, 0x8CCC),
            Places(a, 0x0010, 0x0020, 0x0040, 0x0080, 0x2312, 0x8C48, 0x2102, 0x8408)),
        Sum(Places(a, 0x0100, 0x0200, 0x0400, 0x0800, 0x0002, 0x0008, 0x0020, 0x0080),
            Places(a, 0x1000, 0x2000, 0x4000, 0x8000, 0x0200, 0x0800, 0x2000, 0x8000)))
  }

  lemma PickLinear(x: bv16, y: bv16, mask: bv16, v: bv16)
    requires OneBitMask(mask)
    ensures Pick(Sum(x, y), mask, v) == Sum(Pick(x, mask, v), Pick(y, mask, v))
  {
    hide Sum, Pick, On, Choose, OneBitMask;
    PickChooses(x, mask, v);
    PickChooses(y, mask, v);
    PickChooses(Sum(x, y), mask, v);
    OnSum(x, y, mask);
    ChooseLinear(On(x, mask), On(y, mask), v);
  }

  lemma PickChooses(a: bv16, mask: bv16, v: bv16)
    ensures Pick(a, mask, v) == Choose(On(a, mask), v)
  {}

  lemma ChooseLinear(b: bool, c: bool, v: bv16)
    ensures Choose(b != c, v) == Sum(Choose(b, v), Choose(c, v))
  {
    hide Sum;
    SumsWithZero(v);
  }

  lemma SumsWithZero(v: bv16)
    ensures Sum(v, 0) == v && Sum(0, v) == v && Sum(v, v) == 0 && Sum(0, 0) == 0
  {}

  lemma FourSum(x: bv16, y: bv16, z: bv16, w: bv16)
    ensures Four(x, y, z, w) == Sum(Sum(x, y), Sum(z, w))
  {
    hide Sum;
    SumOfSums(x, y, z, w);
  }

  lemma SumOfSums(x: bv16, y: bv16, z: bv16, w: bv16)
    ensures Sum(Sum(x, y), Sum(z, w)) == (x ^ y) ^ (z ^ w)
  {}

  lemma FourLinear(x0: bv16, x1: bv16, x2: bv16, x3: bv16, y0: bv16, y1: bv16, y2: bv16, y3: bv16)
    ensures Four(Sum(x0, y0), Sum(x1, y1), Sum(x2, y2), Sum(x3, y3)) == Sum(Four(x0, x1, x2, x3), Four(y0, y1, y2, y3))
  {
    hide Sum, Four;
    FourSum(x0, x1, x2, x3);
    FourSum(y0, y1, y2, y3);
    FourSum(Sum(x0, y0), Sum(x1, y1), Sum(x2, y2), Sum(x3, y3));
    Regrouped(x0, y0, x1, y1);
    Regrouped(x2, y2, x3, y3);
    Regrouped(Sum(x0, x1), Sum(y0, y1), Sum(x2, x3), Sum(y2, y3));
  }

  lemma PlacesFour(a: bv16, m0: bv16, m1: bv16, m2: bv16, m3: bv16, v0: bv16, v1: bv16, v2: bv16, v3: bv16)
    ensures Places(a, m0, m1, m2, m3, v0, v1, v2, v3)
            == Four(Pick(a, m0, v0), Pick(a, m1, v1), Pick(a, m2, v2), Pick(a, m3, v3))
  {
    hide Four;
  }

  lemma PlacesLinear(x: bv16, y: bv16, m0: bv16, m1: bv16, m2: bv16, m3: bv16, v0: bv16, v1: bv16, v2: bv16, v3: bv16)
    requires OneBitMask(m0) && OneBitMask(m1) && OneBitMask(m2) && OneBitMask(m3)
    ensures Places(Sum(x, y), m0, m1, m2, m3, v0, v1, v2, v3)
            == Sum(Places(x, m0, m1, m2, m3, v0, v1, v2, v3), Places(y, m0, m1, m2, m3, v0, v1, v2, v3))
  {
    hide Sum, Pick, Four, Places, OneBitMask;
    PlacesFour(x, m0, m1, m2, m3, v0, v1, v2, v3);
    PlacesFour(y, m0, m1, m2, m3, v0, v1, v2, v3);
    PlacesFour(Sum(x, y), m0, m1, m2, m3, v0, v1, v2, v3);
    PickLinear(x, y, m0, v0);
    PickLinear(x, y, m1, v1);
    PickLinear(x, y, m2, v2);
    PickLinear(x, y, m3, v3);
    FourLinear(Pick(x, m0, v0), Pick(x, m1, v1), Pick(x, m2, v2), Pick(x, m3, v3),
               Pick(y, m0, v0), Pick(y, m1, v1), Pick(y, m2, v2), Pick(y, m3, v3));
  }

  lemma SpreadLinear(x: bv16, y: bv16)
    ensures Spread(Sum(x, y)) == Sum(Spread(x), Spread(y))
  {
    hide Sum, Places;
    PlacesLinear(x, y, 0x0001, 0x0002, 0x0004, 0x0008, 0x33B0, 0xCEC0, 0x2333, 0x8CCC);
    PlacesLinear(x, y, 0x0010, 0x0020, 0x0040, 0x0080, 0x2312, 0x8C48, 0x2102, 0x8408);
    PlacesLinear(x, y, 0x0100, 0x0200, 0x0400, 0x0800, 0x0002, 0x0008, 0x0020, 0x0080);
    PlacesLinear(x, y, 0x1000, 0x2000, 0x4000, 0x8000, 0x0200, 0x0800, 0x2000, 0x8000);
    var x0, y0 := Places(x, 0x0001, 0x0002, 0x0004, 0x0008, 0x33B0, 0xCEC0, 0x2333, 0x8CCC),
      Places(y, 0x0001, 0x0002, 0x0004, 0x0008, 0x33B0, 0xCEC0, 0x2333, 0x8CCC);
    var x4, y4 := Places(x, 0x0010, 0x0020, 0x0040, 0x0080, 0x2312, 0x8C48, 0x2102, 0x8408),
      Places(y, 0x0010, 0x0020, 0x0040, 0x0080, 0x2312, 0x8C48, 0x2102, 0x8408);
    var x8, y8 := Places(x, 0x0100, 0x0200, 0x0400, 0x0800, 0x0002, 0x0008, 0x0020, 0x0080),
      Places(y, 0x0100, 0x0200, 0x0400, 0x0800, 0x0002, 0x0008, 0x0020, 0x0080);
    var x12, y12 := Places(x, 0x1000, 0x2000, 0x4000, 0x8000, 0x0200, 0x0800, 0x2000, 0x8000),
      Places(y, 0x1000, 0x2000, 0x4000, 0x8000, 0x0200, 0x0800, 0x2000, 0x8000);
    Regrouped(x0, y0, x4, y4);
    Regrouped(x8, y8, x12, y12);
    Regrouped(Sum(x0, x4), Sum(y0, y4), Sum(x8, x12), Sum(y8, y12));
  }

  /** Squaring turns a step into two. */
  predicate SquareSteps(a: bv16) {
    Spread(StepWord(a)) == StepWord(StepWord(Spread(a)))
  }

  lemma SquareStepsSum(x: bv16, y: bv16)
    requires SquareSteps(x) && SquareSteps(y)
    ensures SquareSteps(Sum(x, y))
  {
    hide Sum, Spread, StepWord;
    SpreadLinear(x, y);
    SpreadLinear(StepWord(x), StepWord(y));
    StepWordLinear(x, y);
    StepWordLinear(Spread(x), Spread(y));
    StepWordLinear(StepWord(Spread(x)), StepWord(Spread(y)));
  }

  lemma SquareStepsPlaces0()
    ensures SquareSteps(0x0001) && SquareSteps(0x0002) && SquareSteps(0x0004) && SquareSteps(0x0008)
  {}

  lemma SquareStepsPlaces4()
    ensures SquareSteps(0x0010) && SquareSteps(0x0020) && SquareSteps(0x0040) && SquareSteps(0x0080)
  {}

  lemma SquareStepsPlaces8()
    ensures SquareSteps(0x0100) && SquareSteps(0x0200) && SquareSteps(0x0400) && SquareSteps(0x0800)
  {}

  lemma SquareStepsPlaces12()
    ensures SquareSteps(0x1000) && SquareSteps(0x2000) && SquareSteps(0x4000) && SquareSteps(0x8000)
  {}

  lemma SquareStepsPlace(i: nat)
    requires i < 16
    ensures SquareSteps(Mask(i))
  {
    hide SquareSteps;
    SquareStepsPlaces0();
    SquareStepsPlaces4();
    SquareStepsPlaces8();
    SquareStepsPlaces12();
  }

  lemma SquareStepsZero()
    ensures SquareSteps(0)
  {}

  lemma {:induction false} SquareStepsLowest(a: bv16, k: nat)
    requires k <= 16
    ensures SquareSteps(Lowest(a, k))
    decreases k
  {
    hide SquareSteps, Sum, Mask, BitAt;
    if k == 0 {
      SquareStepsZero();
    } else {
      SquareStepsLowest(a, k - 1);
      SquareStepsPlace(k - 1);
      SquareStepsSum(Lowest(a, k - 1), Mask(k - 1));
    }
  }

  lemma {:induction false} AdvanceWordAdd(c: bv16, m: nat, n: nat)
    ensures AdvanceWord(AdvanceWord(c, m), n) == AdvanceWord(c, m + n)
    decreases m
  {
    hide StepWord;
    if m > 0 {
      AdvanceWordAdd(StepWord(c), m - 1, n);
    }
  }

  lemma PowerNext(n: nat, w: bv16)
    requires Power(n, w)
    ensures Power(n + 1, StepWord(w))
  {
    hide StepWord;
    AdvanceWordAdd(0x8000, n, 1);
    OneStep(w);
  }

  lemma OneStep(w: bv16)
    ensures AdvanceWord(w, 1) == StepWord(w)
  {
    hide StepWord;
  }

  lemma PowerZero()
    ensures Power(0, 0x8000) && Spread(0x8000) == 0x8000
  {}

  /** The square of x to the n is x to the 2 n. */
  lemma {:induction false} Squared(n: nat, w: bv16)
    requires w == AdvanceWord(0x8000, n)
    ensures Power(2 * n, Spread(w))
    decreases n
  {
    hide Power, Spread, StepWord;
    PowerZero();
    if n > 0 {
      var v := AdvanceWord(0x8000, n - 1);
      Squared(n - 1, v);
      AdvanceWordAdd(0x8000, n - 1, 1);
      OneStep(v);
      StepTwice(n, v);
    }
  }

  lemma StepTwice(n: nat, v: bv16)
    requires n > 0 && Power(2 * n - 2, Spread(v))
    ensures Power(2 * n, Spread(StepWord(v)))
  {
    hide Power, Spread, StepWord, Lowest;
    LowestAll(v);
    SquareStepsLowest(v, 16);
    PowerNext(2 * n - 2, Spread(v));
    PowerNext(2 * n - 1, StepWord(Spread(v)));
  }

  /** From x to the n by a square, and a step if m is odd, to x to the m. */
  lemma Square(n: nat, w: bv16, s: bv16, m: nat, v: bv16)
    requires Power(n, w) && s == Spread(w)
    requires (m == 2 * n && v == s) || (m == 2 * n + 1 && v == StepWord(s))
    ensures Power(m, v)
  {
    hide Spread, StepWord;
    Squared(n, w);
    PowerNext(2 * n, s);
  }

  lemma Power217()
    ensures Power(217, 0xC712)
  {
    hide Power;
    PowerZero();
    Square(0, 0x8000, 0x8000, 1, 0x4000);
    Square(1, 0x4000, 0x2000, 3, 0x1000);
    Square(3, 0x1000, 0x0200, 6, 0x0200);
    Square(6, 0x0200, 0x0008, 13, 0x0004);
    Square(13, 0x0004, 0x2333, 27, 0x9591);
    Square(27, 0x9591, 0x1688, 54, 0x1688);
    Square(54, 0x1688, 0x0AEC, 108, 0x0AEC);
    Square(108, 0x0AEC, 0x8635, 217, 0xC712);
  }

  lemma Power1057()
    ensures Power(1057, 0xF54F)
  {
    hide Power;
    PowerZero();
    Square(0, 0x8000, 0x8000, 1, 0x4000);
    Square(1, 0x4000, 0x2000, 2, 0x2000);
    Square(2, 0x2000, 0x0800, 4, 0x0800);
    Square(4, 0x0800, 0x0080, 8, 0x0080);
    Square(8, 0x0080, 0x8408, 16, 0x8408);
    Square(16, 0x8408, 0x0CEC, 33, 0x0676);
    Square(33, 0x0676, 0x6383, 66, 0x6383);
    Square(66, 0x6383, 0x5172, 132, 0x5172);
    Square(132, 0x5172, 0x629A, 264, 0x629A);
    Square(264, 0x629A, 0xCD1E, 528, 0xCD1E);
    Square(528, 0xCD1E, 0xE28F, 1057, 0xF54F);
  }

  lemma Power73()
    ensures Power(73, 0x65F1)
  {
    hide Power;
    PowerZero();
    Square(0, 0x8000, 0x8000, 1, 0x4000);
    Square(1, 0x4000, 0x2000, 2, 0x2000);
    Square(2, 0x2000, 0x0800, 4, 0x0800);
    Square(4, 0x0800, 0x0080, 9, 0x0040);
    Square(9, 0x0040, 0x2102, 18, 0x2102);
    Square(18, 0x2102, 0xC6C2, 36, 0xC6C2);
    Square(36, 0xC6C2, 0xCBE2, 73, 0x65F1);
  }

  lemma Power4681()
    ensures Power(4681, 0x4234)
  {
    hide Power;
    Power73();
    Square(73, 0x65F1, 0x11C2, 146, 0x11C2);
    Square(146, 0x11C2, 0x69C8, 292, 0x69C8);
    Square(292, 0x69C8, 0x0144, 585, 0x00A2);
    Square(585, 0x00A2, 0xC680, 1170, 0xC680);
    Square(1170, 0xC680, 0x2420, 2340, 0x2420);
    Square(2340, 0x2420, 0x8468, 4681, 0x4234);
  }

  lemma Power128()
    ensures Power(128, 0x3F75)
  {
    hide Power;
    PowerZero();
    Square(0, 0x8000, 0x8000, 1, 0x4000);
    Square(1, 0x4000, 0x2000, 2, 0x2000);
    Square(2, 0x2000, 0x0800, 4, 0x0800);
    Square(4, 0x0800, 0x0080, 8, 0x0080);
    Square(8, 0x0080, 0x8408, 16, 0x8408);
    Square(16, 0x8408, 0x0CEC, 32, 0x0CEC);
    Square(32, 0x0CEC, 0x861D, 64, 0x861D);
    Square(64, 0x861D, 0x3F75, 128, 0x3F75);
  }

  lemma Power32768()
    ensures Power(32768, 0x4000)
  {
    hide Power;
    Power128();
    Square(128, 0x3F75, 0x9471, 256, 0x9471);
    Square(256, 0x9471, 0x3FC8, 512, 0x3FC8);
    Square(512, 0x3FC8, 0x236C, 1024, 0x236C);
    Square(1024, 0x236C, 0x0ABF, 2048, 0x0ABF);
    Square(2048, 0x0ABF, 0x7955, 4096, 0x7955);
    Square(4096, 0x7955, 0x3811, 8192, 0x3811);
    Square(8192, 0x3811, 0x1A22, 16384, 0x1A22);
    Square(16384, 0x1A22, 0x4000, 32768, 0x4000);
  }

  // ---------- divisors ----------

  function Gcd(a: nat, b: nat): nat
    decreases a + b
  {
    if a == 0 then b else if b == 0 then a else if a >= b then Gcd(a - b, b) else Gcd(a, b - a)
  }

  lemma {:induction false} GcdDivides(a: nat, b: nat) returns (u: nat, v: nat)
    ensures a == u * Gcd(a, b) && b == v * Gcd(a, b)
    decreases a + b
  {
    if a == 0 {
      u, v := 0, 1;
    } else if b == 0 {
      u, v := 1, 0;
    } else if a >= b {
      u, v := GcdDivides(a - b, b);
      Distributes(u, v, Gcd(a, b));
      u := u + v;
    } else {
      u, v := GcdDivides(a, b - a);
      Distributes(u, v, Gcd(a, b));
      v := u + v;
    }
  }

  lemma Distributes(u: nat, v: nat, g: nat)
    ensures (u + v) * g == u * g + v * g
  {}

  /** Sets that hold the difference of any two of their numbers hold their common divisor. */
  ghost predicate Differences(s: iset<nat>) {
    forall a, b :: a in s && b in s && a >= b ==> a - b in s
  }

  lemma {:induction false} GcdIn(s: iset<nat>, a: nat, b: nat)
    requires Differences(s) && a in s && b in s
    ensures Gcd(a, b) in s
    decreases a + b
  {
    if a > 0 && b > 0 {
      if a >= b {
        GcdIn(s, a - b, b);
      } else {
        GcdIn(s, a, b - a);
      }
    }
  }

  /** The order of x, 32767, is the product of these. */
  predicate Prime(p: nat) {
    p == 7 || p == 31 || p == 151
  }

  lemma NoFactors(p: nat, a: nat, b: nat)
    requires Prime(p) && a * b == p
    ensures a == 1 || b == 1
  {
    if a <= b {
      SmallFactor(p, a, b);
    } else {
      SmallFactor(p, b, a);
    }
  }

  lemma SmallFactor(p: nat, a: nat, b: nat)
    requires Prime(p) && a * b == p && a <= b
    ensures a == 1
  {
    assert a <= 12 ==> (a <= 6 ==> a == 0 || a == 1 || a == 2 || a == 3 || a == 4 || a == 5 || a == 6)
                       && (a > 6 ==> a == 7 || a == 8 || a == 9 || a == 10 || a == 11 || a == 12);
    if a >= 13 {
      AtLeast(a, b);
    }
  }

  lemma AtLeast(a: nat, b: nat)
    requires 13 <= a <= b
    ensures a * b >= 169
  {
    assert a * b >= 13 * b;
  }

  lemma RemainderZero(x: int, k: int, p: nat)
    requires p > 0
    ensures x == k * p ==> x % p == 0
    ensures x % p == 0 ==> x == x / p * p
  {
    NoRest(p, k - x / p, x % p, x == k * p);
  }

  lemma NoRest(p: int, t: int, r: int, multiple: bool)
    requires 0 <= r < p && (multiple ==> p * t == r)
    ensures multiple ==> r == 0
  {
    AtLeastOne(p, t);
  }

  lemma AtLeastOne(p: int, t: int)
    requires p > 0
    ensures (t > 0 ==> p * t >= p) && (t < 0 ==> p * t <= -p)
  {}

  lemma DifferenceMultiple(a: nat, b: nat, g: nat, p: nat)
    requires p > 0 && a >= b && a * g % p == 0 && b * g % p == 0
    ensures (a - b) * g % p == 0
  {
    Distributes(a - b, b, g);
    RemainderZero(a * g, 0, p);
    RemainderZero(b * g, 0, p);
    var i, j := a * g / p, b * g / p;
    assert (i - j) * p == i * p - j * p;
    RemainderZero((a - b) * g, i - j, p);
  }

  /** A prime that divides a product divides a factor of it. */
  lemma OneFactor(p: nat, v: nat, g: nat)
    requires Prime(p) && v * g % p == 0
    ensures v % p == 0 || g % p == 0
  {
    var s := iset n: nat | n * g % p == 0;
    forall a, b | a in s && b in s && a >= b
      ensures a - b in s
    {
      DifferenceMultiple(a, b, g, p);
    }
    RemainderZero(p * g, g, p);
    GcdIn(s, p, v);
    var c := Gcd(p, v);
    var x, y := GcdDivides(p, v);
    NoFactors(p, x, c);
    if x == 1 {
      RemainderZero(v, y, p);
    } else {
      assert 1 * g == g;
    }
  }

  // ---------- the order of x ----------

  predicate Returns(n: nat) {
    AdvanceWord(0x8000, n) == 0x8000
  }

  lemma ReturnsSum(m: nat, n: nat)
    requires Returns(m)
    ensures Returns(m + n) <==> Returns(n)
  {
    AdvanceWordAdd(0x8000, m, n);
  }

  lemma {:induction false} ReturnsMultiple(k: nat, n: nat)
    requires Returns(n)
    ensures Returns(k * n)
    decreases k
  {
    hide Returns;
    if k == 0 {
      ReturnsNone();
    } else {
      ReturnsMultiple(k - 1, n);
      ReturnsSum(n, (k - 1) * n);
      assert k * n == n + (k - 1) * n;
    }
  }

  lemma ReturnsNone()
    ensures Returns(0)
  {}

  lemma StepWordInjective(x: bv16, y: bv16)
    requires StepWord(x) == StepWord(y)
    ensures x == y
  {}

  lemma ReturnsIf(n: nat, w: bv16)
    requires Power(n, w)
    ensures Returns(n) <==> w == 0x8000
  {}

  lemma OrderReturns()
    ensures Returns(32767)
  {
    hide Power, Returns;
    Power32768();
    BackOne(32767);
  }

  lemma BackOne(n: nat)
    requires Power(n + 1, 0x4000)
    ensures Returns(n)
  {
    AdvanceWordAdd(0x8000, n, 1);
    var w := AdvanceWord(0x8000, n);
    OneStep(w);
    assert StepWord(0x8000) == 0x4000;
    StepWordInjective(w, 0x8000);
  }

  lemma TooShort()
    ensures !Returns(217) && !Returns(1057) && !Returns(4681)
  {
    hide Power, Returns;
    Power217();
    Power1057();
    Power4681();
    ReturnsIf(217, 0xC712);
    ReturnsIf(1057, 0xF54F);
    ReturnsIf(4681, 0x4234);
  }

  /** If a number is no multiple of the order, it shares with it at most the order less one
      prime factor. */
  lemma ShorterBy(p: nat, v: nat, g: nat)
    requires Prime(p) && v * g == 32767 && v % p == 0 && Returns(g)
    ensures Returns(32767 / p)
  {
    hide Returns;
    var k := v / p;
    RemainderZero(v, 0, p);
    assert v == k * p;
    Reordered(k, p, g);
    assert k * g * p == 32767;
    assert k * g == 32767 / p;
    ReturnsMultiple(k, g);
  }

  lemma Reordered(k: nat, p: nat, g: nat)
    ensures k * p * g == k * g * p
  {}

  lemma AllThree(g: nat)
    requires g % 7 == 0 && g % 31 == 0 && g % 151 == 0
    ensures g % 32767 == 0
  {
    RemainderZero(g, 23 * (9 * (g / 31) - 2 * (g / 7)) - 16 * (g / 151), 32767);
    ThreeQuotients(g, g / 7, g / 31, g / 151);
  }

  lemma ThreeQuotients(g: int, a: int, k: int, l: int)
    requires g == 7 * a && g == 31 * k && g == 151 * l
    ensures g == (23 * (9 * k - 2 * a) - 16 * l) * 32767
  {}

  lemma WholeOrder(v: nat, g: nat)
    requires v * g == 32767 && Returns(g)
    ensures g == 32767
  {
    hide Returns;
    TooShort();
    if v % 7 == 0 {
      ShorterBy(7, v, g);
    } else if v % 31 == 0 {
      ShorterBy(31, v, g);
    } else if v % 151 == 0 {
      ShorterBy(151, v, g);
    } else {
      OneFactor(7, v, g);
      OneFactor(31, v, g);
      OneFactor(151, v, g);
      AllThree(g);
      AtMost(v, g);
    }
  }

  lemma AtMost(v: nat, g: nat)
    requires v * g == 32767
    ensures 0 < g <= 32767
  {
    if v >= 1 {
      assert (v - 1) * g >= 0;
    }
  }

  /** x to the n is 1 exactly when 32767 divides n. */
  lemma OrderOfX(n: nat)
    ensures Returns(n) <==> n % 32767 == 0
  {
    hide Returns;
    OrderReturns();
    if Returns(n) {
      var s := iset k: nat | Returns(k);
      forall a, b | a in s && b in s && a >= b
        ensures a - b in s
      {
        ReturnsSum(b, a - b);
      }
      GcdIn(s, n, 32767);
      var u, v := GcdDivides(n, 32767);
      WholeOrder(v, Gcd(n, 32767));
      RemainderZero(n, u, 32767);
    }
    if n % 32767 == 0 {
      RemainderZero(n, 0, 32767);
      ReturnsMultiple(n / 32767, 32767);
    }
  }

  // ---------- two bits ----------

  lemma UnitAdvances(d: nat)
    ensures Advance(ONE, d) == ONE <==> Returns(d)
  {
    hide Bits;
    var u := Bits(0x8000);
    BitsMask(15);
    BitsAdvance(0x8000, d);
    assert u == Falses(16)[15 := true];
    AdvanceClear(u, 15);
    assert u[15..] + Falses(15) == ONE;
    AdvanceAdd(u, 15, d);
    AdvanceAdd(u, d, 15);
    if Advance(ONE, d) == ONE {
      AdvanceInjective(Advance(u, d), u, 15);
      BitsInjective(AdvanceWord(0x8000, d), 0x8000);
    }
  }

  lemma OneBitOff(r: Register)
    ensures CrcBits([true], r) == ZERO <==> r == ONE
  {
    var fed := r[0 := !r[0]];
    assert [true][1..] == [];
    StepKeepsNonzero(fed);
    if fed == ZERO {
      assert r == fed[0 := !fed[0]];
    }
  }

  lemma TwoBitWindow(win: seq<bool>)
    requires |win| >= 2 && forall i :: 0 <= i < |win| ==> win[i] == (i == 0 || i == |win| - 1)
    ensures CrcBits(win, ZERO) == ZERO <==> (|win| - 1) % 32767 == 0
  {
    hide CrcBits, Step, Advance;
    var d := |win| - 1;
    var zeros := Falses(d - 1);
    assert win == [true] + (zeros + [true]);
    CrcBitsAppend([true], zeros + [true], ZERO);
    CrcBitsAppend(zeros, [true], Step(ONE));
    FirstBit();
    ZerosAdvance(zeros, Step(ONE));
    AdvanceAdd(ONE, 1, d - 1);
    AdvanceOne(ONE);
    OneBitOff(Advance(ONE, d));
    UnitAdvances(d);
    OrderOfX(d);
  }

  lemma FirstBit()
    ensures CrcBits([true], ZERO) == Step(ONE)
  {
    assert ZERO[0 := true] == ONE && [true][1..] == [];
  }

  lemma AdvanceOne(r: Register)
    ensures Advance(r, 1) == Step(r)
  {
    hide Step;
  }

  /** An error in two bits is missed exactly if they are a multiple of 32767 bits apart. */
  lemma TwoBitsMissedIff(m: seq<bv8>, n: seq<bv8>, r: Register, p: nat, q: nat)
    requires |m| == |n| && p < q < |Errors(m, n)|
    requires forall i :: 0 <= i < |Errors(m, n)| ==> Errors(m, n)[i] == (i == p || i == q)
    ensures Checksum(m, r) == Checksum(n, r) <==> (q - p) % 32767 == 0
  {
    hide Errors, Checksum, CrcBits;
    UndetectedIff(m, n, r);
    TwoBits(Errors(m, n), p, q);
  }

  lemma TwoBits(e: seq<bool>, p: nat, q: nat)
    requires p < q < |e| && forall i :: 0 <= i < |e| ==> e[i] == (i == p || i == q)
    ensures CrcBits(e, ZERO) == ZERO <==> (q - p) % 32767 == 0
  {
    hide CrcBits;
    WindowDecides(e, p, q + 1);
    TwoBitWindow(e[p..q + 1]);
  }

  // ---------- the distance of the code ----------

  function Weight(e: seq<bool>): nat {
    if e == [] then 0 else (if e[0] then 1 else 0) + Weight(e[1..])
  }

  lemma {:induction false} WeightOdd(e: seq<bool>)
    ensures Odd(e) <==> Weight(e) % 2 == 1
    decreases |e|
  {
    if e != [] {
      WeightOdd(e[1..]);
    }
  }

  lemma {:induction false} WeightZero(e: seq<bool>)
    ensures Weight(e) == 0 <==> true !in e
    decreases |e|
  {
    if e != [] {
      WeightZero(e[1..]);
      assert e == [e[0]] + e[1..];
    }
  }

  lemma {:induction false} OnePlace(e: seq<bool>) returns (p: nat)
    requires Weight(e) == 1
    ensures p < |e| && forall i :: 0 <= i < |e| ==> e[i] == (i == p)
    decreases |e|
  {
    if e[0] {
      p := 0;
      WeightZero(e[1..]);
      forall i | 0 < i < |e|
        ensures !e[i]
      {
        assert e[i] == e[1..][i - 1];
      }
    } else {
      var k := OnePlace(e[1..]);
      p := k + 1;
      forall i | 0 < i < |e|
        ensures e[i] == (i == p)
      {
        assert e[i] == e[1..][i - 1];
      }
    }
  }

  lemma {:induction false} TwoPlaces(e: seq<bool>) returns (p: nat, q: nat)
    requires Weight(e) == 2
    ensures p < q < |e| && forall i :: 0 <= i < |e| ==> e[i] == (i == p || i == q)
    decreases |e|
  {
    if e[0] {
      var k := OnePlace(e[1..]);
      p, q := 0, k + 1;
    } else {
      var j, k := TwoPlaces(e[1..]);
      p, q := j + 1, k + 1;
    }
    forall i | 0 < i < |e|
      ensures e[i] == (i == p || i == q)
    {
      assert e[i] == e[1..][i - 1];
    }
  }

  /** Two different messages of one length up to 4095 bytes with the same checksum differ in
      four bits at least. */
  lemma DistanceFour(m: seq<bv8>, n: seq<bv8>, r: Register)
    requires |m| == |n| <= 4095 && m != n && Checksum(m, r) == Checksum(n, r)
    ensures Weight(Errors(m, n)) >= 4
  {
    hide Errors, Checksum, Odd, Weight;
    var e := Errors(m, n);
    var i := DifferSomewhere(m, n);
    assert e[i] in e;
    WeightZero(e);
    WeightOdd(e);
    if Odd(e) {
      OddErrorDetected(m, n, r);
    } else if Weight(e) == 2 {
      var p, q := TwoPlaces(e);
      TwoBitsMissedIff(m, n, r, p, q);
    }
  }
}
