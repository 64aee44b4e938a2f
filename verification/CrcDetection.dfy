/**
 What the CRC-16 of hfdl_crc.c detects, for messages of every length: linearity,
 bursts, odd errors, and the residue of a message that carries its checksum.
 */
module CrcDetection {
  import opened Crc

  /** Where two messages of one length differ, bit by bit in transmission order. */
  function Errors(m: seq<bv8>, n: seq<bv8>): (e: seq<bool>)
    requires |m| == |n|
    ensures |e| == 8 * |m|
  {
    Xor(MessageBits(m), MessageBits(n))
  }

  lemma {:induction false} CrcBitsLinear(a: seq<bool>, b: seq<bool>, c: Register, d: Register)
    requires |a| == |b|
    ensures CrcBits(Xor(a, b), Xor(c, d)) == Xor(CrcBits(a, c), CrcBits(b, d))
    decreases |a|
  {
    if a != [] {
      var x, y := c[0 := c[0] != a[0]], d[0 := d[0] != b[0]];
      var cd := Xor(c, d);
      assert Xor(a, b)[1..] == Xor(a[1..], b[1..]);
      assert cd[0 := cd[0] != Xor(a, b)[0]] == Xor(x, y);
      StepLinear(x, y);
      CrcBitsLinear(a[1..], b[1..], Step(x), Step(y));
    }
  }

  /** The checksum misses an error exactly when the error alone divides out. */
  lemma UndetectedIff(m: seq<bv8>, n: seq<bv8>, r: Register)
    requires |m| == |n|
    ensures Checksum(m, r) == Checksum(n, r) <==> CrcBits(Errors(m, n), ZERO) == ZERO
  {
    CrcBitsLinear(MessageBits(m), MessageBits(n), r, r);
    XorZero(r, r);
    XorZero(Checksum(m, r), Checksum(n, r));
  }

  // ---------- windows ----------

  lemma {:induction false} ZerosAdvance(bits: seq<bool>, r: Register)
    requires true !in bits
    ensures CrcBits(bits, r) == Advance(r, |bits|)
    decreases |bits|
  {
    if bits != [] {
      assert bits[0] in bits;
      assert r[0 := r[0] != bits[0]] == r;
      ZerosAdvance(bits[1..], Step(r));
    }
  }

  /** Only what lies between the outer zeros decides. */
  lemma WindowDecides(e: seq<bool>, p: nat, q: nat)
    requires p <= q <= |e|
    requires forall i :: 0 <= i < |e| && e[i] ==> p <= i < q
    ensures CrcBits(e, ZERO) == ZERO <==> CrcBits(e[p..q], ZERO) == ZERO
  {
    hide CrcBits, Advance;
    var pre, win, post := e[..p], e[p..q], e[q..];
    assert e == pre + (win + post);
    CrcBitsAppend(pre, win + post, ZERO);
    ZerosAdvance(pre, ZERO);
    AdvanceKeepsNonzero(ZERO, p);
    CrcBitsAppend(win, post, ZERO);
    ZerosAdvance(post, CrcBits(win, ZERO));
    AdvanceKeepsNonzero(CrcBits(win, ZERO), |post|);
  }

  /** An error confined to 16 consecutive bits is missed only if there is none. */
  lemma ShortWindow(win: seq<bool>)
    requires |win| <= 16
    ensures CrcBits(win, ZERO) == ZERO <==> true !in win
  {
    CrcBitsAsAdvance(win, ZERO);
    XorFromZero(Pad(win));
    AdvanceKeepsNonzero(Pad(win), |win|);
    PadZero(win);
  }

  lemma XorFromZero(r: Register)
    ensures Xor(ZERO, r) == r
  {}

  lemma PadZero(win: seq<bool>)
    requires |win| <= 16
    ensures Pad(win) == ZERO <==> true !in win
  {
    if true in win {
      var i :| 0 <= i < |win| && win[i];
      assert Pad(win)[i] && !ZERO[i];
    } else {
      forall i | 0 <= i < 16
        ensures !Pad(win)[i]
      {
        assert i < |win| ==> win[i] in win;
      }
    }
  }

  /** The bits of the generator itself, highest power first. */
  const GENERATOR: seq<bool> := [true] + POLY

  const ONE: Register := [true] + Falses(15)

  /** A 17-bit error that fills its window is missed only if it is the generator. */
  lemma LongWindow(win: seq<bool>)
    requires |win| == 17 && win[0] && win[16]
    ensures CrcBits(win, ZERO) == ZERO <==> win == GENERATOR
  {
    var head := win[1..];
    assert win == [true] + head;
    CrcBitsAppend([true], head, ZERO);
    assert ZERO[0 := true] == ONE && [true][1..] == [];
    assert Step(ONE) == POLY;
    CrcBitsAsAdvance(head, POLY);
    assert Pad(head) == head;
    AdvanceKeepsNonzero(Xor(POLY, head), 16);
    XorZero(POLY, head);
  }

  // ---------- bursts ----------

  lemma ByteBitsInjective(a: bv8, b: bv8)
    requires ByteBits(a) == ByteBits(b)
    ensures a == b
  {
    var x, y := a as bv16, b as bv16;
    BitsLow(x);
    BitsLow(y);
    WideByte(a);
    WideByte(b);
    BitsInjective(x, y);
    NarrowByte(a, b);
  }

  lemma WideByte(a: bv8)
    ensures (a as bv16) & 0xFF == a as bv16
  {}

  lemma NarrowByte(a: bv8, b: bv8)
    requires a as bv16 == b as bv16
    ensures a == b
  {}

  lemma {:induction false} MessageBitsInjective(m: seq<bv8>, n: seq<bv8>)
    requires |m| == |n| && MessageBits(m) == MessageBits(n)
    ensures m == n
    decreases |m|
  {
    if m != [] {
      var x, y := MessageBits(m), MessageBits(n);
      assert x[..8] == ByteBits(m[0]) && y[..8] == ByteBits(n[0]);
      ByteBitsInjective(m[0], n[0]);
      assert x[8..] == MessageBits(m[1..]) && y[8..] == MessageBits(n[1..]);
      MessageBitsInjective(m[1..], n[1..]);
      assert m == [m[0]] + m[1..] && n == [n[0]] + n[1..];
    }
  }

  lemma DifferSomewhere(m: seq<bv8>, n: seq<bv8>) returns (i: nat)
    requires |m| == |n| && m != n
    ensures i < |Errors(m, n)| && Errors(m, n)[i]
  {
    var x, y := MessageBits(m), MessageBits(n);
    if x == y {
      MessageBitsInjective(m, n);
    }
    i :| 0 <= i < |x| && x[i] != y[i];
  }

  /** Any nonzero error within 16 consecutive bits changes the checksum,
      whatever the length of the message and wherever the burst falls. */
  lemma BurstDetected(m: seq<bv8>, n: seq<bv8>, r: Register, p: nat)
    requires |m| == |n| && m != n
    requires forall i :: 0 <= i < |Errors(m, n)| && Errors(m, n)[i] ==> p <= i < p + 16
    ensures Checksum(m, r) != Checksum(n, r)
  {
    var e := Errors(m, n);
    var i := DifferSomewhere(m, n);
    var q := if p + 16 <= |e| then p + 16 else |e|;
    UndetectedIff(m, n, r);
    WindowDecides(e, p, q);
    ShortWindow(e[p..q]);
    assert e[p..q][i - p];
  }

  /** The bound is sharp: of the bursts that fill 17 bits, the generator's own
      pattern is missed, and it is the only one. */
  lemma Burst17MissedIff(m: seq<bv8>, n: seq<bv8>, r: Register, p: nat)
    requires |m| == |n| && p + 17 <= |Errors(m, n)|
    requires Errors(m, n)[p] && Errors(m, n)[p + 16]
    requires forall i :: 0 <= i < |Errors(m, n)| && Errors(m, n)[i] ==> p <= i < p + 17
    ensures Checksum(m, r) == Checksum(n, r) <==> Errors(m, n)[p..p + 17] == GENERATOR
  {
    UndetectedIff(m, n, r);
    WindowDecides(Errors(m, n), p, p + 17);
    LongWindow(Errors(m, n)[p..p + 17]);
  }

  // ---------- conserved parity ----------

  function Odd(bits: seq<bool>): bool {
    if bits == [] then false else bits[0] != Odd(bits[1..])
  }

  lemma {:induction false} OddXor(a: seq<bool>, b: seq<bool>)
    requires |a| == |b|
    ensures Odd(Xor(a, b)) == (Odd(a) != Odd(b))
    decreases |a|
  {
    if a != [] {
      assert Xor(a, b)[1..] == Xor(a[1..], b[1..]);
      OddXor(a[1..], b[1..]);
    }
  }

  lemma {:induction false} OddSnocFalse(a: seq<bool>)
    ensures Odd(a + [false]) == Odd(a)
    decreases |a|
  {
    if a != [] {
      assert (a + [false])[1..] == a[1..] + [false];
      OddSnocFalse(a[1..]);
    }
  }

  lemma {:induction false} OddFlip(bits: seq<bool>, i: nat)
    requires i < |bits|
    ensures Odd(bits[i := !bits[i]]) == !Odd(bits)
    decreases i
  {
    var flipped := bits[i := !bits[i]];
    if i == 0 {
      assert flipped[1..] == bits[1..];
    } else {
      OddFlip(bits[1..], i - 1);
      assert flipped[1..] == bits[1..][i - 1 := !bits[1..][i - 1]];
    }
  }

  /** A step keeps the parity of the register: what leaves as one bit returns as three. */
  lemma StepParity(r: Register)
    ensures Odd(Step(r)) == Odd(r)
  {
    var moved := r[1..] + [false];
    OddSnocFalse(r[1..]);
    if r[0] {
      var one := moved[3 := !moved[3]];
      var two := one[10 := !one[10]];
      OddFlip(moved, 3);
      OddFlip(one, 10);
      OddFlip(two, 15);
      assert POLY == Falses(16)[3 := true][10 := true][15 := true];
      assert Step(r) == two[15 := !two[15]];
    }
  }

  lemma {:induction false} ParityConserved(bits: seq<bool>, r: Register)
    ensures Odd(CrcBits(bits, r)) == (Odd(r) != Odd(bits))
    decreases |bits|
  {
    if bits != [] {
      var fed := r[0 := r[0] != bits[0]];
      assert fed[1..] == r[1..];
      StepParity(fed);
      ParityConserved(bits[1..], Step(fed));
    }
  }

  /** Any error in an odd number of bits changes the checksum. */
  lemma OddErrorDetected(m: seq<bv8>, n: seq<bv8>, r: Register)
    requires |m| == |n| && Odd(Errors(m, n))
    ensures Checksum(m, r) != Checksum(n, r)
  {
    UndetectedIff(m, n, r);
    ParityConserved(Errors(m, n), ZERO);
    OddXor(ZERO, ZERO);
    XorZero(ZERO, ZERO);
  }

  // ---------- the appended checksum ----------

  function LowByteFirst(w: bv16): seq<bv8> {
    [(w & 0xFF) as bv8, (w >> 8) as bv8]
  }

  lemma LowByteFirstBits(w: bv16)
    ensures MessageBits(LowByteFirst(w)) == Bits(w)
  {
    var lo, hi := (w & 0xFF) as bv8, (w >> 8) as bv8;
    assert LowByteFirst(w)[1..] == [hi] && [hi][1..] == [];
    BytesOfWord(w);
    BitsLow(w);
    BitsShiftEight(w);
    assert Bits(w) == Bits(w)[..8] + Bits(w)[8..];
  }

  lemma BytesOfWord(w: bv16)
    ensures (w & 0xFF) as bv8 as bv16 == w & 0xFF
    ensures (w >> 8) as bv8 as bv16 == w >> 8
  {}

  lemma TrailerAdvances(w: bv16, r: Register)
    ensures Checksum(LowByteFirst(w), r) == Advance(Xor(r, Bits(w)), 16)
  {
    LowByteFirstBits(w);
    CrcBitsAsAdvance(Bits(w), r);
    assert Pad(Bits(w)) == Bits(w);
  }

  const ONES: Register := seq(16, _ => true)

  /** The residue RFC 1662 calls the good final FCS. */
  const GOOD_FCS: bv16 := 0xF0B8

  lemma FourSteps(c: bv16, d: bv16)
    requires d == AdvanceWord(c, 4)
    ensures Bits(d) == Advance(Bits(c), 4)
  {
    BitsAdvance(c, 4);
  }

  lemma GoodFcs()
    ensures Bits(GOOD_FCS) == Advance(ONES, 16)
  {
    hide Bits, Advance;
    FirstEight();
    LastEight();
    AdvanceAdd(ONES, 8, 8);
  }

  lemma FirstEight()
    ensures Bits(0x0F87) == Advance(ONES, 8)
  {
    FourSteps(0xFFFF, 0xF870);
    FourSteps(0xF870, 0x0F87);
    AdvanceAdd(ONES, 4, 4);
    assert Bits(0xFFFF) == ONES;
  }

  lemma LastEight()
    ensures Bits(GOOD_FCS) == Advance(Bits(0x0F87), 8)
  {
    FourSteps(0x0F87, 0x737F);
    FourSteps(0x737F, 0xF0B8);
    AdvanceAdd(Bits(0x0F87), 4, 4);
  }

  /** A received frame leaves zero exactly when its trailer is its checksum, low
      byte first; with the complement sent, it leaves 0xF0B8 exactly then. */
  lemma Residue(m: seq<bv8>, trailer: bv16, r: Register)
    ensures Checksum(m + LowByteFirst(trailer), r) == ZERO <==> Bits(trailer) == Checksum(m, r)
    ensures Checksum(m + LowByteFirst(trailer), r) == Bits(GOOD_FCS) <==> Bits(trailer) == Xor(Checksum(m, r), ONES)
  {
    var crc, t := Checksum(m, r), Bits(trailer);
    CrcSplits(m, LowByteFirst(trailer), r);
    TrailerAdvances(trailer, crc);
    AdvanceKeepsNonzero(Xor(crc, t), 16);
    XorZero(crc, t);
    GoodFcs();
    if Advance(Xor(crc, t), 16) == Bits(GOOD_FCS) {
      AdvanceInjective(Xor(crc, t), ONES, 16);
      assert t == Xor(crc, ONES);
    }
    if t == Xor(crc, ONES) {
      assert Xor(crc, t) == ONES;
    }
  }
}
