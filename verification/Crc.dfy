/**
 CRC-16-CCITT as hfdl_crc.c computes it: a 256-entry table driven byte loop over
 a 16-bit word. The reference it is proved against is the bit-serial division of
 RFC 1662, Appendix C.2: a 16-stage register, fed one bit at a time, least
 significant bit first.
 */
module Crc {
  const POLY_WORD: bv16 := 0x8408

  /** crctable, laid out in the 32 rows of 8 in which the source writes it. */
  const CRC_TABLE: seq<seq<bv16>> := [
    [0x0000, 0x1189, 0x2312, 0x329B, 0x4624, 0x57AD, 0x6536, 0x74BF],
    [0x8C48, 0x9DC1, 0xAF5A, 0xBED3, 0xCA6C, 0xDBE5, 0xE97E, 0xF8F7],
    [0x1081, 0x0108, 0x3393, 0x221A, 0x56A5, 0x472C, 0x75B7, 0x643E],
    [0x9CC9, 0x8D40, 0xBFDB, 0xAE52, 0xDAED, 0xCB64, 0xF9FF, 0xE876],
    [0x2102, 0x308B, 0x0210, 0x1399, 0x6726, 0x76AF, 0x4434, 0x55BD],
    [0xAD4A, 0xBCC3, 0x8E58, 0x9FD1, 0xEB6E, 0xFAE7, 0xC87C, 0xD9F5],
    [0x3183, 0x200A, 0x1291, 0x0318, 0x77A7, 0x662E, 0x54B5, 0x453C],
    [0xBDCB, 0xAC42, 0x9ED9, 0x8F50, 0xFBEF, 0xEA66, 0xD8FD, 0xC974],
    [0x4204, 0x538D, 0x6116, 0x709F, 0x0420, 0x15A9, 0x2732, 0x36BB],
    [0xCE4C, 0xDFC5, 0xED5E, 0xFCD7, 0x8868, 0x99E1, 0xAB7A, 0xBAF3],
    [0x5285, 0x430C, 0x7197, 0x601E, 0x14A1, 0x0528, 0x37B3, 0x263A],
    [0xDECD, 0xCF44, 0xFDDF, 0xEC56, 0x98E9, 0x8960, 0xBBFB, 0xAA72],
    [0x6306, 0x728F, 0x4014, 0x519D, 0x2522, 0x34AB, 0x0630, 0x17B9],
    [0xEF4E, 0xFEC7, 0xCC5C, 0xDDD5, 0xA96A, 0xB8E3, 0x8A78, 0x9BF1],
    [0x7387, 0x620E, 0x5095, 0x411C, 0x35A3, 0x242A, 0x16B1, 0x0738],
    [0xFFCF, 0xEE46, 0xDCDD, 0xCD54, 0xB9EB, 0xA862, 0x9AF9, 0x8B70],
    [0x8408, 0x9581, 0xA71A, 0xB693, 0xC22C, 0xD3A5, 0xE13E, 0xF0B7],
    [0x0840, 0x19C9, 0x2B52, 0x3ADB, 0x4E64, 0x5FED, 0x6D76, 0x7CFF],
    [0x9489, 0x8500, 0xB79B, 0xA612, 0xD2AD, 0xC324, 0xF1BF, 0xE036],
    [0x18C1, 0x0948, 0x3BD3, 0x2A5A, 0x5EE5, 0x4F6C, 0x7DF7, 0x6C7E],
    [0xA50A, 0xB483, 0x8618, 0x9791, 0xE32E, 0xF2A7, 0xC03C, 0xD1B5],
    [0x2942, 0x38CB, 0x0A50, 0x1BD9, 0x6F66, 0x7EEF, 0x4C74, 0x5DFD],
    [0xB58B, 0xA402, 0x9699, 0x8710, 0xF3AF, 0xE226, 0xD0BD, 0xC134],
    [0x39C3, 0x284A, 0x1AD1, 0x0B58, 0x7FE7, 0x6E6E, 0x5CF5, 0x4D7C],
    [0xC60C, 0xD785, 0xE51E, 0xF497, 0x8028, 0x91A1, 0xA33A, 0xB2B3],
    [0x4A44, 0x5BCD, 0x6956, 0x78DF, 0x0C60, 0x1DE9, 0x2F72, 0x3EFB],
    [0xD68D, 0xC704, 0xF59F, 0xE416, 0x90A9, 0x8120, 0xB3BB, 0xA232],
    [0x5AC5, 0x4B4C, 0x79D7, 0x685E, 0x1CE1, 0x0D68, 0x3FF3, 0x2E7A],
    [0xE70E, 0xF687, 0xC41C, 0xD595, 0xA12A, 0xB0A3, 0x8238, 0x93B1],
    [0x6B46, 0x7ACF, 0x4854, 0x59DD, 0x2D62, 0x3CEB, 0x0E70, 0x1FF9],
    [0xF78F, 0xE606, 0xD49D, 0xC514, 0xB1AB, 0xA022, 0x92B9, 0x8330],
    [0x7BC7, 0x6A4E, 0x58D5, 0x495C, 0x3DE3, 0x2C6A, 0x1EF1, 0x0F78]
  ]

  /** crctable[i] */
  function Table(i: nat): bv16
    requires i < 256
  {
    CRC_TABLE[i / 8][i % 8]
  }

  // ---------- the loop of the source ----------

  method Crc16Ccitt(data: array<bv8>, len: nat, crcInit: bv16) returns (crc: bv16)
    requires len <= data.Length
    ensures Bits(crc) == Checksum(data[..len], Bits(crcInit))
  {
    crc := crcInit;
    var i := 0;
    while i < len
      invariant 0 <= i <= len
      invariant Bits(crc) == Checksum(data[..i], Bits(crcInit))
    {
      CrcSnoc(data[..i], data[i], Bits(crcInit));
      assert data[..i + 1] == data[..i] + [data[i]];
      crc := Update(crc, data[i]);
      i := i + 1;
    }
  }

  /** The body of the loop. */
  method Update(crc: bv16, b: bv8) returns (next: bv16)
    ensures Bits(next) == CrcBits(ByteBits(b), Bits(crc))
  {
    var index := ((crc ^ b as bv16) & 0xFF) as bv8;
    TableStep(crc, b as bv16, index);
    next := (crc >> 8) ^ Table(index as nat);
  }

  // ---------- bit-serial reference ----------

  type Register = r: seq<bool> | |r| == 16 witness seq(16, _ => false)

  /** The generator x^16 + x^12 + x^5 + 1 without its top term, highest power first. */
  const POLY: Register := [false, false, false, true, false, false, false, false,
                           false, false, true, false, false, false, false, true]

  const ZERO: Register := Falses(16)

  function Xor(a: seq<bool>, b: seq<bool>): (r: seq<bool>)
    requires |a| == |b|
    ensures |r| == |a|
  {
    seq(|a|, i requires 0 <= i < |a| => a[i] != b[i])
  }

  function Falses(n: nat): (r: seq<bool>)
    ensures |r| == n
  {
    seq(n, _ => false)
  }

  /** The register moved on one place; the bit that leaves feeds back through POLY. */
  function Step(r: Register): Register {
    var moved := r[1..] + [false];
    if r[0] then Xor(moved, POLY) else moved
  }

  /** Division of a bit string, starting from register r. */
  function CrcBits(bits: seq<bool>, r: Register): Register {
    if bits == [] then r else CrcBits(bits[1..], Step(r[0 := r[0] != bits[0]]))
  }

  function Mask(i: nat): bv16 {
    match i
    case 0 => 0x0001 case 1 => 0x0002 case 2 => 0x0004 case 3 => 0x0008
    case 4 => 0x0010 case 5 => 0x0020 case 6 => 0x0040 case 7 => 0x0080
    case 8 => 0x0100 case 9 => 0x0200 case 10 => 0x0400 case 11 => 0x0800
    case 12 => 0x1000 case 13 => 0x2000 case 14 => 0x4000 case _ => 0x8000
  }

  predicate BitAt(c: bv16, i: nat) {
    c & Mask(i) != 0
  }

  /** A word as a register: bit 0 is the next to leave. */
  function Bits(c: bv16): (r: Register)
    ensures forall i :: 0 <= i < 16 ==> r[i] == BitAt(c, i)
  {
    seq(16, i requires 0 <= i < 16 => BitAt(c, i))
  }

  /** A byte as it is transmitted, least significant bit first. */
  function ByteBits(b: bv8): (bits: seq<bool>)
    ensures |bits| == 8
  {
    Bits(b as bv16)[..8]
  }

  function MessageBits(m: seq<bv8>): (bits: seq<bool>)
    ensures |bits| == 8 * |m|
  {
    if m == [] then [] else ByteBits(m[0]) + MessageBits(m[1..])
  }

  /** The checksum of a whole message. */
  function Checksum(m: seq<bv8>, r: Register): Register {
    CrcBits(MessageBits(m), r)
  }

  /** n division steps with no incoming bits. */
  function Advance(r: Register, n: nat): Register
    decreases n, r
  {
    if n == 0 then r else Advance(Step(r), n - 1)
  }

  // ---------- the step is linear and invertible ----------

  lemma StepLinear(x: Register, y: Register)
    ensures Step(Xor(x, y)) == Xor(Step(x), Step(y))
  {}

  lemma StepKeepsNonzero(r: Register)
    ensures Step(r) == ZERO <==> r == ZERO
  {
    if Step(r) == ZERO {
      assert Step(r)[15] == r[0];
      forall i | 1 <= i < 16
        ensures !r[i]
      {
        assert Step(r)[i - 1] == r[i];
      }
      assert r == ZERO;
    }
  }

  lemma {:induction false} AdvanceLinear(x: Register, y: Register, n: nat)
    ensures Advance(Xor(x, y), n) == Xor(Advance(x, n), Advance(y, n))
    decreases n
  {
    if n > 0 {
      StepLinear(x, y);
      AdvanceLinear(Step(x), Step(y), n - 1);
    }
  }

  lemma {:induction false} AdvanceKeepsNonzero(r: Register, n: nat)
    ensures Advance(r, n) == ZERO <==> r == ZERO
    decreases n
  {
    if n > 0 {
      StepKeepsNonzero(r);
      AdvanceKeepsNonzero(Step(r), n - 1);
    }
  }

  lemma XorZero(x: seq<bool>, y: seq<bool>)
    requires |x| == |y|
    ensures Xor(x, y) == Falses(|x|) <==> x == y
  {
    if Xor(x, y) == Falses(|x|) {
      forall i | 0 <= i < |x|
        ensures x[i] == y[i]
      {
        assert !Xor(x, y)[i];
      }
    }
  }

  lemma AdvanceInjective(x: Register, y: Register, n: nat)
    requires Advance(x, n) == Advance(y, n)
    ensures x == y
  {
    AdvanceLinear(x, y, n);
    AdvanceKeepsNonzero(Xor(x, y), n);
    XorZero(x, y);
    XorZero(Advance(x, n), Advance(y, n));
  }

  lemma {:induction false} AdvanceAdd(r: Register, m: nat, n: nat)
    ensures Advance(Advance(r, m), n) == Advance(r, m + n)
    decreases m
  {
    if m > 0 {
      AdvanceAdd(Step(r), m - 1, n);
    }
  }

  /** With its first n bits clear, a register just moves n places. */
  lemma {:induction false} AdvanceClear(r: Register, n: nat)
    requires n <= 16 && r[..n] == Falses(n)
    ensures Advance(r, n) == r[n..] + Falses(n)
    decreases n
  {
    if n == 0 {
      assert r[0..] + Falses(0) == r;
    } else {
      assert !r[..n][0];
      var s := Step(r);
      forall i | 0 <= i < n - 1
        ensures !s[i]
      {
        assert s[i] == r[..n][i + 1];
      }
      AdvanceClear(s, n - 1);
      assert s[n - 1..] + Falses(n - 1) == r[n..] + Falses(n);
    }
  }

  // ---------- bits fed one by one are bits added at once ----------

  /** At most 16 bits as a register, first bit in place 0. */
  function Pad(bits: seq<bool>): Register
    requires |bits| <= 16
  {
    bits + Falses(16 - |bits|)
  }

  lemma {:induction false} CrcBitsAsAdvance(bits: seq<bool>, r: Register)
    requires |bits| <= 16
    ensures CrcBits(bits, r) == Advance(Xor(r, Pad(bits)), |bits|)
    decreases |bits|
  {
    if bits == [] {
      assert Xor(r, Pad(bits)) == r;
    } else {
      var fed := r[0 := r[0] != bits[0]];
      assert Step(Xor(r, Pad(bits))) == Xor(Step(fed), Pad(bits[1..]));
      CrcBitsAsAdvance(bits[1..], Step(fed));
    }
  }

  lemma {:induction false} CrcBitsAppend(a: seq<bool>, b: seq<bool>, r: Register)
    ensures CrcBits(a + b, r) == CrcBits(b, CrcBits(a, r))
    decreases |a|
  {
    if a == [] {
      assert a + b == b;
    } else {
      assert (a + b)[1..] == a[1..] + b;
      CrcBitsAppend(a[1..], b, Step(r[0 := r[0] != a[0]]));
    }
  }

  lemma {:induction false} MessageBitsAppend(m: seq<bv8>, n: seq<bv8>)
    ensures MessageBits(m + n) == MessageBits(m) + MessageBits(n)
    decreases |m|
  {
    if m == [] {
      assert m + n == n;
    } else {
      assert (m + n)[1..] == m[1..] + n;
      MessageBitsAppend(m[1..], n);
    }
  }

  /** A message may be checked in pieces, each continuing from the last. */
  lemma CrcSplits(m: seq<bv8>, n: seq<bv8>, r: Register)
    ensures Checksum(m + n, r) == Checksum(n, Checksum(m, r))
  {
    MessageBitsAppend(m, n);
    CrcBitsAppend(MessageBits(m), MessageBits(n), r);
  }

  lemma CrcSnoc(m: seq<bv8>, b: bv8, r: Register)
    ensures Checksum(m + [b], r) == CrcBits(ByteBits(b), Checksum(m, r))
  {
    CrcSplits(m, [b], r);
    assert [b][1..] == [] && ByteBits(b) + [] == ByteBits(b);
  }

  // ---------- words as registers ----------

  lemma OneBit(i: nat)
    ensures Mask(i) != 0 && Mask(i) & (Mask(i) - 1) == 0
  {}

  lemma XorAt(x: bv16, y: bv16, mask: bv16)
    requires mask != 0 && mask & (mask - 1) == 0
    ensures (x ^ y) & mask != 0 <==> (x & mask != 0) != (y & mask != 0)
  {}

  lemma BitsXor(x: bv16, y: bv16)
    ensures Bits(x ^ y) == Xor(Bits(x), Bits(y))
  {
    forall i | 0 <= i < 16
      ensures BitAt(x ^ y, i) == (BitAt(x, i) != BitAt(y, i))
    {
      OneBit(i);
      XorAt(x, y, Mask(i));
    }
  }

  lemma ShiftAt(c: bv16, i: nat)
    requires i < 16
    ensures BitAt(c >> 1, i) == (i < 15 && BitAt(c, i + 1))
  {}

  lemma BitsShift(c: bv16)
    ensures Bits(c >> 1) == Bits(c)[1..] + [false]
  {
    var s := c >> 1;
    forall i | 0 <= i < 16
      ensures BitAt(s, i) == (i < 15 && BitAt(c, i + 1))
    {
      ShiftAt(c, i);
    }
  }

  lemma ShiftEightAt(c: bv16, i: nat)
    requires i < 16
    ensures BitAt(c >> 8, i) == (i < 8 && BitAt(c, i + 8))
  {}

  lemma BitsShiftEight(c: bv16)
    ensures Bits(c >> 8) == Bits(c)[8..] + Falses(8)
  {
    var s := c >> 8;
    forall i | 0 <= i < 16
      ensures BitAt(s, i) == (i < 8 && BitAt(c, i + 8))
    {
      ShiftEightAt(c, i);
    }
  }

  lemma LowAt(c: bv16, i: nat)
    requires i < 16
    ensures BitAt(c & 0xFF, i) == (i < 8 && BitAt(c, i))
  {}

  lemma BitsLow(c: bv16)
    ensures Bits(c & 0xFF) == Pad(Bits(c)[..8])
  {
    forall i | 0 <= i < 16
      ensures BitAt(c & 0xFF, i) == (i < 8 && BitAt(c, i))
    {
      LowAt(c, i);
    }
  }

  lemma BitsInjective(x: bv16, y: bv16)
    requires Bits(x) == Bits(y)
    ensures x == y
  {
    BitsXor(x, y);
    XorZero(Bits(x), Bits(y));
    var d := x ^ y;
    forall i | 0 <= i < 16
      ensures !BitAt(d, i)
    {
      assert Bits(d)[i] == Falses(16)[i];
    }
    AllClear(d);
  }

  lemma AllClear(d: bv16)
    requires forall i :: 0 <= i < 16 ==> !BitAt(d, i)
    ensures d == 0
  {
    assert !BitAt(d, 0) && !BitAt(d, 1) && !BitAt(d, 2) && !BitAt(d, 3);
    assert !BitAt(d, 4) && !BitAt(d, 5) && !BitAt(d, 6) && !BitAt(d, 7);
    assert !BitAt(d, 8) && !BitAt(d, 9) && !BitAt(d, 10) && !BitAt(d, 11);
    assert !BitAt(d, 12) && !BitAt(d, 13) && !BitAt(d, 14) && !BitAt(d, 15);
  }

  // ---------- the table ----------

  /** The division step on machine words. */
  function StepWord(c: bv16): bv16 {
    if c & 1 != 0 then (c >> 1) ^ POLY_WORD else c >> 1
  }

  function AdvanceWord(c: bv16, n: nat): bv16
    decreases n, c
  {
    if n == 0 then c else AdvanceWord(StepWord(c), n - 1)
  }

  lemma BitsPoly()
    ensures Bits(POLY_WORD) == POLY
  {}

  lemma BitsStep(c: bv16)
    ensures Bits(StepWord(c)) == Step(Bits(c))
  {
    BitsShift(c);
    BitsXor(c >> 1, POLY_WORD);
    BitsPoly();
    assert Bits(c)[0] == (c & 1 != 0);
  }

  lemma {:induction false} BitsAdvance(c: bv16, n: nat)
    ensures Bits(AdvanceWord(c, n)) == Advance(Bits(c), n)
    decreases n
  {
    if n > 0 {
      BitsStep(c);
      BitsAdvance(StepWord(c), n - 1);
    }
  }

  predicate FromFirst(first: bv16, entry: bv16, k: nat) {
    entry == first ^ FirstRow(k)
  }

  /** The entries of a row differ from its first as those of the first row do. */
  predicate RowLinear(row: seq<bv16>) {
    && |row| == 8
    && FromFirst(row[0], row[0], 0)
    && FromFirst(row[0], row[1], 1)
    && FromFirst(row[0], row[2], 2)
    && FromFirst(row[0], row[3], 3)
    && FromFirst(row[0], row[4], 4)
    && FromFirst(row[0], row[5], 5)
    && FromFirst(row[0], row[6], 6)
    && FromFirst(row[0], row[7], 7)
  }

  lemma Entry(base: bv16, first: bv16, k: bv16, diff: bv16)
    requires first == AdvanceWord(base, 8) && diff == AdvanceWord(k, 8)
    ensures Bits(first ^ diff) == Advance(Bits(base ^ k), 8)
  {
    BitsAdvance(base, 8);
    BitsAdvance(k, 8);
    BitsXor(first, diff);
    BitsXor(base, k);
    AdvanceLinear(Bits(base), Bits(k), 8);
  }

  /** The first row of the table, written out. */
  function FirstRow(k: nat): bv16 {
    match k
    case 0 => 0 case 1 => 0x1189 case 2 => 0x2312 case 3 => 0x329B
    case 4 => 0x4624 case 5 => 0x57AD case 6 => 0x6536 case _ => 0x74BF
  }

  lemma FirstRowAdvances(k: bv3)
    ensures FirstRow(k as nat) == AdvanceWord(k as bv16, 8)
  {
    assert AdvanceWord(0, 8) == 0 && AdvanceWord(1, 8) == 0x1189;
    assert AdvanceWord(2, 8) == 0x2312 && AdvanceWord(3, 8) == 0x329B;
    assert AdvanceWord(4, 8) == 0x4624 && AdvanceWord(5, 8) == 0x57AD;
    assert AdvanceWord(6, 8) == 0x6536 && AdvanceWord(7, 8) == 0x74BF;
    if k != 0 && k != 1 && k != 2 && k != 3 && k != 4 && k != 5 && k != 6 {
      assert k == 7;
    }
  }

  lemma RowColumn(row: seq<bv16>, k: nat)
    requires RowLinear(row) && k < 8
    ensures FromFirst(row[0], row[k], k)
  {}

  lemma RowEntry(i: bv8, row: seq<bv16>, base: bv16)
    requires RowLinear(row) && row[0] == AdvanceWord(base, 8) && i as bv16 & 0xFFF8 == base
    ensures Bits(row[i as nat % 8]) == Advance(Bits(i as bv16), 8)
  {
    var k := (i & 7) as bv3;
    LowThree(i);
    RowColumn(row, k as nat);
    FirstRowAdvances(k);
    Entry(base, row[0], k as bv16, FirstRow(k as nat));
  }

  lemma LowThree(i: bv8)
    ensures (i & 7) as bv3 as nat == i as nat % 8
    ensures (i as bv16 & 0xFFF8) ^ ((i & 7) as bv3 as bv16) == i as bv16
  {}

  lemma RowIndex(i: bv8)
    ensures i as nat / 8 == (i >> 3) as nat
  {}

  lemma Rows0(i: bv8)
    requires 0 <= i >> 3 < 4
    ensures Bits(Table(i as nat)) == Advance(Bits(i as bv16), 8)
  {
    RowIndex(i);
    if i >> 3 == 0 {
      RowEntry(i, CRC_TABLE[0], 0x00);
    } else if i >> 3 == 1 {
      RowEntry(i, CRC_TABLE[1], 0x08);
    } else if i >> 3 == 2 {
      RowEntry(i, CRC_TABLE[2], 0x10);
    } else if i >> 3 == 3 {
      RowEntry(i, CRC_TABLE[3], 0x18);
    }
  }

  lemma Rows1(i: bv8)
    requires 4 <= i >> 3 < 8
    ensures Bits(Table(i as nat)) == Advance(Bits(i as bv16), 8)
  {
    RowIndex(i);
    if i >> 3 == 4 {
      RowEntry(i, CRC_TABLE[4], 0x20);
    } else if i >> 3 == 5 {
      RowEntry(i, CRC_TABLE[5], 0x28);
    } else if i >> 3 == 6 {
      RowEntry(i, CRC_TABLE[6], 0x30);
    } else if i >> 3 == 7 {
      RowEntry(i, CRC_TABLE[7], 0x38);
    }
  }

  lemma Rows2(i: bv8)
    requires 8 <= i >> 3 < 12
    ensures Bits(Table(i as nat)) == Advance(Bits(i as bv16), 8)
  {
    RowIndex(i);
    if i >> 3 == 8 {
      RowEntry(i, CRC_TABLE[8], 0x40);
    } else if i >> 3 == 9 {
      RowEntry(i, CRC_TABLE[9], 0x48);
    } else if i >> 3 == 10 {
      RowEntry(i, CRC_TABLE[10], 0x50);
    } else if i >> 3 == 11 {
      RowEntry(i, CRC_TABLE[11], 0x58);
    }
  }

  lemma Rows3(i: bv8)
    requires 12 <= i >> 3 < 16
    ensures Bits(Table(i as nat)) == Advance(Bits(i as bv16), 8)
  {
    RowIndex(i);
    if i >> 3 == 12 {
      RowEntry(i, CRC_TABLE[12], 0x60);
    } else if i >> 3 == 13 {
      RowEntry(i, CRC_TABLE[13], 0x68);
    } else if i >> 3 == 14 {
      RowEntry(i, CRC_TABLE[14], 0x70);
    } else if i >> 3 == 15 {
      RowEntry(i, CRC_TABLE[15], 0x78);
    }
  }

  lemma Rows4(i: bv8)
    requires 16 <= i >> 3 < 20
    ensures Bits(Table(i as nat)) == Advance(Bits(i as bv16), 8)
  {
    RowIndex(i);
    if i >> 3 == 16 {
      RowEntry(i, CRC_TABLE[16], 0x80);
    } else if i >> 3 == 17 {
      RowEntry(i, CRC_TABLE[17], 0x88);
    } else if i >> 3 == 18 {
      RowEntry(i, CRC_TABLE[18], 0x90);
    } else if i >> 3 == 19 {
      RowEntry(i, CRC_TABLE[19], 0x98);
    }
  }

  lemma Rows5(i: bv8)
    requires 20 <= i >> 3 < 24
    ensures Bits(Table(i as nat)) == Advance(Bits(i as bv16), 8)
  {
    RowIndex(i);
    if i >> 3 == 20 {
      RowEntry(i, CRC_TABLE[20], 0xA0);
    } else if i >> 3 == 21 {
      RowEntry(i, CRC_TABLE[21], 0xA8);
    } else if i >> 3 == 22 {
      RowEntry(i, CRC_TABLE[22], 0xB0);
    } else if i >> 3 == 23 {
      RowEntry(i, CRC_TABLE[23], 0xB8);
    }
  }

  lemma Rows6(i: bv8)
    requires 24 <= i >> 3 < 28
    ensures Bits(Table(i as nat)) == Advance(Bits(i as bv16), 8)
  {
    RowIndex(i);
    if i >> 3 == 24 {
      RowEntry(i, CRC_TABLE[24], 0xC0);
    } else if i >> 3 == 25 {
      RowEntry(i, CRC_TABLE[25], 0xC8);
    } else if i >> 3 == 26 {
      RowEntry(i, CRC_TABLE[26], 0xD0);
    } else if i >> 3 == 27 {
      RowEntry(i, CRC_TABLE[27], 0xD8);
    }
  }

  lemma Rows7(i: bv8)
    requires 28 <= i >> 3 < 32
    ensures Bits(Table(i as nat)) == Advance(Bits(i as bv16), 8)
  {
    RowIndex(i);
    if i >> 3 == 28 {
      RowEntry(i, CRC_TABLE[28], 0xE0);
    } else if i >> 3 == 29 {
      RowEntry(i, CRC_TABLE[29], 0xE8);
    } else if i >> 3 == 30 {
      RowEntry(i, CRC_TABLE[30], 0xF0);
    } else if i >> 3 == 31 {
      RowEntry(i, CRC_TABLE[31], 0xF8);
    }
  }

  /** Every table entry is its index put through eight division steps. */
  lemma TableIsEightSteps(i: bv8)
    ensures Bits(Table(i as nat)) == Advance(Bits(i as bv16), 8)
  {
    if i >> 3 < 4 {
      Rows0(i);
    } else if i >> 3 < 8 {
      Rows1(i);
    } else if i >> 3 < 12 {
      Rows2(i);
    } else if i >> 3 < 16 {
      Rows3(i);
    } else if i >> 3 < 20 {
      Rows4(i);
    } else if i >> 3 < 24 {
      Rows5(i);
    } else if i >> 3 < 28 {
      Rows6(i);
    } else {
      Rows7(i);
    }
  }

  /** One pass of the source's loop is eight division steps of the reference. */
  lemma TableStep(c: bv16, b: bv16, i: bv8)
    requires i as bv16 == (c ^ b) & 0xFF
    ensures Bits((c >> 8) ^ Table(i as nat)) == CrcBits(Bits(b)[..8], Bits(c))
  {
    TableIsEightSteps(i);
    StepWithEntry(c, b, i as bv16, Table(i as nat));
  }

  lemma StepWithEntry(c: bv16, b: bv16, i: bv16, entry: bv16)
    requires i == (c ^ b) & 0xFF && Bits(entry) == Advance(Bits(i), 8)
    ensures Bits((c >> 8) ^ entry) == CrcBits(Bits(b)[..8], Bits(c))
  {
    BitsXor(c >> 8, entry);
    BitsShiftEight(c);
    LowOfXor(c, b);
    SplitAdvance(Bits(c), Bits(b)[..8], Bits(i));
  }

  lemma LowOfXor(c: bv16, b: bv16)
    ensures Bits((c ^ b) & 0xFF) == Pad(Xor(Bits(c)[..8], Bits(b)[..8]))
  {
    BitsLow(c ^ b);
    BitsXor(c, b);
    assert Xor(Bits(c), Bits(b))[..8] == Xor(Bits(c)[..8], Bits(b)[..8]);
  }

  lemma SplitAdvance(c: Register, byte: seq<bool>, low: Register)
    requires |byte| == 8 && low == Pad(Xor(c[..8], byte))
    ensures Xor(c[8..] + Falses(8), Advance(low, 8)) == CrcBits(byte, c)
  {
    var high := Falses(8) + c[8..];
    CrcBitsAsAdvance(byte, c);
    assert Xor(c, Pad(byte)) == Xor(high, low);
    AdvanceLinear(high, low, 8);
    assert high[..8] == Falses(8) && high[8..] == c[8..];
    AdvanceClear(high, 8);
  }
}
