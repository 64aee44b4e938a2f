/** Big-endian fields of the emulated boards' packets, and the 24-bit sample. */
module Pcm24 {
  import opened Reals

  type Byte = x: int | 0 <= x < 256

  const SCALE := 8388607

  function Clip(v: real): real {
    if v > 1.0 then 1.0 else if v < -1.0 then -1.0 else v
  }

  /** The 24-bit code of a sample. */
  function Code(v: real): int {
    Trunc(Clip(v) * 8388607.0)
  }

  function Put24(v: real): (p: (Byte, Byte, Byte)) {
    var s := Code(v);
    (s / 65536 % 256, s / 256 % 256, s % 256)
  }

  /** Three bytes as the receiver reads them: a signed big-endian number. */
  function Get24(a: Byte, b: Byte, c: Byte): int {
    var u := a * 65536 + b * 256 + c;
    if u >= 0x800000 then u - 0x1000000 else u
  }

  lemma CodeInRange(v: real)
    ensures -SCALE <= Code(v) <= SCALE
  {
    var x := Clip(v) * 8388607.0;
    assert -8388607.0 <= x <= 8388607.0;
  }

  lemma Bytes(u: int)
    requires 0 <= u < 0x1000000
    ensures u / 65536 < 256 && u == u / 65536 * 65536 + u / 256 % 256 * 256 + u % 256
  {}

  lemma Wrapped(s: int, u: int)
    requires u == s + 0x1000000
    ensures u / 65536 == s / 65536 + 256 && u / 256 == s / 256 + 65536 && u % 256 == s % 256
  {}

  lemma SameByte(a: int, k: int)
    ensures (a + 256 * k) % 256 == a % 256
  {}

  lemma BytesOf(s: int)
    requires -0x800000 <= s < 0x800000
    ensures Get24(s / 65536 % 256, s / 256 % 256, s % 256) == s
  {
    if s < 0 {
      var u := s + 0x1000000;
      Wrapped(s, u);
      Bytes(u);
      SameByte(s / 65536, 1);
      SameByte(s / 256, 256);
    } else {
      Bytes(s);
    }
  }

  /** What the receiver divides back out is the sample it was, within one code and the
      clipping. */
  lemma ReadBack(v: real)
    ensures var p := Put24(v);
            && Get24(p.0, p.1, p.2) == Code(v)
            && -1.0 < Code(v) as real - Clip(v) * 8388607.0 < 1.0
  {
    CodeInRange(v);
    BytesOf(Code(v));
  }

  /** A 32-bit and a 16-bit big-endian field. */
  function Be32(v: nat): (b: seq<Byte>)
    requires v < 0x1_0000_0000
    ensures |b| == 4
  {
    [v / 0x1000000, v / 0x10000 % 256, v / 0x100 % 256, v % 256]
  }

  function Read32(b: seq<Byte>): nat
    requires |b| == 4
  {
    var n: int := b[0] as int * 0x1000000 + b[1] as int * 0x10000 + b[2] as int * 0x100 + b[3] as int;
    n
  }

  lemma Be32ReadBack(v: nat)
    requires v < 0x1_0000_0000
    ensures Read32(Be32(v)) == v
  {
    ShiftTwo(v);
    ShiftTwo(v / 256);
    ShiftTwice(v);
  }

  lemma ShiftTwo(v: nat)
    ensures v / 0x10000 == v / 256 / 256 && v == v / 256 * 256 + v % 256
  {}

  lemma ShiftTwice(v: nat)
    ensures v / 0x1000000 == v / 0x10000 / 256 && v / 0x10000 == v / 0x1000000 * 256 + v / 0x10000 % 256
  {}

  /** A 64-bit big-endian field. */
  function Be64(v: nat): (b: seq<Byte>)
    requires v < 0x1_0000_0000_0000_0000
    ensures |b| == 8
  {
    Be32(v / 0x1_0000_0000) + Be32(v % 0x1_0000_0000)
  }

  function Read64(b: seq<Byte>): nat
    requires |b| == 8
  {
    Read32(b[..4]) * 0x1_0000_0000 + Read32(b[4..])
  }

  lemma Be64ReadBack(v: nat)
    requires v < 0x1_0000_0000_0000_0000
    ensures Read64(Be64(v)) == v
  {
    hide Be32, Read32;
    assert Be64(v)[..4] == Be32(v / 0x1_0000_0000);
    assert Be64(v)[4..] == Be32(v % 0x1_0000_0000);
    Be32ReadBack(v / 0x1_0000_0000);
    Be32ReadBack(v % 0x1_0000_0000);
  }
}
