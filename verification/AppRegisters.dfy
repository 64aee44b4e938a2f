/** The register blocks of the program itself (protocol1.c, protocol2.c), as far as the emulated
    boards read them: what they ask for is what the boards take them to ask for. */
module AppRegisters {
  import opened Pcm24
  import opened P2Packet
  import opened P2Board
  import Metis

  const GENERAL_BYTES := 60
  const RXSPEC_BYTES := 1444
  const WIDEBAND_SAMPLES_PER_PACKET := 512
  const WIDEBAND_SAMPLE_BITS := 16

  // ---------- bits of a byte ----------

  /** Binary digit d. */
  predicate Digit(b: nat, d: nat)
    decreases d
  {
    if d == 0 then b % 2 == 1 else Digit(b / 2, d - 1)
  }

  function Power(d: nat): (w: nat)
    ensures w > 0
    decreases d
  {
    if d == 0 then 1 else 2 * Power(d - 1)
  }

  /** The digits below n say what a number below 2 to the n is. */
  lemma {:induction false} SameDigits(a: nat, b: nat, n: nat)
    requires a < Power(n) && b < Power(n) && forall d :: 0 <= d < n ==> (Digit(a, d) <==> Digit(b, d))
    ensures a == b
    decreases n
  {
    if n > 0 {
      assert Digit(a, 0) <==> Digit(b, 0);
      forall d | 0 <= d < n - 1
        ensures Digit(a / 2, d) <==> Digit(b / 2, d)
      {
        assert Digit(a, d + 1) <==> Digit(b, d + 1);
      }
      SameDigits(a / 2, b / 2, n - 1);
    }
  }

  /** Adding a power of two where its digit is clear sets that digit and no other. */
  lemma {:induction false} DigitAdded(b: nat, d: nat, e: nat)
    requires !Digit(b, d)
    ensures Digit(b + Power(d), e) <==> Digit(b, e) || e == d
    decreases d
  {
    if d > 0 && e > 0 {
      DigitAdded(b / 2, d - 1, e - 1);
      assert (b + Power(d)) / 2 == b / 2 + Power(d - 1);
    }
  }

  lemma {:induction false} DigitRoom(b: nat, d: nat, n: nat)
    requires b < Power(n) && d < n
    ensures if Digit(b, d) then b >= Power(d) && !Digit(b - Power(d), d) else b + Power(d) < Power(n)
    decreases n
  {
    if d > 0 {
      DigitRoom(b / 2, d - 1, n - 1);
      if Digit(b, d) {
        assert (b - Power(d)) / 2 == b / 2 - Power(d - 1);
      }
    }
  }

  lemma Weights(d: nat)
    requires d < 8
    ensures Power(d) == Weight(d) && Power(8) == 256
  {}

  lemma HalfWeight(b: nat, d: nat)
    requires 0 < d < 8
    ensures b / Weight(d) == b / 2 / Weight(d - 1)
  {}

  lemma {:induction false} DigitIs(b: nat, d: nat)
    requires d < 8
    ensures Digit(b, d) <==> b / Weight(d) % 2 == 1
    decreases d
  {
    if d > 0 {
      HalfWeight(b, d);
      DigitIs(b / 2, d - 1);
    }
  }

  lemma BitsAre(b: Byte, d: nat)
    ensures d in Bits(b) <==> d < 8 && Digit(b, d)
  {
    if d < 8 {
      DigitIs(b, d);
    }
  }

  /** b |= 1 << d. */
  function With(b: Byte, d: nat): (r: Byte)
    requires d < 8
  {
    DigitRoom(b, d, 8);
    Weights(d);
    if Digit(b, d) then b else b + Power(d)
  }

  /** b &= ~(1 << d). */
  function Without(b: Byte, d: nat): (r: Byte)
    requires d < 8
  {
    DigitRoom(b, d, 8);
    Weights(d);
    if Digit(b, d) then b - Power(d) else b
  }

  lemma BitSet(b: Byte, d: nat)
    requires d < 8
    ensures Bits(With(b, d)) == Bits(b) + {d}
  {
    hide Bits;
    forall e: nat
      ensures e in Bits(With(b, d)) <==> e in Bits(b) + {d}
    {
      BitsAre(b, e);
      BitsAre(With(b, d), e);
      if !Digit(b, d) {
        DigitAdded(b, d, e);
      }
    }
  }

  lemma BitCleared(b: Byte, d: nat)
    requires d < 8
    ensures Bits(Without(b, d)) == Bits(b) - {d}
  {
    hide Bits;
    forall e: nat
      ensures e in Bits(Without(b, d)) <==> e in Bits(b) - {d}
    {
      BitsAre(b, e);
      BitsAre(Without(b, d), e);
      DigitRoom(b, d, 8);
      Weights(d);
      if Digit(b, d) {
        DigitAdded(b - Power(d), d, e);
      }
    }
  }

  lemma NoBits()
    ensures Bits(0) == {}
  {}

  /** Registers that are compared as sets of bits are compared as bytes. */
  lemma SameBits(a: Byte, b: Byte)
    requires Bits(a) == Bits(b)
    ensures a == b
  {
    hide Bits;
    forall d | 0 <= d < 8
      ensures Digit(a, d) <==> Digit(b, d)
    {
      BitsAre(a, d);
      BitsAre(b, d);
    }
    Weights(0);
    SameDigits(a, b, 8);
  }

  // ---------- the receive-specific block ----------

  datatype Receiver = Receiver(channel: nat, adc: Byte, sampleRate: nat)

  /** Receivers of different DDCs. */
  ghost predicate Distinct(rs: seq<Receiver>) {
    && (forall i :: 0 <= i < |rs| ==> rs[i].channel < MAX_DDC)
    && forall i, j :: 0 <= i < j < |rs| ==> rs[i].channel != rs[j].channel
  }

  function Channels(rs: seq<Receiver>): set<nat> {
    set i | 0 <= i < |rs| :: rs[i].channel
  }

  /** A diversity mixer of a visual and a hidden receiver's DDC. */
  datatype Mixer = Mixer(visual: nat, hidden: nat)

  /** Some mixer is of the one pair that may be synchronised. */
  predicate Paired(mixers: seq<Mixer>) {
    Mixer(0, 1) in mixers
  }

  /** What a block says of a receiver. */
  ghost predicate Configures(b: seq<Byte>, r: Receiver)
    requires |b| == RXSPEC_BYTES && r.channel < MAX_DDC
  {
    && b[17 + 6 * r.channel] == r.adc
    && b[18 + 6 * r.channel] == r.sampleRate / 1000 / 256 % 256 && b[19 + 6 * r.channel] == r.sampleRate / 1000 % 256
  }

  /** The block after the first n receivers. */
  ghost predicate Filled(b: seq<Byte>, number: nat, rs: seq<Receiver>, n: nat)
    requires Distinct(rs) && n <= |rs|
  {
    && |b| == RXSPEC_BYTES && Numbered4(b, number) && Bits(b[7]) == Channels(rs[..n])
    && (forall i :: 0 <= i < n ==> Configures(b, rs[i]))
    && Unsynced(b)
  }

  ghost predicate Unsynced(b: seq<Byte>)
    requires |b| == RXSPEC_BYTES
  {
    forall k :: RXSPEC_SYNC_BASE <= k < RXSPEC_SYNC_BASE + MAX_DDC ==> b[k] == 0
  }

  /** The number of a block, in its first four bytes, and what follows it. */
  ghost predicate Numbered4(b: seq<Byte>, number: nat) {
    && |b| > 4 && b[4] == 2
    && b[0] == number / 0x1000000 % 256 && b[1] == number / 0x10000 % 256 && b[2] == number / 0x100 % 256
    && b[3] == number % 256
  }

  lemma OneMoreChannel(rs: seq<Receiver>, n: nat)
    requires n < |rs|
    ensures Channels(rs[..n + 1]) == Channels(rs[..n]) + {rs[n].channel}
  {
    assert rs[..n + 1] == rs[..n] + [rs[n]];
    var more := rs[..n + 1];
    forall c | c in Channels(rs[..n]) + {rs[n].channel}
      ensures c in Channels(more)
    {
      if c == rs[n].channel {
        assert more[n].channel == c;
      } else {
        var i :| 0 <= i < n && rs[..n][i].channel == c;
        assert more[i].channel == c;
      }
    }
  }

  /** A block that asks for these receivers, with DDCs 0 and 1 as a pair or not. */
  ghost predicate AsksFor(b: seq<Byte>, number: nat, rs: seq<Receiver>, pair: bool)
    requires Distinct(rs)
  {
    && |b| == RXSPEC_BYTES && Numbered4(b, number) && Bits(b[7]) == Channels(rs) - (if pair then {1} else {})
    && (!pair ==> forall i :: 0 <= i < |rs| ==> Configures(b, rs[i]))
    && (pair ==>
          && b[17] == 0 && b[23] == 1 && b[24] == b[18] && b[25] == b[19]
          && forall i :: 0 <= i < |rs| && rs[i].channel != 1 ==>
               Configures(b, if rs[i].channel == 0 then rs[i].(adc := 0) else rs[i]))
    && forall k :: RXSPEC_SYNC_BASE <= k < RXSPEC_SYNC_BASE + MAX_DDC ==>
         Bits(b[k]) == if k == RXSPEC_SYNC_BASE && pair then {1} else {}
  }

  /** protocol2_receive_specific, but for the dither and random bits. */
  method ReceiveSpecific(buf: array<Byte>, number: nat, rs: seq<Receiver>, mixers: seq<Mixer>)
    requires buf.Length == RXSPEC_BYTES && Distinct(rs)
    modifies buf
    ensures AsksFor(buf[..], number, rs, Paired(mixers))
  {
    hide Bits, With, Without;
    NoBits();
    Begin(buf, number);
    var i := 0;
    assert Channels(rs[..0]) == {};
    while i < |rs|
      invariant i <= |rs| && Filled(buf[..], number, rs, i)
    {
      Configure(buf, number, rs, i);
      i := i + 1;
    }
    assert rs[..|rs|] == rs;
    Mix(buf, mixers);
  }

  method Begin(buf: array<Byte>, number: nat)
    requires buf.Length == RXSPEC_BYTES
    modifies buf
    ensures Numbered4(buf[..], number) && buf[7] == 0
    ensures Unsynced(buf[..])
  {
    forall k | 0 <= k < buf.Length {
      buf[k] := 0;
    }
    buf[0], buf[1] := number / 0x1000000 % 256, number / 0x10000 % 256;
    buf[2], buf[3], buf[4] := number / 0x100 % 256, number % 256, 2;
  }

  method Configure(buf: array<Byte>, ghost number: nat, rs: seq<Receiver>, i: nat)
    requires Distinct(rs) && i < |rs| && buf.Length == RXSPEC_BYTES && Filled(buf[..], number, rs, i)
    modifies buf
    ensures Filled(buf[..], number, rs, i + 1)
  {
    hide Bits, With, Channels;
    var r := rs[i];
    ghost var before := buf[..];
    BitSet(buf[7], r.channel);
    OneMoreChannel(rs, i);
    buf[7] := With(buf[7], r.channel);
    buf[17 + 6 * r.channel] := r.adc;
    buf[18 + 6 * r.channel] := r.sampleRate / 1000 / 256 % 256;
    buf[19 + 6 * r.channel] := r.sampleRate / 1000 % 256;
    buf[22 + 6 * r.channel] := 24;
    forall j | 0 <= j < i
      ensures Configures(buf[..], rs[j])
    {
      assert Configures(before, rs[j]) && rs[j].channel != r.channel;
    }
  }

  /** The one pair a mixer may have: DDC 1 takes DDC 0's rate and rides its packets. */
  method Mix(buf: array<Byte>, mixers: seq<Mixer>)
    requires buf.Length == RXSPEC_BYTES && Unsynced(buf[..])
    modifies buf
    ensures !Paired(mixers) ==> buf[..] == old(buf[..])
    ensures Paired(mixers) ==>
              && Bits(buf[7]) == Bits(old(buf[7])) - {1} && Bits(buf[RXSPEC_SYNC_BASE]) == {1}
              && buf[17] == 0 && buf[23] == 1 && buf[24] == buf[18] && buf[25] == buf[19]
              && forall k :: 0 <= k < RXSPEC_BYTES && k !in {7, 17, 23, 24, 25, 28, RXSPEC_SYNC_BASE} ==>
                   buf[k] == old(buf[k])
  {
    hide Bits, With, Without;
    NoBits();
    var i := 0;
    while i < |mixers|
      invariant i <= |mixers|
      invariant !Paired(mixers[..i]) ==> buf[..] == old(buf[..])
      invariant Paired(mixers[..i]) ==>
                  && Bits(buf[7]) == Bits(old(buf[7])) - {1} && Bits(buf[RXSPEC_SYNC_BASE]) == {1}
                  && buf[17] == 0 && buf[23] == 1 && buf[24] == buf[18] && buf[25] == buf[19]
                  && forall k :: 0 <= k < RXSPEC_BYTES && k !in {7, 17, 23, 24, 25, 28, RXSPEC_SYNC_BASE} ==>
                       buf[k] == old(buf[k])
    {
      var m := mixers[i];
      assert Paired(mixers[..i + 1]) <==> Paired(mixers[..i]) || m == Mixer(0, 1);
      if m.visual == 0 && m.hidden == 1 {
        assert {} + {1} == {1} + {1} == {1};
        BitSet(buf[RXSPEC_SYNC_BASE], 1);
        BitCleared(buf[7], 1);
        buf[17], buf[23] := 0, 1;
        buf[24], buf[25], buf[28] := buf[18], buf[19], 24;
        buf[RXSPEC_SYNC_BASE] := With(buf[RXSPEC_SYNC_BASE], 1);
        buf[7] := Without(buf[7], 1);
      }
      i := i + 1;
    }
    assert mixers[..|mixers|] == mixers;
  }

  /** The board takes it for a register block, but for numbers whose first two bytes are those
      of a protocol-1 command. */
  lemma TakenIff(m: Datagram, number: nat)
    requires m.port == RxSpec && m.local && |m.bytes| == RXSPEC_BYTES && Numbered4(m.bytes, number)
    ensures IsRxSpec(m) && !IsGeneral(m) && !IsHighPriority(m)
    ensures Accepted(m) <==> number / 0x10000 % 0x10000 != 0xEFFE
  {
    TopBytes(number / 0x10000);
    assert number / 0x1000000 == number / 0x10000 / 256;
  }

  lemma TopBytes(top: nat)
    ensures top / 256 % 256 == 0xEF && top % 256 == 0xFE <==> top % 0x10000 == 0xEFFE
  {
    var h, l := top / 256, top % 256;
    LowWord(top, h / 256, h % 256 * 256 + l);
  }

  lemma LowWord(x: nat, q: nat, r: nat)
    requires x == q * 0x10000 + r && r < 0x10000
    ensures x % 0x10000 == r
  {}

  /** A rate that two bytes of kilohertz can say. */
  predicate Sayable(rate: nat) {
    rate % 1000 == 0 && 0 < rate / 1000 < 65536
  }

  /** What the board does with it: a DDC's ADC and rate are those of its receiver; the pair has
      DDC 0's rate, ADCs 0 and 1, and goes out in the packets of DDC 0. */
  lemma BoardConfigured(r: Registers, m: Datagram, now: int, number: nat, rs: seq<Receiver>, pair: bool, i: nat)
    requires m.port == RxSpec && Distinct(rs) && AsksFor(m.bytes, number, rs, pair) && i < |rs|
    requires |r.rate| == |r.nextIq| == |r.sync| == MAX_DDC
    ensures var t, c := Taken(r, m, now), rs[i].channel;
            && |t.rate| == |t.adc| == |t.sync| == MAX_DDC
            && (pair ==> t.adc[0] == 0 && t.adc[1] == 1 && Streams(t.sync[0], 0) == [0, 1])
            && (!pair ==> t.adc[c] == rs[i].adc && Streams(t.sync[c], c) == [c])
            && (Sayable(rs[i].sampleRate) && (pair ==> c != 1) ==> t.rate[c] == rs[i].sampleRate)
            && (Sayable(rs[i].sampleRate) && pair && c == 0 ==> t.rate[1] == t.rate[0])
  {
    hide Bits, Channels;
    var b, c := m.bytes, rs[i].channel;
    KiloHertz(rs[i].sampleRate);
    SyncsAre(b, number, rs, pair);
    if !pair {
      assert Configures(b, rs[i]);
    } else if c != 1 {
      assert Configures(b, if c == 0 then rs[i].(adc := 0) else rs[i]);
    }
  }

  lemma KiloHertz(rate: nat)
    ensures Sayable(rate) ==> Word(rate / 1000 / 256 % 256, rate / 1000 % 256) * 1000 == rate
  {
    if Sayable(rate) {
      TwoBytes(rate / 1000);
    }
  }

  lemma TwoBytes(k: nat)
    requires k < 65536
    ensures Word(k / 256 % 256, k % 256) == k
  {
    assert k / 256 < 256;
  }

  lemma SyncsAre(b: seq<Byte>, number: nat, rs: seq<Receiver>, pair: bool)
    requires Distinct(rs) && AsksFor(b, number, rs, pair)
    ensures forall d :: 0 <= d < MAX_DDC ==> Syncs(b)[d] == if d == 0 && pair then {1} else {}
  {
    hide Bits, Channels;
    forall d | 0 <= d < MAX_DDC
      ensures Syncs(b)[d] == if d == 0 && pair then {1} else {}
    {
      assert Syncs(b)[d] == Bits(b[RXSPEC_SYNC_BASE + d]);
    }
  }

  /** The samples of every receiver go out, but for those of a pair's second without its first. */
  lemma ReceiverCarriedIff(b: seq<Byte>, number: nat, rs: seq<Receiver>, pair: bool, i: nat)
    requires Distinct(rs) && AsksFor(b, number, rs, pair) && i < |rs|
    ensures Carried(Bits(b[7]), Syncs(b), rs[i].channel) <==> !(pair && rs[i].channel == 1) || 0 in Channels(rs)
  {
    hide Bits, Syncs;
    var c, enable, sync := rs[i].channel, Bits(b[7]), Syncs(b);
    SyncsAre(b, number, rs, pair);
    CarriedIff(enable, sync, c);
    assert c in Channels(rs);
    if pair {
      assert 1 in sync[0];
      assert Follows(sync, 1);
      assert !Follows(sync, 0);
      if c == 1 {
        assert P2Board.Carries(enable, sync, 0, 1) <==> 0 in enable;
      }
    }
    assert c != 1 ==> !Follows(sync, c);
    assert !pair ==> !Follows(sync, c);
  }

  // ---------- the general block ----------

  /** The wideband window's ADC, frames a second and buffer. */
  datatype Window = Window(adc: nat, fps: int, bufferSize: nat)

  datatype Option<T> = None | Some(value: T)

  /** What a block says of the wideband feed. */
  ghost predicate AsksWideband(b: seq<Byte>, w: Option<Window>)
    requires |b| == GENERAL_BYTES
  {
    match w
    case None => WbOf(b) == WbRegisters(false, 0, 0, 0, 0)
    case Some(w) =>
      && WbOf(b).enable == (w.adc % 2 == 0) && WbOf(b).samples == WIDEBAND_SAMPLES_PER_PACKET
      && WbOf(b).bits == WIDEBAND_SAMPLE_BITS && Cadence(w.fps, WbOf(b).rateMs) && Fills(w.bufferSize, WbOf(b).frame)
  }

  /** As many milliseconds as let so many frames into a second, if a byte can say it. */
  predicate Cadence(fps: int, ms: nat) {
    && 1 <= ms <= 255 && (fps <= 0 ==> ms == 100)
    && (fps > 0 ==> (ms > 1 ==> ms * fps <= 1000) && (ms < 255 ==> 1000 < (ms + 1) * fps))
  }

  /** As many packets as fit the buffer, if a byte can say it. */
  predicate Fills(bufferSize: nat, frame: nat) {
    && 1 <= frame <= 255 && (frame > 1 ==> frame * WIDEBAND_SAMPLES_PER_PACKET <= bufferSize)
    && (frame < 255 ==> bufferSize < (frame + 1) * WIDEBAND_SAMPLES_PER_PACKET)
  }

  /** protocol2_general, up to its wideband bytes. */
  method GeneralBlock(buf: array<Byte>, number: nat, w: Option<Window>)
    requires buf.Length == GENERAL_BYTES
    modifies buf
    ensures buf[0] == number / 0x1000000 % 256 && buf[1] == number / 0x10000 % 256 && buf[4] == 0
    ensures AsksWideband(buf[..], w)
  {
    hide Cadence, Fills, AsksWideband;
    Cleared(buf, number);
    match w {
      case None =>
        AsksNothing(buf[..]);
      case Some(w) =>
        var frame := FrameOf(w.bufferSize);
        var ms := RateOf(w.fps);
        buf[23] := if w.adc % 2 == 0 then 1 else 2;
        buf[24] := WIDEBAND_SAMPLES_PER_PACKET / 256 % 256;
        buf[25] := WIDEBAND_SAMPLES_PER_PACKET % 256;
        buf[26] := WIDEBAND_SAMPLE_BITS;
        buf[27], buf[28] := ms, frame;
        AsksWindow(buf[..], w);
    }
  }

  method Cleared(buf: array<Byte>, number: nat)
    requires buf.Length == GENERAL_BYTES
    modifies buf
    ensures buf[0] == number / 0x1000000 % 256 && buf[1] == number / 0x10000 % 256
    ensures forall k :: 4 <= k < GENERAL_BYTES ==> buf[k] == 0
  {
    forall k | 0 <= k < buf.Length {
      buf[k] := 0;
    }
    buf[0], buf[1] := number / 0x1000000 % 256, number / 0x10000 % 256;
    buf[2], buf[3] := number / 0x100 % 256, number % 256;
  }

  lemma AsksNothing(b: seq<Byte>)
    requires |b| == GENERAL_BYTES && b[23] == b[24] == b[25] == b[26] == b[27] == b[28] == 0
    ensures AsksWideband(b, None)
  {}

  lemma AsksWindow(b: seq<Byte>, w: Window)
    requires |b| == GENERAL_BYTES && b[23] == (if w.adc % 2 == 0 then 1 else 2)
    requires b[24] == WIDEBAND_SAMPLES_PER_PACKET / 256 && b[25] == WIDEBAND_SAMPLES_PER_PACKET % 256
    requires b[26] == WIDEBAND_SAMPLE_BITS && Cadence(w.fps, b[27]) && Fills(w.bufferSize, b[28])
    ensures AsksWideband(b, Some(w))
  {
    hide Cadence, Fills;
  }

  method FrameOf(bufferSize: nat) returns (frame: Byte)
    ensures Fills(bufferSize, frame)
  {
    var n := bufferSize / WIDEBAND_SAMPLES_PER_PACKET;
    frame := if n < 1 then 1 else if n > 255 then 255 else n;
  }

  method RateOf(fps: int) returns (ms: Byte)
    ensures Cadence(fps, ms)
  {
    var n := if fps > 0 then 1000 / fps else 100;
    if fps > 0 {
      Shares(1000, fps);
      Apart(n, fps);
    }
    ms := if n < 1 then 1 else if n > 255 then 255 else n;
  }

  lemma Shares(n: nat, d: nat)
    requires d > 0
    ensures n / d * d <= n < (n / d + 1) * d
  {}

  lemma Apart(n: nat, d: nat)
    requires d > 0
    ensures n > 255 ==> 255 * d <= n * d
    ensures n < 1 ==> n * d == 0 && (n + 1) * d == d
  {
    if n > 255 {
      Scale(255, n, d);
    }
  }

  lemma Scale(a: nat, b: nat, d: nat)
    requires a <= b
    ensures a * d <= b * d
  {}

  /** No general block is taken for a discovery, and the feed of an even ADC is one the board
      sends: sixteen bits, and a packet that fits a datagram. */
  lemma WidebandServed(m: Datagram, w: Window)
    requires m.port == General && |m.bytes| == GENERAL_BYTES && m.bytes[4] == 0 && AsksWideband(m.bytes, Some(w))
    ensures IsGeneral(m) && !IsDiscovery(m)
    ensures StreamsFor(WbOf(m.bytes)) <==> w.adc % 2 == 0
    ensures w.bufferSize == 16384 ==> WbOf(m.bytes).frame * WbOf(m.bytes).samples == w.bufferSize
  {
    assert m.bytes[..5][4] == 0;
  }

  // ---------- the other blocks ----------

  /** Byte 4 of a high-priority block. */
  function RunByte(running: bool, ptt: bool): Byte {
    (if running then 1 else 0) + (if ptt then 2 else 0)
  }

  /** The board reads the running bit of it, transmitting or not. */
  lemma RunningRead(m: P2Board.Datagram, running: bool, ptt: bool)
    requires m.port == HighPrio && |m.bytes| == RXSPEC_BYTES && m.bytes[4] == RunByte(running, ptt)
    ensures IsHighPriority(m) && (RunBit(m) <==> running)
  {}

  /** A protocol-1 command is what begins with the word EFFE and goes on. */
  lemma ProtocolOneIff(m: P2Board.Datagram)
    ensures IsProtocol1(m) <==> |m.bytes| >= 3 && Word(m.bytes[0], m.bytes[1]) == 0xEFFE
  {}

  /** A general block is a discovery if and only if its number is zero and its command 2. */
  lemma DiscoveryIff(m: P2Board.Datagram)
    requires m.port == General && |m.bytes| >= 5
    ensures IsDiscovery(m) <==> Read32(m.bytes[..4]) == 0 && m.bytes[4] == 2
  {
    var b := m.bytes;
    assert b[..5] == b[..4] + [b[4]] && b[..5][..4] == b[..4] && b[..5][4] == b[4];
    if Read32(b[..4]) == 0 && b[4] == 2 {
      assert b[..4] == [0, 0, 0, 0];
    }
  }

  /** The start or stop of protocol 1. */
  function StartStop(command: Byte): seq<Byte> {
    [0xEF, 0xFE, 4, command] + seq(60, _ => 0)
  }

  /** The board obeys it from this host, as a start if the command is not zero, whatever its
      buffer held. */
  lemma CommandRead(m: Metis.Datagram, command: Byte, held: Byte)
    requires m.bytes == StartStop(command)
    ensures (Metis.Obeyed(m) <==> m.local) && Metis.Byte3(m, held) == command
    ensures !Metis.IsPacket(m, 1) && !Metis.IsPacket(m, 2)
  {}

  /** Byte 3 is that of the receive buffer, which a datagram overwrites from its beginning. */
  lemma BufferHolds(m: Metis.Datagram, buffer: seq<Byte>)
    requires |buffer| > 3 && |m.bytes| <= |buffer|
    ensures (m.bytes + buffer[|m.bytes|..])[3] == Metis.Byte3(m, buffer[3])
  {}

  /** A command set names the framing if and only if it has its sync and is number 0,
      transmitting or not. */
  lemma FramingIff(b: seq<Byte>, off: nat)
    requires off + 8 <= |b|
    ensures Metis.Framing(b, off) <==> b[off..off + 3] == [0x7F, 0x7F, 0x7F] && b[off + 3] / 2 == 0
  {
    var s := b[off..off + 3];
    assert s[0] == b[off] && s[1] == b[off + 1] && s[2] == b[off + 2];
  }

  // ---------- the command set of protocol 1 ----------

  /** The speed and the flags of a configuration; antenna is the two relay bits. */
  datatype Setting = Setting(sampleRate: nat, atlas: bool, mic: bool, mercury: bool, clock10: nat, receivers: nat,
                             diversity: bool, antenna: nat, mox: bool)

  predicate Legal(c: Setting) {
    1 <= c.receivers <= 8 && c.antenna < 4
  }

  /** ozy_send_buffer: sync, and the first command set. Its C2 and C3 are not modelled. */
  method Configuration(out: array<Byte>, c: Setting)
    requires out.Length == Metis.USB_FRAME && Legal(c)
    modifies out
    ensures Metis.Framing(out[..], 0)
    ensures Metis.Receivers(out[7]) == c.receivers
    ensures Metis.SampleRate(out[4]) == if c.sampleRate in {96000, 192000, 384000} then c.sampleRate else 48000
  {
    var speed, flags := 0, 0;
    if c.sampleRate == 96000 {
      speed := 1;
    } else if c.sampleRate == 192000 {
      speed := 2;
    } else if c.sampleRate == 384000 {
      speed := 3;
    }
    if c.atlas {
      flags := (if c.mic then 0x80 else 0) + 0x60 + (if c.mercury then 0x10 else 0) + c.clock10 % 4 * 4;
    }
    LowBits(speed, flags);
    MiddleBits(c.diversity, c.receivers - 1, c.antenna);
    out[0], out[1], out[2] := Metis.SYNC, Metis.SYNC, Metis.SYNC;
    out[3], out[4] := if c.mox then 1 else 0, speed + flags;
    out[7] := 4 + (if c.diversity then 0x80 else 0) + (c.receivers - 1) * 8 + c.antenna;
  }

  lemma LowBits(speed: nat, flags: nat)
    requires speed < 4 && flags % 4 == 0
    ensures (speed + flags) % 4 == speed
  {}

  lemma MiddleBits(diversity: bool, n: nat, antenna: nat)
    requires n < 8 && antenna < 4
    ensures (4 + (if diversity then 0x80 else 0) + n * 8 + antenna) / 8 % 8 == n
  {}

  /** So the board frames what it sends as asked, whatever commands but the first are in the
      second half. */
  lemma BoardFrames(b: seq<Byte>, first: seq<Byte>, second: seq<Byte>, f: Metis.Framed)
    requires |b| == 1032 && |first| == |second| == Metis.USB_FRAME && b[8..520] == first && b[520..] == second
    requires Metis.Framing(first, 0) && second[3] / 2 != 0
    ensures Metis.Learned(b, f) == Metis.Framed(Metis.Receivers(first[7]), Metis.SampleRate(first[4]))
  {
    assert forall k :: 0 <= k < 8 ==> b[8..520][k] == b[8 + k] && b[520..][k] == b[520 + k];
  }
}
