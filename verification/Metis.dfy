/** The protocol-1 board of metis_emu.c: its USB frames, its commands and its pacing. */
module Metis {
  import opened Integers
  import opened Pcm24
  import opened Pacing
  import opened Reals

  const USB_FRAME := 512
  const SYNC: Byte := 0x7F
  const M_PI := 3.141592653589793

  // ---------- the frame ----------

  /** The bytes of one sample of every receiver: a pair of 24-bit values each, and the
      microphone. */
  function Group(rx: nat): nat {
    rx * 6 + 2
  }

  function SamplesPerFrame(rx: nat): nat {
    NotNegative(USB_FRAME - 8, Group(rx));
    (USB_FRAME - 8) / Group(rx)
  }

  lemma NotNegative(n: nat, cap: nat)
    requires cap > 0
    ensures n / cap >= 0
  {}

  /** As many whole samples as fit, and no more. */
  lemma FrameFull(rx: nat)
    requires 1 <= rx <= 8
    ensures var n := SamplesPerFrame(rx);
            8 + Laps(n, Group(rx)) <= USB_FRAME < 8 + Laps(n + 1, Group(rx)) && n >= 1
  {}

  datatype Tone = Tone(sin: real -> real, cos: real -> real, dphi: real)

  function Turned(p: real): real {
    if p > 2.0 * M_PI then p - 2.0 * M_PI else p
  }

  function PhaseAfter(t: Tone, p: real, n: nat): real
    decreases n
  {
    if n == 0 then p else Turned(PhaseAfter(t, p, n - 1) + t.dphi)
  }

  function Three(v: real): (b: seq<Byte>)
    ensures |b| == 3
  {
    var p := Put24(v);
    [p.0, p.1, p.2]
  }

  /** Left and right of one receiver at a phase. */
  function Pair(t: Tone, p: real): (b: seq<Byte>)
    ensures |b| == 6
  {
    Three(0.4 * t.sin(p)) + Three(0.4 * t.cos(p))
  }

  function Pairs(t: Tone, p: real, rx: nat): (b: seq<Byte>)
    ensures |b| == 6 * rx
    decreases rx
  {
    if rx == 0 then [] else Pairs(t, p, rx - 1) + Pair(t, p)
  }

  /** The first n samples from a phase on, every receiver the same. */
  function Samples(t: Tone, p: real, rx: nat, n: nat): (b: seq<Byte>)
    ensures |b| == Laps(n, Group(rx))
    decreases n
  {
    NextLap(n - 1, Group(rx));
    if n == 0 then []
    else Samples(t, p, rx, n - 1) + Pairs(t, PhaseAfter(t, p, n), rx) + [0, 0]
  }

  function Zeros(n: nat): (b: seq<Byte>)
    ensures |b| == n
  {
    seq(n, _ => 0)
  }

  /** A frame: sync, controls released, the samples, and zeros. */
  function Frame(t: Tone, p: real, rx: nat): (b: seq<Byte>)
    requires 1 <= rx <= 8
    ensures |b| == USB_FRAME
  {
    FrameFull(rx);
    var s := Samples(t, p, rx, SamplesPerFrame(rx));
    [SYNC, SYNC, SYNC, 0, 0, 0, 0, 0] + s + Zeros(USB_FRAME - 8 - |s|)
  }

  // ---------- reading it ----------

  /** Byte k of receiver r in sample s. */
  function At(rx: nat, s: nat, r: nat, k: nat): int {
    Laps(s, Group(rx)) + 6 * r + k
  }

  lemma AtWithin(rx: nat, s: nat, n: nat, r: nat, k: nat)
    requires s < n && r < rx && k < 6
    ensures 0 <= At(rx, s, r, k) < Laps(n, Group(rx))
  {
    hide Laps;
    NextLap(s, Group(rx));
    LapsApart(s + 1, n, Group(rx));
    LapsGrow(s, Group(rx));
    NoLaps(s, Group(rx));
  }

  lemma {:induction false} PairsAt(t: Tone, p: real, rx: nat, r: nat, k: nat)
    requires r < rx && k < 6
    ensures Pairs(t, p, rx)[6 * r + k] == Pair(t, p)[k]
    decreases rx
  {
    hide Pair;
    if r < rx - 1 {
      PairsAt(t, p, rx - 1, r, k);
    }
  }

  lemma {:induction false} SamplesAt(t: Tone, p: real, rx: nat, n: nat, s: nat, r: nat, k: nat)
    requires s < n && r < rx && k < 6
    ensures 0 <= At(rx, s, r, k) < Laps(n, Group(rx))
    ensures Samples(t, p, rx, n)[At(rx, s, r, k)] == Pair(t, PhaseAfter(t, p, s + 1))[k]
    decreases n
  {
    hide Laps, Pair, Pairs, PhaseAfter, Group;
    AtWithin(rx, s, n, r, k);
    if s < n - 1 {
      AtWithin(rx, s, n - 1, r, k);
      SamplesAt(t, p, rx, n - 1, s, r, k);
    } else {
      PairsAt(t, PhaseAfter(t, p, n), rx, r, k);
    }
  }

  /** The receiver's view of a frame: every receiver's left and right of every sample, the
      sine and the cosine of one unbroken phase, to a 24-bit code. */
  lemma FrameRead(t: Tone, p: real, rx: nat, s: nat, r: nat)
    requires 1 <= rx <= 8 && s < SamplesPerFrame(rx) && r < rx
    ensures var f, at := Frame(t, p, rx), 8 + At(rx, s, r, 0);
            && 8 <= at && at + 6 <= USB_FRAME && f[..3] == [SYNC, SYNC, SYNC] && f[3..8] == Zeros(5)
            && Get24(f[at], f[at + 1], f[at + 2]) == Code(0.4 * t.sin(PhaseAfter(t, p, s + 1)))
            && Get24(f[at + 3], f[at + 4], f[at + 5]) == Code(0.4 * t.cos(PhaseAfter(t, p, s + 1)))
  {
    hide Laps, Samples, PhaseAfter, Group, Code, Get24;
    FrameFull(rx);
    var n := SamplesPerFrame(rx);
    var x := PhaseAfter(t, p, s + 1);
    forall k | 0 <= k < 6
      ensures 0 <= At(rx, s, r, k) < Laps(n, Group(rx)) && Frame(t, p, rx)[8 + At(rx, s, r, k)] == Pair(t, x)[k]
    {
      SamplesAt(t, p, rx, n, s, r, k);
    }
    ReadBack(0.4 * t.sin(x));
    ReadBack(0.4 * t.cos(x));
    var at := 8 + At(rx, s, r, 0);
    assert forall k :: 0 <= k < 6 ==> At(rx, s, r, k) == At(rx, s, r, 0) + k;
    assert Frame(t, p, rx)[8 + At(rx, s, r, 5)] == Pair(t, x)[5];
    assert Frame(t, p, rx)[8 + At(rx, s, r, 4)] == Pair(t, x)[4];
    assert Frame(t, p, rx)[8 + At(rx, s, r, 3)] == Pair(t, x)[3];
    assert Frame(t, p, rx)[8 + At(rx, s, r, 2)] == Pair(t, x)[2];
    assert Frame(t, p, rx)[8 + At(rx, s, r, 1)] == Pair(t, x)[1];
  }

  // ---------- the board ----------

  /** A received datagram; local says whether its sender has an address of this host. */
  datatype Datagram = Datagram(local: bool, from: int, bytes: seq<Byte>)

  predicate IsPacket(m: Datagram, c: Byte) {
    |m.bytes| >= 3 && m.bytes[0] == 0xEF && m.bytes[1] == 0xFE && m.bytes[2] == c
  }

  /** A start or a stop that is obeyed. */
  predicate Obeyed(m: Datagram) {
    m.local && IsPacket(m, 4)
  }

  /** What the receive buffer holds in byte 3: of a shorter datagram, what it held before. */
  function Byte3(m: Datagram, held: Byte): Byte {
    if |m.bytes| >= 4 then m.bytes[3] else held
  }

  /** A command obeyed: a start or a stop. */
  datatype Command = Command(m: Datagram, start: bool)

  ghost predicate AllObeyed(heard: seq<Command>) {
    forall i :: 0 <= i < |heard| ==> Obeyed(heard[i].m)
  }

  lemma ObeyedNext(heard: seq<Command>, c: Command)
    requires AllObeyed(heard) && Obeyed(c.m)
    ensures AllObeyed(heard + [c])
  {
    hide Obeyed;
  }

  /** The receivers and the rate that a command set asks for. */
  predicate Framing(b: seq<Byte>, off: nat)
    requires off + 8 <= |b|
  {
    b[off] == b[off + 1] == b[off + 2] == SYNC && (b[off + 3] == 0 || b[off + 3] == 1)
  }

  function Receivers(c4: Byte): (rx: nat)
    ensures 1 <= rx <= 8
  {
    c4 / 8 % 8 + 1
  }

  function SampleRate(c1: Byte): nat {
    match c1 % 4
    case 0 => 48000
    case 1 => 96000
    case 2 => 192000
    case _ => 384000
  }

  datatype Framed = Framed(rx: nat, rate: nat)

  /** The framing after the command set at off, if the datagram holds one. */
  function LearnedAt(b: seq<Byte>, off: nat, f: Framed): Framed {
    if off + 8 <= |b| && Framing(b, off) then Framed(Receivers(b[off + 7]), SampleRate(b[off + 4])) else f
  }

  /** After both command sets of a packet, the second last. */
  function Learned(b: seq<Byte>, f: Framed): Framed {
    LearnedAt(b, 520, LearnedAt(b, 8, f))
  }

  /** A packet carries two frames. */
  function Interval(rx: nat, rate: nat, pace: real): (us: int)
    requires rate > 0
    ensures us >= 1
  {
    var x := 2.0 * SamplesPerFrame(rx) as real * 1000000.0 * pace / rate as real;
    var n := Trunc(x);
    if n < 1 then 1 else n
  }

  lemma FreshPaced(next: int, clock: int, interval: int)
    ensures Paced(Pacer(next, 0), next, clock, interval)
  {
    SpanNext(0, interval);
  }

  lemma ConsecutiveStart()
    ensures Consecutive([], 0)
  {}

  lemma LaterPaced(p: Pacer, t0: int, clock: int, later: int, interval: int)
    requires Paced(p, t0, clock, interval) && clock <= later
    ensures Paced(p, t0, later, interval)
  {}

  class Board {
    const sin: real -> real
    const cos: real -> real
    const toneHz: real
    const pace: real
    const pkt: array<Byte>
    var streaming: bool
    var peer: int
    var seqNo: nat
    var next: int
    var tonePhase: real
    var rx: nat
    var sampleRate: nat
    var clock: int
    /** Byte 3 of the receive buffer. */
    var rx3: Byte
    /** The starts and stops obeyed; the numbers put into packets since the last start; and
        since when at this interval, from which place in the log, and how many went out. */
    ghost var heard: seq<Command>
    ghost var log: seq<nat>
    ghost var since: int
    ghost var base: nat
    ghost var count: nat

    constructor (sin: real -> real, cos: real -> real, toneHz: real, pace: real, now: int, held: Byte)
      ensures Valid() && !streaming && heard == [] && clock == now && fresh(pkt)
    {
      this.sin, this.cos, this.toneHz, this.pace := sin, cos, toneHz, pace;
      pkt := new Byte[1032](_ => 0);
      streaming, peer, seqNo, next, tonePhase, rx, sampleRate, clock := false, 0, 0, 0, 0.0, 1, 48000, now;
      rx3, heard, log, since, base, count := held, [], [], 0, 0, 0;
    }

    function ToneNow(): Tone
      requires sampleRate > 0
      reads this`sampleRate
    {
      Tone(sin, cos, 2.0 * M_PI * toneHz / sampleRate as real)
    }

    function CurrentInterval(): (us: int)
      requires sampleRate > 0
      reads this`rx, this`sampleRate
      ensures us >= 1
    {
      Interval(rx, sampleRate, pace)
    }

    /** The last command obeyed was a start, from the peer. */
    ghost predicate Started()
      reads this`heard, this`peer
    {
      |heard| > 0 && heard[|heard| - 1].start && heard[|heard| - 1].m.from == peer
    }

    /** What streams was asked for last by a peer of this host, its packets are numbered from 0
        and never ahead of one an interval. */
    ghost predicate Valid()
      reads this`rx, this`sampleRate, this`heard, this`peer, this`streaming, this`seqNo, this`log, this`next,
            this`count, this`since, this`base, this`clock
    {
      Shaped() && Counted(if streaming then 0 else 1)
    }

    /** What was built since then is what went out and, once the stream has ended, at most one
        packet that was refused. */
    ghost predicate Counted(refused: nat)
      reads this`log, this`base, this`count
    {
      base + count <= |log| <= base + count + refused
    }

    ghost predicate Shaped()
      reads this`rx, this`sampleRate, this`heard, this`peer, this`streaming, this`seqNo, this`log, this`next,
            this`count, this`since, this`clock
    {
      && pkt.Length == 1032 && 1 <= rx <= 8 && sampleRate > 0
      && AllObeyed(heard)
      && (streaming ==> Started())
      && seqNo < 0x1_0000_0000 && Consecutive(log, seqNo)
      && Paced(Pacer(next, count), since, clock, CurrentInterval())
    }

    /** So at any time the packets built since the last start, or change of the interval, are
        at most one more than the whole intervals since, and one more if it was refused. */
    lemma NeverAhead()
      requires Valid()
      ensures |log| > base && streaming ==> since <= clock
      ensures since <= clock ==>
                |log| - base <= (clock - since) / CurrentInterval() + (if streaming then 1 else 2)
    {
      hide Interval, Consecutive, Obeyed, Span;
      if count > 0 {
        SpanNext(0, CurrentInterval());
        Grows(count - 1, 0, CurrentInterval());
      }
      if since <= clock {
        CountBounded(since, clock, CurrentInterval(), count);
      }
    }

    /** Time passes. */
    method Later(now: int)
      requires Valid() && now >= clock
      modifies this`clock
      ensures Valid() && clock == now
    {
      LaterPaced(Pacer(next, count), since, clock, now, CurrentInterval());
      clock := now;
    }

    method Receive(m: Datagram, now: int) returns (reply: bool)
      requires Valid() && now >= clock
      modifies this`clock, this`rx3, this`heard, this`peer, this`streaming, this`seqNo, this`next, this`log, this`since,
               this`base, this`count, this`rx, this`sampleRate
      ensures Valid() && clock == now && rx3 == Byte3(m, old(rx3))
      ensures reply <==> m.local && IsPacket(m, 2)
      ensures Framed(rx, sampleRate) == if IsPacket(m, 1) then Learned(m.bytes, old(Framed(rx, sampleRate)))
                                        else old(Framed(rx, sampleRate))
      ensures heard == old(heard) + if Obeyed(m) then [Command(m, rx3 != 0)] else []
      ensures if Obeyed(m) && rx3 != 0 then
                streaming && peer == m.from && log == [] && next == since == now && base == count == 0
              else
                && log == old(log) && peer == old(peer) && next == old(next)
                && (streaming <==> old(streaming) && !Obeyed(m))
    {
      hide Board.Valid, Learned;
      reply := false;
      Later(now);
      rx3 := Byte3(m, rx3);
      if |m.bytes| >= 3 && m.bytes[0] == 0xEF && m.bytes[1] == 0xFE {
        if m.bytes[2] == 2 {
          reply := m.local;
        } else if Obeyed(m) {
          Obey(m, now);
        } else if m.bytes[2] == 1 {
          Learn(m.bytes);
        }
      }
    }

    /** A start begins the numbers again; a stop only stops. */
    method Obey(m: Datagram, now: int)
      requires Valid() && Obeyed(m) && clock == now
      modifies this`heard, this`peer, this`streaming, this`seqNo, this`next, this`log, this`since, this`base,
               this`count
      ensures Valid() && heard == old(heard) + [Command(m, rx3 != 0)] && streaming == (rx3 != 0)
      ensures streaming ==> peer == m.from && log == [] && next == since == now && base == count == 0
      ensures !streaming ==> log == old(log) && peer == old(peer) && next == old(next)
    {
      hide Interval, Paced, Consecutive, Obeyed, AllObeyed;
      ObeyedNext(heard, Command(m, rx3 != 0));
      heard := heard + [Command(m, rx3 != 0)];
      if rx3 != 0 {
        peer, streaming := m.from, true;
        Begin(now);
      } else {
        streaming := false;
      }
    }

    /** The numbers and the account begin again. */
    method Begin(now: int)
      requires clock == now && 1 <= rx <= 8 && sampleRate > 0
      modifies this`seqNo, this`next, this`log, this`since, this`base, this`count
      ensures log == [] && next == since == now && base == count == 0
      ensures seqNo == 0 && Consecutive(log, seqNo) && Paced(Pacer(next, count), since, clock, CurrentInterval())
    {
      hide Interval, Paced, Consecutive;
      ConsecutiveStart();
      FreshPaced(now, now, CurrentInterval());
      seqNo, next := 0, now;
      log, since, base, count := [], now, 0, 0;
    }

    /** The framing of the command stream, from either of a packet's two frames. */
    method Learn(b: seq<Byte>)
      requires Valid()
      modifies this`rx, this`sampleRate, this`since, this`base, this`count
      ensures Valid() && log == old(log)
      ensures Framed(rx, sampleRate) == Learned(b, old(Framed(rx, sampleRate)))
    {
      hide Interval, Paced, SamplesPerFrame;
      ghost var before := CurrentInterval();
      var off := 8;
      while off + 8 <= |b| && off <= 520
        invariant off == 8 || off == 520 || off == 1032
        invariant 1 <= rx <= 8 && sampleRate > 0 && since == old(since) && base == old(base) && count == old(count)
        invariant var f := old(Framed(rx, sampleRate));
                  Framed(rx, sampleRate) == if off == 8 then f
                                            else if off == 520 then LearnedAt(b, 8, f) else Learned(b, f)
      {
        if Framing(b, off) {
          rx, sampleRate := Receivers(b[off + 7]), SampleRate(b[off + 4]);
        }
        off := off + 512;
      }
      if CurrentInterval() != before {
        FreshPaced(next, clock, CurrentInterval());
        since, base, count := next, |log|, 0;
      }
    }

    /** One USB frame in place: cleared, then written from the sync bytes on. */
    method BuildFrame(at: nat)
      requires 1 <= rx <= 8 && sampleRate > 0 && pkt.Length == 1032 && at + USB_FRAME <= 1032
      modifies pkt, this`tonePhase
      ensures pkt[..] == old(pkt[..at]) + Frame(ToneNow(), old(tonePhase), rx) + old(pkt[at + USB_FRAME..])
      ensures tonePhase == PhaseAfter(ToneNow(), old(tonePhase), SamplesPerFrame(rx))
    {
      hide Samples, Group, Laps, Pairs, Pair, PhaseAfter, SamplesPerFrame, Zeros, Written, Turned;
      FrameFull(rx);
      var t, n := ToneNow(), SamplesPerFrame(rx);
      ghost var p, before, after := tonePhase, pkt[..at], pkt[at + USB_FRAME..];
      ghost var out: seq<Byte> := [SYNC, SYNC, SYNC, 0, 0, 0, 0, 0];
      Clear(at);
      NoSamples(t, p, rx);
      var off, s := 8, 0;
      while s < n
        invariant s <= n && tonePhase == PhaseAfter(t, p, s)
        invariant out == [SYNC, SYNC, SYNC, 0, 0, 0, 0, 0] + Samples(t, p, rx, s)
        invariant off == |out| && pkt[..] == Written(before, out, after)
      {
        OneSample(t, p, rx, s);
        SampleFits(rx, s, n);
        tonePhase := Turned(tonePhase + t.dphi);
        ghost var had := out;
        NoPairs(t, tonePhase, had);
        var r := 0;
        while r < rx
          invariant r <= rx && out == had + Pairs(t, tonePhase, r) && tonePhase == PhaseAfter(t, p, s + 1)
          invariant off == |out| && pkt[..] == Written(before, out, after)
        {
          OnePair(t, tonePhase, r, had);
          PutPair(at + off, tonePhase, t);
          WrittenMore(before, out, after, Pair(t, tonePhase), pkt[..]);
          out := out + Pair(t, tonePhase);
          off := off + 6;
          r := r + 1;
        }
        WrittenZeros(before, out, after);
        out := out + [0, 0];
        off := off + 2;
        s := s + 1;
      }
      Done(before, out, after);
    }

    /** One packet: the header with the next number, and two frames of one unbroken tone. A
        packet that went out moves the due time; a refused one ends the stream. */
    method Send(t: int, refused: bool)
      requires Valid() && streaming && t == clock && t >= next
      modifies this`tonePhase, this`log, this`seqNo, this`streaming, this`next, this`count, pkt
      ensures Valid() && old(seqNo) < 0x1_0000_0000 && 1 <= rx <= 8 && sampleRate > 0
      ensures var n, p := SamplesPerFrame(rx), old(tonePhase);
              && pkt[..] == [0xEF, 0xFE, 1, 6] + Be32(old(seqNo)) + Frame(ToneNow(), p, rx)
                            + Frame(ToneNow(), PhaseAfter(ToneNow(), p, n), rx)
              && tonePhase == PhaseAfter(ToneNow(), PhaseAfter(ToneNow(), p, n), n)
      ensures log == old(log) + [old(seqNo)] && streaming == !refused
      ensures if streaming then Pacer(next, count) == Sent(old(Pacer(next, count)), t, CurrentInterval())
              else next == old(next) && count == old(count)
    {
      hide Frame, Be32, Interval, Paced, SamplesPerFrame, PhaseAfter, Consecutive, Obeyed;
      ConsecutiveNext(log, seqNo);
      Package();
      log, seqNo := log + [seqNo], (seqNo + 1) % 0x1_0000_0000;
      Move(t, refused);
    }

    method Package()
      requires 1 <= rx <= 8 && sampleRate > 0 && pkt.Length == 1032 && seqNo < 0x1_0000_0000
      modifies pkt, this`tonePhase
      ensures var n, p := SamplesPerFrame(rx), old(tonePhase);
              && pkt[..] == [0xEF, 0xFE, 1, 6] + Be32(seqNo) + Frame(ToneNow(), p, rx)
                            + Frame(ToneNow(), PhaseAfter(ToneNow(), p, n), rx)
              && tonePhase == PhaseAfter(ToneNow(), PhaseAfter(ToneNow(), p, n), n)
    {
      hide Frame, Be32, SamplesPerFrame, PhaseAfter;
      ghost var p, t := tonePhase, ToneNow();
      Header();
      ghost var head := pkt[..8];
      BuildFrame(8);
      assert pkt[..520] == head + Frame(t, p, rx);
      BuildFrame(520);
      assert pkt[1032..] == [];
    }

    method Header()
      requires pkt.Length == 1032 && seqNo < 0x1_0000_0000
      modifies pkt
      ensures pkt[..8] == [0xEF, 0xFE, 1, 6] + Be32(seqNo)
    {
      hide Be32;
      var b := Be32(seqNo);
      pkt[0], pkt[1], pkt[2], pkt[3] := 0xEF, 0xFE, 1, 6;
      pkt[4], pkt[5], pkt[6], pkt[7] := b[0], b[1], b[2], b[3];
    }

    method Move(t: int, refused: bool)
      requires Shaped() && streaming && t == clock && t >= next && |log| == base + count + 1
      modifies this`streaming, this`next, this`count
      ensures Valid() && streaming == !refused
      ensures if streaming then Pacer(next, count) == Sent(old(Pacer(next, count)), t, CurrentInterval())
              else next == old(next) && count == old(count)
    {
      hide Interval, Span, Consecutive, Obeyed;
      if refused {
        streaming := false;
      } else {
        SpanNext(count, CurrentInterval());
        next, count := next + CurrentInterval(), count + 1;
        if t - next > RESYNC {
          next := t;
        }
      }
    }

    /** The stream in one turn of the main loop, with the answers to its sends: what is due, at
        most 32 packets, and nothing unless it was started; it ends exactly when a send is
        refused. */
    method Tick(t: int, gone: nat -> bool) returns (ghost tried: nat)
      requires Valid() && t >= clock
      modifies this`clock, this`tonePhase, this`log, this`seqNo, this`streaming, this`next, this`count, pkt
      ensures Valid() && clock == t && sampleRate > 0
      ensures old(log) <= log && |log| == |old(log)| + tried && tried <= 32
      ensures old(streaming) ==> Started() && Obeyed(heard[|heard| - 1].m)
      ensures !old(streaming) ==> tried == 0 && !streaming
      ensures Tried(gone, 0, tried, old(streaming) && !streaming)
      ensures streaming ==> Pacer(next, count) == Pacing.Tick(old(Pacer(next, count)), t, CurrentInterval(), 32)
    {
      hide Interval, Paced, Frame, Be32, SamplesPerFrame, PhaseAfter, Obeyed, AllObeyed, Consecutive;
      hide Tried, Pacing.Tick;
      tried := 0;
      TriedNone(gone, 0);
      Licence();
      Later(t);
      if !streaming {
        return;
      }
      var budget, k: nat := 32, 0;
      ghost var p := Pacer(next, count);
      while streaming && t >= next && budget > 0
        invariant Valid() && Started() && clock == t
        invariant 0 <= budget <= 32 && k == 32 - budget && old(log) <= log && |log| == |old(log)| + k
        invariant Tried(gone, 0, k, !streaming)
        invariant streaming ==> Pacing.Tick(Pacer(next, count), t, CurrentInterval(), budget)
                                == Pacing.Tick(p, t, CurrentInterval(), 32)
        decreases budget
      {
        TickStep(Pacer(next, count), t, CurrentInterval(), budget);
        budget := budget - 1;
        TriedMore(gone, 0, k);
        Send(t, gone(k));
        k := k + 1;
      }
      if streaming {
        TickStep(Pacer(next, count), t, CurrentInterval(), budget);
      }
      tried := k;
    }

    lemma Licence()
      requires Valid()
      ensures streaming ==> Obeyed(heard[|heard| - 1].m)
    {
      hide Obeyed;
    }

    method Clear(at: nat)
      requires pkt.Length == 1032 && at + USB_FRAME <= 1032
      modifies pkt
      ensures pkt[..] == Written(old(pkt[..at]), [SYNC, SYNC, SYNC, 0, 0, 0, 0, 0], old(pkt[at + USB_FRAME..]))
    {
      forall k | at <= k < at + USB_FRAME {
        pkt[k] := if k < at + 3 then SYNC else 0;
      }
    }

    /** The two values of one receiver. */
    method PutPair(at: nat, p: real, t: Tone)
      requires pkt.Length == 1032 && at + 6 <= 1032
      modifies pkt
      ensures pkt[..] == old(pkt[..at]) + Pair(t, p) + old(pkt[at + 6..])
    {
      var b := Pair(t, p);
      forall k | 0 <= k < 6 {
        pkt[at + k] := b[k];
      }
    }
  }

  /** A packet in which a frame is written so far, with zeros to its end. */
  ghost function Written(before: seq<Byte>, out: seq<Byte>, after: seq<Byte>): seq<Byte> {
    before + out + (if |out| <= USB_FRAME then Zeros(USB_FRAME - |out|) else []) + after
  }

  lemma WrittenMore(before: seq<Byte>, out: seq<Byte>, after: seq<Byte>, b: seq<Byte>, r: seq<Byte>)
    requires |out| + |b| <= USB_FRAME
    requires var w, at := Written(before, out, after), |before| + |out|; r == w[..at] + b + w[at + |b|..]
    ensures r == Written(before, out + b, after)
  {}

  lemma WrittenZeros(before: seq<Byte>, out: seq<Byte>, after: seq<Byte>)
    requires |out| + 2 <= USB_FRAME
    ensures Written(before, out, after) == Written(before, out + [0, 0], after)
  {}

  lemma Done(before: seq<Byte>, out: seq<Byte>, after: seq<Byte>)
    requires |out| <= USB_FRAME
    ensures Written(before, out, after) == before + (out + Zeros(USB_FRAME - |out|)) + after
  {}

  /** A sample before the last fits whole. */
  lemma SampleFits(rx: nat, s: nat, n: nat)
    requires 1 <= rx <= 8 && s < n == SamplesPerFrame(rx)
    ensures 8 + Laps(s, Group(rx)) + 6 * rx + 2 <= USB_FRAME
  {
    hide Laps, SamplesPerFrame;
    FrameFull(rx);
    NextLap(s, Group(rx));
    LapsApart(s + 1, n, Group(rx));
  }

  lemma NoSamples(t: Tone, p: real, rx: nat)
    ensures Samples(t, p, rx, 0) == [] && PhaseAfter(t, p, 0) == p
  {}

  lemma OneSample(t: Tone, p: real, rx: nat, n: nat)
    ensures Samples(t, p, rx, n + 1) == Samples(t, p, rx, n) + Pairs(t, PhaseAfter(t, p, n + 1), rx) + [0, 0]
    ensures PhaseAfter(t, p, n + 1) == Turned(PhaseAfter(t, p, n) + t.dphi)
  {}

  lemma NoPairs(t: Tone, p: real, had: seq<Byte>)
    ensures had + Pairs(t, p, 0) == had
  {}

  lemma OnePair(t: Tone, p: real, r: nat, had: seq<Byte>)
    ensures had + Pairs(t, p, r + 1) == had + Pairs(t, p, r) + Pair(t, p)
  {}
}
