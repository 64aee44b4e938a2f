/** The DDC I/Q packets of p2_emu.c. */
module P2Packet {
  import opened Pcm24

  const MAX_DDC := 8
  const IQ_PKT_BYTES := 1444
  const IQ_SAMPLES := 238
  const M_PI := 3.141592653589793

  /** The options, the library functions and the noise source. */
  datatype Options = Options(sin: real -> real, cos: real -> real, step: int -> int, value: int -> real,
                             toneHz: real, toneStep: real, amp: real, noise: real,
                             diversity: bool, divAmp: real, divPhase: real)

  // ---------- which DDC rides on which ----------

  /** The first DDC from d on, other than ddc, in its sync register, or -1. */
  function FollowerFrom(sync: set<nat>, ddc: nat, d: nat): (f: int)
    requires d <= MAX_DDC
    ensures f == -1 <==> forall e :: d <= e < MAX_DDC && e in sync ==> e == ddc
    ensures f != -1 ==> d <= f < MAX_DDC && f as nat in sync && f != ddc
    ensures f != -1 ==> forall e: nat :: d <= e < f && e in sync ==> e == ddc
    decreases MAX_DDC - d
  {
    if d == MAX_DDC then -1
    else if d in sync && d != ddc then d
    else FollowerFrom(sync, ddc, d + 1)
  }

  function Follower(sync: set<nat>, ddc: nat): int {
    FollowerFrom(sync, ddc, 0)
  }

  function Streams(sync: set<nat>, ddc: nat): (r: seq<nat>)
    ensures 1 <= |r| <= 2 && r[0] == ddc
  {
    var f := Follower(sync, ddc);
    if f >= 0 then [ddc, f] else [ddc]
  }

  // ---------- the signal ----------

  function Turned(ph: real): real {
    var p := if ph > M_PI then ph - 2.0 * M_PI else ph;
    if p < -M_PI then p + 2.0 * M_PI else p
  }

  /** A phase after n samples. */
  function PhaseAfter(p: real, dphi: real, n: nat): real
    decreases n
  {
    if n == 0 then p else Turned(PhaseAfter(p, dphi, n - 1) + dphi)
  }

  /** The noise source after n draws. */
  function Drawn(o: Options, rng: int, n: nat): int
    decreases n
  {
    if n == 0 then rng else o.step(Drawn(o, rng, n - 1))
  }

  function Rate(rate: int): int {
    if rate > 0 then rate else 192000
  }

  function Dphi(o: Options, d: nat, rate: int): real {
    2.0 * M_PI * (o.toneHz + (if o.diversity then 0.0 else o.toneStep * d as real)) / Rate(rate) as real
  }

  function Amp(o: Options, adc: int): real {
    if o.diversity && adc != 0 then (if o.divAmp > 1.0 then 1.0 else o.divAmp) else o.amp
  }

  function Offset(o: Options, adc: int): real {
    if o.diversity && adc != 0 then o.divPhase * M_PI / 180.0 else 0.0
  }

  function Level(amp: real, tone: real, noise: real, draw: real): real {
    amp * tone + noise * draw
  }

  /** What a packet is made from. */
  datatype Setup = Setup(o: Options, streams: seq<nat>, rate: int, adc: seq<int>, phase: seq<real>, rng: int)
  {
    ghost predicate Valid() {
      && 1 <= |streams| <= 2 && (forall s :: 0 <= s < |streams| ==> streams[s] < MAX_DDC)
      && (|streams| == 2 ==> streams[0] != streams[1])
      && |adc| == MAX_DDC && |phase| == MAX_DDC
    }

    /** The place of sample i of stream s in the packet. */
    function Place(i: nat, s: nat): nat {
      if |streams| == 1 then i + s else 2 * i + s
    }

    function Base(s: nat): nat
      requires Valid() && s < |streams|
    {
      if o.diversity then streams[0] else streams[s]
    }

    /** The phase of sample i of stream s: its own DDC's ramp, or for a coherent pair the
        base DDC's. */
    function Angle(i: nat, s: nat): real
      requires Valid() && s < |streams|
    {
      PhaseAfter(phase[Base(s)], Dphi(o, Base(s), rate), i + 1)
    }

    /** The phases once the first stream's ramp has advanced n0 samples and the second's n1. */
    function Ramped(n0: nat, n1: nat): (p: seq<real>)
      requires Valid()
      ensures |p| == MAX_DDC
    {
      var p := phase[streams[0] := PhaseAfter(phase[streams[0]], Dphi(o, streams[0], rate), n0)];
      if |streams| == 2 && !o.diversity then
        p[streams[1] := PhaseAfter(phase[streams[1]], Dphi(o, streams[1], rate), n1)]
      else p
    }

    /** The phases when sample i of stream s is about to be made. */
    function Before(i: nat, s: nat): seq<real>
      requires Valid()
    {
      Ramped(if o.diversity || s >= 1 then i + 1 else i, if s >= 2 then i + 1 else i)
    }

    /** The left (channel 0) and right (channel 1) value of sample i of stream s. */
    function Sample(i: nat, s: nat, channel: nat): real
      requires Valid() && s < |streams|
    {
      var d := streams[s];
      var x := Angle(i, s) + Offset(o, adc[d]);
      Level(Amp(o, adc[d]), if channel == 0 then o.sin(x) else o.cos(x),
            o.noise, o.value(Drawn(o, rng, 2 * Place(i, s) + channel + 1)))
    }

    function PerStream(): nat
      requires Valid()
    {
      IQ_SAMPLES / |streams|
    }

    /** The value at place j of the packet, counting left and right apart. */
    function At(j: nat): real
      requires Valid()
    {
      if |streams| == 1 then Sample(j / 2, 0, j % 2) else Sample(j / 4, j / 2 % 2, j % 2)
    }
  }

  lemma PlacesFill(u: Setup)
    requires u.Valid()
    ensures u.PerStream() * |u.streams| == IQ_SAMPLES && 16 + 6 * IQ_SAMPLES == IQ_PKT_BYTES
  {}

  /** The receiver's view: sample i of stream s, a channel of it. */
  function Read(pkt: seq<Byte>, nstreams: nat, i: nat, s: nat, channel: nat): int
    requires |pkt| == IQ_PKT_BYTES && 1 <= nstreams <= 2 && s < nstreams && channel < 2 && i < IQ_SAMPLES / nstreams
  {
    var at := 16 + 6 * (if nstreams == 1 then i else 2 * i + s) + 3 * channel;
    Get24(pkt[at], pkt[at + 1], pkt[at + 2])
  }

  /** The sample at place j of a packet. */
  ghost predicate Carries(pkt: seq<Byte>, j: nat, v: real)
    requires |pkt| == IQ_PKT_BYTES && j < 2 * IQ_SAMPLES
  {
    Get24(pkt[16 + 3 * j], pkt[17 + 3 * j], pkt[18 + 3 * j]) == Code(v)
  }

  /** The first n values of the packet are there. */
  ghost predicate CarriesTo(pkt: seq<Byte>, u: Setup, n: nat)
    requires |pkt| == IQ_PKT_BYTES && n <= 2 * IQ_SAMPLES && u.Valid()
  {
    forall j :: 0 <= j < n ==> Carries(pkt, j, u.At(j))
  }

  /** A packet with this number and time stamp, and all its samples. */
  ghost predicate Built(pkt: seq<Byte>, number: nat, stamp: nat, u: Setup)
    requires u.Valid() && number < 0x1_0000_0000 && stamp < 0x1_0000_0000_0000_0000
  {
    && |pkt| == IQ_PKT_BYTES && pkt[..4] == Be32(number) && pkt[4..12] == Be64(stamp)
    && pkt[12..16] == [0, 24, 0, IQ_SAMPLES] && CarriesTo(pkt, u, 2 * IQ_SAMPLES)
  }

  /** Walking the packet two samples at a time, or one, gives each stream back in order. */
  lemma Deinterleaved(u: Setup, pkt: seq<Byte>, i: nat, s: nat, channel: nat)
    requires u.Valid() && |pkt| == IQ_PKT_BYTES && s < |u.streams| && channel < 2 && i < u.PerStream()
    requires CarriesTo(pkt, u, 2 * IQ_SAMPLES)
    ensures Read(pkt, |u.streams|, i, s, channel) == Code(u.Sample(i, s, channel))
  {
    hide Setup.Sample, Code, Get24;
    var j := 2 * u.Place(i, s) + channel;
    assert Carries(pkt, j, u.At(j));
    Halves(i, channel);
    Quarters(i, s, channel);
  }

  /** The samples protocol2.c takes from a packet: the count it names, as far as they fit. */
  function IqSamples(bytes: nat, pkt: seq<Byte>): nat
    requires |pkt| == IQ_PKT_BYTES
  {
    var n: int := pkt[14] as int * 256 + pkt[15] as int;
    if bytes < 16 + 6 then 0 else if n > (bytes - 16) / 6 then (bytes - 16) / 6 else n
  }

  /** They are inside the packet, and as many of the count as that allows. */
  lemma IqSamplesFit(bytes: nat, pkt: seq<Byte>)
    requires |pkt| == IQ_PKT_BYTES
    ensures var n, count := IqSamples(bytes, pkt), pkt[14] as int * 256 + pkt[15] as int;
            && n <= count && (n > 0 ==> 16 + 6 * n <= bytes)
            && (n < count ==> 16 + 6 * (n + 1) > bytes)
  {}

  /** Number and time stamp read back from the header, and every sample of it is taken. */
  lemma HeaderReadBack(pkt: seq<Byte>, number: nat, stamp: nat)
    requires |pkt| == IQ_PKT_BYTES && number < 0x1_0000_0000 && stamp < 0x1_0000_0000_0000_0000
    requires pkt[..4] == Be32(number) && pkt[4..12] == Be64(stamp) && pkt[12..16] == [0, 24, 0, IQ_SAMPLES]
    ensures Read32(pkt[..4]) == number && Read64(pkt[4..12]) == stamp
    ensures IqSamples(IQ_PKT_BYTES, pkt) == IQ_SAMPLES
  {
    hide Be32, Be64, Read32, Read64;
    Be32ReadBack(number);
    Be64ReadBack(stamp);
    assert pkt[12..16][2] == pkt[14] && pkt[12..16][3] == pkt[15];
  }

  // ---------- the board's DDCs ----------

  class Ddcs {
    const o: Options
    var sync: seq<set<nat>>
    var rate: seq<int>
    var adc: seq<int>
    var phase: seq<real>
    var seqNo: seq<nat>
    var stamp: seq<nat>
    var rng: int

    constructor (o: Options, rng: int)
      ensures Valid() && this.o == o
      ensures forall d :: 0 <= d < MAX_DDC ==> sync[d] == {} && rate[d] == 192000 && seqNo[d] == stamp[d] == 0
    {
      this.o, this.rng := o, rng;
      sync, rate, adc := seq(MAX_DDC, _ => {}), seq(MAX_DDC, _ => 192000), seq(MAX_DDC, _ => 0);
      phase, seqNo, stamp := seq(MAX_DDC, _ => 0.0), seq(MAX_DDC, _ => 0), seq(MAX_DDC, _ => 0);
    }

    ghost predicate Valid()
      reads this
    {
      && |sync| == |rate| == |adc| == |phase| == |seqNo| == |stamp| == MAX_DDC
      && (forall d :: 0 <= d < MAX_DDC ==> seqNo[d] < 0x1_0000_0000)
      && (forall d :: 0 <= d < MAX_DDC ==> stamp[d] < 0x1_0000_0000_0000_0000)
    }

    ghost function SetupOf(ddc: nat): (u: Setup)
      requires Valid() && ddc < MAX_DDC
      reads this
      ensures u.Valid()
    {
      Setup(o, Streams(sync[ddc], ddc), rate[ddc], adc, phase, rng)
    }

    /** sync_follower: a search over the register's bits. */
    method SyncFollower(ddc: nat) returns (f: int)
      requires Valid() && ddc < MAX_DDC
      ensures f == Follower(sync[ddc], ddc)
    {
      var d := 0;
      while d < MAX_DDC
        invariant d <= MAX_DDC && Follower(sync[ddc], ddc) == FollowerFrom(sync[ddc], ddc, d)
      {
        if d in sync[ddc] && d != ddc {
          return d;
        }
        d := d + 1;
      }
      return -1;
    }

    /** Three bytes of the packet. */
    method PutSample(pkt: array<Byte>, j: nat, v: real)
      requires pkt.Length == IQ_PKT_BYTES && j < 2 * IQ_SAMPLES
      modifies pkt
      ensures Carries(pkt[..], j, v) && SameBut(old(pkt[..]), pkt[..], j)
    {
      hide Code;
      CodeInRange(v);
      BytesOf(Code(v));
      var s := Code(v);
      pkt[16 + 3 * j] := s / 65536 % 256;
      pkt[17 + 3 * j] := s / 256 % 256;
      pkt[18 + 3 * j] := s % 256;
    }

    /** One sample of one stream: its phase, and left and right with a draw of noise each. */
    method PutPair(pkt: array<Byte>, ghost u: Setup, streams: seq<nat>, i: nat, s: nat)
      requires Valid() && u.Valid() && u.o == o && u.adc == adc && u.streams == streams && u.rate == rate[streams[0]]
      requires pkt.Length == IQ_PKT_BYTES && s < |streams| && i < u.PerStream()
      requires phase == u.Before(i, s) && rng == Drawn(o, u.rng, 2 * u.Place(i, s))
      requires CarriesTo(pkt[..], u, 2 * u.Place(i, s))
      modifies pkt, this`rng, this`phase
      ensures Valid() && phase == u.Before(i, s + 1) && rng == Drawn(o, u.rng, 2 * u.Place(i, s) + 2)
      ensures pkt[..16] == old(pkt[..16])
      ensures CarriesTo(pkt[..], u, 2 * u.Place(i, s) + 2)
    {
      hide Dphi, Amp, Offset, Level, Setup.Sample, Setup.Ramped, Setup.Before, Setup.Angle;
      hide Turned, CarriesTo, PhaseAfter, Setup.At, Drawn;
      RampStep(u, i, s);
      var d, ddc := streams[s], streams[0];
      if !o.diversity {
        phase := phase[d := Turned(phase[d] + Dphi(o, d, rate[ddc]))];
      }
      var x := phase[if o.diversity then ddc else d] + Offset(o, adc[d]);
      ghost var r := rng;
      rng := o.step(rng);
      var left := Level(Amp(o, adc[d]), o.sin(x), o.noise, o.value(rng));
      rng := o.step(rng);
      var right := Level(Amp(o, adc[d]), o.cos(x), o.noise, o.value(rng));
      var j: nat := if |streams| == 1 then 2 * i else 4 * i + 2 * s;
      Drawing(o, u.rng, j);
      PairAt(u, i, s);
      PairValues(u, i, s, x);
      PutBoth(pkt, u, j, left, right);
    }

    /** build_iq_packet: sequence number, time stamp, 24 bits, the sample count, and the
        streams sample by sample. */
    method Build(pkt: array<Byte>, ddc: nat)
      requires Valid() && ddc < MAX_DDC && pkt.Length == IQ_PKT_BYTES
      modifies pkt, this`seqNo, this`stamp, this`phase, this`rng
      ensures Valid()
      ensures var u := old(SetupOf(ddc));
              && pkt[..4] == Be32(old(seqNo[ddc])) && pkt[4..12] == Be64(old(stamp[ddc]))
              && pkt[12..16] == [0, 24, 0, IQ_SAMPLES]
              && CarriesTo(pkt[..], u, 2 * IQ_SAMPLES)
              && seqNo == old(seqNo)[ddc := (old(seqNo[ddc]) + 1) % 0x1_0000_0000]
              && stamp == old(stamp)[ddc := (old(stamp[ddc]) + u.PerStream()) % 0x1_0000_0000_0000_0000]
              && phase == u.Ramped(u.PerStream(), u.PerStream())
              && rng == Drawn(o, u.rng, 2 * IQ_SAMPLES)
    {
      hide Setup.Ramped, Setup.Before, CarriesTo, Drawn, Be32, Be64;
      ghost var u := SetupOf(ddc);
      var follower := SyncFollower(ddc);
      var streams := if follower >= 0 then [ddc, follower] else [ddc];
      var nper := IQ_SAMPLES / |streams|;
      var total := nper * |streams|;
      PlacesFill(u);
      Header(pkt, ddc, total);
      seqNo := seqNo[ddc := (seqNo[ddc] + 1) % 0x1_0000_0000];
      stamp := stamp[ddc := (stamp[ddc] + nper) % 0x1_0000_0000_0000_0000];
      ghost var head := pkt[..];
      Fill(pkt, u, streams, nper);
      HeaderStays(head, pkt[..]);
    }

    /** The two loops over samples and streams. */
    method Fill(pkt: array<Byte>, ghost u: Setup, streams: seq<nat>, nper: nat)
      requires Valid() && u.Valid() && u.o == o && u.adc == adc && u.streams == streams && u.rate == rate[streams[0]]
      requires pkt.Length == IQ_PKT_BYTES && nper == u.PerStream() && phase == u.phase && rng == u.rng
      modifies pkt, this`phase, this`rng
      ensures Valid() && pkt[..16] == old(pkt[..16]) && CarriesTo(pkt[..], u, 2 * IQ_SAMPLES)
      ensures phase == u.Ramped(nper, nper) && rng == Drawn(o, u.rng, 2 * IQ_SAMPLES)
    {
      hide Setup.Ramped, Setup.Before, CarriesTo, Drawn, Dphi, Turned;
      var ddc := streams[0];
      ghost var head := pkt[..16];
      PlacesFill(u);
      PacketStart(pkt[..], u);
      var i := 0;
      while i < nper
        invariant i <= nper && Valid() && pkt[..16] == head
        invariant phase == u.Ramped(i, i) && rng == Drawn(o, u.rng, 2 * u.Place(i, 0))
        invariant CarriesTo(pkt[..], u, 2 * u.Place(i, 0))
      {
        RampTurns(u, i);
        var s := 0;
        if o.diversity {
          phase := phase[ddc := Turned(phase[ddc] + Dphi(o, ddc, rate[ddc]))];
        }
        while s < |streams|
          invariant s <= |streams| && Valid() && pkt[..16] == head
          invariant phase == u.Before(i, s) && rng == Drawn(o, u.rng, 2 * u.Place(i, s))
          invariant CarriesTo(pkt[..], u, 2 * u.Place(i, s))
        {
          PutPair(pkt, u, streams, i, s);
          s := s + 1;
        }
        i := i + 1;
      }
    }

    method Header(pkt: array<Byte>, ddc: nat, total: nat)
      requires Valid() && ddc < MAX_DDC && pkt.Length == IQ_PKT_BYTES && total == IQ_SAMPLES
      modifies pkt
      ensures pkt[..4] == Be32(seqNo[ddc]) && pkt[4..12] == Be64(stamp[ddc])
      ensures pkt[12..16] == [0, 24, 0, IQ_SAMPLES]
    {
      hide Be32, Be64;
      var a, b := Be32(seqNo[ddc]), Be64(stamp[ddc]);
      forall k | 0 <= k < pkt.Length {
        pkt[k] := if k < 4 then a[k] else if k < 12 then b[k - 4] else if k == 13 then 24
                  else if k == 14 then total / 256 else if k == 15 then total % 256 else 0;
      }
    }

    method PutBoth(pkt: array<Byte>, ghost u: Setup, j: nat, left: real, right: real)
      requires u.Valid() && pkt.Length == IQ_PKT_BYTES && j + 2 <= 2 * IQ_SAMPLES
      requires left == u.At(j) && right == u.At(j + 1) && CarriesTo(pkt[..], u, j)
      modifies pkt
      ensures pkt[..16] == old(pkt[..16]) && CarriesTo(pkt[..], u, j + 2)
    {
      hide CarriesTo, Carries, SameBut, Setup.At;
      PutSample(pkt, j, left);
      CarriesNext(old(pkt[..]), pkt[..], j, u);
      ghost var mid := pkt[..];
      PutSample(pkt, j + 1, right);
      CarriesNext(mid, pkt[..], j + 1, u);
    }
  }

  /** Only the bytes of value j differ. */
  ghost predicate SameBut(before: seq<Byte>, after: seq<Byte>, j: nat)
    requires |before| == |after| == IQ_PKT_BYTES
  {
    forall k :: 0 <= k < IQ_PKT_BYTES && !(16 + 3 * j <= k < 19 + 3 * j) ==> before[k] == after[k]
  }

  lemma Drawing(o: Options, rng: int, n: nat)
    ensures o.step(Drawn(o, rng, n)) == Drawn(o, rng, n + 1)
    ensures o.step(o.step(Drawn(o, rng, n))) == Drawn(o, rng, n + 2)
  {}

  /** The two values of a pair sit side by side. */
  lemma PairAt(u: Setup, i: nat, s: nat)
    requires u.Valid() && s < |u.streams|
    ensures var j := 2 * u.Place(i, s);
            u.At(j) == u.Sample(i, s, 0) && u.At(j + 1) == u.Sample(i, s, 1)
            && j == if |u.streams| == 1 then 2 * i else 4 * i + 2 * s
  {
    hide Setup.Sample;
    Quarters(i, s, 0);
    Quarters(i, s, 1);
    Halves(i, 0);
    Halves(i, 1);
  }

  lemma PairValues(u: Setup, i: nat, s: nat, x: real)
    requires u.Valid() && s < |u.streams| && x == u.Angle(i, s) + Offset(u.o, u.adc[u.streams[s]])
    ensures var amp, n := Amp(u.o, u.adc[u.streams[s]]), 2 * u.Place(i, s);
            && u.Sample(i, s, 0) == Level(amp, u.o.sin(x), u.o.noise, u.o.value(Drawn(u.o, u.rng, n + 1)))
            && u.Sample(i, s, 1) == Level(amp, u.o.cos(x), u.o.noise, u.o.value(Drawn(u.o, u.rng, n + 2)))
  {
    hide Level, Drawn, Amp, Offset, Setup.Angle;
  }

  lemma Quarters(i: nat, s: nat, c: nat)
    ensures s < 2 && c < 2 ==>
              (4 * i + 2 * s + c) / 4 == i && (4 * i + 2 * s + c) / 2 % 2 == s && (4 * i + 2 * s + c) % 2 == c
  {
    if s < 2 && c < 2 {
      Fourths(4 * i + 2 * s + c, i, 2 * s + c);
      Halves(2 * i + s, c);
      Halves(i, s);
      assert 4 * i + 2 * s + c == 2 * (2 * i + s) + c;
    }
  }

  lemma Fourths(x: nat, i: nat, r: nat)
    requires x == 4 * i + r && r < 4
    ensures x / 4 == i
  {}

  lemma Halves(i: nat, c: nat)
    ensures c < 2 ==> (2 * i + c) / 2 == i && (2 * i + c) % 2 == c
  {}

  lemma CarriesNext(before: seq<Byte>, after: seq<Byte>, n: nat, u: Setup)
    requires u.Valid() && |before| == |after| == IQ_PKT_BYTES && n < 2 * IQ_SAMPLES
    requires SameBut(before, after, n) && CarriesTo(before, u, n) && Carries(after, n, u.At(n))
    ensures CarriesTo(after, u, n + 1) && before[..16] == after[..16]
  {
    hide Setup.At, Code, Get24;
    forall k | 0 <= k < n
      ensures Carries(after, k, u.At(k))
    {
      assert Carries(before, k, u.At(k));
    }
  }

  lemma HeaderStays(before: seq<Byte>, after: seq<Byte>)
    requires |before| == |after| == IQ_PKT_BYTES && before[..16] == after[..16]
    ensures before[..4] == after[..4] && before[4..12] == after[4..12] && before[12..16] == after[12..16]
  {
    assert before[..4] == before[..16][..4] && after[..4] == after[..16][..4];
    assert before[4..12] == before[..16][4..12] && after[4..12] == after[..16][4..12];
    assert before[12..16] == before[..16][12..16] && after[12..16] == after[..16][12..16];
  }

  lemma PacketStart(pkt: seq<Byte>, u: Setup)
    requires u.Valid() && |pkt| == IQ_PKT_BYTES
    ensures CarriesTo(pkt, u, 0) && u.Ramped(0, 0) == u.phase && Drawn(u.o, u.rng, 0) == u.rng
  {}

  /** From one sample of every stream to the next: a coherent pair's one ramp moves before
      the streams, otherwise each stream's own. */
  lemma RampTurns(u: Setup, i: nat)
    requires u.Valid()
    ensures var p, ddc := u.Ramped(i, i), u.streams[0];
            if u.o.diversity then p[ddc := Turned(p[ddc] + Dphi(u.o, ddc, u.rate))] == u.Before(i, 0)
            else p == u.Before(i, 0)
    ensures u.Before(i, |u.streams|) == u.Ramped(i + 1, i + 1)
    ensures u.Place(i, |u.streams|) == u.Place(i + 1, 0)
  {
    hide Dphi, Turned;
  }

  lemma RampStep(u: Setup, i: nat, s: nat)
    requires u.Valid() && s < |u.streams|
    ensures var p, d := u.Before(i, s), u.streams[s];
            if u.o.diversity then u.Before(i, s + 1) == p && p[u.streams[0]] == u.Angle(i, s)
            else
              && p[d := Turned(p[d] + Dphi(u.o, d, u.rate))] == u.Before(i, s + 1)
              && u.Before(i, s + 1)[d] == u.Angle(i, s)
  {
    hide Dphi, Turned;
  }
}
