/** What the streams of p2_emu.c carry, and how fast: the asked rate kept by the packets of every
    DDC, a tone of the asked frequency, and the gain between the two streams of a coherent pair. */
module P2Signal {
  import opened Pacing
  import opened PacedRates
  import opened P2Packet
  import opened P2Board
  import opened Reals

  // ---------- rates ----------

  /** A whole interval above one microsecond is the exact one, its fraction dropped. */
  lemma WholeIs(x: real, us: int)
    requires us == Whole(x) && us > 1
    ensures us as real <= x < us as real + 1.0
  {}

  /** The interval of a DDC is that of its rate for the samples a packet adds to its time stamp,
      with a follower on board or without. */
  lemma IntervalKeepsRate(u: Setup, sync: set<nat>, ddc: nat, rate: int, pace: real)
    requires u.Valid() && u.streams == Streams(sync, ddc) && Interval(sync, ddc, rate, pace) > 1
    ensures var us, asked := Interval(sync, ddc, rate, pace), if rate > 0 then rate else 192000;
            Times(us, asked as real) <= Times(u.PerStream(), 1000000.0 * pace) < Times(us + 1, asked as real)
  {
    StreamKeepsRate(sync, ddc, rate, pace);
  }

  lemma StreamKeepsRate(sync: set<nat>, ddc: nat, rate: int, pace: real)
    requires Interval(sync, ddc, rate, pace) > 1
    ensures var us, asked := Interval(sync, ddc, rate, pace), if rate > 0 then rate else 192000;
            Times(us, asked as real) <= Times(PerStream(sync, ddc), 1000000.0 * pace) < Times(us + 1, asked as real)
  {
    hide Whole, Streams;
    var x := (IQ_SAMPLES / |Streams(sync, ddc)|) as real * 1000000.0 * pace;
    var asked := Rate(rate) as real;
    WholeIs(x / asked, Interval(sync, ddc, rate, pace));
    Bracket(Interval(sync, ddc, rate, pace), x / asked, x, asked);
  }

  /** A packet of 64 microphone samples keeps 48000 a second. */
  lemma MicKeepsRate(b: Board)
    requires b.MicInterval() > 1
    ensures Times(b.MicInterval(), 48000.0) <= Times(64, 1000000.0 * b.pace) < Times(b.MicInterval() + 1, 48000.0)
  {
    hide Whole;
    var x := MIC_SAMPLES as real * 1000000.0 * b.pace;
    WholeIs(x / 48000.0, b.MicInterval());
    Bracket(b.MicInterval(), x / 48000.0, x, 48000.0);
  }

  /** The pause between bursts is as many milliseconds as asked, times the whole part of the
      pace; and status packets go out twenty a second. */
  lemma PauseIs(rateMs: nat, pace: real, p: nat)
    requires p as real <= pace < p as real + 1.0 && rateMs > 0 && p > 0
    ensures WbPause(rateMs, pace) == Span(p, Span(1000, rateMs)) && Span(20, HP_US) == 1000000
  {
    assert pace.Floor == p;
    Regroup(rateMs, p);
    Grows(p, 1, Span(1000, rateMs));
  }

  lemma Regroup(rateMs: nat, p: nat)
    ensures rateMs * 1000 * p == Span(p, Span(1000, rateMs))
  {}

  // ---------- stamps ----------

  /** A run of turns of the board with these registers, none of them cut short. */
  ghost predicate Turns(states: seq<IqState>, ts: seq<int>, sync: seq<set<nat>>, on: seq<bool>, intervals: seq<int>) {
    && |states| == |ts| + 1 && |intervals| == |on| == |sync| == MAX_DDC
    && (forall j :: 0 <= j < |states| ==> InShape(states[j]) && Logged(states[j].log, states[j].account, true))
    && forall j :: 0 <= j < |ts| ==> DdcTurn(states[j], states[j + 1], sync, on, intervals, ts[j], true)
  }

  ghost predicate InShape(s: IqState) {
    && |s.log| == |s.next| == |s.stamp| == |s.account.count| == |s.account.base| == MAX_DDC
    && forall d :: 0 <= d < MAX_DDC ==> s.stamp[d] < 0x1_0000_0000_0000_0000
  }

  /** Over it every DDC on the air is paced by its interval, and its time stamp counts the
      samples of the packets that went out. */
  lemma {:induction false} RunOfTurns(states: seq<IqState>, ts: seq<int>, sync: seq<set<nat>>, on: seq<bool>,
                                      intervals: seq<int>, d: nat, n: nat)
    requires Turns(states, ts, sync, on, intervals) && d < MAX_DDC && on[d] && n <= |ts|
    ensures var s, s0 := states[n], states[0];
            && Pacer(s.next[d], s.account.count[d])
               == Ticks(Pacer(s0.next[d], s0.account.count[d]), ts, n, intervals[d], 32)
            && s.account.count[d] >= s0.account.count[d]
            && s.stamp[d] == StampAfter(s0.stamp[d], s.account.count[d] - s0.account.count[d], PerStream(sync[d], d))
    decreases n
  {
    hide Pacing.Tick, StampAfter, PerStream;
    assert InShape(states[n]) && InShape(states[0]);
    if n == 0 {
      StampNext(states[0].stamp[d], 0, PerStream(sync[d], d));
    } else {
      RunOfTurns(states, ts, sync, on, intervals, d, n - 1);
      assert DdcTurn(states[n - 1], states[n], sync, on, intervals, ts[n - 1], true);
      TurnOf(states[0].stamp[d], states[0].account.count[d], states[n - 1], states[n], sync, on, intervals, ts[n - 1],
             d);
    }
  }

  lemma TurnOf(stamp: nat, count: nat, s1: IqState, s2: IqState, sync: seq<set<nat>>, on: seq<bool>,
               intervals: seq<int>, t: int, d: nat)
    requires DdcTurn(s1, s2, sync, on, intervals, t, true) && d < MAX_DDC && on[d]
    requires InShape(s1) && InShape(s2) && Logged(s1.log, s1.account, true) && Logged(s2.log, s2.account, true)
    requires s1.account.count[d] >= count
    requires s1.stamp[d] == StampAfter(stamp, s1.account.count[d] - count, PerStream(sync[d], d))
    ensures s2.account.count[d] >= count
    ensures s2.stamp[d] == StampAfter(stamp, s2.account.count[d] - count, PerStream(sync[d], d))
    ensures Pacer(s2.next[d], s2.account.count[d])
            == Pacing.Tick(Pacer(s1.next[d], s1.account.count[d]), t, intervals[d], 32)
  {
    hide Pacing.Tick, StampAfter, PerStream;
    StampsAdd(stamp, s1.account.count[d] - count, s2.account.count[d] - s1.account.count[d], PerStream(sync[d], d));
  }

  /** So the time stamp of a DDC keeps the rate its register asks for, as long as the turns
      come often enough, whether a follower is on board or not. */
  lemma StampsKeepRate(states: seq<IqState>, ts: seq<int>, sync: seq<set<nat>>, on: seq<bool>, intervals: seq<int>,
                       d: nat, rate: nat, pace: real) returns (sent: nat, n: nat)
    requires Turns(states, ts, sync, on, intervals) && d < MAX_DDC && on[d] && |ts| > 0
    requires intervals[d] == Interval(sync[d], d, rate, pace) > 1 && rate > 0 && states[0].account.count[d] == 0
    requires Often(states[0].next[d], ts, intervals[d], 32)
    ensures sent == states[|ts|].account.count[d] > 0 && n == Span(sent, PerStream(sync[d], d))
    ensures states[|ts|].stamp[d] == (states[0].stamp[d] + n) % 0x1_0000_0000_0000_0000
    ensures var elapsed := ts[|ts| - 1] - states[0].next[d];
            && Times(elapsed, rate as real) < Times(n, 1000000.0 * pace)
            && Times(n - PerStream(sync[d], d), 1000000.0 * pace)
               <= Times(elapsed, rate as real) + Times(sent - 1, rate as real)
  {
    hide Ticks, Interval, Times, DdcTurn, Often, Streams, Logged;
    var t0, us := states[0].next[d], intervals[d];
    RunOfTurns(states, ts, sync, on, intervals, d, |ts|);
    RunOnTime(t0, ts, |ts|, us, 32);
    var p := Ticks(Pacer(t0, 0), ts, |ts|, us, 32);
    sent, n := p.sent, Span(p.sent, PerStream(sync[d], d));
    Started(p, t0, ts, us);
    StreamKeepsRate(sync[d], d, rate, pace);
    OnTimeKeepsRate(p, t0, ts[|ts| - 1], us, PerStream(sync[d], d), rate, 1000000.0 * pace);
    SpanNext(sent - 1, PerStream(sync[d], d));
  }

  // ---------- the tone ----------

  ghost predicate TurnAt(o: Options, x: real) {
    o.sin(x + 2.0 * M_PI) == o.sin(x) && o.cos(x + 2.0 * M_PI) == o.cos(x)
  }

  /** The functions repeat after a turn. */
  ghost predicate WholeTurn(o: Options) {
    forall x :: TurnAt(o, x)
  }

  lemma {:induction false} TurnsBack(o: Options, x: real, turns: nat)
    requires WholeTurn(o)
    ensures o.sin(x - Times(turns, 2.0 * M_PI)) == o.sin(x) == o.sin(x + Times(turns, 2.0 * M_PI))
    ensures o.cos(x - Times(turns, 2.0 * M_PI)) == o.cos(x) == o.cos(x + Times(turns, 2.0 * M_PI))
    decreases turns
  {
    if turns > 0 {
      OneMore(turns - 1, 2.0 * M_PI);
      assert TurnAt(o, x - Times(turns, 2.0 * M_PI)) && TurnAt(o, x + Times(turns - 1, 2.0 * M_PI));
      TurnsBack(o, x, turns - 1);
    }
  }

  /** A phase is the exact angle, whole turns apart. */
  lemma {:induction false} PhaseIsAngle(p: real, dphi: real, n: nat) returns (turns: int)
    ensures PhaseAfter(p, dphi, n) == p + Times(n, dphi) - Times(turns, 2.0 * M_PI)
    decreases n
  {
    hide Times;
    ZeroTimes(dphi);
    ZeroTimes(2.0 * M_PI);
    turns := 0;
    if n > 0 {
      turns := PhaseIsAngle(p, dphi, n - 1);
      OneMore(n - 1, dphi);
      var x := PhaseAfter(p, dphi, n - 1) + dphi;
      var back := TurnedBack(x);
      AddTimes(turns, back, 2.0 * M_PI);
      turns := turns + back;
    }
  }

  lemma TurnedBack(x: real) returns (turns: int)
    ensures P2Packet.Turned(x) == x - Times(turns, 2.0 * M_PI)
  {
    turns := if x > M_PI && x - 2.0 * M_PI >= -M_PI then 1 else if x < -M_PI then -1 else 0;
  }

  /** And stays within half a turn for steps of up to a turn. */
  lemma {:induction false} PhaseWithin(p: real, dphi: real, n: nat)
    requires -M_PI <= p <= M_PI && -2.0 * M_PI <= dphi <= 2.0 * M_PI
    ensures -M_PI <= PhaseAfter(p, dphi, n) <= M_PI
    decreases n
  {
    if n > 0 {
      PhaseWithin(p, dphi, n - 1);
    }
  }

  /** The frequency a DDC's tone has above the centre. */
  function ToneOf(o: Options, d: nat): real {
    if o.diversity then o.toneHz else o.toneHz + Times(d, o.toneStep)
  }

  lemma StepKeepsTone(o: Options, d: nat, rate: int)
    ensures Dphi(o, d, rate) * Rate(rate) as real == 2.0 * M_PI * ToneOf(o, d)
  {
    Restored(2.0 * M_PI * ToneOf(o, d), Rate(rate) as real);
    assert o.toneStep * d as real == Times(d, o.toneStep);
  }

  /** The angle and the gain that a sample is made of. */
  ghost predicate MadeOf(u: Setup, i: nat, s: nat, angle: real, amp: real, shift: real)
    requires u.Valid() && s < |u.streams|
  {
    var j := 2 * (if |u.streams| == 1 then i else 2 * i + s);
    && u.At(j) == amp * u.o.sin(angle + shift) + u.o.noise * u.o.value(Drawn(u.o, u.rng, j + 1))
    && u.At(j + 1) == amp * u.o.cos(angle + shift) + u.o.noise * u.o.value(Drawn(u.o, u.rng, j + 2))
    && if u.o.diversity && u.adc[u.streams[s]] != 0 then
         amp <= 1.0 && (amp == u.o.divAmp || u.o.divAmp > amp == 1.0) && 180.0 * shift == u.o.divPhase * M_PI
       else amp == u.o.amp && shift == 0.0
  }

  /** Sample i of a stream, left and right: sine and cosine of one angle, i + 1 samples of the
      tone on from the phase before the packet, at the gain of its ADC, each with a draw of
      noise of its own. */
  lemma SampleIsTone(u: Setup, i: nat, s: nat) returns (angle: real, amp: real, shift: real)
    requires u.Valid() && WholeTurn(u.o) && s < |u.streams| && i < u.PerStream()
    ensures var asked := if u.rate > 0 then u.rate else 192000;
            (angle - u.phase[u.Base(s)]) * asked as real == Times(i + 1, 2.0 * M_PI * ToneOf(u.o, u.Base(s)))
    ensures MadeOf(u, i, s, angle, amp, shift)
  {
    hide WholeTurn, Dphi, Times, ToneOf, MadeOf;
    amp, shift := SampleMade(u, i, s);
    angle := u.phase[u.Base(s)] + Times(i + 1, Dphi(u.o, u.Base(s), u.rate));
    Advance(i + 1, u.o, u.Base(s), u.rate);
  }

  lemma SampleMade(u: Setup, i: nat, s: nat) returns (amp: real, shift: real)
    requires u.Valid() && WholeTurn(u.o) && s < |u.streams| && i < u.PerStream()
    ensures MadeOf(u, i, s, u.phase[u.Base(s)] + Times(i + 1, Dphi(u.o, u.Base(s), u.rate)), amp, shift)
  {
    hide WholeTurn, PhaseAfter, Dphi, Drawn, Setup.At, Times, Setup.Sample, Amp, Offset, Level;
    var o, d, adc := u.o, u.Base(s), u.adc[u.streams[s]];
    amp, shift := Amp(o, adc), Offset(o, adc);
    GainOf(o, adc);
    var angle := u.phase[d] + Times(i + 1, Dphi(o, d, u.rate));
    var turns := PhaseIsAngle(u.phase[d], Dphi(o, d, u.rate), i + 1);
    SameAngle(o, u.Angle(i, s) + shift, angle + shift, turns);
    PairAt(u, i, s);
    PairValues(u, i, s, u.Angle(i, s) + shift);
    LevelsAre(amp, o, angle + shift, Drawn(o, u.rng, 2 * u.Place(i, s) + 1));
    LevelsAre(amp, o, angle + shift, Drawn(o, u.rng, 2 * u.Place(i, s) + 2));
  }

  lemma LevelsAre(amp: real, o: Options, x: real, r: int)
    ensures Level(amp, o.sin(x), o.noise, o.value(r)) == amp * o.sin(x) + o.noise * o.value(r)
    ensures Level(amp, o.cos(x), o.noise, o.value(r)) == amp * o.cos(x) + o.noise * o.value(r)
  {}

  lemma GainOf(o: Options, adc: int)
    ensures var amp, shift := Amp(o, adc), Offset(o, adc);
            if o.diversity && adc != 0 then
              amp <= 1.0 && (amp == o.divAmp || o.divAmp > amp == 1.0) && 180.0 * shift == o.divPhase * M_PI
            else amp == o.amp && shift == 0.0
  {}

  lemma SameAngle(o: Options, x: real, y: real, turns: int)
    requires WholeTurn(o) && x == y - Times(turns, 2.0 * M_PI)
    ensures o.sin(x) == o.sin(y) && o.cos(x) == o.cos(y)
  {
    hide WholeTurn;
    TurnsBack(o, y, if turns >= 0 then turns else -turns);
  }

  lemma Advance(n: nat, o: Options, d: nat, rate: int)
    ensures Times(n, Dphi(o, d, rate)) * Rate(rate) as real == Times(n, 2.0 * M_PI * ToneOf(o, d))
  {
    hide Dphi, ToneOf;
    StepKeepsTone(o, d, rate);
    Associate(n as real, Dphi(o, d, rate), Rate(rate) as real);
  }

  // ---------- a coherent pair ----------

  ghost predicate SumAt(o: Options, x: real, y: real) {
    && o.sin(x + y) == o.sin(x) * o.cos(y) + o.cos(x) * o.sin(y)
    && o.cos(x + y) == o.cos(x) * o.cos(y) - o.sin(x) * o.sin(y)
  }

  /** The sine and cosine of a sum. */
  ghost predicate Sums(o: Options) {
    forall x, y :: SumAt(o, x, y)
  }

  /** With the noise off, every sample of the second ADC is the first's in the same place,
      scaled and turned by the asked phase and by nothing else. */
  lemma CoherentPair(u: Setup, i: nat) returns (shift: real)
    requires u.Valid() && u.o.diversity && |u.streams| == 2 && i < u.PerStream() && u.o.noise == 0.0 && Sums(u.o)
    requires WholeTurn(u.o) && u.adc[u.streams[0]] == 0 && u.adc[u.streams[1]] != 0
    ensures 180.0 * shift == u.o.divPhase * M_PI
    ensures var l0, r0, l1, r1 := u.At(4 * i), u.At(4 * i + 1), u.At(4 * i + 2), u.At(4 * i + 3);
            var gain := if u.o.divAmp > 1.0 then 1.0 else u.o.divAmp;
            && u.o.amp * r1 == gain * (r0 * u.o.cos(shift) - l0 * u.o.sin(shift))
            && u.o.amp * l1 == gain * (r0 * u.o.sin(shift) + l0 * u.o.cos(shift))
  {
    hide Setup.At, WholeTurn, Sums, Times, Dphi, Drawn;
    var angle := u.phase[u.streams[0]] + Times(i + 1, Dphi(u.o, u.streams[0], u.rate));
    var amp0, shift0 := SampleMade(u, i, 0);
    var amp1, shift1 := SampleMade(u, i, 1);
    shift := shift1;
    NoNoise(u.o, Drawn(u.o, u.rng, 4 * i + 1), Drawn(u.o, u.rng, 4 * i + 2), Drawn(u.o, u.rng, 4 * i + 3),
            Drawn(u.o, u.rng, 4 * i + 4));
    SumOf(u.o, angle, shift);
    GainTurned(u.o.amp, amp1, u.o.sin(angle), u.o.cos(angle), u.o.sin(shift), u.o.cos(shift));
  }

  lemma NoNoise(o: Options, a: int, b: int, c: int, d: int)
    requires o.noise == 0.0
    ensures o.noise * o.value(a) == o.noise * o.value(b) == o.noise * o.value(c) == o.noise * o.value(d) == 0.0
  {}

  lemma SumOf(o: Options, x: real, y: real)
    requires Sums(o)
    ensures o.sin(x + y) == o.sin(x) * o.cos(y) + o.cos(x) * o.sin(y)
    ensures o.cos(x + y) == o.cos(x) * o.cos(y) - o.sin(x) * o.sin(y)
  {
    assert SumAt(o, x, y);
  }

  lemma GainTurned(a: real, g: real, s: real, c: real, ss: real, cs: real)
    ensures a * (g * (c * cs - s * ss)) == g * ((a * c) * cs - (a * s) * ss)
    ensures a * (g * (s * cs + c * ss)) == g * ((a * c) * ss + (a * s) * cs)
  {}
}
