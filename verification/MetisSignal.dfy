/** What the packets of metis_emu.c carry, and how fast: one tone of the asked frequency on every
    receiver, at the rate that the command stream asks for. */
module MetisSignal {
  import opened Integers
  import opened Metis
  import opened Pacing
  import opened PacedRates
  import opened Pcm24
  import opened Reals

  // ---------- the rate ----------

  /** The interval is that of the rate for the two frames of a packet. */
  lemma IntervalKeepsRate(rx: nat, rate: nat, pace: real)
    requires rate > 0 && Interval(rx, rate, pace) > 1
    ensures var us := Interval(rx, rate, pace);
            Times(us, rate as real) <= Times(2 * SamplesPerFrame(rx), 1000000.0 * pace) < Times(us + 1, rate as real)
  {
    hide SamplesPerFrame;
    var us, y := Interval(rx, rate, pace), 2.0 * SamplesPerFrame(rx) as real * 1000000.0 * pace;
    assert us == Trunc(y / rate as real);
    Bracket(us, y / rate as real, y, rate as real);
  }

  /** So over any run of ticks that come often enough, the packets that went out are those of
      the rate. */
  lemma RunKeepsRate(t0: int, ts: seq<int>, rx: nat, rate: nat, pace: real) returns (sent: nat)
    requires rate > 0 && Interval(rx, rate, pace) > 1 && |ts| > 0 && Often(t0, ts, Interval(rx, rate, pace), 32)
    ensures sent == Ticks(Pacer(t0, 0), ts, |ts|, Interval(rx, rate, pace), 32).sent > 0
    ensures var elapsed, per, paced := ts[|ts| - 1] - t0, 2 * SamplesPerFrame(rx), 1000000.0 * pace;
            && Times(elapsed, rate as real) < Times(Span(sent, per), paced)
            && Times(Span(sent - 1, per), paced) <= Times(elapsed, rate as real) + Times(sent - 1, rate as real)
  {
    hide Ticks, Interval, Times, Span, Often, SamplesPerFrame;
    var us := Interval(rx, rate, pace);
    RunOnTime(t0, ts, |ts|, us, 32);
    var p := Ticks(Pacer(t0, 0), ts, |ts|, us, 32);
    sent := p.sent;
    Started(p, t0, ts, us);
    IntervalKeepsRate(rx, rate, pace);
    OnTimeKeepsRate(p, t0, ts[|ts| - 1], us, 2 * SamplesPerFrame(rx), rate, 1000000.0 * pace);
  }

  // ---------- the tone ----------

  lemma StepKeepsTone(b: Board)
    requires b.sampleRate > 0
    ensures b.ToneNow().dphi * b.sampleRate as real == 2.0 * Metis.M_PI * b.toneHz
    ensures b.ToneNow().sin == b.sin && b.ToneNow().cos == b.cos
  {
    Restored(2.0 * Metis.M_PI * b.toneHz, b.sampleRate as real);
  }

  ghost predicate TurnAt(t: Tone, x: real) {
    t.sin(x + 2.0 * Metis.M_PI) == t.sin(x) && t.cos(x + 2.0 * Metis.M_PI) == t.cos(x)
  }

  /** The functions repeat after a turn. */
  ghost predicate WholeTurn(t: Tone) {
    forall x :: TurnAt(t, x)
  }

  lemma {:induction false} TurnsBack(t: Tone, x: real, turns: nat)
    requires WholeTurn(t)
    ensures t.sin(x - Times(turns, 2.0 * Metis.M_PI)) == t.sin(x)
    ensures t.cos(x - Times(turns, 2.0 * Metis.M_PI)) == t.cos(x)
    decreases turns
  {
    if turns > 0 {
      OneMore(turns - 1, 2.0 * Metis.M_PI);
      assert TurnAt(t, x - Times(turns, 2.0 * Metis.M_PI));
      TurnsBack(t, x, turns - 1);
    }
  }

  /** The phase is the exact angle, whole turns apart. */
  lemma {:induction false} PhaseIsAngle(t: Tone, p: real, n: nat) returns (turns: nat)
    ensures PhaseAfter(t, p, n) == p + Times(n, t.dphi) - Times(turns, 2.0 * Metis.M_PI)
    decreases n
  {
    hide Times;
    ZeroTimes(t.dphi);
    ZeroTimes(2.0 * Metis.M_PI);
    turns := 0;
    if n > 0 {
      var before := PhaseIsAngle(t, p, n - 1);
      OneMore(n - 1, t.dphi);
      OneMore(before, 2.0 * Metis.M_PI);
      turns := if PhaseAfter(t, p, n - 1) + t.dphi > 2.0 * Metis.M_PI then before + 1 else before;
    }
  }

  /** And stays within a turn for steps of up to a turn. */
  lemma {:induction false} PhaseWithin(t: Tone, p: real, n: nat)
    requires 0.0 <= p <= 2.0 * Metis.M_PI && 0.0 <= t.dphi <= 2.0 * Metis.M_PI
    ensures 0.0 <= PhaseAfter(t, p, n) <= 2.0 * Metis.M_PI
    decreases n
  {
    if n > 0 {
      PhaseWithin(t, p, n - 1);
    }
  }

  lemma {:induction false} PhaseAdds(t: Tone, p: real, m: nat, n: nat)
    ensures PhaseAfter(t, PhaseAfter(t, p, m), n) == PhaseAfter(t, p, m + n)
    decreases n
  {
    hide Metis.Turned;
    if n > 0 {
      PhaseAdds(t, p, m, n - 1);
    }
  }

  /** Where sample s of receiver r is in a frame: after sync and controls, six bytes a receiver
      and two for the microphone. */
  function Place(rx: nat, s: nat, r: nat): nat {
    8 + Span(s, 6 * rx + 2) + 6 * r
  }

  /** Three bytes at a place. */
  ghost predicate ReadsAt(pkt: seq<Byte>, at: nat, v: real) {
    at + 3 <= |pkt| && Get24(pkt[at], pkt[at + 1], pkt[at + 2]) == Code(v)
  }

  /** The receiver's view of a whole packet: sample j of its two frames, of every receiver, is
      the sine and the cosine, left and right, of the angle j + 1 samples on. */
  lemma PacketRead(t: Tone, p: real, rx: nat, pkt: seq<Byte>, number: nat, j: nat, r: nat)
    requires 1 <= rx <= 8 && r < rx && j < 2 * SamplesPerFrame(rx) && number < 0x1_0000_0000 && WholeTurn(t)
    requires pkt == [0xEF, 0xFE, 1, 6] + Be32(number) + Frame(t, p, rx)
                    + Frame(t, PhaseAfter(t, p, SamplesPerFrame(rx)), rx)
    ensures var n := SamplesPerFrame(rx);
            var at := 8 + if j < n then Place(rx, j, r) else USB_FRAME + Place(rx, j - n, r);
            var angle := p + Times(j + 1, t.dphi);
            ReadsAt(pkt, at, 0.4 * t.sin(angle)) && ReadsAt(pkt, at + 3, 0.4 * t.cos(angle))
  {
    hide WholeTurn, PhaseAfter, Times, Place, Frame, Be32, SamplesPerFrame, ReadsAt;
    var n := SamplesPerFrame(rx);
    var head := [0xEF, 0xFE, 1, 6] + Be32(number);
    var half := PhaseAfter(t, p, n);
    ExactAngle(t, p, j + 1);
    if j < n {
      HalfRead(t, p, rx, head, Frame(t, half, rx), j, r);
    } else {
      PhaseAdds(t, p, n, j - n + 1);
      HalfRead(t, half, rx, head + Frame(t, p, rx), [], j - n, r);
      assert head + Frame(t, p, rx) + Frame(t, half, rx) + [] == pkt;
    }
  }

  lemma ExactAngle(t: Tone, p: real, n: nat)
    requires WholeTurn(t)
    ensures t.sin(PhaseAfter(t, p, n)) == t.sin(p + Times(n, t.dphi))
    ensures t.cos(PhaseAfter(t, p, n)) == t.cos(p + Times(n, t.dphi))
  {
    hide WholeTurn, PhaseAfter;
    var turns := PhaseIsAngle(t, p, n);
    TurnsBack(t, p + Times(n, t.dphi), turns);
  }

  lemma HalfRead(t: Tone, p: real, rx: nat, before: seq<Byte>, after: seq<Byte>, s: nat, r: nat)
    requires 1 <= rx <= 8 && s < SamplesPerFrame(rx) && r < rx
    ensures var pkt, at := before + Frame(t, p, rx) + after, |before| + Place(rx, s, r);
            && ReadsAt(pkt, at, 0.4 * t.sin(PhaseAfter(t, p, s + 1)))
            && ReadsAt(pkt, at + 3, 0.4 * t.cos(PhaseAfter(t, p, s + 1)))
  {
    hide Get24, Code, PhaseAfter, Frame, SamplesPerFrame;
    FrameRead(t, p, rx, s, r);
    SameStep(rx, s);
    var f := Frame(t, p, rx);
    InMiddle(before, f, after, Place(rx, s, r));
    InMiddle(before, f, after, Place(rx, s, r) + 3);
  }

  lemma SameStep(rx: nat, s: nat)
    ensures Laps(s, Group(rx)) == Span(s, 6 * rx + 2)
  {}

  lemma InMiddle(before: seq<Byte>, f: seq<Byte>, after: seq<Byte>, at: nat)
    requires at + 3 <= |f|
    ensures var pkt, i := before + f + after, |before| + at;
            pkt[i] == f[at] && pkt[i + 1] == f[at + 1] && pkt[i + 2] == f[at + 2]
  {}
}
