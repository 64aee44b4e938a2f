/** What the synchronous mode of amd.c is for: a locked loop gives a carrier's modulation back;
    how the loop follows a carrier it is not locked to, and what the fade leveller settles at. */
module Locking {
  import opened Demodulator
  import opened Reals

  // ---------- both sidebands ----------

  /** The part of a sample across the oscillator. */
  function Across(m: Mix): real {
    -m.bi + m.aq
  }

  /** With both sidebands the audio is the part of the sample along the oscillator: turned by
      the phase, it and the part across are the sample again. */
  lemma BothIsAlong(k: Maths, phs: real, i: real, q: real, ps: Mix)
    requires k.Pythagoras()
    ensures var m := Mixed(k, phs, i, q);
            var audio, across := Audio(Both, m, ps), Across(m);
            && audio * k.cos(phs) - across * k.sin(phs) == i
            && audio * k.sin(phs) + across * k.cos(phs) == q
  {
    TurnedAgain(i, q, k.cos(phs), k.sin(phs));
    assert Sqr(k.cos(phs)) + Sqr(k.sin(phs)) == 1.0;
  }

  lemma TurnedAgain(i: real, q: real, c: real, s: real)
    requires Sqr(c) + Sqr(s) == 1.0
    ensures (i * c + q * s) * c - (-(i * s) + q * c) * s == i
    ensures (i * c + q * s) * s + (-(i * s) + q * c) * c == q
  {
    assert (i * c + q * s) * c - (-(i * s) + q * c) * s == i * (Sqr(c) + Sqr(s));
    assert (i * c + q * s) * s + (-(i * s) + q * c) * c == q * (Sqr(c) + Sqr(s));
  }

  /** So over any run, wherever both sidebands are asked for and the fade leveller is off. */
  lemma BothSounds(k: Maths, s: State, xs: seq<Input>, n: nat) returns (across: real)
    requires k.Pythagoras() && Wired(s.filters) && n < |xs|
    requires xs[n].cfg.sbmode == Both && !xs[n].cfg.levelfade
    ensures var phs, y := Run(k, s, xs, n).loop.phs, Sound(k, s, xs, n);
            && y * k.cos(phs) - across * k.sin(phs) == xs[n].i
            && y * k.sin(phs) + across * k.cos(phs) == xs[n].q
  {
    hide Run, Mixed, Audio, Across, Separated, Locked, Detected, Advanced, Maths.Pythagoras;
    var before := Run(k, s, xs, n);
    var m := MixOf(k, before, xs[n]);
    across := Across(m);
    BothIsAlong(k, before.loop.phs, xs[n].i, xs[n].q, Separated(before.filters, m));
  }

  // ---------- the loop ----------

  /** A carrier of amplitude a that leads the oscillator by e. */
  predicate Leads(k: Maths, phs: real, x: Input, a: real, e: real) {
    x.i == a * k.cos(phs + e) && x.q == a * k.sin(phs + e)
  }

  /** What the detector is given is that vector turned back. */
  lemma TurnedBack(k: Maths, phs: real, x: Input, a: real, e: real)
    requires k.Pythagoras() && k.Sums() && Leads(k, phs, x, a, e)
    ensures var m := Mixed(k, phs, x.i, x.q);
            m.ai + m.bq == a * k.cos(e) && Across(m) == a * k.sin(e)
  {
    hide Maths.Pythagoras, Maths.Sums;
    LeadSum(k, phs, e);
    LeadTurned(a, k.cos(phs), k.sin(phs), k.cos(e), k.sin(e), x.i, x.q);
    hide Mixed, Leads;
    Parts(k, phs, x.i, x.q);
  }

  lemma LeadSum(k: Maths, phs: real, e: real)
    requires k.Pythagoras() && k.Sums()
    ensures k.sin(phs + e) == k.sin(phs) * k.cos(e) + k.cos(phs) * k.sin(e)
    ensures k.cos(phs + e) == k.cos(phs) * k.cos(e) - k.sin(phs) * k.sin(e)
    ensures Sqr(k.cos(phs)) + Sqr(k.sin(phs)) == 1.0
  {
    hide Sqr;
    assert k.SumAt(phs, e);
  }

  lemma Parts(k: Maths, phs: real, i: real, q: real)
    ensures var m := Mixed(k, phs, i, q);
            && m.ai + m.bq == i * k.cos(phs) + q * k.sin(phs)
            && Across(m) == -(i * k.sin(phs)) + q * k.cos(phs)
  {}

  lemma LeadTurned(a: real, c: real, s: real, ce: real, se: real, i: real, q: real)
    requires Sqr(c) + Sqr(s) == 1.0 && i == a * (c * ce - s * se) && q == a * (s * ce + c * se)
    ensures i * c + q * s == a * ce && -(i * s) + q * c == a * se
  {
    assert i * c + q * s == a * ce * (Sqr(c) + Sqr(s));
    assert -(i * s) + q * c == a * se * (Sqr(c) + Sqr(s));
  }

  /** The detector sees the lead. */
  lemma DetectsLead(k: Maths, a: real, e: real, pi: real)
    requires k.Pythagoras() && k.Quadrants(pi) && a > 0.0 && -pi < e < pi
    ensures Detected(k, a * k.cos(e), a * k.sin(e)) == e
  {
    assert k.AngleAt(a, e);
    assert Sqr(k.cos(e)) + Sqr(k.sin(e)) == 1.0;
    if k.cos(e) != 0.0 {
      Nonzero(a, k.cos(e));
    } else {
      NotBoth(k.cos(e), k.sin(e));
      Nonzero(a, k.sin(e));
    }
  }

  /** And nothing where there is nothing. */
  lemma DetectsNothing(k: Maths, pi: real)
    requires k.Quadrants(pi) && pi > 0.0 && k.cos(0.0) == 1.0 && k.sin(0.0) == 0.0
    ensures Detected(k, 0.0, 0.0) == 0.0
  {
    assert k.AngleAt(1.0, 0.0);
  }

  lemma NotBoth(c: real, s: real)
    requires Sqr(c) + Sqr(s) == 1.0 && c == 0.0
    ensures s != 0.0
  {}

  /** One sample of the loop against a carrier that leads by e: the frequency moves by g2 e
      unless a limit stops it there, the next advance is g1 e beyond it, and the phase goes on
      by the advance of before, within one turn. */
  lemma LoopFollows(k: Maths, s: State, x: Input, a: real, e: real, pi: real)
    requires k.Pythagoras() && k.Sums() && k.Quadrants(pi) && Wired(s.filters)
    requires a > 0.0 && -pi < e < pi && Leads(k, s.loop.phs, x, a, e) && x.cfg.omegaMin <= x.cfg.omegaMax
    ensures var cfg, l, l' := x.cfg, s.loop, Step(k, s, x).loop;
            var omega := l.omega + cfg.g2 * e;
            && (omega < cfg.omegaMin ==> l'.omega == cfg.omegaMin)
            && (omega > cfg.omegaMax ==> l'.omega == cfg.omegaMax)
            && (cfg.omegaMin <= omega <= cfg.omegaMax ==> l'.omega == omega)
            && l'.filOut - l'.omega == cfg.g1 * e
            && 0.0 <= l'.phs < TWOPI && exists n: int :: l'.phs == l.phs + l.filOut - Turned(n)
  {
    hide Mixed, Detected, Wrap, Turned, Leads, Separated, Advanced, Levelled, Plain;
    hide Maths.Pythagoras, Maths.Sums, Maths.Quadrants;
    var m := Mixed(k, s.loop.phs, x.i, x.q);
    TurnedBack(k, s.loop.phs, x, a, e);
    DetectsLead(k, a, e, pi);
    WrapWithin(s.loop.phs + s.loop.filOut);
    WrapTurns(s.loop.phs + s.loop.filOut);
    StepLoop(k, s, x);
  }

  lemma StepLoop(k: Maths, s: State, x: Input)
    requires Wired(s.filters)
    ensures var m := Mixed(k, s.loop.phs, x.i, x.q);
            Step(k, s, x).loop == Locked(x.cfg, s.loop, Detected(k, m.ai + m.bq, Across(m)))
  {
    hide Mixed, Detected, Locked, Separated, Advanced, Levelled, Plain;
  }

  lemma WrapTurns(x: real)
    ensures exists n: int :: Wrap(x) == x - Turned(n)
  {
    assert Wrap(x) == x - Turned((x / TWOPI).Floor);
  }

  // ---------- in lock ----------

  /** The angle of a carrier of frequency w after n samples. */
  function CarrierAt(phs: real, w: real, n: nat): real
    decreases n
  {
    if n == 0 then phs else CarrierAt(phs, w, n - 1) + w
  }

  /** An amplitude-modulated carrier of frequency w, from the oscillator's phase on. */
  ghost predicate Modulated(k: Maths, phs: real, w: real, xs: seq<Input>, amplitudes: seq<real>) {
    && |amplitudes| == |xs|
    && forall n :: 0 <= n < |xs| ==>
         && amplitudes[n] > 0.0
         && xs[n].i == amplitudes[n] * k.cos(CarrierAt(phs, w, n))
         && xs[n].q == amplitudes[n] * k.sin(CarrierAt(phs, w, n))
  }

  /** A loop that runs at the carrier's frequency. */
  predicate InLock(l: Loop, w: real) {
    l.omega == w == l.filOut
  }

  ghost predicate Allows(xs: seq<Input>, w: real) {
    forall n :: 0 <= n < |xs| ==> xs[n].cfg.omegaMin <= w <= xs[n].cfg.omegaMax
  }

  /** A loop in lock stays in lock over any run, whatever the modulation, the sideband modes and
      the gains. */
  lemma {:induction false} LockHolds(k: Maths, s: State, w: real, xs: seq<Input>, amplitudes: seq<real>, n: nat,
                                     pi: real)
    requires k.Pythagoras() && k.WholeTurn() && k.Quadrants(pi) && pi > 0.0
    requires k.cos(0.0) == 1.0 && k.sin(0.0) == 0.0
    requires Wired(s.filters) && n <= |xs| && 0.0 <= s.loop.phs < TWOPI && InLock(s.loop, w)
    requires Modulated(k, s.loop.phs, w, xs, amplitudes) && Allows(xs, w)
    ensures var l := Run(k, s, xs, n).loop;
            && InLock(l, w) && Unwrapped(k, s, xs, n) == CarrierAt(s.loop.phs, w, n)
            && k.cos(l.phs) == k.cos(CarrierAt(s.loop.phs, w, n))
            && k.sin(l.phs) == k.sin(CarrierAt(s.loop.phs, w, n))
    decreases n
  {
    hide Step, Mixed, Wrap, Turned, Maths.Pythagoras, Maths.WholeTurn, Maths.Quadrants;
    if n > 0 {
      LockHolds(k, s, w, xs, amplitudes, n - 1, pi);
      StaysLocked(k, Run(k, s, xs, n - 1), w, xs[n - 1], amplitudes[n - 1], CarrierAt(s.loop.phs, w, n - 1), pi);
      OscillatorUnwrapped(k, s, xs, n);
    }
  }

  lemma StaysLocked(k: Maths, s: State, w: real, x: Input, a: real, psi: real, pi: real)
    requires k.Pythagoras() && k.Quadrants(pi) && pi > 0.0 && k.cos(0.0) == 1.0 && k.sin(0.0) == 0.0
    requires Wired(s.filters) && a > 0.0 && InLock(s.loop, w) && x.cfg.omegaMin <= w <= x.cfg.omegaMax
    requires k.cos(s.loop.phs) == k.cos(psi) && k.sin(s.loop.phs) == k.sin(psi)
    requires x.i == a * k.cos(psi) && x.q == a * k.sin(psi)
    ensures InLock(Step(k, s, x).loop, w)
  {
    hide Mixed, Detected, Wrap, Maths.Quadrants, Step;
    Aligned(k, s.loop.phs, x, a);
    DetectsLead(k, a, 0.0, pi);
    StepLoop(k, s, x);
    hide Maths.Pythagoras;
  }

  lemma Aligned(k: Maths, phs: real, x: Input, a: real)
    requires k.Pythagoras() && x.i == a * k.cos(phs) && x.q == a * k.sin(phs)
    ensures var m := Mixed(k, phs, x.i, x.q); m.ai + m.bq == a && Across(m) == 0.0
  {
    assert Sqr(k.cos(phs)) + Sqr(k.sin(phs)) == 1.0;
    AlignedParts(a, k.cos(phs), k.sin(phs));
  }

  lemma AlignedParts(a: real, c: real, s: real)
    requires Sqr(c) + Sqr(s) == 1.0
    ensures (a * c) * c + (a * s) * s == a && -((a * c) * s) + (a * s) * c == 0.0
  {
    assert (a * c) * c + (a * s) * s == a * (Sqr(c) + Sqr(s));
  }

  /** And gives the modulation back, sample by sample. */
  lemma ModulationGivenBack(k: Maths, s: State, w: real, xs: seq<Input>, amplitudes: seq<real>, n: nat, pi: real)
    requires k.Pythagoras() && k.WholeTurn() && k.Quadrants(pi) && pi > 0.0
    requires k.cos(0.0) == 1.0 && k.sin(0.0) == 0.0
    requires Wired(s.filters) && n < |xs| && 0.0 <= s.loop.phs < TWOPI && InLock(s.loop, w)
    requires Modulated(k, s.loop.phs, w, xs, amplitudes) && Allows(xs, w)
    requires xs[n].cfg.sbmode == Both && !xs[n].cfg.levelfade
    ensures Sound(k, s, xs, n) == amplitudes[n]
  {
    hide Run, Mixed, Locked, Detected, Advanced, Separated, Maths.Pythagoras, Maths.WholeTurn, Maths.Quadrants;
    LockHolds(k, s, w, xs, amplitudes, n, pi);
    Aligned(k, Run(k, s, xs, n).loop.phs, xs[n], amplitudes[n]);
  }

  /** The envelope mode gives it back whatever the carrier's angle. */
  lemma EnvelopeGivenBack(k: Maths, i: real, q: real)
    requires k.SquareRoot()
    ensures Magnitude(k, i, q) >= 0.0 && Sqr(Magnitude(k, i, q)) == Sqr(i) + Sqr(q)
  {
    hide Sqr;
    SqrNotNegative(i);
    SqrNotNegative(q);
    RootOfSquares(k, i, q);
  }

  lemma RootOfSquares(k: Maths, i: real, q: real)
    requires k.SquareRoot() && Sqr(i) + Sqr(q) >= 0.0
    ensures Magnitude(k, i, q) >= 0.0 && Sqr(Magnitude(k, i, q)) == Sqr(i) + Sqr(q)
  {}

  // ---------- the fade leveller ----------

  function Decay(m: real, n: nat): real
    decreases n
  {
    if n == 0 then 1.0 else m * Decay(m, n - 1)
  }

  /** The leveller after n samples of one audio and one carrier. */
  function Levels(cfg: Settings, fade: Fade, audio: real, carrier: real, n: nat): Fade
    decreases n
  {
    if n == 0 then fade else Levelled(cfg, Levels(cfg, fade, audio, carrier, n - 1), audio, carrier)
  }

  predicate Averages(cfg: Settings) {
    cfg.levelfade && cfg.onemMtauR == 1.0 - cfg.mtauR && cfg.onemMtauI == 1.0 - cfg.mtauI
  }

  /** Its two averages approach the audio and the carrier, each by its own time constant, and
      what is heard is the audio with its short average replaced by the carrier's long one. */
  lemma {:induction false} LevelSettles(cfg: Settings, fade: Fade, audio: real, carrier: real, n: nat)
    requires Averages(cfg)
    ensures var f := Levels(cfg, fade, audio, carrier, n);
            && f.dc - audio == Decay(cfg.mtauR, n) * (fade.dc - audio)
            && f.dcInsert - carrier == Decay(cfg.mtauI, n) * (fade.dcInsert - carrier)
            && Inserted(cfg, f, audio) - carrier == (f.dcInsert - carrier) - (f.dc - audio)
    decreases n
  {
    hide Decay, Levels;
    if n == 0 {
      NoDecay(cfg, fade, audio, carrier);
    } else {
      LevelSettles(cfg, fade, audio, carrier, n - 1);
      var f := Levels(cfg, fade, audio, carrier, n - 1);
      OneDecay(cfg, fade, audio, carrier, n);
      Approach(cfg.mtauR, f.dc, audio, Decay(cfg.mtauR, n - 1), fade.dc - audio);
      Approach(cfg.mtauI, f.dcInsert, carrier, Decay(cfg.mtauI, n - 1), fade.dcInsert - carrier);
    }
  }

  lemma NoDecay(cfg: Settings, fade: Fade, audio: real, carrier: real)
    ensures Levels(cfg, fade, audio, carrier, 0) == fade && Decay(cfg.mtauR, 0) == 1.0 == Decay(cfg.mtauI, 0)
  {}

  lemma OneDecay(cfg: Settings, fade: Fade, audio: real, carrier: real, n: nat)
    requires n > 0
    ensures Levels(cfg, fade, audio, carrier, n) ==
            Levelled(cfg, Levels(cfg, fade, audio, carrier, n - 1), audio, carrier)
    ensures Decay(cfg.mtauR, n) == cfg.mtauR * Decay(cfg.mtauR, n - 1)
    ensures Decay(cfg.mtauI, n) == cfg.mtauI * Decay(cfg.mtauI, n - 1)
  {}

  lemma Approach(m: real, x: real, goal: real, d: real, gap: real)
    requires x - goal == d * gap
    ensures m * x + (1.0 - m) * goal - goal == m * d * gap
  {
    assert m * x + (1.0 - m) * goal - goal == m * (x - goal);
  }

  /** Off, it does nothing. */
  lemma LevelOff(cfg: Settings, fade: Fade, audio: real, carrier: real)
    requires !cfg.levelfade
    ensures Levelled(cfg, fade, audio, carrier) == fade && Inserted(cfg, fade, audio) == audio
  {}

  /** The synchronous mode levels its audio against the part along the oscillator. */
  lemma StepLevels(k: Maths, s: State, x: Input)
    requires k.Pythagoras() && Wired(s.filters) && Averages(x.cfg)
    ensures var phs, m, y, f := s.loop.phs, MixOf(k, s, x), Plain(k, s, x), Step(k, s, x).fade;
            var along := m.ai + m.bq;
            && along * k.cos(phs) - Across(m) * k.sin(phs) == x.i
            && along * k.sin(phs) + Across(m) * k.cos(phs) == x.q
            && f.dc - y == x.cfg.mtauR * (s.fade.dc - y)
            && f.dcInsert - along == x.cfg.mtauI * (s.fade.dcInsert - along)
            && Heard(k, s, x) == y + (f.dcInsert - f.dc)
  {
    hide Mixed, Separated, Locked, Detected, Advanced, Plain, Maths.Pythagoras;
    var m := MixOf(k, s, x);
    BothIsAlong(k, s.loop.phs, x.i, x.q, m);
    Approach(x.cfg.mtauR, s.fade.dc, Plain(k, s, x), 1.0, s.fade.dc - Plain(k, s, x));
    Approach(x.cfg.mtauI, s.fade.dcInsert, m.ai + m.bq, 1.0, s.fade.dcInsert - (m.ai + m.bq));
  }

  /** The envelope mode levels its audio against itself. */
  lemma {:induction false} EnvelopeLevels(k: Maths, s: Fade, xs: seq<Input>, cfg: Settings, a: real, n: nat)
    requires n <= |xs| && forall j :: 0 <= j < |xs| ==> xs[j].cfg == cfg && Magnitude(k, xs[j].i, xs[j].q) == a
    ensures EnvelopeRun(k, s, xs, n) == Levels(cfg, s, a, a, n)
    ensures n < |xs| ==> EnvelopeSound(k, s, xs, n) == Inserted(cfg, Levels(cfg, s, a, a, n + 1), a)
    decreases n
  {
    hide Magnitude, Levelled, Inserted;
    if n > 0 {
      EnvelopeLevels(k, s, xs, cfg, a, n - 1);
    }
  }

  // ---------- the buffers ----------

  /** A finished buffer carries every sound on both channels. */
  lemma BothChannels(ys: seq<real>, buf: seq<real>, n: nat, i: nat)
    requires n <= |ys| && 2 * n <= |buf| && i < n
    ensures Woven(ys, buf, n)[2 * i] == ys[i] == Woven(ys, buf, n)[2 * i + 1]
  {}
}
