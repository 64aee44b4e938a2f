/** The synchronous AM demodulator of amd.c as a function of its state and one sample. */
module Demodulator {
  import opened Reals
  import opened AllPass

  const TWOPI := 6.2831853071795864

  const C0: seq<real> := [
    -0.328201924180698, -0.744171491539427, -0.923022915444215, -0.978490468768238,
    -0.994128272402075, -0.998458978159551, -0.999790306259206]

  const C1: seq<real> := [
    -0.0991227952747244, -0.565619728761389, -0.857467122550052, -0.959123933111275,
    -0.988739372718090, -0.996959189310611, -0.999282492800792]

  lemma CoefficientsStable()
    ensures Stable(C0) && Stable(C1) && |C0| == |C1| == 7
  {}

  /** The C library functions the demodulator calls. */
  datatype Maths = Maths(sin: real -> real, cos: real -> real, sqrt: real -> real, atan2: (real, real) -> real)
  {
    ghost predicate Pythagoras() {
      forall x :: Sqr(cos(x)) + Sqr(sin(x)) == 1.0
    }

    ghost predicate WholeTurn() {
      forall x :: sin(x + TWOPI) == sin(x) && cos(x + TWOPI) == cos(x)
    }

    ghost predicate SumAt(x: real, y: real) {
      sin(x + y) == sin(x) * cos(y) + cos(x) * sin(y) && cos(x + y) == cos(x) * cos(y) - sin(x) * sin(y)
    }

    /** The sine and cosine of a sum. */
    ghost predicate Sums() {
      forall x, y :: SumAt(x, y)
    }

    ghost predicate AngleAt(a: real, e: real) {
      atan2(a * sin(e), a * cos(e)) == e
    }

    /** The four-quadrant arc tangent is the angle of any vector, within half a turn. */
    ghost predicate Quadrants(pi: real) {
      forall a, e :: a > 0.0 && -pi < e < pi ==> AngleAt(a, e)
    }

    ghost predicate SquareRoot() {
      forall x :: x >= 0.0 ==> sqrt(x) >= 0.0 && sqrt(x) * sqrt(x) == x
    }

    /** The range of the four-quadrant arc tangent. */
    ghost predicate Reaches(pi: real) {
      forall y, x :: -pi <= atan2(y, x) <= pi
    }
  }

  datatype Sideband = Both | Lower | Upper

  datatype Settings = Settings(sbmode: Sideband, levelfade: bool, omegaMin: real, omegaMax: real, g1: real, g2: real,
                               mtauR: real, onemMtauR: real, mtauI: real, onemMtauI: real)

  /** Products of a sample with the oscillator, or their phase-shifted outputs. */
  datatype Mix = Mix(ai: real, bi: real, aq: real, bq: real)

  datatype Filters = Filters(a: Taps, b: Taps, c: Taps, d: Taps, dsI: real, dsQ: real)

  datatype Loop = Loop(phs: real, omega: real, filOut: real)

  datatype Fade = Fade(dc: real, dcInsert: real)

  datatype State = State(filters: Filters, loop: Loop, fade: Fade)

  predicate Wired(f: Filters) {
    Fits(C0, f.a) && Fits(C1, f.b) && Fits(C0, f.c) && Fits(C1, f.d)
  }

  function Mixed(k: Maths, phs: real, i: real, q: real): Mix {
    Mix(i * k.cos(phs), i * k.sin(phs), q * k.cos(phs), q * k.sin(phs))
  }

  /** The cascades after one sample: a and c see their input one sample late. */
  function Filtered(f: Filters, x: Mix): (f': Filters)
    requires Wired(f)
    ensures Wired(f')
  {
    Filters(Next(C0, f.dsI, f.a), Next(C1, x.bi, f.b), Next(C0, f.dsQ, f.c), Next(C1, x.aq, f.d), x.ai, x.bq)
  }

  function Separated(f: Filters, x: Mix): Mix
    requires Wired(f)
  {
    Mix(Output(C0, f.dsI, f.a), Output(C1, x.bi, f.b), Output(C1, x.aq, f.d), Output(C0, f.dsQ, f.c))
  }

  function Audio(sbmode: Sideband, x: Mix, ps: Mix): real {
    match sbmode
    case Both => x.ai + x.bq
    case Lower => (ps.ai - ps.bi) + (ps.aq + ps.bq)
    case Upper => (ps.ai + ps.bi) - (ps.aq - ps.bq)
  }

  function Levelled(cfg: Settings, fade: Fade, audio: real, carrier: real): Fade {
    if cfg.levelfade then
      Fade(cfg.mtauR * fade.dc + cfg.onemMtauR * audio, cfg.mtauI * fade.dcInsert + cfg.onemMtauI * carrier)
    else fade
  }

  function Inserted(cfg: Settings, fade: Fade, audio: real): real {
    if cfg.levelfade then audio + (fade.dcInsert - fade.dc) else audio
  }

  // ---------- the phase-locked loop ----------

  function Turned(n: int): real {
    n as real * TWOPI
  }

  /** A phase brought into one turn. */
  function Wrap(x: real): real {
    x - Turned((x / TWOPI).Floor)
  }

  function Clamp(low: real, high: real, x: real): real {
    var y := if x < low then low else x;
    if y > high then high else y
  }

  function Detected(k: Maths, re: real, im: real): real {
    k.atan2(im, if re == 0.0 && im == 0.0 then 1.0 else re)
  }

  function Locked(cfg: Settings, l: Loop, det: real): Loop {
    var omega := Clamp(cfg.omegaMin, cfg.omegaMax, l.omega + cfg.g2 * det);
    Loop(Wrap(l.phs + l.filOut), omega, cfg.g1 * det + omega)
  }

  // ---------- one sample ----------

  datatype Input = Input(cfg: Settings, i: real, q: real)

  /** The four paths of one sample. */
  function MixOf(k: Maths, s: State, x: Input): Mix {
    Mixed(k, s.loop.phs, x.i, x.q)
  }

  function Advanced(f: Filters, x: Mix, sbmode: Sideband): (f': Filters)
    requires Wired(f)
    ensures Wired(f')
  {
    if sbmode == Both then f else Filtered(f, x)
  }

  function Plain(k: Maths, s: State, x: Input): real
    requires Wired(s.filters)
  {
    Audio(x.cfg.sbmode, MixOf(k, s, x), Separated(s.filters, MixOf(k, s, x)))
  }

  function Step(k: Maths, s: State, x: Input): (s': State)
    requires Wired(s.filters)
    ensures Wired(s'.filters)
  {
    var m := MixOf(k, s, x);
    State(Advanced(s.filters, m, x.cfg.sbmode),
          Locked(x.cfg, s.loop, Detected(k, m.ai + m.bq, -m.bi + m.aq)),
          Levelled(x.cfg, s.fade, Plain(k, s, x), m.ai + m.bq))
  }

  function Heard(k: Maths, s: State, x: Input): real
    requires Wired(s.filters)
  {
    Inserted(x.cfg, Step(k, s, x).fade, Plain(k, s, x))
  }

  /** The state after the first n samples of a run, in which every sample may come with
      other settings. */
  function Run(k: Maths, s: State, xs: seq<Input>, n: nat): (s': State)
    requires Wired(s.filters) && n <= |xs|
    ensures Wired(s'.filters)
    decreases n
  {
    if n == 0 then s else Step(k, Run(k, s, xs, n - 1), xs[n - 1])
  }

  /** What sample n of a run sounds like. */
  function Sound(k: Maths, s: State, xs: seq<Input>, n: nat): real
    requires Wired(s.filters) && n < |xs|
  {
    Heard(k, Run(k, s, xs, n), xs[n])
  }

  /** How a run is cut into buffers makes no difference. */
  lemma {:induction false} RunSplits(k: Maths, s: State, xs: seq<Input>, ys: seq<Input>, n: nat)
    requires Wired(s.filters) && n <= |ys|
    ensures Run(k, s, xs + ys, |xs| + n) == Run(k, Run(k, s, xs, |xs|), ys, n)
    decreases n
  {
    hide Step;
    if n == 0 {
      RunPrefix(k, s, xs, ys, |xs|);
    } else {
      RunSplits(k, s, xs, ys, n - 1);
      assert (xs + ys)[|xs| + n - 1] == ys[n - 1];
    }
  }

  lemma {:induction false} RunPrefix(k: Maths, s: State, xs: seq<Input>, ys: seq<Input>, n: nat)
    requires Wired(s.filters) && n <= |xs|
    ensures Run(k, s, xs + ys, n) == Run(k, s, xs, n)
    decreases n
  {
    hide Step;
    if n > 0 {
      RunPrefix(k, s, xs, ys, n - 1);
      assert (xs + ys)[n - 1] == xs[n - 1];
    }
  }

  // ---------- energy over runs ----------

  function Power(m: Mix): real {
    Sqr(m.ai) + Sqr(m.bi) + Sqr(m.aq) + Sqr(m.bq)
  }

  /** What the cascades and the two delays hold. */
  ghost function Energy(f: Filters): real
    requires Wired(f)
  {
    CoefficientsStable();
    Kept(C0, f.a) + Kept(C1, f.b) + Kept(C0, f.c) + Kept(C1, f.d) + Sqr(f.dsI) + Sqr(f.dsQ)
  }

  lemma FiltersLossless(f: Filters, x: Mix)
    requires Wired(f)
    ensures Power(x) + Energy(f) == Power(Separated(f, x)) + Energy(Filtered(f, x))
  {
    hide Sqr, Kept, Output, Next, C0, C1;
    CoefficientsStable();
    CascadeLossless(C0, f.dsI, f.a);
    CascadeLossless(C1, x.bi, f.b);
    CascadeLossless(C0, f.dsQ, f.c);
    CascadeLossless(C1, x.aq, f.d);
  }

  /** What the loop corrects with is the sample turned back by the phase: its length is kept,
      and turning it on again gives the sample. */
  lemma CorrectionTurns(k: Maths, phs: real, i: real, q: real)
    requires k.Pythagoras()
    ensures var m := Mixed(k, phs, i, q);
            var re, im := m.ai + m.bq, -m.bi + m.aq;
            && Sqr(re) + Sqr(im) == Sqr(i) + Sqr(q)
            && re * k.cos(phs) - im * k.sin(phs) == i && re * k.sin(phs) + im * k.cos(phs) == q
  {
    TurnedBack(k.cos(phs), k.sin(phs), i, q);
  }

  lemma TurnedBack(c: real, s: real, i: real, q: real)
    requires Sqr(c) + Sqr(s) == 1.0
    ensures var re, im := i * c + q * s, -(i * s) + q * c;
            Sqr(re) + Sqr(im) == Sqr(i) + Sqr(q) && re * c - im * s == i && re * s + im * c == q
  {
    var re, im := i * c + q * s, -(i * s) + q * c;
    assert Sqr(re) + Sqr(im) == (Sqr(i) + Sqr(q)) * (Sqr(c) + Sqr(s));
    assert re * c - im * s == i * (Sqr(c) + Sqr(s));
    assert re * s + im * c == q * (Sqr(c) + Sqr(s));
  }

  /** Mixing with the oscillator keeps a sample's power. */
  lemma MixPower(k: Maths, phs: real, i: real, q: real)
    requires k.Pythagoras()
    ensures Power(Mixed(k, phs, i, q)) == Sqr(i) + Sqr(q)
  {
    hide Sqr;
    var m := Mixed(k, phs, i, q);
    Spread(i, k.cos(phs), k.sin(phs), m.ai, m.bi);
    Spread(q, k.cos(phs), k.sin(phs), m.aq, m.bq);
  }

  lemma Spread(x: real, c: real, s: real, p: real, r: real)
    requires Sqr(c) + Sqr(s) == 1.0 && p == x * c && r == x * s
    ensures Sqr(p) + Sqr(r) == Sqr(x)
  {
    assert Sqr(x * c) + Sqr(x * s) == Sqr(x) * (Sqr(c) + Sqr(s));
  }

  /** The power of the samples the cascades saw. */
  function PowerIn(xs: seq<Input>, n: nat): real
    requires n <= |xs|
    decreases n
  {
    if n == 0 then 0.0
    else PowerIn(xs, n - 1) + if xs[n - 1].cfg.sbmode == Both then 0.0 else Sqr(xs[n - 1].i) + Sqr(xs[n - 1].q)
  }

  /** The power of the four phase-shifted outputs they gave. */
  function PowerOut(k: Maths, s: State, xs: seq<Input>, n: nat): real
    requires Wired(s.filters) && n <= |xs|
    decreases n
  {
    if n == 0 then 0.0
    else
      var before, x := Run(k, s, xs, n - 1), xs[n - 1];
      PowerOut(k, s, xs, n - 1)
      + if x.cfg.sbmode == Both then 0.0 else Power(Separated(before.filters, MixOf(k, before, x)))
  }

  /** Over any run, with the sideband mode changed at will, what came out and what is held
      is what went in and what was held. */
  lemma {:induction false} EnergyConserved(k: Maths, s: State, xs: seq<Input>, n: nat)
    requires k.Pythagoras() && Wired(s.filters) && n <= |xs|
    ensures PowerIn(xs, n) + Energy(s.filters) == PowerOut(k, s, xs, n) + Energy(Run(k, s, xs, n).filters)
    decreases n
  {
    hide Energy, Power, Filtered, Separated, Mixed, Sqr;
    if n > 0 {
      EnergyConserved(k, s, xs, n - 1);
      var before, x := Run(k, s, xs, n - 1), xs[n - 1];
      FiltersLossless(before.filters, MixOf(k, before, x));
      MixPower(k, before.loop.phs, x.i, x.q);
    }
  }

  lemma EnergyNotNegative(f: Filters)
    requires Wired(f)
    ensures Energy(f) >= 0.0
  {
    hide Stored, Sqr, C0, C1;
    CoefficientsStable();
    StoredNotNegative(C0, f.a, |C0|);
    StoredNotNegative(C1, f.b, |C1|);
    StoredNotNegative(C0, f.c, |C0|);
    StoredNotNegative(C1, f.d, |C1|);
    SqrNotNegative(f.dsI);
    SqrNotNegative(f.dsQ);
  }

  /** So the outputs can never carry more than has gone in. */
  lemma OutputBounded(k: Maths, s: State, xs: seq<Input>, n: nat)
    requires k.Pythagoras() && Wired(s.filters) && n <= |xs|
    ensures PowerOut(k, s, xs, n) <= PowerIn(xs, n) + Energy(s.filters)
  {
    EnergyConserved(k, s, xs, n);
    EnergyNotNegative(Run(k, s, xs, n).filters);
  }

  /** The two sidebands share out the sum and the difference of the two paths. */
  lemma SidebandsShare(x: Mix, ps: Mix)
    ensures Audio(Lower, x, ps) + Audio(Upper, x, ps) == 2.0 * (ps.ai + ps.bq)
    ensures Audio(Lower, x, ps) - Audio(Upper, x, ps) == 2.0 * (ps.aq - ps.bi)
    ensures Sqr(Audio(Lower, x, ps)) + Sqr(Audio(Upper, x, ps)) == 2.0 * (Sqr(ps.ai + ps.bq) + Sqr(ps.aq - ps.bi))
  {}

  // ---------- the cascades see the samples with a sideband selected ----------

  /** The mixes of the samples among the first n that the cascades saw. */
  function Seen(k: Maths, s: State, xs: seq<Input>, n: nat): seq<Mix>
    requires Wired(s.filters) && n <= |xs|
    decreases n
  {
    if n == 0 then []
    else
      var before, x := Run(k, s, xs, n - 1), xs[n - 1];
      Seen(k, s, xs, n - 1) + if x.cfg.sbmode == Both then [] else [MixOf(k, before, x)]
  }

  function Fed(f: Filters, ms: seq<Mix>, n: nat): (f': Filters)
    requires Wired(f) && n <= |ms|
    ensures Wired(f')
    decreases n
  {
    if n == 0 then f else Filtered(Fed(f, ms, n - 1), ms[n - 1])
  }

  lemma {:induction false} FedPrefix(f: Filters, ms: seq<Mix>, m: Mix, n: nat)
    requires Wired(f) && n <= |ms|
    ensures Fed(f, ms + [m], n) == Fed(f, ms, n)
    decreases n
  {
    hide Filtered;
    if n > 0 {
      FedPrefix(f, ms, m, n - 1);
    }
  }

  lemma {:induction false} FiltersFed(k: Maths, s: State, xs: seq<Input>, n: nat)
    requires Wired(s.filters) && n <= |xs|
    ensures Run(k, s, xs, n).filters == Fed(s.filters, Seen(k, s, xs, n), |Seen(k, s, xs, n)|)
    decreases n
  {
    hide Filtered, MixOf, Locked, Levelled, Plain;
    if n > 0 {
      FiltersFed(k, s, xs, n - 1);
      var before, x := Run(k, s, xs, n - 1), xs[n - 1];
      var ms := Seen(k, s, xs, n - 1);
      if x.cfg.sbmode != Both {
        var m := MixOf(k, before, x);
        FedPrefix(s.filters, ms, m, |ms|);
        assert Seen(k, s, xs, n) == ms + [m];
        assert Fed(s.filters, ms + [m], |ms| + 1) == Filtered(before.filters, m);
      } else {
        assert Seen(k, s, xs, n) == ms;
      }
    }
  }

  /** The inputs of the four cascades over a run of mixes. */
  function LateAi(f: Filters, ms: seq<Mix>): seq<real> {
    seq(|ms|, n requires 0 <= n < |ms| => if n == 0 then f.dsI else ms[n - 1].ai)
  }

  function LateBq(f: Filters, ms: seq<Mix>): seq<real> {
    seq(|ms|, n requires 0 <= n < |ms| => if n == 0 then f.dsQ else ms[n - 1].bq)
  }

  function AllBi(ms: seq<Mix>): seq<real> {
    seq(|ms|, n requires 0 <= n < |ms| => ms[n].bi)
  }

  function AllAq(ms: seq<Mix>): seq<real> {
    seq(|ms|, n requires 0 <= n < |ms| => ms[n].aq)
  }

  lemma {:induction false} FedIsAfter(f: Filters, ms: seq<Mix>, n: nat)
    requires Wired(f) && n <= |ms|
    ensures var f' := Fed(f, ms, n);
            && f'.a == After(C0, f.a, LateAi(f, ms), n) && f'.b == After(C1, f.b, AllBi(ms), n)
            && f'.c == After(C0, f.c, LateBq(f, ms), n) && f'.d == After(C1, f.d, AllAq(ms), n)
            && f'.dsI == (if n == 0 then f.dsI else ms[n - 1].ai)
            && f'.dsQ == (if n == 0 then f.dsQ else ms[n - 1].bq)
    decreases n
  {
    hide C0, C1, Next;
    if n > 0 {
      FedIsAfter(f, ms, n - 1);
    }
  }

  /** Each phase-shifted output is the last signal of its cascade's textbook recurrence. */
  lemma SeparatedIsTextbook(f: Filters, ms: seq<Mix>, n: nat)
    requires Wired(f) && n < |ms|
    ensures var ps := Separated(Fed(f, ms, n), ms[n]);
            && ps.ai == Signal(C0, f.a, LateAi(f, ms), |C0|, n) && ps.bi == Signal(C1, f.b, AllBi(ms), |C1|, n)
            && ps.bq == Signal(C0, f.c, LateBq(f, ms), |C0|, n) && ps.aq == Signal(C1, f.d, AllAq(ms), |C1|, n)
  {
    hide C0, C1, Next, Node, Signal, Fed;
    FedIsAfter(f, ms, n);
    NodeIsSignal(C0, f.a, LateAi(f, ms), |C0|, n);
    NodeIsSignal(C1, f.b, AllBi(ms), |C1|, n);
    NodeIsSignal(C0, f.c, LateBq(f, ms), |C0|, n);
    NodeIsSignal(C1, f.d, AllAq(ms), |C1|, n);
  }

  // ---------- the loop over runs ----------

  lemma WrapWithin(x: real)
    ensures 0.0 <= Wrap(x) < TWOPI
  {
    var q := x / TWOPI;
    assert x == q * TWOPI;
    assert q.Floor as real <= q < q.Floor as real + 1.0;
  }

  lemma WrapUnique(x: real, r: real, n: int)
    requires 0.0 <= r < TWOPI && r == x - Turned(n)
    ensures Wrap(x) == r
  {
    var q := x / TWOPI;
    assert x == q * TWOPI;
    assert n as real <= q < n as real + 1.0;
    assert q.Floor == n;
  }

  lemma WrapAdds(x: real, y: real)
    ensures Wrap(Wrap(x) + y) == Wrap(x + y)
  {
    var n, m := (x / TWOPI).Floor, ((Wrap(x) + y) / TWOPI).Floor;
    WrapWithin(Wrap(x) + y);
    assert Turned(n) + Turned(m) == Turned(n + m);
    WrapUnique(x + y, Wrap(Wrap(x) + y), n + m);
  }

  /** The phase that has accumulated, were it never brought back into one turn. */
  function Unwrapped(k: Maths, s: State, xs: seq<Input>, n: nat): real
    requires Wired(s.filters) && n <= |xs|
    decreases n
  {
    if n == 0 then s.loop.phs
    else Unwrapped(k, s, xs, n - 1) + Run(k, s, xs, n - 1).loop.filOut
  }

  lemma PhaseNext(k: Maths, s: State, x: Input)
    requires Wired(s.filters)
    ensures Step(k, s, x).loop.phs == Wrap(s.loop.phs + s.loop.filOut)
  {
    hide Wrap, Mixed, Separated, Advanced, Detected, Levelled, Plain;
  }

  lemma {:induction false} PhaseWrapped(k: Maths, s: State, xs: seq<Input>, n: nat)
    requires Wired(s.filters) && n <= |xs| && 0.0 <= s.loop.phs < TWOPI
    ensures Run(k, s, xs, n).loop.phs == Wrap(Unwrapped(k, s, xs, n))
    decreases n
  {
    hide Wrap, Step;
    if n == 0 {
      assert Turned(0) == 0.0;
      WrapUnique(s.loop.phs, s.loop.phs, 0);
    } else {
      PhaseWrapped(k, s, xs, n - 1);
      PhaseNext(k, Run(k, s, xs, n - 1), xs[n - 1]);
      WrapAdds(Unwrapped(k, s, xs, n - 1), Run(k, s, xs, n - 1).loop.filOut);
    }
  }

  lemma {:induction false} TurnsInvisible(k: Maths, x: real, n: int)
    requires k.WholeTurn()
    ensures k.cos(x - Turned(n)) == k.cos(x) && k.sin(x - Turned(n)) == k.sin(x)
    decreases if n < 0 then -n else n
  {
    hide Turned;
    TurnedSteps(n);
    if n > 0 {
      TurnsInvisible(k, x, n - 1);
      assert x - Turned(n - 1) == x - Turned(n) + TWOPI;
    } else if n < 0 {
      TurnsInvisible(k, x, n + 1);
      assert x - Turned(n) == x - Turned(n + 1) + TWOPI;
    }
  }

  lemma TurnedSteps(n: int)
    ensures Turned(0) == 0.0 && Turned(n) == Turned(n - 1) + TWOPI && Turned(n + 1) == Turned(n) + TWOPI
  {}

  /** Over any run the phase stays within one turn and the oscillator is the one of the
      unwrapped phase. */
  lemma OscillatorUnwrapped(k: Maths, s: State, xs: seq<Input>, n: nat)
    requires k.WholeTurn() && Wired(s.filters) && n <= |xs| && 0.0 <= s.loop.phs < TWOPI
    ensures var phs := Run(k, s, xs, n).loop.phs;
            && 0.0 <= phs < TWOPI
            && k.cos(phs) == k.cos(Unwrapped(k, s, xs, n)) && k.sin(phs) == k.sin(Unwrapped(k, s, xs, n))
  {
    hide Turned, Run;
    PhaseWrapped(k, s, xs, n);
    var u := Unwrapped(k, s, xs, n);
    WrapWithin(u);
    TurnsInvisible(k, u, (u / TWOPI).Floor);
  }

  /** The frequency stays between its limits, the loop filter within the detector's reach. */
  lemma FrequencyLimited(k: Maths, s: State, xs: seq<Input>, n: nat, pi: real)
    requires Wired(s.filters) && n < |xs| && xs[n].cfg.omegaMin <= xs[n].cfg.omegaMax
    requires k.Reaches(pi)
    ensures var l, cfg := Run(k, s, xs, n + 1).loop, xs[n].cfg;
            && cfg.omegaMin <= l.omega <= cfg.omegaMax
            && (cfg.g1 >= 0.0 ==> l.omega - cfg.g1 * pi <= l.filOut <= l.omega + cfg.g1 * pi)
  {
    hide Locked, Advanced, Levelled, Plain, Detected, MixOf, Maths.Reaches;
    var before, x := Run(k, s, xs, n), xs[n];
    var m := MixOf(k, before, x);
    DetectorReach(k, m.ai + m.bq, -m.bi + m.aq, pi);
    LockedLimited(x.cfg, before.loop, Detected(k, m.ai + m.bq, -m.bi + m.aq), pi);
  }

  lemma DetectorReach(k: Maths, re: real, im: real, pi: real)
    requires k.Reaches(pi)
    ensures -pi <= Detected(k, re, im) <= pi
  {}

  lemma LockedLimited(cfg: Settings, l: Loop, det: real, pi: real)
    requires cfg.omegaMin <= cfg.omegaMax && -pi <= det <= pi
    ensures var l' := Locked(cfg, l, det);
            && cfg.omegaMin <= l'.omega <= cfg.omegaMax
            && (cfg.g1 >= 0.0 ==> l'.omega - cfg.g1 * pi <= l'.filOut <= l'.omega + cfg.g1 * pi)
  {
    hide Wrap;
    Within(cfg.g1, det, pi);
  }

  lemma Within(g: real, x: real, pi: real)
    requires -pi <= x <= pi
    ensures g >= 0.0 ==> -(g * pi) <= g * x <= g * pi
  {
    Signs(g, pi - x);
    Signs(g, pi + x);
    assert g * (pi - x) == g * pi - g * x && g * (pi + x) == g * pi + g * x;
  }

  // ---------- the envelope mode ----------

  function Magnitude(k: Maths, i: real, q: real): real {
    k.sqrt(i * i + q * q)
  }

  /** The fade leveller after the first n samples of the envelope mode. */
  function EnvelopeRun(k: Maths, s: Fade, xs: seq<Input>, n: nat): Fade
    requires n <= |xs|
    decreases n
  {
    if n == 0 then s
    else
      var x := xs[n - 1];
      var audio := Magnitude(k, x.i, x.q);
      Levelled(x.cfg, EnvelopeRun(k, s, xs, n - 1), audio, audio)
  }

  function EnvelopeSound(k: Maths, s: Fade, xs: seq<Input>, n: nat): real
    requires n < |xs|
  {
    Inserted(xs[n].cfg, EnvelopeRun(k, s, xs, n + 1), Magnitude(k, xs[n].i, xs[n].q))
  }

  // ---------- buffers ----------

  /** The samples of an interleaved buffer. */
  function Inputs(cfg: Settings, buf: seq<real>, n: nat): (xs: seq<Input>)
    requires 2 * n <= |buf|
    ensures |xs| == n
  {
    seq(n, i requires 0 <= i < n => Input(cfg, buf[2 * i], buf[2 * i + 1]))
  }

  lemma InputsAt(cfg: Settings, buf: seq<real>, n: nat, i: nat)
    requires 2 * n <= |buf| && i < n
    ensures Inputs(cfg, buf, n)[i] == Input(cfg, buf[2 * i], buf[2 * i + 1])
  {}

  function Sounds(k: Maths, s: State, xs: seq<Input>): (ys: seq<real>)
    requires Wired(s.filters)
    ensures |ys| == |xs|
  {
    seq(|xs|, n requires 0 <= n < |xs| => Sound(k, s, xs, n))
  }

  function EnvelopeSounds(k: Maths, s: Fade, xs: seq<Input>): (ys: seq<real>)
    ensures |ys| == |xs|
  {
    seq(|xs|, n requires 0 <= n < |xs| => EnvelopeSound(k, s, xs, n))
  }

  /** A buffer whose first n sample pairs carry ys on both channels. */
  function Woven(ys: seq<real>, buf: seq<real>, n: nat): (r: seq<real>)
    requires n <= |ys| && 2 * n <= |buf|
    ensures |r| == |buf|
  {
    seq(|buf|, p requires 0 <= p < |buf| => if p < 2 * n then ys[p / 2] else buf[p])
  }

  lemma WovenStep(ys: seq<real>, buf: seq<real>, n: nat, y: real, r: seq<real>)
    requires n < |ys| && 2 * n + 2 <= |buf| && y == ys[n] && r == Woven(ys, buf, n)
    ensures r[2 * n := y][2 * n + 1 := y] == Woven(ys, buf, n + 1)
    ensures forall j :: 2 * n <= j < |buf| ==> r[j] == buf[j]
  {}

  lemma WovenRest(ys: seq<real>, buf: seq<real>, n: nat)
    requires n < |ys| && 2 * n + 2 <= |buf|
    ensures Woven(ys, buf, n)[2 * n] == buf[2 * n] && Woven(ys, buf, n)[2 * n + 1] == buf[2 * n + 1]
  {}

  lemma WovenStart(ys: seq<real>, buf: seq<real>)
    ensures Woven(ys, buf, 0) == buf
  {}
}
