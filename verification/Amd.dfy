/** The demodulator record of amd.c and xamd, which works on its buffers in place. */
module Amd {
  import opened AllPass
  import opened Demodulator
  import opened Reals

  /** What create_amd is given to compute the settings from: the sample rate, the limits of the
      lock, the damping and bandwidth of the loop, and the times of the fade leveller. */
  datatype Design = Design(rate: real, fmin: real, fmax: real, zeta: real, omegaN: real, tauR: real, tauI: real)
  {
    /** No divisor is zero. */
    predicate Possible() {
      rate != 0.0 && rate * tauR != 0.0 && rate * tauI != 0.0
    }

    predicate Sensible() {
      rate > 0.0 && fmin <= fmax && zeta > 0.0 && omegaN > 0.0 && tauR > 0.0 && tauI > 0.0
    }
  }

  /** A frequency as an angle a sample. */
  function Angle(f: real, rate: real): real
    requires rate != 0.0
  {
    TWOPI * f / rate
  }

  /** What is left of an average after a sample. */
  function Memory(exp: real -> real, rate: real, tau: real): real
    requires rate * tau != 0.0
  {
    exp(-1.0 / (rate * tau))
  }

  /** What the loop's oscillation loses in a sample, and how far it turns. */
  function Damping(q: Design): real
    requires q.rate != 0.0
  {
    q.omegaN * q.zeta / q.rate
  }

  function Turning(k: Maths, q: Design): real
    requires q.rate != 0.0
  {
    q.omegaN / q.rate * k.sqrt(1.0 - Sqr(q.zeta))
  }

  function FirstGain(exp: real -> real, q: Design): real
    requires q.Possible()
  {
    1.0 - exp(-2.0 * Damping(q))
  }

  function SecondGain(k: Maths, exp: real -> real, q: Design): real
    requires q.Possible()
  {
    -FirstGain(exp, q) + 2.0 * (1.0 - exp(-Damping(q)) * k.cos(Turning(k, q)))
  }

  function SettingsOf(k: Maths, exp: real -> real, levelfade: bool, sbmode: Sideband, q: Design): Settings
    requires q.Possible()
  {
    var r, i := Memory(exp, q.rate, q.tauR), Memory(exp, q.rate, q.tauI);
    Settings(sbmode, levelfade, Angle(q.fmin, q.rate), Angle(q.fmax, q.rate),
             FirstGain(exp, q), SecondGain(k, exp, q), r, 1.0 - r, i, 1.0 - i)
  }

  /** The exponential of a negative number. */
  ghost predicate Decays(exp: real -> real) {
    forall x :: x < 0.0 ==> 0.0 < exp(x) < 1.0
  }

  /** A sensible design gives what the loop and the leveller rely on: the limits of the lock
      in order, a gain that steers without overshooting, and averages. */
  lemma DesignMeets(k: Maths, exp: real -> real, levelfade: bool, sbmode: Sideband, q: Design)
    requires q.Sensible() && Decays(exp)
    ensures q.Possible()
    ensures var c := SettingsOf(k, exp, levelfade, sbmode, q);
            && c.omegaMin <= c.omegaMax && 0.0 < c.g1 < 1.0
            && 0.0 < c.mtauR < 1.0 && c.onemMtauR == 1.0 - c.mtauR
            && 0.0 < c.mtauI < 1.0 && c.onemMtauI == 1.0 - c.mtauI
  {
    hide Design.Possible, SecondGain;
    Products(q);
    NegativeRatio(1.0, q.rate * q.tauR);
    NegativeRatio(1.0, q.rate * q.tauI);
    PositiveRatio(q.omegaN * q.zeta, q.rate);
    Scaled(q.fmin, q.fmax, TWOPI);
    Commuted(q.fmin, TWOPI);
    Commuted(q.fmax, TWOPI);
    OrderedRatios(TWOPI * q.fmin, TWOPI * q.fmax, q.rate);
  }

  lemma Divisors(q: Design)
    requires q.Possible()
    ensures q.rate != 0.0 && q.rate * q.tauR != 0.0 && q.rate * q.tauI != 0.0
  {}

  lemma Products(q: Design)
    requires q.Sensible()
    ensures q.Possible() && q.rate * q.tauR > 0.0 && q.rate * q.tauI > 0.0 && q.omegaN * q.zeta > 0.0
  {
    Signs(q.rate, q.tauR);
    Signs(q.rate, q.tauI);
    Signs(q.omegaN, q.zeta);
  }

  lemma Commuted(x: real, y: real)
    ensures x * y == y * x
  {}

  lemma NegativeRatio(x: real, y: real)
    requires x > 0.0 && y > 0.0
    ensures -x / y < 0.0
  {
    PositiveRatio(x, y);
    NegatedRatio(x, y);
  }

  lemma OrderedRatios(x: real, y: real, r: real)
    requires x <= y && r > 0.0
    ensures x / r <= y / r
  {
    Shares(x, y - x, r);
    if x < y {
      PositiveRatio(y - x, r);
    }
  }

  class Demod {
    var run: bool
    var mode: int
    var buffSize: nat
    var inBuff: array<real>
    var outBuff: array<real>
    var sbmode: Sideband
    var levelfade: bool
    var omegaMin: real
    var omegaMax: real
    var g1: real
    var g2: real
    var mtauR: real
    var onemMtauR: real
    var mtauI: real
    var onemMtauI: real
    var phs: real
    var omega: real
    var filOut: real
    var dc: real
    var dcInsert: real
    var dsI: real
    var dsQ: real
    const a: array<real>
    const b: array<real>
    const c: array<real>
    const d: array<real>

    /** create_amd and init_amd: the settings computed, and every word of the delays zero. */
    constructor (k: Maths, exp: real -> real, run: bool, size: nat, input: array<real>, output: array<real>, mode: int,
                 levelfade: bool, sbmode: Sideband, q: Design)
      requires 2 * size <= input.Length && 2 * size <= output.Length && q.Possible()
      ensures Valid() && buffSize == size && inBuff == input && outBuff == output
      ensures this.run == run && this.mode == mode && Config() == SettingsOf(k, exp, levelfade, sbmode, q)
      ensures fresh(a) && fresh(b) && fresh(c) && fresh(d)
      ensures Current().loop == Loop(0.0, 0.0, 0.0) && Current().fade == Fade(0.0, 0.0)
      ensures Silent(Current().filters)
    {
      hide SettingsOf, Design.Possible, Silent, Demod.CurrentFilters, Demod.Config;
      this.run, this.mode, this.sbmode, this.levelfade := run, mode, sbmode, levelfade;
      buffSize, inBuff, outBuff := size, input, output;
      dsI, dsQ := 0.0, 0.0;
      a, b := new real[24](_ => 0.0), new real[24](_ => 0.0);
      c, d := new real[24](_ => 0.0), new real[24](_ => 0.0);
      new;
      Quiet();
      Init(k, exp, q);
    }

    lemma Quiet()
      requires Shaped() && dsI == dsQ == 0.0
      requires forall i :: 0 <= i < 24 ==> a[i] == b[i] == c[i] == d[i] == 0.0
      ensures Silent(CurrentFilters())
    {
      hide Silent, TapsOf;
      CoefficientsStable();
      AllSilent(a[..], b[..], c[..], d[..]);
    }

    /** init_amd. */
    method Init(k: Maths, exp: real -> real, q: Design)
      requires q.Possible()
      modifies this`omegaMin, this`omegaMax, this`g1, this`g2, this`mtauR, this`onemMtauR, this`mtauI, this`onemMtauI,
               this`phs, this`omega, this`filOut, this`dc, this`dcInsert
      ensures Config() == SettingsOf(k, exp, levelfade, sbmode, q)
      ensures Loop(phs, omega, filOut) == Loop(0.0, 0.0, 0.0) && Fade(dc, dcInsert) == Fade(0.0, 0.0)
    {
      hide Angle, Memory, FirstGain, SecondGain, Design.Possible;
      Divisors(q);
      omegaMin := Angle(q.fmin, q.rate);
      omegaMax := Angle(q.fmax, q.rate);
      g1 := FirstGain(exp, q);
      g2 := SecondGain(k, exp, q);
      phs, filOut, omega := 0.0, 0.0, 0.0;
      dc, dcInsert := 0.0, 0.0;
      mtauR := Memory(exp, q.rate, q.tauR);
      onemMtauR := 1.0 - mtauR;
      mtauI := Memory(exp, q.rate, q.tauI);
      onemMtauI := 1.0 - mtauI;
    }

    ghost predicate Shaped() {
      && a.Length == b.Length == c.Length == d.Length == 24
      && a != b && a != c && a != d && b != c && b != d && c != d
    }

    ghost predicate Valid()
      reads this`inBuff, this`outBuff, this`buffSize
    {
      && Shaped()
      && inBuff !in {a, b, c, d} && outBuff !in {a, b, c, d}
      && 2 * buffSize <= inBuff.Length && 2 * buffSize <= outBuff.Length
    }

    function Config(): Settings
      reads this`sbmode, this`levelfade, this`omegaMin, this`omegaMax, this`g1, this`g2
      reads this`mtauR, this`onemMtauR, this`mtauI, this`onemMtauI
    {
      Settings(sbmode, levelfade, omegaMin, omegaMax, g1, g2, mtauR, onemMtauR, mtauI, onemMtauI)
    }

    ghost function CurrentFilters(): (f: Filters)
      requires Shaped()
      reads this`dsI, this`dsQ, a, b, c, d
      ensures Wired(f)
    {
      CoefficientsStable();
      Filters(TapsOf(C0, a[..]), TapsOf(C1, b[..]), TapsOf(C0, c[..]), TapsOf(C1, d[..]), dsI, dsQ)
    }

    ghost function Current(): (s: State)
      requires Shaped()
      reads this`dsI, this`dsQ, this`phs, this`omega, this`filOut, this`dc, this`dcInsert, a, b, c, d
      ensures Wired(s.filters)
    {
      State(CurrentFilters(), Loop(phs, omega, filOut), Fade(dc, dcInsert))
    }

    /** The four cascades, all stages and the shift, for one sample. */
    method Filter(x: Mix) returns (ps: Mix)
      requires Valid()
      modifies this`dsI, this`dsQ, a, b, c, d
      ensures Valid()
      ensures ps == Separated(old(CurrentFilters()), x)
      ensures CurrentFilters() == Filtered(old(CurrentFilters()), x)
    {
      CoefficientsStable();
      hide C0, C1, Staged, Shifting, Next, Output, TapsOf;
      ghost var a0, b0, c0, d0 := a[..], b[..], c[..], d[..];
      ghost var i, q := dsI, dsQ;
      a[0], b[0], c[0], d[0] := dsI, x.bi, dsQ, x.aq;
      dsI, dsQ := x.ai, x.bq;
      RunStages(a0[0 := i], b0[0 := x.bi], c0[0 := q], d0[0 := x.aq]);
      ps := Mix(a[21], b[21], d[21], c[21]);
      Shift();
      ShiftingIsNext(C0, i, a0);
      ShiftingIsNext(C1, x.bi, b0);
      ShiftingIsNext(C0, q, c0);
      ShiftingIsNext(C1, x.aq, d0);
      ShiftingIs(C0, i, a0, a[..]);
      ShiftingIs(C1, x.bi, b0, b[..]);
      ShiftingIs(C0, q, c0, c[..]);
      ShiftingIs(C1, x.aq, d0, d[..]);
    }

    method RunStages(ghost a0: seq<real>, ghost b0: seq<real>, ghost c0: seq<real>, ghost d0: seq<real>)
      requires Valid() && |C0| == |C1| == 7
      requires a[..] == a0 && b[..] == b0 && c[..] == c0 && d[..] == d0
      modifies a, b, c, d
      ensures a[..] == Staged(C0, a0, 7) && b[..] == Staged(C1, b0, 7)
      ensures c[..] == Staged(C0, c0, 7) && d[..] == Staged(C1, d0, 7)
    {
      hide C0, C1, Staged, Section;
      StartStages(a0, b0, c0, d0);
      for j := 0 to 7
        invariant a[..] == Staged(C0, a0, j) && b[..] == Staged(C1, b0, j)
        invariant c[..] == Staged(C0, c0, j) && d[..] == Staged(C1, d0, j)
      {
        var k := 3 * j;
        StagedStep(C0, a0, j, a[..]);
        StagedStep(C1, b0, j, b[..]);
        StagedStep(C0, c0, j, c[..]);
        StagedStep(C1, d0, j, d[..]);
        a[k + 3] := Section(C0[j], a[k], a[k + 2], a[k + 5]);
        b[k + 3] := Section(C1[j], b[k], b[k + 2], b[k + 5]);
        c[k + 3] := Section(C0[j], c[k], c[k + 2], c[k + 5]);
        d[k + 3] := Section(C1[j], d[k], d[k + 2], d[k + 5]);
      }
    }

    method Shift()
      requires Valid()
      modifies a, b, c, d
      ensures a[..] == Shifted(old(a[..]), 0) && b[..] == Shifted(old(b[..]), 0)
      ensures c[..] == Shifted(old(c[..]), 0) && d[..] == Shifted(old(d[..]), 0)
    {
      hide Shifted;
      StartShift(a[..]);
      StartShift(b[..]);
      StartShift(c[..]);
      StartShift(d[..]);
      for j := 23 downto 0
        invariant a[..] == Shifted(old(a[..]), j) && b[..] == Shifted(old(b[..]), j)
        invariant c[..] == Shifted(old(c[..]), j) && d[..] == Shifted(old(d[..]), j)
      {
        ShiftedStep(old(a[..]), j, a[..]);
        ShiftedStep(old(b[..]), j, b[..]);
        ShiftedStep(old(c[..]), j, c[..]);
        ShiftedStep(old(d[..]), j, d[..]);
        a[j + 1] := a[j];
        b[j + 1] := b[j];
        c[j + 1] := c[j];
        d[j + 1] := d[j];
      }
    }

    /** The phase advances and is brought back into one turn. */
    method Advance(delOut: real)
      modifies this`phs
      ensures phs == Wrap(old(phs) + delOut)
    {
      phs := phs + delOut;
      ghost var x, n := phs, 0;
      assert Turned(0) == 0.0;
      while phs >= TWOPI
        invariant phs == x - Turned(n) && (n == 0 || phs >= 0.0)
        decreases phs
      {
        TurnedSteps(n);
        phs := phs - TWOPI;
        n := n + 1;
      }
      while phs < 0.0
        invariant phs == x - Turned(n) && phs < TWOPI
        decreases -phs
      {
        TurnedSteps(n);
        phs := phs + TWOPI;
        n := n - 1;
      }
      WrapUnique(x, phs, n);
    }

    method Detect(k: Maths, re: real, im: real) returns (det: real)
      ensures det == Detected(k, re, im)
    {
      var corr0 := re;
      if corr0 == 0.0 && im == 0.0 {
        corr0 := 1.0;
      }
      det := k.atan2(im, corr0);
    }

    method Lock(k: Maths, re: real, im: real)
      modifies this`phs, this`omega, this`filOut
      ensures Loop(phs, omega, filOut) == Locked(Config(), old(Loop(phs, omega, filOut)), Detected(k, re, im))
    {
      hide Wrap, Detected;
      var det := Detect(k, re, im);
      var delOut := filOut;
      omega := omega + g2 * det;
      if omega < omegaMin {
        omega := omegaMin;
      }
      if omega > omegaMax {
        omega := omegaMax;
      }
      filOut := g1 * det + omega;
      Advance(delOut);
    }

    method Level(audio: real, carrier: real) returns (levelled: real)
      modifies this`dc, this`dcInsert
      ensures Fade(dc, dcInsert) == Levelled(Config(), old(Fade(dc, dcInsert)), audio, carrier)
      ensures levelled == Inserted(Config(), Fade(dc, dcInsert), audio)
    {
      levelled := audio;
      if levelfade {
        dc := mtauR * dc + onemMtauR * audio;
        dcInsert := mtauI * dcInsert + onemMtauI * carrier;
        levelled := levelled + (dcInsert - dc);
      }
    }

    /** The audio of one sample: the cascades run only for a single sideband. */
    method Separate(m: Mix) returns (audio: real)
      requires Valid()
      modifies this`dsI, this`dsQ, a, b, c, d
      ensures Valid()
      ensures CurrentFilters() == if sbmode == Both then old(CurrentFilters()) else Filtered(old(CurrentFilters()), m)
      ensures audio == Audio(sbmode, m, if sbmode == Both then m else Separated(old(CurrentFilters()), m))
    {
      hide Filtered, Separated, Demod.CurrentFilters;
      var ps := m;
      if sbmode != Both {
        ps := Filter(m);
      }
      match sbmode {
        case Both => audio := m.ai + m.bq;
        case Lower => audio := (ps.ai - ps.bi) + (ps.aq + ps.bq);
        case Upper => audio := (ps.ai + ps.bi) - (ps.aq - ps.bq);
      }
    }

    /** One sample of the synchronous mode. */
    method Sample(k: Maths, i: real, q: real) returns (audio: real)
      requires Valid()
      modifies this`dsI, this`dsQ, this`phs, this`omega, this`filOut, this`dc, this`dcInsert, a, b, c, d
      ensures Valid()
      ensures Current() == Step(k, old(Current()), Input(Config(), i, q))
      ensures audio == Heard(k, old(Current()), Input(Config(), i, q))
    {
      hide Filtered, Separated, Locked, Levelled, Detected, Inserted, Mixed, Step, Heard, Audio;
      hide Demod.CurrentFilters;
      ghost var s, x := Current(), Input(Config(), i, q);
      var m := Mixed(k, phs, i, q);
      audio := Separate(m);
      var corr0, corr1 := m.ai + m.bq, -m.bi + m.aq;
      audio := Level(audio, corr0);
      Lock(k, corr0, corr1);
      StepIs(k, s, x, m, corr0, corr1);
    }

    /** Sample i of the buffers, in the synchronous mode. */
    method SynchronousAt(k: Maths, i: nat, ghost s: State, ghost xs: seq<Input>, ghost ys: seq<real>,
                         ghost buf: seq<real>)
      requires Valid() && Wired(s.filters) && i < buffSize == |xs| && |buf| == outBuff.Length
      requires xs[i] == Input(Config(), inBuff[2 * i], inBuff[2 * i + 1])
      requires Current() == Run(k, s, xs, i) && ys == Sounds(k, s, xs) && outBuff[..] == Woven(ys, buf, i)
      modifies this`dsI, this`dsQ, this`phs, this`omega, this`filOut, this`dc, this`dcInsert, a, b, c, d, outBuff
      ensures Valid()
      ensures Current() == Run(k, s, xs, i + 1) && outBuff[..] == Woven(ys, buf, i + 1)
    {
      hide Step, Heard, Run, Sounds, Woven, Demod.CurrentFilters;
      RunStep(k, s, xs, i);
      WovenStep(ys, buf, i, ys[i], outBuff[..]);
      var audio := Sample(k, inBuff[2 * i], inBuff[2 * i + 1]);
      Put(i, audio);
    }

    method Put(i: nat, audio: real)
      requires i < buffSize && Valid()
      modifies outBuff
      ensures outBuff[..] == old(outBuff[..])[2 * i := audio][2 * i + 1 := audio]
    {
      outBuff[2 * i] := audio;
      outBuff[2 * i + 1] := audio;
    }

    /** The synchronous mode over the buffers, which may be one and the same. */
    method Synchronous(k: Maths)
      requires Valid()
      modifies this`dsI, this`dsQ, this`phs, this`omega, this`filOut, this`dc, this`dcInsert, a, b, c, d, outBuff
      ensures Valid()
      ensures var xs := Inputs(Config(), old(inBuff[..]), buffSize);
              && Current() == Run(k, old(Current()), xs, buffSize)
              && outBuff[..] == Woven(Sounds(k, old(Current()), xs), old(outBuff[..]), buffSize)
    {
      hide Run, Sounds, Woven, Inputs, Demod.CurrentFilters;
      ghost var s, xs, input := Current(), Inputs(Config(), inBuff[..], buffSize), inBuff[..];
      ghost var ys, buf := Sounds(k, s, xs), outBuff[..];
      WovenStart(ys, buf);
      RunStart(k, s, xs);
      for i := 0 to buffSize
        invariant Valid() && Config() == old(Config())
        invariant Current() == Run(k, s, xs, i)
        invariant outBuff[..] == Woven(ys, buf, i)
        invariant inBuff != outBuff ==> inBuff[..] == old(inBuff[..])
      {
        WovenRest(ys, buf, i);
        InputsAt(Config(), input, buffSize, i);
        SynchronousAt(k, i, s, xs, ys, buf);
      }
    }

    /** The envelope mode over the buffers. */
    method Envelope(k: Maths)
      requires Valid()
      modifies this`dc, this`dcInsert, outBuff
      ensures Valid()
      ensures var xs := Inputs(Config(), old(inBuff[..]), buffSize);
              && Current() == old(Current()).(fade := EnvelopeRun(k, old(Current()).fade, xs, buffSize))
              && outBuff[..] == Woven(EnvelopeSounds(k, old(Current()).fade, xs), old(outBuff[..]), buffSize)
    {
      hide Levelled, Inserted, EnvelopeRun, EnvelopeSounds, Woven, Magnitude, Demod.CurrentFilters;
      ghost var s, xs := Current(), Inputs(Config(), inBuff[..], buffSize);
      ghost var ys, buf := EnvelopeSounds(k, s.fade, xs), outBuff[..];
      WovenStart(ys, buf);
      EnvelopeStart(k, s.fade, xs);
      for i := 0 to buffSize
        invariant Valid() && Config() == old(Config())
        invariant Current() == s.(fade := EnvelopeRun(k, s.fade, xs, i))
        invariant outBuff[..] == Woven(ys, buf, i)
        invariant inBuff != outBuff ==> inBuff[..] == old(inBuff[..])
      {
        EnvelopeStep(k, s.fade, xs, i);
        WovenStep(ys, buf, i, ys[i], outBuff[..]);
        var audio := Magnitude(k, inBuff[2 * i], inBuff[2 * i + 1]);
        audio := Level(audio, audio);
        Put(i, audio);
      }
    }

    method Copy()
      requires Valid() && inBuff != outBuff
      modifies outBuff
      ensures outBuff[..] == inBuff[..2 * buffSize] + old(outBuff[2 * buffSize..])
    {
      ghost var from, to := inBuff[..], outBuff[..];
      for i := 0 to 2 * buffSize
        invariant outBuff[..] == from[..i] + to[i..]
      {
        CopyStep(from, to, i);
        outBuff[i] := inBuff[i];
      }
    }

    /** xamd. */
    method Process(k: Maths)
      requires Valid()
      modifies this`dsI, this`dsQ, this`phs, this`omega, this`filOut, this`dc, this`dcInsert, a, b, c, d, outBuff
      ensures Valid()
      ensures var xs, s := Inputs(Config(), old(inBuff[..]), buffSize), old(Current());
              if run && mode == 0 then
                && Current() == s.(fade := EnvelopeRun(k, s.fade, xs, buffSize))
                && outBuff[..] == Woven(EnvelopeSounds(k, s.fade, xs), old(outBuff[..]), buffSize)
              else if run && mode == 1 then
                && Current() == Run(k, s, xs, buffSize)
                && outBuff[..] == Woven(Sounds(k, s, xs), old(outBuff[..]), buffSize)
              else Current() == s
      ensures !run ==> outBuff[..] == old(inBuff[..2 * buffSize]) + old(outBuff[2 * buffSize..])
      ensures run && mode != 0 && mode != 1 ==> outBuff[..] == old(outBuff[..])
    {
      hide EnvelopeSounds, EnvelopeRun, Sounds, Run, Woven, Inputs, Demod.CurrentFilters;
      if run {
        match mode {
          case 0 => Envelope(k);
          case 1 => Synchronous(k);
          case _ =>
        }
      } else if inBuff != outBuff {
        Copy();
      }
    }
  }

  lemma CopyStep(from: seq<real>, to: seq<real>, i: nat)
    requires i < |from| && i < |to|
    ensures (from[..i] + to[i..])[i := from[i]] == from[..i + 1] + to[i + 1..]
  {}

  /** Nothing in any delay. */
  ghost predicate Silent(f: Filters) {
    && (forall m :: 0 <= m < |f.a.one| ==> f.a.one[m] == 0.0) && (forall m :: 0 <= m < |f.a.two| ==> f.a.two[m] == 0.0)
    && (forall m :: 0 <= m < |f.b.one| ==> f.b.one[m] == 0.0) && (forall m :: 0 <= m < |f.b.two| ==> f.b.two[m] == 0.0)
    && (forall m :: 0 <= m < |f.c.one| ==> f.c.one[m] == 0.0) && (forall m :: 0 <= m < |f.c.two| ==> f.c.two[m] == 0.0)
    && (forall m :: 0 <= m < |f.d.one| ==> f.d.one[m] == 0.0) && (forall m :: 0 <= m < |f.d.two| ==> f.d.two[m] == 0.0)
    && f.dsI == 0.0 && f.dsQ == 0.0
  }

  lemma AllSilent(a: seq<real>, b: seq<real>, c: seq<real>, d: seq<real>)
    requires Holds(C0, a) && Holds(C1, b) && Holds(C0, c) && Holds(C1, d)
    requires forall k :: 0 <= k < 24 ==> a[k] == b[k] == c[k] == d[k] == 0.0
    ensures Silent(Filters(TapsOf(C0, a), TapsOf(C1, b), TapsOf(C0, c), TapsOf(C1, d), 0.0, 0.0))
  {}

  lemma StartStages(a: seq<real>, b: seq<real>, c: seq<real>, d: seq<real>)
    requires Holds(C0, a) && Holds(C1, b) && Holds(C0, c) && Holds(C1, d)
    ensures Staged(C0, a, 0) == a && Staged(C1, b, 0) == b && Staged(C0, c, 0) == c && Staged(C1, d, 0) == d
  {}

  lemma StartShift(s: seq<real>)
    requires |s| > 0
    ensures Shifted(s, |s| - 1) == s
  {}

  lemma ShiftingIs(c: seq<real>, x: real, a: seq<real>, r: seq<real>)
    requires Holds(c, a) && r == Shifted(Staged(c, a[0 := x], |c|), 0)
    ensures r == Shifting(c, x, a)
  {}

  /** A step by its parts: with both sidebands the cascades do not matter. */
  lemma StepIs(k: Maths, s: State, x: Input, m: Mix, corr0: real, corr1: real)
    requires Wired(s.filters) && m == Mixed(k, s.loop.phs, x.i, x.q)
    requires corr0 == m.ai + m.bq && corr1 == -m.bi + m.aq
    ensures var ps := if x.cfg.sbmode == Both then m else Separated(s.filters, m);
            var audio := Audio(x.cfg.sbmode, m, ps);
            var fade := Levelled(x.cfg, s.fade, audio, corr0);
            && Step(k, s, x) == State(if x.cfg.sbmode == Both then s.filters else Filtered(s.filters, m),
                                      Locked(x.cfg, s.loop, Detected(k, corr0, corr1)), fade)
            && Heard(k, s, x) == Inserted(x.cfg, fade, audio)
  {
    hide Filtered, Separated, Locked, Levelled, Detected, Inserted, Mixed;
  }

  lemma RunStart(k: Maths, s: State, xs: seq<Input>)
    requires Wired(s.filters)
    ensures Run(k, s, xs, 0) == s
  {}

  lemma RunStep(k: Maths, s: State, xs: seq<Input>, n: nat)
    requires Wired(s.filters) && n < |xs|
    ensures Run(k, s, xs, n + 1) == Step(k, Run(k, s, xs, n), xs[n])
    ensures Sounds(k, s, xs)[n] == Heard(k, Run(k, s, xs, n), xs[n])
  {}

  lemma EnvelopeStart(k: Maths, s: Fade, xs: seq<Input>)
    ensures EnvelopeRun(k, s, xs, 0) == s
  {}

  lemma EnvelopeStep(k: Maths, s: Fade, xs: seq<Input>, n: nat)
    requires n < |xs|
    ensures var audio := Magnitude(k, xs[n].i, xs[n].q);
            && EnvelopeRun(k, s, xs, n + 1) == Levelled(xs[n].cfg, EnvelopeRun(k, s, xs, n), audio, audio)
            && EnvelopeSounds(k, s, xs)[n] == Inserted(xs[n].cfg, EnvelopeRun(k, s, xs, n + 1), audio)
  {}
}
