/**
 Deep() of sgp4sdp4.c: the resonance integrator behind dpsec, with its memory kept
 between calls, and the cached lunar-solar terms behind dpper.
 */
module DeepSpace {
  import opened Trigonometry
  import opened Integrator
  import opened IntegratorRuns
  import opened Reals

  const G22 := 5.7686396
  const G32 := 9.5240898e-1
  const G44 := 1.8014998
  const G52 := 1.0508330
  const G54 := 4.4108898

  const FASX2 := 0.13130908
  const FASX4 := 2.8843198
  const FASX6 := 0.37448087

  /** What dpinit fixes: which resonance, its coefficients, and the epoch values. */
  datatype Resonance = Resonance(
    synchronous: bool,
    del1: real, del2: real, del3: real, fasx2: real, fasx4: real, fasx6: real,
    d2201: real, d2211: real, d3210: real, d3222: real, d4410: real, d4422: real,
    d5220: real, d5232: real, d5421: real, d5433: real,
    omegaq: real, omgdot: real, xfact: real, xlamo: real, xnq: real)

  const THDT := 4.3752691e-3
  const ZNS := 1.19459e-5
  const ZES := 1.675e-2
  const ZNL := 1.5835218e-4
  const ZEL := 5.490e-2

  /** The secular rates and epoch elements dpsec applies. */
  datatype Secular = Secular(ssl: real, ssg: real, ssh: real, sse: real, ssi: real,
                             eo: real, xincl: real, thgr: real)

  /** The elements a call is given and gives back. */
  datatype Elements = Elements(xll: real, omgadf: real, xnode: real, em: real, xinc: real)

  /** The secular part of dpsec; a negative inclination is turned over the pole. */
  function AtSecular(sec: Secular, e: Elements, t: real): Elements {
    var xll, omgadf := e.xll + sec.ssl * t, e.omgadf + sec.ssg * t;
    var xnode, em, xinc := e.xnode + sec.ssh * t, sec.eo + sec.sse * t, sec.xincl + sec.ssi * t;
    if xinc < 0.0 then Elements(xll, omgadf - PI, xnode + PI, em, -xinc)
    else Elements(xll, omgadf, xnode, em, xinc)
  }

  /** The coefficients of the lunar-solar periodics. */
  datatype Periodic = Periodic(
    zmos: real, se2: real, se3: real, si2: real, si3: real, sl2: real, sl3: real, sl4: real,
    sgh2: real, sgh3: real, sgh4: real, sh2: real, sh3: real,
    zmol: real, ee2: real, e3: real, xi2: real, xi3: real, xl2: real, xl3: real, xl4: real,
    xgh2: real, xgh3: real, xgh4: real, xh2: real, xh3: real,
    sinio: real, cosio: real, xqncl: real)
  {
    /** dpper divides by no zero. */
    predicate Regular() {
      xqncl >= 0.2 ==> sinio != 0.0
    }
  }

  /** What dpper keeps between calls. */
  datatype Terms = Terms(sghs: real, shs: real, sghl: real, sh1: real, pe: real, pinc: real, pl: real)

  /** The perigee as the dot terms see it. */
  function PerigeeAt(c: Resonance, atime: real): real {
    c.omegaq + c.omgdot * atime
  }

  function Sine(g: Trig, amplitude: real, x: real): real {
    amplitude * g.sin(x)
  }

  function Cosine(g: Trig, amplitude: real, x: real): real {
    amplitude * g.cos(x)
  }

  /** xndot, and its derivative in xli. */
  function Xndot(g: Trig, c: Resonance, s: State): real {
    var xli := s.xli;
    var xomi := PerigeeAt(c, s.atime);
    var x2omi := xomi + xomi;
    var x2li := xli + xli;
    if c.synchronous then
      Sine(g, c.del1, xli - c.fasx2) + Sine(g, c.del2, 2.0 * (xli - c.fasx4)) +
      Sine(g, c.del3, 3.0 * (xli - c.fasx6))
    else
      Sine(g, c.d2201, x2omi + xli - G22) + Sine(g, c.d2211, xli - G22) +
      Sine(g, c.d3210, xomi + xli - G32) + Sine(g, c.d3222, -xomi + xli - G32) +
      Sine(g, c.d4410, x2omi + x2li - G44) + Sine(g, c.d4422, x2li - G44) +
      Sine(g, c.d5220, xomi + xli - G52) + Sine(g, c.d5232, -xomi + xli - G52) +
      Sine(g, c.d5421, xomi + x2li - G54) + Sine(g, c.d5433, -xomi + x2li - G54)
  }

  function XndotSlope(g: Trig, c: Resonance, s: State): real {
    var xli := s.xli;
    var xomi := PerigeeAt(c, s.atime);
    var x2omi := xomi + xomi;
    var x2li := xli + xli;
    if c.synchronous then
      Cosine(g, c.del1, xli - c.fasx2) + 2.0 * Cosine(g, c.del2, 2.0 * (xli - c.fasx4)) +
      3.0 * Cosine(g, c.del3, 3.0 * (xli - c.fasx6))
    else
      Cosine(g, c.d2201, x2omi + xli - G22) + Cosine(g, c.d2211, xli - G22) +
      Cosine(g, c.d3210, xomi + xli - G32) + Cosine(g, c.d3222, -xomi + xli - G32) +
      Cosine(g, c.d5220, xomi + xli - G52) + Cosine(g, c.d5232, -xomi + xli - G52) +
      2.0 * (Cosine(g, c.d4410, x2omi + x2li - G44) + Cosine(g, c.d4422, x2li - G44) +
             Cosine(g, c.d5421, xomi + x2li - G54) + Cosine(g, c.d5433, -xomi + x2li - G54))
  }

  /** The dot terms. */
  function RatesAt(g: Trig, c: Resonance, s: State): Rates {
    var xldot := s.xni + c.xfact;
    Rates(xldot, Xndot(g, c, s), XndotSlope(g, c, s) * xldot)
  }

  function ProblemOf(g: Trig, c: Resonance): Problem {
    Problem(s => RatesAt(g, c, s), c.xlamo, c.xnq)
  }

  /** f2 and f3 of a perturbing body at mean anomaly zm. */
  function Phase(g: Trig, zm: real, ze: real): (real, real, real) {
    var zf := zm + 2.0 * ze * g.sin(zm);
    var sinzf := g.sin(zf);
    (0.5 * sinzf * sinzf - 0.25, -0.5 * sinzf * g.cos(zf), sinzf)
  }

  function Height(a: real, sine: real): real {
    a * sine
  }

  function Weighed(a: real, f: real, b: real, h: real): real {
    a * f + b * h
  }

  /** The lunar-solar terms of an instant, computed from scratch. */
  function TermsAt(g: Trig, q: Periodic, t: real): Terms {
    var (f2, f3, sinzf) := Phase(g, q.zmos + ZNS * t, ZES);
    var ses, sis := Weighed(q.se2, f2, q.se3, f3), Weighed(q.si2, f2, q.si3, f3);
    var sls := Weighed(q.sl2, f2, q.sl3, f3) + Height(q.sl4, sinzf);
    var sghs, shs := Weighed(q.sgh2, f2, q.sgh3, f3) + Height(q.sgh4, sinzf), Weighed(q.sh2, f2, q.sh3, f3);
    var (m2, m3, sinmf) := Phase(g, q.zmol + ZNL * t, ZEL);
    var sel, sil := Weighed(q.ee2, m2, q.e3, m3), Weighed(q.xi2, m2, q.xi3, m3);
    var sll := Weighed(q.xl2, m2, q.xl3, m3) + Height(q.xl4, sinmf);
    var sghl, sh1 := Weighed(q.xgh2, m2, q.xgh3, m3) + Height(q.xgh4, sinmf), Weighed(q.xh2, m2, q.xh3, m3);
    Terms(sghs, shs, sghl, sh1, ses + sel, sis + sil, sls + sll)
  }

  /** How dpper applies the periodics to the elements: directly, or near the equator
      by the Lyddane modification. */
  function AtPeriodic(g: Trig, q: Periodic, p: Terms, e: Elements): Elements
    requires q.Regular()
  {
    if q.xqncl >= 0.2 then Direct(q, p, e) else Lyddane(g, p, e)
  }

  function Direct(q: Periodic, p: Terms, e: Elements): Elements
    requires q.sinio != 0.0
  {
    var ph := (p.shs + p.sh1) / q.sinio;
    var pgh := p.sghs + p.sghl - q.cosio * ph;
    Elements(e.xll + p.pl, e.omgadf + pgh, e.xnode + ph, e.em + p.pe, e.xinc + p.pinc)
  }

  function Lyddane(g: Trig, p: Terms, e: Elements): Elements {
    var ph, pgh := p.shs + p.sh1, p.sghs + p.sghl;
    var sinis, cosis := g.sin(e.xinc), g.cos(e.xinc);
    var sinok, cosok := g.sin(e.xnode), g.cos(e.xnode);
    var alfdp := sinis * sinok + (ph * cosok + p.pinc * cosis * sinok);
    var betdp := sinis * cosok + (-ph * sinok + p.pinc * cosis * cosok);
    var xnoh := FMod2p(e.xnode);
    var xls := e.xll + e.omgadf + cosis * xnoh + (p.pl + pgh - p.pinc * xnoh * sinis);
    var xnode := Unwrapped(g.AcTan(alfdp, betdp), xnoh);
    var xinc, xll := e.xinc + p.pinc, e.xll + p.pl;
    Elements(xll, xls - xll - g.cos(xinc) * xnode, xnode, e.em + p.pe, xinc)
  }

  /** The node moved by a turn when it is more than half a turn from where it was. */
  function Unwrapped(xnode: real, xnoh: real): real {
    if Abs(xnoh - xnode) > PI then (if xnode < xnoh then xnode + TWOPI else xnode - TWOPI) else xnode
  }

  /** The Lyddane modification never moves the node by more than half a turn. */
  lemma LyddaneNode(g: Trig, p: Terms, e: Elements)
    requires g.ArcTangent()
    ensures Abs(Lyddane(g, p, e).xnode - FMod2p(e.xnode)) <= PI
  {}

  class Deep {
    const g: Trig
    const sec: Secular
    const per: Periodic
    /** The integration dpinit set up: the dot terms and the epoch values. */
    const p: Problem

    // RESONANCE_FLAG and SYNCHRONOUS_FLAG
    const resonance: bool
    const synchronous: bool

    // DO_LOOP_FLAG and EPOCH_RESTART_FLAG
    var doLoop: bool
    var epochRestart: bool

    // the integrator
    var xli: real
    var xni: real
    var atime: real

    // the dpper cache
    var savtsn: real
    var sghs: real
    var shs: real
    var sghl: real
    var sh1: real
    var pe: real
    var pinc: real
    var pl: real

    // deep_arg: what a call is given and what it gives back
    var t: real
    var xll: real
    var omgadf: real
    var xnode: real
    var em: real
    var xinc: real
    var xn: real

    /** The times of the resonant dpsec calls since dpinit. */
    ghost var queries: seq<real>

    function Integration(): State
      reads this
    {
      State(atime, xli, xni)
    }

    function Cached(): Terms
      reads this
    {
      Terms(sghs, shs, sghl, sh1, pe, pinc, pl)
    }

    /** The integrator is where the whole run of queries put it, and the cache holds the
        terms of savtsn once there is one. */
    ghost predicate Valid()
      reads this
    {
      && Integration() == RunState(p, queries)
      && (savtsn != 1.0e20 ==> Cached() == TermsAt(g, per, savtsn))
    }

    /** The end of dpinit. */
    constructor Dpinit(g: Trig, c: Resonance, sec: Secular, per: Periodic, resonance: bool)
      ensures Valid() && queries == [] && savtsn == 1.0e20
      ensures this.g == g && this.sec == sec && this.per == per && p == ProblemOf(g, c)
      ensures this.resonance == resonance && synchronous == c.synchronous
    {
      this.g, this.sec, this.per, this.resonance := g, sec, per, resonance;
      p := ProblemOf(g, c);
      synchronous := c.synchronous;
      savtsn := 1.0e20;
      xli := c.xlamo;
      xni := c.xnq;
      atime := 0.0;
      queries := [];
    }

    function Given(): Elements
      reads this
    {
      Elements(xll, omgadf, xnode, em, xinc)
    }

    /** dpsec: the secular elements at time t and, in resonance, the mean motion and
        longitude the integrator gives after the whole run of queries. */
    method Dpsec()
      requires Valid()
      modifies `xll, `omgadf, `xnode, `em, `xinc, `xn, `queries, `xli, `xni, `atime, `doLoop, `epochRestart
      ensures Valid()
      ensures Given().(xll := 0.0) == AtSecular(sec, old(Given()), t).(xll := 0.0)
      ensures !resonance ==> Given() == AtSecular(sec, old(Given()), t) && xn == old(xn) && queries == old(queries)
      ensures resonance ==> queries == old(queries) + [t] && OnGrid(Target(t), Integration())
      ensures resonance ==>
                var answer := AnswerOf(p, RunState(p, queries), t);
                var temp := -xnode + sec.thgr + t * THDT;
                xn == answer.xn &&
                xll == (if synchronous then answer.xl - omgadf + temp else answer.xl + temp + temp)
    {
      hide MotionAt, LongitudeAt, TermsAt, AtSecular;
      SecularStep();
      if !resonance {
        return;
      }
      Resonate();
    }

    /** The resonant part of dpsec. */
    method Resonate()
      requires Valid()
      modifies `xll, `xn, `queries, `xli, `xni, `atime, `doLoop, `epochRestart
      ensures Valid()
      ensures queries == old(queries) + [t] && OnGrid(Target(t), Integration())
      ensures var answer := AnswerOf(p, RunState(p, queries), t);
              var temp := -xnode + sec.thgr + t * THDT;
              xn == answer.xn &&
              xll == (if synchronous then answer.xl - omgadf + temp else answer.xl + temp + temp)
    {
      hide MotionAt, LongitudeAt, TermsAt, RunState, TrackRun, Query, Target;
      RunOnGrid(p, queries);
      QueryOnGrid(p, TrackRun(queries).j, Integration(), t);
      RunExtends(p, queries, t);
      var r, ft := Integrate(TrackRun(queries).j);
      queries := queries + [t];
      var xl := AtTime(r, ft);
      var temp := -xnode + sec.thgr + t * THDT;
      xll := if !synchronous then xl + temp + temp else xl - omgadf + temp;
    }

    /** dpper: the periodics of an instant less than half an hour away, from the cache or
        computed afresh, applied to the elements. Where the source divides by the sine of the
        inclination and it is zero, perigee and node may be anything. */
    method Dpper()
      requires Valid() && t < 1.0e20 - 30.0
      modifies `xll, `omgadf, `xnode, `em, `xinc, `savtsn, `sghs, `shs, `sghl, `sh1, `pe, `pinc, `pl
      ensures Valid() && savtsn != 1.0e20 && Abs(savtsn - t) < 30.0
      ensures savtsn == (if Abs(old(savtsn) - t) >= 30.0 then t else old(savtsn))
      ensures var w := TermsAt(g, per, savtsn);
              if per.Regular() then Given() == AtPeriodic(g, per, w, old(Given()))
              else xll == old(xll) + w.pl && em == old(em) + w.pe && xinc == old(xinc) + w.pinc
    {
      hide TermsAt, AtPeriodic, RunState, Periodic.Regular;
      if Abs(savtsn - t) >= 30.0 {
        Refresh();
      }
      Apply();
    }

    method Refresh()
      modifies `savtsn, `sghs, `shs, `sghl, `sh1, `pe, `pinc, `pl
      ensures savtsn == t && Cached() == TermsAt(g, per, t)
    {
      hide TermsAt;
      savtsn := t;
      var w := TermsAt(g, per, t);
      sghs, shs, sghl, sh1, pe, pinc, pl := w.sghs, w.shs, w.sghl, w.sh1, w.pe, w.pinc, w.pl;
    }

    method Apply()
      modifies `xll, `omgadf, `xnode, `em, `xinc
      ensures if per.Regular() then Given() == AtPeriodic(g, per, Cached(), old(Given()))
              else xll == old(xll) + pl && em == old(em) + pe && xinc == old(xinc) + pinc
    {
      hide AtPeriodic;
      if per.Regular() {
        var e := AtPeriodic(g, per, Cached(), Given());
        xll, omgadf, xnode, em, xinc := e.xll, e.omgadf, e.xnode, e.em, e.xinc;
      } else {
        omgadf, xnode := *, *;
        xll, em, xinc := xll + pl, em + pe, xinc + pinc;
      }
    }

    method SecularStep()
      modifies `xll, `omgadf, `xnode, `em, `xinc
      ensures Given() == AtSecular(sec, old(Given()), t)
    {
      xll := xll + sec.ssl * t;
      omgadf := omgadf + sec.ssg * t;
      xnode := xnode + sec.ssh * t;
      em := sec.eo + sec.sse * t;
      xinc := sec.xincl + sec.ssi * t;
      if xinc < 0.0 {
        xinc := -xinc;
        xnode := xnode + PI;
        omgadf := omgadf - PI;
      }
    }

    /** xn and xl, ft minutes after the integrator's state. */
    method AtTime(r: Rates, ft: real) returns (xl: real)
      modifies `xn
      ensures xn == MotionAt(r, Integration(), ft) && xl == LongitudeAt(r, Integration(), ft)
    {
      xn := xni + r.xndot * ft + r.xnddt * ft * ft * 0.5;
      xl := xli + r.xldot * ft + r.xndot * ft * ft * 0.5;
    }

    /** The update of the inner loop. */
    method Step(r: Rates, delt: real)
      requires r == RatesOf(p, Integration())
      modifies `xli, `xni, `atime
      ensures Integration() == Move(p, old(Integration()), delt)
    {
      xli := xli + r.xldot * delt + r.xndot * STEP2;
      xni := xni + r.xndot * delt + r.xnddt * STEP2;
      atime := atime + delt;
    }

    /** The two nested loops of dpsec, from a state at grid point at. */
    method Integrate(ghost at: int) returns (r: Rates, ft: real)
      requires OnGrid(at, Integration())
      modifies `xli, `xni, `atime, `doLoop, `epochRestart
      ensures Integration() == Query(p, at, old(Integration()), t)
      ensures r == RatesOf(p, Integration()) && ft == t - atime && !doLoop
    {
      hide Move, WalkTo, Query, Target, RatesOf, OnWay;
      ghost var k, j, goal := Target(t), at, Query(p, at, Integration(), t);
      var delt := 0.0;
      ft, r := 0.0, Rates(0.0, 0.0, 0.0);
      var outer := true;
      while outer
        invariant outer ==> OnGrid(j, Integration()) && Query(p, j, Integration(), t) == goal
        invariant !outer ==> Integration() == goal && r == RatesOf(p, goal) && ft == t - goal.atime && !doLoop
        decreases outer, Size(j)
      {
        ghost var entry := j;
        EnterLoop(p, j, Integration(), t);
        if atime == 0.0 || (t >= 0.0 && atime < 0.0) || (t < 0.0 && atime >= 0.0) {
          delt := if t >= 0.0 then STEPP else STEPN;
          atime := 0.0;
          xni := p.xnq;
          xli := p.xlamo;
          j := 0;
        } else if Abs(t) >= Abs(atime) {
          delt := if t > 0.0 then STEPP else STEPN;
        }
        var inner := true;
        while inner
          invariant inner ==> OnWay(p, j, Integration(), t) && WalkTo(p, j, Integration(), k) == goal
          invariant inner ==> if Abs(t) >= Abs(atime) then delt == Forward(t) else j == entry
          invariant !inner && !doLoop ==> Integration() == goal && r == RatesOf(p, goal) && ft == t - goal.atime
          invariant !inner && doLoop ==> epochRestart && Size(j) < Size(entry)
          invariant !inner && doLoop ==> OnGrid(j, Integration()) && Query(p, j, Integration(), t) == goal
          decreases inner, Size(k - j)
        {
          ghost var s := Integration();
          LoopStep(p, j, s, t);
          if Abs(t - atime) >= STEPP {
            doLoop := true;
            epochRestart := false;
          } else {
            ft := t - atime;
            doLoop := false;
          }
          if Abs(t) < Abs(atime) {
            delt := if t >= 0.0 then STEPN else STEPP;
            doLoop, epochRestart := true, true;
          }
          r := RatesOf(p, Integration());
          if doLoop {
            Step(r, delt);
            j := Landing(j, delt);
          }
          inner := doLoop && !epochRestart;
        }
        outer := doLoop && epochRestart;
      }
    }
  }

  // ---------- the loop, one pass at a time ----------

  function Forward(t: real): real {
    if t >= 0.0 then STEPP else STEPN
  }

  /** Inside the inner loop: on t's side of the epoch, and fresh when at the epoch. */
  ghost predicate OnWay(p: Problem, j: int, s: State, t: real) {
    && OnGrid(j, s)
    && (t >= 0.0 ==> j >= 0) && (t < 0.0 ==> j <= 0)
    && (j == 0 ==> s == Epoch(p))
  }

  lemma EnterLoop(p: Problem, j: int, s: State, t: real)
    requires OnGrid(j, s)
    ensures Restarts(s.atime, t) ==>
              OnWay(p, 0, Epoch(p), t) && WalkTo(p, 0, Epoch(p), Target(t)) == Query(p, j, s, t)
    ensures !Restarts(s.atime, t) ==> OnWay(p, j, s, t) && WalkTo(p, j, s, Target(t)) == Query(p, j, s, t)
  {
    TargetWithin(t);
    WalkFresh(p, 0, Target(t));
  }

  function Landing(j: int, delt: real): int {
    if delt == STEPP then j + 1 else j - 1
  }

  lemma LoopStep(p: Problem, j: int, s: State, t: real)
    requires OnWay(p, j, s, t)
    ensures Abs(t) < Abs(s.atime) ==> StepsBack(p, j, s, t)
    ensures Abs(t) >= Abs(s.atime) && Abs(t - s.atime) >= STEPP ==> StepsOn(p, j, s, t)
    ensures Abs(t) >= Abs(s.atime) && Abs(t - s.atime) < STEPP ==>
              WalkTo(p, j, s, Target(t)) == s && Target(t) == j
  {
    TargetWithin(t);
  }

  /** A step toward the epoch keeps what the query will leave. */
  ghost predicate StepsBack(p: Problem, j: int, s: State, t: real) {
    var delt := -Forward(t);
    var next, j' := Move(p, s, delt), Landing(j, delt);
    && OnGrid(j', next)
    && Query(p, j', next, t) == WalkTo(p, j, s, Target(t))
    && Size(j') < Size(j)
  }

  /** A step away from the epoch keeps it too, and does not pass t. */
  ghost predicate StepsOn(p: Problem, j: int, s: State, t: real) {
    var delt := Forward(t);
    var next, j' := Move(p, s, delt), Landing(j, delt);
    && OnWay(p, j', next, t)
    && WalkTo(p, j', next, Target(t)) == WalkTo(p, j, s, Target(t))
    && Abs(t) >= Abs(next.atime)
    && Size(Target(t) - j') < Size(Target(t) - j)
  }

  // ---------- when earlier queries show ----------

  /** A synchronous resonance that moves one turn in the first step and doubles its xldot at
      every step: the mean motion is in dpinit's band and the phases are its constants. */
  function DoublingResonance(turn: real): Resonance {
    Resonance(true, 1.0 / STEP2, 0.0, 0.0, FASX2, FASX4, FASX6,
              0.0, 0.0, 0.0, 0.0, 0.0, 0.0, 0.0, 0.0, 0.0, 0.0, 0.0, 0.0, turn / 720.0 - THDT, FASX2, THDT)
  }

  /** What dpinit gives a synchronous orbit: the band of its mean motion, and the phases. */
  predicate Synchronous(c: Resonance) {
    c.synchronous && 0.0034906585 < c.xnq < 0.0052359877 && c.fasx2 == FASX2 && c.fasx4 == FASX4 && c.fasx6 == FASX6
  }

  lemma DoublingSynchronous(turn: real)
    ensures Synchronous(DoublingResonance(turn))
  {}

  /** A sine and cosine with a period, and their values at zero. */
  ghost predicate Sinusoid(g: Trig, turn: real) {
    turn > 0.0 && g.Periodic(turn) && g.sin(0.0) == 0.0 && g.cos(0.0) == 1.0
  }

  lemma IsDoubling(g: Trig, turn: real)
    requires Sinusoid(g, turn)
    ensures Doubling(ProblemOf(g, DoublingResonance(turn)), Xfact(turn), turn)
  {
    hide Times, RatesAt;
    var p := ProblemOf(g, DoublingResonance(turn));
    forall s: State, n: int | s.xli == p.xlamo + Times(n, turn)
      ensures Doubles(p, Xfact(turn), s, n)
    {
      WholePeriods(g, turn, 0.0, n);
      assert RatesOf(p, s) == RatesAt(g, DoublingResonance(turn), s);
      RatesOnTurns(g, turn, s);
    }
  }

  function Xfact(turn: real): real {
    DoublingResonance(turn).xfact
  }

  lemma RatesOnTurns(g: Trig, turn: real, s: State)
    requires g.sin(s.xli - FASX2) == 0.0 && g.cos(s.xli - FASX2) == 1.0
    ensures RatesAt(g, DoublingResonance(turn), s) == RatesOfMotion(s.xni + Xfact(turn))
  {}

  /** The integrator's state is the one integrated |atime|/720 steps from epoch. */
  ghost predicate StateFresh(g: Trig, c: Resonance, ts: seq<real>) {
    RunState(ProblemOf(g, c), ts) == Fresh(ProblemOf(g, c), TrackRun(ts).j)
  }

  /** The last xn and xl are those of a first query at that time. */
  ghost predicate AnswerFresh(g: Trig, c: Resonance, ts: seq<real>)
    requires ts != []
  {
    var p, t := ProblemOf(g, c), ts[|ts| - 1];
    AnswerOf(p, RunState(p, ts), t) == AnswerOf(p, RunState(p, [t]), t)
  }

  /** Exactly when earlier queries cannot be seen, for any sine and cosine: the state is fresh
      for every resonance, or for every synchronous one, if and only if no back-step has landed
      off the epoch since the last restart. */
  lemma FreshIff(g: Trig, turn: real, ts: seq<real>)
    requires Sinusoid(g, turn)
    ensures (forall c: Resonance :: StateFresh(g, c, ts)) <==> !TrackRun(ts).stale
    ensures (forall c: Resonance :: Synchronous(c) ==> StateFresh(g, c, ts)) <==> !TrackRun(ts).stale
  {
    if TrackRun(ts).stale {
      var c := DoublingResonance(turn);
      DoublingSynchronous(turn);
      IsDoubling(g, turn);
      StaleDiffers(ProblemOf(g, c), Xfact(turn), turn, ts);
      assert !StateFresh(g, c, ts);
    } else {
      forall c: Resonance
        ensures StateFresh(g, c, ts)
      {
        FreshUnlessStale(ProblemOf(g, c), ts);
      }
    }
  }

  /** And so it is with the answers. */
  lemma AnswersIff(g: Trig, turn: real, ts: seq<real>)
    requires Sinusoid(g, turn) && ts != []
    ensures (forall c: Resonance :: AnswerFresh(g, c, ts)) <==> !TrackRun(ts).stale
    ensures (forall c: Resonance :: Synchronous(c) ==> AnswerFresh(g, c, ts)) <==> !TrackRun(ts).stale
  {
    hide AnswerOf;
    if TrackRun(ts).stale {
      var c := DoublingResonance(turn);
      DoublingSynchronous(turn);
      IsDoubling(g, turn);
      StaleAnswers(ProblemOf(g, c), Xfact(turn), turn, ts);
      assert !AnswerFresh(g, c, ts);
    } else {
      forall c: Resonance
        ensures AnswerFresh(g, c, ts)
      {
        FreshUnlessStale(ProblemOf(g, c), ts);
        FirstQuery(ProblemOf(g, c), ts[|ts| - 1]);
      }
    }
  }

  /** Out 1500 minutes and back to 1000: state and answer are not those of a first query. */
  lemma StaleRun(g: Trig, turn: real)
    requires Sinusoid(g, turn)
    ensures TrackRun([1500.0, 1000.0]) == Track(1, true) && Synchronous(DoublingResonance(turn))
    ensures var p := ProblemOf(g, DoublingResonance(turn));
            var s := RunState(p, [1500.0, 1000.0]);
            s.xni > Fresh(p, 1).xni && AnswerOf(p, s, 1000.0).xn > AnswerOf(p, RunState(p, [1000.0]), 1000.0).xn
  {
    hide AnswerOf;
    var ts, p := [1500.0, 1000.0], ProblemOf(g, DoublingResonance(turn));
    TargetIs(1500.0, 2);
    TargetIs(1000.0, 1);
    assert ts[..1] == [1500.0] && [1500.0][..0] == [];
    IsDoubling(g, turn);
    StaleDiffers(p, Xfact(turn), turn, ts);
    StaleAnswers(p, Xfact(turn), turn, ts);
  }
}
