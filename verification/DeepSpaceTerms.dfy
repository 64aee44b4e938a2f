/** What the terms behind dpsec and dpper are: the dot terms as harmonics of the geopotential and
    their derivative, the lunar-solar terms as waves, and their application to the elements. */
module DeepSpaceTerms {
  import opened Trigonometry
  import opened Integrator
  import opened IntegratorRuns
  import opened DeepSpace
  import opened Reals

  // ---------- the dot terms ----------

  /** A harmonic: its amplitude, the multiples of the perigee and of the longitude in its
      argument, and its phase. */
  datatype Harmonic = Harmonic(amplitude: real, perigee: real, multiple: real, phase: real)

  /** The harmonics of a resonance. */
  function Harmonics(c: Resonance): seq<Harmonic> {
    if c.synchronous then
      [Harmonic(c.del1, 0.0, 1.0, c.fasx2), Harmonic(c.del2, 0.0, 2.0, 2.0 * c.fasx4),
       Harmonic(c.del3, 0.0, 3.0, 3.0 * c.fasx6)]
    else
      [Harmonic(c.d2201, 2.0, 1.0, G22), Harmonic(c.d2211, 0.0, 1.0, G22),
       Harmonic(c.d3210, 1.0, 1.0, G32), Harmonic(c.d3222, -1.0, 1.0, G32),
       Harmonic(c.d4410, 2.0, 2.0, G44), Harmonic(c.d4422, 0.0, 2.0, G44),
       Harmonic(c.d5220, 1.0, 1.0, G52), Harmonic(c.d5232, -1.0, 1.0, G52),
       Harmonic(c.d5421, 1.0, 2.0, G54), Harmonic(c.d5433, -1.0, 2.0, G54)]
  }

  function Argument(h: Harmonic, perigee: real, longitude: real): real {
    h.perigee * perigee + h.multiple * longitude - h.phase
  }

  /** One harmonic, and its derivative in the longitude. */
  function Force(g: Trig, h: Harmonic, perigee: real, longitude: real): real {
    h.amplitude * g.sin(Argument(h, perigee, longitude))
  }

  function Slope(g: Trig, h: Harmonic, perigee: real, longitude: real): real {
    h.multiple * (h.amplitude * g.cos(Argument(h, perigee, longitude)))
  }

  function Forces(g: Trig, hs: seq<Harmonic>, perigee: real, longitude: real): real {
    if hs == [] then 0.0 else Force(g, hs[0], perigee, longitude) + Forces(g, hs[1..], perigee, longitude)
  }

  function Slopes(g: Trig, hs: seq<Harmonic>, perigee: real, longitude: real): real {
    if hs == [] then 0.0 else Slope(g, hs[0], perigee, longitude) + Slopes(g, hs[1..], perigee, longitude)
  }

  /** The dot terms are those of the harmonics. */
  lemma RatesAreHarmonics(g: Trig, c: Resonance, s: State, w: real)
    requires w == c.omegaq + c.omgdot * s.atime
    ensures var r := RatesAt(g, c, s);
            && r.xldot == s.xni + c.xfact && r.xndot == Forces(g, Harmonics(c), w, s.xli)
            && r.xnddt == Slopes(g, Harmonics(c), w, s.xli) * r.xldot
  {
    assert w == PerigeeAt(c, s.atime);
    hide Forces, Slopes, Xndot, XndotSlope, Harmonics, PerigeeAt;
    if c.synchronous {
      SynchronousHarmonics(g, c, s);
    } else {
      HalfDayHarmonics(g, c, s);
    }
  }

  lemma Angles(g: Trig, h: Harmonic, w: real, x: real, a: real)
    requires Argument(h, w, x) == a
    ensures Force(g, h, w, x) == Sine(g, h.amplitude, a)
    ensures Slope(g, h, w, x) == h.multiple * Cosine(g, h.amplitude, a)
  {}

  lemma SynchronousHarmonics(g: Trig, c: Resonance, s: State)
    requires c.synchronous
    ensures var w := PerigeeAt(c, s.atime);
            && Xndot(g, c, s) == Forces(g, Harmonics(c), w, s.xli)
            && XndotSlope(g, c, s) == Slopes(g, Harmonics(c), w, s.xli)
  {
    hide Force, Slope, Forces, Slopes, Argument, Sine, Cosine, PerigeeAt;
    var w, x, hs := PerigeeAt(c, s.atime), s.xli, Harmonics(c);
    SynchronousAngles(c, w, x);
    Angles(g, hs[0], w, x, x - c.fasx2);
    Angles(g, hs[1], w, x, 2.0 * (x - c.fasx4));
    Angles(g, hs[2], w, x, 3.0 * (x - c.fasx6));
    SumOfThree(g, hs, w, x);
  }

  lemma SynchronousAngles(c: Resonance, w: real, x: real)
    requires c.synchronous
    ensures var hs := Harmonics(c);
            && Argument(hs[0], w, x) == x - c.fasx2 && Argument(hs[1], w, x) == 2.0 * (x - c.fasx4)
            && Argument(hs[2], w, x) == 3.0 * (x - c.fasx6)
  {}

  lemma SumOfThree(g: Trig, hs: seq<Harmonic>, w: real, x: real)
    requires |hs| == 3
    ensures Forces(g, hs, w, x) == Force(g, hs[0], w, x) + Force(g, hs[1], w, x) + Force(g, hs[2], w, x)
    ensures Slopes(g, hs, w, x) == Slope(g, hs[0], w, x) + Slope(g, hs[1], w, x) + Slope(g, hs[2], w, x)
  {
    hide Force, Slope;
    SumCons(g, hs, w, x);
    SumCons(g, hs[1..], w, x);
    SumCons(g, hs[2..], w, x);
    assert hs[1..][1..] == hs[2..] && hs[2..][1..] == [];
  }

  lemma SumCons(g: Trig, hs: seq<Harmonic>, w: real, x: real)
    requires hs != []
    ensures Forces(g, hs, w, x) == Force(g, hs[0], w, x) + Forces(g, hs[1..], w, x)
    ensures Slopes(g, hs, w, x) == Slope(g, hs[0], w, x) + Slopes(g, hs[1..], w, x)
    ensures Forces(g, [], w, x) == 0.0 == Slopes(g, [], w, x)
  {}

  lemma HalfDayHarmonics(g: Trig, c: Resonance, s: State)
    requires !c.synchronous
    ensures var w := PerigeeAt(c, s.atime);
            && Xndot(g, c, s) == Forces(g, Harmonics(c), w, s.xli)
            && XndotSlope(g, c, s) == Slopes(g, Harmonics(c), w, s.xli)
  {
    hide Xndot, XndotSlope, Forces, Slopes;
    HalfDayForces(g, c, s);
    HalfDaySlopes(g, c, s);
  }

  lemma HalfDayForces(g: Trig, c: Resonance, s: State)
    requires !c.synchronous
    ensures Xndot(g, c, s) == Forces(g, Harmonics(c), PerigeeAt(c, s.atime), s.xli)
  {
    hide Force, Slope, Forces, Slopes, Argument, Sine, Cosine, PerigeeAt;
    var w, x, hs := PerigeeAt(c, s.atime), s.xli, Harmonics(c);
    HalfDayAngles(c, w, x);
    Angles(g, hs[0], w, x, w + w + x - G22);
    Angles(g, hs[1], w, x, x - G22);
    Angles(g, hs[2], w, x, w + x - G32);
    Angles(g, hs[3], w, x, -w + x - G32);
    Angles(g, hs[4], w, x, w + w + (x + x) - G44);
    Angles(g, hs[5], w, x, x + x - G44);
    Angles(g, hs[6], w, x, w + x - G52);
    Angles(g, hs[7], w, x, -w + x - G52);
    Angles(g, hs[8], w, x, w + (x + x) - G54);
    Angles(g, hs[9], w, x, -w + (x + x) - G54);
    SumOfTen(g, hs, w, x);
  }

  lemma HalfDaySlopes(g: Trig, c: Resonance, s: State)
    requires !c.synchronous
    ensures XndotSlope(g, c, s) == Slopes(g, Harmonics(c), PerigeeAt(c, s.atime), s.xli)
  {
    hide Force, Slope, Forces, Slopes, Argument, Sine, Cosine, PerigeeAt;
    var w, x, hs := PerigeeAt(c, s.atime), s.xli, Harmonics(c);
    HalfDayAngles(c, w, x);
    Angles(g, hs[0], w, x, w + w + x - G22);
    Angles(g, hs[1], w, x, x - G22);
    Angles(g, hs[2], w, x, w + x - G32);
    Angles(g, hs[3], w, x, -w + x - G32);
    Angles(g, hs[4], w, x, w + w + (x + x) - G44);
    Angles(g, hs[5], w, x, x + x - G44);
    Angles(g, hs[6], w, x, w + x - G52);
    Angles(g, hs[7], w, x, -w + x - G52);
    Angles(g, hs[8], w, x, w + (x + x) - G54);
    Angles(g, hs[9], w, x, -w + (x + x) - G54);
    SumOfTen(g, hs, w, x);
  }

  lemma HalfDayAngles(c: Resonance, w: real, x: real)
    requires !c.synchronous
    ensures var hs := Harmonics(c);
            && Argument(hs[0], w, x) == w + w + x - G22 && Argument(hs[1], w, x) == x - G22
            && Argument(hs[2], w, x) == w + x - G32 && Argument(hs[3], w, x) == -w + x - G32
            && Argument(hs[4], w, x) == w + w + (x + x) - G44 && Argument(hs[5], w, x) == x + x - G44
            && Argument(hs[6], w, x) == w + x - G52 && Argument(hs[7], w, x) == -w + x - G52
            && Argument(hs[8], w, x) == w + (x + x) - G54 && Argument(hs[9], w, x) == -w + (x + x) - G54
  {}

  lemma SumOfTen(g: Trig, hs: seq<Harmonic>, w: real, x: real)
    requires |hs| == 10
    ensures Forces(g, hs, w, x) ==
            Force(g, hs[0], w, x) + Force(g, hs[1], w, x) + Force(g, hs[2], w, x) + Force(g, hs[3], w, x)
            + Force(g, hs[4], w, x) + Force(g, hs[5], w, x) + Force(g, hs[6], w, x) + Force(g, hs[7], w, x)
            + Force(g, hs[8], w, x) + Force(g, hs[9], w, x)
    ensures Slopes(g, hs, w, x) ==
            Slope(g, hs[0], w, x) + Slope(g, hs[1], w, x) + Slope(g, hs[2], w, x) + Slope(g, hs[3], w, x)
            + Slope(g, hs[4], w, x) + Slope(g, hs[5], w, x) + Slope(g, hs[6], w, x) + Slope(g, hs[7], w, x)
            + Slope(g, hs[8], w, x) + Slope(g, hs[9], w, x)
  {
    hide Force, Slope, Forces, Slopes;
    SumOfFive(g, hs, w, x);
    SumOfFive(g, hs[5..], w, x);
    assert hs[5..][5..] == [];
    SumCons(g, hs, w, x);
  }

  lemma SumOfFive(g: Trig, hs: seq<Harmonic>, w: real, x: real)
    requires |hs| >= 5
    ensures Forces(g, hs, w, x) ==
            Force(g, hs[0], w, x) + Force(g, hs[1], w, x) + Force(g, hs[2], w, x) + Force(g, hs[3], w, x)
            + Force(g, hs[4], w, x) + Forces(g, hs[5..], w, x)
    ensures Slopes(g, hs, w, x) ==
            Slope(g, hs[0], w, x) + Slope(g, hs[1], w, x) + Slope(g, hs[2], w, x) + Slope(g, hs[3], w, x)
            + Slope(g, hs[4], w, x) + Slopes(g, hs[5..], w, x)
  {
    hide Force, Slope, Forces, Slopes;
    SumCons(g, hs, w, x);
    SumCons(g, hs[1..], w, x);
    SumCons(g, hs[2..], w, x);
    SumCons(g, hs[3..], w, x);
    SumCons(g, hs[4..], w, x);
    assert hs[1..][1..] == hs[2..] && hs[2..][1..] == hs[3..];
    assert hs[3..][1..] == hs[4..] && hs[4..][1..] == hs[5..];
  }

  /** A harmonic's slope is its multiple of the harmonic a quarter of its own wave further on. */
  lemma SlopeIsShifted(g: Trig, h: Harmonic, w: real, x: real)
    requires g.QuarterShift() && h.multiple != 0.0
    ensures Slope(g, h, w, x) == h.multiple * Force(g, h, w, x + PIO2 / h.multiple)
  {
    Restored(PIO2, h.multiple);
    assert g.QuarterAt(Argument(h, w, x));
    assert Argument(h, w, x + PIO2 / h.multiple) == Argument(h, w, x) + PIO2;
  }

  /** The multiples of a half-day resonance. */
  predicate OneOrTwo(hs: seq<Harmonic>) {
    forall k :: 0 <= k < |hs| ==> hs[k].multiple == 1.0 || hs[k].multiple == 2.0
  }

  lemma {:induction false} SlopesFromForces(g: Trig, hs: seq<Harmonic>, w: real, x: real)
    requires g.QuarterShift() && OneOrTwo(hs)
    ensures Slopes(g, hs, w, x) ==
            (Forces(g, hs, w, x + PIO2) - Forces(g, hs, w, x + 3.0 * PIO2)) / 2.0
            + Forces(g, hs, w, x + PIO2 / 2.0) + Forces(g, hs, w, x + PIO2 / 2.0 + 2.0 * PIO2)
    decreases |hs|
  {
    hide Force, Slope;
    if hs != [] {
      SlopesFromForces(g, hs[1..], w, x);
      SlopeFromForces(g, hs[0], w, x);
    }
  }

  lemma SlopeFromForces(g: Trig, h: Harmonic, w: real, x: real)
    requires g.QuarterShift() && (h.multiple == 1.0 || h.multiple == 2.0)
    ensures Slope(g, h, w, x) ==
            (Force(g, h, w, x + PIO2) - Force(g, h, w, x + 3.0 * PIO2)) / 2.0
            + Force(g, h, w, x + PIO2 / 2.0) + Force(g, h, w, x + PIO2 / 2.0 + 2.0 * PIO2)
  {
    hide Force, Slope, Argument, Trig.QuarterShift;
    var a, q, d, n := Argument(h, w, x), PIO2 / 2.0, h.amplitude, h.multiple;
    Further(h, w, x, PIO2);
    Further(h, w, x, 3.0 * PIO2);
    Further(h, w, x, q);
    Further(h, w, x, q + 2.0 * PIO2);
    assert x + (q + 2.0 * PIO2) == x + q + 2.0 * PIO2;
    Angles(g, h, w, x, a);
    Angles(g, h, w, x + PIO2, a + n * PIO2);
    Angles(g, h, w, x + 3.0 * PIO2, a + n * (3.0 * PIO2));
    Angles(g, h, w, x + q, a + n * q);
    Angles(g, h, w, x + q + 2.0 * PIO2, a + n * (q + 2.0 * PIO2));
    if n == 1.0 {
      OneRound(g, a);
      Waves(d, g.cos(a), g.sin(a + q));
    } else {
      TwoRounds(g, a);
    }
  }

  lemma Further(h: Harmonic, w: real, x: real, y: real)
    ensures Argument(h, w, x + y) == Argument(h, w, x) + h.multiple * y
  {}

  lemma OneRound(g: Trig, a: real)
    requires g.QuarterShift()
    ensures var q := PIO2 / 2.0;
            && g.sin(a + 1.0 * PIO2) == g.cos(a) && g.sin(a + 1.0 * (3.0 * PIO2)) == -g.cos(a)
            && g.sin(a + 1.0 * (q + 2.0 * PIO2)) == -g.sin(a + q) && g.sin(a + 1.0 * q) == g.sin(a + q)
  {
    var q := PIO2 / 2.0;
    QuarterSteps(g, a);
    QuarterSteps(g, a + q);
    assert a + (q + 2.0 * PIO2) == a + q + 2.0 * PIO2;
  }

  lemma TwoRounds(g: Trig, a: real)
    requires g.QuarterShift()
    ensures var q := PIO2 / 2.0;
            && g.sin(a + 2.0 * PIO2) == g.sin(a + 2.0 * (3.0 * PIO2))
            && g.sin(a + 2.0 * q) == g.cos(a) && g.sin(a + 2.0 * (q + 2.0 * PIO2)) == g.cos(a)
  {
    var q := PIO2 / 2.0;
    QuarterSteps(g, a);
    QuarterSteps(g, a + 2.0 * PIO2);
    QuarterSteps(g, a + 4.0 * PIO2);
    assert a + 2.0 * PIO2 + 2.0 * PIO2 == a + 4.0 * PIO2 && a + 4.0 * PIO2 + 2.0 * PIO2 == a + 2.0 * (3.0 * PIO2);
    assert a + 2.0 * q == a + PIO2 && a + 2.0 * (q + 2.0 * PIO2) == a + 4.0 * PIO2 + PIO2;
  }

  lemma Waves(d: real, c: real, s: real)
    ensures d * -c == -(d * c) && d * -s == -(d * s)
  {}

  lemma QuarterSteps(g: Trig, x: real)
    requires g.QuarterShift()
    ensures g.sin(x + PIO2) == g.cos(x) && g.sin(x + 2.0 * PIO2) == -g.sin(x) && g.cos(x + 2.0 * PIO2) == -g.cos(x)
    ensures g.sin(x + 3.0 * PIO2) == -g.cos(x)
  {
    assert g.QuarterAt(x) && g.QuarterAt(x + PIO2) && g.QuarterAt(x + 2.0 * PIO2);
    assert x + PIO2 + PIO2 == x + 2.0 * PIO2 && x + 2.0 * PIO2 + PIO2 == x + 3.0 * PIO2;
  }

  lemma HalfDayRounds(c: Resonance)
    requires !c.synchronous
    ensures OneOrTwo(Harmonics(c))
  {}

  /** xndot with the longitude moved on. */
  function XndotAt(g: Trig, c: Resonance, s: State, ahead: real): real {
    RatesAt(g, c, s.(xli := s.xli + ahead)).xndot
  }

  /** In a half-day resonance xnddt is xldot times the derivative of xndot in xli: of a wave once
      and a wave twice round, by its values at quarters of theirs. */
  lemma HalfDaySlope(g: Trig, c: Resonance, s: State)
    requires g.QuarterShift() && !c.synchronous
    ensures var q, r := PIO2, RatesAt(g, c, s);
            r.xnddt == ((XndotAt(g, c, s, q) - XndotAt(g, c, s, 3.0 * q)) / 2.0
                        + XndotAt(g, c, s, q / 2.0) + XndotAt(g, c, s, q / 2.0 + 2.0 * q)) * r.xldot
  {
    hide RatesAt, Forces, Slopes, Trig.QuarterShift, OneOrTwo;
    var w := c.omegaq + c.omgdot * s.atime;
    HalfDayRounds(c);
    RatesAreHarmonics(g, c, s, w);
    RatesAreHarmonics(g, c, s.(xli := s.xli + PIO2), w);
    RatesAreHarmonics(g, c, s.(xli := s.xli + 3.0 * PIO2), w);
    RatesAreHarmonics(g, c, s.(xli := s.xli + PIO2 / 2.0), w);
    RatesAreHarmonics(g, c, s.(xli := s.xli + (PIO2 / 2.0 + 2.0 * PIO2)), w);
    SlopesFromForces(g, Harmonics(c), w, s.xli);
    assert s.xli + (PIO2 / 2.0 + 2.0 * PIO2) == s.xli + PIO2 / 2.0 + 2.0 * PIO2;
  }

  /** And in a synchronous one, by the waves of each coefficient alone. */
  lemma SynchronousSlope(g: Trig, c: Resonance, s: State)
    requires g.QuarterShift() && c.synchronous
    ensures var r := RatesAt(g, c, s);
            r.xnddt == (XndotAt(g, c.(del2 := 0.0, del3 := 0.0), s, PIO2)
                        + 2.0 * XndotAt(g, c.(del1 := 0.0, del3 := 0.0), s, PIO2 / 2.0)
                        + 3.0 * XndotAt(g, c.(del1 := 0.0, del2 := 0.0), s, PIO2 / 3.0)) * r.xldot
  {
    hide XndotAt, XndotSlope, Xndot;
    Alone(g, c, s);
  }

  lemma Alone(g: Trig, c: Resonance, s: State)
    requires g.QuarterShift() && c.synchronous
    ensures XndotSlope(g, c, s) ==
            XndotAt(g, c.(del2 := 0.0, del3 := 0.0), s, PIO2)
            + 2.0 * XndotAt(g, c.(del1 := 0.0, del3 := 0.0), s, PIO2 / 2.0)
            + 3.0 * XndotAt(g, c.(del1 := 0.0, del2 := 0.0), s, PIO2 / 3.0)
  {
    hide Xndot, XndotSlope, Trig.QuarterShift;
    SynchronousParts(g, c, s);
    var x, first, second := s.xli, c.(del2 := 0.0, del3 := 0.0), c.(del1 := 0.0, del3 := 0.0);
    var third := c.(del1 := 0.0, del2 := 0.0);
    var a, b, d := x - c.fasx2, 2.0 * (x - c.fasx4), 3.0 * (x - c.fasx6);
    Only(g, first, s.(xli := x + PIO2));
    Only(g, second, s.(xli := x + PIO2 / 2.0));
    Only(g, third, s.(xli := x + PIO2 / 3.0));
    Quarters(g, a, b, d);
    assert x + PIO2 - c.fasx2 == a + PIO2;
    assert 2.0 * (x + PIO2 / 2.0 - c.fasx4) == b + PIO2;
    assert 3.0 * (x + PIO2 / 3.0 - c.fasx6) == d + PIO2;
  }

  lemma SynchronousParts(g: Trig, c: Resonance, s: State)
    requires c.synchronous
    ensures XndotSlope(g, c, s) ==
            c.del1 * g.cos(s.xli - c.fasx2) + 2.0 * (c.del2 * g.cos(2.0 * (s.xli - c.fasx4)))
            + 3.0 * (c.del3 * g.cos(3.0 * (s.xli - c.fasx6)))
  {}

  lemma Quarters(g: Trig, a: real, b: real, d: real)
    requires g.QuarterShift()
    ensures g.sin(a + PIO2) == g.cos(a) && g.sin(b + PIO2) == g.cos(b) && g.sin(d + PIO2) == g.cos(d)
  {
    assert g.QuarterAt(a) && g.QuarterAt(b) && g.QuarterAt(d);
  }

  /** What one coefficient alone gives. */
  lemma Only(g: Trig, c: Resonance, s: State)
    requires c.synchronous
    ensures c.del2 == 0.0 == c.del3 ==> Xndot(g, c, s) == c.del1 * g.sin(s.xli - c.fasx2)
    ensures c.del1 == 0.0 == c.del3 ==> Xndot(g, c, s) == c.del2 * g.sin(2.0 * (s.xli - c.fasx4))
    ensures c.del1 == 0.0 == c.del2 ==> Xndot(g, c, s) == c.del3 * g.sin(3.0 * (s.xli - c.fasx6))
  {}

  /** What a query reads off a state at its own time is the state, and a whole step after it the
      next one. */
  lemma ReadOutMeets(p: Problem, s: State, delt: real)
    requires delt == STEPP || delt == STEPN
    ensures var next := Move(p, s, delt);
            AnswerOf(p, s, next.atime) == Answer(next.xni, next.xli) && next.atime == s.atime + delt
    ensures AnswerOf(p, s, s.atime) == Answer(s.xni, s.xli)
  {
    StepOn(p, s, delt);
  }

  lemma StepOn(p: Problem, s: State, delt: real)
    requires delt == STEPP || delt == STEPN
    ensures var r, next := RatesOf(p, s), Move(p, s, delt);
            MotionAt(r, s, delt) == next.xni && LongitudeAt(r, s, delt) == next.xli && next.atime == s.atime + delt
  {}

  // ---------- the lunar-solar terms ----------

  /** The angle of a perturbing body, to the first order in its eccentricity. */
  function Anomaly(g: Trig, zm: real, ze: real): real {
    zm + 2.0 * ze * g.sin(zm)
  }

  /** f2 and f3 are a wave of twice that angle. */
  lemma PhaseIsWave(g: Trig, zm: real, ze: real)
    requires g.Pythagoras() && g.Sums()
    ensures var (f2, f3, sinzf) := Phase(g, zm, ze);
            var zf := Anomaly(g, zm, ze);
            && f2 == -0.25 * g.cos(zf + zf) && f3 == -0.25 * g.sin(zf + zf) && sinzf == g.sin(zf)
            && Sqr(f2) + Sqr(f3) == 0.0625
  {
    var zf := Anomaly(g, zm, ze);
    assert g.SumAt(zf, zf);
    DoubleAngle(g.sin(zf), g.cos(zf));
    WaveLength(g, zf + zf);
  }

  lemma DoubleAngle(s: real, c: real)
    requires s * s + c * c == 1.0
    ensures -0.25 * (c * c - s * s) == 0.5 * s * s - 0.25 && -0.25 * (s * c + c * s) == -0.5 * s * c
  {}

  lemma WaveLength(g: Trig, x: real)
    requires g.Pythagoras()
    ensures Sqr(-0.25 * g.cos(x)) + Sqr(-0.25 * g.sin(x)) == 0.0625
  {
    assert Sqr(-0.25 * g.cos(x)) + Sqr(-0.25 * g.sin(x)) == 0.0625 * (g.sin(x) * g.sin(x) + g.cos(x) * g.cos(x));
  }

  /** So every term is made of waves of twice the sun's and the moon's angle, a quarter of their
      coefficients high, and the longitude and perigee terms of a wave of the angle itself. */
  lemma TermsAreWaves(g: Trig, q: Periodic, t: real)
    requires g.Pythagoras() && g.Sums()
    ensures var w := TermsAt(g, q, t);
            var sun, moon := Anomaly(g, q.zmos + ZNS * t, ZES), Anomaly(g, q.zmol + ZNL * t, ZEL);
            var c, s, c', s' := g.cos(sun + sun), g.sin(sun + sun), g.cos(moon + moon), g.sin(moon + moon);
            && -4.0 * w.pe == (q.se2 * c + q.se3 * s) + (q.ee2 * c' + q.e3 * s')
            && -4.0 * w.pinc == (q.si2 * c + q.si3 * s) + (q.xi2 * c' + q.xi3 * s')
            && -4.0 * (w.pl - q.sl4 * g.sin(sun) - q.xl4 * g.sin(moon)) ==
               (q.sl2 * c + q.sl3 * s) + (q.xl2 * c' + q.xl3 * s')
            && -4.0 * (w.sghs - q.sgh4 * g.sin(sun)) == (q.sgh2 * c + q.sgh3 * s)
            && -4.0 * (w.sghl - q.xgh4 * g.sin(moon)) == (q.xgh2 * c' + q.xgh3 * s')
            && -4.0 * w.shs == (q.sh2 * c + q.sh3 * s) && -4.0 * w.sh1 == (q.xh2 * c' + q.xh3 * s')
  {
    hide Phase, Anomaly, TermsAt, Weighed, Height, Trig.Pythagoras, Trig.Sums, Sqr;
    PhaseIsWave(g, q.zmos + ZNS * t, ZES);
    PhaseIsWave(g, q.zmol + ZNL * t, ZEL);
    TermsOfPhases(g, q, t);
    var sun, moon := Anomaly(g, q.zmos + ZNS * t, ZES), Anomaly(g, q.zmol + ZNL * t, ZEL);
    var c, s, c', s' := g.cos(sun + sun), g.sin(sun + sun), g.cos(moon + moon), g.sin(moon + moon);
    QuarterWave(q.se2, q.se3, c, s);
    QuarterWave(q.si2, q.si3, c, s);
    QuarterWave(q.sl2, q.sl3, c, s);
    QuarterWave(q.sgh2, q.sgh3, c, s);
    QuarterWave(q.sh2, q.sh3, c, s);
    QuarterWave(q.ee2, q.e3, c', s');
    QuarterWave(q.xi2, q.xi3, c', s');
    QuarterWave(q.xl2, q.xl3, c', s');
    QuarterWave(q.xgh2, q.xgh3, c', s');
    QuarterWave(q.xh2, q.xh3, c', s');
    Heights(q.sl4, g.sin(sun), q.xl4, g.sin(moon));
    Heights(q.sgh4, g.sin(sun), q.xgh4, g.sin(moon));
  }

  lemma QuarterWave(a2: real, a3: real, c: real, s: real)
    ensures -4.0 * Weighed(a2, -0.25 * c, a3, -0.25 * s) == a2 * c + a3 * s
  {}

  lemma Heights(a: real, x: real, b: real, y: real)
    ensures Height(a, x) == a * x && Height(b, y) == b * y
  {}

  lemma TermsOfPhases(g: Trig, q: Periodic, t: real)
    ensures var w := TermsAt(g, q, t);
            var (f2, f3, f) := Phase(g, q.zmos + ZNS * t, ZES);
            var (m2, m3, m) := Phase(g, q.zmol + ZNL * t, ZEL);
            && w.pe == Weighed(q.se2, f2, q.se3, f3) + Weighed(q.ee2, m2, q.e3, m3)
            && w.pinc == Weighed(q.si2, f2, q.si3, f3) + Weighed(q.xi2, m2, q.xi3, m3)
            && w.shs == Weighed(q.sh2, f2, q.sh3, f3) && w.sh1 == Weighed(q.xh2, m2, q.xh3, m3)
            && w.sghs == Weighed(q.sgh2, f2, q.sgh3, f3) + Height(q.sgh4, f)
            && w.sghl == Weighed(q.xgh2, m2, q.xgh3, m3) + Height(q.xgh4, m)
            && w.pl == Weighed(q.sl2, f2, q.sl3, f3) + Height(q.sl4, f)
                       + (Weighed(q.xl2, m2, q.xl3, m3) + Height(q.xl4, m))
  {
    hide Phase, Weighed, Height;
  }

  // ---------- their application ----------

  /** Off the equator the node turns so that its sine of the inclination is the term, and the
      perigee and the node's projection on it share the perigee's terms. */
  lemma DirectMeans(g: Trig, q: Periodic, p: Terms, e: Elements)
    requires q.xqncl >= 0.2 && q.sinio != 0.0
    ensures var e' := AtPeriodic(g, q, p, e);
            && q.sinio * (e'.xnode - e.xnode) == p.shs + p.sh1
            && (e'.omgadf - e.omgadf) + q.cosio * (e'.xnode - e.xnode) == p.sghs + p.sghl
            && e'.xll - e.xll == p.pl && e'.em - e.em == p.pe && e'.xinc - e.xinc == p.pinc
  {
    Restored(p.shs + p.sh1, q.sinio);
  }

  /** Near it, the new node is the direction of a vector that seen from the old node is the
      inclination's sine and its change one way and the node's term the other; and perigee and
      longitude change by what the node leaves of their terms. */
  lemma LyddaneMeans(g: Trig, q: Periodic, p: Terms, e: Elements)
    requires q.xqncl < 0.2 && g.Pythagoras() && g.SquareRoot() && g.TangentInverse()
    requires g.HalfTurn() && g.WholeTurn() && g.QuarterTurn()
    ensures var e' := AtPeriodic(g, q, p, e);
            var along, across := g.sin(e.xinc) + p.pinc * g.cos(e.xinc), p.shs + p.sh1;
            && e'.em - e.em == p.pe && e'.xinc - e.xinc == p.pinc && e'.xll - e.xll == p.pl
            && (e'.xll + e'.omgadf + g.cos(e'.xinc) * e'.xnode)
               - (e.xll + e.omgadf + g.cos(e.xinc) * FMod2p(e.xnode))
               == p.pl + (p.sghs + p.sghl) - p.pinc * FMod2p(e.xnode) * g.sin(e.xinc)
            && (Alfdp(g, p, e) > 0.0 || Betdp(g, p, e) != 0.0 ==>
                  exists r :: Seen(g, r, e'.xnode, e.xnode, along, across))
  {
    hide Lyddane, FMod2p, Trig.HalfTurn, Trig.TangentInverse, Trig.QuarterTurn, Trig.WholeTurn, Trig.SquareRoot;
    hide Seen, Alfdp, Betdp;
    LyddaneSums(g, p, e);
    if Alfdp(g, p, e) > 0.0 || Betdp(g, p, e) != 0.0 {
      var r := NodeSeen(g, p, e);
    }
  }

  lemma NodeSeen(g: Trig, p: Terms, e: Elements) returns (r: real)
    requires g.Pythagoras() && g.SquareRoot() && g.TangentInverse()
    requires g.HalfTurn() && g.WholeTurn() && g.QuarterTurn()
    requires Alfdp(g, p, e) > 0.0 || Betdp(g, p, e) != 0.0
    ensures Seen(g, r, Lyddane(g, p, e).xnode, e.xnode, g.sin(e.xinc) + p.pinc * g.cos(e.xinc), p.shs + p.sh1)
  {
    hide Lyddane, Seen, Alfdp, Betdp;
    hide Trig.HalfTurn, Trig.TangentInverse, Trig.QuarterTurn, Trig.WholeTurn, Trig.SquareRoot;
    r := NodeNames(g, p, e);
    FromOldNode(g, p, e);
    hide Trig.Pythagoras;
    SeenFrom(g, r, Lyddane(g, p, e).xnode, e.xnode, Alfdp(g, p, e), Betdp(g, p, e),
             g.sin(e.xinc) + p.pinc * g.cos(e.xinc), p.shs + p.sh1);
  }

  lemma LyddaneSums(g: Trig, p: Terms, e: Elements)
    ensures var e', n := Lyddane(g, p, e), FMod2p(e.xnode);
            && e'.em - e.em == p.pe && e'.xinc - e.xinc == p.pinc && e'.xll - e.xll == p.pl
            && (e'.xll + e'.omgadf + g.cos(e'.xinc) * e'.xnode) - (e.xll + e.omgadf + g.cos(e.xinc) * n)
               == p.pl + (p.sghs + p.sghl) - p.pinc * n * g.sin(e.xinc)
  {
    hide Trig.AcTan, FMod2p, Unwrapped;
  }

  /** A vector of length r toward node n', seen from node n: so much along and so much across. */
  ghost predicate Seen(g: Trig, r: real, n': real, n: real, along: real, across: real) {
    && r > 0.0
    && (r * g.cos(n')) * g.cos(n) + (r * g.sin(n')) * g.sin(n) == along
    && (r * g.sin(n')) * g.cos(n) - (r * g.cos(n')) * g.sin(n) == across
  }

  lemma SeenFrom(g: Trig, r: real, n': real, n: real, a: real, b: real, along: real, across: real)
    requires r > 0.0 && r * g.cos(n') == b && r * g.sin(n') == a
    requires along == b * g.cos(n) + a * g.sin(n) && across == a * g.cos(n) - b * g.sin(n)
    ensures Seen(g, r, n', n, along, across)
  {}

  function Alfdp(g: Trig, p: Terms, e: Elements): real {
    g.sin(e.xinc) * g.sin(e.xnode)
    + ((p.shs + p.sh1) * g.cos(e.xnode) + p.pinc * g.cos(e.xinc) * g.sin(e.xnode))
  }

  function Betdp(g: Trig, p: Terms, e: Elements): real {
    g.sin(e.xinc) * g.cos(e.xnode)
    + (-(p.shs + p.sh1) * g.sin(e.xnode) + p.pinc * g.cos(e.xinc) * g.cos(e.xnode))
  }

  lemma FromOldNode(g: Trig, p: Terms, e: Elements)
    requires g.Pythagoras()
    ensures var a, b := Alfdp(g, p, e), Betdp(g, p, e);
            && b * g.cos(e.xnode) + a * g.sin(e.xnode) == g.sin(e.xinc) + p.pinc * g.cos(e.xinc)
            && a * g.cos(e.xnode) - b * g.sin(e.xnode) == p.shs + p.sh1
  {
    Rotated(g.sin(e.xinc), p.shs + p.sh1, p.pinc * g.cos(e.xinc), g.sin(e.xnode), g.cos(e.xnode));
  }

  lemma Rotated(i: real, h: real, k: real, s: real, c: real)
    requires s * s + c * c == 1.0
    ensures var a, b := i * s + (h * c + k * s), i * c + (-h * s + k * c);
            b * c + a * s == i + k && a * c - b * s == h
  {
    var a, b := i * s + (h * c + k * s), i * c + (-h * s + k * c);
    assert b * c + a * s == (i + k) * (s * s + c * c);
    assert a * c - b * s == h * (s * s + c * c);
  }

  lemma NodeNames(g: Trig, p: Terms, e: Elements) returns (r: real)
    requires g.Pythagoras() && g.SquareRoot() && g.TangentInverse()
    requires g.HalfTurn() && g.WholeTurn() && g.QuarterTurn()
    requires Alfdp(g, p, e) > 0.0 || Betdp(g, p, e) != 0.0
    ensures var n := Lyddane(g, p, e).xnode;
            r > 0.0 && r * g.cos(n) == Betdp(g, p, e) && r * g.sin(n) == Alfdp(g, p, e)
  {
    var a, b := Alfdp(g, p, e), Betdp(g, p, e);
    LyddaneNodeIs(g, p, e);
    hide Lyddane, Alfdp, Betdp, Trig.AcTan, FMod2p, Unwrapped, Trig.HalfTurn, Trig.TangentInverse, Trig.QuarterTurn;
    r := DirectionOf(g, a, b);
    TurnForgotten(g, g.AcTan(a, b), FMod2p(e.xnode));
  }

  lemma LyddaneNodeIs(g: Trig, p: Terms, e: Elements)
    ensures Lyddane(g, p, e).xnode == Unwrapped(g.AcTan(Alfdp(g, p, e), Betdp(g, p, e)), FMod2p(e.xnode))
  {
    hide Trig.AcTan, FMod2p, Unwrapped;
  }

  /** A node is moved if and only if it is more than half a turn away. */
  lemma UnwrappedIff(x: real, y: real)
    ensures Unwrapped(x, y) == x <==> Abs(y - x) <= PI
  {}

  lemma TurnForgotten(g: Trig, x: real, y: real)
    requires g.WholeTurn()
    ensures g.cos(Unwrapped(x, y)) == g.cos(x) && g.sin(Unwrapped(x, y)) == g.sin(x)
  {
    assert x - TWOPI + TWOPI == x;
  }

  /** AcTan names the direction of any vector not straight down. */
  lemma DirectionOf(g: Trig, y: real, x: real) returns (r: real)
    requires g.Pythagoras() && g.SquareRoot() && g.TangentInverse()
    requires g.HalfTurn() && g.WholeTurn() && g.QuarterTurn() && (y > 0.0 || x != 0.0)
    ensures r > 0.0 && r * g.cos(g.AcTan(y, x)) == x && r * g.sin(g.AcTan(y, x)) == y
  {
    hide Trig.Pythagoras, Trig.AcTan, Sqr, Trig.HalfTurn, Trig.TangentInverse, Trig.QuarterTurn, Trig.WholeTurn;
    hide Trig.SquareRoot;
    r := Length(g, x, y);
    var u, v := Normalized(g, x, y, r);
    UnitNames(g, v, u);
    Renamed(r, u, g.cos(g.AcTan(y, x)), x);
    Renamed(r, v, g.sin(g.AcTan(y, x)), y);
  }

  lemma Renamed(r: real, u: real, c: real, x: real)
    requires c == u && r * u == x
    ensures r * c == x
  {}

  lemma Normalized(g: Trig, x: real, y: real, r: real) returns (u: real, v: real)
    requires r > 0.0 && Sqr(r) == Sqr(x) + Sqr(y) && (y > 0.0 || x != 0.0)
    ensures r * u == x && r * v == y && Sqr(u) + Sqr(v) == 1.0 && (u == 0.0 ==> v > 0.0)
    ensures g.AcTan(v, u) == g.AcTan(y, x)
  {
    hide Trig.AcTan, Sqr;
    u, v := x / r, y / r;
    UnitPair(x, y, r);
    SameAngle(g, y, x, r);
    ScaledBack(x, r, u);
    ScaledBack(y, r, v);
  }

  lemma ScaledBack(x: real, r: real, c: real)
    requires r > 0.0 && c == x / r
    ensures r * c == x
  {}

  lemma UnitNames(g: Trig, y: real, x: real)
    requires g.Pythagoras() && g.TangentInverse() && g.HalfTurn() && g.WholeTurn() && g.QuarterTurn()
    requires Sqr(x) + Sqr(y) == 1.0 && (x == 0.0 ==> y > 0.0)
    ensures g.cos(g.AcTan(y, x)) == x && g.sin(g.AcTan(y, x)) == y
  {
    hide Trig.AcTan;
    AcTanNames(g, y, x);
  }

  lemma Length(g: Trig, x: real, y: real) returns (r: real)
    requires g.SquareRoot() && (y > 0.0 || x != 0.0)
    ensures r > 0.0 && Sqr(r) == Sqr(x) + Sqr(y)
  {
    hide Sqr;
    SqrNotNegative(x);
    SqrNotNegative(y);
    if x != 0.0 {
      SqrPositive(x);
    } else {
      SqrPositive(y);
    }
    r := g.sqrt(Sqr(x) + Sqr(y));
    RootPositive(g, Sqr(x) + Sqr(y));
    RootIs(g, Sqr(x) + Sqr(y));
  }

  lemma RootIs(g: Trig, x: real)
    requires g.SquareRoot() && x >= 0.0
    ensures Sqr(g.sqrt(x)) == x
  {}

  lemma SameAngle(g: Trig, y: real, x: real, r: real)
    requires r > 0.0 && (y > 0.0 || x != 0.0)
    ensures g.AcTan(y / r, x / r) == g.AcTan(y, x) && (x / r == 0.0 ==> y / r > 0.0)
  {
    Quotient(x, r);
    Quotient(y, r);
    Quotient(-x, r);
    NegatedRatio(x, r);
    if x != 0.0 {
      CancelRatio(y, x, r);
    }
  }

  lemma CancelRatio(y: real, x: real, r: real)
    requires r > 0.0 && x != 0.0
    ensures x / r != 0.0 && (y / r) / (x / r) == y / x
  {
    Restored(y, r);
    Restored(x, r);
    var p, q := y / r, x / r;
    assert q != 0.0;
    Ratio(p, q, r);
  }

  lemma Ratio(p: real, q: real, r: real)
    requires r > 0.0 && q != 0.0
    ensures q * r != 0.0 && (p * r) / (q * r) == p / q
  {
    Nonzero(q, r);
    var d := p / q;
    Restored(p, q);
    assert p * r == d * (q * r);
    Unscaled(p * r, d, q * r);
  }

  /** The secular rates: while the inclination stays positive, the elements of two instants
      differ by the rates times the time between. */
  lemma SecularRates(sec: Secular, e: Elements, t: real, u: real)
    requires sec.xincl + sec.ssi * t >= 0.0 && sec.xincl + sec.ssi * u >= 0.0
    ensures var a, b, dt := AtSecular(sec, e, t), AtSecular(sec, e, u), u - t;
            && b.xll - a.xll == sec.ssl * dt && b.omgadf - a.omgadf == sec.ssg * dt
            && b.xnode - a.xnode == sec.ssh * dt && b.em - a.em == sec.sse * dt && b.xinc - a.xinc == sec.ssi * dt
    ensures var a := AtSecular(sec, e, 0.0);
            sec.xincl >= 0.0 ==> a == e.(em := sec.eo, xinc := sec.xincl)
  {}

  /** And where it is negative, the orbit is taken over the pole: the inclination changes its
      sign, the node goes half a turn on, and the perigee as far back from it. */
  lemma SecularTurned(sec: Secular, e: Elements, t: real)
    requires sec.xincl + sec.ssi * t < 0.0
    ensures var a, node := AtSecular(sec, e, t), e.xnode + sec.ssh * t;
            && a.xinc == -(sec.xincl + sec.ssi * t) && a.xnode == node + PI
            && a.omgadf + a.xnode == e.omgadf + sec.ssg * t + node
            && a.xll - e.xll == sec.ssl * t && a.em - sec.eo == sec.sse * t
  {}
}
