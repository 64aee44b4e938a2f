/** What the numbers of SGP4 and SDP4 mean before and after the short-period updates: Kepler's
    equation in its usual form, the energy of the orbit, and each update by itself. */
module Osculation {
  import opened Reals
  import opened Trigonometry
  import opened Kepler
  import opened Propagation

  // ---------- Kepler's equation ----------

  /** With the eccentricity e toward the perigee omega, from the eccentric anomaly: the
      residual is that of M = E - e sin E, and the divisor its derivative. */
  lemma KeplersEquation(g: Trig, e: real, omega: real, mean: real, anomaly: real)
    requires g.Pythagoras() && g.Sums()
    ensures var axn, ayn, w := e * g.cos(omega), e * g.sin(omega), anomaly + omega;
            && Residual(g, mean + omega, axn, ayn, w) == mean - (anomaly - e * g.sin(anomaly))
            && DivisorAt(g, axn, ayn, w) == 1.0 - e * g.cos(anomaly)
            && Esine(axn, ayn, g.sin(w), g.cos(w)) == e * g.sin(anomaly)
  {
    assert g.SumAt(anomaly, omega);
    TurnedBack(e, g.sin(anomaly), g.cos(anomaly), g.sin(omega), g.cos(omega),
               g.sin(anomaly + omega), g.cos(anomaly + omega));
  }

  lemma TurnedBack(e: real, s: real, c: real, so: real, co: real, sw: real, cw: real)
    requires so * so + co * co == 1.0 && sw == s * co + c * so && cw == c * co - s * so
    ensures (e * co) * sw - (e * so) * cw == e * s && (e * co) * cw + (e * so) * sw == e * c
  {
    assert (e * co) * sw - (e * so) * cw == e * s * (so * so + co * co);
    assert (e * co) * cw + (e * so) * sw == e * c * (so * so + co * co);
  }

  // ---------- before the updates ----------

  /** The radial and transverse speeds before the updates. */
  function Rdot(g: Trig, a: real, q: InPlane): real
    requires q.r != 0.0
  {
    XKE * g.sqrt(a) * q.esine * (1.0 / q.r)
  }

  function Rfdot(g: Trig, q: InPlane): real
    requires q.r != 0.0
  {
    XKE * g.sqrt(q.pl) * (1.0 / q.r)
  }

  /** The square of the eccentricity's complement is what betal stands for. */
  lemma BetalIs(g: Trig, a: real, axn: real, ayn: real, w: real)
    requires g.Pythagoras() && g.SquareRoot() && a > 0.0 && Elsq(axn, ayn) < 1.0
    ensures var q := PlaceAt(g, a, axn, ayn, w);
            q.betal >= 0.0 && Sqr(q.betal) == 1.0 - Elsq(axn, ayn) && q.pl == a * Sqr(q.betal)
            && q.esine == Esine(axn, ayn, g.sin(w), g.cos(w))
            && q.r == a * (1.0 - Ecose(axn, ayn, g.sin(w), g.cos(w)))
  {
    hide Elsq, Ecose, Esine, PlaneX, PlaneY;
    OnUnitCircle(g, a, axn, ayn, w);
  }

  /** The transverse speed sweeps area at the rate of the orbit, and the radial speed is
      outward while the anomaly's sine is positive. */
  lemma AreaLaw(g: Trig, a: real, q: InPlane)
    requires q.r != 0.0
    ensures q.r * Rfdot(g, q) == XKE * g.sqrt(q.pl) && q.r * Rdot(g, a, q) == XKE * g.sqrt(a) * q.esine
  {
    var t := 1.0 / q.r;
    Inverse(q.r, t);
    Once(q.r, t, XKE * g.sqrt(q.pl), Rfdot(g, q));
    Once(q.r, t, XKE * g.sqrt(a) * q.esine, Rdot(g, a, q));
  }

  /** At every place of the orbit the speeds before the updates have the energy of the orbit:
      v² = xke² (2 / r - 1 / a). */
  lemma VisViva(g: Trig, a: real, axn: real, ayn: real, w: real)
    requires g.Pythagoras() && g.SquareRoot() && a > 0.0 && Elsq(axn, ayn) < 1.0
    ensures var q := PlaceAt(g, a, axn, ayn, w);
            && q.r > 0.0 && (Sqr(Rdot(g, a, q)) + Sqr(Rfdot(g, q))) * q.r * a == Sqr(XKE) * (2.0 * a - q.r)
  {
    hide PlaceAt, Elsq, Ecose, Esine, Sqr, Rdot, Rfdot;
    var q := PlaceAt(g, a, axn, ayn, w);
    BetalIs(g, a, axn, ayn, w);
    var s, c := g.sin(w), g.cos(w);
    var ecose, esine := Ecose(axn, ayn, s, c), Esine(axn, ayn, s, c);
    UnitSquares(g, w);
    Projections(axn, ayn, s, c);
    SpeedSquares(g, a, q);
    Energy(a, q.r, ecose, Sqr(esine), q.pl, Sqr(Rdot(g, a, q)) + Sqr(Rfdot(g, q)));
  }

  lemma UnitSquares(g: Trig, w: real)
    requires g.Pythagoras()
    ensures Sqr(g.sin(w)) + Sqr(g.cos(w)) == 1.0
  {}

  lemma SpeedSquares(g: Trig, a: real, q: InPlane)
    requires g.SquareRoot() && a > 0.0 && q.r > 0.0 && q.pl > 0.0
    ensures (Sqr(Rdot(g, a, q)) + Sqr(Rfdot(g, q))) * Sqr(q.r) == Sqr(XKE) * (a * Sqr(q.esine) + q.pl)
  {
    hide Sqr;
    var x, y := g.sqrt(a), g.sqrt(q.pl);
    var z, w := XKE * x * q.esine, XKE * y;
    Times(Rdot(g, a, q), q.r, z);
    Times(Rfdot(g, q), q.r, w);
    RootSquare(g, a);
    RootSquare(g, q.pl);
    SquareOfThree(XKE, x, q.esine, z);
    SquareOfThree(XKE, y, 1.0, w);
    UnitSquare();
    hide Rdot, Rfdot;
    Spread(Sqr(Rdot(g, a, q)), Sqr(Rfdot(g, q)), Sqr(q.r), Sqr(XKE), Sqr(x), a, Sqr(q.esine), Sqr(y), q.pl);
  }

  lemma SquareOfThree(k: real, x: real, e: real, z: real)
    requires z == k * x * e
    ensures Sqr(z) == Sqr(k) * Sqr(x) * Sqr(e)
  {}

  lemma UnitSquare()
    ensures Sqr(1.0) == 1.0
  {}

  lemma Times(v: real, r: real, x: real)
    requires r > 0.0 && v == x * (1.0 / r)
    ensures Sqr(v) * Sqr(r) == Sqr(x)
  {
    hide Sqr;
    Restored(x, r);
    Quotients(x, r);
    SqrProduct(v, r);
    assert v * r == x;
  }

  lemma Quotients(x: real, r: real)
    requires r > 0.0
    ensures x * (1.0 / r) == x / r
  {}

  lemma RootSquare(g: Trig, x: real)
    requires g.SquareRoot() && x > 0.0
    ensures Sqr(g.sqrt(x)) == x
  {}

  lemma Spread(v: real, f: real, r: real, k: real, x: real, a: real, e: real, y: real, p: real)
    requires v * r == k * x * e && f * r == k * y && x == a && y == p
    ensures (v + f) * r == k * (a * e + p)
  {}

  lemma Energy(a: real, r: real, ecose: real, e2: real, pl: real, v2: real)
    requires a > 0.0 && r > 0.0 && r == a * (1.0 - ecose) && pl == a * (1.0 - (Sqr(ecose) + e2))
    requires v2 * Sqr(r) == Sqr(XKE) * (a * e2 + pl)
    ensures v2 * r * a == Sqr(XKE) * (2.0 * a - r)
  {
    assert a * e2 + pl == r * (1.0 + ecose);
    var k := Sqr(XKE);
    assert (v2 * r) * r == (k * (1.0 + ecose)) * r;
    Unscaled((v2 * r) * r, v2 * r, r);
    Unscaled((k * (1.0 + ecose)) * r, k * (1.0 + ecose), r);
    assert v2 * r * a == k * (a * (1.0 + ecose));
  }

  // ---------- the updates ----------

  function Sin2u(q: InPlane): real {
    2.0 * q.sinu * q.cosu
  }

  function Cos2u(q: InPlane): real {
    2.0 * q.cosu * q.cosu - 1.0
  }

  /** Each update by itself, cleared of its divisions: of the radius, the node, the
      inclination and the two speeds, in terms of the double argument. */
  lemma ShortPeriods(g: Trig, m: Mean, k: Inclined, q: InPlane)
    requires q.r != 0.0 && q.pl != 0.0
    ensures var o := Osculate(g, m, k, q);
            var sin2u, cos2u := Sin2u(q), Cos2u(q);
            && Sqr(q.pl) * (o.rk - q.r) ==
               0.5 * CK2 * (q.pl * (k.x1mth2 * cos2u)) - 1.5 * CK2 * (q.r * q.betal * k.x3thm1)
            && Sqr(q.pl) * (o.xnodek - m.xnode) == 1.5 * CK2 * (k.cosio * sin2u)
            && Sqr(q.pl) * (o.xinck - m.xinc) == 1.5 * CK2 * (k.cosio * k.sinio * cos2u)
            && q.pl * (o.rdotk - Rdot(g, m.a, q)) == -CK2 * (m.xn * k.x1mth2 * sin2u)
            && q.pl * (o.rfdotk - Rfdot(g, q)) == CK2 * (m.xn * (k.x1mth2 * cos2u + 1.5 * k.x3thm1))
  {
    hide Osculate, Sqr, Rdot, Rfdot, Sin2u, Cos2u;
    RadiusUpdated(g, m, k, q);
    NodeUpdated(g, m, k, q);
    TiltUpdated(g, m, k, q);
    RadialUpdated(g, m, k, q);
    TransverseUpdated(g, m, k, q);
  }

  lemma RadiusUpdated(g: Trig, m: Mean, k: Inclined, q: InPlane)
    requires q.r != 0.0 && q.pl != 0.0
    ensures Sqr(q.pl) * (Osculate(g, m, k, q).rk - q.r) ==
            0.5 * CK2 * (q.pl * (k.x1mth2 * Cos2u(q))) - 1.5 * CK2 * (q.r * q.betal * k.x3thm1)
  {
    hide Osculate, Sqr, Rdot, Rfdot, Sin2u, Cos2u, Trig.AcTan;
    var t := 1.0 / q.pl;
    Inverse(q.pl, t);
    RadiusTerm(g, m, k, q, t);
    RadiusWave(q.pl, t, k.x1mth2 * Cos2u(q), q.r * q.betal * k.x3thm1, Osculate(g, m, k, q).rk - q.r);
  }

  lemma RadiusTerm(g: Trig, m: Mean, k: Inclined, q: InPlane, t: real)
    requires q.r != 0.0 && q.pl != 0.0 && t == 1.0 / q.pl
    ensures Osculate(g, m, k, q).rk - q.r ==
            0.5 * CK2 * t * (k.x1mth2 * Cos2u(q)) - 1.5 * CK2 * (t * t) * (q.r * q.betal * k.x3thm1)
  {
    hide Trig.AcTan;
  }

  lemma NodeUpdated(g: Trig, m: Mean, k: Inclined, q: InPlane)
    requires q.r != 0.0 && q.pl != 0.0
    ensures Sqr(q.pl) * (Osculate(g, m, k, q).xnodek - m.xnode) == 1.5 * CK2 * (k.cosio * Sin2u(q))
  {
    hide Osculate, Sqr, Rdot, Rfdot, Sin2u, Cos2u, Trig.AcTan;
    var t := 1.0 / q.pl;
    Inverse(q.pl, t);
    NodeTerm(g, m, k, q, t);
    Wave(q.pl, t, k.cosio * Sin2u(q), 1.5 * CK2, Osculate(g, m, k, q).xnodek - m.xnode);
  }

  lemma NodeTerm(g: Trig, m: Mean, k: Inclined, q: InPlane, t: real)
    requires q.r != 0.0 && q.pl != 0.0 && t == 1.0 / q.pl
    ensures Osculate(g, m, k, q).xnodek - m.xnode ==
            1.5 * CK2 * (t * t) * (k.cosio * Sin2u(q))
  {
    hide Trig.AcTan;
  }

  lemma TiltUpdated(g: Trig, m: Mean, k: Inclined, q: InPlane)
    requires q.r != 0.0 && q.pl != 0.0
    ensures Sqr(q.pl) * (Osculate(g, m, k, q).xinck - m.xinc) == 1.5 * CK2 * (k.cosio * k.sinio * Cos2u(q))
  {
    hide Osculate, Sqr, Rdot, Rfdot, Sin2u, Cos2u, Trig.AcTan;
    var t := 1.0 / q.pl;
    Inverse(q.pl, t);
    TiltTerm(g, m, k, q, t);
    Wave(q.pl, t, k.cosio * k.sinio * Cos2u(q), 1.5 * CK2, Osculate(g, m, k, q).xinck - m.xinc);
  }

  lemma TiltTerm(g: Trig, m: Mean, k: Inclined, q: InPlane, t: real)
    requires q.r != 0.0 && q.pl != 0.0 && t == 1.0 / q.pl
    ensures Osculate(g, m, k, q).xinck - m.xinc ==
            1.5 * CK2 * (t * t) * (k.cosio * k.sinio * Cos2u(q))
  {
    hide Trig.AcTan;
  }

  lemma RadialUpdated(g: Trig, m: Mean, k: Inclined, q: InPlane)
    requires q.r != 0.0 && q.pl != 0.0
    ensures q.pl * (Osculate(g, m, k, q).rdotk - Rdot(g, m.a, q)) == -CK2 * (m.xn * k.x1mth2 * Sin2u(q))
  {
    hide Osculate, Sqr, Rdot, Rfdot, Sin2u, Cos2u, Trig.AcTan;
    var t := 1.0 / q.pl;
    Inverse(q.pl, t);
    RadialTerm(g, m, k, q, t);
    Ripple(q.pl, t, m.xn * k.x1mth2 * Sin2u(q), -CK2, Osculate(g, m, k, q).rdotk - Rdot(g, m.a, q));
  }

  lemma RadialTerm(g: Trig, m: Mean, k: Inclined, q: InPlane, t: real)
    requires q.r != 0.0 && q.pl != 0.0 && t == 1.0 / q.pl
    ensures Osculate(g, m, k, q).rdotk - Rdot(g, m.a, q) ==
            -CK2 * t * (m.xn * k.x1mth2 * Sin2u(q))
  {
    hide Trig.AcTan;
  }

  lemma TransverseUpdated(g: Trig, m: Mean, k: Inclined, q: InPlane)
    requires q.r != 0.0 && q.pl != 0.0
    ensures q.pl * (Osculate(g, m, k, q).rfdotk - Rfdot(g, q)) ==
            CK2 * (m.xn * (k.x1mth2 * Cos2u(q) + 1.5 * k.x3thm1))
  {
    hide Osculate, Sqr, Rdot, Rfdot, Sin2u, Cos2u, Trig.AcTan;
    var t := 1.0 / q.pl;
    Inverse(q.pl, t);
    TransverseTerm(g, m, k, q, t);
    Ripple(q.pl, t, m.xn * (k.x1mth2 * Cos2u(q) + 1.5 * k.x3thm1), CK2, Osculate(g, m, k, q).rfdotk - Rfdot(g, q));
  }

  lemma TransverseTerm(g: Trig, m: Mean, k: Inclined, q: InPlane, t: real)
    requires q.r != 0.0 && q.pl != 0.0 && t == 1.0 / q.pl
    ensures Osculate(g, m, k, q).rfdotk - Rfdot(g, q) ==
            CK2 * t * (m.xn * (k.x1mth2 * Cos2u(q) + 1.5 * k.x3thm1))
  {
    hide Trig.AcTan;
  }

  lemma ArgumentUpdated(g: Trig, m: Mean, k: Inclined, q: InPlane)
    requires q.r != 0.0 && q.pl != 0.0
    ensures Sqr(q.pl) * (Osculate(g, m, k, q).uk - g.AcTan(q.sinu, q.cosu)) == -0.25 * CK2 * (k.x7thm1 * Sin2u(q))
  {
    hide Osculate, Sqr, Rdot, Rfdot, Sin2u, Cos2u, Trig.AcTan;
    var t := 1.0 / q.pl;
    Inverse(q.pl, t);
    ArgumentTerm(g, m, k, q, t);
    Wave(q.pl, t, k.x7thm1 * Sin2u(q), -0.25 * CK2, Osculate(g, m, k, q).uk - g.AcTan(q.sinu, q.cosu));
  }

  lemma ArgumentTerm(g: Trig, m: Mean, k: Inclined, q: InPlane, t: real)
    requires q.r != 0.0 && q.pl != 0.0 && t == 1.0 / q.pl
    ensures Osculate(g, m, k, q).uk - g.AcTan(q.sinu, q.cosu) ==
            -0.25 * CK2 * (t * t) * (k.x7thm1 * Sin2u(q))
  {
    hide Trig.AcTan;
  }

  lemma Once(pl: real, t: real, x: real, d: real)
    requires pl * t == 1.0 && d == t * x
    ensures pl * d == x
  {
    assert pl * (t * x) == (pl * t) * x;
  }

  lemma SquareTimes(pl: real, d: real, e: real)
    requires e == pl * d
    ensures Sqr(pl) * d == pl * e
  {}

  lemma Wave(pl: real, t: real, x: real, k: real, d: real)
    requires pl * t == 1.0 && d == k * (t * t) * x
    ensures Sqr(pl) * d == k * x
  {
    hide Sqr;
    Powers(k, t, x);
    Once(pl, t, t * (k * x), d);
    Once(pl, t, k * x, t * (k * x));
    SquareTimes(pl, d, t * (k * x));
  }

  lemma Powers(k: real, t: real, x: real)
    ensures k * (t * t) * x == t * (t * (k * x)) && k * t * x == t * (k * x)
  {}

  lemma Ripple(pl: real, t: real, x: real, k: real, d: real)
    requires pl * t == 1.0 && d == k * t * x
    ensures pl * d == k * x
  {
    Powers(k, t, x);
    Once(pl, t, k * x, d);
  }

  lemma RadiusWave(pl: real, t: real, y: real, x: real, d: real)
    requires pl * t == 1.0 && d == 0.5 * CK2 * t * y - 1.5 * CK2 * (t * t) * x
    ensures Sqr(pl) * d == 0.5 * CK2 * (pl * y) - 1.5 * CK2 * x
  {
    hide Sqr;
    var e, f := 0.5 * CK2 * t * y, 1.5 * CK2 * (t * t) * x;
    Ripple(pl, t, y, 0.5 * CK2, e);
    SquareTimes(pl, e, 0.5 * CK2 * y);
    Wave(pl, t, x, 1.5 * CK2, f);
    assert Sqr(pl) * (e - f) == Sqr(pl) * e - Sqr(pl) * f;
    assert pl * (0.5 * CK2 * y) == 0.5 * CK2 * (pl * y);
  }

  /** And of the argument: before its update it is an angle of the place. */
  lemma ArgumentFrom(g: Trig, a: real, axn: real, ayn: real, w: real, m: Mean, k: Inclined)
    requires g.Pythagoras() && g.SquareRoot() && a > 0.0 && Elsq(axn, ayn) < 1.0
    requires g.TangentInverse() && g.HalfTurn() && g.WholeTurn() && g.QuarterTurn()
    requires var q := PlaceAt(g, a, axn, ayn, w); q.cosu != 0.0 || q.sinu > 0.0
    ensures var q := PlaceAt(g, a, axn, ayn, w);
            var uk, sin2u := Osculate(g, m, k, q).uk, Sin2u(q);
            exists u :: g.cos(u) == q.cosu && g.sin(u) == q.sinu
                        && Sqr(q.pl) * (uk - u) == -0.25 * CK2 * (k.x7thm1 * sin2u)
  {
    hide PlaceAt, Elsq, Trig.AcTan, Sqr, Osculate;
    hide Trig.TangentInverse, Trig.HalfTurn, Trig.WholeTurn, Trig.QuarterTurn, Trig.SquareRoot;
    var q := PlaceAt(g, a, axn, ayn, w);
    AcTanNames(g, q.sinu, q.cosu);
    ArgumentUpdated(g, m, k, q);
  }
}
