/** From the mean elements of an instant to position and velocity: the common end of SGP4
    and SDP4, run on a satellite record. */
module Propagation {
  import opened Trigonometry
  import opened Kepler
  import opened Orientation

  /** Elements after the secular and long-period updates, in the source's names. */
  datatype Mean = Mean(a: real, axn: real, ayn: real, capu: real, xn: real, xnode: real, xinc: real)

  /** Inclination constants fixed at initialisation. */
  datatype Inclined = Inclined(x3thm1: real, x1mth2: real, x7thm1: real, cosio: real, sinio: real)

  /** Elements after the short-period updates. */
  datatype Osculating = Osculating(rk: real, uk: real, xnodek: real, xinck: real, rdotk: real, rfdotk: real)

  /** The short-period updates, from the place in the orbit plane. */
  function Osculate(g: Trig, m: Mean, k: Inclined, q: InPlane): Osculating
    requires q.r != 0.0 && q.pl != 0.0
  {
    var rdot, rfdot := XKE * g.sqrt(m.a) * q.esine * (1.0 / q.r), XKE * g.sqrt(q.pl) * (1.0 / q.r);
    var u := g.AcTan(q.sinu, q.cosu);
    var sin2u, cos2u := 2.0 * q.sinu * q.cosu, 2.0 * q.cosu * q.cosu - 1.0;
    var temp := 1.0 / q.pl;
    var temp1 := CK2 * temp;
    var temp2 := temp1 * temp;
    Osculating(
      q.r * (1.0 - 1.5 * temp2 * q.betal * k.x3thm1) + 0.5 * temp1 * k.x1mth2 * cos2u,
      u - 0.25 * temp2 * k.x7thm1 * sin2u,
      m.xnode + 1.5 * temp2 * k.cosio * sin2u,
      m.xinc + 1.5 * temp2 * k.cosio * k.sinio * cos2u,
      rdot - m.xn * temp1 * k.x1mth2 * sin2u,
      rfdot + m.xn * temp1 * (k.x1mth2 * cos2u + 1.5 * k.x3thm1))
  }

  /** The argument of latitude AcTan returns is the angle of that place, except exactly
      straight down, where AcTan's constant is not three quarters of its own turn. */
  lemma AngleOfPlaceIff(g: Trig, a: real, axn: real, ayn: real, w: real)
    requires g.Pythagoras() && g.SquareRoot() && a > 0.0 && Elsq(axn, ayn) < 1.0
    requires g.TangentInverse() && g.HalfTurn() && g.WholeTurn() && g.QuarterTurn() && g.OneAngle()
    ensures var q := PlaceAt(g, a, axn, ayn, w);
            var u := g.AcTan(q.sinu, q.cosu);
            g.cos(u) == q.cosu && g.sin(u) == q.sinu <==> q.cosu != 0.0 || q.sinu > 0.0
  {
    hide PlaceAt, Elsq, Trig.AcTan;
    hide Trig.TangentInverse, Trig.HalfTurn, Trig.WholeTurn, Trig.QuarterTurn, Trig.OneAngle;
    var q := PlaceAt(g, a, axn, ayn, w);
    AcTanNamesIff(g, q.sinu, q.cosu);
  }

  class Satellite {
    var pos: Vector
    var vel: Vector

    constructor ()
    {}

    /** Kepler's equation from the mean angle on, short-period updates, position and velocity. The state lies in
        the plane of the osculating node and inclination, with the radial and transverse
        speeds the updates gave; the length of pos is |rk|. */
    method Finish(g: Trig, m: Mean, k: Inclined)
      returns (w: real, o: Osculating, tolerance: bool, ghost ws: seq<real>)
      requires g.Pythagoras() && g.SquareRoot()
      requires m.a > 0.0 && Elsq(m.axn, m.ayn) < 1.0
      modifies this
      ensures Solved(g, m.capu, m.axn, m.ayn, ws, w, tolerance) && (!tolerance ==> |ws| == 11)
      ensures tolerance ==>
                Abs(Residual(g, m.capu, m.axn, m.ayn, w)) <= E6A * (1.0 + g.sqrt(Elsq(m.axn, m.ayn)))
      ensures o == Osculate(g, m, k, PlaceAt(g, m.a, m.axn, m.ayn, w))
      ensures pos == Combine(o.rk, U(g, o.uk, o.xnodek, o.xinck), 0.0, V(g, o.uk, o.xnodek, o.xinck))
      ensures vel == Combine(o.rdotk, U(g, o.uk, o.xnodek, o.xinck), o.rfdotk, V(g, o.uk, o.xnodek, o.xinck))
      ensures Dot(pos, pos) == o.rk * o.rk
      ensures Dot(pos, vel) == o.rk * o.rdotk
      ensures Dot(vel, vel) == o.rdotk * o.rdotk + o.rfdotk * o.rfdotk
      ensures Cross(pos, vel) == Moment(o.rk, o.rfdotk,
                                        NormalFrom(g.sin(o.xnodek), g.cos(o.xnodek), g.sin(o.xinck), g.cos(o.xinck)))
    {
      hide Osculate, U, V, Combine, Dot, Cross, Moment, NormalFrom, Ecose, Elsq, ShortPeriod;
      hide Solved, Residual;
      var sinepw, cosepw, passes, lost;
      sinepw, cosepw, w, tolerance, passes, lost, ws := SolveKepler(g, m.capu, m.axn, m.ayn);
      OnUnitCircle(g, m.a, m.axn, m.ayn, w);
      o := Osculate(g, m, k, ShortPeriod(g, m.a, m.axn, m.ayn, sinepw, cosepw));
      var u, v := U(g, o.uk, o.xnodek, o.xinck), V(g, o.uk, o.xnodek, o.xinck);
      pos := Combine(o.rk, u, 0.0, v);
      vel := Combine(o.rdotk, u, o.rfdotk, v);
      OrientationVectors(g, o.uk, o.xnodek, o.xinck);
      StateOnPair(o.rk, o.rdotk, o.rfdotk, u, v);
    }
  }
}
