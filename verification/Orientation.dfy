/** Vectors, and the orientation vectors SGP4 and SDP4 build position and velocity on. */
module Orientation {
  import opened Trigonometry

  datatype Vector = Vector(x: real, y: real, z: real)

  function Dot(a: Vector, b: Vector): real {
    a.x * b.x + a.y * b.y + a.z * b.z
  }

  /** The determinant of the rows (a, b) and (c, d). */
  function Minor(a: real, b: real, c: real, d: real): real {
    a * d - b * c
  }

  function Cross(a: Vector, b: Vector): Vector {
    Vector(Minor(a.y, a.z, b.y, b.z), Minor(a.z, a.x, b.z, b.x), Minor(a.x, a.y, b.x, b.y))
  }

  function Scale(p: real, a: Vector): Vector {
    Vector(p * a.x, p * a.y, p * a.z)
  }

  /** The moment of a transverse speed at a radius, about a normal. */
  function Moment(rk: real, rfdotk: real, n: Vector): Vector {
    Scale(rk * rfdotk, n)
  }

  function Linear(p: real, a: real, q: real, b: real): real {
    p * a + q * b
  }

  function Combine(p: real, a: Vector, q: real, b: Vector): Vector {
    Vector(Linear(p, a.x, q, b.x), Linear(p, a.y, q, b.y), Linear(p, a.z, q, b.z))
  }

  /** The directions u and v from the sines and cosines of argument, node and inclination. */
  function UFrom(sinuk: real, cosuk: real, sinnok: real, cosnok: real, sinik: real, cosik: real): Vector {
    var xmx, xmy := -sinnok * cosik, cosnok * cosik;
    Vector(xmx * sinuk + cosnok * cosuk, xmy * sinuk + sinnok * cosuk, sinik * sinuk)
  }

  function VFrom(sinuk: real, cosuk: real, sinnok: real, cosnok: real, sinik: real, cosik: real): Vector {
    var xmx, xmy := -sinnok * cosik, cosnok * cosik;
    Vector(xmx * cosuk - cosnok * sinuk, xmy * cosuk - sinnok * sinuk, sinik * cosuk)
  }

  function U(g: Trig, uk: real, xnodek: real, xinck: real): Vector {
    UFrom(g.sin(uk), g.cos(uk), g.sin(xnodek), g.cos(xnodek), g.sin(xinck), g.cos(xinck))
  }

  function V(g: Trig, uk: real, xnodek: real, xinck: real): Vector {
    VFrom(g.sin(uk), g.cos(uk), g.sin(xnodek), g.cos(xnodek), g.sin(xinck), g.cos(xinck))
  }

  // ---------- orthonormality ----------

  /** A plane vector (p, q) turned by the node keeps its products. */
  lemma Turned(s: real, c: real, p: real, q: real, p': real, q': real)
    requires s * s + c * c == 1.0
    ensures (-s * p + c * q) * (-s * p' + c * q') + (c * p + s * q) * (c * p' + s * q') == p * p' + q * q'
  {
    assert (-s * p + c * q) * (-s * p' + c * q') + (c * p + s * q) * (c * p' + s * q')
           == (s * s + c * c) * (p * p' + q * q');
  }

  lemma Regrouped(s: real, c: real, k: real, su: real, cu: real)
    ensures -s * k * su + c * cu == -s * (k * su) + c * cu
    ensures c * k * su + s * cu == c * (k * su) + s * cu
    ensures -s * k * cu - c * su == -s * (k * cu) + c * -su
    ensures c * k * cu - s * su == c * (k * cu) + s * -su
  {}

  lemma UnitU(su: real, cu: real, s: real, c: real, i: real, k: real)
    requires su * su + cu * cu == 1.0 && s * s + c * c == 1.0 && i * i + k * k == 1.0
    ensures var u := UFrom(su, cu, s, c, i, k); Dot(u, u) == 1.0
  {
    Regrouped(s, c, k, su, cu);
    Turned(s, c, k * su, cu, k * su, cu);
    assert (k * su) * (k * su) + (i * su) * (i * su) == (i * i + k * k) * (su * su);
  }

  lemma UnitV(su: real, cu: real, s: real, c: real, i: real, k: real)
    requires su * su + cu * cu == 1.0 && s * s + c * c == 1.0 && i * i + k * k == 1.0
    ensures var v := VFrom(su, cu, s, c, i, k); Dot(v, v) == 1.0
  {
    Regrouped(s, c, k, su, cu);
    Turned(s, c, k * cu, -su, k * cu, -su);
    assert (k * cu) * (k * cu) + (i * cu) * (i * cu) == (i * i + k * k) * (cu * cu);
    assert -su * -su == su * su;
  }

  lemma Perpendicular(su: real, cu: real, s: real, c: real, i: real, k: real)
    requires su * su + cu * cu == 1.0 && s * s + c * c == 1.0 && i * i + k * k == 1.0
    ensures Dot(UFrom(su, cu, s, c, i, k), VFrom(su, cu, s, c, i, k)) == 0.0
  {
    PerpendicularExpanded(su, cu, s, c, i, k);
    var t := su * cu;
    assert (s * s + c * c) * (k * k * t - t) == k * k * t - t;
    assert i * i * t == (1.0 - k * k) * t;
  }

  lemma PerpendicularExpanded(su: real, cu: real, s: real, c: real, i: real, k: real)
    ensures Dot(UFrom(su, cu, s, c, i, k), VFrom(su, cu, s, c, i, k)) ==
            (s * s + c * c) * (k * k * (su * cu) - su * cu) + i * i * (su * cu)
  {}

  /** The normal of the orbit plane: it does not depend on the place in the orbit. */
  function NormalFrom(s: real, c: real, i: real, k: real): Vector {
    Vector(s * i, -c * i, k)
  }

  lemma NormalX(su: real, cu: real, s: real, c: real, i: real, k: real)
    requires su * su + cu * cu == 1.0
    ensures Minor(c * k * su + s * cu, i * su, c * k * cu - s * su, i * cu) == s * i
  {
    assert (c * k * su + s * cu) * (i * cu) - i * su * (c * k * cu - s * su) == s * i * (su * su + cu * cu);
  }

  lemma NormalY(su: real, cu: real, s: real, c: real, i: real, k: real)
    requires su * su + cu * cu == 1.0
    ensures Minor(i * su, -s * k * su + c * cu, i * cu, -s * k * cu - c * su) == -c * i
  {
    assert i * su * (-s * k * cu - c * su) - (-s * k * su + c * cu) * (i * cu) == -c * i * (su * su + cu * cu);
  }

  lemma NormalZ(su: real, cu: real, s: real, c: real, k: real)
    requires su * su + cu * cu == 1.0 && s * s + c * c == 1.0
    ensures Minor(-s * k * su + c * cu, c * k * su + s * cu, -s * k * cu - c * su, c * k * cu - s * su) == k
  {
    assert (-s * k * su + c * cu) * (c * k * cu - s * su) - (c * k * su + s * cu) * (-s * k * cu - c * su)
           == k * ((s * s + c * c) * (su * su + cu * cu));
  }

  lemma CrossNormal(su: real, cu: real, s: real, c: real, i: real, k: real)
    requires su * su + cu * cu == 1.0 && s * s + c * c == 1.0
    ensures Cross(UFrom(su, cu, s, c, i, k), VFrom(su, cu, s, c, i, k)) == NormalFrom(s, c, i, k)
  {
    hide Minor;
    NormalX(su, cu, s, c, i, k);
    NormalY(su, cu, s, c, i, k);
    NormalZ(su, cu, s, c, k);
  }

  /** The direction a quarter turn ahead of the node, in the orbit plane. */
  function AheadFrom(s: real, c: real, i: real, k: real): Vector {
    Vector(-s * k, c * k, i)
  }

  /** u lies the argument on from the node, and v a quarter turn on from u. */
  lemma FromNode(su: real, cu: real, s: real, c: real, i: real, k: real)
    requires s * s + c * c == 1.0 && i * i + k * k == 1.0
    ensures var node, ahead := Vector(c, s, 0.0), AheadFrom(s, c, i, k);
            var u, v := UFrom(su, cu, s, c, i, k), VFrom(su, cu, s, c, i, k);
            && Dot(u, node) == cu && Dot(u, ahead) == su
            && Dot(v, node) == -su && Dot(v, ahead) == cu
  {
    OnNode(su, cu, s, c, i, k);
    OnNode(cu, -su, s, c, i, k);
    AsV(su, cu, s, c, i, k);
  }

  lemma AsV(su: real, cu: real, s: real, c: real, i: real, k: real)
    ensures VFrom(su, cu, s, c, i, k) == UFrom(cu, -su, s, c, i, k)
  {}

  lemma OnNode(su: real, cu: real, s: real, c: real, i: real, k: real)
    requires s * s + c * c == 1.0 && i * i + k * k == 1.0
    ensures var u := UFrom(su, cu, s, c, i, k);
            Dot(u, Vector(c, s, 0.0)) == cu && Dot(u, AheadFrom(s, c, i, k)) == su
  {
    Expanded(su, cu, s, c, i, k);
    assert (s * s + c * c) * (k * k * su) + i * i * su == (k * k + i * i) * su;
  }

  lemma Expanded(su: real, cu: real, s: real, c: real, i: real, k: real)
    ensures var u := UFrom(su, cu, s, c, i, k);
            && Dot(u, Vector(c, s, 0.0)) == (s * s + c * c) * cu
            && Dot(u, AheadFrom(s, c, i, k)) == (s * s + c * c) * (k * k * su) + i * i * su
  {}

  // ---------- position and velocity on an orthonormal pair ----------

  ghost predicate Orthonormal(u: Vector, v: Vector) {
    Dot(u, u) == 1.0 && Dot(v, v) == 1.0 && Dot(u, v) == 0.0
  }

  lemma DotCombine(p: real, q: real, p': real, q': real, u: Vector, v: Vector)
    ensures Dot(Combine(p, u, q, v), Combine(p', u, q', v)) ==
            p * p' * Dot(u, u) + (p * q' + q * p') * Dot(u, v) + q * q' * Dot(v, v)
  {}

  lemma CrossCombine(p: real, q: real, p': real, q': real, u: Vector, v: Vector)
    ensures Cross(Combine(p, u, q, v), Combine(p', u, q', v)) ==
            Scale(Minor(p, q, p', q'), Cross(u, v))
  {
    hide Minor, Linear;
    CrossTerm(p, q, p', q', u.y, u.z, v.y, v.z);
    CrossTerm(p, q, p', q', u.z, u.x, v.z, v.x);
    CrossTerm(p, q, p', q', u.x, u.y, v.x, v.y);
  }

  lemma CrossTerm(p: real, q: real, p': real, q': real, a: real, b: real, c: real, d: real)
    ensures Minor(Linear(p, a, q, c), Linear(p, b, q, d), Linear(p', a, q', c), Linear(p', b, q', d))
            == Minor(p, q, p', q') * Minor(a, b, c, d)
  {}

  /** Lengths and angles of a state come from its in-plane coordinates alone. */
  lemma StateOnPair(rk: real, rdotk: real, rfdotk: real, u: Vector, v: Vector)
    requires Orthonormal(u, v)
    ensures var pos, vel := Combine(rk, u, 0.0, v), Combine(rdotk, u, rfdotk, v);
            && Dot(pos, pos) == rk * rk
            && Dot(pos, vel) == rk * rdotk
            && Dot(vel, vel) == rdotk * rdotk + rfdotk * rfdotk
            && Cross(pos, vel) == Moment(rk, rfdotk, Cross(u, v))
  {
    hide Dot, Cross, Combine, Scale, Moment;
    DotCombine(rk, 0.0, rk, 0.0, u, v);
    DotCombine(rk, 0.0, rdotk, rfdotk, u, v);
    DotCombine(rdotk, rfdotk, rdotk, rfdotk, u, v);
    CrossCombine(rk, 0.0, rdotk, rfdotk, u, v);
    MomentIs(Minor(rk, 0.0, rdotk, rfdotk), rk, rfdotk, Cross(u, v));
  }

  lemma MomentIs(m: real, rk: real, rfdotk: real, n: Vector)
    requires m == rk * rfdotk
    ensures Scale(m, n) == Moment(rk, rfdotk, n)
  {}

  lemma OrientationVectors(g: Trig, uk: real, xnodek: real, xinck: real)
    requires g.Pythagoras()
    ensures Orthonormal(U(g, uk, xnodek, xinck), V(g, uk, xnodek, xinck))
    ensures Cross(U(g, uk, xnodek, xinck), V(g, uk, xnodek, xinck)) ==
            NormalFrom(g.sin(xnodek), g.cos(xnodek), g.sin(xinck), g.cos(xinck))
  {
    hide Dot, Cross, UFrom, VFrom, NormalFrom;
    var su, cu, s, c, i, k := g.sin(uk), g.cos(uk), g.sin(xnodek), g.cos(xnodek), g.sin(xinck), g.cos(xinck);
    UnitU(su, cu, s, c, i, k);
    UnitV(su, cu, s, c, i, k);
    Perpendicular(su, cu, s, c, i, k);
    CrossNormal(su, cu, s, c, i, k);
  }

  /** Turning a negative inclination over the pole, as dpsec does, moves nothing: the
      inclination changes sign, the node and the argument half a turn each. */
  lemma OverThePole(g: Trig, uk: real, xnodek: real, xinck: real)
    requires g.HalfTurn() && g.Parity()
    ensures U(g, uk - PI, xnodek + PI, -xinck) == U(g, uk, xnodek, xinck)
    ensures V(g, uk - PI, xnodek + PI, -xinck) == V(g, uk, xnodek, xinck)
  {
    SignsCancel(g.sin(uk), g.cos(uk), g.sin(xnodek), g.cos(xnodek), g.sin(xinck), g.cos(xinck));
  }

  lemma SignsCancel(su: real, cu: real, s: real, c: real, i: real, k: real)
    ensures UFrom(-su, -cu, -s, -c, -i, k) == UFrom(su, cu, s, c, i, k)
    ensures VFrom(-su, -cu, -s, -c, -i, k) == VFrom(su, cu, s, c, i, k)
  {}
}
