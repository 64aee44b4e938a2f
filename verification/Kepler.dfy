/**
 The second half of SGP4 and SDP4: Kepler's equation, the short-period quantities, and
 the orientation vectors that give position and velocity.
 */
module Kepler {
  import opened Reals
  import opened Trigonometry

  const XKE := 7.43669161e-2
  const CK2 := 5.413079e-4
  const E6A := 1.0e-6

  // ---------- the Kepler loop ----------

  /** How far an angle is from solving Kepler's equation. */
  function Residual(g: Trig, capu: real, axn: real, ayn: real, w: real): real {
    capu - ayn * g.cos(w) + axn * g.sin(w) - w
  }

  function Ecose(axn: real, ayn: real, s: real, c: real): real {
    axn * c + ayn * s
  }

  function Elsq(axn: real, ayn: real): real {
    axn * axn + ayn * ayn
  }

  function Esine(axn: real, ayn: real, s: real, c: real): real {
    axn * s - ayn * c
  }

  /** These projections of the eccentricity vector keep its length. */
  lemma Projections(axn: real, ayn: real, s: real, c: real)
    requires Sqr(s) + Sqr(c) == 1.0
    ensures Sqr(Ecose(axn, ayn, s, c)) + Sqr(Esine(axn, ayn, s, c)) == Elsq(axn, ayn)
  {
    assert Sqr(Ecose(axn, ayn, s, c)) + Sqr(Esine(axn, ayn, s, c)) == Elsq(axn, ayn) * (s * s + c * c);
  }

  lemma SquareOrder(x: real, q: real)
    requires q >= 0.0 && x * x <= q * q
    ensures -q <= x <= q
  {
    var low, high := x - q, x + q;
    assert low * high == x * x - q * q;
    Signs(low, high);
    Signs(-low, -high);
    assert -low * -high == low * high;
  }

  /** The divisor of Newton's step stays within 1 -+ the eccentricity, so off zero in an
      ellipse. */
  lemma Divisor(g: Trig, axn: real, ayn: real, w: real)
    requires g.Pythagoras() && g.SquareRoot()
    ensures var e := g.sqrt(Elsq(axn, ayn));
            && 0.0 <= e && 1.0 - e <= 1.0 - Ecose(axn, ayn, g.sin(w), g.cos(w)) <= 1.0 + e
            && (Elsq(axn, ayn) < 1.0 ==> e < 1.0)
  {
    hide Elsq, Ecose, Esine;
    var elsq := Elsq(axn, ayn);
    var ecose, esine := Ecose(axn, ayn, g.sin(w), g.cos(w)), Esine(axn, ayn, g.sin(w), g.cos(w));
    Projections(axn, ayn, g.sin(w), g.cos(w));
    SquareNotNegative(ecose);
    SquareNotNegative(esine);
    SquareOrder(ecose, g.sqrt(elsq));
    if elsq < 1.0 {
      InsideUnit(g.sqrt(elsq));
    }
  }

  lemma SquareNotNegative(x: real)
    ensures x * x >= 0.0
  {
    SqrNotNegative(x);
  }

  /** A Newton step within the tolerance bounds what it set out to cancel. */
  lemma StepBound(step: real, residual: real, divisor: real, tol: real, limit: real)
    requires divisor != 0.0 && Abs(divisor) <= limit && tol > 0.0 && Abs(step) <= tol && step == residual / divisor
    ensures Abs(residual) <= tol * limit
  {
    assert residual == step * divisor;
    AbsProduct(step, divisor);
    if divisor != 0.0 {
      Scaled(Abs(step), tol, Abs(divisor));
    }
    Scaled(Abs(divisor), limit, tol);
    Commute(Abs(divisor), tol);
    Commute(limit, tol);
  }

  lemma AbsProduct(x: real, y: real)
    ensures Abs(x * y) == Abs(x) * Abs(y)
  {
    Signs(x, y);
    Signs(-x, -y);
    assert -x * -y == x * y && -x * y == -(x * y) && x * -y == -(x * y);
  }

  lemma Commute(x: real, y: real)
    ensures x * y == y * x
  {}

  /** What Newton's step is divided by. */
  function DivisorAt(g: Trig, axn: real, ayn: real, w: real): real {
    1.0 - Ecose(axn, ayn, g.sin(w), g.cos(w))
  }

  /** From one angle to the next: the step times the divisor is the residual. */
  ghost predicate Stepped(g: Trig, capu: real, axn: real, ayn: real, w: real, w': real) {
    DivisorAt(g, axn, ayn, w) != 0.0 && (w' - w) * DivisorAt(g, axn, ayn, w) == Residual(g, capu, axn, ayn, w)
  }

  /** The angles the loop went through: from the mean one, each by a Newton step from the one
      before, and every step but the last too long for the tolerance. */
  ghost predicate Iterates(g: Trig, capu: real, axn: real, ayn: real, ws: seq<real>) {
    && |ws| > 0 && ws[0] == capu
    && forall k :: 0 < k < |ws| ==>
         Stepped(g, capu, axn, ayn, ws[k - 1], ws[k]) && Abs(ws[k] - ws[k - 1]) > E6A
  }

  /** The angle handed on is the last of them, and whether its own step is within the
      tolerance. */
  ghost predicate Solved(g: Trig, capu: real, axn: real, ayn: real, ws: seq<real>, w: real, tolerance: bool) {
    && Iterates(g, capu, axn, ayn, ws) && |ws| <= 11 && w == ws[|ws| - 1]
    && (tolerance <==> exists w' :: Stepped(g, capu, axn, ayn, w, w') && Abs(w' - w) <= E6A)
  }

  /** The do-while of Kepler's equation. Once a divisor is zero the iterate is no number,
      which the tolerance never accepts: the passes run out and the angle is lost. */
  method SolveKepler(g: Trig, capu: real, axn: real, ayn: real)
    returns (sinepw: real, cosepw: real, w: real, tolerance: bool, passes: nat, lost: bool, ghost ws: seq<real>)
    requires g.Pythagoras() && g.SquareRoot()
    ensures !lost ==> sinepw == g.sin(w) && cosepw == g.cos(w)
    ensures 1 <= passes <= 11 && (!tolerance ==> passes == 11) && (!lost ==> |ws| == passes)
    ensures Solved(g, capu, axn, ayn, ws, w, tolerance)
    ensures lost <==> DivisorAt(g, axn, ayn, w) == 0.0
    ensures lost ==> !tolerance && Elsq(axn, ayn) >= 1.0
    ensures tolerance ==>
              Abs(Residual(g, capu, axn, ayn, w)) <= E6A * (1.0 + g.sqrt(Elsq(axn, ayn)))
  {
    var temp2 := capu;
    var i := 0;
    passes, lost := 0, false;
    tolerance, w, sinepw, cosepw := false, 0.0, 0.0, 0.0;
    ws := [capu];
    var again := true;
    while again
      invariant 0 <= i <= 11 && passes == i
      invariant Iterates(g, capu, axn, ayn, ws)
      invariant again && !lost ==> |ws| == i + 1 && ws[i] == temp2
      invariant lost ==> |ws| <= i
      invariant i > 0 && (lost || !again) ==> w == ws[|ws| - 1] && (lost <==> DivisorAt(g, axn, ayn, w) == 0.0)
      invariant lost ==> i > 0
      invariant !again && !lost ==> sinepw == g.sin(w) && cosepw == g.cos(w) && |ws| == i
      invariant !again && !lost ==>
                  (tolerance <==> exists w' :: Stepped(g, capu, axn, ayn, w, w') && Abs(w' - w) <= E6A)
      invariant !again ==> passes >= 1
      invariant again ==> i <= 10 && !tolerance
      invariant !again && !tolerance ==> passes == 11
      invariant lost ==> !tolerance && Elsq(axn, ayn) >= 1.0
      invariant tolerance ==>
                  Abs(Residual(g, capu, axn, ayn, w)) <= E6A * (1.0 + g.sqrt(Elsq(axn, ayn)))
      decreases again, 11 - i
    {
      hide Residual, Elsq, Stepped, DivisorAt;
      passes := passes + 1;
      if lost {
        again := i < 10;
      } else {
        w := temp2;
        var epw;
        epw, sinepw, cosepw, lost := Pass(g, capu, axn, ayn, temp2);
        if !lost {
          StepUnique(g, capu, axn, ayn, w, epw);
        }
        if !lost && Abs(epw - temp2) <= E6A {
          tolerance, again := true, false;
        } else {
          temp2 := epw;
          again := i < 10;
          if again && !lost {
            ws := ws + [epw];
          }
        }
      }
      i := i + 1;
    }
    if lost {
      NoStep(g, capu, axn, ayn, w);
    }
  }

  lemma StepUnique(g: Trig, capu: real, axn: real, ayn: real, w: real, w': real)
    requires Stepped(g, capu, axn, ayn, w, w')
    ensures DivisorAt(g, axn, ayn, w) != 0.0
    ensures forall v :: Stepped(g, capu, axn, ayn, w, v) ==> v == w'
  {
    hide Residual, DivisorAt;
    forall v | Stepped(g, capu, axn, ayn, w, v)
      ensures v == w'
    {
      Unscaled(Residual(g, capu, axn, ayn, w), v - w, DivisorAt(g, axn, ayn, w));
      Unscaled(Residual(g, capu, axn, ayn, w), w' - w, DivisorAt(g, axn, ayn, w));
    }
  }

  lemma NoStep(g: Trig, capu: real, axn: real, ayn: real, w: real)
    requires DivisorAt(g, axn, ayn, w) == 0.0
    ensures !exists w' :: Stepped(g, capu, axn, ayn, w, w')
  {}

  /** One pass of the loop, and what it shows when its step is small. */
  method Pass(g: Trig, capu: real, axn: real, ayn: real, temp2: real)
    returns (epw: real, sinepw: real, cosepw: real, lost: bool)
    requires g.Pythagoras() && g.SquareRoot()
    ensures sinepw == g.sin(temp2) && cosepw == g.cos(temp2)
    ensures lost <==> DivisorAt(g, axn, ayn, temp2) == 0.0
    ensures lost ==> Elsq(axn, ayn) >= 1.0
    ensures !lost ==> Stepped(g, capu, axn, ayn, temp2, epw)
    ensures !lost && Abs(epw - temp2) <= E6A ==>
              Abs(Residual(g, capu, axn, ayn, temp2)) <= E6A * (1.0 + g.sqrt(Elsq(axn, ayn)))
  {
    hide Elsq;
    sinepw := g.sin(temp2);
    cosepw := g.cos(temp2);
    var temp3 := axn * sinepw;
    var temp4 := ayn * cosepw;
    var temp5 := axn * cosepw;
    var temp6 := ayn * sinepw;
    Divisor(g, axn, ayn, temp2);
    assert 1.0 - temp5 - temp6 == 1.0 - Ecose(axn, ayn, sinepw, cosepw);
    var residual, divisor := capu - temp4 + temp3 - temp2, 1.0 - temp5 - temp6;
    assert residual == Residual(g, capu, axn, ayn, temp2);
    lost, epw := divisor == 0.0, temp2;
    if !lost {
      var step := residual / divisor;
      epw := step + temp2;
      Restored(residual, divisor);
      assert epw - temp2 == step;
      if Abs(epw - temp2) <= E6A {
        StepBound(step, residual, divisor, E6A, 1.0 + g.sqrt(Elsq(axn, ayn)));
      }
    }
  }

  // ---------- short-period preliminary quantities ----------

  /** Position in the orbit plane, in the source's names. */
  datatype InPlane = InPlane(r: real, cosu: real, sinu: real, betal: real, pl: real, esine: real)

  function PlaneX(axn: real, ayn: real, cosepw: real, esine: real, temp3: real): real {
    cosepw - axn + ayn * esine * temp3
  }

  function PlaneY(axn: real, ayn: real, sinepw: real, esine: real, temp3: real): real {
    sinepw - ayn - axn * esine * temp3
  }

  function ShortPeriod(g: Trig, a: real, axn: real, ayn: real, sinepw: real, cosepw: real): InPlane
    requires g.SquareRoot() && Elsq(axn, ayn) < 1.0
    requires a * (1.0 - Ecose(axn, ayn, sinepw, cosepw)) != 0.0
  {
    var ecose, esine := Ecose(axn, ayn, sinepw, cosepw), Esine(axn, ayn, sinepw, cosepw);
    var temp := 1.0 - Elsq(axn, ayn);
    var r := a * (1.0 - ecose);
    var temp2 := a * (1.0 / r);
    var betal := g.sqrt(temp);
    var temp3 := 1.0 / (1.0 + betal);
    InPlane(r, temp2 * PlaneX(axn, ayn, cosepw, esine, temp3), temp2 * PlaneY(axn, ayn, sinepw, esine, temp3),
            betal, a * temp, esine)
  }

  // Products are named before they are compared, so that each step stays linear.

  function Product(x: real, y: real): real {
    x * y
  }

  lemma ExpandPlane(x: real, y: real, s: real, c: real, p: real, h: real, k: real)
    requires h == c - x + y * p && k == s - y - x * p
    ensures Sqr(h) + Sqr(k) == Sqr(s) + Sqr(c) + Elsq(x, y) - 2.0 * Ecose(x, y, s, c)
                               + Product(Elsq(x, y), Sqr(p)) - 2.0 * Product(p, Esine(x, y, s, c))
  {}

  lemma SquareOfDifference(t: real)
    ensures Sqr(1.0 - t) == 1.0 - 2.0 * t + Sqr(t)
  {}

  lemma Cancels(e2: real, esine: real, beta: real, p: real)
    requires e2 == 1.0 - Sqr(beta) && esine == p * (1.0 + beta)
    ensures Product(e2, Sqr(p)) - 2.0 * Product(p, esine) + Sqr(esine) == 0.0
  {
    var q, pb := p * p, p * beta;
    assert esine == p + pb;
    assert p * esine == q + p * pb;
    assert esine * esine == q + 2.0 * (p * pb) + pb * pb;
    assert pb * pb == q * (beta * beta);
    assert e2 * q == q - (beta * beta) * q;
  }

  /** The heart of it: with p = esine / (1 + betal), the in-plane vector before scaling has
      length exactly 1 - ecose. */
  lemma PlaneLength(x: real, y: real, s: real, c: real, beta: real, p: real, h: real, k: real)
    requires Sqr(s) + Sqr(c) == 1.0 && Sqr(beta) == 1.0 - Elsq(x, y)
    requires Esine(x, y, s, c) == p * (1.0 + beta) && h == c - x + y * p && k == s - y - x * p
    ensures Sqr(h) + Sqr(k) == Sqr(1.0 - Ecose(x, y, s, c))
  {
    hide Ecose, Esine, Elsq, Sqr, Product;
    ExpandPlane(x, y, s, c, p, h, k);
    SquareOfDifference(Ecose(x, y, s, c));
    Projections(x, y, s, c);
    Cancels(Elsq(x, y), Esine(x, y, s, c), beta, p);
  }

  /** The place in the orbit plane, from any angle the Kepler loop may stop at: r is
      positive, and (cosu, sinu) lies exactly on the unit circle. */
  function PlaceAt(g: Trig, a: real, axn: real, ayn: real, w: real): (q: InPlane)
    requires g.Pythagoras() && g.SquareRoot() && a > 0.0 && Elsq(axn, ayn) < 1.0
    ensures q.r > 0.0 && q.pl > 0.0 && q.cosu * q.cosu + q.sinu * q.sinu == 1.0
  {
    OnUnitCircle(g, a, axn, ayn, w);
    ShortPeriod(g, a, axn, ayn, g.sin(w), g.cos(w))
  }

  lemma OnUnitCircle(g: Trig, a: real, axn: real, ayn: real, w: real)
    requires g.Pythagoras() && g.SquareRoot() && a > 0.0 && Elsq(axn, ayn) < 1.0
    ensures a * (1.0 - Ecose(axn, ayn, g.sin(w), g.cos(w))) > 0.0
    ensures var q := ShortPeriod(g, a, axn, ayn, g.sin(w), g.cos(w));
            q.r > 0.0 && q.pl > 0.0 && q.cosu * q.cosu + q.sinu * q.sinu == 1.0
  {
    hide Ecose, Esine, Elsq, PlaneX, PlaneY;
    var s, c := g.sin(w), g.cos(w);
    var ecose, esine := Ecose(axn, ayn, s, c), Esine(axn, ayn, s, c);
    Divisor(g, axn, ayn, w);
    Signs(a, 1.0 - ecose);
    Signs(a, 1.0 - Elsq(axn, ayn));
    var betal := g.sqrt(1.0 - Elsq(axn, ayn));
    var temp3 := 1.0 / (1.0 + betal);
    var h, k := PlaneX(axn, ayn, c, esine, temp3), PlaneY(axn, ayn, s, esine, temp3);
    PlaneVector(axn, ayn, s, c, betal, temp3);
    ScaledToUnit(a, 1.0 - ecose, h, k);
  }

  lemma PlaneNumbers(axn: real, ayn: real, s: real, c: real, esine: real, betal: real, temp3: real, p: real)
    requires betal >= 0.0 && temp3 == 1.0 / (1.0 + betal) && p == esine * temp3
    ensures esine == p * (1.0 + betal)
    ensures PlaneX(axn, ayn, c, esine, temp3) == c - axn + ayn * p
    ensures PlaneY(axn, ayn, s, esine, temp3) == s - ayn - axn * p
  {
    Inverse(1.0 + betal, temp3);
    Regroup(esine, temp3, 1.0 + betal);
    Commute(temp3, 1.0 + betal);
    Regroup(ayn, esine, temp3);
    Regroup(axn, esine, temp3);
  }

  lemma PlaneVector(axn: real, ayn: real, s: real, c: real, betal: real, temp3: real)
    requires s * s + c * c == 1.0 && betal >= 0.0 && betal * betal == 1.0 - Elsq(axn, ayn)
    requires temp3 == 1.0 / (1.0 + betal)
    ensures var ecose, esine := Ecose(axn, ayn, s, c), Esine(axn, ayn, s, c);
            var h, k := PlaneX(axn, ayn, c, esine, temp3), PlaneY(axn, ayn, s, esine, temp3);
            h * h + k * k == (1.0 - ecose) * (1.0 - ecose)
  {
    hide Ecose, Esine, Elsq, PlaneX, PlaneY;
    var esine := Esine(axn, ayn, s, c);
    var p := esine * temp3;
    PlaneNumbers(axn, ayn, s, c, esine, betal, temp3, p);
    PlaneLength(axn, ayn, s, c, betal, p,
                PlaneX(axn, ayn, c, esine, temp3), PlaneY(axn, ayn, s, esine, temp3));
  }

  lemma ScaledToUnit(a: real, d: real, h: real, k: real)
    requires a > 0.0 && d > 0.0 && a * d > 0.0 && h * h + k * k == d * d
    ensures var m := a * (1.0 / (a * d)); (m * h) * (m * h) + (m * k) * (m * k) == 1.0
  {
    var m := a * (1.0 / (a * d));
    Inverse(a * d, 1.0 / (a * d));
    Cycle(a, 1.0 / (a * d), d);
    Unit(h, k, d, m);
  }

  lemma Inverse(x: real, y: real)
    requires x != 0.0 && y == 1.0 / x
    ensures x * y == 1.0
  {}

  lemma Cycle(x: real, y: real, z: real)
    ensures x * y * z == x * z * y
  {}

  lemma Regroup(x: real, y: real, z: real)
    ensures x * y * z == x * (y * z)
  {}

  lemma Unit(h: real, k: real, d: real, m: real)
    requires h * h + k * k == d * d && m * d == 1.0
    ensures (m * h) * (m * h) + (m * k) * (m * k) == 1.0
  {
    assert (m * h) * (m * h) + (m * k) * (m * k) == (m * m) * (h * h + k * k);
    assert (m * m) * (d * d) == (m * d) * (m * d);
  }

  // ---------- the conic ----------

  lemma AlongEccentricity(x: real, y: real, s: real, c: real, p: real, h: real, k: real)
    requires h == c - x + y * p && k == s - y - x * p
    ensures x * h + y * k == Ecose(x, y, s, c) - Elsq(x, y)
    ensures x * k - y * h == Esine(x, y, s, c) - p * Elsq(x, y)
  {}

  lemma AcrossEccentricity(e2: real, esine: real, beta: real, p: real)
    requires e2 == 1.0 - beta * beta && esine == p * (1.0 + beta)
    ensures esine - p * e2 == beta * esine
  {
    assert p * e2 == p - p * (beta * beta);
    assert beta * esine == p * beta + p * (beta * beta);
  }

  /** The place found satisfies the equation of the orbit, pl = r (1 + e cos v), and its
      radial rate, r e sin v = a betal esine: with the unit circle, these fix the place for
      every eccentric orbit. */
  lemma Conic(g: Trig, a: real, axn: real, ayn: real, w: real)
    requires g.Pythagoras() && g.SquareRoot() && a > 0.0 && Elsq(axn, ayn) < 1.0
    ensures var q := PlaceAt(g, a, axn, ayn, w);
            && q.pl == q.r * (1.0 + (axn * q.cosu + ayn * q.sinu))
            && q.r * (axn * q.sinu - ayn * q.cosu) == a * (q.betal * q.esine)
  {
    hide Ecose, Esine, Elsq, PlaneX, PlaneY;
    var s, c := g.sin(w), g.cos(w);
    var ecose, esine, e2 := Ecose(axn, ayn, s, c), Esine(axn, ayn, s, c), Elsq(axn, ayn);
    OnUnitCircle(g, a, axn, ayn, w);
    var betal := g.sqrt(1.0 - e2);
    var temp3 := 1.0 / (1.0 + betal);
    var h, k := PlaneX(axn, ayn, c, esine, temp3), PlaneY(axn, ayn, s, esine, temp3);
    Eccentric(axn, ayn, s, c, betal, temp3);
    PlaceScaled(a, a * (1.0 - ecose), axn, ayn, h, k);
    assert a * (1.0 - e2) == a * (1.0 - ecose) + a * (ecose - e2);
  }

  lemma Eccentric(axn: real, ayn: real, s: real, c: real, betal: real, temp3: real)
    requires betal >= 0.0 && betal * betal == 1.0 - Elsq(axn, ayn) && temp3 == 1.0 / (1.0 + betal)
    ensures var ecose, esine := Ecose(axn, ayn, s, c), Esine(axn, ayn, s, c);
            var h, k := PlaneX(axn, ayn, c, esine, temp3), PlaneY(axn, ayn, s, esine, temp3);
            axn * h + ayn * k == ecose - Elsq(axn, ayn) && axn * k - ayn * h == betal * esine
  {
    hide Ecose, Esine, Elsq, PlaneX, PlaneY;
    var esine := Esine(axn, ayn, s, c);
    var p := esine * temp3;
    PlaneNumbers(axn, ayn, s, c, esine, betal, temp3, p);
    AlongEccentricity(axn, ayn, s, c, p, PlaneX(axn, ayn, c, esine, temp3), PlaneY(axn, ayn, s, esine, temp3));
    AcrossEccentricity(Elsq(axn, ayn), esine, betal, p);
  }

  /** Scaling the in-plane vector by a / r and then by r scales it by a. */
  lemma PlaceScaled(a: real, r: real, x: real, y: real, h: real, k: real)
    requires r != 0.0
    ensures var m := a * (1.0 / r);
            && r * (x * (m * h) + y * (m * k)) == a * (x * h + y * k)
            && r * (x * (m * k) - y * (m * h)) == a * (x * k - y * h)
  {
    var m := a * (1.0 / r);
    Inverse(r, 1.0 / r);
    Regroup(r, a, 1.0 / r);
    Cycle(r, a, 1.0 / r);
    assert r * m == a;
    ScaledPair(r, m, a, x, y, h, k);
  }

  lemma ScaledPair(r: real, m: real, a: real, x: real, y: real, h: real, k: real)
    requires r * m == a
    ensures r * (x * (m * h) + y * (m * k)) == a * (x * h + y * k)
    ensures r * (x * (m * k) - y * (m * h)) == a * (x * k - y * h)
  {
    assert r * (x * (m * h) + y * (m * k)) == (r * m) * (x * h + y * k);
    assert r * (x * (m * k) - y * (m * h)) == (r * m) * (x * k - y * h);
  }

  /** In a circular orbit the place is the angle itself. */
  lemma Circular(g: Trig, a: real, axn: real, ayn: real, w: real)
    requires g.Pythagoras() && g.SquareRoot() && a > 0.0 && Elsq(axn, ayn) < 1.0
    requires axn == 0.0 && ayn == 0.0
    ensures var q := PlaceAt(g, a, axn, ayn, w); q.r == a && q.cosu == g.cos(w) && q.sinu == g.sin(w)
  {
    hide Elsq, Ecose, Esine, PlaceAt;
    var s, c := g.sin(w), g.cos(w);
    OnUnitCircle(g, a, axn, ayn, w);
    PlaceIs(g, a, axn, ayn, w);
    Centred(axn, ayn, s, c, 1.0 / (1.0 + g.sqrt(1.0 - Elsq(axn, ayn))));
    Inverse(a, 1.0 / a);
  }

  lemma PlaceIs(g: Trig, a: real, axn: real, ayn: real, w: real)
    requires g.Pythagoras() && g.SquareRoot() && a > 0.0 && Elsq(axn, ayn) < 1.0
    ensures a * (1.0 - Ecose(axn, ayn, g.sin(w), g.cos(w))) > 0.0
    ensures PlaceAt(g, a, axn, ayn, w) == ShortPeriod(g, a, axn, ayn, g.sin(w), g.cos(w))
  {
    hide Elsq, Ecose, ShortPeriod;
    OnUnitCircle(g, a, axn, ayn, w);
  }

  lemma Centred(x: real, y: real, s: real, c: real, temp3: real)
    requires x == 0.0 && y == 0.0
    ensures Ecose(x, y, s, c) == 0.0
    ensures var esine := Esine(x, y, s, c); PlaneX(x, y, c, esine, temp3) == c && PlaneY(x, y, s, esine, temp3) == s
  {}

  /** So the double-angle formulas of the source give a true double angle. */
  lemma DoubleAngle(cosu: real, sinu: real)
    requires cosu * cosu + sinu * sinu == 1.0
    ensures var sin2u, cos2u := 2.0 * sinu * cosu, 2.0 * cosu * cosu - 1.0;
            cos2u == cosu * cosu - sinu * sinu && sin2u * sin2u + cos2u * cos2u == 1.0
  {
    var x, y := cosu * cosu, sinu * sinu;
    assert (2.0 * sinu * cosu) * (2.0 * sinu * cosu) == 4.0 * (x * y);
    assert (x + y) * (x + y) == 1.0;
    assert (x - y) * (x - y) == (x + y) * (x + y) - 4.0 * (x * y);
  }
}
