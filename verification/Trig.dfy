/**
 The mathematical functions of the C library, kept abstract, and the laws a proof
 may need of them; and the angle helpers of sgp_math.c.
 */
module Trigonometry {
  import opened Reals

  const PI := 3.1415926535898
  const PIO2 := 1.5707963267949
  const X3PIO2 := 4.71238898
  const TWOPI := 6.2831853071796

  datatype Trig = Trig(sin: real -> real, cos: real -> real, atan: real -> real, sqrt: real -> real)
  {
    ghost predicate Pythagoras() {
      forall x :: sin(x) * sin(x) + cos(x) * cos(x) == 1.0
    }

    /** Half a turn reverses both functions. */
    ghost predicate HalfTurn() {
      && (forall x :: sin(x + PI) == -sin(x) && cos(x + PI) == -cos(x))
      && (forall x :: sin(x - PI) == -sin(x) && cos(x - PI) == -cos(x))
    }

    ghost predicate Parity() {
      forall x :: sin(-x) == -sin(x) && cos(-x) == cos(x)
    }

    /** A period changes nothing. */
    ghost predicate Periodic(turn: real) {
      forall x :: sin(x + turn) == sin(x) && cos(x + turn) == cos(x)
    }

    /** The program's turn is a period. */
    ghost predicate WholeTurn() {
      Periodic(TWOPI)
    }

    /** Within one turn, sine and cosine together belong to one angle. */
    ghost predicate OneAngle() {
      forall x, y :: 0.0 <= x < TWOPI && 0.0 <= y < TWOPI && sin(x) == sin(y) && cos(x) == cos(y) ==> x == y
    }

    ghost predicate QuarterTurn() {
      sin(PIO2) == 1.0 && cos(PIO2) == 0.0
    }

    /** A quarter turn on, the sine is the cosine and the cosine the negative sine. */
    ghost predicate QuarterAt(x: real) {
      sin(x + PIO2) == cos(x) && cos(x + PIO2) == -sin(x)
    }

    ghost predicate QuarterShift() {
      forall x :: QuarterAt(x)
    }

    /** The sine and cosine of a sum. */
    ghost predicate SumAt(x: real, y: real) {
      sin(x + y) == sin(x) * cos(y) + cos(x) * sin(y) && cos(x + y) == cos(x) * cos(y) - sin(x) * sin(y)
    }

    ghost predicate Sums() {
      forall x, y :: SumAt(x, y)
    }

    /** The arc tangent is the angle of its argument, in the right half plane. */
    ghost predicate TangentInverse() {
      forall x {:trigger atan(x)} :: cos(atan(x)) > 0.0 && sin(atan(x)) == x * cos(atan(x))
    }

    /** The range and sign of the arc tangent. */
    ghost predicate ArcTangent() {
      && (forall x :: -PIO2 < atan(x) < PIO2)
      && (forall x :: atan(x) > 0.0 <==> x > 0.0)
      && (forall x :: atan(x) < 0.0 <==> x < 0.0)
    }

    ghost predicate SquareRoot() {
      forall x :: x >= 0.0 ==> sqrt(x) >= 0.0 && sqrt(x) * sqrt(x) == x
    }

    /** AcTan of sgp_math.c. */
    function AcTan(sinx: real, cosx: real): (angle: real)
      ensures ArcTangent() ==> 0.0 <= angle <= TWOPI
    {
      if cosx == 0.0 then (if sinx > 0.0 then PIO2 else X3PIO2)
      else if cosx > 0.0 then
        Quotient(sinx, cosx);
        (if sinx > 0.0 then atan(sinx / cosx) else TWOPI + atan(sinx / cosx))
      else PI + atan(sinx / cosx)
    }
  }

  function Abs(x: real): real {
    if x < 0.0 then -x else x
  }

  /** FMod2p of sgp_math.c: the angle within one turn, and a whole number of turns away. */
  function FMod2p(x: real): (r: real)
    ensures 0.0 <= r < TWOPI
    ensures exists n: int :: r == x - Turns(n)
  {
    var i := Trunc(x / TWOPI);
    var r := x - Turns(i);
    assert r < 0.0 ==> r + TWOPI == x - Turns(i - 1);
    if r < 0.0 then r + TWOPI else r
  }

  function Turns(n: int): real {
    Times(n, TWOPI)
  }

  lemma TimesStep(n: int, x: real)
    ensures Times(n + 1, x) == Times(n, x) + x && Times(n - 1, x) == Times(n, x) - x && Times(0, x) == 0.0
  {
    assert (n + 1) as real == n as real + 1.0 && (n - 1) as real == n as real - 1.0;
  }

  lemma {:induction false} WholePeriods(g: Trig, turn: real, x: real, n: int)
    requires g.Periodic(turn)
    ensures g.cos(x + Times(n, turn)) == g.cos(x) && g.sin(x + Times(n, turn)) == g.sin(x)
    decreases if n < 0 then -n else n
  {
    hide Times;
    TimesStep(n, turn);
    if n > 0 {
      WholePeriods(g, turn, x, n - 1);
      var y := x + Times(n - 1, turn);
      assert x + Times(n, turn) == y + turn;
    } else if n < 0 {
      WholePeriods(g, turn, x, n + 1);
      var y := x + Times(n, turn);
      assert x + Times(n + 1, turn) == y + turn;
    }
  }

  // ---------- the angles AcTan and ArcSin name ----------

  /** ArcSin of sgp_math.c. */
  function ArcSin(g: Trig, arg: real): real
    requires g.SquareRoot()
  {
    if Abs(arg) >= 1.0 then (if arg > 0.0 then PIO2 else -PIO2)
    else
      InsideUnit(arg);
      RootPositive(g, 1.0 - arg * arg);
      g.atan(arg / g.sqrt(1.0 - arg * arg))
  }

  lemma RootPositive(g: Trig, x: real)
    requires g.SquareRoot()
    ensures x > 0.0 ==> g.sqrt(x) > 0.0
  {
    if x > 0.0 {
      assert g.sqrt(x) * g.sqrt(x) == x;
    }
  }

  lemma InsideUnit(x: real)
    ensures Abs(x) < 1.0 <==> x * x < 1.0
  {
    var p, q := 1.0 - x, 1.0 + x;
    assert p * q == 1.0 - x * x;
    Signs(p, q);
  }

  /** On the unit circle, x is determined by its sign and the slope y / x. */
  lemma SlopeDecides(x: real, y: real, c: real, s: real, m: real)
    requires x * x + y * y == 1.0 && c * c + s * s == 1.0
    requires x > 0.0 && c > 0.0 && y == m * x && s == m * c
    ensures c == x && s == y
  {
    var q := 1.0 + m * m;
    assert x * x * q == 1.0;
    assert c * c * q == 1.0;
    assert (x * x - c * c) * q == 0.0;
    assert q > 0.0;
    assert (x - c) * (x + c) == x * x - c * c;
    if x != c {
      assert x + c > 0.0;
      Nonzero(x - c, x + c);
      Nonzero((x - c) * (x + c), q);
    }
  }

  /** The arc tangent of y / x names the direction (x, y) when x > 0. */
  lemma ArcTangentNames(g: Trig, x: real, y: real)
    requires g.Pythagoras() && g.TangentInverse()
    requires x > 0.0 && x * x + y * y == 1.0
    ensures g.cos(g.atan(y / x)) == x && g.sin(g.atan(y / x)) == y
  {
    var t := g.atan(y / x);
    assert y == y / x * x;
    SlopeDecides(x, y, g.cos(t), g.sin(t), y / x);
  }

  /** AcTan names the direction it is given, except straight down, where the constant it
      returns is not three quarters of its own turn. */
  lemma AcTanNames(g: Trig, sinx: real, cosx: real)
    requires g.Pythagoras() && g.TangentInverse() && g.HalfTurn() && g.WholeTurn() && g.QuarterTurn()
    requires cosx * cosx + sinx * sinx == 1.0 && (cosx == 0.0 ==> sinx > 0.0)
    ensures g.cos(g.AcTan(sinx, cosx)) == cosx && g.sin(g.AcTan(sinx, cosx)) == sinx
  {
    if cosx == 0.0 {
      UnitPositive(sinx);
    } else if cosx > 0.0 {
      RightHalf(g, sinx, cosx);
    } else {
      LeftHalf(g, sinx, cosx);
    }
  }

  /** Straight down it does not: its constant is not three quarters of its own turn. */
  lemma AcTanDown(g: Trig, sinx: real, cosx: real)
    requires g.HalfTurn() && g.QuarterTurn() && g.OneAngle()
    requires cosx * cosx + sinx * sinx == 1.0 && cosx == 0.0 && sinx <= 0.0
    ensures g.AcTan(sinx, cosx) == X3PIO2
    ensures !(g.cos(g.AcTan(sinx, cosx)) == cosx && g.sin(g.AcTan(sinx, cosx)) == sinx)
  {
    var y := -sinx;
    assert y * y == 1.0;
    UnitPositive(y);
    assert g.sin(PIO2 + PI) == -1.0 && g.cos(PIO2 + PI) == 0.0;
    assert 0.0 <= X3PIO2 < TWOPI && 0.0 <= PIO2 + PI < TWOPI && X3PIO2 != PIO2 + PI;
  }

  /** So exactly which directions AcTan names. */
  lemma AcTanNamesIff(g: Trig, sinx: real, cosx: real)
    requires g.Pythagoras() && g.TangentInverse() && g.HalfTurn() && g.WholeTurn() && g.QuarterTurn() && g.OneAngle()
    requires cosx * cosx + sinx * sinx == 1.0
    ensures g.cos(g.AcTan(sinx, cosx)) == cosx && g.sin(g.AcTan(sinx, cosx)) == sinx <==> cosx != 0.0 || sinx > 0.0
  {
    hide Trig.AcTan;
    if cosx != 0.0 || sinx > 0.0 {
      AcTanNames(g, sinx, cosx);
    } else {
      AcTanDown(g, sinx, cosx);
    }
  }

  lemma RightHalf(g: Trig, sinx: real, cosx: real)
    requires g.Pythagoras() && g.TangentInverse() && g.WholeTurn()
    requires cosx * cosx + sinx * sinx == 1.0 && cosx > 0.0
    ensures g.cos(g.AcTan(sinx, cosx)) == cosx && g.sin(g.AcTan(sinx, cosx)) == sinx
  {
    ArcTangentNames(g, cosx, sinx);
    var t := g.atan(sinx / cosx);
    assert TWOPI + t == t + TWOPI;
  }

  lemma LeftHalf(g: Trig, sinx: real, cosx: real)
    requires g.Pythagoras() && g.TangentInverse() && g.HalfTurn()
    requires cosx * cosx + sinx * sinx == 1.0 && cosx < 0.0
    ensures g.cos(g.AcTan(sinx, cosx)) == cosx && g.sin(g.AcTan(sinx, cosx)) == sinx
  {
    var x, y := -cosx, -sinx;
    Squares(cosx, sinx);
    ArcTangentNames(g, x, y);
    QuotientOfNegatives(sinx, cosx);
    var t := g.atan(sinx / cosx);
    assert PI + t == t + PI;
  }

  lemma Squares(x: real, y: real)
    ensures -x * -x + -y * -y == x * x + y * y
  {}
}
