/** The records Calculate_Obs and Calculate_RADec_and_Obs of sgp_obs.c fill in. */
module Sky {
  import opened Trigonometry
  import opened Orientation
  import opened Observer
  import opened Reals

  function Minus(a: Vector, b: Vector): Vector {
    Vector(a.x - b.x, a.y - b.y, a.z - b.z)
  }

  /** The range leads from the observer to the satellite. */
  lemma RangeLeads(pos: Vector, obsPos: Vector)
    ensures var r := Minus(pos, obsPos);
            Vector(obsPos.x + r.x, obsPos.y + r.y, obsPos.z + r.z) == pos
  {}

  function Magnitude(g: Trig, v: Vector): real {
    g.sqrt(Dot(v, v))
  }

  lemma LengthPositive(g: Trig, v: Vector)
    requires g.SquareRoot() && Dot(v, v) > 0.0
    ensures Magnitude(g, v) > 0.0 && Sqr(Magnitude(g, v)) == Dot(v, v)
  {
    RootPositive(g, Dot(v, v));
  }

  // ---------- whole turns ----------

  /** Reducing an angle to one turn keeps its direction. */
  lemma ReducedAngle(g: Trig, x: real)
    requires g.WholeTurn()
    ensures g.cos(FMod2p(x)) == g.cos(x) && g.sin(FMod2p(x)) == g.sin(x)
  {
    hide FMod2p;
    var n: int :| FMod2p(x) == x - Turns(n);
    Backwards(n, TWOPI);
    WholePeriods(g, TWOPI, x, -n);
  }

  lemma Backwards(n: int, turn: real)
    ensures Times(-n, turn) == -Times(n, turn)
  {
  }

  // ---------- right ascension and declination ----------

  function Declination(g: Trig, l: Vector): real
    requires g.SquareRoot()
  {
    ArcSin(g, l.z)
  }

  function RightAscension(g: Trig, l: Vector, cosDelta: real): real
    requires cosDelta != 0.0
  {
    FMod2p(g.AcTan(l.y / cosDelta, l.x / cosDelta))
  }

  lemma CosDelta(g: Trig, l: Vector)
    requires g.SquareRoot() && Dot(l, l) == 1.0 && (l.x != 0.0 || l.y != 0.0)
    ensures var c := g.sqrt(1.0 - Sqr(l.z)); c > 0.0 && Sqr(c) == Sqr(l.x) + Sqr(l.y)
  {
    hide Dot;
    DotSquares(l);
    if l.x != 0.0 {
      SqrPositive(l.x);
      SqrNotNegative(l.y);
    } else {
      SqrPositive(l.y);
      SqrNotNegative(l.x);
    }
    RootPositive(g, 1.0 - Sqr(l.z));
  }

  lemma AscensionNames(g: Trig, l: Vector, c: real)
    requires AngleLaws(g) && c > 0.0 && Sqr(c) == Sqr(l.x) + Sqr(l.y)
    requires l.x != 0.0 || l.y > 0.0
    ensures g.cos(RightAscension(g, l, c)) == l.x / c && g.sin(RightAscension(g, l, c)) == l.y / c
  {
    hide Sqr, FMod2p;
    UnitPair(l.x, l.y, c);
    QuotientSign(l.x, c);
    QuotientSign(l.y, c);
    AcTanOf(g, l.y / c, l.x / c);
    ReducedAngle(g, g.AcTan(l.y / c, l.x / c));
  }

  lemma QuotientSign(x: real, c: real)
    requires c > 0.0
    ensures (x / c > 0.0 <==> x > 0.0) && (x / c == 0.0 <==> x == 0.0)
  {
    Quotient(x, c);
  }

  lemma AcTanOf(g: Trig, y: real, x: real)
    requires AngleLaws(g) && Sqr(x) + Sqr(y) == 1.0 && (x == 0.0 ==> y > 0.0)
    ensures g.cos(g.AcTan(y, x)) == x && g.sin(g.AcTan(y, x)) == y
  {
    AcTanNames(g, y, x);
  }

  lemma CelestialNames(g: Trig, l: Vector)
    requires AngleLaws(g) && Dot(l, l) == 1.0 && (l.x != 0.0 || l.y > 0.0)
    ensures var c := g.sqrt(1.0 - Sqr(l.z)); c > 0.0 && Celestial(g, RightAscension(g, l, c), Declination(g, l)) == l
  {
    hide Sqr, Dot, ArcSin, RightAscension;
    var c := g.sqrt(1.0 - Sqr(l.z));
    CosDelta(g, l);
    DotSquares(l);
    AscensionNames(g, l, c);
    ArcSinNames(g, l.z, c);
    Restored(l.x, c);
    Restored(l.y, c);
    var ra, dec := RightAscension(g, l, c), Declination(g, l);
    SameProduct(g.cos(ra), l.x / c, g.cos(dec), c);
    SameProduct(g.sin(ra), l.y / c, g.cos(dec), c);
  }

  /** Along the negative y axis AcTan's constant is not the angle. */
  lemma AscensionMisses(g: Trig, l: Vector, c: real)
    requires AngleLaws(g) && g.OneAngle() && c > 0.0 && Sqr(c) == Sqr(l.x) + Sqr(l.y) && l.x == 0.0 && l.y < 0.0
    ensures g.cos(RightAscension(g, l, c)) != l.x / c || g.sin(RightAscension(g, l, c)) != l.y / c
  {
    hide Sqr, FMod2p, Trig.AcTan;
    UnitPair(l.x, l.y, c);
    QuotientSign(l.x, c);
    QuotientSign(l.y, c);
    AcTanMisses(g, l.y / c, l.x / c);
    ReducedAngle(g, g.AcTan(l.y / c, l.x / c));
  }

  lemma AcTanMisses(g: Trig, y: real, x: real)
    requires AngleLaws(g) && g.OneAngle() && Sqr(x) + Sqr(y) == 1.0 && x == 0.0 && y <= 0.0
    ensures g.cos(g.AcTan(y, x)) != x || g.sin(g.AcTan(y, x)) != y
  {
    hide Trig.AcTan;
    AcTanDown(g, y, x);
  }

  /** So exactly which directions off the poles right ascension and declination name. */
  lemma CelestialIff(g: Trig, l: Vector)
    requires AngleLaws(g) && g.OneAngle() && Dot(l, l) == 1.0 && (l.x != 0.0 || l.y != 0.0)
    ensures var c := g.sqrt(1.0 - Sqr(l.z));
            c > 0.0 && (Celestial(g, RightAscension(g, l, c), Declination(g, l)) == l <==> l.x != 0.0 || l.y > 0.0)
  {
    hide Sqr, Dot, ArcSin, RightAscension;
    var c := g.sqrt(1.0 - Sqr(l.z));
    CosDelta(g, l);
    DotSquares(l);
    if l.x != 0.0 || l.y > 0.0 {
      CelestialNames(g, l);
    } else {
      AscensionMisses(g, l, c);
      ArcSinNames(g, l.z, c);
      var ra, dec := RightAscension(g, l, c), Declination(g, l);
      CelestialUnscaled(g, l, ra, dec, c);
    }
  }

  lemma CelestialUnscaled(g: Trig, l: Vector, ra: real, dec: real, c: real)
    requires c > 0.0 && g.cos(dec) == c
    ensures Celestial(g, ra, dec) == l ==> g.cos(ra) == l.x / c && g.sin(ra) == l.y / c
  {
    if Celestial(g, ra, dec) == l {
      Unscaled(l.x, g.cos(ra), c);
      Unscaled(l.y, g.sin(ra), c);
    }
  }

  // ---------- the records ----------

  class ObsSet {
    var az: real
    var el: real
    var range: real
    var rangeRate: real
    var visible: bool

    constructor ()
    {}

    /** Azimuth, elevation and range are the polar form of the topocentric vector from the
        observer to the satellite, with east and west exchanged where a zero top_s is positive;
        straight up and down there is no azimuth. The range rate is the speed along the vector. */
    method Calculate(g: Trig, pos: Vector, vel: Vector, obsPos: Vector, obsVel: Vector, lat: real, theta: real,
                     minus: bool)
      requires AngleLaws(g) && Dot(Minus(pos, obsPos), Minus(pos, obsPos)) > 0.0
      modifies this
      ensures range > 0.0 && Sqr(range) == Dot(Minus(pos, obsPos), Minus(pos, obsPos))
      ensures var top, h := Local(g, lat, theta, Minus(pos, obsPos)), Horizontal(g, az, el);
              if top.x != 0.0 || top.y != 0.0 then
                && az == Azimuth(g, top.x, top.y, minus)
                && top.x == h.x * range && Eastward(top.x, top.y, minus) == h.y * range && top.z == h.z * range
              else el == if top.z > 0.0 then PIO2 else -PIO2
      ensures el == ArcSin(g, Local(g, lat, theta, Minus(pos, obsPos)).z / range)
      ensures rangeRate * range == Dot(Minus(pos, obsPos), Minus(vel, obsVel))
      ensures visible <==> el >= 0.0
    {
      hide Topocentric, Sqr, Dot, Azimuth, ArcSin, Horizontal, Minus, Eastward;
      var r, rv := Minus(pos, obsPos), Minus(vel, obsVel);
      LengthPositive(g, r);
      range := Magnitude(g, r);
      var top := Topocentric(g.sin(lat), g.cos(lat), g.sin(theta), g.cos(theta), r);
      if top.x != 0.0 || top.y != 0.0 {
        az := Azimuth(g, top.x, top.y, minus);
        PolarForm(g, lat, theta, r, minus, range);
      } else {
        az := *;
        Upright(g, lat, theta, r, range);
      }
      el := ArcSin(g, top.z / range);
      rangeRate := Dot(r, rv) / range;
      visible := el >= 0.0;
      Restored(Dot(r, rv), range);
    }
  }

  lemma PolarForm(g: Trig, lat: real, theta: real, range: Vector, minus: bool, w: real)
    requires AngleLaws(g) && w > 0.0 && Sqr(w) == Dot(range, range)
    requires Local(g, lat, theta, range).x != 0.0 || Local(g, lat, theta, range).y != 0.0
    ensures var top := Local(g, lat, theta, range);
            var h := Horizontal(g, Azimuth(g, top.x, top.y, minus), ArcSin(g, top.z / w));
            top.x == h.x * w && Eastward(top.x, top.y, minus) == h.y * w && top.z == h.z * w
  {
    hide Topocentric, Horizontal, Azimuth, ArcSin, Sqr, Dot, Eastward;
    var top := Local(g, lat, theta, range);
    TopocentricLength(g.sin(lat), g.cos(lat), g.sin(theta), g.cos(theta), range);
    DotSquares(top);
    var h := FlatPart(g, top.x, top.y);
    HorizontalNames(g, top, minus, h, w);
    Restored(top.x, w);
    Restored(Eastward(top.x, top.y, minus), w);
    Restored(top.z, w);
  }

  lemma Upright(g: Trig, lat: real, theta: real, range: Vector, w: real)
    requires AngleLaws(g) && w > 0.0 && Sqr(w) == Dot(range, range)
    requires Local(g, lat, theta, range).x == 0.0 && Local(g, lat, theta, range).y == 0.0
    ensures var z := Local(g, lat, theta, range).z; ArcSin(g, z / w) == if z > 0.0 then PIO2 else -PIO2
  {
    hide Topocentric, ArcSin, Dot;
    var top := Local(g, lat, theta, range);
    TopocentricLength(g.sin(lat), g.cos(lat), g.sin(theta), g.cos(theta), range);
    DotSquares(top);
    ElevationUpright(g, top.z, w);
  }

  class ObsAstro {
    var ra: real
    var dec: real

    constructor ()
    {}

    /** Wherever the azimuth is right, right ascension and declination name the direction from
        the observer to the satellite, for any observer: the horizon drops out again. Only
        along the negative y axis they do not, and at the poles there is no right ascension. */
    method Calculate(g: Trig, pos: Vector, vel: Vector, obsPos: Vector, obsVel: Vector, lat: real, theta: real,
                     minus: bool)
      returns (obs: ObsSet)
      requires AngleLaws(g) && Dot(Minus(pos, obsPos), Minus(pos, obsPos)) > 0.0
      modifies this
      ensures fresh(obs)
      ensures obs.range > 0.0 && Sqr(obs.range) == Dot(Minus(pos, obsPos), Minus(pos, obsPos))
      ensures var d, top := Minus(pos, obsPos), Local(g, lat, theta, Minus(pos, obsPos));
              (top.x != 0.0 || (minus && top.y != 0.0)) && (d.x != 0.0 || d.y != 0.0) ==>
                && 0.0 <= ra < TWOPI
                && (d.x != 0.0 || d.y > 0.0 ==> Along(d, Celestial(g, ra, dec), obs.range))
                && (g.OneAngle() ==> (Along(d, Celestial(g, ra, dec), obs.range) <==> d.x != 0.0 || d.y > 0.0))
    {
      hide Local, Direction, Sqr, Dot, Azimuth, ArcSin, Celestial, FMod2p, Trig.AcTan, Trig.OneAngle;
      hide Horizontal, Minus, Along, Eastward;
      obs := new ObsSet();
      obs.Calculate(g, pos, vel, obsPos, obsVel, lat, theta, minus);
      ghost var d, top := Minus(pos, obsPos), Local(g, lat, theta, Minus(pos, obsPos));
      var l := Direction(g, lat, theta, obs.az, obs.el);
      if top.x != 0.0 || (minus && top.y != 0.0) {
        DirectionOfRange(g, lat, theta, d, minus, obs.range);
        AlongScaled(d, l, obs.range);
      }
      Name(g, l);
    }

    /** The last lines, from a direction; off the unit sphere and at the poles they may give
        anything. */
    method Name(g: Trig, l: Vector)
      requires AngleLaws(g)
      modifies this
      ensures Dot(l, l) == 1.0 && (l.x != 0.0 || l.y != 0.0) ==>
                && 0.0 <= ra < TWOPI
                && (l.x != 0.0 || l.y > 0.0 ==> Celestial(g, ra, dec) == l)
                && (g.OneAngle() ==> (Celestial(g, ra, dec) == l <==> l.x != 0.0 || l.y > 0.0))
    {
      hide Sqr, Dot, ArcSin, Celestial, FMod2p, Trig.AcTan, Trig.OneAngle;
      if Dot(l, l) == 1.0 && (l.x != 0.0 || l.y != 0.0) {
        CosDelta(g, l);
        if l.x != 0.0 || l.y > 0.0 {
          CelestialNames(g, l);
        }
        if g.OneAngle() {
          CelestialIff(g, l);
        }
      }
      dec := ArcSin(g, l.z);
      var cosDelta := g.sqrt(1.0 - Sqr(l.z));
      if cosDelta == 0.0 {
        ra := *;
      } else {
        ra := FMod2p(g.AcTan(l.y / cosDelta, l.x / cosDelta));
      }
    }
  }

  /** A vector is a length along a direction. */
  predicate Along(d: Vector, l: Vector, w: real) {
    d.x == l.x * w && d.y == l.y * w && d.z == l.z * w
  }

  /** A vector lies along one direction only. */
  lemma AlongScaled(d: Vector, l: Vector, w: real)
    requires w > 0.0 && d.x == l.x * w && d.y == l.y * w && d.z == l.z * w
    ensures forall c: Vector :: Along(d, c, w) <==> c == l
    ensures (d.x != 0.0 <==> l.x != 0.0) && (d.y != 0.0 <==> l.y != 0.0) && (d.y > 0.0 <==> l.y > 0.0)
  {
    SameSign(d.x, l.x, w);
    SameSign(d.y, l.y, w);
    forall c: Vector
      ensures Along(d, c, w) <==> c == l
    {
      if Along(d, c, w) {
        Unscaled(d.x, c.x, w);
        Unscaled(d.y, c.y, w);
        Unscaled(d.z, c.z, w);
        Unscaled(d.x, l.x, w);
        Unscaled(d.y, l.y, w);
        Unscaled(d.z, l.z, w);
      }
    }
  }

  lemma SameSign(x: real, y: real, w: real)
    requires w > 0.0 && x == y * w
    ensures (x > 0.0 <==> y > 0.0) && (x == 0.0 <==> y == 0.0)
  {
    assert y == x / w;
    QuotientSign(x, w);
  }
}
