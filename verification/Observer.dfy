/** Calculate_Obs and Calculate_RADec_and_Obs of sgp_obs.c: what an observer sees. */
module Observer {
  import opened Trigonometry
  import opened Orientation
  import opened Reals

  /** The observer's south, east and zenith components of a vector. */
  function Topocentric(slat: real, clat: real, sth: real, cth: real, v: Vector): Vector {
    Vector(slat * cth * v.x + slat * sth * v.y - clat * v.z,
           -sth * v.x + cth * v.y,
           clat * cth * v.x + clat * sth * v.y + slat * v.z)
  }

  /** The rotation of Calculate_RADec_and_Obs, from south, east and zenith. */
  function Equatorial(slat: real, clat: real, sth: real, cth: real, h: Vector): Vector {
    Vector(slat * cth * h.x - sth * h.y + cth * clat * h.z,
           slat * sth * h.x + cth * h.y + sth * clat * h.z,
           -clat * h.x + 0.0 * h.y + slat * h.z)
  }

  /** A plane vector turned by an angle, by its sine and cosine: one component. */
  function Turn(c: real, x: real, s: real, y: real): real {
    c * x + s * y
  }

  lemma TopocentricInTurns(slat: real, clat: real, sth: real, cth: real, v: Vector)
    ensures var p := Turn(cth, v.x, sth, v.y);
            var top := Topocentric(slat, clat, sth, cth, v);
            && top.x == Turn(slat, p, -clat, v.z) && top.y == Turn(-sth, v.x, cth, v.y)
            && top.z == Turn(clat, p, slat, v.z)
  {}

  lemma EquatorialInTurns(slat: real, clat: real, sth: real, cth: real, h: Vector)
    ensures var m := Turn(slat, h.x, clat, h.z);
            var back := Equatorial(slat, clat, sth, cth, h);
            && back.x == Turn(cth, m, -sth, h.y) && back.y == Turn(sth, m, cth, h.y)
            && back.z == Turn(-clat, h.x, slat, h.z)
  {}

  lemma TurnKeepsLength(s: real, c: real, x: real, y: real, p: real, q: real)
    requires s * s + c * c == 1.0 && p == Turn(c, x, s, y) && q == Turn(-s, x, c, y)
    ensures p * p + q * q == x * x + y * y
  {
    assert p * p + q * q == (s * s + c * c) * (x * x + y * y);
  }

  lemma TurnBack(s: real, c: real, x: real, y: real, p: real, q: real)
    requires s * s + c * c == 1.0 && p == Turn(c, x, s, y) && q == Turn(-s, x, c, y)
    ensures Turn(c, p, -s, q) == x && Turn(s, p, c, q) == y
  {
    assert c * p + -s * q == (s * s + c * c) * x;
    assert s * p + c * q == (s * s + c * c) * y;
  }

  lemma TurnSwapped(c: real, x: real, s: real, y: real)
    ensures Turn(c, x, s, y) == Turn(s, y, c, x)
  {}

  /** The topocentric components keep the length of the range. */
  lemma TopocentricLength(slat: real, clat: real, sth: real, cth: real, v: Vector)
    requires slat * slat + clat * clat == 1.0 && sth * sth + cth * cth == 1.0
    ensures var top := Topocentric(slat, clat, sth, cth, v); Dot(top, top) == Dot(v, v)
  {
    hide Turn, Topocentric;
    var top, p := Topocentric(slat, clat, sth, cth, v), Turn(cth, v.x, sth, v.y);
    TopocentricInTurns(slat, clat, sth, cth, v);
    TurnKeepsLength(sth, cth, v.x, v.y, p, top.y);
    TurnSwapped(slat, p, -clat, v.z);
    TurnSwapped(clat, p, slat, v.z);
    TurnKeepsLength(clat, slat, v.z, p, top.z, top.x);
  }

  /** The direction with this right ascension and declination. */
  function Celestial(g: Trig, ra: real, dec: real): Vector {
    Vector(g.cos(ra) * g.cos(dec), g.sin(ra) * g.cos(dec), g.sin(dec))
  }

  /** The components are those along the observer's zenith, a quarter turn below it along the
      meridian, and a quarter turn on along the equator. */
  lemma TopocentricMeans(g: Trig, lat: real, theta: real, v: Vector)
    requires g.QuarterShift() && g.sin(0.0) == 0.0 && g.cos(0.0) == 1.0
    ensures var top := Topocentric(g.sin(lat), g.cos(lat), g.sin(theta), g.cos(theta), v);
            && top.x == Dot(v, Celestial(g, theta, lat - PIO2))
            && top.y == Dot(v, Celestial(g, theta + PIO2, 0.0)) && top.z == Dot(v, Celestial(g, theta, lat))
  {
    assert g.QuarterAt(theta) && g.QuarterAt(lat - PIO2);
    assert lat - PIO2 + PIO2 == lat;
    hide Trig.QuarterShift;
    InAxes(g.sin(lat), g.cos(lat), g.sin(theta), g.cos(theta), v);
  }

  lemma InAxes(slat: real, clat: real, sth: real, cth: real, v: Vector)
    ensures var top := Topocentric(slat, clat, sth, cth, v);
            && top.x == Dot(v, Vector(cth * slat, sth * slat, -clat))
            && top.y == Dot(v, Vector(-sth * 1.0, cth * 1.0, 0.0))
            && top.z == Dot(v, Vector(cth * clat, sth * clat, slat))
  {}

  /** Turning to the horizon and back is the identity. */
  lemma ThereAndBack(slat: real, clat: real, sth: real, cth: real, v: Vector)
    requires slat * slat + clat * clat == 1.0 && sth * sth + cth * cth == 1.0
    ensures Equatorial(slat, clat, sth, cth, Topocentric(slat, clat, sth, cth, v)) == v
  {
    hide Turn, Topocentric, Equatorial;
    var top, p := Topocentric(slat, clat, sth, cth, v), Turn(cth, v.x, sth, v.y);
    TopocentricInTurns(slat, clat, sth, cth, v);
    EquatorialInTurns(slat, clat, sth, cth, top);
    TurnSwapped(slat, p, -clat, v.z);
    TurnSwapped(clat, p, slat, v.z);
    TurnBack(clat, slat, v.z, p, top.z, top.x);
    TurnSwapped(slat, top.x, clat, top.z);
    TurnSwapped(-clat, top.x, slat, top.z);
    TurnBack(sth, cth, v.x, v.y, p, top.y);
  }

  // ---------- azimuth and elevation ----------

  /** The arc tangent of a quotient whose divisor is zero: a right angle, by the sign of the
      dividend and of the zero. */
  function RightAngle(positive: bool): real {
    if positive then PIO2 else TWOPI - PIO2
  }

  /** The azimuth, where there is one. Due east and due west top_s is zero, and minus says
      whether that zero carries a minus sign. */
  function Azimuth(g: Trig, tops: real, tope: real, minus: bool): real
    requires tops != 0.0 || tope != 0.0
  {
    if tops == 0.0 then RightAngle((tope > 0.0) == minus)
    else
      var azim := g.atan(-tope / tops);
      var azim' := if tops > 0.0 then azim + PI else azim;
      if azim' < 0.0 then azim' + TWOPI else azim'
  }

  /** The direction an azimuth and elevation stand for, in south, east and zenith. */
  function Horizontal(g: Trig, az: real, el: real): Vector {
    Vector(-g.cos(az) * g.cos(el), g.sin(az) * g.cos(el), g.sin(el))
  }

  ghost predicate AngleLaws(g: Trig) {
    g.Pythagoras() && g.TangentInverse() && g.HalfTurn() && g.WholeTurn() && g.QuarterTurn() && g.SquareRoot()
  }

  lemma SlopeOf(tops: real, tope: real, h: real)
    requires tops != 0.0 && h > 0.0
    ensures tops < 0.0 ==> (tope / h) / (-tops / h) == -tope / tops
    ensures tops > 0.0 ==> (-tope / h) / (tops / h) == -tope / tops
  {
    CancelledBy(tope, -tops, h);
    CancelledBy(-tope, tops, h);
    QuotientOfNegatives(-tope, tops);
    assert --tope == tope;
  }

  lemma CancelledBy(y: real, x: real, h: real)
    requires x != 0.0 && h != 0.0
    ensures x / h != 0.0 && (y / h) / (x / h) == y / x
  {
    var q := y / h;
    var r := x / h;
    assert y == q * h && x == r * h;
    Ratio(q, r, h);
  }

  lemma Ratio(q: real, r: real, h: real)
    requires r != 0.0 && h != 0.0
    ensures r * h != 0.0 && (q * h) / (r * h) == q / r
  {
    Nonzero(r, h);
    var t := q / r;
    assert q == t * r;
    assert t * r * h == t * (r * h);
  }

  lemma UnitDirection(g: Trig, x: real, y: real)
    requires g.Pythagoras() && g.TangentInverse() && x > 0.0 && Sqr(x) + Sqr(y) == 1.0
    ensures g.cos(g.atan(y / x)) == x && g.sin(g.atan(y / x)) == y
  {
    ArcTangentNames(g, x, y);
  }

  lemma NorthArc(g: Trig, tops: real, tope: real, h: real)
    requires AngleLaws(g) && tops < 0.0 && h > 0.0 && Sqr(h) == Sqr(tops) + Sqr(tope)
    ensures var t := g.atan(-tope / tops); g.cos(t) == -tops / h && g.sin(t) == tope / h
  {
    hide Sqr;
    SlopeOf(tops, tope, h);
    SqrNegated(tops);
    UnitPair(-tops, tope, h);
    PositiveRatio(-tops, h);
    UnitDirection(g, -tops / h, tope / h);
  }

  lemma SouthArc(g: Trig, tops: real, tope: real, h: real)
    requires AngleLaws(g) && tops > 0.0 && h > 0.0 && Sqr(h) == Sqr(tops) + Sqr(tope)
    ensures var t := g.atan(-tope / tops); g.cos(t) == tops / h && g.sin(t) == -tope / h
  {
    hide Sqr;
    SlopeOf(tops, tope, h);
    SqrNegated(tope);
    UnitPair(tops, -tope, h);
    PositiveRatio(tops, h);
    UnitDirection(g, tops / h, -tope / h);
  }

  /** It is within one turn. */
  lemma AzimuthInTurn(g: Trig, tops: real, tope: real, minus: bool)
    requires g.ArcTangent() && (tops != 0.0 || tope != 0.0)
    ensures 0.0 <= Azimuth(g, tops, tope, minus) < TWOPI
  {
    if tops != 0.0 {
      assert -PIO2 < g.atan(-tope / tops) < PIO2;
    }
  }

  /** Off due east and west the azimuth is the angle of the horizontal component, from north
      through east. */
  lemma AzimuthNames(g: Trig, tops: real, tope: real, minus: bool, h: real)
    requires AngleLaws(g) && tops != 0.0 && h > 0.0 && Sqr(h) == Sqr(tops) + Sqr(tope)
    ensures var az := Azimuth(g, tops, tope, minus); g.cos(az) == -tops / h && g.sin(az) == tope / h
  {
    hide Sqr;
    var t := g.atan(-tope / tops);
    assert g.cos(t + TWOPI) == g.cos(t) && g.sin(t + TWOPI) == g.sin(t);
    assert g.cos(t + PI + TWOPI) == g.cos(t + PI) && g.sin(t + PI + TWOPI) == g.sin(t + PI);
    if tops < 0.0 {
      NorthArc(g, tops, tope, h);
    } else {
      SouthArc(g, tops, tope, h);
      NegatedRatio(tops, h);
      NegatedRatio(tope, h);
      assert g.cos(t + PI) == -g.cos(t) && g.sin(t + PI) == -g.sin(t);
    }
  }

  /** Due east and west it is east or west as it should be with a negative zero, and the
      other way round with a positive one. */
  lemma AzimuthAcross(g: Trig, tope: real, minus: bool, h: real)
    requires AngleLaws(g) && tope != 0.0 && h > 0.0 && Sqr(h) == Sqr(tope)
    ensures var az := Azimuth(g, 0.0, tope, minus);
            g.cos(az) == 0.0 && g.sin(az) == (if minus then tope / h else -(tope / h)) && tope / h != 0.0
  {
    RightAngles(g);
    var e := if tope > 0.0 then tope else -tope;
    SqrNegated(tope);
    OneRoot(h, e);
    NegatedRatio(h, h);
    Unscaled(h, 1.0, h);
  }

  lemma RightAngles(g: Trig)
    requires AngleLaws(g)
    ensures g.cos(RightAngle(true)) == 0.0 && g.sin(RightAngle(true)) == 1.0
    ensures g.cos(RightAngle(false)) == 0.0 && g.sin(RightAngle(false)) == -1.0
  {
    var x := PIO2 - PI;
    assert g.sin(x + TWOPI) == g.sin(x) && g.cos(x + TWOPI) == g.cos(x);
    assert x + TWOPI == TWOPI - PIO2;
  }

  /** So exactly when the azimuth is right. */
  lemma AzimuthIff(g: Trig, tops: real, tope: real, minus: bool, h: real)
    requires AngleLaws(g) && (tops != 0.0 || tope != 0.0) && h > 0.0 && Sqr(h) == Sqr(tops) + Sqr(tope)
    ensures var az := Azimuth(g, tops, tope, minus);
            g.cos(az) == -tops / h && g.sin(az) == tope / h <==> tops != 0.0 || minus
  {
    hide Azimuth;
    if tops != 0.0 {
      AzimuthNames(g, tops, tope, minus, h);
    } else {
      AzimuthAcross(g, tope, minus, h);
      NegatedRatio(tops, h);
      assert 0.0 / h == 0.0;
    }
  }

  /** The horizontal direction of a component with the sides exchanged where they are. */
  function Eastward(tops: real, tope: real, minus: bool): real {
    if tops == 0.0 && !minus then -tope else tope
  }

  lemma AzimuthAlways(g: Trig, tops: real, tope: real, minus: bool, h: real)
    requires AngleLaws(g) && (tops != 0.0 || tope != 0.0) && h > 0.0 && Sqr(h) == Sqr(tops) + Sqr(tope)
    ensures var az := Azimuth(g, tops, tope, minus);
            g.cos(az) == -tops / h && g.sin(az) == Eastward(tops, tope, minus) / h
  {
    hide Azimuth;
    if tops != 0.0 {
      AzimuthNames(g, tops, tope, minus, h);
    } else {
      AzimuthAcross(g, tope, minus, h);
      NegatedRatio(tope, h);
      assert -tops / h == 0.0;
    }
  }

  lemma RootUnique(g: Trig, x: real, r: real)
    requires g.SquareRoot() && r > 0.0 && x == Sqr(r)
    ensures g.sqrt(x) == r
  {
    SqrPositive(r);
    var q := g.sqrt(x);
    assert Sqr(q) == x;
    OneRoot(q, r);
  }

  lemma OneRoot(q: real, r: real)
    requires q >= 0.0 && r > 0.0 && Sqr(q) == Sqr(r)
    ensures q == r
  {
    hide Sqr;
    var d, s := q - r, q + r;
    SqrDifference(q, r, d, s);
    if d != 0.0 {
      Nonzero(d, s);
    }
  }

  /** The arc sine is the angle of that sine with the positive cosine. */
  lemma ArcSinNames(g: Trig, s: real, c: real)
    requires AngleLaws(g) && c > 0.0 && Sqr(c) + Sqr(s) == 1.0
    ensures g.cos(ArcSin(g, s)) == c && g.sin(ArcSin(g, s)) == s
  {
    hide ArcSin, Sqr;
    ArcSinAsArcTangent(g, s, c);
    SlopeNames(g, s / c, s, c);
  }

  lemma SlopeNames(g: Trig, m: real, s: real, c: real)
    requires AngleLaws(g) && c > 0.0 && Sqr(c) + Sqr(s) == 1.0 && m == s / c
    ensures g.cos(g.atan(m)) == c && g.sin(g.atan(m)) == s
  {
    UnitDirection(g, c, s);
  }

  lemma ArcSinAsArcTangent(g: Trig, s: real, c: real)
    requires g.SquareRoot() && c > 0.0 && Sqr(c) + Sqr(s) == 1.0
    ensures ArcSin(g, s) == g.atan(s / c)
  {
    hide Sqr, ArcSin, Abs;
    SqrPositive(c);
    SineInside(s);
    RootUnique(g, 1.0 - Sqr(s), c);
    ArcSinInside(g, s, c);
  }

  lemma SineInside(s: real)
    requires Sqr(s) < 1.0
    ensures Abs(s) < 1.0
  {
    InsideUnit(s);
  }

  lemma ArcSinInside(g: Trig, s: real, c: real)
    requires g.SquareRoot() && Abs(s) < 1.0 && c > 0.0 && g.sqrt(1.0 - Sqr(s)) == c
    ensures ArcSin(g, s) == g.atan(s / c)
  {}

  /** ArcSin of a vertical part z of a length w is the angle with that sine, above the
      horizontal part h. */
  lemma ElevationNames(g: Trig, h: real, z: real, w: real)
    requires AngleLaws(g) && h > 0.0 && w > 0.0 && Sqr(w) == Sqr(h) + Sqr(z)
    ensures g.cos(ArcSin(g, z / w)) == h / w && g.sin(ArcSin(g, z / w)) == z / w
  {
    hide ArcSin, Sqr;
    UnitPair(h, z, w);
    PositiveRatio(h, w);
    ArcSinNames(g, z / w, h / w);
  }

  lemma Chain(x: real, h: real, w: real)
    requires h != 0.0 && w != 0.0
    ensures x / h * (h / w) == x / w
  {
    var p, q := x / h, h / w;
    assert x == p * h && h == q * w;
    assert p * h == p * q * w;
  }

  /** Azimuth and elevation name the topocentric direction, up to that exchange. */
  lemma HorizontalNames(g: Trig, top: Vector, minus: bool, h: real, w: real)
    requires AngleLaws(g) && (top.x != 0.0 || top.y != 0.0) && h > 0.0 && w > 0.0
    requires Sqr(h) == Sqr(top.x) + Sqr(top.y) && Sqr(w) == Sqr(h) + Sqr(top.z)
    ensures Horizontal(g, Azimuth(g, top.x, top.y, minus), ArcSin(g, top.z / w)) ==
            Vector(top.x / w, Eastward(top.x, top.y, minus) / w, top.z / w)
  {
    hide Azimuth, ArcSin, Sqr, Eastward;
    var east := Eastward(top.x, top.y, minus);
    var az, el := Azimuth(g, top.x, top.y, minus), ArcSin(g, top.z / w);
    AzimuthAlways(g, top.x, top.y, minus, h);
    ElevationNames(g, h, top.z, w);
    Chain(top.x, h, w);
    Chain(east, h, w);
    NegatedRatio(top.x, h);
    SameProduct(-g.cos(az), top.x / h, g.cos(el), h / w);
    SameProduct(g.sin(az), east / h, g.cos(el), h / w);
  }

  lemma SameProduct(x: real, x': real, y: real, y': real)
    requires x == x' && y == y'
    ensures x * y == x' * y'
  {}

  lemma EquatorialScaled(slat: real, clat: real, sth: real, cth: real, a: Vector, b: Vector, w: real)
    requires a.x == b.x * w && a.y == b.y * w && a.z == b.z * w
    ensures var p, q := Equatorial(slat, clat, sth, cth, a), Equatorial(slat, clat, sth, cth, b);
            p.x == q.x * w && p.y == q.y * w && p.z == q.z * w
  {}

  lemma DotSquares(v: Vector)
    ensures Dot(v, v) == Sqr(v.x) + Sqr(v.y) + Sqr(v.z)
  {}

  /** The direction Calculate_RADec_and_Obs reconstructs from azimuth and elevation. */
  function Direction(g: Trig, lat: real, theta: real, az: real, el: real): Vector {
    Equatorial(g.sin(lat), g.cos(lat), g.sin(theta), g.cos(theta), Horizontal(g, az, el))
  }

  function Local(g: Trig, lat: real, theta: real, range: Vector): Vector {
    Topocentric(g.sin(lat), g.cos(lat), g.sin(theta), g.cos(theta), range)
  }

  lemma FlatPart(g: Trig, x: real, y: real) returns (h: real)
    requires g.SquareRoot() && (x != 0.0 || y != 0.0)
    ensures h > 0.0 && Sqr(h) == Sqr(x) + Sqr(y)
  {
    if x != 0.0 {
      SqrPositive(x);
      SqrNotNegative(y);
    } else {
      SqrPositive(y);
      SqrNotNegative(x);
    }
    h := g.sqrt(Sqr(x) + Sqr(y));
    RootPositive(g, Sqr(x) + Sqr(y));
  }

  /** It is the unit vector along the range wherever the azimuth is right. */
  lemma DirectionOfRange(g: Trig, lat: real, theta: real, range: Vector, minus: bool, w: real)
    requires AngleLaws(g) && w > 0.0 && Sqr(w) == Dot(range, range)
    requires var top := Local(g, lat, theta, range); top.x != 0.0 || (minus && top.y != 0.0)
    ensures var top := Local(g, lat, theta, range);
            var l := Direction(g, lat, theta, Azimuth(g, top.x, top.y, minus), ArcSin(g, top.z / w));
            range.x == l.x * w && range.y == l.y * w && range.z == l.z * w && Dot(l, l) == 1.0
  {
    hide Topocentric, Equatorial, Horizontal, Azimuth, ArcSin, Sqr, Dot;
    var slat, clat, sth, cth := g.sin(lat), g.cos(lat), g.sin(theta), g.cos(theta);
    var top := Local(g, lat, theta, range);
    TopocentricLength(slat, clat, sth, cth, range);
    ThereAndBack(slat, clat, sth, cth, range);
    DotSquares(top);
    var h := FlatPart(g, top.x, top.y);
    HorizontalNames(g, top, minus, h, w);
    var b := Vector(top.x / w, top.y / w, top.z / w);
    EquatorialScaled(slat, clat, sth, cth, top, b, w);
    UnitFromScaled(range, Equatorial(slat, clat, sth, cth, b), w);
  }

  /** Straight up and down the elevation is a right angle. */
  lemma ElevationUpright(g: Trig, z: real, w: real)
    requires g.SquareRoot() && w > 0.0 && Sqr(w) == Sqr(z)
    ensures ArcSin(g, z / w) == if z > 0.0 then PIO2 else -PIO2
  {
    var y := if z > 0.0 then z else -z;
    SqrNegated(z);
    SqrPositive(w);
    OneRoot(w, y);
    NegatedRatio(w, w);
    assert w / w == 1.0;
  }

  lemma UnitFromScaled(a: Vector, l: Vector, w: real)
    requires w > 0.0 && Sqr(w) == Dot(a, a) && a.x == l.x * w && a.y == l.y * w && a.z == l.z * w
    ensures Dot(l, l) == 1.0
  {
    hide Sqr, Dot;
    DotSquares(a);
    DotSquares(l);
    Unscaled(a.x, l.x, w);
    Unscaled(a.y, l.y, w);
    Unscaled(a.z, l.z, w);
    SqrRatio(a.x, w);
    SqrRatio(a.y, w);
    SqrRatio(a.z, w);
    Shares(Sqr(a.x), Sqr(a.y), Sqr(w));
    Shares(Sqr(a.x) + Sqr(a.y), Sqr(a.z), Sqr(w));
  }
}
