/** Whole numbers of real amounts, and what packets on time make of a rate. */
module PacedRates {
  import opened Pacing
  import opened Reals

  lemma Bracket(us: int, x: real, y: real, rate: real)
    requires rate > 0.0 && us as real <= x < us as real + 1.0 && x == y / rate
    ensures Times(us, rate) <= y < Times(us + 1, rate)
  {
    FloorBounds(y, rate, x, us);
  }

  lemma ZeroTimes(x: real)
    ensures Times(0, x) == 0.0
  {}

  lemma AddTimes(n: int, m: int, x: real)
    ensures Times(n + m, x) == Times(n, x) + Times(m, x)
  {}

  lemma Associate(x: real, y: real, z: real)
    ensures x * y * z == x * (y * z)
  {}

  /** The packets that went out on time are those of the rate: at the pace, their samples are
      more than the time that has passed asks for, and but for the last packet, and the
      fraction dropped from every interval, no more. */
  lemma OnTimeKeepsRate(p: Pacer, t0: int, t: int, us: int, per: nat, rate: nat, paced: real)
    requires OnTime(p, t0, t, us) && p.sent > 0 && rate > 0 && us > 1
    requires Times(us, rate as real) <= Times(per, paced) < Times(us + 1, rate as real)
    ensures Times(t - t0, rate as real) < Times(Span(p.sent, per), paced)
    ensures Times(Span(p.sent - 1, per), paced) <= Times(t - t0, rate as real) + Times(p.sent - 1, rate as real)
  {
    hide Times, Span;
    var r := rate as real;
    SpanNext(p.sent - 1, us);
    TimesGrow(t - t0, Span(p.sent, us), r);
    SpanTimes(p.sent, us, r);
    SpanTimes(p.sent, per, paced);
    LessEach(p.sent, Times(us, r), Times(per, paced));
    TimesGrow(Span(p.sent - 1, us), t - t0, r);
    SpanTimes(p.sent - 1, us, r);
    SpanTimes(p.sent - 1, per, paced);
    OneMore(us, r);
    LessEach(p.sent - 1, Times(per, paced), Times(us, r) + r);
    SpreadTimes(p.sent - 1, Times(us, r), r);
  }

  lemma TimesGrow(n: int, m: int, x: real)
    requires x > 0.0
    ensures n <= m ==> Times(n, x) <= Times(m, x)
    ensures n < m ==> Times(n, x) < Times(m, x)
  {
    if n < m {
      PositiveProduct((m - n) as real, x, (m - n) as real * x);
    }
  }

  lemma SpanTimes(n: int, m: int, x: real)
    requires n >= 0
    ensures Times(Span(n, m), x) == Times(n, Times(m, x))
  {
    assert Span(n, m) as real == n as real * m as real;
  }

  lemma LessEach(n: nat, x: real, y: real)
    requires x <= y
    ensures Times(n, x) <= Times(n, y)
  {
    if n > 0 {
      Scaled(x, y, n as real);
    }
  }

  lemma OneMore(n: int, x: real)
    ensures Times(n + 1, x) == Times(n, x) + x
  {}

  lemma SpreadTimes(n: nat, x: real, y: real)
    ensures Times(n, x + y) == Times(n, x) + Times(n, y)
  {}

  lemma Started(p: Pacer, t0: int, ts: seq<int>, us: int)
    requires us > 0 && |ts| > 0 && Often(t0, ts, us, 32) && OnTime(p, t0, ts[|ts| - 1], us)
    ensures p.sent > 0
  {
    hide Span;
    SpanNext(0, us);
    assert t0 <= ts[|ts| - 1];
  }
}
