/** What create_amd's settings mean: the gains place the poles of the loop at a damped oscillation
    of the asked bandwidth, and the averages fade by the asked times. */
module AmdDesign {
  import opened Amd
  import opened Demodulator
  import opened Locking
  import opened Reals

  ghost predicate ExpAt(exp: real -> real, x: real, y: real) {
    exp(x + y) == exp(x) * exp(y)
  }

  /** The laws of the exponential. */
  ghost predicate Exponential(exp: real -> real) {
    exp(0.0) == 1.0 && forall x, y :: ExpAt(exp, x, y)
  }

  /** The limits of the lock are the asked frequencies. */
  lemma LimitsMean(k: Maths, exp: real -> real, levelfade: bool, sbmode: Sideband, q: Design)
    requires q.Possible()
    ensures var c := SettingsOf(k, exp, levelfade, sbmode, q);
            && c.omegaMin * q.rate == TWOPI * q.fmin && c.omegaMax * q.rate == TWOPI * q.fmax
            && c.sbmode == sbmode && c.levelfade == levelfade
  {
    hide FirstGain, SecondGain, Memory;
    Restored(TWOPI * q.fmin, q.rate);
    Restored(TWOPI * q.fmax, q.rate);
  }

  /** After n samples an average has faded by the exponential of the time they take, in units
      of its own. */
  lemma AveragesFade(exp: real -> real, rate: real, tau: real, n: nat) returns (time: real)
    requires Exponential(exp) && rate * tau != 0.0
    ensures time * (rate * tau) == n as real && Decay(Memory(exp, rate, tau), n) == exp(-time)
  {
    hide Exponential;
    var y := 1.0 / (rate * tau);
    NegatedRatio(1.0, rate * tau);
    Restored(1.0, rate * tau);
    time := Times(n, y);
    Fades(exp, y, n);
    Regrouped(n as real, y, rate * tau);
  }

  lemma Regrouped(n: real, y: real, r: real)
    requires y * r == 1.0
    ensures n * y * r == n
  {
    assert n * y * r == n * (y * r);
  }

  lemma {:induction false} Fades(exp: real -> real, y: real, n: nat)
    requires Exponential(exp)
    ensures Decay(exp(-y), n) == exp(-Times(n, y))
    decreases n
  {
    if n == 0 {
      assert -Times(0, y) == 0.0;
    } else {
      Fades(exp, y, n - 1);
      assert ExpAt(exp, -y, -Times(n - 1, y));
      assert -y + -Times(n - 1, y) == -Times(n, y);
    }
  }

  /** A pole, at length p and the angle of cosine c and sine s, of the loop without its one
      sample of delay. */
  predicate Pole(g1: real, g2: real, p: real, c: real, s: real) {
    var re, im, d := p * c, p * s, 2.0 - g1 - g2;
    re * re - im * im - d * re + (1.0 - g1) == 0.0 && 2.0 * (re * im) - d * im == 0.0
  }

  /** The poles are those of a damped oscillation: they decay by zeta omegaN a second and turn by
      what is left of the bandwidth. */
  lemma GainsArePoles(k: Maths, exp: real -> real, q: Design) returns (decay: real, turn: real, damped: real)
    requires q.Possible() && Exponential(exp) && k.Pythagoras() && k.SquareRoot() && Sqr(q.zeta) <= 1.0
    ensures decay * q.rate == q.omegaN * q.zeta && turn * q.rate == q.omegaN * damped
    ensures damped >= 0.0 && Sqr(q.zeta) + Sqr(damped) == 1.0
    ensures Pole(FirstGain(exp, q), SecondGain(k, exp, q), exp(-decay), k.cos(turn), k.sin(turn))
  {
    hide Exponential, Maths.Pythagoras, Maths.SquareRoot, Pole, Sqr, FirstGain, SecondGain, Damping, Turning;
    damped := Damped(k, q.zeta);
    decay, turn := Damping(q), Turning(k, q);
    DampingIs(q);
    TurningIs(k, q, damped);
    GainsAre(k, exp, q, decay, turn);
    UnitTurn(k, turn);
    PolesAre(exp(-decay), k.cos(turn), k.sin(turn), FirstGain(exp, q), SecondGain(k, exp, q));
  }

  lemma DampingIs(q: Design)
    requires q.rate != 0.0
    ensures Damping(q) * q.rate == q.omegaN * q.zeta
  {
    Restored(q.omegaN * q.zeta, q.rate);
  }

  lemma TurningIs(k: Maths, q: Design, damped: real)
    requires q.rate != 0.0 && damped == k.sqrt(1.0 - Sqr(q.zeta))
    ensures Turning(k, q) * q.rate == q.omegaN * damped
  {
    var a := q.omegaN / q.rate;
    Restored(q.omegaN, q.rate);
    assert a * damped * q.rate == a * q.rate * damped;
  }

  lemma Damped(k: Maths, zeta: real) returns (damped: real)
    requires k.SquareRoot() && Sqr(zeta) <= 1.0
    ensures damped == k.sqrt(1.0 - Sqr(zeta)) && damped >= 0.0 && Sqr(zeta) + Sqr(damped) == 1.0
  {
    damped := k.sqrt(1.0 - Sqr(zeta));
  }

  lemma UnitTurn(k: Maths, x: real)
    requires k.Pythagoras()
    ensures Sqr(k.cos(x)) + Sqr(k.sin(x)) == 1.0
  {}

  lemma GainsAre(k: Maths, exp: real -> real, q: Design, decay: real, turn: real)
    requires q.Possible() && Exponential(exp) && decay == Damping(q) && turn == Turning(k, q)
    ensures var p, g1 := exp(-decay), FirstGain(exp, q);
            g1 == 1.0 - Sqr(p) && SecondGain(k, exp, q) == 2.0 - g1 - 2.0 * (p * k.cos(turn))
  {
    hide Damping, Turning;
    assert ExpAt(exp, -decay, -decay);
    assert -decay + -decay == -2.0 * Damping(q);
  }

  lemma PolesAre(p: real, c: real, s: real, g1: real, g2: real)
    requires Sqr(c) + Sqr(s) == 1.0 && g1 == 1.0 - Sqr(p) && g2 == 2.0 - g1 - 2.0 * (p * c)
    ensures Pole(g1, g2, p, c, s)
  {
    var re, im, d := p * c, p * s, 2.0 - g1 - g2;
    assert d == 2.0 * re;
    assert re * re + im * im == p * p * (Sqr(c) + Sqr(s));
  }
}
