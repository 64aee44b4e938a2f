/**
 Runs of dpsec queries: when the integrator's memory of earlier queries can be
 seen in its answers, and when it cannot.
 */
module IntegratorRuns {
  import opened Integrator
  import opened Reals

  /** Where a run of queries leaves the integrator: its grid point, and whether it got
      there by a back-step that did not reach the epoch. */
  datatype Track = Track(j: int, stale: bool)

  function TrackQuery(before: Track, t: real): Track {
    var k := Target(t);
    if k == 0 || Restarts(720.0 * before.j as real, t) then Track(k, false)
    else if Size(k) >= Size(before.j) then Track(k, before.stale)
    else Track(k, true)
  }

  function Size(k: int): nat {
    if k < 0 then -k else k
  }

  function TrackRun(ts: seq<real>): Track {
    if ts == [] then Track(0, false) else TrackQuery(TrackRun(ts[..|ts| - 1]), ts[|ts| - 1])
  }

  /** The integrator state after dpinit and then the queries ts, in order. */
  function RunState(p: Problem, ts: seq<real>): State {
    if ts == [] then Epoch(p)
    else Query(p, TrackRun(ts[..|ts| - 1]).j, RunState(p, ts[..|ts| - 1]), ts[|ts| - 1])
  }

  /** xn, ft minutes after an integrator state. */
  function MotionAt(r: Rates, s: State, ft: real): real {
    s.xni + r.xndot * ft + r.xnddt * ft * ft * 0.5
  }

  /** xl, ft minutes after an integrator state. */
  function LongitudeAt(r: Rates, s: State, ft: real): real {
    s.xli + r.xldot * ft + r.xndot * ft * ft * 0.5
  }

  /** xn and xl as a query at t reads them off the state it leaves. */
  datatype Answer = Answer(xn: real, xl: real)

  function AnswerOf(p: Problem, s: State, t: real): Answer {
    Answer(MotionAt(RatesOf(p, s), s, t - s.atime), LongitudeAt(RatesOf(p, s), s, t - s.atime))
  }

  lemma {:induction false} RunOnGrid(p: Problem, ts: seq<real>)
    ensures OnGrid(TrackRun(ts).j, RunState(p, ts))
    decreases |ts|
  {
    if ts != [] {
      var before := ts[..|ts| - 1];
      RunOnGrid(p, before);
      QueryOnGrid(p, TrackRun(before).j, RunState(p, before), ts[|ts| - 1]);
    }
  }

  lemma RunExtends(p: Problem, ts: seq<real>, t: real)
    ensures RunState(p, ts + [t]) == Query(p, TrackRun(ts).j, RunState(p, ts), t)
    ensures TrackRun(ts + [t]) == TrackQuery(TrackRun(ts), t)
  {
    assert (ts + [t])[..|ts|] == ts;
  }

  lemma SameSide(j: int, t: real)
    requires !Restarts(720.0 * j as real, t) && Target(t) != 0
    ensures (0 < j && 0 < Target(t)) || (j < 0 && Target(t) < 0)
  {
    TargetWithin(t);
  }

  /** With no back-step since the last restart, the state is the one integrated afresh. */
  lemma {:induction false} FreshUnlessStale(p: Problem, ts: seq<real>)
    requires !TrackRun(ts).stale
    ensures RunState(p, ts) == Fresh(p, TrackRun(ts).j)
    decreases |ts|
  {
    if ts != [] {
      var before, t := ts[..|ts| - 1], ts[|ts| - 1];
      var j, k := TrackRun(before).j, Target(t);
      RunOnGrid(p, before);
      if k != 0 && !Restarts(720.0 * j as real, t) {
        SameSide(j, t);
        FreshUnlessStale(p, before);
        WalkFresh(p, j, k);
      }
    }
  }

  // ---------- a stale run can be told apart ----------

  function Power(n: nat): nat
    decreases n
  {
    if n == 0 then 1 else 2 * Power(n - 1)
  }

  lemma {:induction false} PowerLess(m: nat, n: nat)
    requires m < n
    ensures 1 <= Power(m) < Power(n)
    decreases n
  {
    if m > 0 {
      PowerLess(m - 1, n - 1);
    } else if n > 1 {
      PowerLess(0, n - 1);
    }
  }

  lemma TimesAdd(m: int, n: int, x: real)
    ensures Times(m + n, x) == Times(m, x) + Times(n, x) && Times(m - n, x) == Times(m, x) - Times(n, x)
    ensures Times(0, x) == 0.0 && Times(1, x) == x
  {}

  lemma TimesLess(m: int, n: int, x: real)
    requires x > 0.0 && m < n
    ensures Times(m, x) < Times(n, x)
  {
    assert (n - m) as real * x > 0.0;
  }

  /** Dot terms under which, whole turns from the epoch, every step forward or back moves by
      whole turns and doubles xldot, which is xni and a constant. */
  ghost predicate Doubling(p: Problem, xfact: real, turn: real) {
    && p.xnq + xfact == turn / 720.0
    && forall s: State, n: int :: s.xli == p.xlamo + Times(n, turn) ==> Doubles(p, xfact, s, n)
  }

  ghost predicate Doubles(p: Problem, xfact: real, s: State, n: int) {
    RatesOf(p, s) == RatesOfMotion(s.xni + xfact)
  }

  function RatesOfMotion(xldot: real): Rates {
    Rates(xldot, 0.0, xldot / STEP2)
  }

  /** A state after m such steps. */
  ghost predicate After(p: Problem, xfact: real, s: State, m: nat, turn: real) {
    && (exists n: int :: s.xli == p.xlamo + Times(n, turn))
    && s.xni + xfact == Times(Power(m), turn / 720.0)
  }

  lemma MoveDoubles(p: Problem, xfact: real, turn: real, s: State, m: nat, delt: real)
    requires Doubling(p, xfact, turn) && After(p, xfact, s, m, turn) && (delt == STEPP || delt == STEPN)
    ensures After(p, xfact, Move(p, s, delt), m + 1, turn)
  {
    var n: int :| s.xli == p.xlamo + Times(n, turn);
    assert Doubles(p, xfact, s, n);
    var k := Power(m);
    WholeStep(s.xni + xfact, k, turn);
    TimesAdd(n, k, turn);
    TimesAdd(k, k, turn / 720.0);
    assert Move(p, s, delt).xli == p.xlamo + Times(if delt == STEPP then n + k else n - k, turn);
  }

  lemma WholeStep(x: real, k: nat, turn: real)
    requires x == Times(k, turn / 720.0)
    ensures x * STEPP == Times(k, turn) && x * STEPN == -Times(k, turn) && x / STEP2 * STEP2 == x
  {}

  lemma {:induction false} WalkDoubles(p: Problem, xfact: real, turn: real, j: int, s: State, k: int, m: nat)
    requires Doubling(p, xfact, turn) && k != 0 && After(p, xfact, s, m, turn)
    ensures After(p, xfact, WalkTo(p, j, s, k), m + Size(k - j), turn)
    decreases Size(k - j)
  {
    hide Move, Doubling, After;
    if j < k {
      MoveDoubles(p, xfact, turn, s, m, STEPP);
      WalkDoubles(p, xfact, turn, j + 1, Move(p, s, STEPP), k, m + 1);
    } else if j > k {
      MoveDoubles(p, xfact, turn, s, m, STEPN);
      WalkDoubles(p, xfact, turn, j - 1, Move(p, s, STEPN), k, m + 1);
    }
  }

  lemma FreshDoubles(p: Problem, xfact: real, turn: real, k: int)
    requires Doubling(p, xfact, turn)
    ensures After(p, xfact, Fresh(p, k), Size(k), turn)
  {
    TimesAdd(0, 0, turn);
    TimesAdd(0, 0, turn / 720.0);
    assert Power(0) == 1;
    assert After(p, xfact, Epoch(p), 0, turn);
    if k != 0 {
      WalkFresh(p, 0, k);
      WalkDoubles(p, xfact, turn, 0, Epoch(p), k, 0);
    }
  }

  /** The steps behind the state of a run, counted by the doubling problem. */
  lemma {:induction false} StepsTaken(p: Problem, xfact: real, turn: real, ts: seq<real>) returns (m: nat)
    requires Doubling(p, xfact, turn)
    ensures After(p, xfact, RunState(p, ts), m, turn)
    ensures m >= Size(TrackRun(ts).j) && (TrackRun(ts).stale ==> m > Size(TrackRun(ts).j))
    decreases |ts|
  {
    hide Doubling, After;
    if ts == [] {
      FreshDoubles(p, xfact, turn, 0);
      m := 0;
    } else {
      var before, t := ts[..|ts| - 1], ts[|ts| - 1];
      var j, k := TrackRun(before).j, Target(t);
      RunOnGrid(p, before);
      if k == 0 || Restarts(720.0 * j as real, t) {
        m := Size(k);
        FreshDoubles(p, xfact, turn, k);
      } else {
        var n := StepsTaken(p, xfact, turn, before);
        SameSide(j, t);
        WalkDoubles(p, xfact, turn, j, RunState(p, before), k, n);
        m := Size(k - j) + n;
      }
    }
  }

  /** A stale state differs from the fresh one for such dot terms: its xni is larger. */
  lemma StaleDiffers(p: Problem, xfact: real, turn: real, ts: seq<real>)
    requires turn > 0.0 && Doubling(p, xfact, turn) && TrackRun(ts).stale
    ensures RunState(p, ts).xni > Fresh(p, TrackRun(ts).j).xni
  {
    hide Doubling;
    var m := StepsTaken(p, xfact, turn, ts);
    FreshDoubles(p, xfact, turn, TrackRun(ts).j);
    PowerLess(Size(TrackRun(ts).j), m);
    TimesLess(Power(Size(TrackRun(ts).j)), Power(m), turn / 720.0);
  }

  lemma StateWhole(p: Problem, xfact: real, turn: real, s: State, m: nat, t: real)
    requires Doubling(p, xfact, turn) && After(p, xfact, s, m, turn)
    ensures AnswerOf(p, s, t).xn == MotionAt(RatesOfMotion(s.xni + xfact), s, t - s.atime)
  {
    var n: int :| s.xli == p.xlamo + Times(n, turn);
    assert Doubles(p, xfact, s, n);
  }

  lemma MotionGrows(xfact: real, a: State, b: State, ft: real)
    requires a.xni < b.xni
    ensures MotionAt(RatesOfMotion(a.xni + xfact), a, ft) < MotionAt(RatesOfMotion(b.xni + xfact), b, ft)
  {
    var k := ft * ft * 0.5 / STEP2;
    assert ft * ft >= 0.0;
    MotionIs(xfact, a, ft, k);
    MotionIs(xfact, b, ft, k);
    assert (b.xni - a.xni) * (1.0 + k) > 0.0;
  }

  lemma MotionIs(xfact: real, s: State, ft: real, k: real)
    requires k == ft * ft * 0.5 / STEP2
    ensures MotionAt(RatesOfMotion(s.xni + xfact), s, ft) == s.xni * (1.0 + k) + xfact * k
  {}

  /** And so does the answer read off it. */
  lemma StaleAnswers(p: Problem, xfact: real, turn: real, ts: seq<real>)
    requires turn > 0.0 && Doubling(p, xfact, turn) && TrackRun(ts).stale && ts != []
    ensures var t := ts[|ts| - 1];
            AnswerOf(p, RunState(p, ts), t).xn > AnswerOf(p, RunState(p, [t]), t).xn
  {
    hide Doubling, MotionAt, LongitudeAt, AnswerOf, After, RatesOfMotion;
    var t := ts[|ts| - 1];
    var k := TrackRun(ts).j;
    var a, b := RunState(p, [t]), RunState(p, ts);
    FirstQuery(p, t);
    var m := StepsTaken(p, xfact, turn, ts);
    FreshDoubles(p, xfact, turn, k);
    StaleDiffers(p, xfact, turn, ts);
    RunOnGrid(p, ts);
    FreshOnGrid(p, k);
    StateWhole(p, xfact, turn, a, Size(k), t);
    StateWhole(p, xfact, turn, b, m, t);
    MotionGrows(xfact, a, b, t - a.atime);
  }

  /** A first query integrates afresh. */
  lemma FirstQuery(p: Problem, t: real)
    ensures RunState(p, [t]) == Fresh(p, Target(t)) && TrackRun([t]) == Track(Target(t), false)
  {
    assert [t][..0] == [];
    FreshUnlessStale(p, [t]);
  }

  // ---------- runs in one direction ----------

  /** Queries that move away from the epoch, on one side of it. */
  ghost predicate OneWay(ts: seq<real>) {
    || (forall i, k :: 0 <= i <= k < |ts| ==> 0.0 <= ts[i] <= ts[k])
    || (forall i, k :: 0 <= i <= k < |ts| ==> ts[k] <= ts[i] <= 0.0)
  }

  lemma TargetMonotone(t: real, u: real)
    requires 0.0 <= t <= u || u <= t <= 0.0
    ensures Size(Target(t)) <= Size(Target(u))
  {
    TargetWithin(t);
    TargetWithin(u);
  }

  /** Every query of a one-way run leaves the integrator as if it had been the first,
      and so gives the answer of a fresh integration. */
  lemma {:induction false} OneWayIsFresh(p: Problem, ts: seq<real>)
    requires ts != [] && OneWay(ts)
    ensures TrackRun(ts) == Track(Target(ts[|ts| - 1]), false)
    ensures var t := ts[|ts| - 1];
            AnswerOf(p, RunState(p, ts), t) == AnswerOf(p, RunState(p, [t]), t)
    decreases |ts|
  {
    var before, t := ts[..|ts| - 1], ts[|ts| - 1];
    if before != [] {
      assert forall i :: 0 <= i < |before| ==> before[i] == ts[i];
      OneWayIsFresh(p, before);
      TargetMonotone(ts[|ts| - 2], t);
    }
    FreshUnlessStale(p, ts);
    FirstQuery(p, t);
  }
}
