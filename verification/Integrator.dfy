/**
 The resonance integrator of Deep() in sgp4sdp4.c as mathematics: one step of 720
 minutes, the state k steps from epoch, and what one dpsec query makes of a state.
 */
module Integrator {
  import opened Reals

  const STEPP := 720.0
  const STEPN := -720.0
  const STEP2 := 259200.0

  datatype State = State(atime: real, xli: real, xni: real)

  datatype Rates = Rates(xldot: real, xndot: real, xnddt: real)

  /** An integration: the dot terms at a state, and the state at epoch. */
  datatype Problem = Problem(rates: State -> Rates, xlamo: real, xnq: real)

  function RatesOf(p: Problem, s: State): Rates {
    p.rates(s)
  }

  /** One step of the integrator. */
  function Move(p: Problem, s: State, delt: real): State {
    var r := RatesOf(p, s);
    State(s.atime + delt,
          s.xli + r.xldot * delt + r.xndot * STEP2,
          s.xni + r.xndot * delt + r.xnddt * STEP2)
  }

  function Epoch(p: Problem): State {
    State(0.0, p.xlamo, p.xnq)
  }

  /** The state |k| steps from epoch, in the direction of k's sign. */
  function Fresh(p: Problem, k: int): State
    decreases if k < 0 then -k else k
  {
    if k == 0 then Epoch(p)
    else if k > 0 then Move(p, Fresh(p, k - 1), STEPP)
    else Move(p, Fresh(p, k + 1), STEPN)
  }

  /** The grid point a time falls to, toward the epoch. */
  function Target(t: real): int {
    Trunc(t / STEPP)
  }

  /** Steps taken toward grid point k, but an arrival at the epoch starts afresh. */
  function WalkTo(p: Problem, j: int, s: State, k: int): State
    decreases if j < k then k - j else j - k
  {
    if k == 0 then Epoch(p)
    else if j < k then WalkTo(p, j + 1, Move(p, s, STEPP), k)
    else if j > k then WalkTo(p, j - 1, Move(p, s, STEPN), k)
    else s
  }

  /** The sign tests under which a query restarts from the epoch. */
  predicate Restarts(atime: real, t: real) {
    atime == 0.0 || (t >= 0.0 && atime < 0.0) || (t < 0.0 && atime >= 0.0)
  }

  /** The integrator state a query at time t leaves, from state s at grid point j. */
  function Query(p: Problem, j: int, s: State, t: real): State {
    if Restarts(s.atime, t) then Fresh(p, Target(t)) else WalkTo(p, j, s, Target(t))
  }

  predicate OnGrid(j: int, s: State) {
    s.atime == 720.0 * j as real
  }

  lemma TargetWithin(t: real)
    ensures var a := 720.0 * Target(t) as real;
            (t >= 0.0 ==> 0.0 <= a <= t < a + 720.0) && (t < 0.0 ==> a - 720.0 < t <= a <= 0.0)
  {}

  lemma TargetIs(t: real, k: int)
    requires var a := 720.0 * k as real; (t >= 0.0 && a <= t < a + 720.0) || (t < 0.0 && a - 720.0 < t <= a)
    ensures Target(t) == k
  {
    TargetWithin(t);
  }

  lemma {:induction false} FreshOnGrid(p: Problem, k: int)
    ensures OnGrid(k, Fresh(p, k))
    decreases if k < 0 then -k else k
  {
    if k > 0 {
      FreshOnGrid(p, k - 1);
    } else if k < 0 {
      FreshOnGrid(p, k + 1);
    }
  }

  /** Walking away from the epoch along fresh states stays fresh. */
  lemma {:induction false} WalkFresh(p: Problem, j: int, k: int)
    requires 0 <= j <= k || k <= j <= 0
    ensures WalkTo(p, j, Fresh(p, j), k) == Fresh(p, k)
    decreases if j < k then k - j else j - k
  {
    if k != 0 && j < k {
      WalkFresh(p, j + 1, k);
    } else if k != 0 && j > k {
      WalkFresh(p, j - 1, k);
    }
  }

  lemma {:induction false} WalkOnGrid(p: Problem, j: int, s: State, k: int)
    requires OnGrid(j, s)
    ensures OnGrid(k, WalkTo(p, j, s, k))
    decreases if j < k then k - j else j - k
  {
    if k != 0 && j < k {
      WalkOnGrid(p, j + 1, Move(p, s, STEPP), k);
    } else if k != 0 && j > k {
      WalkOnGrid(p, j - 1, Move(p, s, STEPN), k);
    }
  }

  /** A query always leaves atime at the grid point next to t on the epoch's side. */
  lemma QueryOnGrid(p: Problem, j: int, s: State, t: real)
    requires OnGrid(j, s)
    ensures OnGrid(Target(t), Query(p, j, s, t))
  {
    FreshOnGrid(p, Target(t));
    WalkOnGrid(p, j, s, Target(t));
  }
}
