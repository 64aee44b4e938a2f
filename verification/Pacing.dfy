/** How the emulated boards pace a stream: a due time that moves by one interval a packet, a
    cap on what one tick may send, and a resynchronisation when too far behind. Times are
    whole microseconds. */
module Pacing {
  const RESYNC := 200000

  /** The due time of the next packet, and the packets sent since the start. */
  datatype Pacer = Pacer(next: int, sent: nat)

  function Resync(t: int, next: int): int {
    if t - next > RESYNC then t else next
  }

  function Sent(p: Pacer, t: int, interval: int): Pacer {
    Pacer(Resync(t, p.next + interval), p.sent + 1)
  }

  /** One tick: packets while one is due and the budget lasts. */
  function Tick(p: Pacer, t: int, interval: int, budget: nat): Pacer
    decreases budget
  {
    if t < p.next || budget == 0 then p else Tick(Sent(p, t, interval), t, interval, budget - 1)
  }

  lemma TickStep(p: Pacer, t: int, interval: int, budget: nat)
    ensures Tick(p, t, interval, budget)
            == if t < p.next || budget == 0 then p else Tick(Sent(p, t, interval), t, interval, budget - 1)
  {}

  /** A run of ticks. */
  function Ticks(p: Pacer, ts: seq<int>, n: nat, interval: int, budget: nat): Pacer
    requires n <= |ts|
    decreases n
  {
    if n == 0 then p else Tick(Ticks(p, ts, n - 1, interval, budget), ts[n - 1], interval, budget)
  }

  function Span(n: nat, interval: int): int {
    n * interval
  }

  lemma SpanNext(n: nat, interval: int)
    ensures Span(n + 1, interval) == Span(n, interval) + interval && Span(0, interval) == 0
  {}

  /** The due time is at least an interval a packet from the start, and the last packet was
      due before now. */
  ghost predicate Paced(p: Pacer, t0: int, t: int, interval: int) {
    && p.next >= t0 + Span(p.sent, interval)
    && (p.sent > 0 ==> t0 + Span(p.sent - 1, interval) <= t)
  }

  lemma {:induction false} TickPaced(p: Pacer, t0: int, t: int, interval: int, budget: nat)
    requires interval >= 1 && Paced(p, t0, t, interval)
    ensures Paced(Tick(p, t, interval, budget), t0, t, interval)
    decreases budget
  {
    hide Span;
    if t >= p.next && budget > 0 {
      SpanNext(p.sent, interval);
      TickPaced(Sent(p, t, interval), t0, t, interval, budget - 1);
    }
  }

  /** No more than the budget in one tick. */
  lemma {:induction false} TickWithinBudget(p: Pacer, t: int, interval: int, budget: nat)
    ensures p.sent <= Tick(p, t, interval, budget).sent <= p.sent + budget
    decreases budget
  {
    if t >= p.next && budget > 0 {
      TickWithinBudget(Sent(p, t, interval), t, interval, budget - 1);
    }
  }

  ghost predicate Forward(t0: int, ts: seq<int>) {
    forall i, j :: 0 <= i < j < |ts| ==> t0 <= ts[i] <= ts[j]
  }

  /** Over any run of a clock that does not go back, packets never outrun the interval,
      across catch-up and resynchronisation. */
  lemma {:induction false} RunPaced(t0: int, ts: seq<int>, n: nat, interval: int, budget: nat)
    requires interval >= 1 && n <= |ts| && Forward(t0, ts)
    ensures n > 0 ==> Paced(Ticks(Pacer(t0, 0), ts, n, interval, budget), t0, ts[n - 1], interval)
    decreases n
  {
    hide Tick;
    if n > 0 {
      RunPaced(t0, ts, n - 1, interval, budget);
      if n == 1 {
        SpanNext(0, interval);
      }
      TickPaced(Ticks(Pacer(t0, 0), ts, n - 1, interval, budget), t0, ts[n - 1], interval, budget);
    }
  }

  lemma CountBounded(t0: int, t: int, interval: int, sent: nat)
    requires interval >= 1 && t0 <= t && (sent > 0 ==> t0 + Span(sent - 1, interval) <= t)
    ensures sent <= (t - t0) / interval + 1
  {
    if sent > 0 {
      Quotient(t - t0, sent - 1, interval);
    }
  }

  lemma Grows(n: nat, m: nat, interval: int)
    requires interval >= 1
    ensures n >= m ==> Span(n, interval) >= Span(m, interval)
  {
    if n >= m {
      assert (n - m) * interval >= 0;
      assert n * interval == m * interval + (n - m) * interval;
    }
  }

  lemma Quotient(e: nat, n: nat, interval: int)
    requires interval >= 1 && Span(n, interval) <= e
    ensures n <= e / interval
  {
    var q := e / interval;
    assert e < Span(q + 1, interval);
    Grows(n, q + 1, interval);
  }

  lemma RunBounded(t0: int, ts: seq<int>, n: nat, interval: int, budget: nat)
    requires interval >= 1 && 0 < n <= |ts| && Forward(t0, ts) && t0 <= ts[0]
    ensures Ticks(Pacer(t0, 0), ts, n, interval, budget).sent <= (ts[n - 1] - t0) / interval + 1
  {
    hide Ticks, Span;
    RunPaced(t0, ts, n, interval, budget);
    CountBounded(t0, ts[n - 1], interval, Ticks(Pacer(t0, 0), ts, n, interval, budget).sent);
  }

  // ---------- refusals ----------

  /** Sends k to k' - 1 were tried; all went out, but for the last if it was refused. */
  ghost predicate Tried(gone: nat -> bool, k: nat, k': nat, refused: bool) {
    && k <= k' && (refused ==> k < k' && gone(k' - 1))
    && forall j :: k <= j < k' && (refused ==> j < k' - 1) ==> !gone(j)
  }

  lemma TriedNone(gone: nat -> bool, k: nat)
    ensures Tried(gone, k, k, false)
  {}

  lemma TriedMore(gone: nat -> bool, k: nat, k': nat)
    requires Tried(gone, k, k', false)
    ensures Tried(gone, k, k' + 1, gone(k'))
  {}

  lemma TriedGrows(gone: nat -> bool, k: nat, k': nat, refused: bool)
    requires Tried(gone, k, k', refused)
    ensures k <= k' && (refused ==> k < k')
  {}

  lemma Refused(gone: nat -> bool, k: nat, k': nat)
    requires Tried(gone, k, k', true)
    ensures !Tried(gone, k, k', false)
  {}

  lemma TriedOn(gone: nat -> bool, k: nat, k': nat, k'': nat, refused: bool)
    requires Tried(gone, k, k', false) && Tried(gone, k', k'', refused)
    ensures Tried(gone, k, k'', refused)
  {}

  // ---------- numbers ----------

  /** The 32-bit numbers put into packets so far follow one another from 0, and so will the
      next. */
  ghost predicate Consecutive(log: seq<nat>, next: nat) {
    next == |log| % 0x1_0000_0000 && forall i :: 0 <= i < |log| ==> log[i] == i % 0x1_0000_0000
  }

  lemma ConsecutiveNext(log: seq<nat>, next: nat)
    requires Consecutive(log, next)
    ensures Consecutive(log + [next], (next + 1) % 0x1_0000_0000)
  {}

  // ---------- no packet is late while ticks come often enough ----------

  /** Exactly the packets due so far, no more and no fewer. */
  ghost predicate OnTime(p: Pacer, t0: int, t: int, interval: int) {
    p.next == t0 + Span(p.sent, interval) && t < p.next <= t + interval
  }

  /** Catching up: a backlog the budget covers, too short for a resynchronisation. */
  lemma {:induction false} CatchUp(p: Pacer, t0: int, t: int, interval: int, budget: nat)
    requires interval >= 1 && p.next == t0 + Span(p.sent, interval)
    requires p.next <= t + interval && t - p.next < Span(budget, interval) && t - p.next <= RESYNC
    ensures OnTime(Tick(p, t, interval, budget), t0, t, interval)
    decreases budget
  {
    hide Span;
    SpanNext(0, interval);
    if t >= p.next && budget > 0 {
      SpanNext(p.sent, interval);
      SpanNext(budget - 1, interval);
      CatchUp(Sent(p, t, interval), t0, t, interval, budget - 1);
    }
  }

  /** Ticks no further apart than the budget and the resynchronisation allow. */
  ghost predicate Often(t0: int, ts: seq<int>, interval: int, budget: nat) {
    && Forward(t0, ts)
    && (|ts| > 0 ==> t0 <= ts[0] && ts[0] - t0 < Span(budget, interval) && ts[0] - t0 <= RESYNC)
    && forall i :: 0 < i < |ts| ==> ts[i] - ts[i - 1] <= Span(budget, interval) && ts[i] - ts[i - 1] <= RESYNC
  }

  lemma {:induction false} RunOnTime(t0: int, ts: seq<int>, n: nat, interval: int, budget: nat)
    requires interval >= 1 && 0 < n <= |ts| && Often(t0, ts, interval, budget)
    ensures OnTime(Ticks(Pacer(t0, 0), ts, n, interval, budget), t0, ts[n - 1], interval)
    decreases n
  {
    hide Tick, Span;
    var t := ts[n - 1];
    SpanNext(0, interval);
    if n == 1 {
      assert Ticks(Pacer(t0, 0), ts, 0, interval, budget) == Pacer(t0, 0);
      CatchUp(Pacer(t0, 0), t0, t, interval, budget);
    } else {
      RunOnTime(t0, ts, n - 1, interval, budget);
      CatchUp(Ticks(Pacer(t0, 0), ts, n - 1, interval, budget), t0, t, interval, budget);
    }
  }
}
