/**
 The collector of ft8_offline.c: it merges a published list that grows within a slot and
 starts again with the next, polling it at any times.
 */
module Collect {
  import opened Integers

  const POLLED := 64
  const CAPACITY := 512

  datatype Decode = Decode(utc: string, snr: real, dt: real, freq: real, text: string)

  /** A slot as it has been published so far. */
  datatype Slot = Slot(utc: string, list: seq<Decode>)

  function First(n: nat, s: seq<Decode>): seq<Decode> {
    s[..Min(n, |s|)]
  }

  // ---------- the collector ----------

  datatype Taken = Taken(seen: seq<Decode>, dispUtc: string, dispN: nat)

  /** One poll of a list published under a label. */
  function Poll(c: Taken, slot: Slot): Taken {
    var n := Min(POLLED, |slot.list|);
    var first := if slot.utc == c.dispUtc then c.dispN else 0;
    if n <= first || slot.utc == "" then c
    else Taken(First(CAPACITY, c.seen + slot.list[first..n]), slot.utc, n)
  }

  /** What was taken of the rest, all of it or up to the capacity. */
  lemma TakenFirst(before: seq<Decode>, some: seq<Decode>, rest: seq<Decode>)
    requires some <= rest && |before| + |some| <= CAPACITY
    requires some == rest || |before| + |some| == CAPACITY
    ensures before + some == First(CAPACITY, before + rest)
  {
    assert before + rest == (before + some) + rest[|some|..];
  }

  class Collector {
    const seen: array<Decode>
    var nSeen: nat
    var dispUtc: string
    var dispN: nat

    constructor ()
      ensures Valid() && Current() == Taken([], "", 0) && fresh(seen)
    {
      seen := new Decode[CAPACITY](_ => Decode("", 0.0, 0.0, 0.0, ""));
      nSeen, dispUtc, dispN := 0, "", 0;
    }

    ghost predicate Valid()
      reads this`nSeen
    {
      nSeen <= seen.Length == CAPACITY
    }

    ghost function Current(): Taken
      requires Valid()
      reads this, seen
    {
      Taken(seen[..nSeen], dispUtc, dispN)
    }

    /** collect, given what the decoder publishes at that moment. */
    method Take(slot: Slot)
      requires Valid()
      modifies this, seen
      ensures Valid() && Current() == Poll(old(Current()), slot)
    {
      var d, utc := First(POLLED, slot.list), slot.utc;
      var n := |d|;
      var first := if utc == dispUtc then dispN else 0;
      if n <= first || utc == "" {
        return;
      }
      dispUtc, dispN := utc, n;
      ghost var before := seen[..nSeen];
      var i := first;
      while i < n && nSeen < seen.Length
        invariant first <= i <= n && Valid() && dispUtc == utc && dispN == n
        invariant seen[..nSeen] == before + slot.list[first..i]
      {
        seen[nSeen] := d[i];
        nSeen := nSeen + 1;
        i := i + 1;
      }
      TakenFirst(before, slot.list[first..i], slot.list[first..n]);
    }
  }

  // ---------- runs ----------

  /** The decoder appends to the list of the slot or publishes the next slot; the collector
      polls. */
  datatype Event = Append(d: Decode) | Publish(utc: string) | Polled

  /** The slots so far, the last one current; how many entries of each have been taken; and
      whether each has been polled since it last grew; and the slot the collector last took
      from. */
  datatype World = World(slots: seq<Slot>, taken: seq<nat>, settled: seq<bool>, shown: nat, c: Taken)

  function Current(w: World): nat
    requires |w.slots| > 0
  {
    |w.slots| - 1
  }

  predicate Shaped(w: World) {
    |w.slots| == |w.taken| == |w.settled| > 0
  }

  predicate FreshLabel(w: World, utc: string) {
    forall k :: 0 <= k < |w.slots| ==> w.slots[k].utc != utc
  }

  /** A label is never used again. */
  predicate Allowed(w: World, e: Event) {
    e.Publish? ==> FreshLabel(w, e.utc)
  }

  function Step(w: World, e: Event): (w': World)
    requires Shaped(w) && Allowed(w, e)
    ensures Shaped(w')
  {
    var last := Current(w);
    match e
    case Append(d) =>
      w.(slots := w.slots[last := w.slots[last].(list := w.slots[last].list + [d])],
         settled := w.settled[last := false])
    case Publish(utc) =>
      World(w.slots + [Slot(utc, [])], w.taken + [0], w.settled + [false], w.shown, w.c)
    case Polled =>
      var n := if w.slots[last].utc == "" then 0 else Min(POLLED, |w.slots[last].list|);
      var c := Poll(w.c, w.slots[last]);
      World(w.slots, w.taken[last := n], w.settled[last := true],
            if c.dispUtc == w.slots[last].utc then last else w.shown, c)
  }

  predicate Legal(w: World, es: seq<Event>)
    requires Shaped(w)
    decreases |es|
  {
    es == [] || (Allowed(w, es[0]) && Legal(Step(w, es[0]), es[1..]))
  }

  function Run(w: World, es: seq<Event>): (w': World)
    requires Shaped(w) && Legal(w, es)
    ensures Shaped(w')
    decreases |es|
  {
    if es == [] then w else Run(Step(w, es[0]), es[1..])
  }

  /** Before anything is decoded: an empty list under no label. */
  function Start(): World {
    World([Slot("", [])], [0], [false], 0, Taken([], "", 0))
  }

  /** The entries taken from each slot, slot after slot. */
  function Gathered(slots: seq<Slot>, taken: seq<nat>): seq<Decode>
    requires |slots| == |taken| && forall k :: 0 <= k < |slots| ==> taken[k] <= |slots[k].list|
    decreases |slots|
  {
    if slots == [] then []
    else
      var last := |slots| - 1;
      Gathered(slots[..last], taken[..last]) + slots[last].list[..taken[last]]
  }

  ghost predicate Counted(w: World) {
    && Shaped(w)
    && (forall k :: 0 <= k < |w.slots| ==> w.taken[k] <= Min(POLLED, |w.slots[k].list|))
    && (forall j, k :: 0 <= j < k < |w.slots| ==> w.slots[j].utc != w.slots[k].utc)
    && w.slots[0].utc == "" && w.taken[0] == 0
  }

  /** What has been seen is a beginning of every slot's list, each entry once and in order,
      up to the capacity. */
  ghost predicate Merged(w: World)
    requires Counted(w)
  {
    w.c.seen == First(CAPACITY, Gathered(w.slots, w.taken))
  }

  /** The collector knows how far it is in the current slot, and that it has not begun it. */
  ghost predicate Showing(w: World)
    requires Counted(w)
  {
    var last := Current(w);
    && w.shown <= last && w.slots[w.shown].utc == w.c.dispUtc
    && (w.taken[last] > 0 ==> w.shown == last && w.c.dispN == w.taken[last])
    && (w.taken[last] == 0 && last > 0 ==> w.shown < last)
  }

  ghost predicate Complete(w: World, k: nat)
    requires Shaped(w) && k < |w.slots|
  {
    w.taken[k] == Min(POLLED, |w.slots[k].list|)
  }

  /** A slot polled since it last grew has been taken whole. */
  ghost predicate AllComplete(w: World)
    requires Counted(w)
  {
    forall k :: 0 < k < |w.slots| && w.settled[k] ==> Complete(w, k)
  }

  ghost predicate Inv(w: World) {
    Counted(w) && Merged(w) && Showing(w) && AllComplete(w)
  }

  lemma GatheredLast(slots: seq<Slot>, taken: seq<nat>)
    requires |slots| == |taken| > 0 && forall k :: 0 <= k < |slots| ==> taken[k] <= |slots[k].list|
    ensures var last := |slots| - 1;
            Gathered(slots, taken) == Gathered(slots[..last], taken[..last]) + slots[last].list[..taken[last]]
  {}

  /** Taking more of one list, cut to the capacity at each turn or once at the end. */
  lemma FirstTwice(a: seq<Decode>, b: seq<Decode>)
    ensures First(CAPACITY, First(CAPACITY, a) + b) == First(CAPACITY, a + b)
  {}

  lemma CountedKeeps(w: World, e: Event)
    requires Counted(w) && Allowed(w, e)
    ensures Counted(Step(w, e))
  {
    hide Poll;
  }

  lemma CompleteKeeps(w: World, e: Event)
    requires Counted(w) && Allowed(w, e) && AllComplete(w) && Counted(Step(w, e))
    ensures AllComplete(Step(w, e))
  {
    hide Poll;
    var w', last := Step(w, e), Current(w);
    assert last > 0 ==> w.slots[0].utc != w.slots[last].utc;
    forall k | 0 < k < |w'.slots| && w'.settled[k]
      ensures Complete(w', k)
    {
      assert k != last ==> Complete(w, k);
    }
  }

  lemma ShowingKeeps(w: World, e: Event)
    requires Counted(w) && Allowed(w, e) && Showing(w) && Counted(Step(w, e))
    ensures Showing(Step(w, e))
  {
    hide First;
    var last := Current(w);
    assert last > 0 ==> w.slots[0].utc != w.slots[last].utc;
    assert w.shown < last ==> w.slots[w.shown].utc != w.slots[last].utc;
  }

  lemma MergedKeeps(w: World, e: Event)
    requires Counted(w) && Allowed(w, e) && Merged(w) && Showing(w) && Counted(Step(w, e))
    ensures Merged(Step(w, e))
  {
    hide First, Gathered;
    var w', last := Step(w, e), Current(w);
    GatheredLast(w.slots, w.taken);
    GatheredLast(w'.slots, w'.taken);
    match e
    case Append(d) =>
      assert w'.slots[..last] == w.slots[..last];
      assert w'.slots[last].list[..w.taken[last]] == w.slots[last].list[..w.taken[last]];
    case Publish(utc) =>
      assert w'.slots[..|w.slots|] == w.slots && w'.taken[..|w.slots|] == w.taken;
      assert Gathered(w.slots, w.taken) + [] == Gathered(w.slots, w.taken);
    case Polled =>
      assert w'.taken[..last] == w.taken[..last];
      if last > 0 {
        assert w.slots[0].utc != w.slots[last].utc;
        assert w.shown < last ==> w.slots[w.shown].utc != w.slots[last].utc;
        PollTakes(w.c, w.slots[last], Gathered(w.slots[..last], w.taken[..last]), w.taken[last]);
      }
  }

  /** A poll that has taken the first k entries of a slot takes the rest of what is there. */
  lemma PollTakes(c: Taken, slot: Slot, before: seq<Decode>, k: nat)
    requires k <= Min(POLLED, |slot.list|) && slot.utc != ""
    requires if slot.utc == c.dispUtc then k == c.dispN else k == 0
    requires c.seen == First(CAPACITY, before + slot.list[..k])
    ensures Poll(c, slot).seen == First(CAPACITY, before + slot.list[..Min(POLLED, |slot.list|)])
  {
    var n := Min(POLLED, |slot.list|);
    assert before + slot.list[..k] + slot.list[k..n] == before + slot.list[..n];
    FirstTwice(before + slot.list[..k], slot.list[k..n]);
  }

  /** Every run keeps it, whatever the interleaving. */
  lemma {:induction false} RunKeeps(w: World, es: seq<Event>)
    requires Inv(w) && Legal(w, es)
    ensures Inv(Run(w, es))
    decreases |es|
  {
    hide Merged, Showing, AllComplete;
    if es != [] {
      StepKeeps(w, es[0]);
      RunKeeps(Step(w, es[0]), es[1..]);
    }
  }

  lemma StepKeeps(w: World, e: Event)
    requires Inv(w) && Allowed(w, e)
    ensures Inv(Step(w, e))
  {
    hide Counted, Merged, Showing, AllComplete, Step;
    CountedKeeps(w, e);
    CompleteKeeps(w, e);
    ShowingKeeps(w, e);
    MergedKeeps(w, e);
  }

  lemma StartInv()
    ensures Inv(Start())
  {
    GatheredLast(Start().slots, Start().taken);
  }

  /** All the lists, whole. */
  function Everything(slots: seq<Slot>): seq<Decode>
    decreases |slots|
  {
    if slots == [] then [] else Everything(slots[..|slots| - 1]) + slots[|slots| - 1].list
  }

  lemma {:induction false} GatheredEverything(slots: seq<Slot>, taken: seq<nat>)
    requires |slots| == |taken| && forall k :: 0 <= k < |slots| ==> taken[k] == |slots[k].list|
    ensures Gathered(slots, taken) == Everything(slots)
    decreases |slots|
  {
    if slots != [] {
      var last := |slots| - 1;
      GatheredEverything(slots[..last], taken[..last]);
      assert slots[last].list[..taken[last]] == slots[last].list;
    }
  }

  /** When every slot has been polled between its last entry and the next slot, and nothing
      exceeds the capacities, everything published is seen exactly once, in order. */
  lemma ExactlyOnce(es: seq<Event>)
    requires Legal(Start(), es)
    requires var w := Run(Start(), es);
             && w.slots[0].list == []
             && (forall k :: 0 < k < |w.slots| ==> w.settled[k] && |w.slots[k].list| <= POLLED)
             && |Everything(w.slots)| <= CAPACITY
    ensures var w := Run(Start(), es); w.c.seen == Everything(w.slots)
  {
    var w := Run(Start(), es);
    StartInv();
    RunKeeps(Start(), es);
    forall k | 0 <= k < |w.slots|
      ensures w.taken[k] == |w.slots[k].list|
    {
      if k > 0 {
        assert Complete(w, k);
      }
    }
    GatheredEverything(w.slots, w.taken);
  }

  /** At any time, what is seen is at most that, in the same order: every slot's part is a
      beginning of its list. */
  lemma AtMostOnce(es: seq<Event>)
    requires Legal(Start(), es)
    ensures var w := Run(Start(), es);
            && |w.taken| == |w.slots| && (forall k :: 0 <= k < |w.slots| ==> w.taken[k] <= |w.slots[k].list|)
            && w.c.seen == First(CAPACITY, Gathered(w.slots, w.taken))
  {
    StartInv();
    RunKeeps(Start(), es);
  }
}
