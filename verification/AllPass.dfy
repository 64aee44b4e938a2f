/**
 The all-pass cascades of amd.c: one shift array per cascade, three slots per node, run
 in place; the recurrences they compute; and the energy they keep.
 */
module AllPass {
  import opened Reals

  /** The two previous values of every node: node 0 is the input, the last the output. */
  datatype Taps = Taps(one: seq<real>, two: seq<real>)

  predicate Fits(c: seq<real>, t: Taps) {
    |t.one| == |c| + 1 && |t.two| == |c| + 1
  }

  /** One section, from its input, its input two samples ago and its output then. */
  function Section(c: real, x: real, x2: real, y2: real): real {
    c * (x - y2) + x2
  }

  /** Node m for a new input x. */
  function Node(c: seq<real>, x: real, t: Taps, m: nat): real
    requires Fits(c, t) && m <= |c|
    decreases m
  {
    if m == 0 then x
    else Section(c[m - 1], Node(c, x, t, m - 1), t.two[m - 1], t.two[m])
  }

  function Output(c: seq<real>, x: real, t: Taps): real
    requires Fits(c, t)
  {
    Node(c, x, t, |c|)
  }

  function Next(c: seq<real>, x: real, t: Taps): (t': Taps)
    requires Fits(c, t)
    ensures Fits(c, t')
  {
    Taps(seq(|c| + 1, m requires 0 <= m <= |c| => Node(c, x, t, m)), t.one)
  }

  // ---------- the textbook recurrence ----------

  /** y_m[n] = c_m (y_{m-1}[n] - y_m[n-2]) + y_{m-1}[n-2], with y_0 the input; before the
      first sample, what the taps held. */
  function Signal(c: seq<real>, t: Taps, xs: seq<real>, m: nat, n: int): real
    requires Fits(c, t) && m <= |c| && -2 <= n < |xs|
    decreases n + 2 + m
  {
    if n == -2 then t.two[m]
    else if n == -1 then t.one[m]
    else if m == 0 then xs[n]
    else Section(c[m - 1], Signal(c, t, xs, m - 1, n), Signal(c, t, xs, m - 1, n - 2), Signal(c, t, xs, m, n - 2))
  }

  /** The taps after the first n samples. */
  function After(c: seq<real>, t: Taps, xs: seq<real>, n: nat): (t': Taps)
    requires Fits(c, t) && n <= |xs|
    ensures Fits(c, t')
    decreases n
  {
    if n == 0 then t else Next(c, xs[n - 1], After(c, t, xs, n - 1))
  }

  lemma {:induction false} TapsAreSignals(c: seq<real>, t: Taps, xs: seq<real>, m: nat, n: nat)
    requires Fits(c, t) && m <= |c| && n <= |xs|
    ensures After(c, t, xs, n).one[m] == Signal(c, t, xs, m, n - 1)
    ensures After(c, t, xs, n).two[m] == Signal(c, t, xs, m, n - 2)
    decreases n, m
  {
    hide Section;
    if n > 0 {
      TapsAreSignals(c, t, xs, m, n - 1);
      NodeIsSignal(c, t, xs, m, n - 1);
    }
  }

  /** A node for sample n, from the taps the run has left, is the textbook signal. */
  lemma {:induction false} NodeIsSignal(c: seq<real>, t: Taps, xs: seq<real>, m: nat, n: nat)
    requires Fits(c, t) && m <= |c| && n < |xs|
    ensures Node(c, xs[n], After(c, t, xs, n), m) == Signal(c, t, xs, m, n)
    decreases n, |c| + 1 + m
  {
    hide Section;
    if m > 0 {
      NodeIsSignal(c, t, xs, m - 1, n);
      TapsAreSignals(c, t, xs, m, n);
      TapsAreSignals(c, t, xs, m - 1, n);
    }
  }

  // ---------- energy ----------

  /** Every section is stable: what its energy is divided by is positive. */
  ghost predicate Stable(c: seq<real>) {
    forall m :: 0 <= m < |c| ==> -1.0 < c[m] < 1.0
  }

  function Defect(c: real): real {
    1.0 - Sqr(c)
  }

  lemma DefectPositive(c: real)
    requires -1.0 < c < 1.0
    ensures Defect(c) > 0.0
  {
    Signs(1.0 - c, 1.0 + c);
    assert Defect(c) == (1.0 - c) * (1.0 + c);
  }

  function Lag(c: real, x: real, y: real): real {
    x - c * y
  }

  /** What one section holds for one past input x and output y. */
  function Held(c: real, x: real, y: real): real
    requires -1.0 < c < 1.0
  {
    DefectPositive(c);
    Sqr(Lag(c, x, y)) / Defect(c)
  }

  lemma LagIdentity(c: real, x: real, y: real)
    ensures Sqr(Lag(c, x, y)) - Sqr(Lag(c, y, x)) == Defect(c) * (Sqr(x) - Sqr(y))
  {}

  lemma Quotients(p: real, q: real, d: real, e: real)
    requires d > 0.0 && p - q == d * e
    ensures p / d - q / d == e
  {}

  lemma HeldDifference(c: real, x: real, y: real)
    requires -1.0 < c < 1.0
    ensures Held(c, x, y) - Held(c, y, x) == Sqr(x) - Sqr(y)
  {
    hide Sqr, Defect, Lag;
    DefectPositive(c);
    LagIdentity(c, x, y);
    Quotients(Sqr(Lag(c, x, y)), Sqr(Lag(c, y, x)), Defect(c), Sqr(x) - Sqr(y));
  }

  /** One section loses nothing: what comes out and what it then holds is what went in and
      what it held. */
  lemma SectionLossless(c: real, x: real, y: real, x2: real, y2: real)
    requires -1.0 < c < 1.0 && y == Section(c, x, x2, y2)
    ensures Sqr(x) + Held(c, x2, y2) == Sqr(y) + Held(c, x, y)
  {
    hide Sqr, Defect, Section, Lag;
    Rearranged(c, x, y, x2, y2);
    HeldDifference(c, x, y);
  }

  lemma Rearranged(c: real, x: real, y: real, x2: real, y2: real)
    requires y == Section(c, x, x2, y2)
    ensures Lag(c, x2, y2) == Lag(c, y, x)
  {}

  /** What the first m sections hold. */
  ghost function Stored(c: seq<real>, t: Taps, m: nat): real
    requires Stable(c) && Fits(c, t) && m <= |c|
    decreases m
  {
    if m == 0 then 0.0
    else Stored(c, t, m - 1) + Held(c[m - 1], t.one[m - 1], t.one[m]) + Held(c[m - 1], t.two[m - 1], t.two[m])
  }

  lemma {:induction false} NodesLossless(c: seq<real>, x: real, t: Taps, m: nat)
    requires Stable(c) && Fits(c, t) && m <= |c|
    ensures Sqr(x) + Stored(c, t, m) == Sqr(Node(c, x, t, m)) + Stored(c, Next(c, x, t), m)
    decreases m
  {
    hide Held, Sqr, Section;
    if m > 0 {
      NodesLossless(c, x, t, m - 1);
      SectionLossless(c[m - 1], Node(c, x, t, m - 1), Node(c, x, t, m), t.two[m - 1], t.two[m]);
    }
  }

  /** What a whole cascade holds. */
  ghost function Kept(c: seq<real>, t: Taps): real
    requires Stable(c) && Fits(c, t)
  {
    Stored(c, t, |c|)
  }

  /** A cascade loses nothing. */
  lemma CascadeLossless(c: seq<real>, x: real, t: Taps)
    requires Stable(c) && Fits(c, t)
    ensures Sqr(x) + Kept(c, t) == Sqr(Output(c, x, t)) + Kept(c, Next(c, x, t))
  {
    NodesLossless(c, x, t, |c|);
  }

  lemma {:induction false} StoredNotNegative(c: seq<real>, t: Taps, m: nat)
    requires Stable(c) && Fits(c, t) && m <= |c|
    ensures Stored(c, t, m) >= 0.0
    decreases m
  {
    hide Held;
    if m > 0 {
      StoredNotNegative(c, t, m - 1);
      HeldNotNegative(c[m - 1], t.one[m - 1], t.one[m]);
      HeldNotNegative(c[m - 1], t.two[m - 1], t.two[m]);
    }
  }

  lemma HeldNotNegative(c: real, x: real, y: real)
    requires -1.0 < c < 1.0
    ensures Held(c, x, y) >= 0.0
  {
    hide Sqr, Defect, Lag;
    DefectPositive(c);
    SqrNotNegative(Lag(c, x, y));
  }

  // ---------- the shift array ----------

  predicate Holds(c: seq<real>, a: seq<real>) {
    |a| == 3 * |c| + 3
  }

  /** Between samples, slots 3m+1 and 3m+2 are node m's two previous values. */
  function TapsOf(c: seq<real>, a: seq<real>): (t: Taps)
    requires Holds(c, a)
    ensures Fits(c, t)
  {
    Taps(seq(|c| + 1, m requires 0 <= m <= |c| => a[3 * m + 1]),
         seq(|c| + 1, m requires 0 <= m <= |c| => a[3 * m + 2]))
  }

  /** The array after j sections have been computed in place. */
  function Staged(c: seq<real>, a: seq<real>, j: nat): (s: seq<real>)
    requires Holds(c, a) && j <= |c|
    ensures |s| == |a|
    decreases j
  {
    if j == 0 then a
    else
      var s, k := Staged(c, a, j - 1), 3 * (j - 1);
      s[k + 3 := Section(c[j - 1], s[k], s[k + 2], s[k + 5])]
  }

  /** The array once the slots above j have taken their left neighbours. */
  function Shifted(s: seq<real>, j: nat): (r: seq<real>)
    requires j < |s|
    ensures |r| == |s|
  {
    s[..j + 1] + s[j..|s| - 1]
  }

  lemma StagedStep(c: seq<real>, a: seq<real>, j: nat, s: seq<real>)
    requires Holds(c, a) && j < |c| && s == Staged(c, a, j)
    ensures var k := 3 * j;
            s[k + 3 := Section(c[j], s[k], s[k + 2], s[k + 5])] == Staged(c, a, j + 1)
  {}

  lemma ShiftedStep(s: seq<real>, j: nat, r: seq<real>)
    requires j + 1 < |s| && r == Shifted(s, j + 1)
    ensures r[j + 1 := r[j]] == Shifted(s, j)
  {}

  /** One more section writes one slot. */
  lemma StagedAt(c: seq<real>, a: seq<real>, j: nat, i: nat)
    requires Holds(c, a) && j <= |c| && i < |a|
    ensures Staged(c, a, 0) == a
    ensures j > 0 ==>
              var s, k := Staged(c, a, j - 1), 3 * (j - 1);
              Staged(c, a, j)[i] == if i == k + 3 then Section(c[j - 1], s[k], s[k + 2], s[k + 5]) else s[i]
  {
    hide Section;
  }

  lemma StagedNode(c: seq<real>, a: seq<real>, j: nat)
    requires Holds(c, a) && j <= |c|
    ensures var t := TapsOf(c, a);
            Node(c, a[0], t, j) ==
            if j == 0 then a[0]
            else Section(c[j - 1], Node(c, a[0], t, j - 1), a[3 * (j - 1) + 2], a[3 * j + 2])
  {
    hide Section;
  }

  lemma {:induction false} StagedSlots(c: seq<real>, a: seq<real>, j: nat, i: nat)
    requires Holds(c, a) && j <= |c| && i < |a|
    ensures i % 3 != 0 || i > 3 * j ==> Staged(c, a, j)[i] == a[i]
    ensures i % 3 == 0 && i <= 3 * j ==> Staged(c, a, j)[i] == Node(c, a[0], TapsOf(c, a), i / 3)
    decreases j
  {
    hide Section, Staged, Node, TapsOf;
    StagedAt(c, a, j, i);
    StagedNode(c, a, j);
    if j > 0 {
      StagedSlots(c, a, j - 1, i);
      if i == 3 * j {
        StagedSlots(c, a, j - 1, i - 3);
        StagedSlots(c, a, j - 1, i + 2);
        StagedSlots(c, a, j - 1, i - 1);
      }
    }
  }

  /** The array as one sample leaves it. */
  function Shifting(c: seq<real>, x: real, a: seq<real>): (r: seq<real>)
    requires Holds(c, a)
    ensures |r| == |a|
  {
    Shifted(Staged(c, a[0 := x], |c|), 0)
  }

  /** Staging and shifting in place is one step of the recurrence: the values shifted
      into the slots of the new nodes are overwritten before they are read. */
  lemma ShiftingIsNext(c: seq<real>, x: real, a: seq<real>)
    requires Holds(c, a)
    ensures TapsOf(c, Shifting(c, x, a)) == Next(c, x, TapsOf(c, a))
    ensures Staged(c, a[0 := x], |c|)[3 * |c|] == Output(c, x, TapsOf(c, a))
  {
    hide Staged, Node;
    var b := a[0 := x];
    var s := Staged(c, b, |c|);
    var t, t' := TapsOf(c, a), TapsOf(c, Shifting(c, x, a));
    assert TapsOf(c, b) == t;
    forall m | 0 <= m <= |c|
      ensures s[3 * m] == Node(c, x, t, m) && s[3 * m + 1] == t.one[m]
    {
      StagedSlots(c, b, |c|, 3 * m);
      StagedSlots(c, b, |c|, 3 * m + 1);
    }
    ShiftedTaps(c, s, t');
  }

  lemma ShiftedTaps(c: seq<real>, s: seq<real>, t: Taps)
    requires Holds(c, s) && t == TapsOf(c, Shifted(s, 0))
    ensures forall m :: 0 <= m <= |c| ==> t.one[m] == s[3 * m] && t.two[m] == s[3 * m + 1]
  {}
}
