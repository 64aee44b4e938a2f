/**
 The paced test source of soapy_null.cpp: readers that share one locked stream, release
 the lock while they wait, and hand out one continuous tone.
 */
module NullStream {
  import opened Integers
  import opened Reals

  const MTU := 2048
  const TWO_PI := 6.283185307179586

  type Positive = x: real | x > 0.0 witness 1.0

  /** The rates setSampleRate lets a channel have. */
  const LOW := 48000.0
  const HIGH := 20000000.0

  type Rate = x: real | LOW <= x <= HIGH witness LOW

  /** The library functions and settings behind a sample. */
  datatype Source = Source(cos: real -> real, sin: real -> real, step: int -> int, value: int -> real,
                           ampl: real, noise: real, toneHz: real)

  datatype Sample = Sample(i: real, q: real)

  /** What the next sample is made from. */
  datatype Gen = Gen(phase: real, rng: int)

  function Emit(s: Source, g: Gen): Sample {
    var r := s.step(g.rng);
    Sample(s.ampl * s.cos(g.phase) + s.noise * s.value(r), s.ampl * s.sin(g.phase) + s.noise * s.value(s.step(r)))
  }

  function Dphi(s: Source, rate: Rate): real {
    TWO_PI * s.toneHz / rate
  }

  function Turned(phase: real): real {
    if phase > TWO_PI then phase - TWO_PI else phase
  }

  function Advance(s: Source, g: Gen, dphi: real): Gen {
    Gen(Turned(g.phase + dphi), s.step(s.step(g.rng)))
  }

  /** The generator after a sample for each of these steps of the angle. */
  function After(s: Source, g: Gen, steps: seq<real>): Gen
    decreases |steps|
  {
    if steps == [] then g
    else Advance(s, After(s, g, steps[..|steps| - 1]), steps[|steps| - 1])
  }

  /** Those samples. */
  function Tone(s: Source, g: Gen, steps: seq<real>): (r: seq<Sample>)
    ensures |r| == |steps|
    decreases |steps|
  {
    if steps == [] then [] else Tone(s, g, steps[..|steps| - 1]) + [Emit(s, After(s, g, steps[..|steps| - 1]))]
  }

  function Same(dphi: real, n: nat): (steps: seq<real>)
    ensures |steps| == n
  {
    seq(n, _ => dphi)
  }

  lemma SameGrows(dphi: real, n: nat)
    ensures Same(dphi, n + 1)[..n] == Same(dphi, n)
  {}

  lemma {:induction false} AfterAdds(s: Source, g: Gen, a: seq<real>, b: seq<real>)
    ensures After(s, After(s, g, a), b) == After(s, g, a + b)
    decreases |b|
  {
    if b == [] {
      assert a + b == a;
    } else {
      AfterAdds(s, g, a, b[..|b| - 1]);
      assert (a + b)[..|a + b| - 1] == a + b[..|b| - 1];
    }
  }

  /** A tone handed out in two blocks is one tone, even if the rate changes between them. */
  lemma {:induction false} ToneJoins(s: Source, g: Gen, a: seq<real>, b: seq<real>)
    ensures Tone(s, g, a) + Tone(s, After(s, g, a), b) == Tone(s, g, a + b)
    decreases |b|
  {
    if b == [] {
      assert a + b == a;
    } else {
      ToneJoins(s, g, a, b[..|b| - 1]);
      AfterAdds(s, g, a, b[..|b| - 1]);
      assert (a + b)[..|a + b| - 1] == a + b[..|b| - 1];
    }
  }

  function Sum(steps: seq<real>): real
    decreases |steps|
  {
    if steps == [] then 0.0 else Sum(steps[..|steps| - 1]) + steps[|steps| - 1]
  }

  /** The phase is the exact angle of the sample, whole turns apart. */
  lemma {:induction false} PhaseIsAngle(s: Source, g: Gen, steps: seq<real>) returns (turns: nat)
    ensures After(s, g, steps).phase == g.phase + Sum(steps) - turns as real * TWO_PI
    decreases |steps|
  {
    turns := 0;
    if steps != [] {
      var rest := steps[..|steps| - 1];
      var before := PhaseIsAngle(s, g, rest);
      turns := if After(s, g, rest).phase + steps[|steps| - 1] > TWO_PI then before + 1 else before;
    }
  }

  /** One subtraction a sample is enough for steps of up to a turn. */
  lemma {:induction false} PhaseBounded(s: Source, g: Gen, steps: seq<real>)
    requires 0.0 <= g.phase <= TWO_PI && forall k :: 0 <= k < |steps| ==> 0.0 <= steps[k] <= TWO_PI
    ensures 0.0 <= After(s, g, steps).phase <= TWO_PI
    decreases |steps|
  {
    if steps != [] {
      PhaseBounded(s, g, steps[..|steps| - 1]);
    }
  }

  /** So for a tone up to the lowest rate there is. */
  lemma StepWithinTurn(s: Source, rate: Rate)
    requires 0.0 <= s.toneHz <= LOW
    ensures 0.0 <= Dphi(s, rate) <= TWO_PI
  {
    Scaled(0.0, s.toneHz, TWO_PI);
    Scaled(s.toneHz, rate, TWO_PI);
    Fraction(TWO_PI * s.toneHz, rate, TWO_PI);
  }

  lemma Fraction(x: real, y: real, turn: real)
    requires y > 0.0 && 0.0 <= x <= turn * y
    ensures 0.0 <= x / y <= turn
  {
    Shared(0.0, x, y);
    Shared(x, turn * y, y);
    Undivided(turn, y);
  }

  ghost predicate InTurn(s: Source, phase: real) {
    0.0 <= s.toneHz <= LOW ==> 0.0 <= phase <= TWO_PI
  }

  lemma BlockInTurn(s: Source, rate: Rate, g: Gen, n: nat)
    requires InTurn(s, g.phase)
    ensures InTurn(s, After(s, g, Same(Dphi(s, rate), n)).phase)
  {
    if 0.0 <= s.toneHz <= LOW {
      StepWithinTurn(s, rate);
      PhaseBounded(s, g, Same(Dphi(s, rate), n));
    }
  }

  // ---------- the signal ----------

  ghost predicate TurnAt(s: Source, x: real) {
    s.cos(x + TWO_PI) == s.cos(x) && s.sin(x + TWO_PI) == s.sin(x)
  }

  /** The functions repeat after a turn. */
  ghost predicate WholeTurn(s: Source) {
    forall x :: TurnAt(s, x)
  }

  /** The noise source after n draws. */
  function Drawn(s: Source, rng: int, n: nat): int
    decreases n
  {
    if n == 0 then rng else s.step(Drawn(s, rng, n - 1))
  }

  /** Sample k of a tone: the cosine and the sine of its angle, each with a draw of its own. */
  ghost predicate Sounds(s: Source, x: Sample, angle: real, rng: int, k: nat) {
    && x.i == s.ampl * s.cos(angle) + s.noise * s.value(Drawn(s, rng, 2 * k + 1))
    && x.q == s.ampl * s.sin(angle) + s.noise * s.value(Drawn(s, rng, 2 * k + 2))
  }

  lemma {:induction false} DrawsInTurn(s: Source, g: Gen, steps: seq<real>)
    ensures After(s, g, steps).rng == Drawn(s, g.rng, 2 * |steps|)
    decreases |steps|
  {
    if steps != [] {
      DrawsInTurn(s, g, steps[..|steps| - 1]);
    }
  }

  lemma {:induction false} TurnsBack(s: Source, x: real, turns: nat)
    requires WholeTurn(s)
    ensures s.cos(x - turns as real * TWO_PI) == s.cos(x) && s.sin(x - turns as real * TWO_PI) == s.sin(x)
    decreases turns
  {
    if turns > 0 {
      var y := x - turns as real * TWO_PI;
      assert TurnAt(s, y) && y + TWO_PI == x - (turns - 1) as real * TWO_PI;
      TurnsBack(s, x, turns - 1);
    } else {
      assert x - turns as real * TWO_PI == x;
    }
  }

  lemma EmitSounds(s: Source, g: Gen, rng: int, k: nat)
    requires g.rng == Drawn(s, rng, 2 * k)
    ensures Sounds(s, Emit(s, g), g.phase, rng, k)
  {}

  lemma {:induction false} ToneAt(s: Source, g: Gen, steps: seq<real>, k: nat)
    requires k < |steps|
    ensures Tone(s, g, steps)[k] == Emit(s, After(s, g, steps[..k]))
    decreases |steps|
  {
    hide Emit, After;
    var last := |steps| - 1;
    if k < last {
      ToneAt(s, g, steps[..last], k);
      assert steps[..last][..k] == steps[..k];
    }
  }

  /** Every sample of a tone is that of the exact angle, however many turns its phase was
      taken back. */
  lemma ToneSounds(s: Source, g: Gen, steps: seq<real>, k: nat)
    requires WholeTurn(s) && k < |steps|
    ensures Sounds(s, Tone(s, g, steps)[k], g.phase + Sum(steps[..k]), g.rng, k)
  {
    hide WholeTurn, Emit, Tone, After, Sum, Drawn, Sounds;
    ToneAt(s, g, steps, k);
    DrawsInTurn(s, g, steps[..k]);
    var at, angle := After(s, g, steps[..k]), g.phase + Sum(steps[..k]);
    EmitSounds(s, at, g.rng, k);
    var turns := PhaseIsAngle(s, g, steps[..k]);
    TurnsBack(s, angle, turns);
    SameSounds(s, Emit(s, at), at.phase, angle, g.rng, k);
  }

  lemma SameSounds(s: Source, x: Sample, phase: real, angle: real, rng: int, k: nat)
    requires Sounds(s, x, phase, rng, k) && s.cos(phase) == s.cos(angle) && s.sin(phase) == s.sin(angle)
    ensures Sounds(s, x, angle, rng, k)
  {}

  /** A block of n samples at one rate moves the angle by n samples' worth of the tone. */
  lemma {:induction false} BlockTurns(s: Source, rate: Rate, n: nat)
    ensures Sum(Same(Dphi(s, rate), n)) * rate == Times(n, TWO_PI * s.toneHz)
    decreases n
  {
    hide Dphi, Sum;
    StepKeepsTone(s, rate);
    SumSame(Dphi(s, rate), n);
    if n > 0 {
      BlockTurns(s, rate, n - 1);
      Spread(Sum(Same(Dphi(s, rate), n - 1)), Dphi(s, rate), rate);
    }
    OneMoreTime(n, TWO_PI * s.toneHz);
  }

  lemma StepKeepsTone(s: Source, rate: Rate)
    ensures Dphi(s, rate) * rate == TWO_PI * s.toneHz
  {
    Restored(TWO_PI * s.toneHz, rate);
  }

  lemma SumSame(dphi: real, n: nat)
    ensures Sum(Same(dphi, n)) == if n == 0 then 0.0 else Sum(Same(dphi, n - 1)) + dphi
  {
    if n > 0 {
      SameGrows(dphi, n - 1);
    }
  }

  lemma Spread(x: real, y: real, k: real)
    ensures (x + y) * k == x * k + y * k
  {}

  lemma OneMoreTime(n: nat, x: real)
    ensures Times(n, x) == if n == 0 then 0.0 else Times(n - 1, x) + x
  {}

  // ---------- pacing ----------

  /** The samples due after some time at a rate and a pace. */
  function Due(rate: real, pace: Positive, elapsed: real): int {
    (elapsed * rate / pace).Floor
  }

  /** Paced, the samples due are those of the rate, the last fraction of one dropped. */
  lemma DueKeepsRate(rate: real, pace: Positive, elapsed: real)
    ensures Times(Due(rate, pace, elapsed), pace) <= elapsed * rate < Times(Due(rate, pace, elapsed) + 1, pace)
  {
    FloorOfRatio(elapsed * rate, pace);
  }

  lemma DueGrows(rate: real, rate': real, pace: Positive, e: real, e': real)
    requires 0.0 <= rate <= rate' && 0.0 <= e <= e'
    ensures Due(rate, pace, e) <= Due(rate', pace, e')
  {
    Products(e, rate, e', rate');
    Shared(e * rate, e' * rate', pace);
  }

  lemma Products(x: real, y: real, x': real, y': real)
    requires 0.0 <= x <= x' && 0.0 <= y <= y'
    ensures x * y <= x' * y'
  {
    Signs(x' - x, y);
    Signs(x', y' - y);
    assert x' * y' - x * y == x' * (y' - y) + (x' - x) * y;
    if x' > 0.0 && y' > y {
      assert x' * (y' - y) > 0.0;
    }
  }

  lemma Shared(x: real, y: real, pace: Positive)
    requires x <= y
    ensures x / pace <= y / pace
  {
    Shares(x, y - x, pace);
    if x < y {
      PositiveRatio(y - x, pace);
    }
  }

  function Flat(blocks: seq<seq<Sample>>): seq<Sample>
    decreases |blocks|
  {
    if blocks == [] then [] else Flat(blocks[..|blocks| - 1]) + blocks[|blocks| - 1]
  }

  lemma FlatAdds(blocks: seq<seq<Sample>>, b: seq<Sample>)
    ensures Flat(blocks + [b]) == Flat(blocks) + b
  {
    assert (blocks + [b])[..|blocks|] == blocks;
  }

  lemma LastOfFlat(blocks: seq<seq<Sample>>, k: nat)
    requires |blocks| > 0 && k < |blocks[|blocks| - 1]|
    ensures var all, b := Flat(blocks), blocks[|blocks| - 1];
            |all| >= |b| && all[|all| - |b| + k] == b[k]
  {}

  /** An account: what was produced was handed out or thrown away, the blocks handed out
      are one tone, and the generator stands at its end. */
  ghost predicate Balanced(s: Source, first: Gen, blocks: seq<seq<Sample>>, steps: seq<real>, discarded: int,
                           produced: int, g: Gen) {
    && 0 <= discarded && produced == |steps| + discarded
    && Flat(blocks) == Tone(s, first, steps) && g == After(s, first, steps)
  }

  lemma BlockKeeps(s: Source, first: Gen, blocks: seq<seq<Sample>>, steps: seq<real>, discarded: int, produced: int,
                   g: Gen, more: seq<real>)
    requires Balanced(s, first, blocks, steps, discarded, produced, g)
    ensures Balanced(s, first, blocks + [Tone(s, g, more)], steps + more, discarded, produced + |more|,
                     After(s, g, more))
  {
    hide Tone, After;
    FlatAdds(blocks, Tone(s, g, more));
    ToneJoins(s, first, steps, more);
    AfterAdds(s, first, steps, more);
  }

  lemma DiscardKeeps(s: Source, first: Gen, blocks: seq<seq<Sample>>, steps: seq<real>, discarded: int, produced: int,
                     g: Gen, n: nat)
    requires Balanced(s, first, blocks, steps, discarded, produced, g)
    ensures Balanced(s, first, blocks, steps, discarded + n, produced + n, g)
  {
    hide Tone, After, Flat;
  }

  lemma FreshBalanced(s: Source, pace: Positive, first: Gen)
    ensures Balanced(s, first, [], [], 0, 0, first) && Due(0.0, pace, 0.0) == 0
  {}

  /** A look at the account: by which reader, at which rate and time, how many samples were
      due and how many of them had been produced. */
  datatype Glance = Glance(who: int, rate: Rate, now: real, due: int, had: int)
  {
    /** A backlog of more than half a second. */
    predicate Late() {
      due - had > (rate / 2.0).Floor
    }

    /** What it leaves for a block. */
    function Avail(): int {
      if Late() then 0 else due - had
    }
  }

  /** That is, of more than half a second's samples; so no block is longer. */
  lemma LateIff(look: Glance)
    ensures look.Late() <==> 2.0 * (look.due - look.had) as real > look.rate
    ensures 2.0 * look.Avail() as real <= look.rate
  {}

  /** Some look of this reader, from place k on, found too long a backlog. */
  predicate SawLate(looks: seq<Glance>, who: int, k: nat) {
    exists i :: k <= i < |looks| && looks[i].who == who && looks[i].Late()
  }

  // ---------- the stream ----------

  class Stream {
    const src: Source
    const pace: Positive
    var active: bool
    var t0: real
    var produced: int
    var phase: real
    var rng: int
    /** The steady clock. */
    var clock: real
    /** Since activation: every block handed out, to whichever reader, the step of the angle
        after each sample of them, the backlog thrown away, and the highest rate a reader has
        found. */
    ghost var blocks: seq<seq<Sample>>
    ghost var steps: seq<real>
    ghost var discarded: int
    ghost var top: real
    ghost var first: Gen
    /** Every look, of whichever reader. */
    ghost var looks: seq<Glance>

    constructor (src: Source, pace: Positive, now: real, seed: int)
      ensures Valid() && !active && blocks == [] && clock == now
      ensures this.src == src && this.pace == pace
    {
      this.src, this.pace := src, pace;
      active, t0, produced, phase, rng, clock := false, now, 0, 0.0, seed, now;
      blocks, steps, discarded, top, first, looks := [], [], 0, 0.0, Gen(0.0, seed), [];
      new;
      FreshBalanced(src, pace, first);
    }

    /** What every locked section keeps: the account is balanced, never ahead of the clock
        at the highest rate, and the blocks so far are one tone from the activation. */
    ghost predicate Valid()
      reads this`t0, this`produced, this`phase, this`rng, this`clock
      reads this`blocks, this`steps, this`discarded, this`top, this`first
    {
      && t0 <= clock && 0.0 <= top && produced <= Due(top, pace, clock - t0)
      && Balanced(src, first, blocks, steps, discarded, produced, Gen(phase, rng))
      && first.phase == 0.0 && InTurn(src, phase)
    }

    /** Reading the clock: time does not run backwards. */
    method Now() returns (now: real)
      requires Valid()
      modifies this`clock
      ensures Valid() && old(clock) <= clock == now
    {
      hide Due, Balanced;
      var later: real := *;
      if later >= clock {
        DueGrows(top, top, pace, clock - t0, later - t0);
        clock := later;
      }
      now := clock;
    }

    method Activate()
      requires Valid()
      modifies this`active, this`clock, this`t0, this`produced, this`phase, this`blocks, this`steps, this`discarded,
               this`top, this`first
      ensures Valid() && active && produced == 0 == discarded && blocks == [] && steps == []
      ensures old(clock) <= clock == t0
      ensures first == Gen(0.0, old(rng))
    {
      hide Due, Balanced;
      active := true;
      var now := Now();
      t0, produced, phase := now, 0, 0.0;
      blocks, steps, discarded, top, first := [], [], 0, 0.0, Gen(0.0, rng);
      FreshBalanced(src, pace, first);
    }

    method Deactivate()
      requires Valid()
      modifies this`active
      ensures Valid() && !active
    {
      active := false;
    }

    /** One look at the account, under the lock, by a reader that found this rate. A backlog
        of more than half a second is thrown away; after a fall of the rate there may be
        less than nothing due. */
    method Look(who: int, rate: Rate) returns (avail: int, late: bool, now: real)
      requires Valid()
      modifies this`clock, this`produced, this`discarded, this`top, this`looks
      ensures Valid() && old(clock) <= clock == now && top == if old(top) < rate then rate else old(top)
      ensures var look := Glance(who, rate, now, Due(rate, pace, now - t0), old(produced));
              && looks == old(looks) + [look] && late == look.Late() && avail == look.Avail()
              && produced == (if late then look.due else old(produced))
              && discarded == old(discarded) + (produced - old(produced))
      ensures produced + avail == Due(rate, pace, now - t0)
    {
      hide Due, Balanced;
      now := Now();
      DueGrows(top, if top < rate then rate else top, pace, now - t0, now - t0);
      top := if top < rate then rate else top;
      DueGrows(rate, top, pace, now - t0, now - t0);
      var due := Due(rate, pace, now - t0);
      avail := due - produced;
      late := avail > (rate / 2.0).Floor;
      looks := looks + [Glance(who, rate, now, due, produced)];
      if late {
        DiscardKeeps(src, first, blocks, steps, discarded, produced, Gen(phase, rng), avail);
        discarded := discarded + avail;
        produced := due;
        avail := 0;
      }
    }

    /** The block of a reader that found samples, still under the lock. */
    method Block(rate: Rate, n: nat) returns (buff: seq<Sample>)
      requires Valid() && rate <= top && produced + n <= Due(rate, pace, clock - t0)
      modifies this`produced, this`phase, this`rng, this`blocks, this`steps
      ensures Valid() && |buff| == n && steps == old(steps) + Same(Dphi(src, rate), n)
      ensures blocks == old(blocks) + [buff] && produced == old(produced) + n
    {
      hide Due, Balanced, Emit, Dphi, InTurn, Same, Tone, After;
      buff := [];
      ghost var g := Gen(phase, rng);
      var dphi := Dphi(src, rate);
      var i := 0;
      NoneYet(src, g, dphi);
      while i < n
        invariant blocks == old(blocks) && produced == old(produced) && steps == old(steps)
        invariant Balanced(src, first, blocks, steps, discarded, produced, g)
        invariant i <= n && buff == Tone(src, g, Same(dphi, i)) && Gen(phase, rng) == After(src, g, Same(dphi, i))
      {
        OneMore(src, g, dphi, i);
        buff := buff + [Emit(src, Gen(phase, rng))];
        phase := phase + dphi;
        if phase > TWO_PI {
          phase := phase - TWO_PI;
        }
        rng := src.step(src.step(rng));
        i := i + 1;
      }
      BlockKeeps(src, first, blocks, steps, discarded, produced, g, Same(dphi, n));
      BlockInTurn(src, rate, g, n);
      DueGrows(rate, top, pace, clock - t0, clock - t0);
      produced := produced + n;
      blocks := blocks + [buff];
      steps := steps + Same(dphi, n);
    }

    /** What was handed out and thrown away, at the pace, is no more than the rate asked for. */
    lemma Handed(rate: Rate)
      requires Valid() && produced <= Due(rate, pace, clock - t0)
      ensures produced == |steps| + discarded && Times(|steps| + discarded, pace) <= (clock - t0) * rate
    {
      hide Due, Sum, Tone, After, InTurn;
      DueKeepsRate(rate, pace, clock - t0);
      Scaled(produced as real, Due(rate, pace, clock - t0) as real, pace);
    }

    /** The last block is the tone at the angle all the samples before it add up to. */
    lemma BlockSounds(k: nat)
      requires Valid() && WholeTurn(src) && |blocks| > 0 && k < |blocks[|blocks| - 1]|
      ensures var block := blocks[|blocks| - 1];
              var at := |steps| - |block| + k;
              at >= 0 && Sounds(src, block[k], Sum(steps[..at]), first.rng, at)
    {
      hide Due, Sum, Tone, After, InTurn, WholeTurn, Sounds;
      LastOfFlat(blocks, k);
      ToneSounds(src, first, steps, |steps| - |blocks[|blocks| - 1]| + k);
    }

    /** While a reader sleeps, any locked sections of others, at any rates and in any order:
        looks and blocks of other readers, deactivation and reactivation. */
    method Others(who: int)
      requires Valid()
      modifies this
      ensures Valid() && clock >= old(clock) + 0.0005
      ensures old(looks) <= looks && forall i :: |old(looks)| <= i < |looks| ==> looks[i].who != who
    {
      hide Due, Stream.Valid, Glance.Late, Glance.Avail;
      var sections: nat := *;
      while sections > 0
        invariant Valid() && clock >= old(clock)
        invariant old(looks) <= looks && forall i :: |old(looks)| <= i < |looks| ==> looks[i].who != who
      {
        var kind: int := *;
        if kind == 0 {
          Activate();
        } else if kind == 1 {
          Deactivate();
        } else {
          var other: int, numElems: nat, rate: Rate := *, *, *;
          var avail, late, now := Look(if other == who then who + 1 else other, rate);
          if avail > 0 && active {
            var buff := Block(rate, Min(Min(avail, numElems), MTU));
          }
        }
        sections := sections - 1;
      }
      Sleep();
    }

    method Sleep()
      requires Valid()
      modifies this`clock
      ensures Valid() && clock >= old(clock) + 0.0005
    {
      hide Due, Balanced;
      DueGrows(top, top, pace, clock - t0, clock + 0.0005 - t0);
      clock := clock + 0.0005;
    }

    /** The last look, place k or later, is this reader's, and nothing has changed since but
        for its block. */
    ghost predicate LastLook(who: int, rate: Rate, k: nat)
      reads this`looks, this`clock, this`t0
    {
      |looks| > k && var look := looks[|looks| - 1];
      look == Glance(who, rate, clock, Due(rate, pace, clock - t0), look.had)
    }

    /** readStream: a block and its time stamp, or nothing because the stream is off or the
        time is up. Each wait takes some of the time, so it ends. The rate is the one its
        channel had when the call began. abrupt says that a look of this call threw a backlog
        away; the last look of a call that gives up found nothing to hand out, and that of one
        that does not, the samples of its block. */
    method Read(who: int, rate: Rate, numElems: nat, timeout: real)
      returns (buff: seq<Sample>, timedOut: bool, abrupt: bool, timeNs: int)
      requires Valid()
      modifies this
      ensures Valid() && old(clock) <= clock && old(looks) <= looks
      ensures abrupt <==> SawLate(looks, who, |old(looks)|)
      ensures timedOut && active ==>
                && clock >= old(clock) + (if timeout < 0.0 then 0.0 else timeout)
                && LastLook(who, rate, |old(looks)|) && looks[|looks| - 1].Avail() <= 0
      ensures !timedOut ==>
                && active && |blocks| > 0 && blocks[|blocks| - 1] == buff
                && LastLook(who, rate, |old(looks)|) && looks[|looks| - 1].Avail() > 0
                && |buff| == Min(Min(looks[|looks| - 1].Avail(), numElems), MTU)
                && Same(Dphi(src, rate), |buff|) == steps[|steps| - |buff|..]
                && Times(|steps| + discarded, pace) <= (clock - t0) * rate
                && timeNs == (1000000000.0 * produced as real / rate).Floor
    {
      hide Due, Stream.Valid, Dphi, Same, Glance.Late, Glance.Avail;
      buff, timedOut, abrupt, timeNs := [], true, false, 0;
      var now := Now();
      var deadline := now + if timeout < 0.0 then 0.0 else timeout;
      if !active {
        return;
      }
      while true
        invariant Valid() && active && old(clock) <= clock && old(looks) <= looks
        invariant abrupt <==> SawLate(looks, who, |old(looks)|)
        decreases ((deadline - clock) * 2000.0).Floor
      {
        ghost var seen := looks;
        var avail, late, now := Look(who, rate);
        SawMore(seen, looks, who, |old(looks)|);
        abrupt := abrupt || late;
        if avail > 0 {
          buff := Block(rate, Min(Min(avail, numElems), MTU));
          Handed(rate);
          timedOut, timeNs := false, (1000000000.0 * produced as real / rate).Floor;
          return;
        }
        if now >= deadline {
          return;
        }
        seen := looks;
        Others(who);
        SawNoMore(seen, looks, who, |old(looks)|);
        if !active {
          return;
        }
      }
    }
  }

  lemma SawMore(looks: seq<Glance>, looks': seq<Glance>, who: int, k: nat)
    requires k <= |looks| && |looks'| == |looks| + 1 && looks <= looks' && looks'[|looks|].who == who
    ensures SawLate(looks', who, k) <==> SawLate(looks, who, k) || looks'[|looks|].Late()
  {
    hide Glance.Late;
    if i :| k <= i < |looks| && looks[i].who == who && looks[i].Late() {
      assert looks'[i] == looks[i];
    }
  }

  lemma SawNoMore(looks: seq<Glance>, looks': seq<Glance>, who: int, k: nat)
    requires k <= |looks| && looks <= looks' && forall i :: |looks| <= i < |looks'| ==> looks'[i].who != who
    ensures SawLate(looks', who, k) <==> SawLate(looks, who, k)
  {
    hide Glance.Late;
    if i :| k <= i < |looks| && looks[i].who == who && looks[i].Late() {
      assert looks'[i] == looks[i];
    }
  }

  lemma NoneYet(s: Source, g: Gen, dphi: real)
    ensures Tone(s, g, Same(dphi, 0)) == [] && After(s, g, Same(dphi, 0)) == g
  {}

  lemma OneMore(s: Source, g: Gen, dphi: real, i: nat)
    ensures Tone(s, g, Same(dphi, i + 1)) == Tone(s, g, Same(dphi, i)) + [Emit(s, After(s, g, Same(dphi, i)))]
    ensures After(s, g, Same(dphi, i + 1)) == Advance(s, After(s, g, Same(dphi, i)), dphi)
  {
    SameGrows(dphi, i);
  }
}
