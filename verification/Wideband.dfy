/** The wideband feed of p2_emu.c: bursts of packets and the pauses between them, over sends
    any of which may be refused. */
module Wideband {
  import opened Integers
  import opened Pacing

  /** A packet that went out: its number, and the packets a burst had then. */
  datatype Packet = Packet(number: nat, frame: nat)

  function Burst(frame: nat): (b: seq<Packet>)
    ensures |b| == frame
  {
    seq(frame, i requires 0 <= i < frame => Packet(i, frame))
  }

  /** A log that is bursts numbered 0 to frame - 1, one after the other, and nothing else. */
  predicate Whole(log: seq<Packet>)
    decreases |log|
  {
    log == [] ||
    var frame, n := log[|log| - 1].frame, |log|;
    0 < frame <= n && log[n - frame..] == Burst(frame) && Whole(log[..n - frame])
  }

  predicate AllWhole(logs: seq<seq<Packet>>) {
    forall i :: 0 <= i < |logs| ==> Whole(logs[i])
  }

  /** Whole bursts and the first packets of one more. */
  predicate Mid(log: seq<Packet>, at: nat, frame: nat) {
    && at <= |log| && (at == 0 || at < frame)
    && Whole(log[..|log| - at]) && (at > 0 ==> log[|log| - at..] == Burst(frame)[..at])
  }

  /** A burst that stops in the middle is not whole. */
  lemma MidIff(log: seq<Packet>, at: nat, frame: nat)
    requires Mid(log, at, frame)
    ensures Whole(log) <==> at == 0
  {
    var n := |log|;
    if at == 0 {
      assert log[..n] == log;
    } else {
      assert log[n - 1] == log[n - at..][at - 1] == Packet(at - 1, frame);
      if 0 < frame <= n {
        assert log[n - frame..][frame - 1] == log[n - 1];
        assert Burst(frame)[frame - 1] == Packet(frame - 1, frame);
      }
    }
  }

  lemma MidNext(log: seq<Packet>, at: nat, frame: nat)
    requires Mid(log, at, frame) && at < frame
    ensures Mid(log + [Packet(at, frame)], Onward(at, frame), frame)
  {
    hide Whole, Burst;
    var next, n := log + [Packet(at, frame)], |log|;
    var base := log[..n - at];
    assert next[..n - at] == base;
    BurstGrows(at, frame);
    assert next[n - at..] == log[n - at..] + [Packet(at, frame)];
    if at + 1 == frame {
      assert next == base + Burst(frame);
      WholeGrows(base, frame);
      assert next[..n + 1] == next;
    }
  }

  lemma BurstGrows(at: nat, frame: nat)
    requires at < frame
    ensures Burst(frame)[..at] + [Packet(at, frame)] == Burst(frame)[..at + 1]
    ensures Burst(frame)[..0] == [] && Burst(frame)[..frame] == Burst(frame)
  {}

  lemma WholeGrows(base: seq<Packet>, frame: nat)
    requires frame > 0 && Whole(base)
    ensures Whole(base + Burst(frame))
  {
    var log := base + Burst(frame);
    var n := |log|;
    assert log[n - 1] == Burst(frame)[frame - 1];
    assert log[n - frame..] == Burst(frame) && log[..n - frame] == base;
  }

  function Onward(at: nat, frame: nat): nat {
    if at + 1 < frame then at + 1 else 0
  }

  // ---------- one turn ----------

  /** The place in the burst, when it is due, the packets that went out, the bursts finished,
      the sends tried in this turn, and whether the last was refused. */
  datatype Feed = Feed(at: nat, next: int, log: seq<Packet>, bursts: nat, tried: nat, refused: bool)

  /** A packet goes out. The last of a burst moves the due time. */
  function Sent(f: Feed, frame: nat, iv: int, t: int): Feed {
    var done := f.at + 1 >= frame;
    Feed(Onward(f.at, frame), if done then Resync(t, f.next + iv) else f.next, f.log + [Packet(f.at, frame)],
         if done then f.bursts + 1 else f.bursts, f.tried + 1, false)
  }

  /** Packets while a burst is due and the budget lasts, until one is refused. */
  function Run(f: Feed, frame: nat, iv: int, t: int, budget: nat, gone: nat -> bool): Feed
    decreases budget
  {
    if t < f.next || budget == 0 then f
    else if gone(f.tried) then f.(tried := f.tried + 1, refused := true)
    else Run(Sent(f, frame, iv, t), frame, iv, t, budget - 1, gone)
  }

  lemma RunStep(f: Feed, frame: nat, iv: int, t: int, budget: nat, gone: nat -> bool)
    ensures Run(f, frame, iv, t, budget, gone) ==
            if t < f.next || budget == 0 then f
            else if gone(f.tried) then f.(tried := f.tried + 1, refused := true)
            else Run(Sent(f, frame, iv, t), frame, iv, t, budget - 1, gone)
  {}

  /** No more packets than the budget. */
  lemma {:induction false} RunWithin(f: Feed, frame: nat, iv: int, t: int, budget: nat, gone: nat -> bool)
    ensures |Run(f, frame, iv, t, budget, gone).log| <= |f.log| + budget
    decreases budget
  {
    if t >= f.next && budget > 0 && !gone(f.tried) {
      RunWithin(Sent(f, frame, iv, t), frame, iv, t, budget - 1, gone);
    }
  }

  /** From the beginning of a burst a turn ends at the beginning of one, unless a send was
      refused; and what went out is whole bursts and the beginning of one more. */
  lemma {:induction false} RunWhole(f: Feed, frame: nat, iv: int, t: int, budget: nat, laps: int, gone: nat -> bool)
    requires frame > 0 && f.at < frame && Mid(f.log, f.at, frame) && !f.refused
    requires f.at > 0 ==> t >= f.next
    requires budget + f.at == Laps(laps, frame)
    ensures var f' := Run(f, frame, iv, t, budget, gone);
            Mid(f'.log, f'.at, frame) && (!f'.refused ==> f'.at == 0)
    decreases budget
  {
    hide Mid, Laps;
    if t >= f.next && budget > 0 && !gone(f.tried) {
      MidNext(f.log, f.at, frame);
      NextLap(laps - 1, frame);
      var laps' := if f.at + 1 < frame then laps else laps - 1;
      RunWhole(Sent(f, frame, iv, t), frame, iv, t, budget - 1, laps', gone);
    } else if budget == 0 {
      LapsGrow(laps, frame);
      NoLaps(laps, frame);
    }
  }

  /** A refusal is the last send of the turn, and the only one. */
  lemma {:induction false} RunTried(f: Feed, frame: nat, iv: int, t: int, budget: nat, gone: nat -> bool)
    requires !f.refused
    ensures var f' := Run(f, frame, iv, t, budget, gone); Tried(gone, f.tried, f'.tried, f'.refused)
    decreases budget
  {
    if t >= f.next && budget > 0 && !gone(f.tried) {
      RunTried(Sent(f, frame, iv, t), frame, iv, t, budget - 1, gone);
    }
  }

  /** Bursts are never ahead of one an interval: after each comes the pause. */
  lemma {:induction false} RunPaced(f: Feed, frame: nat, iv: int, t: int, budget: nat, gone: nat -> bool, t0: int)
    requires iv >= 1 && Paced(Pacer(f.next, f.bursts), t0, t, iv)
    ensures var f' := Run(f, frame, iv, t, budget, gone); Paced(Pacer(f'.next, f'.bursts), t0, t, iv)
    decreases budget
  {
    hide Span;
    if t >= f.next && budget > 0 && !gone(f.tried) {
      SpanNext(f.bursts, iv);
      RunPaced(Sent(f, frame, iv, t), frame, iv, t, budget - 1, gone, t0);
    }
  }

  // ---------- runs ----------

  /** What every step of the board keeps: without a torn burst all logs are whole and the next
      packet is numbered 0; with one, some log is not, and the stream it was torn in has
      ended. */
  ghost predicate Kept(torn: bool, past: seq<seq<Packet>>, log: seq<Packet>, at: nat, running: bool) {
    && (!torn ==> AllWhole(past) && Whole(log) && at == 0)
    && (torn ==> !AllWhole(past) || (!running && !Whole(log)))
  }

  lemma StartKeeps(torn: bool, past: seq<seq<Packet>>, log: seq<Packet>, at: nat, running: bool)
    requires Kept(torn, past, log, at, running)
    ensures Kept(torn, past + [log], [], at, true)
  {
    var more := past + [log];
    assert more[|past|] == log;
    if torn && !AllWhole(past) {
      var i :| 0 <= i < |past| && !Whole(past[i]);
      assert !Whole(more[i]);
    }
  }

  lemma TurnKeeps(torn: bool, past: seq<seq<Packet>>, f: Feed, frame: nat, iv: int, t: int, gone: nat -> bool)
    requires frame > 0 && !f.refused && Kept(torn, past, f.log, f.at, true)
    ensures var f' := Run(f, frame, iv, t, 8 * frame, gone);
            Kept(torn || (f'.refused && f'.at > 0), past, f'.log, f'.at, !f'.refused)
  {
    hide Whole, Run, Mid;
    if !torn {
      WholeMid(f.log, frame);
      EightLaps(frame);
      RunWhole(f, frame, iv, t, 8 * frame, 8, gone);
      var f' := Run(f, frame, iv, t, 8 * frame, gone);
      MidIff(f'.log, f'.at, frame);
    }
  }

  lemma WholeMid(log: seq<Packet>, frame: nat)
    requires Whole(log)
    ensures Mid(log, 0, frame)
  {
    assert log[..|log|] == log;
  }

  lemma EightLaps(frame: nat)
    ensures 8 * frame == Laps(8, frame)
  {}

  /** So over any run all logs are whole if and only if no burst was torn. */
  lemma WholeIff(torn: bool, past: seq<seq<Packet>>, log: seq<Packet>, at: nat, running: bool)
    requires Kept(torn, past, log, at, running)
    ensures AllWhole(past + [log]) <==> !torn
  {
    var logs := past + [log];
    assert logs[|past|] == log;
    if torn && !AllWhole(past) {
      var i :| 0 <= i < |past| && !Whole(past[i]);
      assert !Whole(logs[i]);
    }
  }
}
