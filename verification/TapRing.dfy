/**
 The stream tap: a ring the DSP thread overwrites without waiting (RXA.c), and the lossy
 reader that walks it (nr_offline.c).
 */
module TapRing {
  import opened Integers

  // ---------- how much of the ring a reader may hold ----------

  /** What the reader allows itself: two blocks of the ring stay clear of it, unless that
      leaves less than one. */
  function Room(cap: nat, blk: nat): int {
    if cap - 2 * blk < blk then cap else cap - 2 * blk
  }

  /** Sample s is still in the ring once wr samples have been written. */
  predicate InRing(cap: nat, wr: int, s: int) {
    wr - cap <= s < wr
  }

  /** Every sample of the last taken before w stays in the ring whatever part of two blocks
      is written meanwhile, exactly if those blocks fit beside it. */
  lemma SafeIff(cap: nat, blk: nat, w: int, taken: nat)
    requires taken > 0
    ensures (forall s, wr :: w - taken <= s < w <= wr <= w + 2 * blk ==> InRing(cap, wr, s)) <==> taken + 2 * blk <= cap
  {
    if taken + 2 * blk > cap {
      assert !InRing(cap, w + 2 * blk, w - taken);
    }
  }

  /** The reader's rule keeps to that, for every backlog, exactly if the ring has room for
      three blocks; the ring it installs for itself has eight. */
  lemma RoomSafeIff(cap: nat, blk: nat)
    requires blk > 0 && cap > 0
    ensures (forall avail: nat :: Min(avail, Room(cap, blk)) + 2 * blk <= cap) <==> cap >= 3 * blk
  {
    if cap < 3 * blk {
      var avail: nat := cap;
      assert Min(avail, Room(cap, blk)) + 2 * blk > cap;
    }
  }

  function InstalledCap(ns: nat, block: nat): nat {
    if ns + 8 * block < 4096 then 4096 else ns + 8 * block
  }

  lemma InstalledSafe(ns: nat, block: nat, avail: nat)
    ensures Min(avail, Room(InstalledCap(ns, block), block)) + 2 * block <= InstalledCap(ns, block)
  {}

  /** Nor does it ever drop a backlog of a whole run, with six blocks more. */
  lemma InstalledLossless(ns: nat, block: nat, avail: nat)
    requires avail <= ns + 6 * block
    ensures Min(avail, Room(InstalledCap(ns, block), block)) == avail
  {}

  /** It is the least ring of 4096 samples or more with room for the run and eight blocks. */
  lemma InstalledLeast(ns: nat, block: nat, cap: nat)
    ensures cap >= InstalledCap(ns, block) <==> cap >= 4096 && cap >= ns + 8 * block
  {}

  // ---------- positions ----------

  /** Where the ring keeps a sample. */
  function Slot(pos: nat, cap: nat): (slot: nat)
    requires cap > 0
    ensures slot < cap
  {
    pos % cap
  }

  lemma SlotsDiffer(a: nat, b: nat, cap: nat)
    requires a < b < a + cap
    ensures a % cap != b % cap
  {
    hide Laps;
    Euclid(a, cap);
    Euclid(b, cap);
    LapsApart(a / cap, b / cap, cap);
    LapsApart(b / cap, a / cap, cap);
  }

  lemma SlotAfter(a: nat, i: nat, cap: nat)
    requires cap > 0
    ensures a % cap + i < cap ==> (a + i) % cap == a % cap + i
    ensures cap <= a % cap + i < 2 * cap ==> (a + i) % cap == a % cap + i - cap
  {
    hide Laps;
    var q, r := a / cap, a % cap;
    Euclid(a, cap);
    if r + i < cap {
      Remainder(a + i, q, r + i, cap);
    } else if r + i < 2 * cap {
      NextLap(q, cap);
      Remainder(a + i, q + 1, r + i - cap, cap);
    }
  }

  lemma NextSlot(a: nat, i: nat, cap: nat)
    requires cap > 0 && Slot(a, cap) + i < cap
    ensures Slot(a + i, cap) == Slot(a, cap) + i
  {
    SlotAfter(a, i, cap);
  }

  /** The n numbers from a. */
  function From(a: nat, n: nat): (r: seq<nat>)
    ensures |r| == n
  {
    seq(n, i => a + i)
  }

  lemma FromJoins(a: nat, n: nat, b: nat, m: nat)
    requires b == a + n
    ensures From(a, n) + From(b, m) == From(a, n + m)
    ensures From(a, n) + [b] == From(a, n + 1)
    ensures From(a, 0) == []
  {}

  /** What fits of two runs taken one after the other is what fits of both together. */
  lemma FitsJoin(a: nat, n: nat, m: nat, free: nat)
    ensures From(a, Min(n, free)) + From(a + n, Min(m, free - Min(n, free))) == From(a, Min(n + m, free))
  {
    var k := Min(n, free);
    if k == n {
      FromJoins(a, n, a + n, Min(m, free - n));
    }
  }

  // ---------- the ring and its reader ----------

  class Tap {
    const ring: array<real>
    const tapBlk: nat
    const tapBuf: array<real>
    /** What the writer has written and what it has published. */
    var wr: nat
    var w: nat
    var tapR: nat
    var tapN: nat
    var tapDropped: nat
    /** Every sample ever written, in order. */
    ghost var sent: seq<real>
    /** The sequence numbers of the samples in tapBuf, and where the run started. */
    ghost var taken: seq<nat>
    ghost var start: nat
    ghost var discarded: nat
    /** Every sample read so far was still in the ring when it was read. */
    ghost var good: bool

    constructor (ns: nat, block: nat)
      requires ns > 0 && block > 0
      ensures Valid() && wr == w == tapR == tapN == tapDropped == start == discarded == 0 && good
      ensures ring.Length == InstalledCap(ns, block) && tapBlk == block && tapBuf.Length == ns
      ensures fresh(ring) && fresh(tapBuf)
    {
      ring := new real[InstalledCap(ns, block)](_ => 0.0);
      tapBlk := block;
      tapBuf := new real[ns](_ => 0.0);
      wr, w, tapR, tapN, tapDropped := 0, 0, 0, 0, 0;
      sent, taken, start, discarded, good := [], [], 0, 0, true;
    }

    /** The ring holds the last samples written, each in its slot. */
    ghost predicate Faithful()
      reads this`sent, ring
    {
      forall s: nat :: InRing(ring.Length, |sent|, s) ==> ring[s % ring.Length] == sent[s]
    }

    ghost predicate WriterValid()
      reads this`wr, this`w, this`sent, ring
    {
      ring.Length > 0 && ring != tapBuf && w <= wr == |sent| && Faithful()
    }

    /** What has been read so far has the places of samples of the stream before pos, in order,
        and is those samples as long as all was good; and while none was dropped or discarded,
        it is all of them from the start. */
    ghost predicate Record(pos: nat)
      reads this`tapN, this`tapDropped, this`sent, this`taken, this`start, this`discarded, this`good, tapBuf
    {
      && tapN == |taken| <= tapBuf.Length && start <= pos <= |sent|
      && (forall i :: 0 <= i < tapN ==> start <= taken[i] < pos)
      && (good ==> forall i :: 0 <= i < tapN ==> tapBuf[i] == sent[taken[i]])
      && (forall i, j :: 0 <= i < j < tapN ==> taken[i] < taken[j])
      && tapN + tapDropped + discarded == pos - start
      && (tapDropped == 0 && discarded == 0 ==> forall i :: 0 <= i < tapN ==> taken[i] == start + i)
    }

    ghost predicate Valid()
      reads this, ring, tapBuf
    {
      WriterValid() && tapR <= w && Record(tapR)
    }

    // ---------- the writer ----------

    /** One sample overwrites the oldest. */
    method WriteOne(x: real)
      requires WriterValid()
      modifies this`wr, this`sent, ring
      ensures WriterValid() && sent == old(sent) + [x] && wr == old(wr) + 1
    {
      ghost var cap := ring.Length;
      forall s: nat | InRing(cap, |sent| + 1, s) && s != |sent|
        ensures s % cap != wr % cap
      {
        SlotsDiffer(s, wr, cap);
      }
      ring[wr % ring.Length] := x;
      sent := sent + [x];
      wr := wr + 1;
    }

    /** The writer as another thread sees it: any part of any blocks, published or not. */
    method Others(limit: nat)
      requires WriterValid() && wr <= limit
      modifies this`wr, this`w, this`sent, ring
      ensures WriterValid() && wr <= limit && old(w) <= w && old(sent) <= sent
    {
      var steps: nat := *;
      while steps > 0 && wr < limit
        invariant WriterValid() && wr <= limit && w == old(w) && old(sent) <= sent
      {
        var x: real := *;
        WriteOne(x);
        steps := steps - 1;
      }
      var p: nat := *;
      if w <= p <= wr {
        w := p;
      }
    }

    /** A block as xrxa copies it, in two parts where it runs over the end, and publishes
        it. Only what fits the ring is kept. */
    method WriteBlock(block: seq<real>)
      requires WriterValid() && wr == w
      modifies this`wr, this`w, this`sent, ring
      ensures WriterValid() && wr == w
      ensures sent == old(sent) + block[..Min(|block|, ring.Length)]
    {
      var cap := ring.Length;
      var n := |block|;
      if n > cap {
        n := cap;
      }
      var at := w % cap;
      var first := cap - at;
      if first > n {
        first := n;
      }
      ghost var before := sent;
      for i := 0 to first
        invariant WriterValid() && w == old(w) && sent == before + block[..i] && at == w % cap
      {
        SlotAfter(w, i, cap);
        Place(at + i, block[i]);
        assert before + block[..i + 1] == before + block[..i] + [block[i]];
      }
      for i := 0 to n - first
        invariant WriterValid() && w == old(w) && sent == before + block[..first + i] && at == w % cap
      {
        SlotAfter(w, first + i, cap);
        Place(i, block[first + i]);
        assert before + block[..first + i + 1] == before + block[..first + i] + [block[first + i]];
      }
      w := w + n;
    }

    /** One sample of a memcpy, at the slot of its sequence number. */
    method Place(slot: nat, x: real)
      requires WriterValid() && slot == wr % ring.Length
      modifies this`wr, this`sent, ring
      ensures WriterValid() && sent == old(sent) + [x] && wr == old(wr) + 1
    {
      WriteOne(x);
    }

    // ---------- the reader ----------

    /** A run starts where the writer is. */
    method Restart()
      requires Valid()
      modifies this`tapR, this`tapN, this`tapDropped, this`taken, this`start, this`discarded, this`good
      ensures Valid() && tapR == start == w && tapN == tapDropped == discarded == 0 && good
    {
      tapN, tapDropped, tapR := 0, 0, w;
      taken, start, discarded, good := [], w, 0, true;
    }

    /** tap_drain, with the writer free to write up to two blocks beyond the count the
        drain starts from: it is then at most one whole block further and inside the next.
        It takes the newest samples its rule leaves it, drops the rest, and ends at the
        count it read. None is overwritten before it is read if two blocks fit beside them. */
    method Drain()
      requires Valid() && wr <= w + tapBlk
      modifies this, ring, tapBuf
      ensures Valid() && old(sent) <= sent && start == old(start)
      ensures tapR == old(w)
      ensures Min(old(w) - old(tapR), Room(ring.Length, tapBlk)) + 2 * tapBlk <= ring.Length ==> good == old(good)
      ensures var kept := Min(old(w) - old(tapR), Room(ring.Length, tapBlk));
              && tapDropped == old(tapDropped) + (old(w) - old(tapR) - kept)
              && var n := Min(kept, tapBuf.Length - old(tapN));
                 && taken == old(taken) + From(old(w) - kept, n)
                 && discarded == old(discarded) + (kept - n)
    {
      var w0, limit := w, w + 2 * tapBlk;
      var avail: int := w0 - tapR;
      if avail <= 0 {
        FromJoins(0, 0, 0, 0);
        return;
      }
      var room := ring.Length - 2 * tapBlk;
      if room < tapBlk {
        room := ring.Length;
      }
      if avail > room {
        Forward(avail - room);
        avail := room;
      }
      Walk(avail, limit, w0);
    }

    /** The reader gives up the oldest n samples it has not read. */
    method Forward(n: nat)
      requires Valid() && tapR + n <= w && n > 0
      modifies this`tapR, this`tapDropped
      ensures Valid() && tapR == old(tapR) + n && tapDropped == old(tapDropped) + n
    {
      tapDropped := tapDropped + n;
      tapR := tapR + n;
    }

    /** The outer loop: up to the end of the ring, then from its beginning. */
    method Walk(backlog: nat, limit: nat, w0: nat)
      requires Valid() && wr <= limit && w0 == w && backlog == w0 - tapR && tapN <= tapBuf.Length
      modifies this, ring, tapBuf
      ensures Valid() && old(sent) <= sent && start == old(start) && tapDropped == old(tapDropped)
      ensures tapR == w0
      ensures limit <= old(tapR) + ring.Length ==> good == old(good)
      ensures var n := Min(backlog, tapBuf.Length - old(tapN));
              taken == old(taken) + From(old(tapR), n) && discarded == old(discarded) + (backlog - n)
    {
      hide From, Slot, Tap.Record, Tap.Faithful;
      var avail := backlog;
      ghost var from, free := tapR, tapBuf.Length - tapN;
      ghost var safe := limit <= from + ring.Length;
      FromJoins(from, 0, from, 0);
      while avail > 0
        invariant WriterValid() && old(sent) <= sent && wr <= limit && w0 <= w
        invariant start == old(start) && tapDropped == old(tapDropped)
        invariant 0 <= avail == w0 - tapR && from <= tapR && Record(tapR) && tapN <= tapBuf.Length
        invariant safe ==> good == old(good)
        invariant tapN == old(tapN) + Min(tapR - from, free)
        invariant taken == old(taken) + From(from, Min(tapR - from, free))
        invariant discarded == old(discarded) + (tapR - from - Min(tapR - from, free))
      {
        var idx := Slot(tapR, ring.Length);
        var n := ring.Length - idx;
        if n > avail {
          n := avail;
        }
        FitsJoin(from, tapR - from, n, free);
        Copy(idx, n, limit, w0);
        tapR := tapR + n;
        avail := avail - n;
      }
    }

    /** The inner loop: n consecutive slots, or as many as the buffer still takes. */
    method Copy(idx: nat, n: nat, limit: nat, w0: nat)
      requires WriterValid() && wr <= limit && Record(tapR) && w >= w0 && tapN <= tapBuf.Length
      requires idx == Slot(tapR, ring.Length) && idx + n <= ring.Length && tapR + n <= w0
      modifies this`wr, this`w, this`sent, this`tapN, this`taken, this`discarded, this`good, ring, tapBuf
      ensures limit <= tapR + ring.Length ==> good == old(good)
      ensures WriterValid() && wr <= limit && Record(tapR + n) && w >= w0 && old(sent) <= sent
      ensures var m := Min(n, tapBuf.Length - old(tapN));
              && tapN == old(tapN) + m
              && taken == old(taken) + From(tapR, m) && discarded == old(discarded) + (n - m)
    {
      hide From, Slot, Tap.Record, Tap.Faithful;
      FromJoins(tapR, 0, tapR, 0);
      var i := 0;
      while i < n && tapN < tapBuf.Length
        invariant i <= n && WriterValid() && wr <= limit && w >= w0 && old(sent) <= sent
        invariant limit <= tapR + ring.Length ==> good == old(good)
        invariant tapN == old(tapN) + i <= tapBuf.Length && discarded == old(discarded)
        invariant Record(tapR + i)
        invariant taken == old(taken) + From(tapR, i)
      {
        FromJoins(tapR, i, tapR + i, 0);
        NextSlot(tapR, i, ring.Length);
        TakeOne(idx + i, tapR + i, limit, w0);
        i := i + 1;
      }
      Discard(tapR + i, n - i);
    }

    /** A full buffer takes no more. */
    ghost method Discard(pos: nat, n: nat)
      requires Record(pos) && pos + n <= |sent| && (n > 0 ==> tapN == tapBuf.Length)
      modifies this`discarded
      ensures Record(pos + n) && discarded == old(discarded) + n
    {
      discarded := discarded + n;
    }

    /** One sample, read while the writer may be anywhere up to its limit. */
    method TakeOne(slot: nat, pos: nat, limit: nat, w0: nat)
      requires WriterValid() && wr <= limit && Record(pos) && pos < w0 <= w
      requires slot == Slot(pos, ring.Length) && tapN < tapBuf.Length
      modifies this`wr, this`w, this`sent, this`tapN, this`taken, this`good, ring, tapBuf
      ensures WriterValid() && wr <= limit && Record(pos + 1) && w >= w0 && old(sent) <= sent
      ensures tapN == old(tapN) + 1 && taken == old(taken) + [pos]
      ensures good == (old(good) && InRing(ring.Length, |sent|, pos))
    {
      Others(limit);
      good := good && InRing(ring.Length, |sent|, pos);
      tapBuf[tapN] := ring[slot];
      taken := taken + [pos];
      tapN := tapN + 1;
    }
  }
}
