/** The register and stream state machine of p2_emu.c: the main loop. */
module P2Board {
  import opened Pcm24
  import opened Pacing
  import opened P2Packet
  import opened Reals
  import Wideband

  const MIC_SAMPLES := 64
  const WB_PKT_BYTES := 1500
  const RXSPEC_SYNC_BASE := 1363
  const HP_US := 50000

  type Number = n: nat | n < 0x1_0000_0000

  datatype Port = General | RxSpec | TxSpec | HighPrio | RxAudio | TxIq

  /** A received datagram; local says whether its sender has an address of this host. */
  datatype Datagram = Datagram(port: Port, local: bool, from: int, bytes: seq<Byte>)

  // ---------- what a datagram is ----------

  predicate IsDiscovery(m: Datagram) {
    m.port == General && |m.bytes| >= 5 && m.bytes[..5] == [0, 0, 0, 0, 2]
  }

  predicate IsProtocol1(m: Datagram) {
    |m.bytes| >= 3 && m.bytes[0] == 0xEF && m.bytes[1] == 0xFE
  }

  /** The datagrams that are taken as register blocks and name the peer. */
  predicate Accepted(m: Datagram) {
    m.local && !IsDiscovery(m) && !IsProtocol1(m)
  }

  predicate IsHighPriority(m: Datagram) {
    m.port == HighPrio && |m.bytes| >= 1444
  }

  predicate RunBit(m: Datagram)
    requires IsHighPriority(m)
  {
    m.bytes[4] % 2 == 1
  }

  function Weight(d: nat): nat
    requires d < 8
  {
    [1, 2, 4, 8, 16, 32, 64, 128][d]
  }

  /** The bits of a register. */
  function Bits(b: Byte): set<nat> {
    set d: nat | d < 8 && b / Weight(d) % 2 == 1
  }

  /** Whether the last high-priority block asked to run. */
  predicate AskedToRun(heard: seq<Datagram>)
    decreases |heard|
  {
    if heard == [] then false
    else
      var m := heard[|heard| - 1];
      if IsHighPriority(m) then RunBit(m) else AskedToRun(heard[..|heard| - 1])
  }

  lemma AskedNext(heard: seq<Datagram>, m: Datagram)
    ensures AskedToRun(heard + [m]) <==> if IsHighPriority(m) then RunBit(m) else AskedToRun(heard)
  {
    hide IsHighPriority;
    assert (heard + [m])[..|heard|] == heard;
  }

  /** Block i asked, and none after it took it back. */
  predicate AskedAt(heard: seq<Datagram>, i: nat)
    requires i < |heard|
  {
    IsHighPriority(heard[i]) && RunBit(heard[i]) && forall j :: i < j < |heard| ==> NotStop(heard[j])
  }

  predicate NotStop(m: Datagram) {
    IsHighPriority(m) ==> RunBit(m)
  }

  lemma {:induction false} AskedMeans(heard: seq<Datagram>)
    ensures AskedToRun(heard) <==> exists i :: 0 <= i < |heard| && AskedAt(heard, i)
    decreases |heard|
  {
    hide IsHighPriority;
    if heard != [] {
      var last := |heard| - 1;
      var before := heard[..last];
      AskedMeans(before);
      forall i | 0 <= i < last
        ensures AskedAt(heard, i) <==> AskedAt(before, i) && NotStop(heard[last])
      {
        AskedShorter(heard, i);
      }
      assert AskedAt(heard, last) <==> IsHighPriority(heard[last]) && RunBit(heard[last]);
    }
  }

  /** Some block from this host asked, and none since took it back. */
  ghost predicate AskedHere(heard: seq<Datagram>) {
    exists i :: 0 <= i < |heard| && AskedAt(heard, i) && heard[i].local
  }

  lemma AskedByPeer(heard: seq<Datagram>)
    requires AskedToRun(heard) && forall i :: 0 <= i < |heard| ==> Accepted(heard[i])
    ensures AskedHere(heard)
  {
    AskedMeans(heard);
    var i :| 0 <= i < |heard| && AskedAt(heard, i);
    assert Accepted(heard[i]);
  }

  lemma AskedShorter(heard: seq<Datagram>, i: nat)
    requires i < |heard| - 1
    ensures AskedAt(heard, i) <==> AskedAt(heard[..|heard| - 1], i) && NotStop(heard[|heard| - 1])
  {
    hide IsHighPriority, NotStop;
    var last := |heard| - 1;
    var before := heard[..last];
    if AskedAt(before, i) && NotStop(heard[last]) {
      forall j | i < j < |heard|
        ensures NotStop(heard[j])
      {
        assert j < last ==> NotStop(before[j]);
      }
    }
    if AskedAt(heard, i) {
      forall j | i < j < last
        ensures NotStop(before[j])
      {
        assert NotStop(heard[j]);
      }
    }
  }

  // ---------- intervals ----------

  function Whole(x: real): int {
    var n := Trunc(x);
    if n < 1 then 1 else n
  }

  /** The packet interval of a DDC: half as long with a follower on board. */
  function Interval(sync: set<nat>, ddc: nat, rate: int, pace: real): (us: int)
    ensures us >= 1
  {
    Whole((IQ_SAMPLES / |Streams(sync, ddc)|) as real * 1000000.0 * pace / Rate(rate) as real)
  }

  function Intervals(sync: seq<set<nat>>, rate: seq<int>, pace: real): (r: seq<int>)
    requires |sync| == |rate| == MAX_DDC
    ensures |r| == MAX_DDC && forall d :: 0 <= d < MAX_DDC ==> r[d] >= 1
  {
    seq(MAX_DDC, d requires 0 <= d < MAX_DDC => Interval(sync[d], d, rate[d], pace))
  }

  /** The account of every DDC: since when, how many packets went out, and from which place in
      its log. */
  datatype Account = Account(since: seq<int>, count: seq<nat>, base: seq<nat>)

  /** What was built since then is what went out and, if the streams have ended, at most one
      packet that was refused. */
  ghost predicate Logged(log: seq<seq<nat>>, a: Account, on: bool) {
    && |log| == |a.base| == |a.count| == MAX_DDC
    && forall d :: 0 <= d < MAX_DDC ==>
         a.base[d] + a.count[d] <= |log[d]| <= a.base[d] + a.count[d] + (if on then 0 else 1)
  }

  lemma LoggedShape(log: seq<seq<nat>>, a: Account, on: bool)
    requires Logged(log, a, on)
    ensures |log| == |a.base| == |a.count| == MAX_DDC
  {}

  lemma LoggedStopped(log: seq<seq<nat>>, a: Account)
    requires Logged(log, a, true)
    ensures Logged(log, a, false)
  {}

  function Lengths(log: seq<seq<nat>>): (r: seq<nat>)
    ensures |r| == |log| && forall d :: 0 <= d < |log| ==> r[d] == |log[d]|
  {
    seq(|log|, d requires 0 <= d < |log| => |log[d]|)
  }

  /** The packets of all logs. */
  function Total(log: seq<seq<nat>>): nat
    decreases |log|
  {
    if log == [] then 0 else Total(log[..|log| - 1]) + |log[|log| - 1]|
  }

  /** When one log alone grows, so much does the total. */
  lemma {:induction false} TotalGrows(log: seq<seq<nat>>, log': seq<seq<nat>>, d: nat)
    requires |log| == |log'| && d < |log| && |log[d]| <= |log'[d]|
    requires forall e :: 0 <= e < |log| && e != d ==> |log[e]| == |log'[e]|
    ensures Total(log') == Total(log) + (|log'[d]| - |log[d]|)
    decreases |log|
  {
    var last := |log| - 1;
    if d == last {
      TotalSame(log[..last], log'[..last]);
    } else {
      TotalGrows(log[..last], log'[..last], d);
    }
  }

  lemma {:induction false} TotalSame(log: seq<seq<nat>>, log': seq<seq<nat>>)
    requires |log| == |log'| && forall e :: 0 <= e < |log| ==> |log[e]| == |log'[e]|
    ensures Total(log') == Total(log)
    decreases |log|
  {
    if log != [] {
      TotalSame(log[..|log| - 1], log'[..|log| - 1]);
    }
  }

  /** The sends one turn tries, in this order. */
  datatype Sends = Sends(iq: nat, status: nat, mic: nat, wide: nat)
  {
    function Upkeep(): nat {
      iq + status + mic
    }

    function All(): nat {
      Upkeep() + wide
    }
  }

  /** Status and microphone packets that went out since the last start. */
  datatype Served = Served(since: int, status: nat, mic: nat)

  /** The streams of the DDCs. */
  datatype IqState = IqState(next: seq<int>, log: seq<seq<nat>>, account: Account, stamp: seq<nat>)

  /** The samples of one stream in a packet. */
  function PerStream(sync: set<nat>, ddc: nat): (n: nat)
    ensures 0 < n <= IQ_SAMPLES
  {
    IQ_SAMPLES / |Streams(sync, ddc)|
  }

  lemma PerPacket(u: Setup, sync: set<nat>, ddc: nat)
    requires u.Valid() && u.streams == Streams(sync, ddc)
    ensures u.PerStream() == PerStream(sync, ddc)
  {}

  /** A time stamp n packets on. */
  function StampAfter(stamp: nat, n: nat, per: nat): (s: nat)
    ensures s < 0x1_0000_0000_0000_0000
  {
    (stamp + Span(n, per)) % 0x1_0000_0000_0000_0000
  }

  lemma StampsAdd(stamp: nat, m: nat, n: nat, per: nat)
    ensures StampAfter(StampAfter(stamp, m, per), n, per) == StampAfter(stamp, m + n, per)
  {
    var a, b := Span(m, per), Span(n, per);
    assert Span(m + n, per) == a + b;
    Remaindered(stamp + a, b);
  }

  lemma Remaindered(a: nat, b: nat)
    ensures (a % 0x1_0000_0000_0000_0000 + b) % 0x1_0000_0000_0000_0000 == (a + b) % 0x1_0000_0000_0000_0000
  {}

  lemma StampNext(stamp: nat, n: nat, per: nat)
    requires stamp < 0x1_0000_0000_0000_0000
    ensures StampAfter(stamp, 0, per) == stamp
    ensures StampAfter(stamp, n + 1, per) == (StampAfter(stamp, n, per) + per) % 0x1_0000_0000_0000_0000
  {
    hide Span;
    SpanNext(n, per);
    SpanNext(0, per);
  }

  /** Every DDC's time stamp has moved by the samples of the packets built for it. */
  ghost predicate Stamped(before: IqState, after: IqState, sync: seq<set<nat>>) {
    && |before.stamp| == |after.stamp| == |before.log| == |after.log| == |sync| == MAX_DDC
    && forall d :: 0 <= d < MAX_DDC ==>
         && |before.log[d]| <= |after.log[d]|
         && after.stamp[d] == StampAfter(before.stamp[d], |after.log[d]| - |before.log[d]|, PerStream(sync[d], d))
  }

  lemma StampsStay(state: IqState, sync: seq<set<nat>>)
    requires |state.stamp| == |state.log| == |sync| == MAX_DDC
    requires forall d :: 0 <= d < MAX_DDC ==> state.stamp[d] < 0x1_0000_0000_0000_0000
    ensures Stamped(state, state, sync)
  {
    hide StampAfter, PerStream;
    forall d | 0 <= d < MAX_DDC
      ensures StampAfter(state.stamp[d], 0, PerStream(sync[d], d)) == state.stamp[d]
    {
      StampNext(state.stamp[d], 0, PerStream(sync[d], d));
    }
  }

  lemma StampedOn(s0: IqState, s1: IqState, s2: IqState, sync: seq<set<nat>>, d: nat)
    requires Stamped(s0, s1, sync) && |s2.stamp| == |s2.log| == MAX_DDC && d < MAX_DDC && |s1.log[d]| <= |s2.log[d]|
    requires forall e :: 0 <= e < MAX_DDC && e != d ==> s2.log[e] == s1.log[e] && s2.stamp[e] == s1.stamp[e]
    requires s2.stamp[d] == StampAfter(s1.stamp[d], |s2.log[d]| - |s1.log[d]|, PerStream(sync[d], d))
    ensures Stamped(s0, s2, sync)
  {
    hide StampAfter, PerStream;
    StampsAdd(s0.stamp[d], |s1.log[d]| - |s0.log[d]|, |s2.log[d]| - |s1.log[d]|, PerStream(sync[d], d));
  }

  /** The status and microphone streams. */
  datatype Service = Service(nextHp: int, hpSeq: Number, nextMic: int, micSeq: Number, served: Served)

  /** The next number but n. */
  function NumberAfter(number: Number, n: nat): Number {
    (number + n) % 0x1_0000_0000
  }

  lemma NumberNext(number: Number, n: nat)
    ensures NumberAfter(number, 0) == number
    ensures NumberAfter(number, n + 1) == (NumberAfter(number, n) + 1) % 0x1_0000_0000
  {}

  /** No DDC is ahead of one packet an interval. */
  ghost predicate Budgeted(a: Account, next: seq<int>, clock: int, intervals: seq<int>) {
    && |a.since| == |a.count| == |next| == |intervals| == MAX_DDC
    && forall d :: 0 <= d < MAX_DDC ==> Paced(Pacer(next[d], a.count[d]), a.since[d], clock, intervals[d])
  }

  lemma BudgetLater(a: Account, next: seq<int>, clock: int, later: int, intervals: seq<int>)
    requires Budgeted(a, next, clock, intervals) && clock <= later
    ensures Budgeted(a, next, later, intervals)
  {
    hide Span;
  }

  /** An account starts again for a DDC whose interval or due time was set anew. */
  ghost function Recounted(a: Account, next: seq<int>, next': seq<int>, intervals: seq<int>, intervals': seq<int>,
                           log: seq<seq<nat>>): Account
    requires |a.since| == |a.count| == |a.base| == |next| == |next'| == |intervals| == |intervals'| == MAX_DDC
    requires |log| == MAX_DDC
  {
    Account(seq(MAX_DDC, d requires 0 <= d < MAX_DDC =>
                  if next[d] == next'[d] && intervals[d] == intervals'[d] then a.since[d] else next'[d]),
            seq(MAX_DDC, d requires 0 <= d < MAX_DDC =>
                  if next[d] == next'[d] && intervals[d] == intervals'[d] then a.count[d] else 0),
            seq(MAX_DDC, d requires 0 <= d < MAX_DDC =>
                  if next[d] == next'[d] && intervals[d] == intervals'[d] then a.base[d] else |log[d]|))
  }

  lemma RecountKeeps(a: Account, next: seq<int>, next': seq<int>, clock: int, intervals: seq<int>, intervals': seq<int>,
                     log: seq<seq<nat>>, on: bool)
    requires Budgeted(a, next, clock, intervals) && |next'| == |intervals'| == MAX_DDC && Logged(log, a, on)
    ensures var a' := Recounted(a, next, next', intervals, intervals', log);
            Budgeted(a', next', clock, intervals') && Logged(log, a', on)
  {
    hide Span;
    var a' := Recounted(a, next, next', intervals, intervals', log);
    forall d | 0 <= d < MAX_DDC
      ensures Paced(Pacer(next'[d], a'.count[d]), a'.since[d], clock, intervals'[d])
    {
      SpanNext(0, intervals'[d]);
      assert Paced(Pacer(next[d], a.count[d]), a.since[d], clock, intervals[d]);
    }
  }

  /** All accounts from now. */
  function FromNow(now: int, log: seq<seq<nat>>): Account {
    Account(seq(MAX_DDC, _ => now), seq(MAX_DDC, _ => 0), Lengths(log))
  }

  lemma FromNowBudgeted(now: int, log: seq<seq<nat>>, clock: int, intervals: seq<int>)
    requires |intervals| == MAX_DDC
    ensures Budgeted(FromNow(now, log), seq(MAX_DDC, _ => now), clock, intervals)
    ensures |log| == MAX_DDC ==> Logged(log, FromNow(now, log), true)
  {
    hide Span;
    forall d | 0 <= d < MAX_DDC
      ensures Paced(Pacer(now, 0), now, clock, intervals[d])
    {
      SpanNext(0, intervals[d]);
    }
  }

  function Word(hi: Byte, lo: Byte): nat {
    var n: int := hi as int * 256 + lo as int;
    n
  }

  predicate IsGeneral(m: Datagram) {
    m.port == General && |m.bytes| >= 29
  }

  predicate IsRxSpec(m: Datagram) {
    m.port == RxSpec && |m.bytes| >= 1444
  }

  /** The sync maps, ADCs and rates of a receive-specific block; a rate of zero keeps the old. */
  function Syncs(b: seq<Byte>): (r: seq<set<nat>>)
    requires |b| >= 1444
    ensures |r| == MAX_DDC
  {
    seq(MAX_DDC, d requires 0 <= d < MAX_DDC => Bits(b[RXSPEC_SYNC_BASE + d]))
  }

  function Adcs(b: seq<Byte>): (r: seq<int>)
    requires |b| >= 1444
    ensures |r| == MAX_DDC
  {
    seq(MAX_DDC, d requires 0 <= d < MAX_DDC => b[17 + 6 * d] as int)
  }

  function Rates(b: seq<Byte>, rate: seq<int>): (r: seq<int>)
    requires |b| >= 1444 && |rate| == MAX_DDC
    ensures |r| == MAX_DDC
  {
    seq(MAX_DDC, d requires 0 <= d < MAX_DDC =>
          var r := Word(b[18 + 6 * d], b[19 + 6 * d]) * 1000;
          if r > 0 then r else rate[d])
  }

  /** A DDC that is switched on is due now. */
  function SwitchedOn(next: seq<int>, was: set<nat>, en: set<nat>, now: int): (r: seq<int>)
    requires |next| == MAX_DDC
    ensures |r| == MAX_DDC
  {
    seq(MAX_DDC, d requires 0 <= d < MAX_DDC => if d in en && d !in was then now else next[d])
  }

  /** The pause between wideband bursts. */
  function WbPause(rateMs: nat, pace: real): (us: int)
    ensures us >= 1
  {
    var iv := rateMs * 1000 * Trunc(pace);
    if iv < 1 then 1 else iv
  }

  /** The wideband registers of a general block. */
  datatype WbRegisters = WbRegisters(enable: bool, samples: nat, bits: nat, rateMs: nat, frame: nat)

  function WbOf(b: seq<Byte>): WbRegisters
    requires |b| >= 29
  {
    WbRegisters(b[23] % 2 == 1, Word(b[24], b[25]), b[26], b[27], b[28])
  }

  /** The wideband registers that are streamed for. */
  predicate StreamsFor(w: WbRegisters) {
    w.enable && w.samples > 0 && w.frame > 0 && w.rateMs > 0 && w.bits == 16 && 4 + w.samples * 2 <= WB_PKT_BYTES
  }

  /** Those that ask for something of sixteen bits, up to 748 samples of which fit a datagram. */
  lemma StreamsForIff(w: WbRegisters)
    ensures StreamsFor(w) <==>
            w.enable && w.bits == 16 && 1 <= w.samples <= 748 && 1 <= w.frame && 1 <= w.rateMs
  {}

  /** What register blocks set, and the due times they reset. */
  datatype Registers = Registers(running: bool, enable: set<nat>, sync: seq<set<nat>>, adc: seq<int>, rate: seq<int>,
                                 nextIq: seq<int>, nextHp: int, nextMic: int, nextWb: int, wb: WbRegisters)

  predicate Starts(r: Registers, m: Datagram) {
    IsHighPriority(m) && RunBit(m) && !r.running
  }

  /** The registers after a block: a start makes every stream due now. */
  function Taken(r: Registers, m: Datagram, now: int): Registers
    requires |r.rate| == |r.nextIq| == MAX_DDC
  {
    if IsGeneral(m) then
      r.(wb := WbOf(m.bytes), nextWb := if WbOf(m.bytes) == r.wb then r.nextWb else now)
    else if IsRxSpec(m) then
      r.(enable := Bits(m.bytes[7]), sync := Syncs(m.bytes), adc := Adcs(m.bytes), rate := Rates(m.bytes, r.rate),
         nextIq := SwitchedOn(r.nextIq, r.enable, Bits(m.bytes[7]), now))
    else if Starts(r, m) then
      r.(running := true, nextIq := seq(MAX_DDC, _ => now), nextHp := now, nextMic := now, nextWb := now)
    else if IsHighPriority(m) then r.(running := RunBit(m))
    else r
  }

  /** A block that is sent again changes nothing. */
  lemma BlockRepeated(r: Registers, m: Datagram, now: int, later: int)
    requires |r.rate| == |r.nextIq| == MAX_DDC
    ensures var t := Taken(r, m, now); |t.rate| == |t.nextIq| == MAX_DDC && Taken(t, m, later) == t
  {
    hide Bits;
    if IsRxSpec(m) {
      var en := Bits(m.bytes[7]);
      var once := SwitchedOn(r.nextIq, r.enable, en, now);
      assert SwitchedOn(once, en, en, later) == once;
      assert Rates(m.bytes, Rates(m.bytes, r.rate)) == Rates(m.bytes, r.rate);
    }
  }

  /** A DDC that a block switches on is due now, and no other's due time moves; a rate of zero
      leaves it at the one it had. */
  lemma DdcTaken(r: Registers, m: Datagram, now: int, d: nat)
    requires |r.rate| == |r.nextIq| == MAX_DDC && d < MAX_DDC && IsRxSpec(m)
    ensures var t := Taken(r, m, now);
            && |t.rate| == |t.nextIq| == MAX_DDC
            && t.nextIq[d] == (if d in t.enable - r.enable then now else r.nextIq[d])
            && (m.bytes[18 + 6 * d] == 0 == m.bytes[19 + 6 * d] ==> t.rate[d] == r.rate[d])
  {
    hide Bits;
  }

  /** The packets of every DDC are numbered one after the other. */
  ghost predicate Numbered(log: seq<seq<nat>>, seqNo: seq<nat>) {
    && |log| == |seqNo| == MAX_DDC
    && forall d :: 0 <= d < MAX_DDC ==> Consecutive(log[d], seqNo[d])
  }

  lemma NumberedNext(log: seq<seq<nat>>, seqNo: seq<nat>, d: nat)
    requires Numbered(log, seqNo) && d < MAX_DDC
    ensures Numbered(log[d := log[d] + [seqNo[d]]], seqNo[d := (seqNo[d] + 1) % 0x1_0000_0000])
  {
    hide Consecutive;
    ConsecutiveNext(log[d], seqNo[d]);
  }

  /** A DDC in another's sync register. */
  predicate Follows(sync: seq<set<nat>>, d: nat) {
    exists m :: 0 <= m < |sync| && m != d && d in sync[m]
  }

  /** The DDCs that stream on their own ports. */
  function OnAir(enable: set<nat>, sync: seq<set<nat>>): (on: seq<bool>)
    ensures |on| == MAX_DDC
  {
    seq(MAX_DDC, d requires 0 <= d < MAX_DDC => d in enable && !Follows(sync, d))
  }

  lemma OnAirAt(enable: set<nat>, sync: seq<set<nat>>, d: nat)
    requires d < MAX_DDC
    ensures OnAir(enable, sync)[d] <==> d in enable && !Follows(sync, d)
  {}

  /** A DDC's samples go out, on its own port or on board another's packets. */
  predicate Carried(enable: set<nat>, sync: seq<set<nat>>, d: nat)
    requires |sync| == MAX_DDC && d < MAX_DDC
  {
    var on := OnAir(enable, sync);
    exists m :: 0 <= m < MAX_DDC && on[m] && d in Streams(sync[m], m)
  }

  /** DDC m is on the air and, of the others in its register, d is the lowest. */
  predicate Carries(enable: set<nat>, sync: seq<set<nat>>, m: nat, d: nat)
    requires |sync| == MAX_DDC && m < MAX_DDC
  {
    m != d && d in sync[m] && m in enable && !Follows(sync, m) && forall e: nat :: e < d && e in sync[m] ==> e == m
  }

  /** A DDC is carried if and only if it is on the air, or one that is names it and no lower. */
  lemma CarriedIff(enable: set<nat>, sync: seq<set<nat>>, d: nat)
    requires |sync| == MAX_DDC && d < MAX_DDC
    ensures Carried(enable, sync, d) <==>
            (d in enable && !Follows(sync, d)) || exists m :: 0 <= m < MAX_DDC && Carries(enable, sync, m, d)
  {
    hide Streams, Carries, Follows;
    var on := OnAir(enable, sync);
    forall m | 0 <= m < MAX_DDC
      ensures on[m] && d in Streams(sync[m], m) <==> (m == d && on[m]) || Carries(enable, sync, m, d)
    {
      OnBoard(enable, sync, m, d);
    }
    assert on[d] <==> d in enable && !Follows(sync, d);
  }

  /** What rides on DDC m: itself, and the lowest other in its register. */
  lemma OnBoard(enable: set<nat>, sync: seq<set<nat>>, m: nat, d: nat)
    requires |sync| == MAX_DDC && m < MAX_DDC && d < MAX_DDC
    ensures OnAir(enable, sync)[m] && d in Streams(sync[m], m) <==>
            (m == d && OnAir(enable, sync)[m]) || Carries(enable, sync, m, d)
  {
    hide Follows;
    LowestOther(sync[m], m, d);
  }

  lemma LowestOther(sync: set<nat>, m: nat, d: nat)
    requires d < MAX_DDC
    ensures d in Streams(sync, m) <==>
            d == m || (m != d && d in sync && forall e: nat :: e < d && e in sync ==> e == m)
  {}

  /** Of two followers of DDC 0 the higher goes out on no port, though it is enabled. */
  lemma SecondFollowerLost()
    ensures var sync := seq(MAX_DDC, d => if d == 0 then {1, 2} else {});
            Carried({0, 1, 2}, sync, 0) && Carried({0, 1, 2}, sync, 1) && !Carried({0, 1, 2}, sync, 2)
  {
    var sync: seq<set<nat>> := seq(MAX_DDC, d => if d == 0 then {1, 2} else {});
    assert 1 in sync[0] && 2 in sync[0];
    CarriedIff({0, 1, 2}, sync, 0);
    CarriedIff({0, 1, 2}, sync, 1);
    CarriedIff({0, 1, 2}, sync, 2);
    assert Carries({0, 1, 2}, sync, 0, 1);
    assert Follows(sync, 2);
  }

  /** Every log goes on from where it was, by no more than a tick allows; a DDC that is not on
      the air sends nothing. */
  ghost predicate Grown(before: seq<seq<nat>>, after: seq<seq<nat>>, on: seq<bool>) {
    && |before| == |after| == |on| == MAX_DDC
    && forall d :: 0 <= d < MAX_DDC ==> before[d] <= after[d] && |after[d]| <= |before[d]| + if on[d] then 32 else 0
  }

  /** Every DDC on the air has had its tick. */
  ghost predicate Ticked(next: seq<int>, count: seq<nat>, next': seq<int>, count': seq<nat>,
                         t: int, intervals: seq<int>, on: seq<bool>) {
    && |next| == |count| == |next'| == |count'| == |intervals| == |on| == MAX_DDC
    && forall d :: 0 <= d < MAX_DDC && on[d] ==>
         Pacer(next'[d], count'[d]) == Pacing.Tick(Pacer(next[d], count[d]), t, intervals[d], 32)
  }

  /** What a turn does to the DDCs: their logs and stamps go on, and if it is done every one on
      the air has had its tick. */
  ghost predicate DdcTurn(before: IqState, after: IqState, sync: seq<set<nat>>, on: seq<bool>, intervals: seq<int>,
                          t: int, done: bool) {
    && after.account.since == before.account.since && after.account.base == before.account.base
    && Grown(before.log, after.log, on) && Stamped(before, after, sync)
    && (done ==> Ticked(before.next, before.account.count, after.next, after.account.count, t, intervals, on))
  }

  /** The DDCs before d have had theirs, the rest are as they were. */
  ghost predicate TickedTo(before: IqState, after: IqState, d: nat, t: int, intervals: seq<int>, on: seq<bool>) {
    && |before.log| == |after.log| == |before.next| == |after.next| == |intervals| == |on| == MAX_DDC
    && |before.account.count| == |after.account.count| == MAX_DDC
    && (forall e :: 0 <= e < d && e < MAX_DDC ==>
          before.log[e] <= after.log[e] && |after.log[e]| <= |before.log[e]| + if on[e] then 32 else 0)
    && (forall e :: 0 <= e < d && e < MAX_DDC && on[e] ==>
          Pacer(after.next[e], after.account.count[e])
          == Pacing.Tick(Pacer(before.next[e], before.account.count[e]), t, intervals[e], 32))
    && forall e :: d <= e < MAX_DDC ==> Unticked(before, after, e)
  }

  ghost predicate Unticked(before: IqState, after: IqState, e: nat)
    requires |before.log| == |after.log| == |before.next| == |after.next| == MAX_DDC && e < MAX_DDC
    requires |before.account.count| == |after.account.count| == MAX_DDC
  {
    && after.log[e] == before.log[e] && after.next[e] == before.next[e]
    && after.account.count[e] == before.account.count[e]
  }

  lemma TickedNone(s: IqState, t: int, intervals: seq<int>, on: seq<bool>)
    requires |s.log| == |s.next| == |s.account.count| == |intervals| == |on| == MAX_DDC
    ensures TickedTo(s, s, 0, t, intervals, on)
  {}

  lemma TickedNot(s0: IqState, s1: IqState, d: nat, t: int, intervals: seq<int>, on: seq<bool>)
    requires TickedTo(s0, s1, d, t, intervals, on) && d < MAX_DDC && !on[d]
    ensures TickedTo(s0, s1, d + 1, t, intervals, on)
  {
    hide Pacing.Tick;
    assert Unticked(s0, s1, d);
  }

  lemma TickedNext(s0: IqState, s1: IqState, s2: IqState, d: nat, t: int, intervals: seq<int>, on: seq<bool>,
                   dead: bool)
    requires TickedTo(s0, s1, d, t, intervals, on) && d < MAX_DDC && on[d]
    requires |s2.log| == |s2.next| == |s2.account.count| == MAX_DDC
    requires forall e :: 0 <= e < MAX_DDC && e != d ==> Unticked(s1, s2, e)
    requires s1.log[d] <= s2.log[d] && |s2.log[d]| <= |s1.log[d]| + 32
    requires !dead ==> Pacer(s2.next[d], s2.account.count[d])
                       == Pacing.Tick(Pacer(s1.next[d], s1.account.count[d]), t, intervals[d], 32)
    ensures Grown(s0.log, s2.log, on)
    ensures !dead ==> TickedTo(s0, s2, d + 1, t, intervals, on)
  {
    hide Pacing.Tick;
    assert Unticked(s0, s1, d);
    forall e | 0 <= e < MAX_DDC
      ensures s0.log[e] <= s2.log[e] && |s2.log[e]| <= |s0.log[e]| + if on[e] then 32 else 0
      ensures d < e ==> Unticked(s0, s2, e)
      ensures e < d && on[e] ==> Pacer(s2.next[e], s2.account.count[e])
                                 == Pacing.Tick(Pacer(s0.next[e], s0.account.count[e]), t, intervals[e], 32)
    {
      assert e != d ==> Unticked(s1, s2, e);
      assert d < e ==> Unticked(s0, s1, e);
    }
  }

  lemma TickedAll(s0: IqState, s1: IqState, t: int, intervals: seq<int>, on: seq<bool>)
    requires TickedTo(s0, s1, MAX_DDC, t, intervals, on)
    ensures Grown(s0.log, s1.log, on)
    ensures Ticked(s0.next, s0.account.count, s1.next, s1.account.count, t, intervals, on)
  {
    hide Pacing.Tick;
  }

  // ---------- the board ----------

  class Board {
    const ddcs: Ddcs
    const pkt: array<Byte>
    const pace: real
    const mic: bool
    var running: bool
    var havePeer: bool
    var peer: int
    var enable: set<nat>
    var nextIq: seq<int>
    var nextHp: int
    var nextMic: int
    var nextWb: int
    var hpSeq: Number
    var micSeq: Number
    var wbPktInFrame: nat
    var wbEnable: bool
    var wbSamples: nat
    var wbBits: nat
    var wbRateMs: nat
    var wbFrame: nat
    var clock: int
    /** Every register block taken, in order. */
    ghost var heard: seq<Datagram>
    /** The sequence numbers put into packets on each DDC's port. */
    ghost var iqLog: seq<seq<nat>>
    /** Since the last start, or change of the DDC's interval: from when, how many packets went
        out, and from which place in the log. */
    ghost var account: Account
    ghost var served: Served
    /** The wideband packets that went out since the last start, and those of each stream
        before; the bursts finished, since the last start or change of registers; and whether
        a send was ever refused inside a burst. */
    ghost var wbLog: seq<Wideband.Packet>
    ghost var wbPast: seq<seq<Wideband.Packet>>
    ghost var wbSince: int
    ghost var wbBursts: nat
    ghost var torn: bool

    constructor (o: Options, rng: int, pace: real, mic: bool, now: int)
      ensures Valid() && fresh(ddcs) && fresh(pkt) && !running && !havePeer && heard == [] && clock == now
      ensures this.pace == pace && this.mic == mic && enable == {} && wbPast == [] && wbLog == [] && !torn
      ensures wbPktInFrame == 0 && WbNow() == WbRegisters(false, 0, 0, 0, 0)
    {
      ddcs := new Ddcs(o, rng);
      pkt := new Byte[IQ_PKT_BYTES](_ => 0);
      this.pace, this.mic := pace, mic;
      running, havePeer, peer, enable := false, false, 0, {};
      nextIq, nextHp, nextMic, nextWb := seq(MAX_DDC, _ => 0), 0, 0, 0;
      hpSeq, micSeq, wbPktInFrame := 0, 0, 0;
      wbEnable, wbSamples, wbBits, wbRateMs, wbFrame := false, 0, 0, 0, 0;
      clock, heard := now, [];
      wbLog, wbPast, wbSince, wbBursts, torn := [], [], 0, 0, false;
      iqLog, served := seq(MAX_DDC, _ => []), Served(0, 0, 0);
      account := FromNow(0, seq(MAX_DDC, _ => []));
      new;
      FromNowBudgeted(0, iqLog, now, Intervals(ddcs.sync, ddcs.rate, pace));
      LoggedStopped(iqLog, account);
      SpanNext(0, HP_US);
      SpanNext(0, MicInterval());
      SpanNext(0, WbPause(0, pace));
    }

    ghost predicate Shaped()
      reads ddcs
    {
      ddcs.Valid() && pkt.Length == IQ_PKT_BYTES
    }

    ghost function CurrentIntervals(): seq<int>
      requires Shaped()
      reads ddcs
    {
      Intervals(ddcs.sync, ddcs.rate, pace)
    }

    ghost predicate OnBudget()
      requires Shaped()
      reads this`nextIq, this`clock, this`account, ddcs
    {
      Budgeted(account, nextIq, clock, CurrentIntervals())
    }

    /** The interval of the microphone packets. */
    function MicInterval(): int {
      Whole(MIC_SAMPLES as real * 1000000.0 * pace / 48000.0)
    }

    /** Status and microphone packets are never ahead of one an interval either. */
    ghost predicate ServedOnBudget()
      reads this`nextHp, this`nextMic, this`served, this`clock
    {
      && Paced(Pacer(nextHp, served.status), served.since, clock, HP_US)
      && Paced(Pacer(nextMic, served.mic), served.since, clock, MicInterval())
    }

    /** The packets of the log are the ones counted; on says whether the streams go on. */
    ghost predicate IqKept(on: bool)
      reads this`iqLog, this`account
    {
      Logged(iqLog, account, on)
    }

    ghost predicate StreamsValid()
      reads this`nextIq, this`clock, this`account, this`iqLog, ddcs
    {
      && Shaped() && |iqLog| == |nextIq| == |account.since| == |account.count| == MAX_DDC
      && Numbered(iqLog, ddcs.seqNo) && OnBudget()
    }

    /** What runs was asked to run, and every block taken came from this host. */
    ghost predicate Entitled(run: bool)
      reads this`havePeer, this`heard, this`peer
    {
      && (run ==> havePeer && AskedToRun(heard))
      && (havePeer ==> |heard| > 0 && heard[|heard| - 1].from == peer)
      && (forall i :: 0 <= i < |heard| ==> Accepted(heard[i]))
    }

    /** The wideband bursts are whole, but for one that was torn; on says whether the stream
        goes on. */
    ghost predicate WbKept(on: bool)
      reads this`torn, this`wbPast, this`wbLog, this`wbPktInFrame
    {
      Wideband.Kept(torn, wbPast, wbLog, wbPktInFrame, on)
    }

    /** Bursts are never ahead of one a pause. */
    ghost predicate WbOnBudget()
      reads this`nextWb, this`wbBursts, this`wbSince, this`clock, this`wbRateMs
    {
      Paced(Pacer(nextWb, wbBursts), wbSince, clock, WbPause(wbRateMs, pace))
    }

    ghost predicate Valid()
      reads this, ddcs
    {
      && StreamsValid() && IqKept(running) && Entitled(running) && ServedOnBudget()
      && WbKept(running) && WbOnBudget()
    }

    /** So at any time: packets built for a DDC since its last start, or change of interval, are
        at most one more than the whole intervals since, and one more if it was refused. */
    lemma NeverAhead(d: nat)
      requires Valid() && d < MAX_DDC
      ensures running && |iqLog[d]| > account.base[d] ==> account.since[d] <= clock
      ensures account.since[d] <= clock ==>
                |iqLog[d]| - account.base[d] <=
                (clock - account.since[d]) / CurrentIntervals()[d] + (if running then 1 else 2)
    {
      hide Interval, Span;
      if account.count[d] > 0 {
        SpanNext(0, CurrentIntervals()[d]);
        Grows(account.count[d] - 1, 0, CurrentIntervals()[d]);
      }
      if account.since[d] <= clock {
        CountBounded(account.since[d], clock, CurrentIntervals()[d], account.count[d]);
      }
    }

    /** And so with status and microphone packets, since the last start. */
    lemma UpkeepNeverAhead()
      requires Valid() && served.since <= clock
      ensures served.status <= (clock - served.since) / HP_US + 1
      ensures served.mic <= (clock - served.since) / MicInterval() + 1
    {
      hide Interval, Span, Board.StreamsValid, Board.IqKept;
      CountBounded(served.since, clock, HP_US, served.status);
      CountBounded(served.since, clock, MicInterval(), served.mic);
    }

    /** And over every run: the packets of each wideband stream are whole bursts numbered from
        0 if and only if no send was refused inside a burst. */
    lemma BurstsWhole()
      requires Valid()
      ensures Wideband.AllWhole(wbPast + [wbLog]) <==> !torn
    {
      Wideband.WholeIff(torn, wbPast, wbLog, wbPktInFrame, running);
    }

    // ---------- registers ----------

    /** One datagram. Only what comes from this host and is a register block changes
        anything; reply says a discovery was answered. */
    method Receive(m: Datagram, now: int) returns (reply: bool)
      requires Valid() && now >= clock
      modifies this`clock, this`peer, this`havePeer, this`heard, this`wbEnable, this`wbSamples, this`wbBits,
               this`wbRateMs, this`wbFrame, this`nextWb, this`nextHp, this`nextMic, this`enable, this`nextIq,
               this`account, this`running, this`wbLog, this`wbPast, this`wbSince, this`wbBursts, this`served,
               ddcs`rate, ddcs`adc, ddcs`sync
      ensures Valid() && clock == now
      ensures reply <==> m.local && IsDiscovery(m)
      ensures heard == old(heard) + if Accepted(m) then [m] else []
      ensures peer == if Accepted(m) then m.from else old(peer)
      ensures |old(ddcs.rate)| == |old(nextIq)| == MAX_DDC
      ensures RegistersNow() == if Accepted(m) then Taken(old(RegistersNow()), m, now) else old(RegistersNow())
      ensures var started := Accepted(m) && Starts(old(RegistersNow()), m);
              && wbLog == (if started then [] else old(wbLog))
              && wbPast == (if started then old(wbPast) + [old(wbLog)] else old(wbPast))
              && (started ==> account == FromNow(now, iqLog))
              && (!started && !(Accepted(m) && IsRxSpec(m)) ==> account == old(account))
              && served == (if started then Served(now, 0, 0) else old(served))
    {
      hide Board.StreamsValid, Board.IqKept, Board.ServedOnBudget, Board.WbKept, Board.WbOnBudget, Board.Entitled;
      hide IsDiscovery, IsProtocol1, IsHighPriority, RunBit, Taken, Starts, FromNow, IsRxSpec;
      StreamShapes();
      reply := false;
      Later(now);
      if !m.local {
        return;
      }
      if IsDiscovery(m) {
        return true;
      }
      if IsProtocol1(m) {
        return;
      }
      Name(m);
      TakeBlock(m, now);
    }

    /** The sender of a register block becomes the peer. */
    method Name(m: Datagram)
      requires Accepted(m) && Entitled(running)
      modifies this`peer, this`havePeer, this`heard
      ensures peer == m.from && havePeer && heard == old(heard) + [m]
      ensures Entitled(if IsHighPriority(m) then RunBit(m) else running)
    {
      hide AskedToRun, Accepted, IsHighPriority;
      AskedNext(heard, m);
      peer, havePeer, heard := m.from, true, heard + [m];
    }

    /** A register block, by its port and length. */
    method TakeBlock(m: Datagram, now: int)
      requires StreamsValid() && IqKept(running) && ServedOnBudget() && WbKept(running) && WbOnBudget()
      modifies this`wbEnable, this`wbSamples, this`wbBits, this`wbRateMs, this`wbFrame, this`nextWb, this`nextHp,
               this`nextMic, this`enable, this`nextIq, this`account, this`running, this`wbLog, this`wbPast,
               this`wbSince, this`wbBursts, this`served, ddcs`rate, ddcs`adc, ddcs`sync
      ensures StreamsValid() && IqKept(running) && ServedOnBudget() && WbKept(running) && WbOnBudget()
      ensures |old(ddcs.rate)| == |old(nextIq)| == MAX_DDC
      ensures RegistersNow() == Taken(old(RegistersNow()), m, now)
      ensures running == if IsHighPriority(m) then RunBit(m) else old(running)
      ensures var started := Starts(old(RegistersNow()), m);
              && wbLog == (if started then [] else old(wbLog))
              && wbPast == (if started then old(wbPast) + [old(wbLog)] else old(wbPast))
              && (started ==> account == FromNow(now, iqLog))
              && (!started && !IsRxSpec(m) ==> account == old(account))
              && served == (if started then Served(now, 0, 0) else old(served))
    {
      hide Board.StreamsValid, Board.IqKept, Board.ServedOnBudget, Board.WbKept, Board.WbOnBudget;
      hide RunBit, Bits, Word, Recounted, FromNow, Syncs, Adcs, Rates, SwitchedOn, WbOf;
      StreamShapes();
      if IsGeneral(m) {
        TakeGeneral(m.bytes, now);
      } else if IsRxSpec(m) {
        TakeRxSpec(m.bytes, now);
      } else if IsHighPriority(m) {
        TakeRun(RunBit(m), now);
      }
    }

    lemma StreamShapes()
      requires StreamsValid()
      ensures |ddcs.rate| == |nextIq| == MAX_DDC
    {}

    /** Time passes. */
    method Later(now: int)
      requires Valid() && now >= clock
      modifies this`clock
      ensures Valid() && clock == now
    {
      hide Interval, Numbered, Span;
      BudgetLater(account, nextIq, clock, now, CurrentIntervals());
      clock := now;
    }

    ghost function RegistersNow(): Registers
      reads this, ddcs
    {
      Registers(running, enable, ddcs.sync, ddcs.adc, ddcs.rate, nextIq, nextHp, nextMic, nextWb, WbNow())
    }

    function WbNow(): WbRegisters
      reads this`wbEnable, this`wbSamples, this`wbBits, this`wbRateMs, this`wbFrame
    {
      WbRegisters(wbEnable, wbSamples, wbBits, wbRateMs, wbFrame)
    }

    /** The wideband registers of the general block; a change makes a burst due now. */
    method TakeGeneral(b: seq<Byte>, now: int)
      requires |b| >= 29 && WbOnBudget()
      modifies this`wbEnable, this`wbSamples, this`wbBits, this`wbRateMs, this`wbFrame, this`nextWb,
               this`wbSince, this`wbBursts
      ensures WbOnBudget()
      ensures WbNow() == WbOf(b) && nextWb == if WbOf(b) == old(WbNow()) then old(nextWb) else now
    {
      var wb: bool := b[23] % 2 == 1;
      var smp: nat := Word(b[24], b[25]);
      if wb != wbEnable || smp != wbSamples || b[26] != wbBits || b[27] != wbRateMs || b[28] != wbFrame {
        wbEnable, wbSamples, wbBits, wbRateMs, wbFrame := wb, smp, b[26], b[27], b[28];
        nextWb := now;
        wbSince, wbBursts := now, 0;
        SpanNext(0, WbPause(wbRateMs, pace));
      }
    }

    /** The rates, ADCs and sync maps of the receive-specific block. */
    method TakeDdcs(b: seq<Byte>) returns (changed: bool)
      requires Shaped() && |b| >= 1444
      modifies ddcs`rate, ddcs`adc, ddcs`sync
      ensures Shaped() && (changed <==> ddcs.sync != old(ddcs.sync))
      ensures ddcs.sync == Syncs(b) && ddcs.adc == Adcs(b) && ddcs.rate == Rates(b, old(ddcs.rate))
    {
      hide Bits, Word;
      changed := false;
      for d := 0 to MAX_DDC
        invariant Shaped()
        invariant forall e :: 0 <= e < d ==> ddcs.sync[e] == Syncs(b)[e] && ddcs.adc[e] == Adcs(b)[e]
        invariant forall e :: 0 <= e < d ==> ddcs.rate[e] == Rates(b, old(ddcs.rate))[e]
        invariant forall e :: d <= e < MAX_DDC ==>
                    ddcs.rate[e] == old(ddcs.rate)[e] && ddcs.sync[e] == old(ddcs.sync)[e]
        invariant changed <==> exists e :: 0 <= e < d && ddcs.sync[e] != old(ddcs.sync)[e]
      {
        var r := Word(b[18 + 6 * d], b[19 + 6 * d]) * 1000;
        if r > 0 && r != ddcs.rate[d] {
          ddcs.rate := ddcs.rate[d := r];
        }
        ddcs.adc := ddcs.adc[d := b[17 + 6 * d]];
        var sy := Bits(b[RXSPEC_SYNC_BASE + d]);
        if sy != ddcs.sync[d] {
          ddcs.sync := ddcs.sync[d := sy];
          changed := true;
        }
      }
    }

    /** A DDC that is switched on starts now. */
    method TakeRxSpec(b: seq<Byte>, now: int)
      requires StreamsValid() && IqKept(running) && |b| >= 1444
      modifies this`enable, this`nextIq, this`account, ddcs`rate, ddcs`adc, ddcs`sync
      ensures StreamsValid() && IqKept(running) && |old(ddcs.rate)| == |old(nextIq)| == MAX_DDC
      ensures ddcs.sync == Syncs(b) && ddcs.adc == Adcs(b) && ddcs.rate == Rates(b, old(ddcs.rate))
      ensures enable == Bits(b[7]) && nextIq == SwitchedOn(old(nextIq), old(enable), enable, now)
      ensures account ==
              Recounted(old(account), old(nextIq), nextIq, old(CurrentIntervals()), CurrentIntervals(), iqLog)
    {
      hide Bits, Numbered, Interval, Recounted, Logged, Syncs, Adcs, Rates;
      ghost var next0, intervals0 := nextIq, CurrentIntervals();
      var changed := TakeDdcs(b);
      var en := Bits(b[7]);
      if en != enable || changed {
        nextIq := SwitchedOn(nextIq, enable, en, now);
        enable := en;
      }
      LoggedShape(iqLog, account, running);
      RecountKeeps(account, next0, nextIq, clock, intervals0, CurrentIntervals(), iqLog, running);
      account := Recounted(account, next0, nextIq, intervals0, CurrentIntervals(), iqLog);
    }

    /** The run bit of the high-priority block: a start sets every stream due now. */
    method TakeRun(run: bool, now: int)
      requires StreamsValid() && IqKept(running) && ServedOnBudget() && WbKept(running) && WbOnBudget()
      modifies this`running, this`nextIq, this`nextHp, this`nextMic, this`nextWb, this`account, this`wbLog,
               this`wbPast, this`wbSince, this`wbBursts, this`served
      ensures StreamsValid() && IqKept(running) && ServedOnBudget() && WbKept(running) && WbOnBudget() && running == run
      ensures run && !old(running) ==>
                && nextHp == nextMic == nextWb == now && nextIq == seq(MAX_DDC, _ => now)
                && account == FromNow(now, iqLog) && served == Served(now, 0, 0)
                && wbLog == [] && wbPast == old(wbPast) + [old(wbLog)]
      ensures !(run && !old(running)) ==>
                && nextHp == old(nextHp) && nextMic == old(nextMic) && nextWb == old(nextWb)
                && nextIq == old(nextIq) && account == old(account) && served == old(served)
                && wbLog == old(wbLog) && wbPast == old(wbPast)
    {
      hide Board.StreamsValid, Board.IqKept, FromNow, Board.ServedOnBudget, Board.WbKept, Board.WbOnBudget;
      if run != running {
        running := run;
        if running {
          Restart(now);
          Serve(now);
          Reopen(now);
        } else {
          LogEnds();
          Ended();
        }
      }
    }

    /** Every DDC is due now. */
    method Restart(now: int)
      requires StreamsValid()
      modifies this`nextIq, this`account
      ensures StreamsValid() && IqKept(true) && nextIq == seq(MAX_DDC, _ => now) && account == FromNow(now, iqLog)
    {
      hide Numbered, Interval, FromNow, Logged;
      nextIq := seq(MAX_DDC, _ => now);
      account := FromNow(now, iqLog);
      FromNowBudgeted(now, iqLog, clock, CurrentIntervals());
      LoggedShape(iqLog, account, true);
    }

    /** Status and microphone begin. */
    method Serve(now: int)
      modifies this`nextHp, this`nextMic, this`served
      ensures ServedOnBudget() && nextHp == nextMic == now && served == Served(now, 0, 0)
    {
      hide Span, Board.MicInterval;
      nextHp, nextMic := now, now;
      served := Served(now, 0, 0);
      SpanNext(0, HP_US);
      SpanNext(0, MicInterval());
    }

    /** A start opens a new wideband log; the place in the burst stays. */
    method Reopen(now: int)
      requires WbKept(false)
      modifies this`nextWb, this`wbLog, this`wbPast, this`wbSince, this`wbBursts
      ensures WbKept(true) && WbOnBudget() && nextWb == now && wbLog == [] && wbPast == old(wbPast) + [old(wbLog)]
    {
      hide Span, WbPause;
      Wideband.StartKeeps(torn, wbPast, wbLog, wbPktInFrame, false);
      nextWb := now;
      wbPast, wbLog, wbSince, wbBursts := wbPast + [wbLog], [], now, 0;
      SpanNext(0, WbPause(wbRateMs, pace));
    }

    // ---------- streams ----------

    /** One packet of a DDC, built and sent; the answer to send k says whether the peer was
        gone. A packet that went out moves the due time. */
    method SendIq(d: nat, t: int, gone: nat -> bool, k: nat) returns (refused: bool)
      requires StreamsValid() && IqKept(true) && d < MAX_DDC && t == clock && t >= nextIq[d]
      modifies this`nextIq, this`iqLog, this`account, pkt, ddcs`seqNo, ddcs`stamp, ddcs`phase, ddcs`rng
      ensures StreamsValid() && IqKept(!refused) && |old(iqLog)| == MAX_DDC && refused == gone(k)
      ensures iqLog == old(iqLog)[d := old(iqLog)[d] + [old(ddcs.seqNo)[d]]]
      ensures Built(pkt[..], old(ddcs.seqNo)[d], old(ddcs.stamp)[d], old(ddcs.SetupOf(d)))
      ensures ddcs.stamp == old(ddcs.stamp)[d := StampAfter(old(ddcs.stamp)[d], 1, PerStream(ddcs.sync[d], d))]
      ensures account.since == old(account.since) && account.base == old(account.base)
      ensures refused ==> nextIq == old(nextIq) && account == old(account)
      ensures !refused ==>
                var p := Sent(Pacer(old(nextIq)[d], old(account.count)[d]), t, CurrentIntervals()[d]);
                nextIq == old(nextIq)[d := p.next] && account.count == old(account.count)[d := p.sent]
    {
      hide Interval, Intervals, Numbered, Budgeted, Span, Built, Ddcs.SetupOf, StampAfter, PerStream;
      Package(d);
      refused := gone(k);
      if !refused {
        MoveOn(d, t);
      }
    }

    /** The packet, under the next sequence number. */
    method Package(d: nat)
      requires StreamsValid() && d < MAX_DDC
      modifies this`iqLog, pkt, ddcs`seqNo, ddcs`stamp, ddcs`phase, ddcs`rng
      ensures StreamsValid()
      ensures iqLog == old(iqLog)[d := old(iqLog)[d] + [old(ddcs.seqNo)[d]]]
      ensures Built(pkt[..], old(ddcs.seqNo)[d], old(ddcs.stamp)[d], old(ddcs.SetupOf(d)))
      ensures ddcs.stamp == old(ddcs.stamp)[d := StampAfter(old(ddcs.stamp)[d], 1, PerStream(ddcs.sync[d], d))]
    {
      hide Interval, Numbered, Budgeted, Span, CarriesTo, Be32, Be64, Read32, Setup.Ramped, Drawn;
      hide StampAfter, PerStream;
      NumberedNext(iqLog, ddcs.seqNo, d);
      StampNext(ddcs.stamp[d], 0, PerStream(ddcs.sync[d], d));
      PerPacket(ddcs.SetupOf(d), ddcs.sync[d], d);
      Be32ReadBack(ddcs.seqNo[d]);
      ddcs.Build(pkt, d);
      iqLog := iqLog[d := iqLog[d] + [Read32(pkt[..4])]];
    }

    method MoveOn(d: nat, t: int)
      requires StreamsValid() && d < MAX_DDC && t == clock && t >= nextIq[d]
      modifies this`nextIq, this`account
      ensures StreamsValid() && account.since == old(account.since) && account.base == old(account.base)
      ensures var p := Sent(Pacer(old(nextIq)[d], old(account.count)[d]), t, CurrentIntervals()[d]);
              nextIq == old(nextIq)[d := p.next] && account.count == old(account.count)[d := p.sent]
    {
      hide Interval, Numbered, Budgeted, Span;
      var interval := Interval(ddcs.sync[d], d, ddcs.rate[d], pace);
      SentBudgeted(account, nextIq, clock, CurrentIntervals(), d);
      account := account.(count := account.count[d := account.count[d] + 1]);
      var next := nextIq[d] + interval;
      if t - next > RESYNC {
        next := t;
      }
      nextIq := nextIq[d := next];
    }

    /** The packets of one DDC in one tick: as many as are due, at most 32. */
    method StreamIq(d: nat, t: int, gone: nat -> bool, k: nat) returns (dead: bool, k': nat)
      requires StreamsValid() && IqKept(true) && d < MAX_DDC && t == clock
      modifies this`nextIq, this`iqLog, this`account, pkt, ddcs`seqNo, ddcs`stamp, ddcs`phase, ddcs`rng
      ensures StreamsValid() && IqKept(!dead) && |old(iqLog)| == MAX_DDC && |iqLog| == MAX_DDC
      ensures forall e :: 0 <= e < MAX_DDC && e != d ==> iqLog[e] == old(iqLog)[e]
      ensures old(iqLog)[d] <= iqLog[d] && |iqLog[d]| == |old(iqLog)[d]| + (k' - k) <= |old(iqLog)[d]| + 32
      ensures forall e :: 0 <= e < MAX_DDC && e != d ==>
                nextIq[e] == old(nextIq)[e] && account.count[e] == old(account.count)[e]
      ensures account.since == old(account.since) && account.base == old(account.base) && Tried(gone, k, k', dead)
      ensures ddcs.stamp == old(ddcs.stamp)[d := StampAfter(old(ddcs.stamp)[d], k' - k, PerStream(ddcs.sync[d], d))]
      ensures !dead ==>
                Pacer(nextIq[d], account.count[d])
                == Pacing.Tick(Pacer(old(nextIq)[d], old(account.count)[d]), t, CurrentIntervals()[d], 32)
    {
      hide Interval, Numbered, Budgeted, Built, Logged, Ddcs.SetupOf, Tried, Pacing.Tick, StampAfter, PerStream;
      TriedNone(gone, k);
      dead, k' := false, k;
      var budget := 32;
      ghost var stamp, per := ddcs.stamp, PerStream(ddcs.sync[d], d);
      StampNext(stamp[d], 0, per);
      ghost var p0 := Pacer(nextIq[d], account.count[d]);
      while t >= nextIq[d] && budget > 0
        invariant StreamsValid() && IqKept(true) && 0 <= budget <= 32 && |iqLog| == MAX_DDC && k' == k + (32 - budget)
        invariant |nextIq| == |account.count| == MAX_DDC
        invariant account.since == old(account.since) && account.base == old(account.base)
        invariant forall e :: 0 <= e < MAX_DDC && e != d ==>
                    && iqLog[e] == old(iqLog)[e] && nextIq[e] == old(nextIq)[e]
                    && account.count[e] == old(account.count)[e]
        invariant old(iqLog)[d] <= iqLog[d] && |iqLog[d]| == |old(iqLog)[d]| + (32 - budget)
        invariant Tried(gone, k, k', false)
        invariant ddcs.stamp == stamp[d := StampAfter(stamp[d], k' - k, per)]
        invariant Pacing.Tick(Pacer(nextIq[d], account.count[d]), t, CurrentIntervals()[d], budget)
                  == Pacing.Tick(p0, t, CurrentIntervals()[d], 32)
      {
        TickStep(Pacer(nextIq[d], account.count[d]), t, CurrentIntervals()[d], budget);
        budget := budget - 1;
        TriedMore(gone, k, k');
        StampNext(stamp[d], k' - k, per);
        StampNext(ddcs.stamp[d], 0, per);
        dead := SendIq(d, t, gone, k');
        k' := k' + 1;
        if dead {
          return;
        }
      }
      TickStep(Pacer(nextIq[d], account.count[d]), t, CurrentIntervals()[d], budget);
    }

    ghost function IqNow(): IqState
      reads this`nextIq, this`iqLog, this`account, ddcs`stamp
    {
      IqState(nextIq, iqLog, account, ddcs.stamp)
    }

    /** What a turn in which n packets are built does to the streams of the DDCs: every log
        goes on, by no more than a tick allows, and if the turn is done every DDC on the air has
        had its tick. */
    ghost predicate IqTurn(before: IqState, after: IqState, n: nat, t: int, done: bool)
      reads this`enable, ddcs`sync, ddcs`rate
    {
      && |ddcs.sync| == |ddcs.rate| == MAX_DDC
      && Total(after.log) == Total(before.log) + n
      && DdcTurn(before, after, ddcs.sync, OnAir(enable, ddcs.sync), Intervals(ddcs.sync, ddcs.rate, pace), t, done)
    }

    /** Every DDC in turn, until the peer is found gone. One that is off, or follows another,
        sends nothing on its own port; the others catch up as far as a tick allows. */
    method StreamAll(t: int, gone: nat -> bool) returns (dead: bool, k: nat)
      requires StreamsValid() && IqKept(true) && t == clock
      modifies this`nextIq, this`iqLog, this`account, pkt, ddcs`seqNo, ddcs`stamp, ddcs`phase, ddcs`rng
      ensures StreamsValid() && IqKept(!dead) && Tried(gone, 0, k, dead)
      ensures IqTurn(old(IqNow()), IqNow(), k, t, !dead)
    {
      hide Interval, Numbered, Budgeted, Pacing.Tick, Follows, OnAir, Tried, Logged, Total, StampAfter, PerStream;
      hide Stamped, TickedTo, Grown, Ticked, Intervals;
      StampsStay(IqNow(), ddcs.sync);
      ghost var on := OnAir(enable, ddcs.sync);
      TickedNone(IqNow(), t, CurrentIntervals(), on);
      dead, k := false, 0;
      TriedNone(gone, 0);
      for d := 0 to MAX_DDC
        invariant StreamsValid() && IqKept(true) && !dead
        invariant account.since == old(account.since) && account.base == old(account.base)
        invariant Tried(gone, 0, k, false) && Total(iqLog) == Total(old(iqLog)) + k
        invariant Stamped(old(IqNow()), IqNow(), ddcs.sync)
        invariant TickedTo(old(IqNow()), IqNow(), d, t, CurrentIntervals(), on)
      {
        OnAirAt(enable, ddcs.sync, d);
        if d in enable && !Follows(ddcs.sync, d) {
          var k';
          ghost var log, state := iqLog, IqNow();
          dead, k' := StreamIq(d, t, gone, k);
          StampedOn(old(IqNow()), state, IqNow(), ddcs.sync, d);
          TickedNext(old(IqNow()), state, IqNow(), d, t, CurrentIntervals(), on, dead);
          TriedOn(gone, 0, k, k', dead);
          TotalGrows(log, iqLog, d);
          k := k';
          if dead {
            return;
          }
        } else {
          TickedNot(old(IqNow()), IqNow(), d, t, CurrentIntervals(), on);
        }
      }
      TickedAll(old(IqNow()), IqNow(), t, CurrentIntervals(), on);
    }

    /** The status packet, twenty a second. */
    method Status(t: int, gone: nat -> bool, k: nat) returns (dead: bool, k': nat)
      requires ServedOnBudget() && t == clock
      modifies this`nextHp, this`hpSeq, this`served
      ensures ServedOnBudget() && Tried(gone, k, k', dead)
      ensures ServiceNow() == StatusDone(old(ServiceNow()), t) && k' == k + if t >= old(nextHp) then 1 else 0
    {
      hide Span, Board.MicInterval;
      SpanNext(served.status, HP_US);
      dead, k' := false, k;
      if t >= nextHp {
        hpSeq := (hpSeq + 1) % 0x1_0000_0000;
        dead, k' := gone(k), k + 1;
        nextHp := t + HP_US;
        served := served.(status := served.status + 1);
      }
    }

    /** The microphone packets, paced like the rest, at most 16 a tick. */
    method Microphone(t: int, gone: nat -> bool, k: nat) returns (dead: bool, k': nat)
      requires ServedOnBudget() && t == clock
      modifies this`nextMic, this`micSeq, this`served
      ensures ServedOnBudget() && Tried(gone, k, k', dead) && k <= k'
      ensures MicDone(old(ServiceNow()), ServiceNow(), k' - k, t, dead)
    {
      hide Board.MicInterval, Board.ServedOnBudget, NumberAfter, Tried, Pacing.Tick;
      TriedNone(gone, k);
      dead, k' := false, k;
      NumberNext(micSeq, 0);
      if mic {
        ghost var iv := MicInterval();
        var budget := 16;
        ghost var before := served;
        while t >= nextMic && budget > 0
          decreases budget
          invariant 0 <= budget <= 16 && k' == k + (16 - budget) && Tried(gone, k, k', false) && ServedOnBudget()
          invariant served == before.(mic := before.mic + (k' - k)) && micSeq == NumberAfter(old(micSeq), k' - k)
          invariant Pacing.Tick(Pacer(nextMic, k' - k), t, iv, budget) == MicAfter(old(nextMic), t)
        {
          TickStep(Pacer(nextMic, k' - k), t, iv, budget);
          budget := budget - 1;
          NumberNext(old(micSeq), k' - k);
          TriedMore(gone, k, k');
          micSeq := (micSeq + 1) % 0x1_0000_0000;
          dead, k' := gone(k'), k' + 1;
          if dead {
            return;
          }
          MicOn(t);
        }
        TickStep(Pacer(nextMic, k' - k), t, iv, budget);
      }
    }

    /** A microphone packet that went out moves the due time. */
    method MicOn(t: int)
      requires ServedOnBudget() && t == clock && t >= nextMic
      modifies this`nextMic, this`served
      ensures ServedOnBudget() && served == old(served).(mic := old(served).mic + 1)
      ensures nextMic == Resync(t, old(nextMic) + MicInterval())
    {
      hide Span, Board.MicInterval;
      SpanNext(served.mic, MicInterval());
      nextMic := nextMic + MicInterval();
      if t - nextMic > RESYNC {
        nextMic := t;
      }
      served := served.(mic := served.mic + 1);
    }

    ghost function ServiceNow(): Service
      reads this`nextHp, this`hpSeq, this`nextMic, this`micSeq, this`served
    {
      Service(nextHp, hpSeq, nextMic, micSeq, served)
    }

    function StatusDone(service: Service, t: int): Service {
      if t >= service.nextHp then
        service.(nextHp := t + HP_US, hpSeq := NumberAfter(service.hpSeq, 1),
                 served := service.served.(status := service.served.status + 1))
      else service
    }

    /** n microphone packets, the last of them refused if the peer is gone. */
    ghost predicate MicDone(before: Service, after: Service, n: nat, t: int, dead: bool) {
      && n <= 16 && (!mic ==> n == 0) && (dead ==> n > 0)
      && (!dead ==> Pacer(after.nextMic, n) == MicAfter(before.nextMic, t))
      && after == before.(nextMic := after.nextMic, micSeq := NumberAfter(before.micSeq, n),
                          served := before.served.(mic := before.served.mic + n - (if dead then 1 else 0)))
    }

    /** What a turn does to the status and microphone streams: done says that it got past them,
        and on that they go on. */
    ghost predicate Upkept(before: Service, after: Service, s: Sends, t: int, done: bool, on: bool) {
      && s.status <= (if t >= before.nextHp then 1 else 0) && s.mic <= 16 && (!mic ==> s.mic == 0)
      && after.hpSeq == NumberAfter(before.hpSeq, s.status) && after.micSeq == NumberAfter(before.micSeq, s.mic)
      && after.served.since == before.served.since && after.served.status == before.served.status + s.status
      && after.served.mic <= before.served.mic + s.mic <= after.served.mic + (if on then 0 else 1)
      && after.nextHp == (if s.status == 1 then t + HP_US else before.nextHp)
      && (done ==>
            && s.status == (if t >= before.nextHp then 1 else 0)
            && Pacer(after.nextMic, s.mic) == MicAfter(before.nextMic, t))
    }

    /** The due time of the microphone after a turn, and the packets of the turn. */
    function MicAfter(next: int, t: int): Pacer {
      if mic then Pacing.Tick(Pacer(next, 0), t, MicInterval(), 16) else Pacer(next, 0)
    }

    predicate WidebandAsked()
      reads this`wbEnable, this`wbSamples, this`wbBits, this`wbRateMs, this`wbFrame
    {
      StreamsFor(WbRegisters(wbEnable, wbSamples, wbBits, wbRateMs, wbFrame))
    }

    /** A turn sends at most eight bursts of packets. */
    lemma WideWithin(t: int, gone: nat -> bool, k: nat)
      ensures |FeedAfter(t, gone, k).log| <= |wbLog| + 8 * wbFrame
    {
      hide Wideband.Run, WbPause;
      if WidebandAsked() {
        Wideband.RunWithin(FeedNow(k, false), wbFrame, WbPause(wbRateMs, pace), t, 8 * wbFrame, gone);
      }
    }

    ghost function FeedNow(tried: nat, refused: bool): Wideband.Feed
      reads this`wbPktInFrame, this`nextWb, this`wbLog, this`wbBursts
    {
      Wideband.Feed(wbPktInFrame, nextWb, wbLog, wbBursts, tried, refused)
    }

    /** Where a turn that begins with send k leaves the wideband feed. */
    ghost function FeedAfter(t: int, gone: nat -> bool, k: nat): Wideband.Feed
      reads this`wbEnable, this`wbSamples, this`wbBits, this`wbRateMs, this`wbFrame, this`wbPktInFrame, this`nextWb,
            this`wbLog, this`wbBursts
    {
      if WidebandAsked() then
        Wideband.Run(FeedNow(k, false), wbFrame, WbPause(wbRateMs, pace), t, 8 * wbFrame, gone)
      else FeedNow(k, false)
    }

    /** Wideband bursts, back to back packets and then a pause. Only a send that is refused
        leaves a burst unfinished. */
    method StreamWide(t: int, gone: nat -> bool, k: nat) returns (dead: bool, k': nat)
      requires WbKept(true) && WbOnBudget() && t == clock
      modifies this`nextWb, this`wbPktInFrame, this`wbLog, this`wbBursts, this`torn
      ensures FeedNow(k', dead) == old(FeedAfter(t, gone, k)) && Tried(gone, k, k', dead)
      ensures torn == (old(torn) || (dead && wbPktInFrame > 0))
      ensures WbKept(!dead) && WbOnBudget()
    {
      hide Wideband.Kept, Tried, Paced, WbPause;
      dead, k' := false, k;
      TriedNone(gone, k);
      if !WidebandAsked() {
        return;
      }
      ghost var f := FeedNow(k, false);
      var iv := WbPause(wbRateMs, pace);
      Wideband.TurnKeeps(torn, wbPast, f, wbFrame, iv, t, gone);
      Wideband.RunTried(f, wbFrame, iv, t, 8 * wbFrame, gone);
      Wideband.RunPaced(f, wbFrame, iv, t, 8 * wbFrame, gone, wbSince);
      dead, k' := Feeding(t, gone, k, iv);
      torn := torn || (dead && wbPktInFrame > 0);
    }

    /** The loop. */
    method Feeding(t: int, gone: nat -> bool, k: nat, iv: int) returns (dead: bool, k': nat)
      modifies this`nextWb, this`wbPktInFrame, this`wbLog, this`wbBursts
      ensures FeedNow(k', dead) == Wideband.Run(old(FeedNow(k, false)), wbFrame, iv, t, 8 * wbFrame, gone)
    {
      hide Wideband.Run;
      dead, k' := false, k;
      var budget: nat := 8 * wbFrame;
      ghost var goal := Wideband.Run(FeedNow(k, false), wbFrame, iv, t, budget, gone);
      while t >= nextWb && budget > 0
        invariant Wideband.Run(FeedNow(k', false), wbFrame, iv, t, budget, gone) == goal
        decreases budget
      {
        Wideband.RunStep(FeedNow(k', false), wbFrame, iv, t, budget, gone);
        budget := budget - 1;
        dead := gone(k');
        k' := k' + 1;
        if dead {
          return;
        }
        wbLog := wbLog + [Wideband.Packet(wbPktInFrame, wbFrame)];
        wbPktInFrame := wbPktInFrame + 1;
        if wbPktInFrame >= wbFrame {
          wbPktInFrame := 0;
          wbBursts := wbBursts + 1;
          nextWb := nextWb + iv;
          if t - nextWb > RESYNC {
            nextWb := t;
          }
        }
      }
      Wideband.RunStep(FeedNow(k', false), wbFrame, iv, t, budget, gone);
    }

    /** The streams of one turn of the main loop, with the answers to its sends. Nothing is
        sent unless what runs was asked to by a block from this host, and goes to the peer that
        sent the last one; the streams end exactly when a send is refused. */
    method Tick(t: int, gone: nat -> bool) returns (ghost s: Sends)
      requires Valid() && t >= clock
      modifies this`clock, this`running, this`havePeer, this`nextIq, this`iqLog, this`account, this`nextHp, this`hpSeq,
               this`nextMic, this`micSeq, this`torn, this`nextWb, this`wbPktInFrame, this`wbLog, this`wbBursts,
               this`served, pkt, ddcs`seqNo, ddcs`stamp, ddcs`phase, ddcs`rng
      ensures Valid() && clock == t
      ensures !old(running) ==>
                && s == Sends(0, 0, 0, 0) && iqLog == old(iqLog) && ServiceNow() == old(ServiceNow())
                && FeedNow(0, false) == old(FeedNow(0, false)) && torn == old(torn)
      ensures old(running) ==> AskedHere(heard) && |heard| > 0 && heard[|heard| - 1].from == peer
      ensures Tried(gone, 0, s.All(), old(running) && !running) && (running ==> old(running))
      ensures IqTurn(old(IqNow()), IqNow(), s.iq, t, running)
      ensures Upkept(old(ServiceNow()), ServiceNow(), s, t, Tried(gone, 0, s.Upkeep(), false) && old(running), running)
      ensures old(running) && Tried(gone, 0, s.Upkeep(), false) ==>
                FeedNow(s.All(), !running) == old(FeedAfter(t, gone, s.Upkeep()))
      ensures torn == (old(torn) || (s.wide > 0 && !running && wbPktInFrame > 0))
    {
      hide Board.StreamsValid, Board.IqKept, Board.ServedOnBudget, Board.WbKept, Board.WbOnBudget, Board.Entitled;
      hide Board.FeedAfter, Board.FeedNow, Board.Upkept, Board.IqTurn, AskedHere, Tried;
      hide Sends.All, Sends.Upkeep;
      Later(t);
      Peered();
      if !running || !havePeer {
        s := Sends(0, 0, 0, 0);
        NoSends();
        TriedNone(gone, 0);
        UpkeptIdle(ServiceNow(), 0, t);
        StandStill();
        return;
      }
      Licence();
      s := Send(t, gone);
    }

    /** The turn of a board that streams. */
    method Send(t: int, gone: nat -> bool) returns (ghost s: Sends)
      requires StreamsValid() && IqKept(true) && ServedOnBudget() && WbKept(true) && WbOnBudget() && t == clock
      requires running && Entitled(true)
      modifies this`running, this`havePeer, this`nextIq, this`iqLog, this`account, this`nextHp, this`hpSeq,
               this`nextMic, this`micSeq, this`torn, this`nextWb, this`wbPktInFrame, this`wbLog, this`wbBursts,
               this`served, pkt, ddcs`seqNo, ddcs`stamp, ddcs`phase, ddcs`rng
      ensures StreamsValid() && IqKept(running) && Entitled(running)
      ensures ServedOnBudget() && WbKept(running) && WbOnBudget()
      ensures Tried(gone, 0, s.All(), !running) && IqTurn(old(IqNow()), IqNow(), s.iq, t, running)
      ensures Upkept(old(ServiceNow()), ServiceNow(), s, t, Tried(gone, 0, s.Upkeep(), false), running)
      ensures Tried(gone, 0, s.Upkeep(), false) ==>
                FeedNow(s.All(), !running) == old(FeedAfter(t, gone, s.Upkeep()))
      ensures torn == (old(torn) || (s.wide > 0 && !running && wbPktInFrame > 0))
    {
      hide Board.StreamsValid, Board.IqKept, Board.ServedOnBudget, Board.WbKept, Board.WbOnBudget, Board.Entitled;
      hide Board.FeedAfter, Board.FeedNow, Board.Upkept, Board.IqTurn, Tried;
      var dead;
      dead, s := Streams(t, gone);
      if dead {
        Stop();
      }
    }

    lemma NoSends()
      ensures Sends(0, 0, 0, 0).All() == 0
    {}

    lemma Peered()
      requires Entitled(running)
      ensures running ==> havePeer
    {}

    lemma Licence()
      requires Entitled(true)
      ensures AskedHere(heard) && |heard| > 0 && heard[|heard| - 1].from == peer
    {
      hide Accepted, AskedHere, AskedToRun;
      AskedByPeer(heard);
    }

    method Stop()
      requires Entitled(running)
      modifies this`running, this`havePeer
      ensures !running && !havePeer && Entitled(running)
    {
      running, havePeer := false, false;
    }

    /** Everything that is due, in the order of the loop, until a send is refused. */
    method Streams(t: int, gone: nat -> bool) returns (dead: bool, ghost s: Sends)
      requires StreamsValid() && IqKept(true) && ServedOnBudget() && WbKept(true) && WbOnBudget() && t == clock
      modifies this`nextIq, this`iqLog, this`account, this`nextHp, this`hpSeq, this`nextMic, this`micSeq, this`torn,
               this`nextWb, this`wbPktInFrame, this`wbLog, this`wbBursts, this`served, pkt, ddcs`seqNo, ddcs`stamp,
               ddcs`phase, ddcs`rng
      ensures StreamsValid() && IqKept(!dead) && ServedOnBudget() && WbKept(!dead) && WbOnBudget()
      ensures Tried(gone, 0, s.All(), dead) && IqTurn(old(IqNow()), IqNow(), s.iq, t, !dead)
      ensures Upkept(old(ServiceNow()), ServiceNow(), s, t, Tried(gone, 0, s.Upkeep(), false), !dead)
      ensures Tried(gone, 0, s.Upkeep(), false) ==>
                FeedNow(s.All(), dead) == old(FeedAfter(t, gone, s.Upkeep()))
      ensures torn == (old(torn) || (s.wide > 0 && dead && wbPktInFrame > 0))
    {
      hide Board.StreamsValid, Board.IqKept, Board.ServedOnBudget, Board.WbKept, Board.WbOnBudget, Board.FeedAfter;
      hide Board.FeedNow, Board.Upkept, Board.IqTurn, Tried;
      var k, k';
      dead, k, s := Upkeep(t, gone);
      if dead {
        Refused(gone, 0, k);
        Ended();
        return;
      }
      TurnBegun(old(IqNow()), IqNow(), s.iq, t);
      dead, k' := StreamWide(t, gone, k);
      TriedOn(gone, 0, k, k', dead);
      TriedGrows(gone, k, k', dead);
      UpkeptOn(old(ServiceNow()), ServiceNow(), s, t, true, k' - k, !dead);
      s := s.(wide := k' - k);
      if dead {
        LogEnds();
      }
    }

    /** Everything but the wideband feed. */
    method Upkeep(t: int, gone: nat -> bool) returns (dead: bool, k: nat, ghost s: Sends)
      requires StreamsValid() && IqKept(true) && ServedOnBudget() && t == clock
      modifies this`nextIq, this`iqLog, this`account, this`nextHp, this`hpSeq, this`nextMic, this`micSeq,
               this`served, pkt, ddcs`seqNo, ddcs`stamp, ddcs`phase, ddcs`rng
      ensures StreamsValid() && IqKept(!dead) && ServedOnBudget()
      ensures Tried(gone, 0, k, dead) && s.wide == 0 && k == s.All()
      ensures IqTurn(old(IqNow()), IqNow(), s.iq, t, !dead)
      ensures Upkept(old(ServiceNow()), ServiceNow(), s, t, !dead, !dead)
    {
      hide Board.StreamsValid, Board.IqKept, Board.ServedOnBudget, Board.MicDone, Board.StatusDone, Board.Upkept;
      hide Board.IqTurn, Tried;
      ghost var service := ServiceNow();
      dead, k := StreamAll(t, gone);
      s := Sends(k, 0, 0, 0);
      UpkeptIdle(service, k, t);
      if dead {
        return;
      }
      TurnBegun(old(IqNow()), IqNow(), k, t);
      dead, k := Status(t, gone, k);
      s := s.(status := k - s.iq);
      UpkeptStatus(service, s, t);
      TriedOn(gone, 0, s.iq, k, dead);
      if dead {
        LogEnds();
        return;
      }
      ghost var k0 := k;
      dead, k := Microphone(t, gone, k);
      s := s.(mic := k - k0);
      UpkeptBoth(service, ServiceNow(), s, t, dead);
      TriedOn(gone, 0, k0, k, dead);
      if dead {
        LogEnds();
      }
    }

    /** The logs of streams that end after a packet that went out are kept. */
    lemma LogEnds()
      requires IqKept(true)
      ensures IqKept(false)
    {}

    lemma TurnBegun(before: IqState, after: IqState, n: nat, t: int)
      requires IqTurn(before, after, n, t, true)
      ensures IqTurn(before, after, n, t, false)
    {}

    lemma UpkeptIdle(service: Service, iq: nat, t: int)
      ensures Upkept(service, service, Sends(iq, 0, 0, 0), t, false, false)
    {
      hide Board.MicAfter;
    }

    lemma UpkeptStatus(service: Service, s: Sends, t: int)
      requires s.status == (if t >= service.nextHp then 1 else 0) && s.mic == 0
      ensures Upkept(service, StatusDone(service, t), s, t, false, false)
    {
      hide Board.MicAfter;
    }

    lemma UpkeptBoth(before: Service, after: Service, s: Sends, t: int, dead: bool)
      requires s.status == (if t >= before.nextHp then 1 else 0)
      requires MicDone(StatusDone(before, t), after, s.mic, t, dead)
      ensures Upkept(before, after, s, t, !dead, !dead)
    {
      hide Board.MicAfter;
    }

    lemma UpkeptOn(before: Service, after: Service, s: Sends, t: int, done: bool, wide: nat, on: bool)
      requires Upkept(before, after, s, t, done, true)
      ensures Upkept(before, after, s.(wide := wide), t, done, on)
    {
      hide Board.MicAfter;
    }

    /** The wideband logs of a stream that ends between bursts are kept. */
    lemma Ended()
      requires WbKept(true)
      ensures WbKept(false)
    {
      hide Wideband.Whole;
    }

    lemma StandStill()
      requires StreamsValid()
      ensures IqTurn(IqNow(), IqNow(), 0, clock, false)
    {
      hide StampAfter, PerStream;
      StampsStay(IqNow(), ddcs.sync);
    }
  }

  /** A packet sent when it was due keeps every account. */
  lemma SentBudgeted(a: Account, next: seq<int>, clock: int, intervals: seq<int>, d: nat)
    requires Budgeted(a, next, clock, intervals) && d < MAX_DDC && clock >= next[d] && intervals[d] >= 1
    ensures var p := Sent(Pacer(next[d], a.count[d]), clock, intervals[d]);
            Budgeted(a.(count := a.count[d := p.sent]), next[d := p.next], clock, intervals)
  {
    hide Span;
    SpanNext(a.count[d], intervals[d]);
    assert Paced(Pacer(next[d], a.count[d]), a.since[d], clock, intervals[d]);
  }
}
