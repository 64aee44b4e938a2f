/** A run of the board of p2_emu.c in which a burst is torn and taken up in the middle. */
module P2Witness {
  import opened Pacing
  import opened P2Packet
  import opened P2Board

  /** A general block that asks for bursts of two packets of one 16-bit sample. */
  function AskWideband(): Datagram {
    Datagram(General, true, 0, seq(29, i => if i == 23 || i == 25 || i == 27 then 1
                                            else if i == 26 then 16 else if i == 28 then 2 else 0))
  }

  function AskRun(): Datagram {
    Datagram(HighPrio, true, 0, seq(1444, i => if i == 4 then 1 else 0))
  }

  lemma AskedWideband()
    ensures Accepted(AskWideband()) && IsGeneral(AskWideband()) && !IsHighPriority(AskWideband())
    ensures WbOf(AskWideband().bytes) == WbRegisters(true, 1, 16, 1, 2)
  {
    assert AskWideband().bytes[4] == 0;
    assert AskWideband().bytes[..5][4] == 0;
  }

  lemma AskedRun()
    ensures Accepted(AskRun()) && !IsGeneral(AskRun()) && !IsRxSpec(AskRun())
    ensures IsHighPriority(AskRun()) && RunBit(AskRun())
  {}

  /** The answers: the third send of the turn is refused, or none. */
  function ThirdRefused(): nat -> bool {
    k => k == 2
  }

  function NoneRefused(): nat -> bool {
    k => false
  }

  /** The first packet of the burst goes out, the second is refused. */
  lemma TornTurn(bursts: nat, iv: int)
    ensures Wideband.Run(Wideband.Feed(0, 0, [], bursts, 1, false), 2, iv, 0, 16, ThirdRefused()) ==
            Wideband.Feed(1, 0, [Wideband.Packet(0, 2)], bursts, 3, true)
  {
    var f := Wideband.Feed(0, 0, [], bursts, 1, false);
    var g := Wideband.Sent(f, 2, iv, 0);
    assert g == Wideband.Feed(1, 0, [Wideband.Packet(0, 2)], bursts, 2, false);
    assert Wideband.Run(f, 2, iv, 0, 16, ThirdRefused()) == Wideband.Run(g, 2, iv, 0, 15, ThirdRefused());
  }

  /** The next stream begins with the second packet. */
  lemma ResumedTurn(bursts: nat, iv: int)
    requires iv >= 1
    ensures Wideband.Run(Wideband.Feed(1, 1, [], bursts, 1, false), 2, iv, 1, 16, NoneRefused()).log ==
            [Wideband.Packet(1, 2)]
  {
    var f := Wideband.Feed(1, 1, [], bursts, 1, false);
    var g := Wideband.Sent(f, 2, iv, 1);
    assert Wideband.Run(f, 2, iv, 1, 16, NoneRefused()) == Wideband.Run(g, 2, iv, 1, 15, NoneRefused());
  }

  lemma Answers(k: nat)
    ensures Tried(ThirdRefused(), 0, 1, false) && Tried(NoneRefused(), 0, 1, false)
    ensures !Tried(NoneRefused(), 0, k, true)
  {}

  /** Nothing but the wideband feed is asked for: two 16-bit packets a burst. */
  ghost predicate WideOnly(b: Board)
    reads b, b.ddcs
  {
    b.Valid() && b.enable == {} && !b.mic && b.pace == 1.0 && b.WbNow() == WbRegisters(true, 1, 16, 1, 2)
  }

  /** One turn with the status packet due. */
  method Turn(b: Board, t: int, gone: nat -> bool) returns (ghost tried: nat)
    requires WideOnly(b) && b.running && t >= b.clock && b.nextHp <= t && Tried(gone, 0, 1, false)
    modifies b, b.pkt, b.ddcs
    ensures WideOnly(b) && b.clock == t && Tried(gone, 0, tried, !b.running)
    ensures b.FeedNow(tried, !b.running) ==
            Wideband.Run(old(b.FeedNow(1, false)), 2, WbPause(1, 1.0), t, 16, gone)
    ensures b.torn == (old(b.torn) || (1 < tried && !b.running && b.wbPktInFrame > 0))
  {
    hide Board.StreamsValid, Board.IqKept, Board.ServedOnBudget, Board.Entitled, Board.WbKept, Board.WbOnBudget;
    hide Grown, Ticked, OnAir, Tried, Total, WbPause, Board.Upkept;
    ghost var log, service := b.iqLog, b.ServiceNow();
    ghost var s := b.Tick(t, gone);
    Quiet(log, b.iqLog, b.ddcs.sync);
    StatusOnly(b, service, b.ServiceNow(), s, t, gone, b.running);
    tried := s.All();
  }

  /** With every DDC off the logs stay as they are. */
  lemma Quiet(before: seq<seq<nat>>, after: seq<seq<nat>>, sync: seq<set<nat>>)
    requires Grown(before, after, OnAir({}, sync))
    ensures Total(after) == Total(before)
  {
    hide Total;
    TotalSame(before, after);
  }

  lemma StatusOnly(b: Board, before: Service, after: Service, s: Sends, t: int, gone: nat -> bool, on: bool)
    requires b.Upkept(before, after, s, t, Tried(gone, 0, s.Upkeep(), false), on)
    requires !b.mic && s.iq == 0 && t >= before.nextHp && Tried(gone, 0, 1, false)
    ensures s.Upkeep() == 1 && Tried(gone, 0, s.Upkeep(), false)
  {
    hide Board.MicAfter;
  }

  /** A start of the stopped board. */
  method Restart(b: Board, now: int)
    requires WideOnly(b) && !b.running && now >= b.clock
    modifies b, b.ddcs
    ensures WideOnly(b) && b.running && b.clock == now && b.nextHp == now && b.nextWb == now && b.wbLog == []
    ensures b.wbPktInFrame == old(b.wbPktInFrame) && b.torn == old(b.torn)
  {
    hide Board.StreamsValid, Board.IqKept, Board.ServedOnBudget, Board.Entitled, Board.WbKept, Board.WbOnBudget;
    hide Accepted, IsGeneral, IsRxSpec;
    hide IsHighPriority, RunBit, AskRun;
    AskedRun();
    var reply := b.Receive(AskRun(), now);
  }

  method Ready(o: Options) returns (b: Board)
    ensures fresh(b) && fresh(b.ddcs) && fresh(b.pkt) && WideOnly(b) && !b.running && b.clock == 0
    ensures b.wbPktInFrame == 0 && !b.torn
  {
    hide Board.StreamsValid, Board.IqKept, Board.ServedOnBudget, Board.Entitled, Board.WbKept, Board.WbOnBudget;
    hide Accepted, IsGeneral, IsRxSpec;
    hide IsHighPriority, RunBit, WbOf, AskWideband;
    AskedWideband();
    b := new Board(o, 0, 1.0, false, 0);
    var reply := b.Receive(AskWideband(), 0);
  }

  /** Started, refused inside a burst, and started again: the first wideband number is 1, and
      the packets of the streams are not whole bursts. */
  method TornBurst(o: Options) returns (b: Board)
    ensures b.Valid() && b.torn && b.wbLog == [Wideband.Packet(1, 2)]
    ensures !Wideband.AllWhole(b.wbPast + [b.wbLog])
  {
    hide Wideband.Run, Wideband.AllWhole, Board.Valid, ThirdRefused, NoneRefused, Tried, WbPause;
    b := Ready(o);
    Restart(b, 0);
    TornTurn(b.wbBursts, WbPause(1, 1.0));
    Answers(0);
    ghost var tried := Turn(b, 0, ThirdRefused());
    Restart(b, 1);
    ResumedTurn(b.wbBursts, WbPause(1, 1.0));
    tried := Turn(b, 1, NoneRefused());
    b.BurstsWhole();
  }
}
