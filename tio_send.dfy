// Tio.send and its fan-out helpers: the guards in front of the send queue,
// and the loops that send one packet to every connection of a set, of a
// token or of a user.

module TioSend {
  import opened Util
  import opened Context
  import opened Config
  import opened CloseTask
  import TioClose
  import SendPacketTask
  import Tokens
  import Users

  /** Where the guards of `send` leave a packet. */
  datatype Gate =
    | NoTarget          // no packet or no connection
    | Virtual           // a virtual connection swallows the packet
    | Dead              // the connection is closed or removed
    | Dropped           // the converter turned the packet into nothing
    | Enqueue(packet: Packet)

  /**
   * The guards of `send`, in the order they run. `converted` is what the
   * packet converter made of the packet for this connection, or None when
   * there is no converter.
   */
  function SendGate(present: bool, isVirtual: bool, isClosed: bool, isRemoved: bool,
                    converted: Option<Option<Packet>>, packet: Packet): (g: Gate)
    ensures g.Enqueue? <==>
      present && !isVirtual && !isClosed && !isRemoved && (converted.None? || converted.value.Some?)
    ensures g == Virtual <==> present && isVirtual
    ensures g == Dead <==> present && !isVirtual && (isClosed || isRemoved)
    ensures g.Enqueue? && converted.None? ==> g.packet == packet
    ensures g.Enqueue? && converted.Some? ==> Some(g.packet) == converted.value
  {
    if !present then NoTarget
    else if isVirtual then Virtual
    else if isClosed || isRemoved then Dead
    else if converted.None? then Enqueue(packet)
    else match converted.value
      case None => Dropped
      case Some(q) => Enqueue(q)
  }

  /** `convert(packet, channelContext)` of the config's converter, or None when there is none. */
  function Converted(cfg: TioConfig, cc: ChannelContext, packet: Packet): Option<Option<Packet>>
  {
    match cfg.handlers.converter
    case None => None
    case Some(convert) => Some(convert(packet, cc))
  }

  /** The gate a call of `send` meets, read from the connection's state. */
  function GateOf(cfg: TioConfig, cc: ChannelContext?, packet: Option<Packet>): Gate
    reads cc
  {
    if cc == null || packet.None? then NoTarget
    else SendGate(true, cc.isVirtual, cc.isClosed, cc.isRemoved, Converted(cfg, cc, packet.value), packet.value)
  }

  /** What `send` answers at a gate that never reaches the queue. */
  function EarlyAnswer(g: Gate): (ok: bool)
    requires !g.Enqueue?
    ensures ok <==> g == Virtual || g == Dropped
  {
    g == Virtual || g == Dropped
  }

  /**
   * Whether `send` counts the caller's latch down: at every early exit but
   * the converter's, and when the queue refuses the packet.
   */
  predicate CountsDown(g: Gate, initiated: bool)
  {
    if g.Enqueue? then !initiated else g != Dropped
  }

  /** An early exit counts the latch down exactly when it is not the converter's drop. */
  lemma EarlyExitsCountDown(g: Gate, initiated: bool)
    requires !g.Enqueue?
    ensures CountsDown(g, initiated) <==> g != Dropped
    ensures CountsDown(g, initiated) ==> (EarlyAnswer(g) <==> g == Virtual)
  {
  }

  /** A closed or removed connection takes nothing, unless it is virtual. */
  lemma DeadConnectionRefuses(cfg: TioConfig, cc: ChannelContext, packet: Packet)
    requires !cc.isVirtual && (cc.isClosed || cc.isRemoved)
    ensures GateOf(cfg, cc, Some(packet)) == Dead
    ensures !EarlyAnswer(GateOf(cfg, cc, Some(packet))) && CountsDown(GateOf(cfg, cc, Some(packet)), false)
  {
  }

  /** The latch count after `send` counted it down or not. */
  function LatchAfter(count: nat, countsDown: bool): (n: nat)
    ensures countsDown && count > 0 ==> n == count - 1
    ensures !countsDown ==> n == count
  {
    if countsDown && count > 0 then count - 1 else count
  }

  /** The latches a call may count down. */
  function LatchSet(latch: Option<CountDownLatch>): (s: set<CountDownLatch>)
    ensures latch.Some? ==> s == {latch.value}
    ensures latch.None? ==> s == {}
  {
    if latch.Some? then {latch.value} else {}
  }

  /** The send machinery of a possibly null connection, as a frame. */
  function Machinery(cc: ChannelContext?): (s: set<object>)
    ensures cc != null ==> s == {cc.sendQueue, cc.isSending, cc.writer}
    ensures cc == null ==> s == {}
  {
    if cc == null then {} else {cc.sendQueue, cc.isSending, cc.writer}
  }

  /** What `send` needs of a connection's queue: FIFO order and at most one write in flight. */
  ghost predicate SendReady(cc: ChannelContext)
    reads cc.sendQueue, cc.writer, cc.isSending
  {
    cc.sendQueue.Fifo() && SendPacketTask.SingleFlight(cc)
  }

  /**
   * The answer `send` gives a live member when no latch is passed, read
   * from the member's state before the call: the early answer at a gate
   * that stops the packet; otherwise true while a write is in flight, and
   * else whether the queue's head could be turned into wire bytes.
   */
  ghost function SendAnswer(cfg: TioConfig, c: ChannelContext, packet: Packet): bool
    reads c, c.sendQueue, c.isSending
  {
    AnswerIn(cfg, c, StateOf(c), packet)
  }

  /** The part of a member's state one `send` reads: its flags, its queue and its sending flag. */
  datatype SendState = SendState(isClosed: bool, isRemoved: bool, queued: seq<Packet>, offered: seq<Packet>,
                                 sending: bool)

  ghost function StateOf(c: ChannelContext): SendState
    reads c, c.sendQueue, c.isSending
  {
    SendState(c.isClosed, c.isRemoved, c.sendQueue.packets, c.sendQueue.offered, c.isSending.value)
  }

  /** The gate of `send` for a member in state `s`. */
  function GateIn(cfg: TioConfig, c: ChannelContext, s: SendState, packet: Packet): Gate
  {
    SendGate(true, c.isVirtual, s.isClosed, s.isRemoved, Converted(cfg, c, packet), packet)
  }

  /** The answer of `send`, without a latch, for a member in state `s`. */
  function AnswerIn(cfg: TioConfig, c: ChannelContext, s: SendState, packet: Packet): bool
  {
    var g := GateIn(cfg, c, s, packet);
    if !g.Enqueue? then EarlyAnswer(g)
    else s.sending || SendPacketTask.WireBytes(cfg, (s.queued + [g.packet])[0], g.packet).Some?
  }

  /**
   * What one `send` leaves in a member's queue, given what had been offered
   * before and the gate it met: the gate's packet appended once (with a new
   * meta when a latch is passed, so `exact` says whether it is the packet
   * itself), or nothing at a gate that stops it.
   */
  ghost predicate Delivered(before: seq<Packet>, after: seq<Packet>, g: Gate, exact: bool)
  {
    if g.Enqueue? then
      && |after| == |before| + 1 && after[..|before|] == before
      && after[|before|].(meta := g.packet.meta) == g.packet
      && (exact ==> after == before + [g.packet])
    else after == before
  }

  /** The gate a member meets in the fan-out: held back by the filter, or the gate of `send`. */
  function FanGate(cfg: TioConfig, filter: Option<ChannelContext -> bool>, c: ChannelContext, packet: Packet): Gate
    reads c
  {
    if Passes(filter, c) then GateOf(cfg, c, Some(packet)) else NoTarget
  }

  /**
   * The private `send`: the guards, then the packet (converted, and tagged
   * with the latch when there is one) goes to the connection's queue. The
   * answer is the queue's for an enqueued packet and the gate's otherwise;
   * the latch is counted down at every refusal except the converter's drop.
   */
  method Send(cfg: TioConfig, cc: ChannelContext?, packet: Option<Packet>, latch: Option<CountDownLatch>)
    returns (ok: bool)
    requires cc != null ==> SendReady(cc)
    modifies Machinery(cc), LatchSet(latch)
    modifies TioClose.Ctx(cc)`isWaitingClose, TioClose.Ctx(cc)`closeCode, TioClose.Ctx(cc)`channel
    modifies TioClose.Ctx(cc)`closeMeta, TioClose.Ctx(cc)`isRemoved, TioClose.Ctx(cc)`isClosed
    modifies TioClose.Ctx(cc)`clientNode, TioClose.StatOf(cc)`timeClosed
    modifies cfg.book`events, cfg.book`closeds, cfg.book`connecteds, cfg.book`unknownPortSeq
    modifies cfg.groupStat`closed, cfg.clientNodes
    ensures cc != null ==> SendReady(cc)
    ensures var g := old(GateOf(cfg, cc, packet));
      && (!g.Enqueue? ==> ok == EarlyAnswer(g))
      && (latch.Some? ==> latch.value.count == LatchAfter(old(latch.value.count), CountsDown(g, ok)))
    ensures var g := old(GateOf(cfg, cc, packet));
      !g.Enqueue? && cc != null ==>
        cc.sendQueue.offered == old(cc.sendQueue.offered) && cc.sendQueue.packets == old(cc.sendQueue.packets)
    ensures var g := old(GateOf(cfg, cc, packet));
      g.Enqueue? ==>
        && |cc.sendQueue.offered| == |old(cc.sendQueue.offered)| + 1
        && var sent := cc.sendQueue.offered[|old(cc.sendQueue.offered)|];
        && cc.sendQueue.offered == old(cc.sendQueue.offered) + [sent]
        && sent.(meta := g.packet.meta) == g.packet
        && (latch.None? ==> sent.meta == g.packet.meta)
        && (latch.Some? ==> sent.meta.Some? && fresh(sent.meta.value) && sent.meta.value.latch == latch
                            && sent.meta.value.isSentSuccess.None?)
        && (old(cc.isSending.value) ==> ok)
        && (!old(cc.isSending.value) ==>
              (ok <==> SendPacketTask.WireBytes(cfg, (old(cc.sendQueue.packets) + [sent])[0], sent).Some?))
  {
    if packet.None? || cc == null {
      if latch.Some? {
        latch.value.CountDown();
      }
      return false;
    }
    if cc.isVirtual {
      if latch.Some? {
        latch.value.CountDown();
      }
      return true;
    }
    if cc.isClosed || cc.isRemoved {
      if latch.Some? {
        latch.value.CountDown();
      }
      return false;
    }
    var p := packet.value;
    if cfg.handlers.converter.Some? {
      var converted := cfg.handlers.converter.value(p, cc);
      if converted.None? {
        return true;
      }
      p := converted.value;
    }
    ok := Queue(cfg, cc, p, latch);
  }

  /**
   * The end of `send`: the packet, tagged with the latch when there is
   * one, goes to the queue, and a refusal counts the latch down.
   */
  method Queue(cfg: TioConfig, cc: ChannelContext, packet: Packet, latch: Option<CountDownLatch>)
    returns (ok: bool)
    requires SendReady(cc)
    modifies cc.sendQueue, cc.isSending, cc.writer, LatchSet(latch)
    modifies cc`isWaitingClose, cc`closeCode, cc`channel, cc`closeMeta
    modifies cc`isRemoved, cc`isClosed, cc`clientNode, cc.stat`timeClosed
    modifies cfg.book`events, cfg.book`closeds, cfg.book`connecteds, cfg.book`unknownPortSeq
    modifies cfg.groupStat`closed, cfg.clientNodes
    ensures SendReady(cc)
    ensures latch.Some? ==> latch.value.count == LatchAfter(old(latch.value.count), !ok)
    ensures |cc.sendQueue.offered| == |old(cc.sendQueue.offered)| + 1
    ensures var sent := cc.sendQueue.offered[|old(cc.sendQueue.offered)|];
      && cc.sendQueue.offered == old(cc.sendQueue.offered) + [sent]
      && sent.(meta := packet.meta) == packet
      && (latch.None? ==> sent.meta == packet.meta)
      && (latch.Some? ==> sent.meta.Some? && fresh(sent.meta.value) && sent.meta.value.latch == latch
                          && sent.meta.value.isSentSuccess.None?)
    ensures old(cc.isSending.value) ==> ok
    ensures var sent := cc.sendQueue.offered[|old(cc.sendQueue.offered)|];
      !old(cc.isSending.value) ==>
        (ok <==> SendPacketTask.WireBytes(cfg, (old(cc.sendQueue.packets) + [sent])[0], sent).Some?)
  {
    var p := packet;
    if latch.Some? {
      var meta := new PacketMeta(latch);
      p := p.(meta := Some(meta));
    }
    ok := SendPacketTask.SendPacket(cfg, cc, p);
    if !ok {
      if latch.Some? {
        latch.value.CountDown();
      }
    }
  }

  /** Whether a connection passes the optional filter of `sendToSet`. */
  predicate Passes(filter: Option<ChannelContext -> bool>, c: ChannelContext)
  {
    filter.None? || filter.value(c)
  }

  /** The members of a set that `sendToSet` sends to. */
  function Targets(members: set<ChannelContext>, filter: Option<ChannelContext -> bool>): (t: set<ChannelContext>)
    ensures t <= members
    ensures filter.None? ==> t == members
  {
    set c | c in members && Passes(filter, c)
  }

  /** The seconds a blocking group send waits: a fifth of a second per target, and at least ten. */
  function BlockTimeout(sendCount: nat): (t: int)
    ensures t >= 10
    ensures t == 10 || t == sendCount / 5
    ensures sendCount < 55 ==> t == 10
  {
    Max(sendCount / 5, 10)
  }

  /** From fifty targets on, the timeout allows one second for every five targets, rounded down. */
  lemma BlockTimeoutScales(n: nat)
    requires n >= 50
    ensures 5 * BlockTimeout(n) <= n < 5 * BlockTimeout(n) + 5
  {
  }

  /** The statistics of every member of a set. */
  function StatsOf(members: set<ChannelContext>): set<ChannelStat>
  {
    set c | c in members :: c.stat
  }

  /** Distinct members do not share a queue, a sending flag or a writer. */
  ghost predicate Separate(members: set<ChannelContext>)
  {
    forall a, b :: a in members && b in members && a != b ==>
      a.sendQueue != b.sendQueue && a.isSending != b.isSending && a.writer != b.writer
  }

  /** The queues, flags and writers of a set of connections. */
  ghost predicate Covers(members: set<ChannelContext>, queues: set<SendQueue>, flags: set<AtomicBoolean>,
                         writers: set<SocketWriter>)
  {
    forall c :: c in members ==> c.sendQueue in queues && c.isSending in flags && c.writer in writers
  }

  ghost predicate AllReady(members: set<ChannelContext>, queues: set<SendQueue>, flags: set<AtomicBoolean>,
                           writers: set<SocketWriter>)
    reads queues, flags, writers
  {
    forall c :: c in members && c.sendQueue in queues && c.isSending in flags && c.writer in writers ==> SendReady(c)
  }

  /**
   * The loop of `sendToSet`: every member the filter lets through gets the
   * packet (with the latch when there is one), and every member it holds
   * back counts the latch down. Of the sends, `accepted` are those that
   * answered true, and `refused` those that counted the latch down: every
   * send that answered false, and one that answered true only on a virtual
   * connection. Every member's queue ends with what its gate lets through.
   */
  method FanOut(cfg: TioConfig, members: set<ChannelContext>, packet: Packet,
                filter: Option<ChannelContext -> bool>, latch: Option<CountDownLatch>,
                ghost queues: set<SendQueue>, ghost flags: set<AtomicBoolean>, ghost writers: set<SocketWriter>)
    returns (sendCount: nat, ghost accepted: set<ChannelContext>, ghost refused: set<ChannelContext>)
    requires Covers(members, queues, flags, writers) && Separate(members) && AllReady(members, queues, flags, writers)
    requires latch.Some? ==> latch.value.count >= |members|
    modifies queues, flags, writers, LatchSet(latch)
    modifies members, StatsOf(members)
    modifies cfg.book`events, cfg.book`closeds, cfg.book`connecteds, cfg.book`unknownPortSeq
    modifies cfg.groupStat`closed, cfg.clientNodes
    ensures AllReady(members, queues, flags, writers)
    ensures sendCount == |Targets(members, filter)|
    ensures accepted <= Targets(members, filter) && refused <= Targets(members, filter)
    ensures Targets(members, filter) - accepted <= refused
    ensures refused * accepted <= Virtuals(members)
    ensures latch.Some? ==>
      latch.value.count == old(latch.value.count) - |members - Targets(members, filter)| - |refused|
    ensures forall d :: d in members ==>
      Delivered(old(d.sendQueue.offered), d.sendQueue.offered, old(FanGate(cfg, filter, d, packet)), latch.None?)
  {
    ghost var states := Snapshot(members);
    FanEntry(cfg, members, packet, filter, states);
    sendCount, accepted, refused := FanLoop(cfg, members, packet, filter, latch, queues, flags, writers, states);
    ghost var now := Snapshot(members);
    OfferedNow(members, now);
    FanDone(cfg, members, packet, filter, latch.None?, states, now);
  }

  /** The loop of `FanOut`, from the states its members had before it. */
  method FanLoop(cfg: TioConfig, members: set<ChannelContext>, packet: Packet,
                 filter: Option<ChannelContext -> bool>, latch: Option<CountDownLatch>,
                 ghost queues: set<SendQueue>, ghost flags: set<AtomicBoolean>, ghost writers: set<SocketWriter>,
                 ghost states: map<ChannelContext, SendState>)
    returns (sendCount: nat, ghost accepted: set<ChannelContext>, ghost refused: set<ChannelContext>)
    requires Covers(members, queues, flags, writers) && Separate(members) && AllReady(members, queues, flags, writers)
    requires latch.Some? ==> latch.value.count >= |members|
    requires states == Snapshot(members)
    modifies queues, flags, writers, LatchSet(latch)
    modifies members, StatsOf(members)
    modifies cfg.book`events, cfg.book`closeds, cfg.book`connecteds, cfg.book`unknownPortSeq
    modifies cfg.groupStat`closed, cfg.clientNodes
    ensures AllReady(members, queues, flags, writers)
    ensures sendCount == |Targets(members, filter)|
    ensures accepted <= Targets(members, filter) && refused <= Targets(members, filter)
    ensures Targets(members, filter) - accepted <= refused
    ensures refused * accepted <= Virtuals(members)
    ensures latch.Some? ==>
      latch.value.count == old(latch.value.count) - |members - Targets(members, filter)| - |refused|
    ensures FanSoFar(cfg, members, packet, filter, latch.None?, states, Snapshot(members), {})
  {
    sendCount := 0;
    accepted, refused := {}, {};
    var rest := members;
    ghost var sent: set<ChannelContext> := {};
    ghost var start := LatchCount(latch);
    while rest != {}
      invariant AllReady(members, queues, flags, writers)
      invariant Progress(members, rest, filter, sent, accepted, refused, sendCount, LatchCount(latch), start)
      invariant FanSoFar(cfg, members, packet, filter, latch.None?, states, Snapshot(members), rest)
      decreases |rest|
    {
      var c :| c in rest;
      sendCount, sent, accepted, refused :=
        Visit(cfg, members, rest, c, packet, filter, latch, queues, flags, writers, sendCount, start, sent, accepted, refused,
              states);
      rest := rest - {c};
    }
    TallyDone(members, filter, sent, accepted, refused);
  }


  /** When every member has been visited, the sends are exactly the targets. */
  lemma TallyDone(members: set<ChannelContext>, filter: Option<ChannelContext -> bool>,
                  sent: set<ChannelContext>, accepted: set<ChannelContext>, refused: set<ChannelContext>)
    requires Tally(members, {}, filter, sent, accepted, refused)
    ensures sent == Targets(members, filter)
    ensures accepted <= sent && refused <= sent && sent - accepted <= refused
    ensures refused * accepted <= Virtuals(members)
    ensures Debt(members, {}, sent, refused) == |members - Targets(members, filter)| + |refused|
  {
    assert members - {} == members;
  }

  /** The virtual members of a set. */
  function Virtuals(members: set<ChannelContext>): (v: set<ChannelContext>)
    ensures v <= members
  {
    set c | c in members && c.isVirtual
  }

  /**
   * The bookkeeping of the fan-out: the sends so far are the targets among
   * the visited members; a send that was not accepted counted the latch
   * down, and one that was accepted did so only on a virtual connection.
   */
  ghost predicate Tally(members: set<ChannelContext>, rest: set<ChannelContext>, filter: Option<ChannelContext -> bool>,
                        sent: set<ChannelContext>, accepted: set<ChannelContext>, refused: set<ChannelContext>)
  {
    && sent == Targets(members - rest, filter)
    && accepted <= sent && refused <= sent
    && sent - accepted <= refused
    && refused * accepted <= Virtuals(members)
  }

  /** The latch's count, when there is a latch. */
  function LatchCount(latch: Option<CountDownLatch>): (n: Option<int>)
    reads LatchSet(latch)
    ensures n.Some? <==> latch.Some?
    ensures latch.Some? ==> n.value == latch.value.count
  {
    if latch.Some? then Some(latch.value.count) else None
  }

  /**
   * What the fan-out loop keeps: the bookkeeping of the members visited,
   * one send counted per target, and the latch lowered from where it
   * started by one per count-down so far.
   */
  ghost predicate Progress(members: set<ChannelContext>, rest: set<ChannelContext>, filter: Option<ChannelContext -> bool>,
                           sent: set<ChannelContext>, accepted: set<ChannelContext>, refused: set<ChannelContext>,
                           sendCount: nat, left: Option<int>, start: Option<int>)
  {
    && rest <= members
    && Tally(members, rest, filter, sent, accepted, refused) && sendCount == |sent|
    && Debt(members, rest, sent, refused) <= |members| - |rest|
    && (left.Some? <==> start.Some?)
    && (left.Some? ==> left.value + Debt(members, rest, sent, refused) == start.value)
  }

  /** The count-downs so far: one per visited member held back, one per refused send. */
  function Debt(members: set<ChannelContext>, rest: set<ChannelContext>, sent: set<ChannelContext>,
                refused: set<ChannelContext>): nat
  {
    |(members - rest) - sent| + |refused|
  }

  lemma SkipStep(members: set<ChannelContext>, rest: set<ChannelContext>, c: ChannelContext,
                 filter: Option<ChannelContext -> bool>,
                 sent: set<ChannelContext>, accepted: set<ChannelContext>, refused: set<ChannelContext>)
    requires rest <= members && c in rest && !Passes(filter, c)
    requires Tally(members, rest, filter, sent, accepted, refused)
    ensures Tally(members, rest - {c}, filter, sent, accepted, refused)
    ensures Debt(members, rest - {c}, sent, refused) == Debt(members, rest, sent, refused) + 1
  {
    VisitOne(members, rest, c, filter);
    assert (members - (rest - {c})) - sent == ((members - rest) - sent) + {c};
  }

  lemma SendStep(members: set<ChannelContext>, rest: set<ChannelContext>, c: ChannelContext,
                 filter: Option<ChannelContext -> bool>,
                 sent: set<ChannelContext>, accepted: set<ChannelContext>, refused: set<ChannelContext>,
                 ok: bool, countsDown: bool)
    requires rest <= members && c in rest && Passes(filter, c)
    requires Tally(members, rest, filter, sent, accepted, refused)
    requires !ok ==> countsDown
    requires countsDown && ok ==> c.isVirtual
    ensures Tally(members, rest - {c}, filter, sent + {c}, if ok then accepted + {c} else accepted,
                  if countsDown then refused + {c} else refused)
  {
    VisitOne(members, rest, c, filter);
  }

  lemma SendStepDebt(members: set<ChannelContext>, rest: set<ChannelContext>, c: ChannelContext,
                     filter: Option<ChannelContext -> bool>,
                     sent: set<ChannelContext>, accepted: set<ChannelContext>, refused: set<ChannelContext>,
                     countsDown: bool)
    requires rest <= members && c in rest && Passes(filter, c)
    requires Tally(members, rest, filter, sent, accepted, refused)
    ensures c !in sent && |sent + {c}| == |sent| + 1
    ensures Debt(members, rest - {c}, sent + {c}, if countsDown then refused + {c} else refused)
      == Debt(members, rest, sent, refused) + (if countsDown then 1 else 0)
  {
    VisitOne(members, rest, c, filter);
    DebtStep(members - rest, sent, refused, c, countsDown);
  }

  /** Visiting a member that is then sent to adds no held-back member, and a refusal when it counts down. */
  lemma DebtStep(visited: set<ChannelContext>, sent: set<ChannelContext>, refused: set<ChannelContext>,
                 c: ChannelContext, countsDown: bool)
    requires c !in visited && sent <= visited && refused <= sent
    ensures c !in sent && |sent + {c}| == |sent| + 1
    ensures (visited + {c}) - (sent + {c}) == visited - sent
    ensures |if countsDown then refused + {c} else refused| == |refused| + (if countsDown then 1 else 0)
  {
  }

  /**
   * One turn of the fan-out loop: a member the filter holds back counts
   * the latch down; any other gets the packet.
   */
  method Visit(cfg: TioConfig, members: set<ChannelContext>, rest: set<ChannelContext>, c: ChannelContext,
               packet: Packet, filter: Option<ChannelContext -> bool>, latch: Option<CountDownLatch>,
               ghost queues: set<SendQueue>, ghost flags: set<AtomicBoolean>, ghost writers: set<SocketWriter>,
               sendCount: nat, ghost start: Option<int>,
               ghost sent: set<ChannelContext>, ghost accepted: set<ChannelContext>, ghost refused: set<ChannelContext>,
               ghost states: map<ChannelContext, SendState>)
    returns (sendCount': nat, ghost sent': set<ChannelContext>, ghost accepted': set<ChannelContext>,
             ghost refused': set<ChannelContext>)
    requires c in rest
    requires Covers(members, queues, flags, writers)
    requires Separate(members)
    requires AllReady(members, queues, flags, writers)
    requires Progress(members, rest, filter, sent, accepted, refused, sendCount, LatchCount(latch), start)
    requires start.Some? ==> start.value >= |members|
    requires FanSoFar(cfg, members, packet, filter, latch.None?, states, Snapshot(members), rest)
    modifies queues, flags, writers, LatchSet(latch)
    modifies members, StatsOf(members)
    modifies cfg.book`events, cfg.book`closeds, cfg.book`connecteds, cfg.book`unknownPortSeq
    modifies cfg.groupStat`closed, cfg.clientNodes
    ensures AllReady(members, queues, flags, writers)
    ensures |rest - {c}| < |rest|
    ensures Progress(members, rest - {c}, filter, sent', accepted', refused', sendCount', LatchCount(latch), start)
    ensures sendCount' == sendCount + (if Passes(filter, c) then 1 else 0)
    ensures FanSoFar(cfg, members, packet, filter, latch.None?, states, Snapshot(members), rest - {c})
  {
    ghost var debt := Debt(members, rest, sent, refused);
    assert |rest - {c}| == |rest| - 1;
    ghost var now := Snapshot(members);
    if !Passes(filter, c) {
      HoldBack(members, latch, queues, flags, writers);
      SkipStep(members, rest, c, filter, sent, accepted, refused);
      FanSkip(cfg, members, packet, filter, latch.None?, states, now, rest, c);
      return sendCount, sent, accepted, refused;
    }
    var ok, countsDown := FanSend(cfg, members, rest, c, packet, filter, latch, queues, flags, writers, states);
    SendStep(members, rest, c, filter, sent, accepted, refused, ok, countsDown);
    SendStepDebt(members, rest, c, filter, sent, accepted, refused, countsDown);
    sent' := sent + {c};
    accepted' := if ok then accepted + {c} else accepted;
    refused' := if countsDown then refused + {c} else refused;
    sendCount' := sendCount + 1;
  }

  /** A send of the fan-out to a member the filter lets through, and what it does to the queues. */
  method FanSend(cfg: TioConfig, members: set<ChannelContext>, rest: set<ChannelContext>, c: ChannelContext,
                 packet: Packet, filter: Option<ChannelContext -> bool>, latch: Option<CountDownLatch>,
                 ghost queues: set<SendQueue>, ghost flags: set<AtomicBoolean>, ghost writers: set<SocketWriter>,
                 ghost states: map<ChannelContext, SendState>)
    returns (ok: bool, ghost countsDown: bool)
    requires c in rest && Passes(filter, c)
    requires Covers(members, queues, flags, writers) && Separate(members)
    requires AllReady(members, queues, flags, writers)
    requires latch.Some? ==> latch.value.count > 0
    requires FanSoFar(cfg, members, packet, filter, latch.None?, states, Snapshot(members), rest)
    modifies queues, flags, writers, LatchSet(latch)
    modifies members, StatsOf(members)
    modifies cfg.book`events, cfg.book`closeds, cfg.book`connecteds, cfg.book`unknownPortSeq
    modifies cfg.groupStat`closed, cfg.clientNodes
    ensures AllReady(members, queues, flags, writers)
    ensures !ok ==> countsDown
    ensures countsDown && ok ==> c.isVirtual
    ensures latch.Some? ==> latch.value.count == old(latch.value.count) - (if countsDown then 1 else 0)
    ensures FanSoFar(cfg, members, packet, filter, latch.None?, states, Snapshot(members), rest - {c})
  {
    ghost var now := Snapshot(members);
    assert now[c] == StateOf(c) == states[c];
    assert GateOf(cfg, c, Some(packet)) == GateIn(cfg, c, states[c], packet);
    ok, countsDown := SendMember(cfg, members, c, packet, latch, queues, flags, writers);
    ghost var now' := Snapshot(members);
    forall d | d in members && d != c
      ensures now'[d] == now[d]
    {
      assert now'[d] == StateOf(d) && now[d] == old(StateOf(d));
    }
    assert now'[c].offered == c.sendQueue.offered;
    FanAdvance(cfg, members, packet, filter, latch.None?, states, now, now', rest, c);
  }

  /** A member the filter holds back counts the latch down, and touches no queue. */
  method HoldBack(members: set<ChannelContext>, latch: Option<CountDownLatch>, ghost queues: set<SendQueue>,
                  ghost flags: set<AtomicBoolean>, ghost writers: set<SocketWriter>)
    requires AllReady(members, queues, flags, writers)
    modifies LatchSet(latch)
    ensures AllReady(members, queues, flags, writers)
    ensures latch.Some? ==> latch.value.count == LatchAfter(old(latch.value.count), true)
    ensures Snapshot(members) == old(Snapshot(members))
  {
    if latch.Some? {
      latch.value.CountDown();
    }
  }

  /** The gate a member in a given send state meets in the fan-out. */
  function FanGateIn(cfg: TioConfig, filter: Option<ChannelContext -> bool>, c: ChannelContext, s: SendState,
                     packet: Packet): Gate
  {
    if Passes(filter, c) then GateIn(cfg, c, s, packet) else NoTarget
  }

  /**
   * What the fan-out loop keeps about the queues, from the states before
   * the loop and the states now: the unvisited members are as they were,
   * and every visited one received what its gate lets through (tagged
   * with the latch unless `exact`).
   */
  ghost predicate FanSoFar(cfg: TioConfig, members: set<ChannelContext>, packet: Packet,
                           filter: Option<ChannelContext -> bool>, exact: bool,
                           states: map<ChannelContext, SendState>, now: map<ChannelContext, SendState>,
                           rest: set<ChannelContext>)
  {
    && rest <= members
    && (forall d :: d in members ==> d in states && d in now)
    && (forall d :: d in rest ==> now[d] == states[d])
    && (forall d :: d in members - rest ==>
          Delivered(states[d].offered, now[d].offered, FanGateIn(cfg, filter, d, states[d], packet), exact))
  }

  /** Once every member is visited, each received what its gate lets through. */
  lemma FanDone(cfg: TioConfig, members: set<ChannelContext>, packet: Packet,
                filter: Option<ChannelContext -> bool>, exact: bool,
                states: map<ChannelContext, SendState>, now: map<ChannelContext, SendState>)
    requires FanSoFar(cfg, members, packet, filter, exact, states, now, {})
    ensures forall d :: d in members ==>
      d in states && d in now &&
      Delivered(states[d].offered, now[d].offered, FanGateIn(cfg, filter, d, states[d], packet), exact)
  {
  }

  /** Before the fan-out, every member's gate and queue as read from its snapshot. */
  lemma FanEntry(cfg: TioConfig, members: set<ChannelContext>, packet: Packet,
                 filter: Option<ChannelContext -> bool>, states: map<ChannelContext, SendState>)
    requires states == Snapshot(members)
    ensures forall d :: d in members ==>
      d in states && FanGate(cfg, filter, d, packet) == FanGateIn(cfg, filter, d, states[d], packet)
    ensures forall d :: d in members ==> d.sendQueue.offered == states[d].offered
  {
  }

  /** Every member's queue as read from a snapshot of the current state. */
  lemma OfferedNow(members: set<ChannelContext>, now: map<ChannelContext, SendState>)
    requires now == Snapshot(members)
    ensures forall d :: d in members ==> d in now && d.sendQueue.offered == now[d].offered
  {
  }

  /** Holding back an unvisited member touches no queue. */
  lemma FanSkip(cfg: TioConfig, members: set<ChannelContext>, packet: Packet,
                filter: Option<ChannelContext -> bool>, exact: bool,
                states: map<ChannelContext, SendState>, now: map<ChannelContext, SendState>,
                rest: set<ChannelContext>, c: ChannelContext)
    requires c in rest && !Passes(filter, c)
    requires FanSoFar(cfg, members, packet, filter, exact, states, now, rest)
    ensures FanSoFar(cfg, members, packet, filter, exact, states, now, rest - {c})
  {
  }

  /** A send to one unvisited member that touches no other member moves it to the visited ones. */
  lemma FanAdvance(cfg: TioConfig, members: set<ChannelContext>, packet: Packet,
                   filter: Option<ChannelContext -> bool>, exact: bool,
                   states: map<ChannelContext, SendState>, now: map<ChannelContext, SendState>,
                   now': map<ChannelContext, SendState>, rest: set<ChannelContext>, c: ChannelContext)
    requires c in rest && Passes(filter, c)
    requires FanSoFar(cfg, members, packet, filter, exact, states, now, rest)
    requires forall d :: d in members ==> d in now'
    requires forall d :: d in members && d != c ==> now'[d] == now[d]
    requires Delivered(states[c].offered, now'[c].offered, GateIn(cfg, c, states[c], packet), exact)
    ensures FanSoFar(cfg, members, packet, filter, exact, states, now', rest - {c})
  {
  }

  /** Visiting one more member adds it to the visited part, and to the targets when it passes. */
  lemma VisitOne(members: set<ChannelContext>, rest: set<ChannelContext>, c: ChannelContext,
                 filter: Option<ChannelContext -> bool>)
    requires rest <= members && c in rest
    ensures members - (rest - {c}) == (members - rest) + {c} && c !in members - rest
    ensures Targets(members - (rest - {c}), filter)
      == Targets(members - rest, filter) + (if Passes(filter, c) then {c} else {})
    ensures members - (rest - {c}) - Targets(members - (rest - {c}), filter)
      == members - rest - Targets(members - rest, filter) + (if Passes(filter, c) then {} else {c})
    ensures rest - {c} == {} ==> members - (rest - {c}) == members
  {
  }

  /** One send of the fan-out: the other members' queues are left as they were. */
  method SendMember(cfg: TioConfig, members: set<ChannelContext>, c: ChannelContext, packet: Packet,
                    latch: Option<CountDownLatch>, ghost queues: set<SendQueue>, ghost flags: set<AtomicBoolean>,
                    ghost writers: set<SocketWriter>)
    returns (ok: bool, ghost countsDown: bool)
    requires c in members && Covers(members, queues, flags, writers) && Separate(members)
    requires AllReady(members, queues, flags, writers)
    requires latch.Some? ==> latch.value.count > 0
    modifies queues, flags, writers, LatchSet(latch)
    modifies members, StatsOf(members)
    modifies cfg.book`events, cfg.book`closeds, cfg.book`connecteds, cfg.book`unknownPortSeq
    modifies cfg.groupStat`closed, cfg.clientNodes
    ensures AllReady(members, queues, flags, writers)
    ensures !ok ==> countsDown
    ensures countsDown && ok ==> c.isVirtual
    ensures latch.Some? ==> latch.value.count == old(latch.value.count) - (if countsDown then 1 else 0)
    ensures Delivered(old(c.sendQueue.offered), c.sendQueue.offered, old(GateOf(cfg, c, Some(packet))), latch.None?)
    ensures latch.None? ==> ok == old(SendAnswer(cfg, c, packet))
    ensures forall d :: d in members && d != c ==> unchanged(d) && unchanged(d.sendQueue, d.isSending, d.writer)
    ensures forall d :: d in members && d != c ==> StateOf(d) == old(StateOf(d))
  {
    ok, countsDown := SendOne(cfg, c, packet, latch);
    forall d | d in members
      ensures SendReady(d)
    {
      if d != c {
        assert d.sendQueue != c.sendQueue && d.isSending != c.isSending && d.writer != c.writer;
        assert unchanged(d.sendQueue, d.isSending, d.writer);
      }
    }
  }

  /** `send` to one live member, seen from the fan-out: whether it counted the latch down. */
  method SendOne(cfg: TioConfig, c: ChannelContext, packet: Packet, latch: Option<CountDownLatch>)
    returns (ok: bool, ghost countsDown: bool)
    requires SendReady(c)
    requires latch.Some? ==> latch.value.count > 0
    modifies c.sendQueue, c.isSending, c.writer, LatchSet(latch)
    modifies c, c.stat
    modifies cfg.book`events, cfg.book`closeds, cfg.book`connecteds, cfg.book`unknownPortSeq
    modifies cfg.groupStat`closed, cfg.clientNodes
    ensures SendReady(c)
    ensures !ok ==> countsDown
    ensures countsDown && ok ==> c.isVirtual
    ensures latch.Some? ==> latch.value.count == old(latch.value.count) - (if countsDown then 1 else 0)
    ensures Delivered(old(c.sendQueue.offered), c.sendQueue.offered, old(GateOf(cfg, c, Some(packet))), latch.None?)
    ensures latch.None? ==> ok == old(SendAnswer(cfg, c, packet))
  {
    ghost var g := GateOf(cfg, c, Some(packet));
    ghost var before := c.sendQueue.offered;
    ok := Send(cfg, c, Some(packet), latch);
    countsDown := CountsDown(g, ok);
    if g.Enqueue? {
      var sent := c.sendQueue.offered[|before|];
      assert c.sendQueue.offered[..|before|] == before;
      if latch.None? {
        assert sent == sent.(meta := g.packet.meta);
      }
    }
  }

  /** The send queues of a set of connections. */
  function QueuesOf(members: set<ChannelContext>): set<SendQueue>
  {
    set c | c in members :: c.sendQueue
  }

  /** The sending flags of a set of connections. */
  function SendingOf(members: set<ChannelContext>): set<AtomicBoolean>
  {
    set c | c in members :: c.isSending
  }

  /** The writers of a set of connections. */
  function WritersOf(members: set<ChannelContext>): set<SocketWriter>
  {
    set c | c in members :: c.writer
  }

  /** Every connection's machinery is among the machinery of its set. */
  lemma CoversOwn(members: set<ChannelContext>)
    ensures Covers(members, QueuesOf(members), SendingOf(members), WritersOf(members))
  {
    forall c | c in members
      ensures c.sendQueue in QueuesOf(members) && c.isSending in SendingOf(members) && c.writer in WritersOf(members)
    {
    }
  }

  /** A set of connections whose queues may be sent to, one by one. */
  ghost predicate Sendable(members: set<ChannelContext>)
    reads QueuesOf(members), SendingOf(members), WritersOf(members)
  {
    Separate(members) && AllReady(members, QueuesOf(members), SendingOf(members), WritersOf(members))
  }

  /**
   * The private `sendToSet`: false for an empty set; otherwise the packet
   * goes to every member the filter lets through, and the answer is
   * whether any did, and, for a blocking send, whether the latch reached
   * zero within `BlockTimeout` seconds. `await` stands for that wait: it
   * tells, for a timeout, whether the other threads counted the latch down
   * in time.
   */
  method SendToSet(cfg: TioConfig, members: set<ChannelContext>, packet: Packet,
                   filter: Option<ChannelContext -> bool>, isBlock: bool, await: int -> bool)
    returns (r: bool)
    requires Sendable(members)
    modifies QueuesOf(members), SendingOf(members), WritersOf(members)
    modifies members, StatsOf(members)
    modifies cfg.book`events, cfg.book`closeds, cfg.book`connecteds, cfg.book`unknownPortSeq
    modifies cfg.groupStat`closed, cfg.clientNodes
    ensures Sendable(members)
    ensures members == {} ==> !r
    ensures r <==>
      && Targets(members, filter) != {}
      && (isBlock ==> await(BlockTimeout(|Targets(members, filter)|)))
    ensures forall d :: d in members ==>
      Delivered(old(d.sendQueue.offered), d.sendQueue.offered, old(FanGate(cfg, filter, d, packet)), !isBlock)
  {
    if members == {} {
      return false;
    }
    var latch: Option<CountDownLatch> := None;
    if isBlock {
      var l := new CountDownLatch(|members|);
      latch := Some(l);
    }
    CoversOwn(members);
    var sendCount, accepted, refused :=
      FanOut(cfg, members, packet, filter, latch, QueuesOf(members), SendingOf(members), WritersOf(members));
    if sendCount == 0 {
      return false;
    }
    if isBlock {
      var timeout := Max(sendCount / 5, 10);
      r := await(timeout);
    } else {
      r := true;
    }
  }

  /**
   * The loop of `sendToToken` and `sendToUser`: every member gets the
   * packet, whatever the earlier sends answered, and the answer is whether
   * any send answered true. `accepted` are the members whose send did:
   * each member's queue receives what its own `send` puts there, and its
   * answer is the one its state before the loop gives.
   */
  method SendEach(cfg: TioConfig, members: set<ChannelContext>, packet: Packet)
    returns (ret: bool, ghost tried: set<ChannelContext>, ghost accepted: set<ChannelContext>)
    requires Sendable(members)
    modifies QueuesOf(members), SendingOf(members), WritersOf(members)
    modifies members, StatsOf(members)
    modifies cfg.book`events, cfg.book`closeds, cfg.book`connecteds, cfg.book`unknownPortSeq
    modifies cfg.groupStat`closed, cfg.clientNodes
    ensures Sendable(members)
    ensures tried == members && accepted <= members
    ensures ret <==> accepted != {}
    ensures forall d :: d in members ==> (d in accepted <==> old(SendAnswer(cfg, d, packet)))
    ensures ret <==> exists d :: d in members && old(SendAnswer(cfg, d, packet))
    ensures forall d :: d in members ==>
      Delivered(old(d.sendQueue.offered), d.sendQueue.offered, old(GateOf(cfg, d, Some(packet))), true)
  {
    CoversOwn(members);
    ghost var states := Snapshot(members);
    ret, accepted := EachLoop(cfg, members, packet, states);
    tried := members;
    forall d | d in members
      ensures (d in accepted <==> old(SendAnswer(cfg, d, packet)))
      ensures Delivered(old(d.sendQueue.offered), d.sendQueue.offered, old(GateOf(cfg, d, Some(packet))), true)
    {
      assert states[d] == old(StateOf(d)) && Snapshot(members)[d].offered == d.sendQueue.offered;
      assert old(GateOf(cfg, d, Some(packet))) == GateIn(cfg, d, states[d], packet);
    }
    if ret {
      ghost var d :| d in accepted;
    }
  }

  /** The loop of `SendEach`, from the states its members had before it. */
  method EachLoop(cfg: TioConfig, members: set<ChannelContext>, packet: Packet,
                  ghost states: map<ChannelContext, SendState>)
    returns (ret: bool, ghost accepted: set<ChannelContext>)
    requires Covers(members, QueuesOf(members), SendingOf(members), WritersOf(members)) && Separate(members)
    requires AllReady(members, QueuesOf(members), SendingOf(members), WritersOf(members))
    requires states == Snapshot(members)
    modifies QueuesOf(members), SendingOf(members), WritersOf(members)
    modifies members, StatsOf(members)
    modifies cfg.book`events, cfg.book`closeds, cfg.book`connecteds, cfg.book`unknownPortSeq
    modifies cfg.groupStat`closed, cfg.clientNodes
    ensures AllReady(members, QueuesOf(members), SendingOf(members), WritersOf(members))
    ensures ret <==> accepted != {}
    ensures EachSoFar(cfg, members, packet, states, Snapshot(members), {}, accepted)
  {
    ret := false;
    accepted := {};
    var rest := members;
    while rest != {}
      invariant AllReady(members, QueuesOf(members), SendingOf(members), WritersOf(members))
      invariant ret <==> accepted != {}
      invariant EachSoFar(cfg, members, packet, states, Snapshot(members), rest, accepted)
      decreases |rest|
    {
      var c :| c in rest;
      Shrinks(rest, c);
      var ok;
      ok, accepted := EachStep(cfg, members, packet, states, rest, accepted, c);
      ret := ret || ok;
      rest := rest - {c};
    }
  }

  /** Taking one member out of a set makes it smaller. */
  lemma Shrinks(rest: set<ChannelContext>, c: ChannelContext)
    requires c in rest
    ensures |rest - {c}| < |rest|
  {
  }

  /** The send state of every member of a set. */
  ghost function Snapshot(members: set<ChannelContext>): map<ChannelContext, SendState>
    reads members, QueuesOf(members), SendingOf(members)
  {
    map d: ChannelContext | d in members :: StateOf(d)
  }

  /**
   * What the loop of `SendEach` keeps, from the states before the loop
   * and the states now: the untried members are as they were, and every
   * tried one answered and received what its state before gives.
   */
  ghost predicate EachSoFar(cfg: TioConfig, members: set<ChannelContext>, packet: Packet,
                            states: map<ChannelContext, SendState>, now: map<ChannelContext, SendState>,
                            rest: set<ChannelContext>, accepted: set<ChannelContext>)
  {
    && rest <= members && accepted <= members - rest
    && (forall d :: d in members ==> d in states && d in now)
    && (forall d :: d in rest ==> now[d] == states[d])
    && (forall d :: d in members - rest ==> (d in accepted <==> AnswerIn(cfg, d, states[d], packet)))
    && (forall d :: d in members - rest ==>
          Delivered(states[d].offered, now[d].offered, GateIn(cfg, d, states[d], packet), true))
  }

  /** A send to one untried member that touches no other member moves it to the tried ones. */
  lemma EachAdvance(cfg: TioConfig, members: set<ChannelContext>, packet: Packet,
                    states: map<ChannelContext, SendState>, now: map<ChannelContext, SendState>,
                    now': map<ChannelContext, SendState>, rest: set<ChannelContext>,
                    accepted: set<ChannelContext>, c: ChannelContext, ok: bool)
    requires c in rest && EachSoFar(cfg, members, packet, states, now, rest, accepted)
    requires forall d :: d in members ==> d in now'
    requires forall d :: d in members && d != c ==> now'[d] == now[d]
    requires Delivered(states[c].offered, now'[c].offered, GateIn(cfg, c, states[c], packet), true)
    requires ok == AnswerIn(cfg, c, states[c], packet)
    ensures EachSoFar(cfg, members, packet, states, now', rest - {c}, if ok then accepted + {c} else accepted)
  {
  }

  /** One turn of the loop of `SendEach`: `send` to one untried member. */
  method EachStep(cfg: TioConfig, members: set<ChannelContext>, packet: Packet,
                  ghost states: map<ChannelContext, SendState>, ghost rest: set<ChannelContext>,
                  ghost accepted: set<ChannelContext>, c: ChannelContext)
    returns (ok: bool, ghost accepted': set<ChannelContext>)
    requires c in rest
    requires Covers(members, QueuesOf(members), SendingOf(members), WritersOf(members)) && Separate(members)
    requires AllReady(members, QueuesOf(members), SendingOf(members), WritersOf(members))
    requires EachSoFar(cfg, members, packet, states, Snapshot(members), rest, accepted)
    modifies QueuesOf(members), SendingOf(members), WritersOf(members)
    modifies members, StatsOf(members)
    modifies cfg.book`events, cfg.book`closeds, cfg.book`connecteds, cfg.book`unknownPortSeq
    modifies cfg.groupStat`closed, cfg.clientNodes
    ensures AllReady(members, QueuesOf(members), SendingOf(members), WritersOf(members))
    ensures accepted' == if ok then accepted + {c} else accepted
    ensures EachSoFar(cfg, members, packet, states, Snapshot(members), rest - {c}, accepted')
  {
    ghost var now := Snapshot(members);
    assert now[c] == StateOf(c) == states[c];
    assert GateOf(cfg, c, Some(packet)) == GateIn(cfg, c, states[c], packet);
    ghost var countsDown;
    ok, countsDown := SendMember(cfg, members, c, packet, None, QueuesOf(members), SendingOf(members), WritersOf(members));
    accepted' := if ok then accepted + {c} else accepted;
    ghost var now' := Snapshot(members);
    forall d | d in members && d != c
      ensures now'[d] == now[d]
    {
      assert now'[d] == StateOf(d) && now[d] == old(StateOf(d));
    }
    assert now'[c].offered == c.sendQueue.offered;
    EachAdvance(cfg, members, packet, states, now, now', rest, accepted, c, ok);
  }

  /** The set a registry lookup found, or none. */
  function Found(f: Option<set<ChannelContext>>): (s: set<ChannelContext>)
    ensures f.Some? ==> s == f.value
    ensures f.None? ==> s == {}
  {
    if f.Some? then f.value else {}
  }

  /**
   * The private `sendToToken` (not blocking): false when the token finds
   * no set; otherwise every connection bound to the token gets the packet,
   * and the answer is whether any send answered true (`accepted` are the
   * connections whose send did).
   */
  method SendToToken(cfg: TioConfig, token: Option<string>, packet: Packet)
    returns (r: bool, ghost accepted: set<ChannelContext>)
    requires Sendable(Found(cfg.tokens.Find(cfg.isShortConnection, token)))
    modifies QueuesOf(Found(cfg.tokens.Find(cfg.isShortConnection, token)))
    modifies SendingOf(Found(cfg.tokens.Find(cfg.isShortConnection, token)))
    modifies WritersOf(Found(cfg.tokens.Find(cfg.isShortConnection, token)))
    modifies Found(cfg.tokens.Find(cfg.isShortConnection, token)), StatsOf(Found(cfg.tokens.Find(cfg.isShortConnection, token)))
    modifies cfg.book`events, cfg.book`closeds, cfg.book`connecteds, cfg.book`unknownPortSeq
    modifies cfg.groupStat`closed, cfg.clientNodes
    ensures accepted <= Found(old(cfg.tokens.Find(cfg.isShortConnection, token)))
    ensures r <==> accepted != {}
    ensures forall d :: d in Found(old(cfg.tokens.Find(cfg.isShortConnection, token))) ==> (d in accepted <==> old(SendAnswer(cfg, d, packet)))
    ensures r <==> exists d :: d in Found(old(cfg.tokens.Find(cfg.isShortConnection, token))) && old(SendAnswer(cfg, d, packet))
    ensures forall d :: d in Found(old(cfg.tokens.Find(cfg.isShortConnection, token))) ==>
      Delivered(old(d.sendQueue.offered), d.sendQueue.offered, old(GateOf(cfg, d, Some(packet))), true)
  {
    var found := cfg.tokens.Find(cfg.isShortConnection, token);
    if found.None? {
      return false, {};
    }
    ghost var tried;
    r, tried, accepted := SendEach(cfg, found.value, packet);
  }

  /**
   * The private `sendToUser` (not blocking): false when the user id finds
   * no set; otherwise every connection bound to the user gets the packet,
   * and the answer is whether any send answered true (`accepted` are the
   * connections whose send did).
   */
  method SendToUser(cfg: TioConfig, userId: Option<string>, packet: Packet)
    returns (r: bool, ghost accepted: set<ChannelContext>)
    requires Sendable(Found(cfg.users.Find(cfg.isShortConnection, userId)))
    modifies QueuesOf(Found(cfg.users.Find(cfg.isShortConnection, userId)))
    modifies SendingOf(Found(cfg.users.Find(cfg.isShortConnection, userId)))
    modifies WritersOf(Found(cfg.users.Find(cfg.isShortConnection, userId)))
    modifies Found(cfg.users.Find(cfg.isShortConnection, userId)), StatsOf(Found(cfg.users.Find(cfg.isShortConnection, userId)))
    modifies cfg.book`events, cfg.book`closeds, cfg.book`connecteds, cfg.book`unknownPortSeq
    modifies cfg.groupStat`closed, cfg.clientNodes
    ensures accepted <= Found(old(cfg.users.Find(cfg.isShortConnection, userId)))
    ensures r <==> accepted != {}
    ensures forall d :: d in Found(old(cfg.users.Find(cfg.isShortConnection, userId))) ==> (d in accepted <==> old(SendAnswer(cfg, d, packet)))
    ensures r <==> exists d :: d in Found(old(cfg.users.Find(cfg.isShortConnection, userId))) && old(SendAnswer(cfg, d, packet))
    ensures forall d :: d in Found(old(cfg.users.Find(cfg.isShortConnection, userId))) ==>
      Delivered(old(d.sendQueue.offered), d.sendQueue.offered, old(GateOf(cfg, d, Some(packet))), true)
  {
    var found := cfg.users.Find(cfg.isShortConnection, userId);
    if found.None? {
      return false, {};
    }
    ghost var tried;
    r, tried, accepted := SendEach(cfg, found.value, packet);
  }
}
