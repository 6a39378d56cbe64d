// WriteCompletionHandler: what happens when the socket reports on the write
// in flight. A partial write is resumed with the rest of the buffer; a
// drained or failed write settles its packets (outcome, latch, listener,
// counters, closing a connection not kept), releases isSending and lets the
// next queued packet go.

module WriteCompletionHandler {
  import opened Util
  import opened CloseCodes
  import opened Context
  import opened Config
  import opened CloseTask
  import ChannelOps
  import TioClose
  import SendPacketTask

  /**
   * The remark of the close after a packet that does not keep its
   * connection. The source appends the packet's `logstr()`; the model takes
   * that text as empty, which is what the base packet returns.
   */
  const NotKeptRemark: string := "remove conneciton because KeepedConnection is false:"

  /** The remark of the close after an unsuccessful write. */
  function WriteRemark(bytesWritten: int): string
  {
    "Write data return:" + IntToString(bytesWritten)
  }

  /** The meta objects of the packets. */
  function Metas(ps: seq<Packet>): set<PacketMeta>
  {
    set i | 0 <= i < |ps| && ps[i].meta.Some? :: ps[i].meta.value
  }

  /** The latches of the packets' metas. */
  function Latches(ps: seq<Packet>): set<CountDownLatch>
  {
    set i | 0 <= i < |ps| && ps[i].meta.Some? && ps[i].meta.value.latch.Some? :: ps[i].meta.value.latch.value
  }

  /** Every packet keeps its connection. */
  predicate AllKept(ps: seq<Packet>)
  {
    forall j :: 0 <= j < |ps| ==> ps[j].keepConnection
  }

  /** The packets the write in flight carries. */
  function InFlightPackets(cc: ChannelContext): seq<Packet>
    reads cc.writer
  {
    if cc.writer.inFlight.Some? then AttachedPackets(cc.writer.inFlight.value.attachment) else []
  }

  /** A latch counted down twice. */
  function CountedDownTwice(count: nat): (r: nat)
    ensures count >= 2 ==> r == count - 2
    ensures count < 2 ==> r == 0
  {
    if count >= 2 then count - 2 else 0
  }

  /** Whether the connection's close state is as it was. */
  twostate predicate CloseStateKept(cc: ChannelContext)
    reads cc
  {
    FlagsOf(cc) == old(FlagsOf(cc)) && cc.closeMeta == old(cc.closeMeta) && cc.closeCode == old(cc.closeCode)
  }

  /**
   * `handleOne`: records the outcome on the packet's meta and counts its
   * latch down, runs the after-send processing (which counts the latch
   * down a second time), and closes the connection when the packet does
   * not keep it.
   */
  method HandleOne(cfg: TioConfig, cc: ChannelContext, p: Packet, isSentSuccess: bool)
    modifies MetaOf(p), LatchOf(p), cfg.book`ipStats, cfg.groupStat`sentPackets, cc.stat`sentPackets
    modifies cc`isWaitingClose, cc`closeCode, cc`channel, cc`closeMeta
    modifies cc`isRemoved, cc`isClosed, cc`clientNode, cc.stat`timeClosed
    modifies cfg.book`events, cfg.book`closeds, cfg.book`connecteds, cfg.book`unknownPortSeq
    modifies cfg.groupStat`closed, cfg.clientNodes
    ensures p.meta.Some? ==> p.meta.value.isSentSuccess == Some(isSentSuccess)
    ensures p.meta.Some? && p.meta.value.latch.Some? ==>
      p.meta.value.latch.value.count == CountedDownTwice(old(p.meta.value.latch.value.count))
    ensures p.keepConnection ==> CloseStateKept(cc) && cc.channel == old(cc.channel)
    ensures !p.keepConnection && TioClose.Proceeds(old(cc.isWaitingClose), cc.closeLockBusy, true) ==>
      && cc.closeMeta == CloseMeta(None, Some(NotKeptRemark), TioClose.RemoveDecision(false, cc.isServer, cfg.handlers.needReconn))
      && FlagsOf(cc) == TioClose.CloseFlags(old(FlagsOf(cc)), false, true, cc.closeMeta.isNeedRemove, cc.isServer,
                                            cfg.handlers.hasAioListener && cfg.handlers.beforeCloseThrows)
  {
    SettleOne(cfg, cc, p, isSentSuccess);
    if !p.keepConnection {
      CloseNotKept(cfg, cc, p);
    }
  }

  /** The close of `handleOne` for a packet that does not keep its connection; the packet's meta and latch are not touched. */
  method CloseNotKept(cfg: TioConfig, cc: ChannelContext, ghost p: Packet)
    modifies cc`isWaitingClose, cc`closeCode, cc`channel, cc`closeMeta
    modifies cc`isRemoved, cc`isClosed, cc`clientNode, cc.stat`timeClosed
    modifies cfg.book`events, cfg.book`closeds, cfg.book`connecteds, cfg.book`unknownPortSeq
    modifies cfg.groupStat`closed, cfg.clientNodes
    ensures TioClose.Proceeds(old(cc.isWaitingClose), cc.closeLockBusy, true) ==>
      && cc.closeMeta == CloseMeta(None, Some(NotKeptRemark), TioClose.RemoveDecision(false, cc.isServer, cfg.handlers.needReconn))
      && FlagsOf(cc) == TioClose.CloseFlags(old(FlagsOf(cc)), false, true, cc.closeMeta.isNeedRemove, cc.isServer,
                                            cfg.handlers.hasAioListener && cfg.handlers.beforeCloseThrows)
    ensures p.meta.Some? ==> p.meta.value.isSentSuccess == old(p.meta.value.isSentSuccess)
    ensures p.meta.Some? && p.meta.value.latch.Some? ==> p.meta.value.latch.value.count == old(p.meta.value.latch.value.count)
  {
    TioClose.CloseConnection(cfg, cc, None, Some(NotKeptRemark), false, true, None);
  }

  /** The part of `handleOne` before the close: the outcome, the latch and the after-send processing. */
  method SettleOne(cfg: TioConfig, cc: ChannelContext, p: Packet, isSentSuccess: bool)
    modifies MetaOf(p), LatchOf(p), cfg.book`ipStats, cfg.groupStat`sentPackets, cc.stat`sentPackets
    modifies cfg.book`events
    ensures p.meta.Some? ==> p.meta.value.isSentSuccess == Some(isSentSuccess)
    ensures p.meta.Some? && p.meta.value.latch.Some? ==>
      p.meta.value.latch.value.count == CountedDownTwice(old(p.meta.value.latch.value.count))
    ensures (p.meta.None? || p.meta.value.latch.Some?) && ChannelOps.ReportsSends(cc) && cfg.handlers.hasAioListener ==>
      cfg.book.events == old(cfg.book.events) + [AfterSent(cc, p, isSentSuccess)]
  {
    if p.meta.Some? {
      var meta := p.meta.value;
      meta.isSentSuccess := Some(isSentSuccess);
      if meta.latch.Some? {
        meta.latch.value.CountDown();
      }
    }
    // a throw from the after-send processing is logged and ignored
    var _ := ChannelOps.ProcessAfterSent(cfg, cc, p, Some(isSentSuccess));
  }

  /** The loop of `handle` over a list attachment: each packet settled in order. */
  method HandleEach(cfg: TioConfig, cc: ChannelContext, ps: seq<Packet>, isSentSuccess: bool)
    modifies Metas(ps), Latches(ps), cfg.book`ipStats, cfg.groupStat`sentPackets, cc.stat`sentPackets
    modifies cc`isWaitingClose, cc`closeCode, cc`channel, cc`closeMeta
    modifies cc`isRemoved, cc`isClosed, cc`clientNode, cc.stat`timeClosed
    modifies cfg.book`events, cfg.book`closeds, cfg.book`connecteds, cfg.book`unknownPortSeq
    modifies cfg.groupStat`closed, cfg.clientNodes
    ensures forall j :: 0 <= j < |ps| && ps[j].meta.Some? ==> ps[j].meta.value.isSentSuccess == Some(isSentSuccess)
    ensures AllKept(ps) ==> CloseStateKept(cc)
  {
    var i := 0;
    while i < |ps|
      invariant 0 <= i <= |ps|
      invariant forall j :: 0 <= j < i && ps[j].meta.Some? ==> ps[j].meta.value.isSentSuccess == Some(isSentSuccess)
      invariant (forall j :: 0 <= j < i ==> ps[j].keepConnection) ==> CloseStateKept(cc)
    {
      assert MetaOf(ps[i]) <= Metas(ps) && LatchOf(ps[i]) <= Latches(ps);
      HandleOne(cfg, cc, ps[i], isSentSuccess);
      i := i + 1;
    }
  }

  /** The `instanceof` dispatch of `handle`: one packet, or each packet of a list. */
  method HandleAttachment(cfg: TioConfig, cc: ChannelContext, attachment: Attachment, isSentSuccess: bool)
    modifies Metas(AttachedPackets(attachment)), Latches(AttachedPackets(attachment))
    modifies cfg.book`ipStats, cfg.groupStat`sentPackets, cc.stat`sentPackets
    modifies cc`isWaitingClose, cc`closeCode, cc`channel, cc`closeMeta
    modifies cc`isRemoved, cc`isClosed, cc`clientNode, cc.stat`timeClosed
    modifies cfg.book`events, cfg.book`closeds, cfg.book`connecteds, cfg.book`unknownPortSeq
    modifies cfg.groupStat`closed, cfg.clientNodes
    ensures var ps := AttachedPackets(attachment);
      forall j :: 0 <= j < |ps| && ps[j].meta.Some? ==> ps[j].meta.value.isSentSuccess == Some(isSentSuccess)
    ensures var ps := AttachedPackets(attachment);
      AllKept(ps) ==> CloseStateKept(cc)
  {
    match attachment {
      case OnePacket(p) =>
        assert AttachedPackets(attachment)[0] == p;
        assert MetaOf(p) <= Metas(AttachedPackets(attachment)) && LatchOf(p) <= Latches(AttachedPackets(attachment));
        HandleOne(cfg, cc, p, isSentSuccess);
      case PacketList(ps) =>
        HandleEach(cfg, cc, ps, isSentSuccess);
    }
  }

  /**
   * `handle`: a write counts as sent when it wrote at least one byte;
   * then the byte counters rise. Every packet it carried is settled, and
   * an unsuccessful write closes the connection with
   * WRITE_COUNT_IS_NEGATIVE.
   */
  method Handle(cfg: TioConfig, cc: ChannelContext, bytesWritten: int, throwable: Option<Throwable>, vo: WriteVo)
    modifies Metas(AttachedPackets(vo.attachment)), Latches(AttachedPackets(vo.attachment))
    modifies cfg.book`ipStats, cfg.groupStat`sentPackets, cc.stat`sentPackets
    modifies cc.stat`latestTimeOfSentPacket, cc.stat`sentBytes, cfg.groupStat`sentBytes
    modifies cc`isWaitingClose, cc`closeCode, cc`channel, cc`closeMeta
    modifies cc`isRemoved, cc`isClosed, cc`clientNode, cc.stat`timeClosed
    modifies cfg.book`events, cfg.book`closeds, cfg.book`connecteds, cfg.book`unknownPortSeq
    modifies cfg.groupStat`closed, cfg.clientNodes
    ensures cc.stat.latestTimeOfSentPacket == cfg.book.now
    ensures cc.stat.sentBytes == old(cc.stat.sentBytes) + (if bytesWritten > 0 && cfg.statOn then bytesWritten else 0)
    ensures cfg.groupStat.sentBytes == old(cfg.groupStat.sentBytes) + (if bytesWritten > 0 && cfg.statOn then bytesWritten else 0)
    ensures var ps := AttachedPackets(vo.attachment);
      forall j :: 0 <= j < |ps| && ps[j].meta.Some? ==> ps[j].meta.value.isSentSuccess == Some(bytesWritten > 0)
    ensures var ps := AttachedPackets(vo.attachment);
      AllKept(ps) && bytesWritten > 0 ==> CloseStateKept(cc)
    ensures var ps := AttachedPackets(vo.attachment);
      AllKept(ps) && bytesWritten <= 0
      && TioClose.Proceeds(old(cc.isWaitingClose), cc.closeLockBusy, true) ==>
        && cc.closeCode == WriteCountIsNegative
        && cc.closeMeta == CloseMeta(throwable, Some(WriteRemark(bytesWritten)),
                                     TioClose.RemoveDecision(false, cc.isServer, cfg.handlers.needReconn))
  {
    cc.stat.latestTimeOfSentPacket := cfg.book.now;
    var isSentSuccess := bytesWritten > 0;
    if isSentSuccess && cfg.statOn {
      cfg.groupStat.sentBytes := cfg.groupStat.sentBytes + bytesWritten;
      cc.stat.sentBytes := cc.stat.sentBytes + bytesWritten;
    }
    HandleAttachment(cfg, cc, vo.attachment, isSentSuccess);
    if !isSentSuccess {
      CloseAfterWrite(cfg, cc, throwable, bytesWritten, AttachedPackets(vo.attachment));
    }
  }

  /**
   * The close at the end of an unsuccessful `handle`: WRITE_COUNT_IS_NEGATIVE,
   * under the close lock; the packets' metas are not touched.
   */
  method CloseAfterWrite(cfg: TioConfig, cc: ChannelContext, throwable: Option<Throwable>, bytesWritten: int,
                         ghost ps: seq<Packet>)
    modifies cc`isWaitingClose, cc`closeCode, cc`channel, cc`closeMeta
    modifies cc`isRemoved, cc`isClosed, cc`clientNode, cc.stat`timeClosed
    modifies cfg.book`events, cfg.book`closeds, cfg.book`connecteds, cfg.book`unknownPortSeq
    modifies cfg.groupStat`closed, cfg.clientNodes
    ensures TioClose.Proceeds(old(cc.isWaitingClose), cc.closeLockBusy, true) ==>
      && cc.closeCode == WriteCountIsNegative
      && cc.closeMeta == CloseMeta(throwable, Some(WriteRemark(bytesWritten)),
                                   TioClose.RemoveDecision(false, cc.isServer, cfg.handlers.needReconn))
    ensures forall j :: 0 <= j < |ps| && ps[j].meta.Some? ==>
      ps[j].meta.value.isSentSuccess == old(ps[j].meta.value.isSentSuccess)
  {
    TioClose.CloseOutcome(cfg, cc, throwable, Some(WriteRemark(bytesWritten)), false, true, Some(WriteCountIsNegative));
  }

  /**
   * `completed`: the socket wrote `bytesWritten` bytes of the buffer in
   * flight. With bytes left the write is reissued for the rest, and
   * nothing else happens; a drained buffer is settled with the running
   * total and the next queued packet is sent.
   */
  method Completed(cfg: TioConfig, cc: ChannelContext, bytesWritten: int)
    requires cc.writer.inFlight.Some? && 0 <= bytesWritten <= |cc.writer.inFlight.value.remaining|
    requires cc.sendQueue.Fifo() && SendPacketTask.SingleFlight(cc)
    modifies cc.writer, cc.sendQueue, cc.isSending
    modifies Metas(InFlightPackets(cc)), Latches(InFlightPackets(cc))
    modifies cfg.book`ipStats, cfg.groupStat`sentPackets, cc.stat`sentPackets
    modifies cc.stat`latestTimeOfSentPacket, cc.stat`latestTimeOfSentByte, cc.stat`sentBytes, cfg.groupStat`sentBytes
    modifies cc`isWaitingClose, cc`closeCode, cc`channel, cc`closeMeta
    modifies cc`isRemoved, cc`isClosed, cc`clientNode, cc.stat`timeClosed
    modifies cfg.book`events, cfg.book`closeds, cfg.book`connecteds, cfg.book`unknownPortSeq
    modifies cfg.groupStat`closed, cfg.clientNodes
    ensures cc.sendQueue.Fifo() && SendPacketTask.SingleFlight(cc)
    ensures cc.sendQueue.offered == old(cc.sendQueue.offered)
    ensures var vo := old(cc.writer.inFlight.value);
      bytesWritten < |vo.remaining| ==>
        && cc.writer.inFlight == Some(vo.(remaining := vo.remaining[bytesWritten..],
                                          totalWritten := vo.totalWritten + bytesWritten))
        && cc.writer.issued == old(cc.writer.issued) + [vo.remaining[bytesWritten..]]
        && cc.sendQueue.packets == old(cc.sendQueue.packets) && cc.sendQueue.polled == old(cc.sendQueue.polled)
        && cc.isSending.value == old(cc.isSending.value)
        && cfg.book.events == old(cfg.book.events) && CloseStateKept(cc)
    ensures var vo := old(cc.writer.inFlight.value);
      var total := vo.totalWritten + bytesWritten;
      var ps := AttachedPackets(vo.attachment);
      bytesWritten == |vo.remaining| ==>
        && (forall j :: 0 <= j < |ps| && ps[j].meta.Some? ==> ps[j].meta.value.isSentSuccess == Some(total > 0))
        && (old(cc.sendQueue.packets) == [] ==> !cc.isSending.value && cc.writer.inFlight.None?)
        && (old(cc.sendQueue.packets) != [] ==>
              && cc.isSending.value
              && cc.sendQueue.packets == old(cc.sendQueue.packets)[1..]
              && cc.sendQueue.polled == old(cc.sendQueue.polled) + [old(cc.sendQueue.packets)[0]])
  {
    if bytesWritten < |cc.writer.inFlight.value.remaining| {
      Progressed(cfg, cc, bytesWritten);
    } else {
      Finished(cfg, cc, bytesWritten);
    }
  }

  /** A partial write: the rest of the buffer is written next. */
  method Progressed(cfg: TioConfig, cc: ChannelContext, bytesWritten: int)
    requires cc.writer.inFlight.Some? && 0 <= bytesWritten < |cc.writer.inFlight.value.remaining|
    requires cc.sendQueue.Fifo() && SendPacketTask.SingleFlight(cc)
    modifies cc.writer, cc.stat`latestTimeOfSentByte
    ensures cc.sendQueue.Fifo() && SendPacketTask.SingleFlight(cc)
    ensures var vo := old(cc.writer.inFlight.value);
      && cc.writer.inFlight == Some(vo.(remaining := vo.remaining[bytesWritten..],
                                        totalWritten := vo.totalWritten + bytesWritten))
      && cc.writer.issued == old(cc.writer.issued) + [vo.remaining[bytesWritten..]]
  {
    var vo := cc.writer.inFlight.value;
    if bytesWritten > 0 {
      vo := vo.(totalWritten := vo.totalWritten + bytesWritten);
      cc.stat.latestTimeOfSentByte := cfg.book.now;
    }
    vo := vo.(remaining := vo.remaining[bytesWritten..]);
    cc.writer.inFlight := Some(vo);
    cc.writer.issued := cc.writer.issued + [vo.remaining];
  }

  /** The whole buffer is written: its packets are settled and the next queued packet is sent. */
  method Finished(cfg: TioConfig, cc: ChannelContext, bytesWritten: int)
    requires cc.writer.inFlight.Some? && bytesWritten == |cc.writer.inFlight.value.remaining|
    requires cc.sendQueue.Fifo() && SendPacketTask.SingleFlight(cc)
    modifies cc.writer, cc.sendQueue, cc.isSending
    modifies Metas(InFlightPackets(cc)), Latches(InFlightPackets(cc))
    modifies cfg.book`ipStats, cfg.groupStat`sentPackets, cc.stat`sentPackets
    modifies cc.stat`latestTimeOfSentPacket, cc.stat`latestTimeOfSentByte, cc.stat`sentBytes, cfg.groupStat`sentBytes
    modifies cc`isWaitingClose, cc`closeCode, cc`channel, cc`closeMeta
    modifies cc`isRemoved, cc`isClosed, cc`clientNode, cc.stat`timeClosed
    modifies cfg.book`events, cfg.book`closeds, cfg.book`connecteds, cfg.book`unknownPortSeq
    modifies cfg.groupStat`closed, cfg.clientNodes
    ensures cc.sendQueue.Fifo() && SendPacketTask.SingleFlight(cc)
    ensures cc.sendQueue.offered == old(cc.sendQueue.offered)
    ensures var vo := old(cc.writer.inFlight.value);
      var total := vo.totalWritten + bytesWritten;
      var ps := AttachedPackets(vo.attachment);
      && (forall j :: 0 <= j < |ps| && ps[j].meta.Some? ==> ps[j].meta.value.isSentSuccess == Some(total > 0))
      && (old(cc.sendQueue.packets) == [] ==> !cc.isSending.value && cc.writer.inFlight.None?)
      && (old(cc.sendQueue.packets) != [] ==>
            && cc.isSending.value
            && cc.sendQueue.packets == old(cc.sendQueue.packets)[1..]
            && cc.sendQueue.polled == old(cc.sendQueue.polled) + [old(cc.sendQueue.packets)[0]])
  {
    Settle(cfg, cc, bytesWritten);
    // the buffer goes back to the pool, which is outside this model
    ProcessNextPacket(cfg, cc);
  }

  /** The finished write's packets learn the outcome; the writer is free again. */
  method Settle(cfg: TioConfig, cc: ChannelContext, bytesWritten: int)
    requires cc.writer.inFlight.Some? && bytesWritten == |cc.writer.inFlight.value.remaining|
    requires cc.sendQueue.Fifo()
    modifies cc.writer
    modifies Metas(InFlightPackets(cc)), Latches(InFlightPackets(cc))
    modifies cfg.book`ipStats, cfg.groupStat`sentPackets, cc.stat`sentPackets
    modifies cc.stat`latestTimeOfSentPacket, cc.stat`latestTimeOfSentByte, cc.stat`sentBytes, cfg.groupStat`sentBytes
    modifies cc`isWaitingClose, cc`closeCode, cc`channel, cc`closeMeta
    modifies cc`isRemoved, cc`isClosed, cc`clientNode, cc.stat`timeClosed
    modifies cfg.book`events, cfg.book`closeds, cfg.book`connecteds, cfg.book`unknownPortSeq
    modifies cfg.groupStat`closed, cfg.clientNodes
    ensures cc.writer.inFlight.None? && cc.sendQueue.Fifo()
    ensures var vo := old(cc.writer.inFlight.value);
      var total := vo.totalWritten + bytesWritten;
      var ps := AttachedPackets(vo.attachment);
      forall j :: 0 <= j < |ps| && ps[j].meta.Some? ==> ps[j].meta.value.isSentSuccess == Some(total > 0)
  {
    var vo := cc.writer.inFlight.value;
    if bytesWritten > 0 {
      vo := vo.(totalWritten := vo.totalWritten + bytesWritten);
      cc.stat.latestTimeOfSentByte := cfg.book.now;
    }
    vo := vo.(remaining := vo.remaining[bytesWritten..]);
    cc.writer.inFlight := None;
    Handle(cfg, cc, vo.totalWritten, None, vo);
  }

  /** `failed`: the write is settled as zero bytes written and the next queued packet is sent. */
  method Failed(cfg: TioConfig, cc: ChannelContext, throwable: Throwable)
    requires cc.writer.inFlight.Some?
    requires cc.sendQueue.Fifo() && SendPacketTask.SingleFlight(cc)
    modifies cc.writer, cc.sendQueue, cc.isSending
    modifies Metas(InFlightPackets(cc)), Latches(InFlightPackets(cc))
    modifies cfg.book`ipStats, cfg.groupStat`sentPackets, cc.stat`sentPackets
    modifies cc.stat`latestTimeOfSentPacket, cc.stat`sentBytes, cfg.groupStat`sentBytes
    modifies cc`isWaitingClose, cc`closeCode, cc`channel, cc`closeMeta
    modifies cc`isRemoved, cc`isClosed, cc`clientNode, cc.stat`timeClosed
    modifies cfg.book`events, cfg.book`closeds, cfg.book`connecteds, cfg.book`unknownPortSeq
    modifies cfg.groupStat`closed, cfg.clientNodes
    ensures cc.sendQueue.Fifo() && SendPacketTask.SingleFlight(cc)
    ensures cc.sendQueue.offered == old(cc.sendQueue.offered)
    ensures cc.stat.sentBytes == old(cc.stat.sentBytes) && cfg.groupStat.sentBytes == old(cfg.groupStat.sentBytes)
    ensures var ps := AttachedPackets(old(cc.writer.inFlight.value).attachment);
      forall j :: 0 <= j < |ps| && ps[j].meta.Some? ==> ps[j].meta.value.isSentSuccess == Some(false)
    ensures old(cc.sendQueue.packets) == [] ==> !cc.isSending.value && cc.writer.inFlight.None?
    ensures old(cc.sendQueue.packets) != [] ==>
      && cc.isSending.value
      && cc.sendQueue.packets == old(cc.sendQueue.packets)[1..]
      && cc.sendQueue.polled == old(cc.sendQueue.polled) + [old(cc.sendQueue.packets)[0]]
  {
    var vo := cc.writer.inFlight.value;
    cc.writer.inFlight := None;
    HandleFailure(cfg, cc, throwable, vo);
    ProcessNextPacket(cfg, cc);
  }

  /** `handle` for a failed write: zero bytes written, so every meta is marked unsent. */
  method HandleFailure(cfg: TioConfig, cc: ChannelContext, throwable: Throwable, vo: WriteVo)
    modifies Metas(AttachedPackets(vo.attachment)), Latches(AttachedPackets(vo.attachment))
    modifies cfg.book`ipStats, cfg.groupStat`sentPackets, cc.stat`sentPackets
    modifies cc.stat`latestTimeOfSentPacket, cc.stat`sentBytes, cfg.groupStat`sentBytes
    modifies cc`isWaitingClose, cc`closeCode, cc`channel, cc`closeMeta
    modifies cc`isRemoved, cc`isClosed, cc`clientNode, cc.stat`timeClosed
    modifies cfg.book`events, cfg.book`closeds, cfg.book`connecteds, cfg.book`unknownPortSeq
    modifies cfg.groupStat`closed, cfg.clientNodes
    ensures cc.stat.sentBytes == old(cc.stat.sentBytes) && cfg.groupStat.sentBytes == old(cfg.groupStat.sentBytes)
    ensures var ps := AttachedPackets(vo.attachment);
      forall j :: 0 <= j < |ps| && ps[j].meta.Some? ==> ps[j].meta.value.isSentSuccess == Some(false)
  {
    Handle(cfg, cc, 0, Some(throwable), vo);
  }

  /** `processNextPacket`: isSending is released, then the queue is tried again. */
  method ProcessNextPacket(cfg: TioConfig, cc: ChannelContext)
    requires cc.writer.inFlight.None? && cc.sendQueue.Fifo()
    modifies cc.writer, cc.sendQueue, cc.isSending
    modifies cc`isWaitingClose, cc`closeCode, cc`channel, cc`closeMeta
    modifies cc`isRemoved, cc`isClosed, cc`clientNode, cc.stat`timeClosed
    modifies cfg.book`events, cfg.book`closeds, cfg.book`connecteds, cfg.book`unknownPortSeq
    modifies cfg.groupStat`closed, cfg.clientNodes
    ensures cc.sendQueue.Fifo() && SendPacketTask.SingleFlight(cc)
    ensures cc.sendQueue.offered == old(cc.sendQueue.offered)
    ensures old(cc.sendQueue.packets) == [] ==> !cc.isSending.value && cc.writer.inFlight.None?
    ensures old(cc.sendQueue.packets) != [] ==>
      && cc.isSending.value
      && cc.sendQueue.packets == old(cc.sendQueue.packets)[1..]
      && cc.sendQueue.polled == old(cc.sendQueue.polled) + [old(cc.sendQueue.packets)[0]]
  {
    cc.isSending.Set(false);
    SendPacketTask.ProcessSendQueue(cfg, cc);
  }
}
