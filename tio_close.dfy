// Tio.close and Tio.remove: mark the connection as waiting to close, settle
// its close code, shut the socket down, record why, decide between removing
// the connection and keeping it for reconnecting, and run the teardown.

module TioClose {
  import opened Util
  import opened CloseCodes
  import opened Context
  import opened Config
  import opened CloseTask

  /**
   * The close code after a close: a given code overwrites; without one the
   * initial status becomes NO_CODE and any other code stays.
   */
  function NextCloseCode(current: ChannelCloseCode, given: Option<ChannelCloseCode>): (c: ChannelCloseCode)
    ensures given.Some? ==> c == given.value
    ensures given.None? ==> c == (if current == InitStatus then NoCode else current)
    ensures c == InitStatus ==> given == Some(InitStatus)
  {
    match given
    case Some(code) => code
    case None => if current == InitStatus then NoCode else current
  }

  /** A code chosen by an earlier close survives later closes that give none. */
  lemma NextCloseCodeSettles(current: ChannelCloseCode, given: Option<ChannelCloseCode>)
    ensures NextCloseCode(NextCloseCode(current, given), None) == NextCloseCode(current, given)
      || (given == Some(InitStatus) && NextCloseCode(NextCloseCode(current, given), None) == NoCode)
  {
  }

  /**
   * Whether the connection is removed: when asked, always on the server,
   * and on the client when the reconnect policy declines.
   */
  function RemoveDecision(isNeedRemove: bool, isServer: bool, needReconn: bool): (r: bool)
    ensures r <==> isNeedRemove || isServer || !needReconn
    ensures !r ==> !isServer
  {
    if isNeedRemove then true
    else if isServer then true
    else !needReconn
  }

  /** The socket after shutdownInput, shutdownOutput and close were each attempted, in that order. */
  function ShutDown(ch: Option<SocketChannel>): (r: Option<SocketChannel>)
    ensures r.None? <==> ch.None?
    ensures ch.Some? ==>
      && !r.value.open && r.value.enhanced == ch.value.enhanced && r.value.remote == ch.value.remote
      && r.value.ops == ch.value.ops + [ShutdownInput, ShutdownOutput, CloseSocket]
  {
    match ch
    case None => None
    case Some(c) => Some(c.(open := false, ops := c.ops + [ShutdownInput, ShutdownOutput, CloseSocket]))
  }

  /** Whether a close gets past its guards: not already waiting, and the lock taken when one is needed. */
  predicate Proceeds(waiting: bool, lockBusy: bool, needCloseLock: bool)
  {
    !waiting && !(needCloseLock && lockBusy)
  }

  /** The lifecycle flags after a whole close. */
  function CloseFlags(f: Flags, lockBusy: bool, needCloseLock: bool, remove: bool, isServer: bool,
                      listenerThrows: bool): (g: Flags)
    ensures !Proceeds(f.isWaitingClose, lockBusy, needCloseLock) ==> g == f
    ensures f.isRemoved ==> g.isRemoved
    ensures Proceeds(f.isWaitingClose, lockBusy, needCloseLock) ==>
      g == TaskFlags(f.(isWaitingClose := true), remove, isServer, listenerThrows)
  {
    if Proceeds(f.isWaitingClose, lockBusy, needCloseLock) then
      TaskFlags(f.(isWaitingClose := true), remove, isServer, listenerThrows)
    else f
  }

  /**
   * A close that tears a connection down is not repeated: any later close
   * that does not escalate from keeping to removing leaves isClosed and
   * isRemoved as the first one left them.
   */
  lemma TeardownAtMostOnce(f: Flags, lockBusy: bool, needCloseLock: bool, remove: bool, isServer: bool,
                           listenerThrows: bool, lockBusy2: bool, needCloseLock2: bool, remove2: bool,
                           listenerThrows2: bool)
    requires Proceeds(f.isWaitingClose, lockBusy, needCloseLock)
    requires !SkipsTeardown(f, remove) && !CastFails(isServer, remove)
    requires remove2 ==> remove
    ensures var g := CloseFlags(f, lockBusy, needCloseLock, remove, isServer, listenerThrows);
      var h := CloseFlags(g, lockBusy2, needCloseLock2, remove2, isServer, listenerThrows2);
      && g.isClosed && g.isRemoved == remove
      && h.isClosed == g.isClosed && h.isRemoved == g.isRemoved
  {
  }

  /**
   * A close that reaches a connection the teardown skips leaves
   * isWaitingClose set (unless the listener threw), and from then on every
   * close is a no-op.
   */
  lemma SkippedCloseStaysWaiting(f: Flags, lockBusy: bool, needCloseLock: bool, remove: bool, isServer: bool,
                                 lockBusy2: bool, needCloseLock2: bool, remove2: bool, listenerThrows2: bool)
    requires Proceeds(f.isWaitingClose, lockBusy, needCloseLock)
    requires SkipsTeardown(f, remove)
    ensures var g := CloseFlags(f, lockBusy, needCloseLock, remove, isServer, false);
      && g.isWaitingClose
      && CloseFlags(g, lockBusy2, needCloseLock2, remove2, isServer, listenerThrows2) == g
  {
  }

  /** The contexts a possibly null reference denotes, as a frame. */
  function Ctx(cc: ChannelContext?): (s: set<ChannelContext>)
    ensures cc != null ==> s == {cc}
    ensures cc == null ==> s == {}
  {
    if cc == null then {} else {cc}
  }

  function StatOf(cc: ChannelContext?): (s: set<ChannelStat>)
    ensures cc != null ==> s == {cc.stat}
    ensures cc == null ==> s == {}
  {
    if cc == null then {} else {cc.stat}
  }

  /**
   * `Tio.close` (the full overload): nothing for a null connection;
   * otherwise as `CloseConnection`.
   */
  method Close(cfg: TioConfig, cc: ChannelContext?, throwable: Option<Throwable>, remark: Option<string>,
               isNeedRemove: bool, needCloseLock: bool, closeCode: Option<ChannelCloseCode>)
    modifies Ctx(cc)`isWaitingClose, Ctx(cc)`closeCode, Ctx(cc)`channel, Ctx(cc)`closeMeta
    modifies Ctx(cc)`isRemoved, Ctx(cc)`isClosed, Ctx(cc)`clientNode, StatOf(cc)`timeClosed
    modifies cfg.book`events, cfg.book`closeds, cfg.book`connecteds, cfg.book`unknownPortSeq
    modifies cfg.groupStat`closed, cfg.clientNodes
    ensures cc == null ==>
      && cfg.book.events == old(cfg.book.events) && cfg.book.closeds == old(cfg.book.closeds)
      && cfg.book.connecteds == old(cfg.book.connecteds) && cfg.groupStat.closed == old(cfg.groupStat.closed)
      && cfg.clientNodes.nodes == old(cfg.clientNodes.nodes) && cfg.book.unknownPortSeq == old(cfg.book.unknownPortSeq)
    ensures cc != null ==> Closed(cfg, cc, throwable, remark, isNeedRemove, needCloseLock, closeCode)
  {
    if cc == null {
      return;
    }
    CloseConnection(cfg, cc, throwable, remark, isNeedRemove, needCloseLock, closeCode);
  }

  /**
   * What `Tio.close` leaves behind on a connection: nothing changes for an
   * already waiting connection, or when the close lock is taken;
   * otherwise the connection is marked waiting, its code settled, its
   * socket shut and its close meta recorded, and the teardown has run.
   */
  twostate predicate Closed(cfg: TioConfig, cc: ChannelContext, throwable: Option<Throwable>, remark: Option<string>,
                            isNeedRemove: bool, needCloseLock: bool, closeCode: Option<ChannelCloseCode>)
    reads cfg, cfg.book, cfg.groupStat, cfg.clientNodes, cc, cc.stat
  {
    && (!Proceeds(old(cc.isWaitingClose), cc.closeLockBusy, needCloseLock) ==> Untouched(cfg, cc))
    && (Proceeds(old(cc.isWaitingClose), cc.closeLockBusy, needCloseLock) ==>
      && ClosedNow(cfg, cc, throwable, remark, isNeedRemove, closeCode)
      && FlagsOf(cc) == CloseFlags(old(FlagsOf(cc)), cc.closeLockBusy, needCloseLock, cc.closeMeta.isNeedRemove,
                                   cc.isServer, cfg.handlers.hasAioListener && cfg.handlers.beforeCloseThrows))
  }

  /** A close that did not get past its guards changed nothing. */
  twostate predicate Untouched(cfg: TioConfig, cc: ChannelContext)
    reads cfg, cfg.book, cfg.groupStat, cfg.clientNodes, cc
  {
    && cfg.book.events == old(cfg.book.events) && cfg.book.closeds == old(cfg.book.closeds)
    && cfg.book.connecteds == old(cfg.book.connecteds) && cfg.groupStat.closed == old(cfg.groupStat.closed)
    && cfg.clientNodes.nodes == old(cfg.clientNodes.nodes) && cfg.book.unknownPortSeq == old(cfg.book.unknownPortSeq)
    && FlagsOf(cc) == old(FlagsOf(cc)) && cc.closeCode == old(cc.closeCode) && cc.channel == old(cc.channel)
    && cc.closeMeta == old(cc.closeMeta) && cc.clientNode == old(cc.clientNode)
  }

  /**
   * A close past its guards: the code settled, the socket shut, the meta
   * recorded, the flags as the teardown task leaves them, the task's calls
   * logged, the close time stamped and the registries updated.
   */
  twostate predicate ClosedNow(cfg: TioConfig, cc: ChannelContext, throwable: Option<Throwable>, remark: Option<string>,
                               isNeedRemove: bool, closeCode: Option<ChannelCloseCode>)
    reads cfg, cfg.book, cfg.groupStat, cfg.clientNodes, cc, cc.stat
  {
    var remove := RemoveDecision(isNeedRemove, cc.isServer, cfg.handlers.needReconn);
    var entry := old(FlagsOf(cc)).(isWaitingClose := true);
    && cc.closeCode == NextCloseCode(old(cc.closeCode), closeCode)
    && cc.channel == ShutDown(old(cc.channel))
    && cc.closeMeta == CloseMeta(throwable, remark, remove)
    && FlagsOf(cc) == TaskFlags(entry, remove, cc.isServer, cfg.handlers.hasAioListener && cfg.handlers.beforeCloseThrows)
    && cfg.book.events == old(cfg.book.events) + TaskEvents(cc, entry, cc.closeMeta, cc.isServer, cfg.handlers.hasAioListener)
    && cc.stat.timeClosed == cfg.book.now
    && BookAfterTask(cfg, cc, !SkipsTeardown(entry, remove) && !CastFails(cc.isServer, remove))
  }

  /** `Tio.close` on a connection that is there. */
  method CloseConnection(cfg: TioConfig, cc: ChannelContext, throwable: Option<Throwable>, remark: Option<string>,
                         isNeedRemove: bool, needCloseLock: bool, closeCode: Option<ChannelCloseCode>)
    modifies cc`isWaitingClose, cc`closeCode, cc`channel, cc`closeMeta
    modifies cc`isRemoved, cc`isClosed, cc`clientNode, cc.stat`timeClosed
    modifies cfg.book`events, cfg.book`closeds, cfg.book`connecteds, cfg.book`unknownPortSeq
    modifies cfg.groupStat`closed, cfg.clientNodes
    ensures Closed(cfg, cc, throwable, remark, isNeedRemove, needCloseLock, closeCode)
  {
    if !Proceeds(cc.isWaitingClose, cc.closeLockBusy, needCloseLock) {
      return;
    }
    ghost var f := FlagsOf(cc);
    CloseNow(cfg, cc, throwable, remark, isNeedRemove, closeCode);
    assert CloseFlags(f, cc.closeLockBusy, needCloseLock, cc.closeMeta.isNeedRemove, cc.isServer,
                      cfg.handlers.hasAioListener && cfg.handlers.beforeCloseThrows)
        == TaskFlags(f.(isWaitingClose := true), cc.closeMeta.isNeedRemove, cc.isServer,
                     cfg.handlers.hasAioListener && cfg.handlers.beforeCloseThrows);
  }

  /** `Tio.close` past its guards: the marking, then the teardown task. */
  method CloseNow(cfg: TioConfig, cc: ChannelContext, throwable: Option<Throwable>, remark: Option<string>,
                  isNeedRemove: bool, closeCode: Option<ChannelCloseCode>)
    modifies cc`isWaitingClose, cc`closeCode, cc`channel, cc`closeMeta
    modifies cc`isRemoved, cc`isClosed, cc`clientNode, cc.stat`timeClosed
    modifies cfg.book`events, cfg.book`closeds, cfg.book`connecteds, cfg.book`unknownPortSeq
    modifies cfg.groupStat`closed, cfg.clientNodes
    ensures ClosedNow(cfg, cc, throwable, remark, isNeedRemove, closeCode)
  {
    MarkClosing(cfg, cc, throwable, remark, isNeedRemove, closeCode);
    CloseTask.Close(cfg, cc);
  }

  /**
   * The part of `Tio.close` between the lock and the teardown: the
   * connection is marked waiting, its code settled, its socket shut and the
   * close meta recorded.
   */
  method MarkClosing(cfg: TioConfig, cc: ChannelContext, throwable: Option<Throwable>, remark: Option<string>,
                     isNeedRemove: bool, closeCode: Option<ChannelCloseCode>)
    modifies cc`isWaitingClose, cc`closeCode, cc`channel, cc`closeMeta
    ensures cc.isWaitingClose
    ensures cc.closeCode == NextCloseCode(old(cc.closeCode), closeCode)
    ensures cc.channel == ShutDown(old(cc.channel))
    ensures cc.closeMeta == CloseMeta(throwable, remark, RemoveDecision(isNeedRemove, cc.isServer, cfg.handlers.needReconn))
  {
    cc.isWaitingClose := true;
    if closeCode.None? {
      if cc.closeCode == InitStatus {
        cc.closeCode := NoCode;
      }
    } else {
      cc.closeCode := closeCode.value;
    }
    if cc.channel.Some? {
      // each call is attempted whatever the one before it did; their errors are swallowed
      var ch := cc.channel.value;
      cc.channel := Some(ch.(open := false, ops := ch.ops + [ShutdownInput, ShutdownOutput, CloseSocket]));
    }
    var remove := isNeedRemove;
    if !remove {
      if cc.isServer {
        remove := true;
      } else if !cfg.handlers.needReconn {
        remove := true;
      }
    }
    cc.closeMeta := CloseMeta(throwable, remark, remove);
  }

  /** `Tio.remove`: a close that always removes, under the close lock. */
  method Remove(cfg: TioConfig, cc: ChannelContext?, throwable: Option<Throwable>, remark: Option<string>,
                closeCode: Option<ChannelCloseCode>)
    modifies Ctx(cc)`isWaitingClose, Ctx(cc)`closeCode, Ctx(cc)`channel, Ctx(cc)`closeMeta
    modifies Ctx(cc)`isRemoved, Ctx(cc)`isClosed, Ctx(cc)`clientNode, StatOf(cc)`timeClosed
    modifies cfg.book`events, cfg.book`closeds, cfg.book`connecteds, cfg.book`unknownPortSeq
    modifies cfg.groupStat`closed, cfg.clientNodes
    ensures cc != null && Proceeds(old(cc.isWaitingClose), cc.closeLockBusy, true) ==>
      && cc.closeMeta.isNeedRemove && cc.isRemoved && cc.closeCode == NextCloseCode(old(cc.closeCode), closeCode)
    ensures cc != null && !Proceeds(old(cc.isWaitingClose), cc.closeLockBusy, true) ==>
      FlagsOf(cc) == old(FlagsOf(cc)) && cc.closeMeta == old(cc.closeMeta)
  {
    Close(cfg, cc, throwable, remark, true, true, closeCode);
  }

  /**
   * `Tio.close` on a connection, as a caller that only reads back the
   * outcome sees it: a close that proceeds settles the code and records the
   * close meta; one that does not leaves the flags, code and meta alone.
   */
  method CloseOutcome(cfg: TioConfig, cc: ChannelContext, throwable: Option<Throwable>, remark: Option<string>,
                      isNeedRemove: bool, needCloseLock: bool, closeCode: Option<ChannelCloseCode>)
    modifies cc`isWaitingClose, cc`closeCode, cc`channel, cc`closeMeta
    modifies cc`isRemoved, cc`isClosed, cc`clientNode, cc.stat`timeClosed
    modifies cfg.book`events, cfg.book`closeds, cfg.book`connecteds, cfg.book`unknownPortSeq
    modifies cfg.groupStat`closed, cfg.clientNodes
    ensures Proceeds(old(cc.isWaitingClose), cc.closeLockBusy, needCloseLock) ==>
      && cc.closeCode == NextCloseCode(old(cc.closeCode), closeCode)
      && cc.closeMeta == CloseMeta(throwable, remark, RemoveDecision(isNeedRemove, cc.isServer, cfg.handlers.needReconn))
    ensures !Proceeds(old(cc.isWaitingClose), cc.closeLockBusy, needCloseLock) ==>
      FlagsOf(cc) == old(FlagsOf(cc)) && cc.closeCode == old(cc.closeCode) && cc.closeMeta == old(cc.closeMeta)
  {
    CloseConnection(cfg, cc, throwable, remark, isNeedRemove, needCloseLock, closeCode);
  }
}
