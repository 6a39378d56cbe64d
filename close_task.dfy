// CloseTask.close: the teardown that follows Tio.close. It tells the
// listener, then either purges the connection (remove) or parks a client
// connection among the closed ones for reconnecting (keep).

module CloseTask {
  import opened Util
  import opened Context
  import opened Config
  import ChannelOps

  /** The lifecycle flags of a connection. */
  datatype Flags = Flags(isWaitingClose: bool, isClosed: bool, isRemoved: bool)

  function FlagsOf(cc: ChannelContext): (f: Flags)
    reads cc
    ensures f.isWaitingClose == cc.isWaitingClose && f.isClosed == cc.isClosed && f.isRemoved == cc.isRemoved
  {
    Flags(cc.isWaitingClose, cc.isClosed, cc.isRemoved)
  }

  /**
   * The early exits: a connection closed before and not now being removed,
   * or one already removed, is not torn down again.
   */
  predicate SkipsTeardown(f: Flags, isNeedRemove: bool)
  {
    (f.isClosed && !isNeedRemove) || f.isRemoved
  }

  /**
   * Keeping a server connection needs the client config's closed set; the
   * failed cast is caught and skips the rest of the teardown.
   */
  predicate CastFails(isServer: bool, isNeedRemove: bool)
  {
    isServer && !isNeedRemove
  }

  /**
   * The flags after the task. A listener that throws clears isWaitingClose
   * before the early exits are tested; an early exit leaves the flags
   * otherwise as they were, and a teardown that runs ends with the
   * connection closed, removed exactly when asked, and no longer waiting.
   */
  function TaskFlags(f: Flags, isNeedRemove: bool, isServer: bool, listenerThrows: bool): (g: Flags)
    ensures f.isRemoved ==> g.isRemoved
    ensures g.isWaitingClose ==> f.isWaitingClose && !listenerThrows && SkipsTeardown(f, isNeedRemove)
    ensures SkipsTeardown(f, isNeedRemove) ==> g.isClosed == f.isClosed && g.isRemoved == f.isRemoved
    ensures !SkipsTeardown(f, isNeedRemove) && !CastFails(isServer, isNeedRemove) ==>
      g.isClosed && g.isRemoved == isNeedRemove && SkipsTeardown(g, false) && (isNeedRemove ==> SkipsTeardown(g, true))
  {
    var waiting := if listenerThrows then false else f.isWaitingClose;
    if SkipsTeardown(f, isNeedRemove) then f.(isWaitingClose := waiting)
    else if CastFails(isServer, isNeedRemove) then f.(isWaitingClose := false)
    else Flags(false, true, isNeedRemove)
  }

  /** The calls the task makes into the listener, the maintainers and the reconnect queue, in order. */
  function TaskEvents(cc: ChannelContext, f: Flags, meta: CloseMeta, isServer: bool, hasListener: bool): (es: seq<Event>)
    ensures hasListener <==> |es| > 0 && es[0] == BeforeClose(cc, meta.throwable, meta.remark, meta.isNeedRemove)
    ensures ReconnPut(cc) in es <==> !SkipsTeardown(f, meta.isNeedRemove) && !meta.isNeedRemove && !isServer
    ensures MaintainRemove(cc) in es <==> !SkipsTeardown(f, meta.isNeedRemove) && meta.isNeedRemove
    ensures MaintainClose(cc) in es <==> !SkipsTeardown(f, meta.isNeedRemove) && !meta.isNeedRemove && !isServer
  {
    var before := if hasListener then [BeforeClose(cc, meta.throwable, meta.remark, meta.isNeedRemove)] else [];
    if SkipsTeardown(f, meta.isNeedRemove) then before
    else if meta.isNeedRemove then before + [MaintainRemove(cc)]
    else if isServer then before
    else before + [MaintainClose(cc), ReconnPut(cc)]
  }

  /**
   * What the task leaves in the config: a torn-down kept connection moves
   * from the connected set to the closed set, the closed counter counts
   * each teardown, and a torn-down connection holds a placeholder client
   * node; without a teardown none of these change.
   */
  twostate predicate BookAfterTask(cfg: TioConfig, cc: ChannelContext, tornDown: bool)
    reads cfg, cfg.book, cfg.groupStat, cfg.clientNodes, cc
  {
    && (tornDown && !cc.closeMeta.isNeedRemove ==>
          cfg.book.closeds == old(cfg.book.closeds) + {cc} && cfg.book.connecteds == old(cfg.book.connecteds) - {cc})
    && (!tornDown || cc.closeMeta.isNeedRemove ==>
          cfg.book.closeds == old(cfg.book.closeds) && cfg.book.connecteds == old(cfg.book.connecteds))
    && cfg.groupStat.closed == old(cfg.groupStat.closed) + (if tornDown && cfg.statOn then 1 else 0)
    && (tornDown ==> cc.clientNode.Some? && cc.clientNode.value.host == UnknownAddressIp)
    && (!tornDown ==>
          && cc.clientNode == old(cc.clientNode) && cfg.clientNodes.nodes == old(cfg.clientNodes.nodes)
          && cfg.book.unknownPortSeq == old(cfg.book.unknownPortSeq))
  }

  /**
   * `CloseTask.close`: reads the close meta Tio.close left behind and tears
   * the connection down once.
   */
  method Close(cfg: TioConfig, cc: ChannelContext)
    modifies cc`isWaitingClose, cc`isRemoved, cc`isClosed, cc`clientNode, cc.stat`timeClosed
    modifies cfg.book`events, cfg.book`closeds, cfg.book`connecteds, cfg.book`unknownPortSeq
    modifies cfg.groupStat`closed, cfg.clientNodes
    ensures FlagsOf(cc) == TaskFlags(old(FlagsOf(cc)), cc.closeMeta.isNeedRemove, cc.isServer,
                                     cfg.handlers.hasAioListener && cfg.handlers.beforeCloseThrows)
    ensures cfg.book.events == old(cfg.book.events) +
      TaskEvents(cc, old(FlagsOf(cc)), cc.closeMeta, cc.isServer, cfg.handlers.hasAioListener)
    ensures cc.stat.timeClosed == cfg.book.now
    ensures BookAfterTask(cfg, cc, !SkipsTeardown(old(FlagsOf(cc)), cc.closeMeta.isNeedRemove)
                                   && !CastFails(cc.isServer, cc.closeMeta.isNeedRemove))
  {
    var isNeedRemove := cc.closeMeta.isNeedRemove;
    cc.stat.timeClosed := cfg.book.now;
    Notify(cfg, cc);
    if SkipsTeardown(FlagsOf(cc), isNeedRemove) {
      return;
    }
    ghost var before := cfg.book.events[|old(cfg.book.events)|..];
    Teardown(cfg, cc, isNeedRemove);
    ghost var after := if isNeedRemove then [MaintainRemove(cc)] else if cc.isServer then [] else [MaintainClose(cc), ReconnPut(cc)];
    assert TaskEvents(cc, old(FlagsOf(cc)), cc.closeMeta, cc.isServer, cfg.handlers.hasAioListener) == before + after;
    AppendTwice(old(cfg.book.events), before, after);
  }

  /** The listener's beforeClose; when it throws, the task clears isWaitingClose and carries on. */
  method Notify(cfg: TioConfig, cc: ChannelContext)
    modifies cc`isWaitingClose, cfg.book`events
    ensures cfg.book.events == old(cfg.book.events) +
      (if cfg.handlers.hasAioListener then [BeforeClose(cc, cc.closeMeta.throwable, cc.closeMeta.remark, cc.closeMeta.isNeedRemove)] else [])
    ensures cc.isWaitingClose == (old(cc.isWaitingClose) && !(cfg.handlers.hasAioListener && cfg.handlers.beforeCloseThrows))
  {
    if cfg.handlers.hasAioListener {
      cfg.book.events := cfg.book.events + [BeforeClose(cc, cc.closeMeta.throwable, cc.closeMeta.remark, cc.closeMeta.isNeedRemove)];
      if cfg.handlers.beforeCloseThrows {
        cc.isWaitingClose := false;
      }
    }
  }

  /** The body of the task's try block and its finally clause. */
  method Teardown(cfg: TioConfig, cc: ChannelContext, isNeedRemove: bool)
    modifies cc`isWaitingClose, cc`isRemoved, cc`isClosed, cc`clientNode, cc.stat`timeClosed
    modifies cfg.book`events, cfg.book`closeds, cfg.book`connecteds, cfg.book`unknownPortSeq
    modifies cfg.groupStat`closed, cfg.clientNodes
    ensures CastFails(cc.isServer, isNeedRemove) ==>
      && cc.isClosed == old(cc.isClosed) && cc.isRemoved == old(cc.isRemoved) && !cc.isWaitingClose
      && cfg.book.events == old(cfg.book.events) && cfg.book.closeds == old(cfg.book.closeds)
      && cfg.book.connecteds == old(cfg.book.connecteds) && cfg.groupStat.closed == old(cfg.groupStat.closed)
      && cc.clientNode == old(cc.clientNode) && cfg.clientNodes.nodes == old(cfg.clientNodes.nodes)
      && cfg.book.unknownPortSeq == old(cfg.book.unknownPortSeq) && cc.stat.timeClosed == old(cc.stat.timeClosed)
    ensures !CastFails(cc.isServer, isNeedRemove) ==>
      && cc.isClosed && cc.isRemoved == isNeedRemove && !cc.isWaitingClose
      && cfg.book.events == old(cfg.book.events) +
           (if isNeedRemove then [MaintainRemove(cc)] else [MaintainClose(cc), ReconnPut(cc)])
      && cfg.book.closeds == (if isNeedRemove then old(cfg.book.closeds) else old(cfg.book.closeds) + {cc})
      && cfg.book.connecteds == (if isNeedRemove then old(cfg.book.connecteds) else old(cfg.book.connecteds) - {cc})
      && cfg.groupStat.closed == old(cfg.groupStat.closed) + (if cfg.statOn then 1 else 0)
      && cc.clientNode.Some? && cc.clientNode.value.host == UnknownAddressIp
      && cc.stat.timeClosed == cfg.book.now
  {
    if isNeedRemove {
      cfg.book.events := cfg.book.events + [MaintainRemove(cc)];
    } else if cc.isServer {
      // the cast to the client config throws; the rest is skipped
      cc.isWaitingClose := false;
      return;
    } else {
      cfg.book.closeds := cfg.book.closeds + {cc};
      cfg.book.connecteds := cfg.book.connecteds - {cc};
      cfg.book.events := cfg.book.events + [MaintainClose(cc)];
    }
    cc.isRemoved := isNeedRemove;
    if cfg.statOn {
      cfg.groupStat.closed := cfg.groupStat.closed + 1;
    }
    cc.stat.timeClosed := cfg.book.now;
    ChannelOps.SetClosed(cfg, cc, true);
    if !isNeedRemove && cc.isClosed && !cc.isServer {
      cfg.book.events := cfg.book.events + [ReconnPut(cc)];
    }
    cc.isWaitingClose := false;
  }
}
