// ConnectionCompletionHandler: the end of a client's connect attempt. A
// success installs the socket in the connection (a reconnect reuses the old
// context and takes it out of the closed set, a first connect builds a new
// one), marks it open, puts it among the connected and issues the first
// read; a failure hands the connection to the reconnect policy and closes
// it for good when the policy declines. Either way the caller's latch is
// counted down and the listener hears of the outcome, except that a
// successful TLS connect starts the handshake instead.

module ConnectionCompletionHandler {
  import opened Util
  import opened Nodes
  import opened CloseCodes
  import opened Context
  import opened Config
  import ChannelOps
  import TioClose
  import opened CloseTask

  /** The remark of the close after the reconnect policy declines ("no reconnect needed, close the connection"). */
  const NoReconnectRemark: string := "不需要重连，关闭该连接"

  /** What a connect attempt carries to its completion. */
  class ConnectionCompletionVo {
    var channelContext: Option<ChannelContext>
    const socket: SocketChannel
    const serverNode: Node
    const bindIp: Option<string>
    const bindPort: int
    const isReconnect: bool
    const latch: Option<CountDownLatch>

    constructor (channelContext: Option<ChannelContext>, socket: SocketChannel, serverNode: Node,
                 bindIp: Option<string>, bindPort: int, isReconnect: bool, latch: Option<CountDownLatch>)
      ensures this.channelContext == channelContext && this.socket == socket && this.serverNode == serverNode
      ensures this.bindIp == bindIp && this.bindPort == bindPort
      ensures this.isReconnect == isReconnect && this.latch == latch
    {
      this.channelContext := channelContext;
      this.socket := socket;
      this.serverNode := serverNode;
      this.bindIp := bindIp;
      this.bindPort := bindPort;
      this.isReconnect := isReconnect;
      this.latch := latch;
    }
  }

  /** A context and its statistics, the objects a close of it may change. */
  function Parts(o: Option<ChannelContext>): set<object>
  {
    if o.Some? then {o.value, o.value.stat} else {}
  }

  /** The latch of an attempt, as a frame. */
  function LatchFrame(l: Option<CountDownLatch>): set<object>
  {
    if l.Some? then {l.value} else {}
  }

  /**
   * `new ClientChannelContext(config, socket)` followed by `setServerNode`:
   * a fresh client connection, still marked closed, whose peer is the
   * socket's remote address and whose id the config's id generator gave.
   * With TLS configured it gets its TLS state at once; a client does not
   * start the handshake here.
   */
  method NewClientContext(cfg: TioConfig, socket: SocketChannel, id: string, serverNode: Node)
    returns (cc: ChannelContext)
    modifies cfg.clientNodes, cfg.book`unknownPortSeq
    ensures fresh(cc) && fresh(cc.stat)
    ensures !cc.isServer && cc.isShortConnection == cfg.isShortConnection && !cc.isVirtual && cc.id == Some(id)
    ensures cc.channel == Some(socket) && cc.serverNode == Some(serverNode)
    ensures cc.isClosed && !cc.isWaitingClose && !cc.isRemoved && !cc.closeLockBusy
    ensures cc.closeCode == InitStatus
    ensures socket.remote.Some? ==>
      cc.clientNode == Some(NewNode(Some(socket.remote.value.host), socket.remote.value.port))
    ensures cc.sslFacadeContext.Some? <==> cfg.sslOn
    ensures cc.sslFacadeContext.Some? ==>
      fresh(cc.sslFacadeContext.value) && !cc.sslFacadeContext.value.handshakeCompleted
  {
    cc := new ChannelContext(false, cfg.isShortConnection, false, Some(id));
    ChannelOps.SetAsynchronousSocketChannel(cfg, cc, Some(socket));
    if cfg.sslOn {
      var ssl := new SslFacadeContext();
      cc.sslFacadeContext := Some(ssl);
    }
    cc.serverNode := Some(serverNode);
  }

  /**
   * The success branch. A reconnect without a context fails on the first
   * step and changes nothing; otherwise the context (the old one for a
   * reconnect, a new one for a first connect) is open, bound to the given
   * local address, has no reconnect attempts, is among the connected and
   * not the closed, has its first read issued, and on a first connect
   * records when it first connected.
   */
  method OnConnected(cfg: TioConfig, vo: ConnectionCompletionVo, id: string)
    returns (cc: Option<ChannelContext>, isConnected: bool)
    modifies vo, cfg.clientNodes, cfg.book`unknownPortSeq, cfg.book`closeds, cfg.book`connecteds, cfg.book`events
    modifies Parts(vo.channelContext)
    ensures isConnected <==> !vo.isReconnect || old(vo.channelContext).Some?
    ensures isConnected <==> cc.Some?
    ensures !isConnected ==>
      && vo.channelContext == old(vo.channelContext) && cfg.book.events == old(cfg.book.events)
      && cfg.book.closeds == old(cfg.book.closeds) && cfg.book.connecteds == old(cfg.book.connecteds)
    ensures isConnected ==>
      var c := cc.value;
      && vo.channelContext == cc
      && (vo.isReconnect ==> cc == old(vo.channelContext))
      && (!vo.isReconnect ==>
            fresh(c) && fresh(c.stat) && c.serverNode == Some(vo.serverNode) && c.id == Some(id)
            && c.timeFirstConnected == Some(cfg.book.now)
            && (c.sslFacadeContext.Some? <==> cfg.sslOn))
      && c.channel == Some(vo.socket)
      && !c.isClosed && c.reconnCount == 0 && c.bindIp == vo.bindIp && c.bindPort == vo.bindPort
      && cfg.book.connecteds == old(cfg.book.connecteds) + {c}
      && cfg.book.closeds == old(cfg.book.closeds) - {c}
      && cfg.book.events == old(cfg.book.events) + [SocketRead(c, c.GetReadBufferSize(cfg.readBufferSize))]
  {
    var cur: ChannelContext;
    if vo.isReconnect {
      if vo.channelContext.None? {
        // installing the socket in a missing context throws, and the catch swallows it
        return None, false;
      }
      cur := vo.channelContext.value;
      ChannelOps.SetAsynchronousSocketChannel(cfg, cur, Some(vo.socket));
      cfg.book.closeds := cfg.book.closeds - {cur};
    } else {
      cur := NewClientContext(cfg, vo.socket, id, vo.serverNode);
    }
    Open(cfg, vo, cur);
    cc, isConnected := Some(cur), true;
  }

  /** The steps of a success that do not depend on where the context came from. */
  method Open(cfg: TioConfig, vo: ConnectionCompletionVo, cur: ChannelContext)
    modifies vo`channelContext, cur`bindIp, cur`bindPort, cur`reconnCount, cur`isClosed, cur`timeFirstConnected
    modifies cur`clientNode, cfg.clientNodes, cfg.book`unknownPortSeq, cfg.book`connecteds, cfg.book`events
    ensures vo.channelContext == Some(cur)
    ensures !cur.isClosed && cur.reconnCount == 0 && cur.bindIp == vo.bindIp && cur.bindPort == vo.bindPort
    ensures cur.clientNode == old(cur.clientNode)
    ensures cfg.book.connecteds == old(cfg.book.connecteds) + {cur}
    ensures cfg.book.events == old(cfg.book.events) + [SocketRead(cur, cur.GetReadBufferSize(cfg.readBufferSize))]
    ensures cur.timeFirstConnected == if vo.isReconnect then old(cur.timeFirstConnected) else Some(cfg.book.now)
  {
    cur.bindIp := vo.bindIp;
    cur.bindPort := vo.bindPort;
    cur.reconnCount := 0;
    ChannelOps.SetClosed(cfg, cur, false);
    vo.channelContext := Some(cur);
    cfg.book.connecteds := cfg.book.connecteds + {cur};
    cfg.book.events := cfg.book.events + [SocketRead(cur, cur.GetReadBufferSize(cfg.readBufferSize))];
    if !vo.isReconnect {
      cur.timeFirstConnected := Some(cfg.book.now);
    }
  }

  /**
   * The failure branch. Without a context one is built only when a
   * reconnect policy exists; a first connect records it in the attempt.
   * The context is offered to the reconnect policy, and when the policy
   * declines it is closed, removed, without the close lock, with
   * CLIENT_CONNECTION_FAIL.
   */
  method OnFailed(cfg: TioConfig, vo: ConnectionCompletionVo, id: string) returns (cc: Option<ChannelContext>)
    modifies vo`channelContext, cfg.clientNodes, cfg.book`unknownPortSeq
    modifies cfg.book`events, cfg.book`closeds, cfg.book`connecteds, cfg.groupStat`closed
    modifies Parts(vo.channelContext)
    ensures old(vo.channelContext).Some? ==> cc == old(vo.channelContext)
    ensures old(vo.channelContext).None? && !cfg.handlers.hasReconnConf ==>
      && cc.None? && vo.channelContext.None? && cfg.book.events == old(cfg.book.events)
    ensures old(vo.channelContext).None? && cfg.handlers.hasReconnConf ==>
      && cc.Some? && fresh(cc.value) && fresh(cc.value.stat)
      && cc.value.serverNode == Some(vo.serverNode) && cc.value.id == Some(id)
    ensures vo.channelContext == if !vo.isReconnect && cc.Some? then cc else old(vo.channelContext)
    ensures cc.Some? && cfg.handlers.reconnPutAccepts ==>
      cfg.book.events == old(cfg.book.events) + [ReconnPut(cc.value)]
    ensures old(vo.channelContext).Some? && !cfg.handlers.reconnPutAccepts &&
            !old(vo.channelContext.value.isWaitingClose) ==>
      var c := old(vo.channelContext).value;
      c.closeCode == ClientConnectionFail && c.closeMeta == CloseMeta(None, Some(NoReconnectRemark), true)
    ensures old(vo.channelContext).None? && cc.Some? && !cfg.handlers.reconnPutAccepts ==>
      cc.value.closeCode == ClientConnectionFail && cc.value.closeMeta == CloseMeta(None, Some(NoReconnectRemark), true)
  {
    cc := ContextForFailure(cfg, vo, id);
    if cc.Some? {
      // a null context is declined and its close does nothing
      OfferToReconnect(cfg, cc.value);
    }
  }

  /**
   * The context a failed attempt reports on: the attempt's own, else a new
   * one when a reconnect policy exists; a first connect records it.
   */
  method ContextForFailure(cfg: TioConfig, vo: ConnectionCompletionVo, id: string) returns (cc: Option<ChannelContext>)
    modifies vo`channelContext, cfg.clientNodes, cfg.book`unknownPortSeq
    ensures old(vo.channelContext).Some? ==> cc == old(vo.channelContext)
    ensures old(vo.channelContext).None? && !cfg.handlers.hasReconnConf ==> cc.None?
    ensures old(vo.channelContext).None? && cfg.handlers.hasReconnConf ==>
      && cc.Some? && fresh(cc.value) && fresh(cc.value.stat)
      && cc.value.serverNode == Some(vo.serverNode) && cc.value.id == Some(id)
      && !cc.value.isWaitingClose
    ensures vo.channelContext == if !vo.isReconnect && cc.Some? then cc else old(vo.channelContext)
  {
    cc := vo.channelContext;
    if cc.None? && cfg.handlers.hasReconnConf {
      var made := NewClientContext(cfg, vo.socket, id, vo.serverNode);
      cc := Some(made);
    }
    if !vo.isReconnect && cc.Some? {
      vo.channelContext := cc;
    }
  }

  /**
   * `ReconnConf.put` and its refusal: the context is offered to the
   * reconnect policy, and closed for good when the policy declines.
   */
  method OfferToReconnect(cfg: TioConfig, c: ChannelContext)
    modifies c`isWaitingClose, c`closeCode, c`channel, c`closeMeta
    modifies c`isRemoved, c`isClosed, c`clientNode, c.stat`timeClosed
    modifies cfg.book`events, cfg.book`closeds, cfg.book`connecteds, cfg.book`unknownPortSeq
    modifies cfg.groupStat`closed, cfg.clientNodes
    ensures cfg.handlers.reconnPutAccepts ==>
      cfg.book.events == old(cfg.book.events) + [ReconnPut(c)] && FlagsOf(c) == old(FlagsOf(c))
    ensures !cfg.handlers.reconnPutAccepts && !old(c.isWaitingClose) ==>
      c.closeCode == ClientConnectionFail && c.closeMeta == CloseMeta(None, Some(NoReconnectRemark), true)
  {
    cfg.book.events := cfg.book.events + [ReconnPut(c)];
    if !cfg.handlers.reconnPutAccepts {
      TioClose.CloseOutcome(cfg, c, None, Some(NoReconnectRemark), true, false, Some(ClientConnectionFail));
    }
  }

  /**
   * The `finally` block for a present context: it records whether this
   * was a reconnect. With TLS a successful connect gets new TLS state and
   * starts its handshake; every other outcome is reported to the listener.
   */
  method Report(cfg: TioConfig, vo: ConnectionCompletionVo, c: ChannelContext, isConnected: bool)
    modifies c`isReconnect, c`sslFacadeContext, cfg.book`events
    ensures c.isReconnect == vo.isReconnect
    ensures var notice := cfg.handlers.hasAioListener && !(cfg.sslOn && isConnected);
      cfg.book.events == old(cfg.book.events) + (if notice then [AfterConnected(c, isConnected, vo.isReconnect)] else [])
    ensures cfg.sslOn && isConnected ==>
      && c.sslFacadeContext.Some? && fresh(c.sslFacadeContext.value)
      && !c.sslFacadeContext.value.handshakeCompleted
    ensures !(cfg.sslOn && isConnected) ==> c.sslFacadeContext == old(c.sslFacadeContext)
  {
    c.isReconnect := vo.isReconnect;
    if cfg.sslOn {
      if isConnected {
        // the handshake itself is driven by the TLS engine
        var ssl := new SslFacadeContext();
        c.sslFacadeContext := Some(ssl);
      } else if cfg.handlers.hasAioListener {
        cfg.book.events := cfg.book.events + [AfterConnected(c, false, vo.isReconnect)];
      }
    } else if cfg.handlers.hasAioListener {
      cfg.book.events := cfg.book.events + [AfterConnected(c, isConnected, vo.isReconnect)];
    }
  }

  /**
   * `handler`: the success or the failure branch, then the `finally`
   * block, which counts the latch down and reports on a present context.
   * A connect succeeds exactly when no failure was reported and a
   * reconnect has a context to reuse; a succeeded connection is open,
   * connected, not closed, and knows whether it was a reconnect.
   */
  method Handler(cfg: TioConfig, vo: ConnectionCompletionVo, failure: Option<Throwable>, id: string)
    returns (isConnected: bool)
    modifies vo, cfg.clientNodes, cfg.book`unknownPortSeq, cfg.book`closeds, cfg.book`connecteds, cfg.book`events
    modifies cfg.groupStat`closed, Parts(vo.channelContext), LatchFrame(vo.latch)
    ensures isConnected <==> failure.None? && (!vo.isReconnect || old(vo.channelContext).Some?)
    ensures vo.latch.Some? ==>
      vo.latch.value.count == if old(vo.latch.value.count) == 0 then 0 else old(vo.latch.value.count) - 1
    ensures isConnected ==>
      && vo.channelContext.Some?
      && var c := vo.channelContext.value;
      && !c.isClosed && c.reconnCount == 0 && c.isReconnect == vo.isReconnect
      && c in cfg.book.connecteds && c !in cfg.book.closeds
      && (cfg.sslOn ==> c.sslFacadeContext.Some? && !c.sslFacadeContext.value.handshakeCompleted)
      && cfg.book.events == old(cfg.book.events) + [SocketRead(c, c.GetReadBufferSize(cfg.readBufferSize))]
           + (if cfg.handlers.hasAioListener && !cfg.sslOn then [AfterConnected(c, true, vo.isReconnect)] else [])
    ensures failure.Some? && old(vo.channelContext).Some? ==>
      var c := old(vo.channelContext).value;
      && c.isReconnect == vo.isReconnect
      && (cfg.handlers.hasAioListener ==>
            |cfg.book.events| > 0 && cfg.book.events[|cfg.book.events| - 1] == AfterConnected(c, false, vo.isReconnect))
  {
    var cc: Option<ChannelContext>;
    if failure.None? {
      cc, isConnected := OnConnected(cfg, vo, id);
    } else {
      cc := OnFailed(cfg, vo, id);
      isConnected := false;
    }
    if vo.latch.Some? {
      vo.latch.value.CountDown();
    }
    if cc.Some? {
      Report(cfg, vo, cc.value, isConnected);
    }
  }
}
