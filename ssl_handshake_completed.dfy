// What happens once a connection's TLS handshake completes
// (SslHandshakeCompletedListener), and the lazily created queue of packets
// held back until then (AfterSslHandshakeCompleted). The listener reads the
// queue from a holder it has just created without asking it to create the
// queue, so the queue it finds is always absent and nothing is drained.

module SslHandshakeCompleted {
  import opened Util
  import opened Context
  import opened Config
  import opened SendPacketTask

  /** A queue of packets waiting for the handshake. */
  class PendingQueue {
    var packets: seq<Packet>

    constructor ()
      ensures packets == []
    {
      packets := [];
    }
  }

  /** AfterSslHandshakeCompleted: holds its queue once asked to create it. */
  class AfterSslHandshakeCompleted {
    var queue: Option<PendingQueue>

    constructor ()
      ensures queue.None?
    {
      queue := None;
    }

    /**
     * `getForSendAfterSslHandshakeCompleted`: the queue, created empty on
     * the first call that asks for it; once created it is returned whatever
     * is asked; before that, a call that does not ask returns none.
     */
    method GetForSend(forceCreate: bool) returns (q: Option<PendingQueue>)
      modifies this
      ensures old(queue).Some? ==> q == old(queue) && queue == old(queue)
      ensures old(queue).None? && !forceCreate ==> q.None? && queue.None?
      ensures old(queue).None? && forceCreate ==> q.Some? && fresh(q.value) && q.value.packets == [] && queue == q
    {
      if queue.None? && forceCreate {
        var created := new PendingQueue();
        queue := Some(created);
      }
      q := queue;
    }
  }

  /**
   * `onComplete`: sets the connection's handshake-completed flag, tells the
   * listener that the connection is up (its exception is swallowed), and
   * sends nothing: the holder it reads the queue from is fresh, so there is
   * no queue to drain.
   */
  method OnComplete(cfg: TioConfig, cc: ChannelContext)
    requires cc.sslFacadeContext.Some?
    modifies cc.sslFacadeContext.value, cfg.book`events
    ensures cc.sslFacadeContext.value.handshakeCompleted
    ensures cfg.book.events == old(cfg.book.events)
      + (if cfg.handlers.hasAioListener then [AfterConnected(cc, true, cc.isReconnect)] else [])
  {
    cc.sslFacadeContext.value.handshakeCompleted := true;
    if cfg.handlers.hasAioListener {
      cfg.book.events := cfg.book.events + [AfterConnected(cc, true, cc.isReconnect)];
    }
    var holder := new AfterSslHandshakeCompleted();
    var pending := holder.GetForSend(false);
    if pending.None? {
      return;
    }
    // a fresh holder that is not asked to create its queue has none, so
    // the drain below the null-or-empty test is never reached
    assert false;
  }

  /**
   * The drain loop of `onComplete`, for a queue that is there: packets are
   * taken from its head and sent until it is empty, so they are offered to
   * the connection's send queue in the order they were held back.
   */
  method Drain(cfg: TioConfig, cc: ChannelContext, q: PendingQueue)
    requires cc.sendQueue.Fifo() && SingleFlight(cc)
    modifies q, cc.sendQueue, cc.isSending, cc.writer
    modifies cc`isWaitingClose, cc`closeCode, cc`channel, cc`closeMeta
    modifies cc`isRemoved, cc`isClosed, cc`clientNode, cc.stat`timeClosed
    modifies cfg.book`events, cfg.book`closeds, cfg.book`connecteds, cfg.book`unknownPortSeq
    modifies cfg.groupStat`closed, cfg.clientNodes
    ensures cc.sendQueue.Fifo() && SingleFlight(cc)
    ensures q.packets == []
    ensures cc.sendQueue.offered == old(cc.sendQueue.offered) + old(q.packets)
  {
    ghost var k := 0;
    while q.packets != []
      invariant 0 <= k <= |old(q.packets)| && q.packets == old(q.packets)[k..]
      invariant cc.sendQueue.offered == old(cc.sendQueue.offered) + old(q.packets)[..k]
      invariant cc.sendQueue.Fifo() && SingleFlight(cc)
      decreases |q.packets|
    {
      var packet := q.packets[0];
      q.packets := q.packets[1..];
      var _ := SendPacket(cfg, cc, packet);
      assert old(q.packets)[..k + 1] == old(q.packets)[..k] + [packet];
      k := k + 1;
    }
  }
}
