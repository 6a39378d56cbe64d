// The ChannelContext operations that touch the config: keeping the
// client-node registry in step with the connection's peer, marking the
// connection closed, reporting a sent packet, and moving the
// connection's IpStat counters when a proxy reveals the real client.

module ChannelOps {
  import opened Util
  import opened Nodes
  import opened Context
  import opened Config

  /** The client-node registry after a connection's peer moves from `oldNode` to `newNode`. */
  function NodesAfterMove(m: map<Node, ChannelContext>, isShort: bool, oldNode: Option<Node>,
                          newNode: Option<Node>, cc: ChannelContext): map<Node, ChannelContext>
  {
    if isShort then m
    else
      var dropped := if oldNode.Some? then m - {oldNode.value} else m;
      if newNode.Some? && newNode.value.host != UnknownAddressIp then dropped[newNode.value := cc]
      else dropped
  }

  /**
   * After a move the registry maps the new node to the connection when it
   * is a real address, no longer holds the old node otherwise, and keeps
   * every other node as it was.
   */
  lemma MoveRegistersNewNode(m: map<Node, ChannelContext>, oldNode: Option<Node>,
                             newNode: Option<Node>, cc: ChannelContext, n: Node)
    ensures var r := NodesAfterMove(m, false, oldNode, newNode, cc);
      && (newNode == Some(n) && n.host != UnknownAddressIp ==> n in r && r[n] == cc)
      && (oldNode == Some(n) && newNode != Some(n) ==> n !in r)
      && (newNode == Some(n) && n.host == UnknownAddressIp ==> n !in r || (oldNode != Some(n) && n in m && r[n] == m[n]))
      && (Some(n) != oldNode && Some(n) != newNode ==> (n in r <==> n in m) && (n in m ==> r[n] == m[n]))
  {
  }

  /**
   * `setClientNode`: the old node leaves the registry, the connection takes
   * the new node, and a real (not placeholder) node is registered, all on
   * long connections only.
   */
  method SetClientNode(cfg: TioConfig, cc: ChannelContext, node: Option<Node>)
    modifies cc`clientNode, cfg.clientNodes
    ensures cc.clientNode == node
    ensures cfg.clientNodes.nodes ==
      NodesAfterMove(old(cfg.clientNodes.nodes), cc.isShortConnection, old(cc.clientNode), node, cc)
  {
    if !cc.isShortConnection && cc.clientNode.Some? {
      cfg.clientNodes.Remove(cc);
    }
    cc.clientNode := node;
    if cc.isShortConnection {
      return;
    }
    if cc.clientNode.Some? && cc.clientNode.value.host != UnknownAddressIp {
      cfg.clientNodes.Put(cc);
    }
  }

  /**
   * `assignAnUnknownClientNode`: the connection gets the placeholder host
   * and the next value of the config's 32-bit port sequence (one
   * counter per config here; the source's counter is JVM-wide).
   */
  method AssignAnUnknownClientNode(cfg: TioConfig, cc: ChannelContext)
    modifies cc`clientNode, cfg.clientNodes, cfg.book`unknownPortSeq
    ensures cfg.book.unknownPortSeq == WrapInt32(old(cfg.book.unknownPortSeq) + 1)
    ensures cc.clientNode == Some(Node(UnknownAddressIp, cfg.book.unknownPortSeq))
    ensures cfg.clientNodes.nodes == NodesAfterMove(old(cfg.clientNodes.nodes), cc.isShortConnection,
                                                   old(cc.clientNode), cc.clientNode, cc)
  {
    cfg.book.unknownPortSeq := WrapInt32(cfg.book.unknownPortSeq + 1);
    SetClientNode(cfg, cc, Some(Node(UnknownAddressIp, cfg.book.unknownPortSeq)));
  }

  /**
   * `setClosed`: a connection marked closed drops its real peer for a
   * placeholder, which takes it out of the client-node registry.
   */
  method SetClosed(cfg: TioConfig, cc: ChannelContext, isClosed: bool)
    modifies cc`isClosed, cc`clientNode, cfg.clientNodes, cfg.book`unknownPortSeq
    ensures cc.isClosed == isClosed
    ensures var reassign := isClosed && (old(cc.clientNode).None? || old(cc.clientNode).value.host != UnknownAddressIp);
      && (reassign ==>
            && cc.clientNode == Some(Node(UnknownAddressIp, cfg.book.unknownPortSeq))
            && cfg.book.unknownPortSeq == WrapInt32(old(cfg.book.unknownPortSeq) + 1)
            && cfg.clientNodes.nodes == NodesAfterMove(old(cfg.clientNodes.nodes), cc.isShortConnection,
                                                       old(cc.clientNode), cc.clientNode, cc))
      && (!reassign ==>
            && cc.clientNode == old(cc.clientNode)
            && cfg.book.unknownPortSeq == old(cfg.book.unknownPortSeq)
            && cfg.clientNodes.nodes == old(cfg.clientNodes.nodes))
    ensures isClosed ==> cc.clientNode.Some? && cc.clientNode.value.host == UnknownAddressIp
  {
    cc.isClosed := isClosed;
    if isClosed {
      if cc.clientNode.None? || cc.clientNode.value.host != UnknownAddressIp {
        AssignAnUnknownClientNode(cfg, cc);
      }
    }
  }

  /** A closed long connection is not in the client-node registry under its own node. */
  lemma ClosedLeavesRegistry(m: map<Node, ChannelContext>, oldNode: Option<Node>, seqNo: int, cc: ChannelContext)
    requires oldNode.Some?
    requires oldNode.value.host != UnknownAddressIp
    ensures oldNode.value !in NodesAfterMove(m, false, oldNode, Some(Node(UnknownAddressIp, seqNo)), cc)
    ensures Node(UnknownAddressIp, seqNo) !in NodesAfterMove(m, false, oldNode, Some(Node(UnknownAddressIp, seqNo)), cc)
              || Node(UnknownAddressIp, seqNo) in m
  {
  }

  /**
   * `setAsynchronousSocketChannel`: the peer address becomes the client
   * node; a missing channel or an unreadable address gives a placeholder.
   */
  method SetAsynchronousSocketChannel(cfg: TioConfig, cc: ChannelContext, ch: Option<SocketChannel>)
    modifies cc`channel, cc`clientNode, cfg.clientNodes, cfg.book`unknownPortSeq
    ensures cc.channel == ch
    ensures ch.Some? && ch.value.remote.Some? ==>
      var peer := NewNode(Some(ch.value.remote.value.host), ch.value.remote.value.port);
      && cc.clientNode == Some(peer)
      && cfg.book.unknownPortSeq == old(cfg.book.unknownPortSeq)
      && cfg.clientNodes.nodes == NodesAfterMove(old(cfg.clientNodes.nodes), cc.isShortConnection,
                                                 old(cc.clientNode), Some(peer), cc)
    ensures ch.None? || ch.value.remote.None? ==>
      && cfg.book.unknownPortSeq == WrapInt32(old(cfg.book.unknownPortSeq) + 1)
      && cc.clientNode == Some(Node(UnknownAddressIp, cfg.book.unknownPortSeq))
      && cfg.clientNodes.nodes == NodesAfterMove(old(cfg.clientNodes.nodes), cc.isShortConnection,
                                                 old(cc.clientNode), cc.clientNode, cc)
  {
    cc.channel := ch;
    if ch.Some? {
      if ch.value.remote.Some? {
        var remote := ch.value.remote.value;
        SetClientNode(cfg, cc, Some(NewNode(Some(remote.host), remote.port)));
      } else {
        AssignAnUnknownClientNode(cfg, cc);
      }
    } else {
      AssignAnUnknownClientNode(cfg, cc);
    }
  }

  /** The IpStat of `k`, an absent one counting as freshly created. */
  function StatAt(m: map<(int, string), IpCounters>, k: (int, string)): (c: IpCounters)
    ensures k !in m ==> c == Zero()
  {
    if k in m then m[k] else Zero()
  }

  /**
   * The ip IpStats files a connection under: the proxied client's when
   * asked and known, else the client node's; none (a null dereference)
   * without a client node.
   */
  function StatIp(cc: ChannelContext, useProxyClient: bool): (ip: Option<string>)
    reads cc
    ensures useProxyClient && cc.proxyClientNode.Some? ==> ip == Some(cc.proxyClientNode.value.host)
    ensures !(useProxyClient && cc.proxyClientNode.Some?) ==>
      (ip.Some? <==> cc.clientNode.Some?) && (ip.Some? ==> ip.value == cc.clientNode.value.host)
  {
    if useProxyClient && cc.proxyClientNode.Some? then Some(cc.proxyClientNode.value.host)
    else if cc.clientNode.Some? then Some(cc.clientNode.value.host)
    else None
  }

  function IncSentPackets(c: IpCounters): (r: IpCounters)
    ensures r.sentPackets == c.sentPackets + 1
    ensures r.(sentPackets := c.sentPackets) == c
  {
    c.(sentPackets := c.sentPackets + 1)
  }

  /**
   * The IpStats after the sent-packet count of `ip` is raised for each
   * duration in turn; without an IpStat listener the first call to it
   * throws, which ends the round after the first duration.
   */
  function BumpSent(m: map<(int, string), IpCounters>, durations: seq<int>, ip: string,
                    hasListener: bool): map<(int, string), IpCounters>
    decreases |durations|
  {
    if durations == [] then m
    else
      var next := m[(durations[0], ip) := IncSentPackets(StatAt(m, (durations[0], ip)))];
      if hasListener then BumpSent(next, durations[1..], ip, hasListener) else next
  }

  /**
   * Reporting a sent packet touches only the counters of the connection's
   * ip, and with a listener raises each (distinct) duration's count by one.
   */
  lemma {:induction false} BumpSentCountsOnce(m: map<(int, string), IpCounters>, durations: seq<int>,
                                              ip: string, k: (int, string))
    requires forall i, j :: 0 <= i < j < |durations| ==> durations[i] != durations[j]
    ensures k.1 != ip || k.0 !in durations ==> StatAt(BumpSent(m, durations, ip, true), k) == StatAt(m, k)
    ensures k.1 == ip && k.0 in durations ==>
      StatAt(BumpSent(m, durations, ip, true), k) == IncSentPackets(StatAt(m, k))
    decreases |durations|
  {
    if durations != [] {
      var next := m[(durations[0], ip) := IncSentPackets(StatAt(m, (durations[0], ip)))];
      BumpSentCountsOnce(next, durations[1..], ip, k);
      if k.0 == durations[0] && k.1 == ip {
        assert k.0 !in durations[1..];
      }
    }
  }

  /** Whether the connection reports a send: no TLS, or its handshake is complete. */
  predicate ReportsSends(cc: ChannelContext)
    reads cc, if cc.sslFacadeContext.Some? then {cc.sslFacadeContext.value} else {}
  {
    cc.sslFacadeContext.None? || cc.sslFacadeContext.value.handshakeCompleted
  }

  /**
   * `processAfterSent`: releases a blocked sender, then, when the connection
   * reports sends, tells the listener the outcome (a missing one counting
   * as failure) and counts the packet. A meta without a latch throws before
   * anything else happens; the result says so.
   */
  method ProcessAfterSent(cfg: TioConfig, cc: ChannelContext, packet: Packet, isSentSuccess: Option<bool>)
    returns (npe: bool)
    modifies LatchOf(packet), cfg.book`events, cfg.book`ipStats, cfg.groupStat`sentPackets, cc.stat`sentPackets
    ensures npe <==> packet.meta.Some? && packet.meta.value.latch.None?
    ensures npe || !ReportsSends(cc) ==>
      && cfg.book.events == old(cfg.book.events) && cfg.book.ipStats == old(cfg.book.ipStats)
      && cfg.groupStat.sentPackets == old(cfg.groupStat.sentPackets) && cc.stat.sentPackets == old(cc.stat.sentPackets)
    ensures !npe && packet.meta.Some? ==>
      var latch := packet.meta.value.latch.value;
      latch.count == if old(latch.count) == 0 then 0 else old(latch.count) - 1
    ensures !npe && ReportsSends(cc) ==>
      && cfg.book.events == old(cfg.book.events) +
           (if cfg.handlers.hasAioListener then [AfterSent(cc, packet, isSentSuccess == Some(true))] else [])
      && cfg.groupStat.sentPackets == old(cfg.groupStat.sentPackets) + (if cfg.statOn then 1 else 0)
      && cc.stat.sentPackets == old(cc.stat.sentPackets) + (if cfg.statOn then 1 else 0)
      && cfg.book.ipStats == (if StatIp(cc, true).None? then old(cfg.book.ipStats)
                              else BumpSent(old(cfg.book.ipStats), cfg.ipStatDurations, StatIp(cc, true).value,
                                            cfg.handlers.hasIpStatListener))
  {
    var success := isSentSuccess == Some(true);
    if packet.meta.Some? {
      if packet.meta.value.latch.None? {
        return true;
      }
      packet.meta.value.latch.value.CountDown();
    }
    npe := false;
    if ReportsSends(cc) {
      ReportSent(cfg, cc, packet, success);
    }
  }

  /** The reporting part of `processAfterSent`: the listener, the counters and IpStats. */
  method ReportSent(cfg: TioConfig, cc: ChannelContext, packet: Packet, success: bool)
    modifies cfg.book`events, cfg.book`ipStats, cfg.groupStat`sentPackets, cc.stat`sentPackets
    ensures cfg.book.events == old(cfg.book.events) + (if cfg.handlers.hasAioListener then [AfterSent(cc, packet, success)] else [])
    ensures cfg.groupStat.sentPackets == old(cfg.groupStat.sentPackets) + (if cfg.statOn then 1 else 0)
    ensures cc.stat.sentPackets == old(cc.stat.sentPackets) + (if cfg.statOn then 1 else 0)
    ensures cfg.book.ipStats == (if StatIp(cc, true).None? then old(cfg.book.ipStats)
                                 else BumpSent(old(cfg.book.ipStats), cfg.ipStatDurations, StatIp(cc, true).value,
                                               cfg.handlers.hasIpStatListener))
  {
    if cfg.handlers.hasAioListener {
      cfg.book.events := cfg.book.events + [AfterSent(cc, packet, success)];
    }
    if cfg.statOn {
      cfg.groupStat.sentPackets := cfg.groupStat.sentPackets + 1;
      cc.stat.sentPackets := cc.stat.sentPackets + 1;
    }
    var ip := StatIp(cc, true);
    if ip.Some? {
      CountSentPacket(cfg, ip.value);
    }
  }

  /** The IpStats loop of `processAfterSent` for the connection's ip. */
  method CountSentPacket(cfg: TioConfig, ip: string)
    modifies cfg.book`ipStats
    ensures cfg.book.ipStats == BumpSent(old(cfg.book.ipStats), cfg.ipStatDurations, ip, cfg.handlers.hasIpStatListener)
  {
    var durations := cfg.ipStatDurations;
    ghost var target := BumpSent(cfg.book.ipStats, durations, ip, cfg.handlers.hasIpStatListener);
    var i := 0;
    while i < |durations|
      invariant 0 <= i <= |durations|
      invariant BumpSent(cfg.book.ipStats, durations[i..], ip, cfg.handlers.hasIpStatListener) == target
    {
      var k := (durations[i], ip);
      cfg.book.ipStats := cfg.book.ipStats[k := IncSentPackets(StatAt(cfg.book.ipStats, k))];
      if !cfg.handlers.hasIpStatListener {
        return;
      }
      assert durations[i..][1..] == durations[i + 1..];
      i := i + 1;
    }
  }

  /** One duration's switch: the connection's counters move from `oldIp` to `newIp`. */
  function SwitchAt(m: map<(int, string), IpCounters>, v: int, oldIp: string, newIp: string,
                    mine: IpCounters): map<(int, string), IpCounters>
  {
    var (o, n) := SwitchIpStat(StatAt(m, (v, oldIp)), StatAt(m, (v, newIp)), mine);
    m[(v, oldIp) := o][(v, newIp) := n]
  }

  /** The switch done for every duration in turn. */
  function SwitchAll(m: map<(int, string), IpCounters>, durations: seq<int>, oldIp: string, newIp: string,
                     mine: IpCounters): map<(int, string), IpCounters>
    decreases |durations|
  {
    if durations == [] then m
    else SwitchAll(SwitchAt(m, durations[0], oldIp, newIp, mine), durations[1..], oldIp, newIp, mine)
  }

  /** The two ips' combined counters for a duration. */
  function PairTotal(m: map<(int, string), IpCounters>, v: int, oldIp: string, newIp: string): IpCounters
  {
    Add(StatAt(m, (v, oldIp)), StatAt(m, (v, newIp)))
  }

  /**
   * Switching conserves, for every duration, the two ips' combined
   * counters, and leaves the counters of every other ip alone.
   */
  lemma {:induction false} SwitchAllConserves(m: map<(int, string), IpCounters>, durations: seq<int>,
                                              oldIp: string, newIp: string, mine: IpCounters, v: int, k: (int, string))
    requires oldIp != newIp
    ensures PairTotal(SwitchAll(m, durations, oldIp, newIp, mine), v, oldIp, newIp) == PairTotal(m, v, oldIp, newIp)
    ensures k.1 != oldIp && k.1 != newIp ==> StatAt(SwitchAll(m, durations, oldIp, newIp, mine), k) == StatAt(m, k)
    decreases |durations|
  {
    if durations != [] {
      var next := SwitchAt(m, durations[0], oldIp, newIp, mine);
      SwitchAllConserves(next, durations[1..], oldIp, newIp, mine, v, k);
      SwitchAtReads(m, durations[0], oldIp, newIp, mine, (v, oldIp));
      SwitchAtReads(m, durations[0], oldIp, newIp, mine, (v, newIp));
      SwitchAtReads(m, durations[0], oldIp, newIp, mine, k);
    }
  }

  /** One duration's switch rewrites the two ips' counters for that duration and nothing else. */
  lemma SwitchAtReads(m: map<(int, string), IpCounters>, w: int, oldIp: string, newIp: string,
                      mine: IpCounters, k: (int, string))
    requires oldIp != newIp
    ensures var r := SwitchIpStat(StatAt(m, (w, oldIp)), StatAt(m, (w, newIp)), mine);
      StatAt(SwitchAt(m, w, oldIp, newIp, mine), k)
        == if k == (w, oldIp) then r.0 else if k == (w, newIp) then r.1 else StatAt(m, k)
  {
  }

  /** One duration's switch leaves every other duration's counters alone. */
  lemma SwitchAtElsewhere(m: map<(int, string), IpCounters>, w: int, oldIp: string, newIp: string,
                          mine: IpCounters, k: (int, string))
    requires k.0 != w
    ensures StatAt(SwitchAt(m, w, oldIp, newIp, mine), k) == StatAt(m, k)
  {
    assert k != (w, oldIp) && k != (w, newIp);
  }

  /**
   * With distinct durations, each duration's new ip gains exactly the
   * connection's counters and the old ip loses them.
   */
  lemma {:induction false} SwitchAllMovesMine(m: map<(int, string), IpCounters>, durations: seq<int>,
                                              oldIp: string, newIp: string, mine: IpCounters, v: int)
    requires oldIp != newIp
    requires forall i, j :: 0 <= i < j < |durations| ==> durations[i] != durations[j]
    requires v in durations
    ensures StatAt(SwitchAll(m, durations, oldIp, newIp, mine), (v, newIp)) == Add(StatAt(m, (v, newIp)), mine)
    ensures Add(StatAt(SwitchAll(m, durations, oldIp, newIp, mine), (v, oldIp)), mine) == StatAt(m, (v, oldIp))
    decreases |durations|
  {
    var next := SwitchAt(m, durations[0], oldIp, newIp, mine);
    SwitchAtReads(m, durations[0], oldIp, newIp, mine, (v, newIp));
    SwitchAtReads(m, durations[0], oldIp, newIp, mine, (v, oldIp));
    if v == durations[0] {
      assert v !in durations[1..];
      SwitchUntouched(next, durations[1..], oldIp, newIp, mine, v);
    } else {
      assert v in durations[1..];
      SwitchAllMovesMine(next, durations[1..], oldIp, newIp, mine, v);
    }
  }

  /** A duration not in the list keeps its counters. */
  lemma {:induction false} SwitchUntouched(m: map<(int, string), IpCounters>, durations: seq<int>,
                                           oldIp: string, newIp: string, mine: IpCounters, v: int)
    requires v !in durations
    ensures StatAt(SwitchAll(m, durations, oldIp, newIp, mine), (v, newIp)) == StatAt(m, (v, newIp))
    ensures StatAt(SwitchAll(m, durations, oldIp, newIp, mine), (v, oldIp)) == StatAt(m, (v, oldIp))
    decreases |durations|
  {
    if durations != [] {
      var next := SwitchAt(m, durations[0], oldIp, newIp, mine);
      assert v !in durations[1..];
      SwitchUntouched(next, durations[1..], oldIp, newIp, mine, v);
      SwitchAtElsewhere(m, durations[0], oldIp, newIp, mine, (v, newIp));
      SwitchAtElsewhere(m, durations[0], oldIp, newIp, mine, (v, oldIp));
    }
  }

  /**
   * `setProxyClientNode`: records the proxied client and, when its ip
   * differs from the client node's, moves the connection's counters from
   * the client node's IpStats to the proxied ip's for every duration. A
   * proxy set on a connection without a client node throws after the
   * assignment; the result says so.
   */
  method SetProxyClientNode(cfg: TioConfig, cc: ChannelContext, proxy: Option<Node>) returns (npe: bool)
    modifies cc`proxyClientNode, cfg.book`ipStats
    ensures cc.proxyClientNode == proxy
    ensures npe <==> proxy.Some? && cc.clientNode.None?
    ensures proxy.None? || npe || proxy.value.host == cc.clientNode.value.host ==>
      cfg.book.ipStats == old(cfg.book.ipStats)
    ensures proxy.Some? && !npe && proxy.value.host != cc.clientNode.value.host ==>
      cfg.book.ipStats == SwitchAll(old(cfg.book.ipStats), cfg.ipStatDurations, cc.clientNode.value.host,
                                    proxy.value.host, cc.stat.Snapshot())
  {
    cc.proxyClientNode := proxy;
    npe := false;
    if proxy.Some? {
      if cc.clientNode.None? {
        return true;
      }
      var oldIp := cc.clientNode.value.host;
      var newIp := proxy.value.host;
      if newIp != oldIp {
        SwitchIpStats(cfg, oldIp, newIp, cc.stat.Snapshot());
      }
    }
  }

  /** The IpStats loop of `setProxyClientNode`. */
  method SwitchIpStats(cfg: TioConfig, oldIp: string, newIp: string, mine: IpCounters)
    modifies cfg.book`ipStats
    ensures cfg.book.ipStats == SwitchAll(old(cfg.book.ipStats), cfg.ipStatDurations, oldIp, newIp, mine)
  {
    var durations := cfg.ipStatDurations;
    ghost var target := SwitchAll(cfg.book.ipStats, durations, oldIp, newIp, mine);
    var i := 0;
    while i < |durations|
      invariant 0 <= i <= |durations|
      invariant SwitchAll(cfg.book.ipStats, durations[i..], oldIp, newIp, mine) == target
    {
      var v := durations[i];
      var switched := SwitchIpStat(StatAt(cfg.book.ipStats, (v, oldIp)), StatAt(cfg.book.ipStats, (v, newIp)), mine);
      cfg.book.ipStats := cfg.book.ipStats[(v, oldIp) := switched.0][(v, newIp) := switched.1];
      assert durations[i..][1..] == durations[i + 1..];
      i := i + 1;
    }
  }
}
