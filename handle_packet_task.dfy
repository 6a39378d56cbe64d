// HandlePacketTask.handle: what happens to each decoded packet. The first
// packet that keeps its connection binds the connection to the ip and id
// registries; a packet carrying a synSeq answers a waiting request instead
// of reaching the application handler; the handled counters move either way.

module HandlePacketTask {
  import opened Util
  import opened SetMaps
  import opened Context
  import opened Config
  import Ips

  /** Whether handling a packet binds its connection: it keeps the connection, which is not bound yet. */
  predicate Binds(keepConnection: bool, isBind: bool)
  {
    keepConnection && !isBind
  }

  /** How many of a run of packets bind their connection, starting from `isBind`. */
  function BindCount(keeps: seq<bool>, isBind: bool): nat
  {
    if keeps == [] then 0
    else (if Binds(keeps[0], isBind) then 1 else 0) + BindCount(keeps[1..], isBind || keeps[0])
  }

  /**
   * A connection is bound at most once, and it is bound by a run of
   * packets exactly when it was unbound and one of them keeps the
   * connection.
   */
  lemma {:induction false} BindsAtMostOnce(keeps: seq<bool>, isBind: bool)
    ensures BindCount(keeps, isBind) <= 1
    ensures BindCount(keeps, isBind) == 1 <==> !isBind && true in keeps
    decreases |keeps|
  {
    if keeps != [] {
      BindsAtMostOnce(keeps[1..], isBind || keeps[0]);
      if keeps[0] && !isBind {
        NoBindOnceBound(keeps[1..]);
      }
      assert true in keeps <==> keeps[0] || true in keeps[1..];
    }
  }

  /** A bound connection is never bound again. */
  lemma {:induction false} NoBindOnceBound(keeps: seq<bool>)
    ensures BindCount(keeps, true) == 0
    decreases |keeps|
  {
    if keeps != [] {
      NoBindOnceBound(keeps[1..]);
    }
  }

  /**
   * Reading the ip of a connection without a client node fails inside
   * `Ips.bind`; the failure escapes `handle`, which has not reached its
   * own try block yet.
   */
  predicate BindThrows(cc: ChannelContext, keepConnection: bool)
    reads cc
  {
    Binds(keepConnection, cc.isBind) && !cc.isShortConnection && cc.clientNode.None?
  }

  /** The exception a failed ip binding raises (its message is outside this model). */
  const BindFailure: Throwable := Throwable(OtherThrowable, "null")

  /** Where `handle` sends a packet once the binding is done. */
  datatype Route =
    | Response(synSeq: int)
    | Unmatched(synSeq: int)
    | Application

  /**
   * A positive synSeq marks a synchronous response: it answers the request
   * waiting under that number, or nobody when none waits. Every other
   * packet goes to the application handler.
   */
  function RouteOf(synSeq: Option<int>, waiting: set<int>): (r: Route)
    ensures r.Application? <==> synSeq.None? || synSeq.value <= 0
    ensures r.Response? <==> synSeq.Some? && synSeq.value > 0 && synSeq.value in waiting
    ensures !r.Application? ==> r.synSeq == synSeq.value
  {
    if synSeq.None? || synSeq.value <= 0 then Application
    else if synSeq.value in waiting then Response(synSeq.value)
    else Unmatched(synSeq.value)
  }

  /**
   * The waiting requests after routing: a response takes the place of the
   * request it answers, under the same synSeq; nothing else changes.
   */
  function Answer(waiting: map<int, Packet>, r: Route, packet: Packet): (m: map<int, Packet>)
    ensures m.Keys == waiting.Keys
    ensures r.Response? && r.synSeq in waiting ==> m[r.synSeq] == packet
    ensures forall k | k in waiting && !(r.Response? && k == r.synSeq) :: m[k] == waiting[k]
  {
    if r.Response? && r.synSeq in waiting then waiting[r.synSeq := packet] else waiting
  }

  /** The calls routing makes: the handler for application packets, a log line for unmatched responses. */
  function RouteEvents(cc: ChannelContext, r: Route, packet: Packet): (es: seq<Event>)
    ensures r.Application? <==> Handled(cc, packet) in es
    ensures |es| <= 1
  {
    match r
    case Response(_) => []
    case Unmatched(s) => [SynFail(s)]
    case Application => [Handled(cc, packet)]
  }

  /** A counter that moves only while statistics are on. */
  function Bump(counter: int, statOn: bool, amount: int): int
  {
    if statOn then counter + amount else counter
  }

  /**
   * `handle`. An escaping binding failure leaves everything as it was;
   * otherwise the connection is bound if it has to be, the packet is
   * routed (an exception from the application handler is swallowed and
   * does not close the connection), the handled counters move when
   * statistics are on, and the listener hears of the packet.
   */
  method Handle(cfg: TioConfig, cc: ChannelContext, packet: Packet) returns (escaped: Option<Throwable>)
    requires cfg.ips.Valid()
    modifies cfg.ips, cc`isBind, cc`groups, cfg.book`waitingResps, cfg.book`events
    modifies cc.stat`handledPackets, cc.stat`handledBytes, cfg.groupStat`handledPackets, cfg.groupStat`handledBytes
    ensures cfg.ips.Valid()
    ensures escaped.Some? <==> old(BindThrows(cc, packet.keepConnection))
    ensures escaped.Some? ==>
      && escaped.value == BindFailure && cc.isBind == old(cc.isBind) && cc.groups == old(cc.groups)
      && cfg.ips.ipmap == old(cfg.ips.ipmap) && cfg.book.waitingResps == old(cfg.book.waitingResps)
      && cfg.book.events == old(cfg.book.events) && cc.stat.handledPackets == old(cc.stat.handledPackets)
      && cfg.groupStat.handledPackets == old(cfg.groupStat.handledPackets)
    ensures escaped.None? ==>
      var binds := Binds(packet.keepConnection, old(cc.isBind));
      var route := RouteOf(packet.synSeq, old(cfg.book.waitingResps).Keys);
      && cc.isBind == (old(cc.isBind) || packet.keepConnection)
      && cc.groups == (if binds then Some({}) else old(cc.groups))
      && cfg.ips.ipmap == (if binds && Ips.Ips.Registrable(cc)
                           then WithMember(old(cfg.ips.ipmap), cc.clientNode.value.host, cc)
                           else old(cfg.ips.ipmap))
      && cfg.book.waitingResps == Answer(old(cfg.book.waitingResps), route, packet)
      && cfg.book.events == old(cfg.book.events) + (if binds then [IdsBind(cc)] else [])
                            + RouteEvents(cc, route, packet)
                            + (if cfg.handlers.hasAioListener then [AfterHandled(cc, packet)] else [])
      && cc.stat.handledPackets == Bump(old(cc.stat.handledPackets), cfg.statOn, 1)
      && cc.stat.handledBytes == Bump(old(cc.stat.handledBytes), cfg.statOn, packet.byteCount)
      && cfg.groupStat.handledPackets == Bump(old(cfg.groupStat.handledPackets), cfg.statOn, 1)
      && cfg.groupStat.handledBytes == Bump(old(cfg.groupStat.handledBytes), cfg.statOn, packet.byteCount)
  {
    escaped := BindOnce(cfg, cc, packet.keepConnection);
    if escaped.None? {
      Dispatch(cfg, cc, packet);
    }
  }

  /**
   * The binding step of `handle`: the connection joins its ip's set and the
   * id registry, gets an empty group set and is marked bound, unless it is
   * bound already or the packet does not keep it.
   */
  method BindOnce(cfg: TioConfig, cc: ChannelContext, keepConnection: bool) returns (escaped: Option<Throwable>)
    requires cfg.ips.Valid()
    modifies cfg.ips, cc`isBind, cc`groups, cfg.book`events
    ensures cfg.ips.Valid()
    ensures escaped.Some? <==> old(BindThrows(cc, keepConnection))
    ensures escaped.Some? ==>
      && escaped.value == BindFailure && cc.isBind == old(cc.isBind) && cc.groups == old(cc.groups)
      && cfg.ips.ipmap == old(cfg.ips.ipmap) && cfg.book.events == old(cfg.book.events)
    ensures escaped.None? ==>
      var binds := Binds(keepConnection, old(cc.isBind));
      && cc.isBind == (old(cc.isBind) || keepConnection)
      && cc.groups == (if binds then Some({}) else old(cc.groups))
      && cfg.ips.ipmap == (if binds && Ips.Ips.Registrable(cc)
                           then WithMember(old(cfg.ips.ipmap), cc.clientNode.value.host, cc)
                           else old(cfg.ips.ipmap))
      && cfg.book.events == old(cfg.book.events) + (if binds then [IdsBind(cc)] else [])
  {
    escaped := None;
    if keepConnection && !cc.isBind {
      var npe := cfg.ips.Bind(cc);
      if npe {
        return Some(BindFailure);
      }
      cfg.book.events := cfg.book.events + [IdsBind(cc)];
      cc.groups := Some({});
      cc.isBind := true;
    }
  }

  /**
   * The try block of `handle` and what follows it: routing, the handled
   * counters and the listener call.
   */
  method Dispatch(cfg: TioConfig, cc: ChannelContext, packet: Packet)
    modifies cfg.book`waitingResps, cfg.book`events
    modifies cc.stat`handledPackets, cc.stat`handledBytes, cfg.groupStat`handledPackets, cfg.groupStat`handledBytes
    ensures var route := RouteOf(packet.synSeq, old(cfg.book.waitingResps).Keys);
      && cfg.book.waitingResps == Answer(old(cfg.book.waitingResps), route, packet)
      && cfg.book.events == old(cfg.book.events) + RouteEvents(cc, route, packet)
                            + (if cfg.handlers.hasAioListener then [AfterHandled(cc, packet)] else [])
    ensures cc.stat.handledPackets == Bump(old(cc.stat.handledPackets), cfg.statOn, 1)
    ensures cc.stat.handledBytes == Bump(old(cc.stat.handledBytes), cfg.statOn, packet.byteCount)
    ensures cfg.groupStat.handledPackets == Bump(old(cfg.groupStat.handledPackets), cfg.statOn, 1)
    ensures cfg.groupStat.handledBytes == Bump(old(cfg.groupStat.handledBytes), cfg.statOn, packet.byteCount)
  {
    var route := RouteOf(packet.synSeq, cfg.book.waitingResps.Keys);
    match route {
      case Response(s) =>
        // the request's packet is removed and the response put under its synSeq
        cfg.book.waitingResps := cfg.book.waitingResps[s := packet];
      case Unmatched(s) =>
        cfg.book.events := cfg.book.events + [SynFail(s)];
      case Application =>
        // whether the handler throws or not, handling carries on
        cfg.book.events := cfg.book.events + [Handled(cc, packet)];
    }
    if cfg.statOn {
      cc.stat.handledPackets := cc.stat.handledPackets + 1;
      cc.stat.handledBytes := cc.stat.handledBytes + packet.byteCount;
      cfg.groupStat.handledPackets := cfg.groupStat.handledPackets + 1;
      cfg.groupStat.handledBytes := cfg.groupStat.handledBytes + packet.byteCount;
    }
    if cfg.handlers.hasAioListener {
      cfg.book.events := cfg.book.events + [AfterHandled(cc, packet)];
    }
  }
}
