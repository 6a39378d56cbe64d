// ServerTioConfig: the server side's config. `share` makes two server
// configs use one set of registries and leaves one heartbeat checker for
// them; the heartbeat check closes and removes a connection that has been
// idle longer than its timeout, unless the listener keeps it.

module ServerTioConfig {
  import opened Util
  import opened CloseCodes
  import opened Context
  import opened Config
  import opened CloseTask
  import TioClose

  /** The registries `share` hands from one config to the other. */
  datatype Registries = Registries(
    clientNodes: object, connections: object, groups: object, users: object, tokens: object,
    ids: object, bsIds: object, ipBlacklist: object, ips: object)

  function RegistriesOf(c: TioConfig): Registries
    reads c
  {
    Registries(c.clientNodes, c.connections, c.groups, c.users, c.tokens, c.ids, c.bsIds, c.ipBlacklist, c.ips)
  }

  /**
   * The idle interval of a connection: the time since the later of its
   * last received byte and its last sent packet.
   */
  function IdleInterval(now: int, lastReceivedByte: int, lastSentPacket: int): (i: int)
    ensures i <= now - lastReceivedByte && i <= now - lastSentPacket
    ensures i == now - lastReceivedByte || i == now - lastSentPacket
  {
    now - Max(lastReceivedByte, lastSentPacket)
  }

  /** The timeout that applies: the connection's own when set and positive, else the config's. */
  function TimeoutOf(own: Option<int>, configTimeout: int): (t: int)
    ensures own.Some? && own.value > 0 ==> t == own.value
    ensures own.None? || own.value <= 0 ==> t == configTimeout
  {
    if own.Some? && own.value > 0 then own.value else configTimeout
  }

  /** A connection times out when its idle interval exceeds the timeout that applies. */
  predicate TimedOut(interval: int, own: Option<int>, configTimeout: int)
  {
    interval > TimeoutOf(own, configTimeout)
  }

  /** Traffic in either direction within the timeout keeps a connection from timing out. */
  lemma RecentTrafficKeepsAlive(now: int, lastReceivedByte: int, lastSentPacket: int, own: Option<int>, configTimeout: int)
    requires now - lastReceivedByte <= TimeoutOf(own, configTimeout)
             || now - lastSentPacket <= TimeoutOf(own, configTimeout)
    ensures !TimedOut(IdleInterval(now, lastReceivedByte, lastSentPacket), own, configTimeout)
  {
  }

  /** Once timed out, a connection with no new traffic stays timed out as time goes on. */
  lemma TimedOutStays(now: int, later: int, lastReceivedByte: int, lastSentPacket: int,
                      own: Option<int>, configTimeout: int)
    requires now <= later
    requires TimedOut(IdleInterval(now, lastReceivedByte, lastSentPacket), own, configTimeout)
    ensures TimedOut(IdleInterval(later, lastReceivedByte, lastSentPacket), own, configTimeout)
  {
  }

  /** The remark of a heartbeat removal. */
  function IdleRemark(interval: int): string
  {
    IntToString(interval) + " ms not send and receive message"
  }

  class ServerTioConfig {
    /** The TioConfig this server config extends. */
    const config: TioConfig
    const heartbeatTimeout: int
    var needCheckHeartbeat: bool
    var isShared: bool
    /** Whether `init` started the heartbeat checker. */
    var heartbeatCheckStarted: bool

    constructor (config: TioConfig, heartbeatTimeout: int)
      ensures this.config == config && this.heartbeatTimeout == heartbeatTimeout
      ensures needCheckHeartbeat && !isShared && !heartbeatCheckStarted
    {
      this.config := config;
      this.heartbeatTimeout := heartbeatTimeout;
      needCheckHeartbeat := true;
      isShared := false;
      heartbeatCheckStarted := false;
    }

    /**
     * `share`: with itself, nothing happens. Otherwise this config takes
     * the other's registries, both become shared, and the checker that
     * stops is chosen so that two configs that were both checking leave
     * exactly one checking: this one stops unless it was already shared,
     * and the other stops only when this one was shared and it was not.
     */
    method Share(other: ServerTioConfig)
      modifies this`needCheckHeartbeat, this`isShared, other`needCheckHeartbeat, other`isShared
      modifies config`clientNodes, config`connections, config`groups, config`users, config`tokens
      modifies config`ids, config`bsIds, config`ipBlacklist, config`ips
      ensures other == this ==>
        && RegistriesOf(config) == old(RegistriesOf(config))
        && needCheckHeartbeat == old(needCheckHeartbeat) && isShared == old(isShared)
      ensures other != this ==>
        && RegistriesOf(config) == old(RegistriesOf(other.config))
        && isShared && other.isShared
        && needCheckHeartbeat == (old(needCheckHeartbeat) && old(isShared))
        && other.needCheckHeartbeat == (old(other.needCheckHeartbeat) && !(old(isShared) && !old(other.isShared)))
      ensures old(needCheckHeartbeat) && old(other.needCheckHeartbeat) ==> needCheckHeartbeat || other.needCheckHeartbeat
      ensures other != this && !old(isShared) && !old(other.isShared) && old(other.needCheckHeartbeat) ==>
        !needCheckHeartbeat && other.needCheckHeartbeat
      ensures heartbeatCheckStarted == old(heartbeatCheckStarted)
      ensures other.heartbeatCheckStarted == old(other.heartbeatCheckStarted)
    {
      if other == this {
        return;
      }
      TakeRegistries(other.config);
      SettleHeartbeat(other);
    }

    /** The registry half of `share`: this config's registries become the source's. */
    method TakeRegistries(source: TioConfig)
      modifies config`clientNodes, config`connections, config`groups, config`users, config`tokens
      modifies config`ids, config`bsIds, config`ipBlacklist, config`ips
      ensures RegistriesOf(config) == old(RegistriesOf(source))
    {
      var r := RegistriesOf(source);
      config.clientNodes, config.connections, config.groups := source.clientNodes, source.connections, source.groups;
      config.users, config.tokens, config.ids := source.users, source.tokens, source.ids;
      config.bsIds, config.ipBlacklist, config.ips := source.bsIds, source.ipBlacklist, source.ips;
      assert RegistriesOf(config) == r;
    }

    /** The flag half of `share`, on two distinct configs. */
    method SettleHeartbeat(other: ServerTioConfig)
      requires other != this
      modifies this`needCheckHeartbeat, this`isShared, other`needCheckHeartbeat, other`isShared
      ensures isShared && other.isShared
      ensures needCheckHeartbeat == (old(needCheckHeartbeat) && old(isShared))
      ensures other.needCheckHeartbeat == (old(other.needCheckHeartbeat) && !(old(isShared) && !old(other.isShared)))
    {
      if !other.isShared && !isShared {
        needCheckHeartbeat := false;
      }
      if other.isShared && !isShared {
        needCheckHeartbeat := false;
      }
      if !other.isShared && isShared {
        other.needCheckHeartbeat := false;
      }
      other.isShared := true;
      isShared := true;
    }

    /** `init`: the heartbeat checker starts exactly when it is wanted and the timeout is positive. */
    method Init()
      modifies this`heartbeatCheckStarted
      ensures heartbeatCheckStarted <==> needCheckHeartbeat && heartbeatTimeout > 0
      ensures !needCheckHeartbeat ==> !heartbeatCheckStarted
    {
      heartbeatCheckStarted := needCheckHeartbeat && heartbeatTimeout > 0;
    }

    /**
     * One connection in one round of the heartbeat check: a connection
     * that timed out has its timeout count raised and is offered to the
     * listener; when the listener does not keep it, it gets
     * HEARTBEAT_TIMEOUT and is removed. A connection that did not time out
     * is left alone.
     */
    method CheckConnection(cc: ChannelContext) returns (timedOut: bool)
      modifies cc.stat`heartbeatTimeoutCount
      modifies cc`isWaitingClose, cc`closeCode, cc`channel, cc`closeMeta
      modifies cc`isRemoved, cc`isClosed, cc`clientNode, cc.stat`timeClosed
      modifies config.book`events, config.book`closeds, config.book`connecteds, config.book`unknownPortSeq
      modifies config.groupStat`closed, config.clientNodes
      ensures timedOut == TimedOut(IdleInterval(config.book.now, cc.stat.latestTimeOfReceivedByte,
                                                cc.stat.latestTimeOfSentPacket), cc.heartbeatTimeout, heartbeatTimeout)
      ensures !timedOut ==>
        && cc.stat.heartbeatTimeoutCount == old(cc.stat.heartbeatTimeoutCount)
        && FlagsOf(cc) == old(FlagsOf(cc)) && cc.closeCode == old(cc.closeCode)
      ensures timedOut ==> cc.stat.heartbeatTimeoutCount == old(cc.stat.heartbeatTimeoutCount) + 1
      ensures timedOut && config.handlers.onHeartbeatTimeout ==>
        FlagsOf(cc) == old(FlagsOf(cc)) && cc.closeCode == old(cc.closeCode)
      ensures timedOut && !config.handlers.onHeartbeatTimeout ==> cc.closeCode == HeartbeatTimeout
      ensures timedOut && !config.handlers.onHeartbeatTimeout && TioClose.Proceeds(old(cc.isWaitingClose), cc.closeLockBusy, true) ==>
        var interval := IdleInterval(config.book.now, cc.stat.latestTimeOfReceivedByte, cc.stat.latestTimeOfSentPacket);
        cc.closeMeta == CloseMeta(None, Some(IdleRemark(interval)), true)
    {
      var interval := IdleInterval(config.book.now, cc.stat.latestTimeOfReceivedByte, cc.stat.latestTimeOfSentPacket);
      timedOut := TimedOut(interval, cc.heartbeatTimeout, heartbeatTimeout);
      if timedOut {
        cc.stat.heartbeatTimeoutCount := cc.stat.heartbeatTimeoutCount + 1;
        if !config.handlers.onHeartbeatTimeout {
          RemoveIdle(cc, interval);
        }
      }
    }

    /** `setCloseCode(HEARTBEAT_TIMEOUT)` then `Tio.remove` with the idle remark. */
    method RemoveIdle(cc: ChannelContext, interval: int)
      modifies cc`isWaitingClose, cc`closeCode, cc`channel, cc`closeMeta
      modifies cc`isRemoved, cc`isClosed, cc`clientNode, cc.stat`timeClosed
      modifies config.book`events, config.book`closeds, config.book`connecteds, config.book`unknownPortSeq
      modifies config.groupStat`closed, config.clientNodes
      ensures cc.closeCode == HeartbeatTimeout
      ensures TioClose.Proceeds(old(cc.isWaitingClose), cc.closeLockBusy, true) ==>
        cc.closeMeta == CloseMeta(None, Some(IdleRemark(interval)), true)
    {
      cc.closeCode := HeartbeatTimeout;
      TioClose.CloseOutcome(config, cc, None, Some(IdleRemark(interval)), true, true, None);
    }
  }
}
