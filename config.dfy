// TioConfig: what every connection of one server or client shares. The
// application's codec, handler and listener, the TLS engine and the
// reconnect policy are outside this model; they appear as fixed answers
// (`Handlers`) and as a log of the calls made to them (`Book.events`).

module Config {
  import opened Util
  import opened Context
  import Users
  import Tokens
  import Ips
  import ClientNodes

  /**
   * What the application codec does with a window of bytes: decode a
   * packet from its first `consumed` bytes, find too few bytes (possibly
   * setting the length it needs next), or throw.
   */
  datatype CodecResult =
    | Decoded(packet: Packet, consumed: nat)
    | NotYet(setNeededLength: Option<int>)
    | CodecThrows(error: Throwable)

  /** A codec consumes at least one and at most all of the bytes it decodes. */
  ghost predicate WellFormedCodec(codec: seq<byte> -> CodecResult)
  {
    forall w: seq<byte> :: codec(w).Decoded? ==> 0 < codec(w).consumed <= |w|
  }

  /** The outside code each connection calls, reduced to fixed answers. */
  datatype Handlers = Handlers(
    decode: seq<byte> -> CodecResult,
    encode: Packet -> ByteBuffer,
    handlerThrows: Packet -> bool,
    converter: Option<(Packet, ChannelContext) -> Option<Packet>>,
    hasAioListener: bool,
    beforeCloseThrows: bool,
    hasReconnConf: bool,
    needReconn: bool,
    reconnPutAccepts: bool,
    onHeartbeatTimeout: bool,
    hasIpStatListener: bool,
    wrap: seq<byte> -> Option<seq<byte>>,
    decrypt: seq<byte> -> Option<seq<byte>>)

  /** A call the engine makes into code outside this model. */
  datatype Event =
    | BeforeClose(cc: ChannelContext, throwable: Option<Throwable>, remark: Option<string>, isNeedRemove: bool)
    | MaintainRemove(cc: ChannelContext)
    | MaintainClose(cc: ChannelContext)
    | ReconnPut(cc: ChannelContext)
    | AfterSent(cc: ChannelContext, packet: Packet, isSentSuccess: bool)
    | AfterDecoded(cc: ChannelContext, packet: Packet, packetSize: int)
    | AfterReceivedBytes(cc: ChannelContext, count: int)
    | Handled(cc: ChannelContext, packet: Packet)
    | AfterHandled(cc: ChannelContext, packet: Packet)
    | IdsBind(cc: ChannelContext)
    | SynFail(synSeq: int)
    | DecodeErrorCounted(cc: ChannelContext)
    | AfterConnected(cc: ChannelContext, isConnected: bool, isReconnect: bool)
    | FileTransfer(cc: ChannelContext, file: string)
    | SocketRead(cc: ChannelContext, capacity: int)

  /** The config's mutable bookkeeping. */
  class Book {
    /** Client connections that are closed and kept for reconnecting. */
    var closeds: set<ChannelContext>
    /** Client connections that are connected. */
    var connecteds: set<ChannelContext>
    var events: seq<Event>
    /** The last port handed to a placeholder client node. */
    var unknownPortSeq: int
    /** Requests awaiting a synchronous response, by synSeq. */
    var waitingResps: map<int, Packet>
    /** The current time in milliseconds. */
    var now: int
    /** IpStat counters by (duration, ip). */
    var ipStats: map<(int, string), IpCounters>

    constructor ()
      ensures closeds == {} && connecteds == {} && events == [] && waitingResps == map[]
    {
      closeds, connecteds, events := {}, {}, [];
      unknownPortSeq, waitingResps, now, ipStats := 0, map[], 0, map[];
    }
  }

  /** The counters summed over all connections of a config. */
  class GroupStat {
    var closed: int
    var receivedBytes: int
    var receivedTcps: int
    var receivedPackets: int
    var handledPackets: int
    var handledBytes: int
    var handledPacketCosts: int
    var sentBytes: int
    var sentPackets: int

    constructor ()
      ensures closed == 0 && sentPackets == 0 && sentBytes == 0
    {
      closed, receivedBytes, receivedTcps, receivedPackets := 0, 0, 0, 0;
      handledPackets, handledBytes, handledPacketCosts, sentBytes, sentPackets := 0, 0, 0, 0, 0;
    }
  }

  /** Registries held by reference whose contents are outside this model. */
  class OpaqueRegistry {
    constructor () {}
  }

  class TioConfig {
    const isServer: bool
    const isShortConnection: bool
    const statOn: bool
    const checkAttacks: bool
    /** Whether an SslConfig is set. */
    const sslOn: bool
    const readBufferSize: int
    const handlers: Handlers
    /** The durations IpStats keeps counters for. */
    const ipStatDurations: seq<int>
    const book: Book
    const groupStat: GroupStat

    var clientNodes: ClientNodes.ClientNodes
    var users: Users.Users
    var tokens: Tokens.Tokens
    var ips: Ips.Ips
    var connections: OpaqueRegistry
    var groups: OpaqueRegistry
    var ids: OpaqueRegistry
    var bsIds: OpaqueRegistry
    var ipBlacklist: OpaqueRegistry

    constructor (isServer: bool, isShortConnection: bool, statOn: bool, checkAttacks: bool,
                 sslOn: bool, readBufferSize: int, handlers: Handlers, ipStatDurations: seq<int>)
      ensures this.isServer == isServer && this.isShortConnection == isShortConnection
      ensures this.statOn == statOn && this.checkAttacks == checkAttacks && this.sslOn == sslOn
      ensures this.readBufferSize == readBufferSize && this.handlers == handlers
      ensures this.ipStatDurations == ipStatDurations
      ensures fresh(book) && fresh(groupStat) && fresh(clientNodes) && fresh(users) && fresh(tokens) && fresh(ips)
      ensures users.Valid() && tokens.Valid() && ips.Valid()
    {
      this.isServer := isServer;
      this.isShortConnection := isShortConnection;
      this.statOn := statOn;
      this.checkAttacks := checkAttacks;
      this.sslOn := sslOn;
      this.readBufferSize := readBufferSize;
      this.handlers := handlers;
      this.ipStatDurations := ipStatDurations;
      book := new Book();
      groupStat := new GroupStat();
      clientNodes := new ClientNodes.ClientNodes();
      users := new Users.Users();
      tokens := new Tokens.Tokens();
      ips := new Ips.Ips();
      connections := new OpaqueRegistry();
      groups := new OpaqueRegistry();
      ids := new OpaqueRegistry();
      bsIds := new OpaqueRegistry();
      ipBlacklist := new OpaqueRegistry();
    }
  }

  /** A connection belongs to a config: it copies the config's kind and connection style. */
  predicate BelongsTo(cc: ChannelContext, cfg: TioConfig)
  {
    cc.isServer == cfg.isServer && cc.isShortConnection == cfg.isShortConnection
  }
}
