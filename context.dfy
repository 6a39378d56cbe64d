// The connection record (ChannelContext) and the small objects it owns:
// its send queue, its is-sending flag, its statistics, the socket write in
// progress, and the per-packet metadata a blocking send waits on.

module Context {
  import opened Util
  import opened Nodes
  import opened CloseCodes

  /** The ip of a placeholder client node given to a closed connection. */
  const UnknownAddressIp: string := "$UNKNOWN"

  /** The exception classes the engine tells apart. */
  datatype ThrowableKind =
    | AioDecodeException | TioDecodeException | SslException
    | ClosedChannelException | OtherThrowable
  datatype Throwable = Throwable(kind: ThrowableKind, message: string)

  /** Why and how a connection is being closed. */
  datatype CloseMeta = CloseMeta(throwable: Option<Throwable>, remark: Option<string>, isNeedRemove: bool)

  /** A latch reduced to its counter; awaiting it is not modelled. */
  class CountDownLatch {
    var count: nat

    constructor (n: nat)
      ensures count == n
    {
      count := n;
    }

    /** Lowers the count by one; a count of 0 stays 0. */
    method CountDown()
      modifies this
      ensures count == if old(count) == 0 then 0 else old(count) - 1
    {
      if count > 0 {
        count := count - 1;
      }
    }
  }

  /** What a blocking sender attaches to its packet. */
  class PacketMeta {
    const latch: Option<CountDownLatch>
    var isSentSuccess: Option<bool>

    constructor (latch: Option<CountDownLatch>)
      ensures this.latch == latch && isSentSuccess.None?
    {
      this.latch := latch;
      isSentSuccess := None;
    }
  }

  /**
   * A packet as the engine sees it. The application's content is opaque;
   * `fileBody` names a file to stream after the header.
   */
  datatype Packet = Packet(
    body: seq<byte>,
    synSeq: Option<int>,
    keepConnection: bool,
    preEncoded: Option<ByteBuffer>,
    sslEncrypted: bool,
    fileBody: Option<string>,
    byteCount: int,
    meta: Option<PacketMeta>)

  /** A packet's meta object, which sending it may update. */
  function MetaOf(p: Packet): set<PacketMeta>
  {
    if p.meta.Some? then {p.meta.value} else {}
  }

  /** The latch of a packet's meta, which sending it may count down. */
  function LatchOf(p: Packet): set<CountDownLatch>
  {
    if p.meta.Some? && p.meta.value.latch.Some? then {p.meta.value.latch.value} else {}
  }

  /** The send queue: a FIFO with ghost records of every offer and poll. */
  class SendQueue {
    var packets: seq<Packet>
    ghost var offered: seq<Packet>
    ghost var polled: seq<Packet>

    /** Packets leave in the order they came in. */
    ghost predicate Fifo()
      reads this
    {
      polled + packets == offered
    }

    constructor ()
      ensures packets == [] && offered == [] && polled == [] && Fifo()
    {
      packets, offered, polled := [], [], [];
    }

    method Offer(p: Packet)
      modifies this
      requires Fifo()
      ensures Fifo()
      ensures packets == old(packets) + [p]
      ensures offered == old(offered) + [p] && polled == old(polled)
    {
      packets := packets + [p];
      offered := offered + [p];
    }

    method Poll() returns (r: Option<Packet>)
      modifies this
      requires Fifo()
      ensures Fifo()
      ensures old(packets) == [] ==> r.None? && packets == [] && polled == old(polled)
      ensures old(packets) != [] ==>
        r == Some(old(packets)[0]) && packets == old(packets)[1..] && polled == old(polled) + [old(packets)[0]]
      ensures offered == old(offered)
    {
      if packets == [] {
        r := None;
      } else {
        r := Some(packets[0]);
        polled := polled + [packets[0]];
        packets := packets[1..];
      }
    }
  }

  /** An AtomicBoolean: reads, sets and compare-and-set are single steps. */
  class AtomicBoolean {
    var value: bool

    constructor (v: bool)
      ensures value == v
    {
      value := v;
    }

    method CompareAndSet(expected: bool, update: bool) returns (ok: bool)
      modifies this
      ensures ok == (old(value) == expected)
      ensures value == if ok then update else old(value)
    {
      ok := value == expected;
      if ok {
        value := update;
      }
    }

    method Set(v: bool)
      modifies this
      ensures value == v
    {
      value := v;
    }
  }

  /** The counters of one connection (ChannelStat). */
  class ChannelStat {
    var decodeFailCount: int
    var receivedBytes: int
    var receivedTcps: int
    var receivedPackets: int
    var handledPackets: int
    var handledBytes: int
    var handledPacketCosts: int
    var sentBytes: int
    var sentPackets: int
    var latestTimeOfReceivedByte: int
    var latestTimeOfReceivedPacket: int
    var latestTimeOfSentByte: int
    var latestTimeOfSentPacket: int
    var timeClosed: int
    /** How many heartbeat checks in a row found the connection idle for too long. */
    var heartbeatTimeoutCount: int

    constructor ()
      ensures decodeFailCount == 0 && heartbeatTimeoutCount == 0 && Snapshot() == IpCounters(0, 0, 0, 0, 0, 0, 1, 0, 0)
    {
      decodeFailCount, receivedBytes, receivedTcps, receivedPackets := 0, 0, 0, 0;
      handledPackets, handledBytes, handledPacketCosts := 0, 0, 0;
      sentBytes, sentPackets := 0, 0;
      latestTimeOfReceivedByte, latestTimeOfReceivedPacket := 0, 0;
      latestTimeOfSentByte, latestTimeOfSentPacket, timeClosed := 0, 0, 0;
      heartbeatTimeoutCount := 0;
    }

    /** The counters an IpStat shares with this one; the request count is 1. */
    function Snapshot(): (c: IpCounters)
      reads this
      ensures c.requestCount == 1 && c.sentPackets == sentPackets && c.receivedBytes == receivedBytes
    {
      IpCounters(handledBytes, handledPacketCosts, handledPackets, receivedBytes,
               receivedPackets, receivedTcps, 1, sentBytes, sentPackets)
    }
  }

  /** The nine counters an IpStat keeps per ip and per duration. */
  datatype IpCounters = IpCounters(
    handledBytes: int, handledPacketCosts: int, handledPackets: int,
    receivedBytes: int, receivedPackets: int, receivedTcps: int,
    requestCount: int, sentBytes: int, sentPackets: int)

  function Zero(): IpCounters { IpCounters(0, 0, 0, 0, 0, 0, 0, 0, 0) }

  function Add(a: IpCounters, b: IpCounters): (r: IpCounters)
    ensures r.requestCount == a.requestCount + b.requestCount
    ensures r.sentBytes == a.sentBytes + b.sentBytes && r.handledBytes == a.handledBytes + b.handledBytes
  {
    IpCounters(a.handledBytes + b.handledBytes, a.handledPacketCosts + b.handledPacketCosts,
             a.handledPackets + b.handledPackets, a.receivedBytes + b.receivedBytes,
             a.receivedPackets + b.receivedPackets, a.receivedTcps + b.receivedTcps,
             a.requestCount + b.requestCount, a.sentBytes + b.sentBytes, a.sentPackets + b.sentPackets)
  }

  function Sub(a: IpCounters, b: IpCounters): (r: IpCounters)
    ensures Add(r, b) == a
  {
    IpCounters(a.handledBytes - b.handledBytes, a.handledPacketCosts - b.handledPacketCosts,
             a.handledPackets - b.handledPackets, a.receivedBytes - b.receivedBytes,
             a.receivedPackets - b.receivedPackets, a.receivedTcps - b.receivedTcps,
             a.requestCount - b.requestCount, a.sentBytes - b.sentBytes, a.sentPackets - b.sentPackets)
  }

  /**
   * `swithIpStat`: the connection's counters leave the old ip's stat and
   * join the new one's. The pair's sum is unchanged.
   */
  function SwitchIpStat(oldStat: IpCounters, newStat: IpCounters, mine: IpCounters): (r: (IpCounters, IpCounters))
    ensures Add(r.0, r.1) == Add(oldStat, newStat)
    ensures Add(r.0, mine) == oldStat && r.1 == Add(newStat, mine)
  {
    (Sub(oldStat, mine), Add(newStat, mine))
  }

  /** A socket call the engine has made on the channel. */
  datatype SocketOp = ShutdownInput | ShutdownOutput | CloseSocket

  /**
   * The asynchronous socket channel: open or not, whether it is the
   * enhanced server channel that can stream files, and the calls made on it.
   */
  datatype SocketChannel = SocketChannel(open: bool, enhanced: bool, remote: Option<Node>, ops: seq<SocketOp>)

  /** What a write was issued for: one packet or a list of them. */
  datatype Attachment = OnePacket(packet: Packet) | PacketList(packets: seq<Packet>)

  function AttachedPackets(a: Attachment): seq<Packet>
  {
    match a
    case OnePacket(p) => [p]
    case PacketList(ps) => ps
  }

  /** A WriteCompletionVo: the bytes still to write, what they carry and the running total. */
  datatype WriteVo = WriteVo(remaining: seq<byte>, attachment: Attachment, totalWritten: int)

  /**
   * The write the socket is performing for this connection, and every
   * buffer handed to the socket's write call, in order.
   */
  class SocketWriter {
    var inFlight: Option<WriteVo>
    var issued: seq<seq<byte>>

    constructor ()
      ensures inFlight.None? && issued == []
    {
      inFlight, issued := None, [];
    }
  }

  /** The per-connection TLS state this model keeps: the handshake-completed flag. */
  class SslFacadeContext {
    var handshakeCompleted: bool

    constructor ()
      ensures !handshakeCompleted
    {
      handshakeCompleted := false;
    }
  }

  /**
   * One connection. `isServer` and `isShortConnection` are copied from the
   * connection's TioConfig; the config itself is passed beside the context.
   */
  class ChannelContext {
    const isServer: bool
    const isShortConnection: bool
    const isVirtual: bool
    const sendQueue: SendQueue
    const isSending: AtomicBoolean
    const stat: ChannelStat
    const writer: SocketWriter

    var id: Option<string>
    var isReconnect: bool
    var isBind: bool
    var isWaitingClose: bool
    var isClosed: bool
    var isRemoved: bool
    /** Whether another thread holds the close lock, so that tryLock fails. */
    var closeLockBusy: bool
    var heartbeatTimeout: Option<int>
    var packetNeededLength: Option<int>
    var sslFacadeContext: Option<SslFacadeContext>
    var userId: Option<string>
    var token: Option<string>
    var channel: Option<SocketChannel>
    var clientNode: Option<Node>
    var proxyClientNode: Option<Node>
    var serverNode: Option<Node>
    var groups: Option<set<string>>
    var readBufferSize: Option<int>
    var closeMeta: CloseMeta
    var closeCode: ChannelCloseCode
    var reconnCount: int
    var bindIp: Option<string>
    var bindPort: int
    var timeFirstConnected: Option<int>

    /**
     * The field initialisers every connection starts from: closed, not
     * waiting to close, not removed, nothing queued and nothing sending.
     */
    constructor (isServer: bool, isShortConnection: bool, isVirtual: bool, id: Option<string>)
      ensures this.isServer == isServer && this.isShortConnection == isShortConnection
      ensures this.isVirtual == isVirtual && this.id == id
      ensures isClosed && !isWaitingClose && !isRemoved && !isBind && !isReconnect
      ensures fresh(sendQueue) && sendQueue.packets == [] && sendQueue.offered == [] && sendQueue.Fifo()
      ensures fresh(isSending) && !isSending.value
      ensures fresh(stat) && stat.decodeFailCount == 0
      ensures fresh(writer) && writer.inFlight.None? && writer.issued == []
      ensures closeCode == InitStatus && packetNeededLength.None? && readBufferSize.None?
      ensures channel.None? && clientNode.None? && proxyClientNode.None? && serverNode.None?
      ensures userId.None? && token.None? && groups.None? && sslFacadeContext.None?
      ensures closeMeta == CloseMeta(None, None, false) && !closeLockBusy
    {
      this.isServer := isServer;
      this.isShortConnection := isShortConnection;
      this.isVirtual := isVirtual;
      this.id := id;
      sendQueue := new SendQueue();
      isSending := new AtomicBoolean(false);
      stat := new ChannelStat();
      writer := new SocketWriter();
      isReconnect, isBind, isWaitingClose, isClosed, isRemoved := false, false, false, true, false;
      closeLockBusy := false;
      heartbeatTimeout, packetNeededLength, sslFacadeContext := None, None, None;
      userId, token, channel := None, None, None;
      clientNode, proxyClientNode, serverNode := None, None, None;
      groups, readBufferSize := None, None;
      closeMeta := CloseMeta(None, None, false);
      closeCode := InitStatus;
      reconnCount, bindIp, bindPort, timeFirstConnected := 0, None, 0, None;
    }

    /**
     * `getReadBufferSize`: the connection's own size when it is set and
     * positive, else the config's.
     */
    function GetReadBufferSize(configSize: int): (r: int)
      reads this
      ensures readBufferSize.Some? && readBufferSize.value > 0 ==> r == readBufferSize.value
      ensures (readBufferSize.None? || readBufferSize.value <= 0) ==> r == configSize
    {
      if readBufferSize.Some? && readBufferSize.value > 0 then readBufferSize.value else configSize
    }

    /** `setReadBufferSize`: stores the size capped at the largest packet length. */
    method SetReadBufferSize(size: int, maxDataLength: int)
      modifies this
      ensures readBufferSize == Some(Min(size, maxDataLength))
      ensures 0 < size <= maxDataLength ==> GetReadBufferSize(0) == size
      ensures size > maxDataLength > 0 ==> GetReadBufferSize(0) == maxDataLength
    {
      readBufferSize := Some(Min(size, maxDataLength));
    }

    /** The node a connection reports as its peer: the proxied client when known. */
    function ReportedClient(): (n: Option<Node>)
      reads this
      ensures proxyClientNode.Some? ==> n == proxyClientNode
      ensures proxyClientNode.None? ==> n == clientNode
    {
      if proxyClientNode.Some? then proxyClientNode else clientNode
    }

    /** `getClientIpAndPort`: "ip:port" of the reported client. */
    function ClientIpAndPort(): (s: string)
      reads this
      requires proxyClientNode.Some? || clientNode.Some?
      ensures s == Render(ReportedClient().value)
    {
      var client := ReportedClient().value;
      client.host + [':'] + IntToString(client.port)
    }
  }

  /**
   * `equals`: the same object, or contexts of the same class (server or
   * client) whose ids are equal, two missing ids included.
   */
  predicate SameContext(a: ChannelContext, b: ChannelContext): (r: bool)
    reads a, b
    ensures a == b ==> r
    ensures r ==> a.isServer == b.isServer && a.id == b.id
  {
    a == b || (a.isServer == b.isServer && a.id == b.id)
  }

  /** Equality of contexts is an equivalence relation. */
  lemma SameContextIsEquivalence(a: ChannelContext, b: ChannelContext, c: ChannelContext)
    ensures SameContext(a, a)
    ensures SameContext(a, b) ==> SameContext(b, a)
    ensures SameContext(a, b) && SameContext(b, c) ==> SameContext(a, c)
  {
  }

  /**
   * Among connections whose ids are pairwise distinct, as the id generator
   * hands them out, `equals` is reference identity. This is why the
   * registries, which hold connections in Java hash sets, are modelled as
   * sets of references.
   */
  lemma SameContextIsIdentity(s: set<ChannelContext>)
    requires forall a, b :: a in s && b in s && a != b ==> a.id != b.id
    ensures forall a, b :: a in s && b in s ==> (SameContext(a, b) <==> a == b)
  {
  }
}
