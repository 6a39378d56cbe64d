// ReadCompletionHandler: what a connection does when a socket read
// completes. A positive count is counted, handed to the decoder (or, with
// TLS, decrypted first) and followed by the next read when the guard before
// I/O allows it; a count of 0, -1 or less closes the connection with a code
// of its own; a failed read closes it with READ_ERROR.

module ReadCompletionHandler {
  import opened Util
  import opened CloseCodes
  import opened Context
  import opened Config
  import opened CloseTask
  import TioClose
  import TioUtils
  import DecodeTask
  import SslListener

  /** The read buffer, reduced to its capacity; its bytes arrive as the read's chunk. */
  datatype VirtualBuffer = VirtualBuffer(capacity: int)

  /**
   * What becomes of the read buffer: handed to the next read (the same one
   * when `reused`, otherwise the old one is released and a new one of the
   * connection's read size is taken), released, or neither.
   */
  datatype BufferFate = Rearmed(buffer: VirtualBuffer, reused: bool) | Released | Abandoned

  const ZeroRemark: string := "The length of the read data is 0"
  const PeerClosedRemark: string := "The connection closed by peer"
  const DecryptRemark: string := "SSL decrypt failed"
  const ReadFailedPrefix: string := "Failed to read data: "

  /**
   * The exception a failed decryption raises; the SSL facade is not part
   * of this model, so its `toString()` (the close's remark) is the fixed
   * `DecryptRemark`.
   */
  const DecryptFailure: Throwable := Throwable(SslException, DecryptRemark)

  /** The remark of a close after a count below -1. */
  function NegativeRemark(result: int): (s: string)
    ensures |s| > |"read result"| && s[..|"read result"|] == "read result"
  {
    "read result" + IntToString(result)
  }

  /** The class name a failed read's remark quotes. */
  function ClassName(k: ThrowableKind): string
  {
    match k
    case AioDecodeException => "com.litongjava.tio.core.exception.AioDecodeException"
    case TioDecodeException => "com.litongjava.tio.core.exception.TioDecodeException"
    case SslException => "javax.net.ssl.SSLException"
    case ClosedChannelException => "java.nio.channels.ClosedChannelException"
    case OtherThrowable => "java.lang.Exception"
  }

  /** The close code a read count ends the connection with, if any. */
  function CodeForCount(result: int): (c: Option<ChannelCloseCode>)
    ensures c.None? <==> result > 0
    ensures result == 0 ==> c == Some(ReadCountIsZero)
    ensures result == -1 ==> c == Some(ClosedByPeer)
    ensures result < -1 ==> c == Some(ReadCountIsNegative)
  {
    if result > 0 then None
    else if result == 0 then Some(ReadCountIsZero)
    else if result == -1 then Some(ClosedByPeer)
    else Some(ReadCountIsNegative)
  }

  class ReadCompletionHandler {
    const cc: ChannelContext
    /** The decoder of plain connections; TLS connections decode through their TLS state. */
    const decodeTask: DecodeTask.DecodeTask

    constructor (cc: ChannelContext)
      ensures this.cc == cc && fresh(decodeTask) && decodeTask.lastByteBuffer.None?
    {
      this.cc := cc;
      decodeTask := new DecodeTask.DecodeTask();
    }

    /**
     * `completed`: a positive count is counted and consumed, and the
     * buffer goes to the next read exactly when the connection is still
     * live afterwards; a count of 0 or -1 closes the connection and
     * releases the buffer; a count below -1 closes it and leaves the
     * buffer unreleased.
     */
    method Completed(cfg: TioConfig, result: int, chunk: seq<byte>, buffer: VirtualBuffer,
                     sslTask: DecodeTask.DecodeTask) returns (fate: BufferFate)
      requires result > 0 ==> |chunk| == result
      requires WellFormedCodec(cfg.handlers.decode) && cfg.ips.Valid()
      modifies decodeTask, sslTask
      modifies cc`packetNeededLength, cc.stat`decodeFailCount, cc.stat`latestTimeOfReceivedPacket
      modifies cc.stat`receivedPackets, cfg.groupStat`receivedPackets
      modifies cfg.ips, cc`isBind, cc`groups, cfg.book`waitingResps, cfg.book`events
      modifies cc.stat`handledPackets, cc.stat`handledBytes, cfg.groupStat`handledPackets, cfg.groupStat`handledBytes
      modifies cc`isWaitingClose, cc`closeCode, cc`channel, cc`closeMeta
      modifies cc`isRemoved, cc`isClosed, cc`clientNode, cc.stat`timeClosed
      modifies cfg.book`closeds, cfg.book`connecteds, cfg.book`unknownPortSeq
      modifies cfg.groupStat`closed, cfg.clientNodes
      modifies cc.stat`receivedBytes, cc.stat`receivedTcps, cc.stat`latestTimeOfReceivedByte
      modifies cfg.groupStat`receivedBytes, cfg.groupStat`receivedTcps
      ensures cfg.ips.Valid()
      ensures result <= 0 ==> cc.stat.receivedBytes == old(cc.stat.receivedBytes)
      ensures result <= 0 && TioClose.Proceeds(old(cc.isWaitingClose), cc.closeLockBusy, true) ==>
        cc.closeCode == CodeForCount(result).value
      ensures result == 0 || result == -1 ==> fate == Released
      ensures result < -1 ==> fate == Abandoned
      ensures result > 0 ==>
        && (fate.Rearmed? <==> TioUtils.IOAllowed(FlagsOf(cc), cc.channel))
        && (fate.Rearmed? ==>
              var size := cc.GetReadBufferSize(cfg.readBufferSize);
              fate == Rearmed(VirtualBuffer(size), buffer.capacity == size))
        && (!fate.Rearmed? ==> fate == Released)
    {
      if result > 0 {
        fate := OnData(cfg, result, chunk, buffer, sslTask);
      } else {
        fate := OnBadCount(cfg, result);
      }
    }

    /** A positive count: counted, consumed, and the read re-armed while the connection lives. */
    method OnData(cfg: TioConfig, result: int, chunk: seq<byte>, buffer: VirtualBuffer,
                  sslTask: DecodeTask.DecodeTask) returns (fate: BufferFate)
      requires WellFormedCodec(cfg.handlers.decode) && cfg.ips.Valid()
      modifies decodeTask, sslTask
      modifies cc`packetNeededLength, cc.stat`decodeFailCount, cc.stat`latestTimeOfReceivedPacket
      modifies cc.stat`receivedPackets, cfg.groupStat`receivedPackets
      modifies cfg.ips, cc`isBind, cc`groups, cfg.book`waitingResps, cfg.book`events
      modifies cc.stat`handledPackets, cc.stat`handledBytes, cfg.groupStat`handledPackets, cfg.groupStat`handledBytes
      modifies cc`isWaitingClose, cc`closeCode, cc`channel, cc`closeMeta
      modifies cc`isRemoved, cc`isClosed, cc`clientNode, cc.stat`timeClosed
      modifies cfg.book`closeds, cfg.book`connecteds, cfg.book`unknownPortSeq
      modifies cfg.groupStat`closed, cfg.clientNodes
      modifies cc.stat`receivedBytes, cc.stat`receivedTcps, cc.stat`latestTimeOfReceivedByte
      modifies cfg.groupStat`receivedBytes, cfg.groupStat`receivedTcps
      ensures cfg.ips.Valid()
      ensures fate.Rearmed? <==> TioUtils.IOAllowed(FlagsOf(cc), cc.channel)
      ensures fate.Rearmed? ==>
        var size := cc.GetReadBufferSize(cfg.readBufferSize);
        fate == Rearmed(VirtualBuffer(size), buffer.capacity == size)
      ensures !fate.Rearmed? ==> fate == Released
    {
      CountReceived(cfg, result);
      Consume(cfg, chunk, sslTask);
      fate := Rearm(cfg, buffer);
    }

    /** A count of 0, -1 or less: the connection is closed with the count's own code. */
    method OnBadCount(cfg: TioConfig, result: int) returns (fate: BufferFate)
      requires result <= 0
      modifies cc`isWaitingClose, cc`closeCode, cc`channel, cc`closeMeta
      modifies cc`isRemoved, cc`isClosed, cc`clientNode, cc.stat`timeClosed
      modifies cfg.book`events, cfg.book`closeds, cfg.book`connecteds, cfg.book`unknownPortSeq
      modifies cfg.groupStat`closed, cfg.clientNodes
      ensures TioClose.Proceeds(old(cc.isWaitingClose), cc.closeLockBusy, true) ==>
        cc.closeCode == CodeForCount(result).value
      ensures fate == (if result < -1 then Abandoned else Released)
    {
      if result == 0 {
        TioClose.CloseOutcome(cfg, cc, None, Some(ZeroRemark), false, true, Some(ReadCountIsZero));
        fate := Released;
      } else if result == -1 {
        TioClose.CloseOutcome(cfg, cc, None, Some(PeerClosedRemark), false, true, Some(ClosedByPeer));
        fate := Released;
      } else {
        // the buffer is released only if the close throws, which it does not here
        TioClose.CloseOutcome(cfg, cc, None, Some(NegativeRemark(result)), false, true, Some(ReadCountIsNegative));
        fate := Abandoned;
      }
    }

    /**
     * The counters of a positive read: bytes and reads on the config and
     * the connection when statistics are on, the time of the last byte,
     * and the listener's notice.
     */
    method CountReceived(cfg: TioConfig, result: int)
      modifies cc.stat`receivedBytes, cc.stat`receivedTcps, cc.stat`latestTimeOfReceivedByte
      modifies cfg.groupStat`receivedBytes, cfg.groupStat`receivedTcps, cfg.book`events
      ensures cc.stat.receivedBytes == old(cc.stat.receivedBytes) + (if cfg.statOn then result else 0)
      ensures cc.stat.receivedTcps == old(cc.stat.receivedTcps) + (if cfg.statOn then 1 else 0)
      ensures cfg.groupStat.receivedBytes == old(cfg.groupStat.receivedBytes) + (if cfg.statOn then result else 0)
      ensures cfg.groupStat.receivedTcps == old(cfg.groupStat.receivedTcps) + (if cfg.statOn then 1 else 0)
      ensures cc.stat.latestTimeOfReceivedByte == cfg.book.now
      ensures cfg.book.events == old(cfg.book.events)
        + (if cfg.handlers.hasAioListener then [AfterReceivedBytes(cc, result)] else [])
    {
      if cfg.statOn {
        cfg.groupStat.receivedBytes := cfg.groupStat.receivedBytes + result;
        cfg.groupStat.receivedTcps := cfg.groupStat.receivedTcps + 1;
        cc.stat.receivedBytes := cc.stat.receivedBytes + result;
        cc.stat.receivedTcps := cc.stat.receivedTcps + 1;
      }
      cc.stat.latestTimeOfReceivedByte := cfg.book.now;
      if cfg.handlers.hasAioListener {
        cfg.book.events := cfg.book.events + [AfterReceivedBytes(cc, result)];
      }
    }

    /**
     * The bytes of a positive read: a plain connection decodes them; a TLS
     * connection decrypts them and hands the plaintext to its listener, and
     * a failed decryption closes the connection with SSL_DECRYPT_ERROR.
     */
    method Consume(cfg: TioConfig, chunk: seq<byte>, sslTask: DecodeTask.DecodeTask)
      requires WellFormedCodec(cfg.handlers.decode) && cfg.ips.Valid()
      modifies decodeTask, sslTask
      modifies cc`packetNeededLength, cc.stat`decodeFailCount, cc.stat`latestTimeOfReceivedPacket
      modifies cc.stat`receivedPackets, cfg.groupStat`receivedPackets
      modifies cfg.ips, cc`isBind, cc`groups, cfg.book`waitingResps, cfg.book`events
      modifies cc.stat`handledPackets, cc.stat`handledBytes, cfg.groupStat`handledPackets, cfg.groupStat`handledBytes
      modifies cc`isWaitingClose, cc`closeCode, cc`channel, cc`closeMeta
      modifies cc`isRemoved, cc`isClosed, cc`clientNode, cc.stat`timeClosed
      modifies cfg.book`closeds, cfg.book`connecteds, cfg.book`unknownPortSeq
      modifies cfg.groupStat`closed, cfg.clientNodes
      ensures cfg.ips.Valid()
      ensures old(cc.sslFacadeContext).None? ==>
        decodeTask.lastByteBuffer == DecodeTask.Run(cfg.handlers.decode, old(DecodeTask.GuardOf(cfg, cc)),
          old(cc.packetNeededLength), old(cc.stat.decodeFailCount),
          DecodeTask.Window(old(decodeTask.lastByteBuffer), chunk)).leftover
      ensures old(cc.sslFacadeContext).Some? && cfg.handlers.decrypt(chunk).None?
              && TioClose.Proceeds(old(cc.isWaitingClose), cc.closeLockBusy, true) ==>
        && cc.closeCode == SslDecryptError
        && cc.closeMeta.throwable == Some(DecryptFailure) && cc.closeMeta.remark == Some(DecryptRemark)
    {
      if cc.sslFacadeContext.None? {
        var _ := decodeTask.Decode(cfg, cc, chunk);
      } else {
        var plain := cfg.handlers.decrypt(chunk);
        if plain.None? {
          TioClose.CloseOutcome(cfg, cc, Some(DecryptFailure), Some(DecryptRemark), false, true, Some(SslDecryptError));
        } else {
          var _ := SslListener.OnPlainData(cfg, cc, sslTask, plain.value);
        }
      }
    }

    /**
     * The end of a positive read: the guard before I/O decides; when it
     * allows, the buffer is reset and reused if its capacity is the
     * connection's read size, else a new buffer of that size is taken, and
     * the next read is issued; otherwise the buffer is released. Either way
     * the connection is live afterwards exactly when the read was re-armed.
     */
    method Rearm(cfg: TioConfig, buffer: VirtualBuffer) returns (fate: BufferFate)
      modifies cc`isWaitingClose, cc`closeCode, cc`channel, cc`closeMeta
      modifies cc`isRemoved, cc`isClosed, cc`clientNode, cc.stat`timeClosed
      modifies cfg.book`events, cfg.book`closeds, cfg.book`connecteds, cfg.book`unknownPortSeq
      modifies cfg.groupStat`closed, cfg.clientNodes
      ensures fate.Rearmed? <==> TioUtils.IOAllowed(old(FlagsOf(cc)), old(cc.channel))
      ensures fate.Rearmed? <==> TioUtils.IOAllowed(FlagsOf(cc), cc.channel)
      ensures fate.Rearmed? ==>
        var size := cc.GetReadBufferSize(cfg.readBufferSize);
        && fate == Rearmed(VirtualBuffer(size), buffer.capacity == size)
        && cfg.book.events == old(cfg.book.events) + [SocketRead(cc, size)]
      ensures !fate.Rearmed? ==> fate == Released
    {
      var ok := TioUtils.CheckBeforeIO(cfg, cc);
      if ok {
        var size := cc.GetReadBufferSize(cfg.readBufferSize);
        var next := if buffer.capacity == size then buffer else VirtualBuffer(size);
        cfg.book.events := cfg.book.events + [SocketRead(cc, size)];
        fate := Rearmed(next, buffer.capacity == size);
      } else {
        fate := Released;
      }
    }

    /**
     * `failed`: the connection is closed with READ_ERROR and a remark
     * naming the exception's class; the buffer is released only when the
     * channel was already closed.
     */
    method Failed(cfg: TioConfig, exc: Throwable) returns (fate: BufferFate)
      modifies cc`isWaitingClose, cc`closeCode, cc`channel, cc`closeMeta
      modifies cc`isRemoved, cc`isClosed, cc`clientNode, cc.stat`timeClosed
      modifies cfg.book`events, cfg.book`closeds, cfg.book`connecteds, cfg.book`unknownPortSeq
      modifies cfg.groupStat`closed, cfg.clientNodes
      ensures fate == (if exc.kind == ClosedChannelException then Released else Abandoned)
      ensures TioClose.Proceeds(old(cc.isWaitingClose), cc.closeLockBusy, true) ==>
        && cc.closeCode == ReadError
        && cc.closeMeta.throwable == Some(exc)
        && cc.closeMeta.remark == Some(ReadFailedPrefix + ClassName(exc.kind))
    {
      fate := if exc.kind == ClosedChannelException then Released else Abandoned;
      TioClose.CloseOutcome(cfg, cc, Some(exc), Some(ReadFailedPrefix + ClassName(exc.kind)), false, true, Some(ReadError));
    }
  }
}
