// SendPacketTask: the single-flight send queue of one connection. A packet
// is always queued; only the caller that flips isSending from false to true
// takes the head of the queue, turns it into bytes (encrypting them when the
// config has TLS), and issues the socket write. The next packet is taken
// only when that write has completed (see WriteCompletionHandler).

module SendPacketTask {
  import opened Util
  import opened CloseCodes
  import opened Context
  import opened Config
  import opened CloseTask
  import TioClose
  import TioUtils
  import SslFacade

  /** The remark of the close that follows a failed encryption. */
  const EncryptRemark: string := "An exception occurred during SSL encryption."
  /** The remark of the close that follows a file sent on a connection not kept. */
  const FileFinishRemark: string := "Send file finish"

  /**
   * At most one write is in flight, and only while isSending is held: a
   * write is issued only by the holder, and the flag is released only
   * after the write has completed.
   */
  predicate SingleFlight(cc: ChannelContext)
    reads cc.writer, cc.isSending
  {
    cc.writer.inFlight.Some? ==> cc.isSending.value
  }

  /**
   * `getByteBuffer`: the packet's pre-encoded buffer, else the codec's
   * encoding; a buffer with nothing remaining was filled and not flipped,
   * so it is flipped.
   */
  function GetByteBuffer(cfg: TioConfig, p: Packet): (b: ByteBuffer)
    ensures var src := if p.preEncoded.Some? then p.preEncoded.value else cfg.handlers.encode(p);
      && (src.position < src.limit ==> b == src)
      && (src.position == src.limit ==> Remaining(b) == src.data[..src.position])
  {
    var src := if p.preEncoded.Some? then p.preEncoded.value else cfg.handlers.encode(p);
    if src.position < src.limit then src else Flip(src)
  }

  /** The plaintext a packet is written as. */
  function PlainBytes(cfg: TioConfig, p: Packet): seq<byte>
  {
    Remaining(GetByteBuffer(cfg, p))
  }

  /** Whether a send encrypts: the config has TLS and the packet deciding it is not already encrypted. */
  predicate Encrypts(cfg: TioConfig, decider: Packet)
  {
    cfg.sslOn && !decider.sslEncrypted
  }

  /**
   * The bytes written for `head` when `decider` decides about TLS: the
   * plaintext, or its encryption; none when the engine fails.
   */
  function WireBytes(cfg: TioConfig, head: Packet, decider: Packet): (r: Option<seq<byte>>)
    ensures !Encrypts(cfg, decider) ==> r == Some(PlainBytes(cfg, head))
    ensures Encrypts(cfg, decider) ==> r == SslFacade.WrapAll(cfg.handlers.wrap, SslFacade.Chunks(PlainBytes(cfg, head)))
  {
    if Encrypts(cfg, decider) then SslFacade.WrapAll(cfg.handlers.wrap, SslFacade.Chunks(PlainBytes(cfg, head)))
    else Some(PlainBytes(cfg, head))
  }

  /** A file body on the enhanced server channel is streamed after a header. */
  predicate StreamsFile(decider: Packet, ch: Option<SocketChannel>)
  {
    decider.fileBody.Some? && ch.Some? && ch.value.enhanced
  }

  /** The packet a header write carries: forced to keep the connection while the file follows. */
  function HeaderPacket(head: Packet, decider: Packet, ch: Option<SocketChannel>): (p: Packet)
    ensures StreamsFile(decider, ch) ==> p == head.(keepConnection := true)
    ensures !StreamsFile(decider, ch) ==> p == head
  {
    if StreamsFile(decider, ch) then head.(keepConnection := true) else head
  }

  /**
   * `sendByteBuffer`: the write is issued only when the guard before I/O
   * lets it; the guard may close the connection instead.
   */
  method SendByteBuffer(cfg: TioConfig, cc: ChannelContext, bytes: seq<byte>, attachment: Attachment)
    modifies cc.writer
    modifies cc`isWaitingClose, cc`closeCode, cc`channel, cc`closeMeta
    modifies cc`isRemoved, cc`isClosed, cc`clientNode, cc.stat`timeClosed
    modifies cfg.book`events, cfg.book`closeds, cfg.book`connecteds, cfg.book`unknownPortSeq
    modifies cfg.groupStat`closed, cfg.clientNodes
    ensures var allowed := TioUtils.IOAllowed(old(FlagsOf(cc)), old(cc.channel));
      && cc.writer.inFlight == (if allowed then Some(WriteVo(bytes, attachment, 0)) else old(cc.writer.inFlight))
      && cc.writer.issued == old(cc.writer.issued) + (if allowed then [bytes] else [])
  {
    // the buffer is never null here: every caller passes the bytes of a packet
    var ok := TioUtils.CheckBeforeIO(cfg, cc);
    if !ok {
      return;
    }
    cc.writer.inFlight := Some(WriteVo(bytes, attachment, 0));
    cc.writer.issued := cc.writer.issued + [bytes];
  }

  /**
   * `sendPacket`: the packet joins the tail of the queue; the caller that
   * takes the sending flag writes the head. Encryption and file streaming
   * are decided by the argument packet, not by the head it polled. An
   * encryption failure closes the connection, reports false and leaves the
   * flag held.
   */
  method SendPacket(cfg: TioConfig, cc: ChannelContext, packet: Packet) returns (ok: bool)
    requires cc.sendQueue.Fifo() && SingleFlight(cc)
    modifies cc.sendQueue, cc.isSending, cc.writer
    modifies cc`isWaitingClose, cc`closeCode, cc`channel, cc`closeMeta
    modifies cc`isRemoved, cc`isClosed, cc`clientNode, cc.stat`timeClosed
    modifies cfg.book`events, cfg.book`closeds, cfg.book`connecteds, cfg.book`unknownPortSeq
    modifies cfg.groupStat`closed, cfg.clientNodes
    ensures cc.sendQueue.Fifo() && SingleFlight(cc)
    ensures cc.sendQueue.offered == old(cc.sendQueue.offered) + [packet]
    ensures old(cc.isSending.value) ==>
      && ok && cc.isSending.value
      && cc.sendQueue.packets == old(cc.sendQueue.packets) + [packet]
      && cc.sendQueue.polled == old(cc.sendQueue.polled)
      && cc.writer.inFlight == old(cc.writer.inFlight) && cc.writer.issued == old(cc.writer.issued)
    ensures !old(cc.isSending.value) ==>
      var queue := old(cc.sendQueue.packets) + [packet];
      && cc.isSending.value
      && cc.sendQueue.packets == queue[1..]
      && cc.sendQueue.polled == old(cc.sendQueue.polled) + [queue[0]]
      && (ok <==> WireBytes(cfg, queue[0], packet).Some?)
      && (ok ==>
            cc.writer.inFlight ==
              (if TioUtils.IOAllowed(old(FlagsOf(cc)), old(cc.channel))
               then Some(WriteVo(WireBytes(cfg, queue[0], packet).value,
                                 OnePacket(HeaderPacket(queue[0], packet, old(cc.channel))), 0))
               else None))
      && (!ok ==> cc.writer.inFlight.None? && cc.writer.issued == old(cc.writer.issued))
      && (!ok && TioClose.Proceeds(old(cc.isWaitingClose), cc.closeLockBusy, true) ==>
            cc.closeCode == SslEncryptionError && cc.closeMeta.remark == Some(EncryptRemark))
  {
    cc.sendQueue.Offer(packet);
    var won := cc.isSending.CompareAndSet(false, true);
    if !won {
      return true;
    }
    // the queue holds at least the packet just offered
    var next := cc.sendQueue.Poll();
    ok := SendHead(cfg, cc, next.value, packet);
  }

  /** The part of `sendPacket` after the head was polled. */
  method SendHead(cfg: TioConfig, cc: ChannelContext, head: Packet, packet: Packet) returns (ok: bool)
    requires cc.writer.inFlight.None? && cc.isSending.value
    modifies cc.writer
    modifies cc`isWaitingClose, cc`closeCode, cc`channel, cc`closeMeta
    modifies cc`isRemoved, cc`isClosed, cc`clientNode, cc.stat`timeClosed
    modifies cfg.book`events, cfg.book`closeds, cfg.book`connecteds, cfg.book`unknownPortSeq
    modifies cfg.groupStat`closed, cfg.clientNodes
    ensures ok <==> WireBytes(cfg, head, packet).Some?
    ensures ok ==>
      cc.writer.inFlight ==
        (if TioUtils.IOAllowed(old(FlagsOf(cc)), old(cc.channel))
         then Some(WriteVo(WireBytes(cfg, head, packet).value, OnePacket(HeaderPacket(head, packet, old(cc.channel))), 0))
         else None)
    ensures ok && StreamsFile(packet, old(cc.channel)) ==> FileTransfer(cc, packet.fileBody.value) in cfg.book.events
    ensures !ok ==> cc.writer.inFlight.None? && cc.writer.issued == old(cc.writer.issued)
    ensures !ok && TioClose.Proceeds(old(cc.isWaitingClose), cc.closeLockBusy, true) ==>
      cc.closeCode == SslEncryptionError && cc.closeMeta.remark == Some(EncryptRemark)
  {
    var bytes := Encode(cfg, cc, head, packet);
    if bytes.None? {
      return false;
    }
    ok := true;
    WriteHead(cfg, cc, head, packet, bytes.value);
  }

  /**
   * The encryption step of `sendPacket`: the head's bytes, encrypted when
   * `packet` asks for it; a failed encryption closes the connection with
   * SSL_ENCRYPTION_ERROR.
   */
  method Encode(cfg: TioConfig, cc: ChannelContext, head: Packet, packet: Packet) returns (bytes: Option<seq<byte>>)
    modifies cc`isWaitingClose, cc`closeCode, cc`channel, cc`closeMeta
    modifies cc`isRemoved, cc`isClosed, cc`clientNode, cc.stat`timeClosed
    modifies cfg.book`events, cfg.book`closeds, cfg.book`connecteds, cfg.book`unknownPortSeq
    modifies cfg.groupStat`closed, cfg.clientNodes
    ensures bytes == WireBytes(cfg, head, packet)
    ensures bytes.Some? ==> FlagsOf(cc) == old(FlagsOf(cc)) && cc.channel == old(cc.channel)
    ensures bytes.None? && TioClose.Proceeds(old(cc.isWaitingClose), cc.closeLockBusy, true) ==>
      cc.closeCode == SslEncryptionError && cc.closeMeta.remark == Some(EncryptRemark)
  {
    bytes := Some(PlainBytes(cfg, head));
    if cfg.sslOn && !packet.sslEncrypted {
      bytes := SslFacade.Encrypt(cfg.handlers.wrap, bytes.value);
      if bytes.None? {
        TioClose.CloseOutcome(cfg, cc, None, Some(EncryptRemark), false, true, Some(SslEncryptionError));
      }
    }
  }

  /**
   * The write step of `sendPacket`: the bytes go out as the head's write;
   * a file body on the enhanced channel is streamed after them, and a
   * connection the head does not keep is closed once the file is sent.
   */
  method WriteHead(cfg: TioConfig, cc: ChannelContext, head: Packet, packet: Packet, bytes: seq<byte>)
    requires cc.writer.inFlight.None?
    modifies cc.writer
    modifies cc`isWaitingClose, cc`closeCode, cc`channel, cc`closeMeta
    modifies cc`isRemoved, cc`isClosed, cc`clientNode, cc.stat`timeClosed
    modifies cfg.book`events, cfg.book`closeds, cfg.book`connecteds, cfg.book`unknownPortSeq
    modifies cfg.groupStat`closed, cfg.clientNodes
    ensures cc.writer.inFlight ==
      (if TioUtils.IOAllowed(old(FlagsOf(cc)), old(cc.channel))
       then Some(WriteVo(bytes, OnePacket(HeaderPacket(head, packet, old(cc.channel))), 0))
       else None)
    ensures StreamsFile(packet, old(cc.channel)) ==> FileTransfer(cc, packet.fileBody.value) in cfg.book.events
  {
    if packet.fileBody.Some? && cc.channel.Some? && cc.channel.value.enhanced {
      var keepConnection := head.keepConnection;
      SendByteBuffer(cfg, cc, bytes, OnePacket(head.(keepConnection := true)));
      // the file itself is streamed by `transfer`, which is outside this model
      cfg.book.events := cfg.book.events + [FileTransfer(cc, packet.fileBody.value)];
      if !keepConnection {
        TioClose.CloseConnection(cfg, cc, None, Some(FileFinishRemark), false, true, None);
      }
    } else {
      SendByteBuffer(cfg, cc, bytes, OnePacket(head));
    }
  }

  /** The bytes `processSendQueue` writes: the encryption when it succeeds, else the plaintext. */
  function QueuedBytes(cfg: TioConfig, head: Packet): (b: seq<byte>)
    ensures WireBytes(cfg, head, head).Some? ==> b == WireBytes(cfg, head, head).value
    ensures WireBytes(cfg, head, head).None? ==> b == PlainBytes(cfg, head)
  {
    match WireBytes(cfg, head, head)
    case Some(w) => w
    case None => PlainBytes(cfg, head)
  }

  /**
   * `processSendQueue`: the next packet is written when the flag can be
   * taken; an empty queue releases the flag. Here the polled packet
   * decides about TLS, and a failed encryption closes the connection but
   * still hands the plaintext to the write.
   */
  method ProcessSendQueue(cfg: TioConfig, cc: ChannelContext)
    requires cc.sendQueue.Fifo() && SingleFlight(cc)
    modifies cc.sendQueue, cc.isSending, cc.writer
    modifies cc`isWaitingClose, cc`closeCode, cc`channel, cc`closeMeta
    modifies cc`isRemoved, cc`isClosed, cc`clientNode, cc.stat`timeClosed
    modifies cfg.book`events, cfg.book`closeds, cfg.book`connecteds, cfg.book`unknownPortSeq
    modifies cfg.groupStat`closed, cfg.clientNodes
    ensures cc.sendQueue.Fifo() && SingleFlight(cc)
    ensures cc.sendQueue.offered == old(cc.sendQueue.offered)
    ensures old(cc.isSending.value) || old(cc.sendQueue.packets) == [] ==>
      && cc.sendQueue.packets == old(cc.sendQueue.packets) && cc.sendQueue.polled == old(cc.sendQueue.polled)
      && cc.writer.inFlight == old(cc.writer.inFlight) && cc.writer.issued == old(cc.writer.issued)
      && cc.isSending.value == old(cc.isSending.value)
    ensures !old(cc.isSending.value) && old(cc.sendQueue.packets) != [] ==>
      var head := old(cc.sendQueue.packets)[0];
      && cc.isSending.value
      && cc.sendQueue.packets == old(cc.sendQueue.packets)[1..]
      && cc.sendQueue.polled == old(cc.sendQueue.polled) + [head]
      && (cc.writer.inFlight.Some? ==> cc.writer.inFlight == Some(WriteVo(QueuedBytes(cfg, head), OnePacket(head), 0)))
      && (WireBytes(cfg, head, head).Some? ==>
            (cc.writer.inFlight.Some? <==> TioUtils.IOAllowed(old(FlagsOf(cc)), old(cc.channel))))
  {
    var won := cc.isSending.CompareAndSet(false, true);
    if !won {
      return;
    }
    var next := cc.sendQueue.Poll();
    if next.None? {
      cc.isSending.Set(false);
      return;
    }
    SendPolled(cfg, cc, next.value);
  }

  /** The part of `processSendQueue` after the head was polled. */
  method SendPolled(cfg: TioConfig, cc: ChannelContext, head: Packet)
    requires cc.writer.inFlight.None? && cc.isSending.value
    modifies cc.writer
    modifies cc`isWaitingClose, cc`closeCode, cc`channel, cc`closeMeta
    modifies cc`isRemoved, cc`isClosed, cc`clientNode, cc.stat`timeClosed
    modifies cfg.book`events, cfg.book`closeds, cfg.book`connecteds, cfg.book`unknownPortSeq
    modifies cfg.groupStat`closed, cfg.clientNodes
    ensures cc.writer.inFlight.Some? ==> cc.writer.inFlight == Some(WriteVo(QueuedBytes(cfg, head), OnePacket(head), 0))
    ensures WireBytes(cfg, head, head).Some? ==>
      (cc.writer.inFlight.Some? <==> TioUtils.IOAllowed(old(FlagsOf(cc)), old(cc.channel)))
  {
    var bytes := PlainBytes(cfg, head);
    if cfg.sslOn && !head.sslEncrypted {
      var encrypted := SslFacade.Encrypt(cfg.handlers.wrap, bytes);
      if encrypted.None? {
        TioClose.CloseOutcome(cfg, cc, None, Some(EncryptRemark), false, true, Some(SslEncryptionError));
      } else {
        bytes := encrypted.value;
      }
    }
    SendByteBuffer(cfg, cc, bytes, OnePacket(head));
  }
}
