// SslListener: where the TLS engine's output goes. Ciphertext produced
// while no application packet is being encrypted is handshake traffic and
// is sent as a packet of its own, marked as already encrypted; plaintext
// reaches the decoder only once the handshake is complete.

module SslListener {
  import opened Util
  import opened Context
  import opened Config
  import opened CloseTask
  import opened SendPacketTask
  import DecodeTask

  /**
   * The packet a handshake record travels in: a fresh packet whose
   * pre-encoded buffer is the record and which is marked encrypted.
   * A fresh packet keeps its connection.
   */
  function HandshakeRecord(wrapped: ByteBuffer): (p: Packet)
  {
    Packet([], None, true, Some(wrapped), true, None, 0, None)
  }

  /** A handshake record is written as its own bytes, never encrypted again. */
  lemma HandshakeRecordIsPlain(cfg: TioConfig, head: Packet, wrapped: ByteBuffer)
    ensures WireBytes(cfg, head, HandshakeRecord(wrapped)) == Some(PlainBytes(cfg, head))
    ensures wrapped.position < wrapped.limit ==>
      PlainBytes(cfg, HandshakeRecord(wrapped)) == Remaining(wrapped)
  {
  }

  /**
   * `onWrappedData`: ciphertext without an attached packet is queued as a
   * handshake record. Since the record itself decides about TLS, the packet
   * the send takes from the head of the queue is written unencrypted,
   * whichever packet that is. Ciphertext that belongs to a packet is left
   * to the send that asked for it.
   */
  method OnWrappedData(cfg: TioConfig, cc: ChannelContext, wrapped: ByteBuffer, hasPacket: bool)
    requires cc.sendQueue.Fifo() && SingleFlight(cc)
    modifies cc.sendQueue, cc.isSending, cc.writer
    modifies cc`isWaitingClose, cc`closeCode, cc`channel, cc`closeMeta
    modifies cc`isRemoved, cc`isClosed, cc`clientNode, cc.stat`timeClosed
    modifies cfg.book`events, cfg.book`closeds, cfg.book`connecteds, cfg.book`unknownPortSeq
    modifies cfg.groupStat`closed, cfg.clientNodes
    ensures cc.sendQueue.Fifo() && SingleFlight(cc)
    ensures hasPacket ==>
      && cc.sendQueue.offered == old(cc.sendQueue.offered) && cc.sendQueue.packets == old(cc.sendQueue.packets)
      && cc.writer.inFlight == old(cc.writer.inFlight) && cc.isSending.value == old(cc.isSending.value)
    ensures !hasPacket ==> cc.sendQueue.offered == old(cc.sendQueue.offered) + [HandshakeRecord(wrapped)]
    ensures !hasPacket && !old(cc.isSending.value) && cc.writer.inFlight.Some? ==>
      var head := (old(cc.sendQueue.packets) + [HandshakeRecord(wrapped)])[0];
      cc.writer.inFlight.value.remaining == PlainBytes(cfg, head)
  {
    if !hasPacket {
      var p := HandshakeRecord(wrapped);
      HandshakeRecordIsPlain(cfg, (old(cc.sendQueue.packets) + [p])[0], wrapped);
      var _ := SendPacket(cfg, cc, p);
    }
  }

  /**
   * `onPlainData`: decrypted bytes go to the decoder of the connection's
   * TLS state once the handshake is complete, and are dropped before.
   */
  method OnPlainData(cfg: TioConfig, cc: ChannelContext, task: DecodeTask.DecodeTask, plain: seq<byte>)
    returns (ghost handed: seq<Packet>)
    requires cc.sslFacadeContext.Some?
    requires WellFormedCodec(cfg.handlers.decode) && cfg.ips.Valid()
    modifies task, cc`packetNeededLength, cc.stat`decodeFailCount, cc.stat`latestTimeOfReceivedPacket
    modifies cc.stat`receivedPackets, cfg.groupStat`receivedPackets
    modifies cfg.ips, cc`isBind, cc`groups, cfg.book`waitingResps, cfg.book`events
    modifies cc.stat`handledPackets, cc.stat`handledBytes, cfg.groupStat`handledPackets, cfg.groupStat`handledBytes
    modifies cc`isWaitingClose, cc`closeCode, cc`channel, cc`closeMeta
    modifies cc`isRemoved, cc`isClosed, cc`clientNode, cc.stat`timeClosed
    modifies cfg.book`closeds, cfg.book`connecteds, cfg.book`unknownPortSeq
    modifies cfg.groupStat`closed, cfg.clientNodes
    ensures cfg.ips.Valid()
    ensures !cc.sslFacadeContext.value.handshakeCompleted ==>
      && handed == [] && task.lastByteBuffer == old(task.lastByteBuffer)
      && cfg.book.events == old(cfg.book.events) && DecodeTask.CloseState(cc) == old(DecodeTask.CloseState(cc))
    ensures cc.sslFacadeContext.value.handshakeCompleted ==>
      var p := DecodeTask.Run(cfg.handlers.decode, old(DecodeTask.GuardOf(cfg, cc)), old(cc.packetNeededLength),
                              old(cc.stat.decodeFailCount), DecodeTask.Window(old(task.lastByteBuffer), plain));
      handed == p.packets && task.lastByteBuffer == p.leftover
  {
    if cc.sslFacadeContext.value.handshakeCompleted {
      handed := task.Decode(cfg, cc, plain);
    } else {
      handed := [];
    }
  }
}
