// DecodeTask.decode: turns the bytes a connection reads into packets. The
// bytes left over from the previous read are put in front of the new ones,
// the application codec is asked for one packet after another, every packet
// is handed to HandlePacketTask, and whatever the codec cannot use yet is
// kept for the next read. A length hint from the codec postpones decoding
// until enough bytes are there, and a run of failed attempts over few bytes
// is taken for a slow attack and closes the connection.

module DecodeTask {
  import opened Util
  import opened CloseCodes
  import opened Context
  import opened Config
  import opened CloseTask
  import TioClose
  import HandlePacketTask

  /** Why a decode pass closes the connection. */
  datatype Failure =
    | SlowAttack(failCount: int, per: int)
    | CodecFailed(error: Throwable)
    | HandleFailed(error: Throwable)

  /**
   * What one call of `decode` does with its window: the packets it hands
   * on, in order, and the leftover bytes, length hint, consecutive failure
   * count and failure it ends with.
   */
  datatype Pass = Pass(packets: seq<Packet>, leftover: Option<seq<byte>>, hint: Option<int>,
                       failCount: int, failure: Option<Failure>)

  /**
   * The fixed inputs of a pass: whether attacks are checked, the least
   * average a failed attempt must see, and whether binding the connection
   * throws (see HandlePacketTask.BindThrows).
   */
  datatype Guard = Guard(checkAttacks: bool, perFloor: int, bindFails: bool)

  /** A pass with `packets` put in front of the ones it hands on. */
  function Prepend(packets: seq<Packet>, p: Pass): (q: Pass)
    ensures q.packets == packets + p.packets
    ensures q.(packets := p.packets) == p
    ensures q.leftover == p.leftover && q.hint == p.hint && q.failCount == p.failCount && q.failure == p.failure
  {
    p.(packets := packets + p.packets)
  }

  /** `s` is the last |s| bytes of `w`. */
  predicate IsSuffix(s: seq<byte>, w: seq<byte>)
  {
    |s| <= |w| && s == w[|w| - |s|..]
  }

  /** The leftover bytes, none when the slot is empty. */
  function Bytes(leftover: Option<seq<byte>>): seq<byte>
  {
    if leftover.Some? then leftover.value else []
  }

  /** `ByteBufferUtils.composite`: the leftover bytes followed by the new ones. */
  function Window(leftover: Option<seq<byte>>, chunk: seq<byte>): (w: seq<byte>)
    ensures w == Bytes(leftover) + chunk
  {
    if leftover.Some? then leftover.value + chunk else chunk
  }

  /** The packet the codec returned, stamped with the number of bytes it used. */
  function Stamp(packet: Packet, consumed: nat): (p: Packet)
    ensures p.byteCount == consumed && p.(byteCount := packet.byteCount) == packet
  {
    packet.(byteCount := consumed)
  }

  /** The bytes the packets were decoded from, in total. */
  function Consumed(packets: seq<Packet>): int
  {
    if packets == [] then 0 else packets[0].byteCount + Consumed(packets[1..])
  }

  lemma {:induction false} ConsumedAppend(a: seq<Packet>, b: seq<Packet>)
    ensures Consumed(a + b) == Consumed(a) + Consumed(b)
    decreases |a|
  {
    if a != [] {
      assert (a + b)[0] == a[0] && a + b != [];
      assert (a + b)[1..] == a[1..] + b;
      ConsumedAppend(a[1..], b);
      assert Consumed(a + b) == a[0].byteCount + Consumed(a[1..] + b);
    } else {
      assert a + b == b;
    }
  }

  lemma SuffixOfDrop(s: seq<byte>, w: seq<byte>, k: nat)
    requires k <= |w| && IsSuffix(s, w[k..])
    ensures IsSuffix(s, w)
  {
    assert w[k..][|w| - k - |s|..] == w[|w| - |s|..];
  }

  /** The text of the slow-attack exception. */
  function AttackMessage(failCount: int, per: int): string
  {
    "Failed to decode continuously " + IntToString(failCount)
      + " times unsuccessfully, and the average data received each time is " + IntToString(per)
      + " bytes, which suggests the possibility of a slow attack"
  }

  /** The throwable a failure closes the connection with. */
  function FailureThrowable(f: Failure): (t: Throwable)
    ensures f.SlowAttack? ==> t.kind == AioDecodeException
  {
    match f
    case SlowAttack(n, per) => Throwable(AioDecodeException, AttackMessage(n, per))
    case CodecFailed(e) => e
    case HandleFailed(e) => e
  }

  /** Only the decoder's own exceptions reach the per-ip decode-error counters. */
  predicate IsDecodeException(t: Throwable)
  {
    t.kind == AioDecodeException || t.kind == TioDecodeException
  }

  /**
   * A window the codec found no packet in: it is kept whole as leftover
   * and one more consecutive failure is counted. With attacks checked,
   * more than ten failures whose average share of the window is below the
   * floor raise a decode exception, which clears the hint.
   */
  predicate SlowAttackFound(g: Guard, n: int, len: int)
  {
    g.checkAttacks && n > 10 && len / n < g.perFloor
  }

  function Missing(g: Guard, hint: Option<int>, failCount: int, w: seq<byte>): (p: Pass)
    ensures p.packets == [] && p.leftover == Some(w) && p.failCount == failCount + 1
    ensures p.failure.Some? <==> SlowAttackFound(g, failCount + 1, |w|)
    ensures p.failure.Some? ==> p.hint.None? && p.failure == Some(SlowAttack(failCount + 1, |w| / (failCount + 1)))
    ensures p.failure.None? ==> p.hint == hint
  {
    var n := failCount + 1;
    if SlowAttackFound(g, n, |w|) then Pass([], Some(w), None, n, Some(SlowAttack(n, |w| / n)))
    else Pass([], Some(w), hint, n, None)
  }

  /**
   * The decode loop over one window, from a length hint and a failure
   * count. The hint defers a window shorter than it; a codec exception is
   * swallowed as "no packet yet" without a hint and is fatal with one; each
   * packet clears the hint and the failure count and is handed on, and the
   * loop goes on while bytes remain.
   */
  function Run(codec: seq<byte> -> CodecResult, g: Guard, hint: Option<int>, failCount: int, w: seq<byte>): (p: Pass)
    requires WellFormedCodec(codec)
    ensures hint.Some? && |w| < hint.value ==> p == Pass([], Some(w), hint, failCount, None)
    ensures p.failure.Some? ==> p.hint.None?
    ensures p.failure.Some? && p.failure.value.SlowAttack? ==>
      g.checkAttacks && p.failCount > 10 && p.failure.value.failCount == p.failCount
    ensures p.failure.Some? && p.failure.value.HandleFailed? ==> g.bindFails
    decreases |w|
  {
    if hint.Some? && |w| < hint.value then Pass([], Some(w), hint, failCount, None)
    else match codec(w)
      case CodecThrows(e) =>
        if hint.Some? then Pass([], None, None, failCount, Some(CodecFailed(e)))
        else Missing(g, hint, failCount, w)
      case NotYet(needed) => Missing(g, if needed.Some? then needed else hint, failCount, w)
      case Decoded(packet, consumed) =>
        var stamped := Stamp(packet, consumed);
        if g.bindFails && packet.keepConnection then
          Pass([stamped], None, None, 0, Some(HandleFailed(HandlePacketTask.BindFailure)))
        else if consumed == |w| then Pass([stamped], None, None, 0, None)
        else
          Prepend([stamped], Run(codec, g, None, 0, w[consumed..]))
  }

  /**
   * A pass that does not fail drops and repeats no byte of its window: its
   * packets account for the bytes before the leftover, and the leftover is
   * the end of the window.
   */
  lemma {:induction false} RunAccount(codec: seq<byte> -> CodecResult, g: Guard, hint: Option<int>,
                                      failCount: int, w: seq<byte>)
    requires WellFormedCodec(codec)
    ensures var p := Run(codec, g, hint, failCount, w);
      p.failure.None? ==> Consumed(p.packets) + |Bytes(p.leftover)| == |w| && IsSuffix(Bytes(p.leftover), w)
    decreases |w|
  {
    var p := Run(codec, g, hint, failCount, w);
    if !(hint.Some? && |w| < hint.value) && codec(w).Decoded? && p.failure.None? {
      var c := codec(w).consumed;
      if c < |w| {
        var rest := Run(codec, g, None, 0, w[c..]);
        RunAccount(codec, g, None, 0, w[c..]);
        ConsumedAppend([Stamp(codec(w).packet, c)], rest.packets);
        SuffixOfDrop(Bytes(rest.leftover), w, c);
      } else {
        assert w[|w| - 0..] == [];
      }
    }
  }

  // ---------------------------------------------------------------------
  // The stream read whole, and why the way it is cut into reads does not
  // matter.

  /** The packets a codec finds in a byte stream read whole, and the bytes after the last one. */
  function Frames(codec: seq<byte> -> CodecResult, w: seq<byte>): (f: (seq<Packet>, seq<byte>))
    requires WellFormedCodec(codec)
    decreases |w|
  {
    match codec(w)
    case Decoded(packet, consumed) =>
      var rest := Frames(codec, w[consumed..]);
      ([Stamp(packet, consumed)] + rest.0, rest.1)
    case _ => ([], w)
  }

  /**
   * Reading a stream whole drops and repeats no byte: the packets account
   * for the bytes before the tail, the tail is the end of the stream, and
   * the codec finds no packet in it.
   */
  lemma {:induction false} FramesAccount(codec: seq<byte> -> CodecResult, w: seq<byte>)
    requires WellFormedCodec(codec)
    ensures var f := Frames(codec, w);
      Consumed(f.0) + |f.1| == |w| && IsSuffix(f.1, w) && !codec(f.1).Decoded?
    decreases |w|
  {
    if codec(w).Decoded? {
      var c := codec(w).consumed;
      var rest := Frames(codec, w[c..]);
      FramesAccount(codec, w[c..]);
      ConsumedAppend([Stamp(codec(w).packet, c)], rest.0);
      SuffixOfDrop(rest.1, w, c);
    }
  }

  /** A codec decodes a packet from the front of its window: bytes after it do not change the answer. */
  ghost predicate PrefixStable(codec: seq<byte> -> CodecResult)
  {
    forall w: seq<byte>, more: seq<byte> | codec(w).Decoded? :: codec(w + more) == codec(w)
  }

  /** A length hint is a promise: no window it covers, extended by fewer bytes than it asks for, decodes. */
  ghost predicate HintsSound(codec: seq<byte> -> CodecResult)
  {
    forall w: seq<byte>, more: seq<byte> |
      codec(w).NotYet? && codec(w).setNeededLength.Some? && |w + more| < codec(w).setNeededLength.value
      :: !codec(w + more).Decoded?
  }

  /** The hint a pass holds is right about every extension of the bytes it holds. */
  ghost predicate HintHolds(codec: seq<byte> -> CodecResult, hint: Option<int>, held: seq<byte>)
  {
    hint.Some? ==> forall more: seq<byte> | |held + more| < hint.value :: !codec(held + more).Decoded?
  }

  /** Reading `x` and then `y`: `x`'s packets, then what its tail and `y` decode to. */
  ghost predicate AppendsAs(codec: seq<byte> -> CodecResult, x: seq<byte>, y: seq<byte>)
    requires WellFormedCodec(codec)
  {
    var fx := Frames(codec, x);
    var fy := Frames(codec, fx.1 + y);
    Frames(codec, x + y) == (fx.0 + fy.0, fy.1)
  }

  /**
   * Reading the stream in two parts: the first part's packets, then what
   * its tail and the second part decode to.
   */
  lemma {:induction false} FramesAppend(codec: seq<byte> -> CodecResult, x: seq<byte>, y: seq<byte>)
    requires WellFormedCodec(codec) && PrefixStable(codec)
    ensures AppendsAs(codec, x, y)
    decreases |x|
  {
    if codec(x).Decoded? {
      FramesAppend(codec, x[codec(x).consumed..], y);
      FramesAppendStep(codec, x, y);
    } else {
      assert Frames(codec, x) == ([], x);
      assert [] + Frames(codec, x + y).0 == Frames(codec, x + y).0;
    }
  }

  /** The step of FramesAppend past the first packet. */
  lemma FramesAppendStep(codec: seq<byte> -> CodecResult, x: seq<byte>, y: seq<byte>)
    requires WellFormedCodec(codec) && PrefixStable(codec)
    requires codec(x).Decoded? && AppendsAs(codec, x[codec(x).consumed..], y)
    ensures AppendsAs(codec, x, y)
  {
    var c := codec(x).consumed;
    var head := [Stamp(codec(x).packet, c)];
    assert codec(x + y) == codec(x);
    assert (x + y)[c..] == x[c..] + y;
    var tail := Frames(codec, x[c..]);
    var fy := Frames(codec, tail.1 + y);
    assert head + (tail.0 + fy.0) == (head + tail.0) + fy.0;
  }

  /** Without a failure, the decode loop over a window finds exactly what reading it whole finds. */
  lemma {:induction false} RunIsFrames(codec: seq<byte> -> CodecResult, g: Guard, hint: Option<int>,
                                       failCount: int, held: seq<byte>, extra: seq<byte>)
    requires WellFormedCodec(codec) && HintsSound(codec)
    requires HintHolds(codec, hint, held)
    requires Run(codec, g, hint, failCount, held + extra).failure.None?
    ensures var w := held + extra; var p := Run(codec, g, hint, failCount, w);
      && p.packets == Frames(codec, w).0 && Bytes(p.leftover) == Frames(codec, w).1
      && HintHolds(codec, p.hint, Bytes(p.leftover))
    decreases |held + extra|
  {
    var w := held + extra;
    if hint.Some? && |w| < hint.value {
      assert !codec(held + extra).Decoded?;
      forall more: seq<byte> | |w + more| < hint.value
        ensures !codec(w + more).Decoded?
      {
        assert w + more == held + (extra + more);
      }
    } else {
      match codec(w)
      case CodecThrows(e) =>
      case NotYet(needed) =>
        if needed.Some? {
          assert HintHolds(codec, needed, w);
        }
      case Decoded(packet, consumed) =>
        if consumed < |w| {
          assert [] + w[consumed..] == w[consumed..];
          RunIsFrames(codec, g, None, 0, [], w[consumed..]);
        }
    }
  }

  /** The bytes of a run of reads, joined. */
  function Concat(chunks: seq<seq<byte>>): seq<byte>
  {
    if chunks == [] then [] else chunks[0] + Concat(chunks[1..])
  }

  /** Calls of `decode` for each read in turn, stopping at the first failure. */
  function FeedAll(codec: seq<byte> -> CodecResult, g: Guard, leftover: Option<seq<byte>>, hint: Option<int>,
                   failCount: int, chunks: seq<seq<byte>>): (p: Pass)
    requires WellFormedCodec(codec)
    ensures p.failure.Some? ==> p.hint.None?
    decreases |chunks|
  {
    if chunks == [] then Pass([], leftover, hint, failCount, None)
    else
      var first := Run(codec, g, hint, failCount, Window(leftover, chunks[0]));
      if first.failure.Some? then first
      else Prepend(first.packets, FeedAll(codec, g, first.leftover, first.hint, first.failCount, chunks[1..]))
  }

  /** From any state that is stuck and whose hint holds, feeding reads finds what reading them whole finds. */
  lemma {:induction false} FeedAllIsFrames(codec: seq<byte> -> CodecResult, g: Guard, leftover: Option<seq<byte>>,
                                           hint: Option<int>, failCount: int, chunks: seq<seq<byte>>)
    requires WellFormedCodec(codec) && PrefixStable(codec) && HintsSound(codec)
    requires HintHolds(codec, hint, Bytes(leftover)) && !codec(Bytes(leftover)).Decoded?
    requires FeedAll(codec, g, leftover, hint, failCount, chunks).failure.None?
    ensures var p := FeedAll(codec, g, leftover, hint, failCount, chunks);
      var f := Frames(codec, Bytes(leftover) + Concat(chunks));
      p.packets == f.0 && Bytes(p.leftover) == f.1
    decreases |chunks|
  {
    var held := Bytes(leftover);
    if chunks == [] {
      assert held + Concat(chunks) == held;
    } else {
      var w := Window(leftover, chunks[0]);
      var first := Run(codec, g, hint, failCount, w);
      RunIsFrames(codec, g, hint, failCount, held, chunks[0]);
      FramesAccount(codec, w);
      FeedAllIsFrames(codec, g, first.leftover, first.hint, first.failCount, chunks[1..]);
      var more := Concat(chunks[1..]);
      FramesAppend(codec, w, more);
      var rest := FeedAll(codec, g, first.leftover, first.hint, first.failCount, chunks[1..]);
      assert FeedAll(codec, g, leftover, hint, failCount, chunks) == Prepend(first.packets, rest);
      ConcatSplit(leftover, chunks);
      var fw := Frames(codec, w);
      var fy := Frames(codec, fw.1 + more);
      assert Frames(codec, held + Concat(chunks)) == (fw.0 + fy.0, fy.1);
    }
  }

  lemma ConcatSplit(leftover: Option<seq<byte>>, chunks: seq<seq<byte>>)
    requires chunks != []
    ensures Bytes(leftover) + Concat(chunks) == Window(leftover, chunks[0]) + Concat(chunks[1..])
  {
  }

  /**
   * For a codec that decodes from the front of its window and keeps its
   * length hints, a connection that is not closed along the way hands on
   * the same packets and keeps the same leftover however its bytes were
   * cut into reads: both depend only on the bytes joined.
   */
  lemma ChunkingIrrelevant(codec: seq<byte> -> CodecResult, g: Guard, chunks: seq<seq<byte>>)
    requires WellFormedCodec(codec) && PrefixStable(codec) && HintsSound(codec)
    requires FeedAll(codec, g, None, None, 0, chunks).failure.None?
    ensures var p := FeedAll(codec, g, None, None, 0, chunks);
      p.packets == Frames(codec, Concat(chunks)).0 && Bytes(p.leftover) == Frames(codec, Concat(chunks)).1
  {
    assert !codec([]).Decoded?;
    FeedAllIsFrames(codec, g, None, None, 0, chunks);
    assert Bytes(None) + Concat(chunks) == Concat(chunks);
  }

  /** Two ways of cutting the same bytes into reads agree, when neither closes the connection. */
  lemma SplitsAgree(codec: seq<byte> -> CodecResult, g: Guard, chunks: seq<seq<byte>>, chunks': seq<seq<byte>>)
    requires WellFormedCodec(codec) && PrefixStable(codec) && HintsSound(codec)
    requires Concat(chunks) == Concat(chunks')
    requires FeedAll(codec, g, None, None, 0, chunks).failure.None?
    requires FeedAll(codec, g, None, None, 0, chunks').failure.None?
    ensures FeedAll(codec, g, None, None, 0, chunks).packets == FeedAll(codec, g, None, None, 0, chunks').packets
    ensures Bytes(FeedAll(codec, g, None, None, 0, chunks).leftover) == Bytes(FeedAll(codec, g, None, None, 0, chunks').leftover)
  {
    ChunkingIrrelevant(codec, g, chunks);
    ChunkingIrrelevant(codec, g, chunks');
  }

  /** A codec that never throws. */
  ghost predicate NeverThrows(codec: seq<byte> -> CodecResult)
  {
    forall w: seq<byte> :: !codec(w).CodecThrows?
  }

  /** Without the attack check, a codec that never throws and a binding that cannot fail, no pass fails. */
  lemma {:induction false} QuietRunsSucceed(codec: seq<byte> -> CodecResult, g: Guard, hint: Option<int>,
                                            failCount: int, w: seq<byte>)
    requires WellFormedCodec(codec) && NeverThrows(codec)
    requires !g.checkAttacks && !g.bindFails
    ensures Run(codec, g, hint, failCount, w).failure.None?
    decreases |w|
  {
    if !(hint.Some? && |w| < hint.value) && codec(w).Decoded? && codec(w).consumed < |w| {
      QuietRunsSucceed(codec, g, None, 0, w[codec(w).consumed..]);
    }
  }

  lemma {:induction false} QuietFeedsSucceed(codec: seq<byte> -> CodecResult, g: Guard, leftover: Option<seq<byte>>,
                                             hint: Option<int>, failCount: int, chunks: seq<seq<byte>>)
    requires WellFormedCodec(codec) && NeverThrows(codec)
    requires !g.checkAttacks && !g.bindFails
    ensures FeedAll(codec, g, leftover, hint, failCount, chunks).failure.None?
    decreases |chunks|
  {
    if chunks != [] {
      var first := Run(codec, g, hint, failCount, Window(leftover, chunks[0]));
      QuietRunsSucceed(codec, g, hint, failCount, Window(leftover, chunks[0]));
      QuietFeedsSucceed(codec, g, first.leftover, first.hint, first.failCount, chunks[1..]);
    }
  }

  // ---------------------------------------------------------------------
  // The task itself.

  /** The guard a connection decodes under. */
  function GuardOf(cfg: TioConfig, cc: ChannelContext): (g: Guard)
    reads cc
    ensures g.bindFails <==> !cc.isBind && !cc.isShortConnection && cc.clientNode.None?
  {
    Guard(cfg.checkAttacks, Min(JavaDiv(cc.GetReadBufferSize(cfg.readBufferSize), 2), 256),
          !cc.isBind && !cc.isShortConnection && cc.clientNode.None?)
  }

  /** The close state a failure-free pass leaves alone. */
  function CloseState(cc: ChannelContext): (Flags, ChannelCloseCode, CloseMeta)
    reads cc
  {
    (FlagsOf(cc), cc.closeCode, cc.closeMeta)
  }

  /** Handing on packets one by one adds up. */
  lemma PrependTwice(a: seq<Packet>, b: seq<Packet>, p: Pass)
    ensures Prepend(a, Prepend(b, p)) == Prepend(a + b, p)
  {
    assert a + (b + p.packets) == (a + b) + p.packets;
  }

  class DecodeTask {
    /** The bytes the previous call could not decode yet. */
    var lastByteBuffer: Option<seq<byte>>
    constructor ()
      ensures lastByteBuffer.None?
    {
      lastByteBuffer := None;
    }

    /**
     * `decode`: the loop over the leftover bytes and the new chunk. The
     * packets handed to HandlePacketTask, in order, the leftover kept, and the hint and failure count
     * left on the connection are those of `Run`; a failure closes the
     * connection with DECODE_ERROR, and only a failure closes it.
     */
    method Decode(cfg: TioConfig, cc: ChannelContext, chunk: seq<byte>) returns (ghost handed: seq<Packet>)
      requires WellFormedCodec(cfg.handlers.decode) && cfg.ips.Valid()
      modifies this, cc`packetNeededLength, cc.stat`decodeFailCount, cc.stat`latestTimeOfReceivedPacket
      modifies cc.stat`receivedPackets, cfg.groupStat`receivedPackets
      modifies cfg.ips, cc`isBind, cc`groups, cfg.book`waitingResps, cfg.book`events
      modifies cc.stat`handledPackets, cc.stat`handledBytes, cfg.groupStat`handledPackets, cfg.groupStat`handledBytes
      modifies cc`isWaitingClose, cc`closeCode, cc`channel, cc`closeMeta
      modifies cc`isRemoved, cc`isClosed, cc`clientNode, cc.stat`timeClosed
      modifies cfg.book`closeds, cfg.book`connecteds, cfg.book`unknownPortSeq
      modifies cfg.groupStat`closed, cfg.clientNodes
      ensures cfg.ips.Valid()
      ensures var p := Run(cfg.handlers.decode, old(GuardOf(cfg, cc)), old(cc.packetNeededLength),
                           old(cc.stat.decodeFailCount), Window(old(lastByteBuffer), chunk));
        && handed == p.packets
        && lastByteBuffer == p.leftover
        && cc.packetNeededLength == p.hint
        && cc.stat.decodeFailCount == p.failCount
        && (p.failure.None? ==> CloseState(cc) == old(CloseState(cc)))
        && (p.failure.Some? && TioClose.Proceeds(old(cc.isWaitingClose), cc.closeLockBusy, true) ==>
              cc.closeCode == DecodeError && cc.closeMeta.throwable == Some(FailureThrowable(p.failure.value)))
    {
      var w := chunk;
      if lastByteBuffer.Some? {
        w := lastByteBuffer.value + chunk;
        lastByteBuffer := None;
      }
      assert w == Window(old(lastByteBuffer), chunk);
      handed := Loop(cfg, cc, w);
    }

    /**
     * The state a pass leaves behind, all but its packets: the leftover,
     * hint and failure count of `o`; the close state `close0` untouched
     * unless `o` failed, and a failure that reaches the close recorded as
     * DECODE_ERROR with its throwable.
     */
    ghost predicate Ends(cc: ChannelContext, o: Pass, close0: (Flags, ChannelCloseCode, CloseMeta))
      reads this, cc, cc.stat
    {
      && lastByteBuffer == o.leftover
      && cc.packetNeededLength == o.hint
      && cc.stat.decodeFailCount == o.failCount
      && (o.failure.None? ==> CloseState(cc) == close0)
      && (o.failure.Some? && TioClose.Proceeds(close0.0.isWaitingClose, cc.closeLockBusy, true) ==>
            cc.closeCode == DecodeError && cc.closeMeta.throwable == Some(FailureThrowable(o.failure.value)))
    }

    /** The loop of `decode` over a window, with nothing left over from before. */
    method Loop(cfg: TioConfig, cc: ChannelContext, w: seq<byte>) returns (ghost handed: seq<Packet>)
      requires WellFormedCodec(cfg.handlers.decode) && cfg.ips.Valid() && lastByteBuffer.None?
      modifies this, cc`packetNeededLength, cc.stat`decodeFailCount, cc.stat`latestTimeOfReceivedPacket
      modifies cc.stat`receivedPackets, cfg.groupStat`receivedPackets
      modifies cfg.ips, cc`isBind, cc`groups, cfg.book`waitingResps, cfg.book`events
      modifies cc.stat`handledPackets, cc.stat`handledBytes, cfg.groupStat`handledPackets, cfg.groupStat`handledBytes
      modifies cc`isWaitingClose, cc`closeCode, cc`channel, cc`closeMeta
      modifies cc`isRemoved, cc`isClosed, cc`clientNode, cc.stat`timeClosed
      modifies cfg.book`closeds, cfg.book`connecteds, cfg.book`unknownPortSeq
      modifies cfg.groupStat`closed, cfg.clientNodes
      ensures cfg.ips.Valid()
      ensures var p := Run(cfg.handlers.decode, old(GuardOf(cfg, cc)), old(cc.packetNeededLength),
                           old(cc.stat.decodeFailCount), w);
        handed == p.packets && Ends(cc, p, old(CloseState(cc)))
    {
      var pos := 0;
      ghost var codec := cfg.handlers.decode;
      ghost var target := Run(codec, GuardOf(cfg, cc), cc.packetNeededLength, cc.stat.decodeFailCount, w);
      handed := [];
      ghost var close0 := CloseState(cc);
      assert w[0..] == w;
      while true
        invariant pos <= |w|
        invariant lastByteBuffer.None? && cfg.ips.Valid()
        invariant Prepend(handed, Run(codec, GuardOf(cfg, cc), cc.packetNeededLength, cc.stat.decodeFailCount, w[pos..])) == target
        invariant CloseState(cc) == close0
        decreases |w| - pos
      {
        var done, next, more := Step(cfg, cc, w, pos);
        if done {
          assert Ends(cc, target, close0);
          handed := handed + more;
          return;
        }
        PrependTwice(handed, more, Run(codec, GuardOf(cfg, cc), cc.packetNeededLength, cc.stat.decodeFailCount, w[next..]));
        handed := handed + more;
        pos := next;
      }
    }

    /**
     * One turn of the loop over the bytes from `pos`: either the pass ends
     * here, as `Run` says, or a packet was handed on and the loop goes on
     * from `next`.
     */
    method Step(cfg: TioConfig, cc: ChannelContext, w: seq<byte>, pos: nat)
      returns (done: bool, next: nat, ghost handed: seq<Packet>)
      requires pos <= |w| && WellFormedCodec(cfg.handlers.decode) && cfg.ips.Valid()
      requires lastByteBuffer.None?
      modifies this, cc`packetNeededLength, cc.stat`decodeFailCount, cc.stat`latestTimeOfReceivedPacket
      modifies cc.stat`receivedPackets, cfg.groupStat`receivedPackets
      modifies cfg.ips, cc`isBind, cc`groups, cfg.book`waitingResps, cfg.book`events
      modifies cc.stat`handledPackets, cc.stat`handledBytes, cfg.groupStat`handledPackets, cfg.groupStat`handledBytes
      modifies cc`isWaitingClose, cc`closeCode, cc`channel, cc`closeMeta
      modifies cc`isRemoved, cc`isClosed, cc`clientNode, cc.stat`timeClosed
      modifies cfg.book`closeds, cfg.book`connecteds, cfg.book`unknownPortSeq
      modifies cfg.groupStat`closed, cfg.clientNodes
      ensures cfg.ips.Valid()
      ensures var r := Run(cfg.handlers.decode, old(GuardOf(cfg, cc)), old(cc.packetNeededLength), old(cc.stat.decodeFailCount), w[pos..]);
        done ==> handed == r.packets && Ends(cc, r, old(CloseState(cc)))
      ensures var r := Run(cfg.handlers.decode, old(GuardOf(cfg, cc)), old(cc.packetNeededLength), old(cc.stat.decodeFailCount), w[pos..]);
        !done ==>
          && pos < next <= |w| && lastByteBuffer.None?
          && CloseState(cc) == old(CloseState(cc))
          && r == Prepend(handed, Run(cfg.handlers.decode, GuardOf(cfg, cc), cc.packetNeededLength, cc.stat.decodeFailCount, w[next..]))
    {
      handed := [];
      next := pos;
      var window := w[pos..];
      var hint := cc.packetNeededLength;
      ghost var codec := cfg.handlers.decode;
      ghost var g := GuardOf(cfg, cc);
      ghost var r := Run(codec, g, hint, cc.stat.decodeFailCount, window);
      ghost var close0 := CloseState(cc);
      if hint.Some? && |window| < hint.value {
        // too few bytes for the length the codec asked for: keep them all
        lastByteBuffer := Some(window);
        return true, next, handed;
      }
      var res := cfg.handlers.decode(window);
      if res.CodecThrows? && hint.Some? {
        assert r == Pass([], None, None, cc.stat.decodeFailCount, Some(CodecFailed(res.error)));
        Fail(cfg, cc, CodecFailed(res.error));
        assert lastByteBuffer.None? && cc.packetNeededLength.None?;
        return true, next, handed;
      }
      if !res.Decoded? {
        // no packet yet (a codec exception without a hint is only logged)
        var needed := if res.NotYet? then res.setNeededLength else None;
        assert r == Missing(g, if needed.Some? then needed else hint, cc.stat.decodeFailCount, window);
        NoPacket(cfg, cc, window, needed);
        return true, next, handed;
      }
      done, next, handed := Consume(cfg, cc, w, pos, res.packet, res.consumed);
    }

    /** The rest of a turn that decoded a packet: it is delivered, and the loop goes on after it unless the window is used up. */
    method Consume(cfg: TioConfig, cc: ChannelContext, w: seq<byte>, pos: nat, decoded: Packet, consumed: nat)
      returns (done: bool, next: nat, ghost handed: seq<Packet>)
      requires pos <= |w| && WellFormedCodec(cfg.handlers.decode) && cfg.ips.Valid()
      requires lastByteBuffer.None?
      requires !(cc.packetNeededLength.Some? && |w[pos..]| < cc.packetNeededLength.value)
      requires cfg.handlers.decode(w[pos..]) == Decoded(decoded, consumed)
      modifies cc`packetNeededLength, cc.stat`decodeFailCount, cc.stat`latestTimeOfReceivedPacket
      modifies cc.stat`receivedPackets, cfg.groupStat`receivedPackets
      modifies cfg.ips, cc`isBind, cc`groups, cfg.book`waitingResps, cfg.book`events
      modifies cc.stat`handledPackets, cc.stat`handledBytes, cfg.groupStat`handledPackets, cfg.groupStat`handledBytes
      modifies cc`isWaitingClose, cc`closeCode, cc`channel, cc`closeMeta
      modifies cc`isRemoved, cc`isClosed, cc`clientNode, cc.stat`timeClosed
      modifies cfg.book`closeds, cfg.book`connecteds, cfg.book`unknownPortSeq
      modifies cfg.groupStat`closed, cfg.clientNodes
      ensures cfg.ips.Valid()
      ensures var r := Run(cfg.handlers.decode, old(GuardOf(cfg, cc)), old(cc.packetNeededLength), old(cc.stat.decodeFailCount), w[pos..]);
        done ==> handed == r.packets && Ends(cc, r, old(CloseState(cc)))
      ensures var r := Run(cfg.handlers.decode, old(GuardOf(cfg, cc)), old(cc.packetNeededLength), old(cc.stat.decodeFailCount), w[pos..]);
        !done ==>
          && pos < next <= |w|
          && CloseState(cc) == old(CloseState(cc))
          && r == Prepend(handed, Run(cfg.handlers.decode, GuardOf(cfg, cc), cc.packetNeededLength, cc.stat.decodeFailCount, w[next..]))
    {
      ghost var codec := cfg.handlers.decode;
      ghost var g := GuardOf(cfg, cc);
      ghost var r := Run(codec, g, cc.packetNeededLength, cc.stat.decodeFailCount, w[pos..]);
      next := pos;
      var packet := Stamp(decoded, consumed);
      handed := [packet];
      var failed := Deliver(cfg, cc, packet);
      if failed {
        assert r == Pass([packet], None, None, 0, Some(HandleFailed(HandlePacketTask.BindFailure)));
        return true, next, handed;
      }
      next := pos + consumed;
      assert w[pos..][consumed..] == w[next..];
      done := next == |w|;
      if !done {
        assert r == Prepend(handed, Run(codec, g, None, 0, w[next..]));
      }
    }

    /**
     * A window without a packet: the codec's new hint, if it gave one, is
     * kept, the window becomes the leftover and the failure is counted; the
     * slow-attack check may then close the connection.
     */
    method NoPacket(cfg: TioConfig, cc: ChannelContext, window: seq<byte>, needed: Option<int>)
      modifies this, cc`packetNeededLength, cc.stat`decodeFailCount
      modifies cc`isWaitingClose, cc`closeCode, cc`channel, cc`closeMeta
      modifies cc`isRemoved, cc`isClosed, cc`clientNode, cc.stat`timeClosed
      modifies cfg.book`events, cfg.book`closeds, cfg.book`connecteds, cfg.book`unknownPortSeq
      modifies cfg.groupStat`closed, cfg.clientNodes
      ensures var m := Missing(old(GuardOf(cfg, cc)), if needed.Some? then needed else old(cc.packetNeededLength),
                               old(cc.stat.decodeFailCount), window);
        && lastByteBuffer == m.leftover && cc.packetNeededLength == m.hint && cc.stat.decodeFailCount == m.failCount
        && (m.failure.None? ==> CloseState(cc) == old(CloseState(cc)))
        && (m.failure.Some? && TioClose.Proceeds(old(cc.isWaitingClose), cc.closeLockBusy, true) ==>
              cc.closeCode == DecodeError && cc.closeMeta.throwable == Some(FailureThrowable(m.failure.value)))
    {
      ghost var g := GuardOf(cfg, cc);
      if needed.Some? {
        cc.packetNeededLength := needed;
      }
      lastByteBuffer := Some(window);
      cc.stat.decodeFailCount := cc.stat.decodeFailCount + 1;
      assert GuardOf(cfg, cc) == g;
      CheckAttack(cfg, cc, |window|);
    }
  }

  /**
   * The slow-attack check after a window without a packet: with attacks
   * checked, more than ten consecutive failures whose average share of the
   * window is below the floor close the connection as a decode error.
   */
  method CheckAttack(cfg: TioConfig, cc: ChannelContext, len: int)
    modifies cc`packetNeededLength
    modifies cc`isWaitingClose, cc`closeCode, cc`channel, cc`closeMeta
    modifies cc`isRemoved, cc`isClosed, cc`clientNode, cc.stat`timeClosed
    modifies cfg.book`events, cfg.book`closeds, cfg.book`connecteds, cfg.book`unknownPortSeq
    modifies cfg.groupStat`closed, cfg.clientNodes
    ensures var n := cc.stat.decodeFailCount;
      SlowAttackFound(old(GuardOf(cfg, cc)), n, len) ==>
        && cc.packetNeededLength.None?
        && (TioClose.Proceeds(old(cc.isWaitingClose), cc.closeLockBusy, true) ==>
              cc.closeCode == DecodeError && cc.closeMeta.throwable == Some(FailureThrowable(SlowAttack(n, len / n))))
    ensures !SlowAttackFound(old(GuardOf(cfg, cc)), cc.stat.decodeFailCount, len) ==>
      cc.packetNeededLength == old(cc.packetNeededLength) && CloseState(cc) == old(CloseState(cc))
  {
    var failCount := cc.stat.decodeFailCount;
    if cfg.checkAttacks && failCount > 10 {
      var per := len / failCount;
      if per < Min(JavaDiv(cc.GetReadBufferSize(cfg.readBufferSize), 2), 256) {
        Fail(cfg, cc, SlowAttack(failCount, per));
      }
    }
  }

  /**
   * A packet the codec decoded: it is counted as received and handed to
   * HandlePacketTask; a binding failure escaping the handling is a decode
   * failure. Otherwise the connection's close state and the decode guard
   * stay as they were.
   */
  method Deliver(cfg: TioConfig, cc: ChannelContext, packet: Packet) returns (failed: bool)
    requires cfg.ips.Valid()
    modifies cc`packetNeededLength, cc.stat`decodeFailCount, cc.stat`latestTimeOfReceivedPacket
    modifies cc.stat`receivedPackets, cfg.groupStat`receivedPackets
    modifies cfg.ips, cc`isBind, cc`groups, cfg.book`waitingResps, cfg.book`events
    modifies cc.stat`handledPackets, cc.stat`handledBytes, cfg.groupStat`handledPackets, cfg.groupStat`handledBytes
    modifies cc`isWaitingClose, cc`closeCode, cc`channel, cc`closeMeta
    modifies cc`isRemoved, cc`isClosed, cc`clientNode, cc.stat`timeClosed
    modifies cfg.book`closeds, cfg.book`connecteds, cfg.book`unknownPortSeq
    modifies cfg.groupStat`closed, cfg.clientNodes
    ensures cfg.ips.Valid() && cc.packetNeededLength.None? && cc.stat.decodeFailCount == 0
    ensures failed <==> old(GuardOf(cfg, cc)).bindFails && packet.keepConnection
    ensures failed && TioClose.Proceeds(old(cc.isWaitingClose), cc.closeLockBusy, true) ==>
      cc.closeCode == DecodeError && cc.closeMeta.throwable == Some(FailureThrowable(HandleFailed(HandlePacketTask.BindFailure)))
    ensures !failed ==> CloseState(cc) == old(CloseState(cc)) && GuardOf(cfg, cc) == old(GuardOf(cfg, cc))
  {
    Received(cfg, cc, packet);
    var escaped := HandleOne(cfg, cc, packet);
    failed := escaped.Some?;
    if failed {
      Fail(cfg, cc, HandleFailed(escaped.value));
    }
  }

  /**
   * HandlePacketTask.handle as the decode loop sees it: only whether the
   * handling escaped, and that binding is the one thing that changes the
   * guard.
   */
  method HandleOne(cfg: TioConfig, cc: ChannelContext, packet: Packet) returns (escaped: Option<Throwable>)
    requires cfg.ips.Valid()
    modifies cfg.ips, cc`isBind, cc`groups, cfg.book`waitingResps, cfg.book`events
    modifies cc.stat`handledPackets, cc.stat`handledBytes, cfg.groupStat`handledPackets, cfg.groupStat`handledBytes
    ensures cfg.ips.Valid()
    ensures escaped.Some? <==> old(HandlePacketTask.BindThrows(cc, packet.keepConnection))
    ensures escaped.Some? ==> escaped.value == HandlePacketTask.BindFailure
    ensures escaped.None? ==> GuardOf(cfg, cc) == old(GuardOf(cfg, cc))
    ensures CloseState(cc) == old(CloseState(cc))
  {
    escaped := HandlePacketTask.Handle(cfg, cc, packet);
  }

  /**
   * A decoded packet's bookkeeping: the hint and the failure count are
   * cleared, the receive time is stamped, the received counters move when
   * statistics are on, and the listener hears of the packet and its size.
   */
  method Received(cfg: TioConfig, cc: ChannelContext, packet: Packet)
    modifies cc`packetNeededLength, cc.stat`decodeFailCount, cc.stat`latestTimeOfReceivedPacket
    modifies cc.stat`receivedPackets, cfg.groupStat`receivedPackets, cfg.book`events
    ensures cc.packetNeededLength.None? && cc.stat.decodeFailCount == 0
    ensures cc.stat.latestTimeOfReceivedPacket == cfg.book.now
    ensures cc.stat.receivedPackets == old(cc.stat.receivedPackets) + (if cfg.statOn then 1 else 0)
    ensures cfg.groupStat.receivedPackets == old(cfg.groupStat.receivedPackets) + (if cfg.statOn then 1 else 0)
    ensures cfg.book.events == old(cfg.book.events)
      + (if cfg.handlers.hasAioListener then [AfterDecoded(cc, packet, packet.byteCount)] else [])
    ensures CloseState(cc) == old(CloseState(cc)) && GuardOf(cfg, cc) == old(GuardOf(cfg, cc))
  {
    ClearHint(cfg, cc);
    CountReceived(cfg, cc, packet);
  }

  /** The needed-length hint is cleared; nothing the guards or the close path read moves. */
  method ClearHint(cfg: TioConfig, cc: ChannelContext)
    modifies cc`packetNeededLength
    ensures cc.packetNeededLength.None?
    ensures CloseState(cc) == old(CloseState(cc)) && GuardOf(cfg, cc) == old(GuardOf(cfg, cc))
  {
    cc.packetNeededLength := None;
  }

  /** The statistics and the listener's notice of one received packet. */
  method CountReceived(cfg: TioConfig, cc: ChannelContext, packet: Packet)
    modifies cc.stat`decodeFailCount, cc.stat`latestTimeOfReceivedPacket
    modifies cc.stat`receivedPackets, cfg.groupStat`receivedPackets, cfg.book`events
    ensures cc.stat.decodeFailCount == 0
    ensures cc.stat.latestTimeOfReceivedPacket == cfg.book.now
    ensures cc.stat.receivedPackets == old(cc.stat.receivedPackets) + (if cfg.statOn then 1 else 0)
    ensures cfg.groupStat.receivedPackets == old(cfg.groupStat.receivedPackets) + (if cfg.statOn then 1 else 0)
    ensures cfg.book.events == old(cfg.book.events)
      + (if cfg.handlers.hasAioListener then [AfterDecoded(cc, packet, packet.byteCount)] else [])
  {
    cc.stat.latestTimeOfReceivedPacket := cfg.book.now;
    cc.stat.decodeFailCount := 0;
    if cfg.statOn {
      cfg.groupStat.receivedPackets := cfg.groupStat.receivedPackets + 1;
      cc.stat.receivedPackets := cc.stat.receivedPackets + 1;
    }
    if cfg.handlers.hasAioListener {
      cfg.book.events := cfg.book.events + [AfterDecoded(cc, packet, packet.byteCount)];
    }
  }

  /**
   * The catch block of `decode`: the hint is cleared, a decode exception is
   * counted against the connection's ip, and the connection is closed with
   * DECODE_ERROR, under the close lock and without asking for removal.
   */
  method Fail(cfg: TioConfig, cc: ChannelContext, f: Failure)
    modifies cc`packetNeededLength
    modifies cc`isWaitingClose, cc`closeCode, cc`channel, cc`closeMeta
    modifies cc`isRemoved, cc`isClosed, cc`clientNode, cc.stat`timeClosed
    modifies cfg.book`events, cfg.book`closeds, cfg.book`connecteds, cfg.book`unknownPortSeq
    modifies cfg.groupStat`closed, cfg.clientNodes
    ensures cc.packetNeededLength.None?
    ensures TioClose.Proceeds(old(cc.isWaitingClose), cc.closeLockBusy, true) ==>
      cc.closeCode == DecodeError && cc.closeMeta.throwable == Some(FailureThrowable(f))
    ensures !TioClose.Proceeds(old(cc.isWaitingClose), cc.closeLockBusy, true) ==>
      FlagsOf(cc) == old(FlagsOf(cc)) && cc.closeCode == old(cc.closeCode) && cc.closeMeta == old(cc.closeMeta)
  {
    var t := FailureThrowable(f);
    if IsDecodeException(t) && |cfg.ipStatDurations| > 0 {
      cfg.book.events := cfg.book.events + [DecodeErrorCounted(cc)];
    }
    TioClose.CloseOutcome(cfg, cc, Some(t), Some("Decode exception:" + t.message), false, true, Some(DecodeError));
    // the catch block clears the hint first; the close does not read it
    cc.packetNeededLength := None;
  }
}
