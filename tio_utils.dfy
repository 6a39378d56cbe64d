// TioUtils.checkBeforeIO: the guard run before every read and write. It
// allows I/O only on a live connection with an open socket, and closes a
// connection whose flags and socket disagree.

module TioUtils {
  import opened Util
  import opened CloseCodes
  import opened Context
  import opened Config
  import opened CloseTask
  import TioClose

  /** Java's rendering of a boolean. */
  function BoolText(b: bool): (s: string)
    ensures s == (if b then "true" else "false")
  {
    if b then "true" else "false"
  }

  /** The guard's verdict, branch by branch. */
  function IOAllowed(f: Flags, ch: Option<SocketChannel>): (ok: bool)
    ensures ok <==> !f.isWaitingClose && ch.Some? && ch.value.open && !f.isClosed && !f.isRemoved
  {
    if f.isWaitingClose then false
    else if ch.None? then false
    else if f.isClosed || f.isRemoved then false
    else ch.value.open
  }

  /**
   * Whether the guard closes the connection: its socket is open although
   * the connection is closed or removed, or its socket is shut although
   * the connection is live.
   */
  function ClosesOnCheck(f: Flags, ch: Option<SocketChannel>): (closes: bool)
    ensures closes <==> !f.isWaitingClose && ch.Some? && (ch.value.open <==> (f.isClosed || f.isRemoved))
    ensures closes ==> !IOAllowed(f, ch)
  {
    if f.isWaitingClose || ch.None? then false
    else if f.isClosed || f.isRemoved then ch.value.open
    else !ch.value.open
  }

  /** The remark the guard closes with. */
  function CheckRemark(f: Flags): string
  {
    if f.isClosed || f.isRemoved then
      "asynchronousSocketChannel is open, but channelContext isClosed: " + BoolText(f.isClosed)
        + ", isRemoved: " + BoolText(f.isRemoved)
    else "asynchronousSocketChannel is not open, connection might close by peer"
  }

  /**
   * `checkBeforeIO`: true exactly when I/O may proceed; a disagreement
   * between the flags and the socket closes the connection with
   * CHANNEL_NOT_OPEN, under the close lock and without asking for removal.
   */
  method CheckBeforeIO(cfg: TioConfig, cc: ChannelContext) returns (ok: bool)
    modifies cc`isWaitingClose, cc`closeCode, cc`channel, cc`closeMeta
    modifies cc`isRemoved, cc`isClosed, cc`clientNode, cc.stat`timeClosed
    modifies cfg.book`events, cfg.book`closeds, cfg.book`connecteds, cfg.book`unknownPortSeq
    modifies cfg.groupStat`closed, cfg.clientNodes
    ensures ok == IOAllowed(old(FlagsOf(cc)), old(cc.channel))
    ensures !ClosesOnCheck(old(FlagsOf(cc)), old(cc.channel)) || cc.closeLockBusy ==> TioClose.Untouched(cfg, cc)
    ensures ClosesOnCheck(old(FlagsOf(cc)), old(cc.channel)) && !cc.closeLockBusy ==>
      && cc.closeCode == ChannelNotOpen
      && cc.closeMeta == CloseMeta(None, Some(CheckRemark(old(FlagsOf(cc)))),
                                   TioClose.RemoveDecision(false, cc.isServer, cfg.handlers.needReconn))
      && cc.channel == TioClose.ShutDown(old(cc.channel)) && cc.channel.Some? && !cc.channel.value.open
      && FlagsOf(cc) == TioClose.CloseFlags(old(FlagsOf(cc)), false, true, cc.closeMeta.isNeedRemove, cc.isServer,
                                            cfg.handlers.hasAioListener && cfg.handlers.beforeCloseThrows)
  {
    if cc.isWaitingClose {
      return false;
    }
    if cc.channel.Some? {
      var isOpen := cc.channel.value.open;
      if cc.isClosed || cc.isRemoved {
        if isOpen {
          CloseNotOpen(cfg, cc);
        }
        return false;
      }
      if !isOpen {
        CloseNotOpen(cfg, cc);
        return false;
      }
      return true;
    } else {
      return false;
    }
  }

  /** The close the guard runs: CHANNEL_NOT_OPEN, under the close lock and without asking for removal. */
  method CloseNotOpen(cfg: TioConfig, cc: ChannelContext)
    requires !cc.isWaitingClose && cc.channel.Some?
    modifies cc`isWaitingClose, cc`closeCode, cc`channel, cc`closeMeta
    modifies cc`isRemoved, cc`isClosed, cc`clientNode, cc.stat`timeClosed
    modifies cfg.book`events, cfg.book`closeds, cfg.book`connecteds, cfg.book`unknownPortSeq
    modifies cfg.groupStat`closed, cfg.clientNodes
    ensures cc.closeLockBusy ==> TioClose.Untouched(cfg, cc)
    ensures !cc.closeLockBusy ==>
      && cc.closeCode == ChannelNotOpen
      && cc.closeMeta == CloseMeta(None, Some(CheckRemark(old(FlagsOf(cc)))),
                                   TioClose.RemoveDecision(false, cc.isServer, cfg.handlers.needReconn))
      && cc.channel == TioClose.ShutDown(old(cc.channel)) && cc.channel.Some? && !cc.channel.value.open
      && FlagsOf(cc) == TioClose.CloseFlags(old(FlagsOf(cc)), false, true, cc.closeMeta.isNeedRemove, cc.isServer,
                                            cfg.handlers.hasAioListener && cfg.handlers.beforeCloseThrows)
  {
    TioClose.CloseConnection(cfg, cc, None, Some(CheckRemark(FlagsOf(cc))), false, true, Some(ChannelNotOpen));
  }
}
