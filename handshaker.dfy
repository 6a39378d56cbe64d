// Handshaker: drives one connection's TLS handshake. It asks the engine for
// its handshake status and answers it: hands delegated tasks to the task
// handler, wraps, unwraps pending ciphertext, and finishes. Finishing is
// idempotent: the completion listener hears of it once, and the
// connection's handshake-completed flag is set before the listener runs.
//
// The engine is outside the model. Its answers for each pass of
// `shakehands` are given as a finite script of rounds; the script bounds
// the recursion.

module Handshaker {
  import opened Util
  import opened Context

  /** The engine's handshake status. */
  datatype HandshakeStatus = NotHandshaking | Finished | NeedTask | NeedWrap | NeedUnwrap

  /** The engine's status for one wrap or unwrap. */
  datatype EngineStatus = Ok | Closed | BufferOverflow | BufferUnderflow

  /** What one wrap or unwrap reports. */
  datatype EngineResult = EngineResult(status: EngineStatus, handshakeStatus: HandshakeStatus)

  /**
   * The engine's answers for one pass of `shakehands`: the status it
   * reports, whether ciphertext is waiting to be unwrapped, and the result
   * of the wrap or unwrap that the pass makes.
   */
  datatype Round = Round(status: HandshakeStatus, pendingUnwrap: bool, result: EngineResult)

  /** A call the handshaker makes on the engine, the task handler or a listener. */
  datatype Action = BeginHandshake | Wrap | Unwrap | TasksHanded | CompletionNotified | SessionClosedNotified

  /** How many times the completion listener was called in a trace. */
  function Notifications(t: seq<Action>): (n: nat)
    ensures n <= |t|
  {
    if t == [] then 0 else (if t[0] == CompletionNotified then 1 else 0) + Notifications(t[1..])
  }

  lemma {:induction false} NotificationsAppend(a: seq<Action>, b: seq<Action>)
    ensures Notifications(a + b) == Notifications(a) + Notifications(b)
    decreases |a|
  {
    if a == [] {
      assert a + b == b;
    } else {
      assert (a + b)[1..] == a[1..] + b;
      NotificationsAppend(a[1..], b);
    }
  }

  /** The calls `handshakeFinished` makes: the listener, on the first call only. */
  function FinishActions(finished: bool, hasListener: bool): (t: seq<Action>)
    ensures Notifications(t) == (if !finished && hasListener then 1 else 0)
  {
    if !finished && hasListener then [CompletionNotified] else []
  }

  /**
   * What a run of `shakehands` does: the calls it makes, whether it
   * reached `handshakeFinished`, and whether the handshaker ends finished.
   */
  datatype Pass = Pass(actions: seq<Action>, reached: bool, finished: bool)

  /**
   * `shakehands` against a script of engine answers. NOT_HANDSHAKING and
   * FINISHED finish; NEED_TASK hands the tasks over and stops; NEED_WRAP
   * wraps, then finishes or goes round again; NEED_UNWRAP unwraps only
   * pending ciphertext, finishes when the unwrap says so, and goes round
   * again only on an OK unwrap. A CLOSED wrap notifies the session-closed
   * listener when there is one.
   */
  function Drive(rounds: seq<Round>, finished: bool, hasListener: bool, sessionListener: bool): (p: Pass)
    decreases |rounds|
  {
    if rounds == [] then Pass([], false, finished)
    else
      var r := rounds[0];
      match r.status
      case NotHandshaking => Pass(FinishActions(finished, hasListener), true, true)
      case Finished => Pass(FinishActions(finished, hasListener), true, true)
      case NeedTask => Pass([TasksHanded], false, finished)
      case NeedWrap =>
        var wrapped := WrapActions(r, sessionListener);
        if r.result.handshakeStatus == Finished then
          Pass(wrapped + FinishActions(finished, hasListener), true, true)
        else
          var rest := Drive(rounds[1..], finished, hasListener, sessionListener);
          Pass(wrapped + rest.actions, rest.reached, rest.finished)
      case NeedUnwrap =>
        if !r.pendingUnwrap then Pass([], false, finished)
        else
          var done := r.result.handshakeStatus == Finished;
          var first := [Unwrap] + (if done then FinishActions(finished, hasListener) else []);
          if r.result.status == Ok then
            var rest := Drive(rounds[1..], finished || done, hasListener, sessionListener);
            Pass(first + rest.actions, done || rest.reached, rest.finished)
          else
            Pass(first, done, finished || done)
  }

  /** The calls a NEED_WRAP pass makes before it finishes or goes round again. */
  function WrapActions(r: Round, sessionListener: bool): (t: seq<Action>)
    ensures Notifications(t) == 0
  {
    if r.result.status == Closed && sessionListener then [Wrap, SessionClosedNotified] else [Wrap]
  }

  /** A NEED_WRAP pass, unfolded. */
  lemma DriveWrap(rounds: seq<Round>, finished: bool, hasListener: bool, s: bool)
    requires rounds != [] && rounds[0].status == NeedWrap
    ensures var r := rounds[0];
      var rest := Drive(rounds[1..], finished, hasListener, s);
      Drive(rounds, finished, hasListener, s) ==
        if r.result.handshakeStatus == Finished then Pass(WrapActions(r, s) + FinishActions(finished, hasListener), true, true)
        else Pass(WrapActions(r, s) + rest.actions, rest.reached, rest.finished)
  {
  }

  /** A NEED_UNWRAP pass with pending ciphertext, unfolded. */
  lemma DriveUnwrap(rounds: seq<Round>, finished: bool, hasListener: bool, s: bool)
    requires rounds != [] && rounds[0].status == NeedUnwrap && rounds[0].pendingUnwrap
    ensures var r := rounds[0];
      var done := r.result.handshakeStatus == Finished;
      var first := [Unwrap] + (if done then FinishActions(finished, hasListener) else []);
      var rest := Drive(rounds[1..], finished || done, hasListener, s);
      Drive(rounds, finished, hasListener, s) ==
        if r.result.status == Ok then Pass(first + rest.actions, done || rest.reached, rest.finished)
        else Pass(first, done, finished || done)
  {
  }

  /**
   * A run ends finished exactly when it started finished or reached
   * `handshakeFinished`, and it notifies the listener once if it reached
   * it from an unfinished start with a listener set, and never otherwise.
   */
  lemma {:induction false} DriveNotifiesOnce(rounds: seq<Round>, finished: bool, hasListener: bool, s: bool)
    ensures var p := Drive(rounds, finished, hasListener, s);
      && p.finished == (finished || p.reached)
      && Notifications(p.actions) == (if !finished && p.reached && hasListener then 1 else 0)
    decreases |rounds|, 1
  {
    if rounds != [] {
      match rounds[0].status
      case NotHandshaking =>
      case Finished =>
      case NeedTask =>
      case NeedWrap =>
        WrapNotifiesOnce(rounds, finished, hasListener, s);
      case NeedUnwrap =>
        if rounds[0].pendingUnwrap {
          UnwrapNotifiesOnce(rounds, finished, hasListener, s);
        } else {
          assert Drive(rounds, finished, hasListener, s) == Pass([], false, finished);
        }
    }
  }

  /** `DriveNotifiesOnce` for a run that starts with NEED_WRAP. */
  lemma {:induction false} WrapNotifiesOnce(rounds: seq<Round>, finished: bool, hasListener: bool, s: bool)
    requires rounds != [] && rounds[0].status == NeedWrap
    ensures var p := Drive(rounds, finished, hasListener, s);
      && p.finished == (finished || p.reached)
      && Notifications(p.actions) == (if !finished && p.reached && hasListener then 1 else 0)
    decreases |rounds|, 0
  {
    var wrapped := WrapActions(rounds[0], s);
    DriveWrap(rounds, finished, hasListener, s);
    if rounds[0].result.handshakeStatus == Finished {
      NotificationsAppend(wrapped, FinishActions(finished, hasListener));
    } else {
      DriveNotifiesOnce(rounds[1..], finished, hasListener, s);
      NotificationsAppend(wrapped, Drive(rounds[1..], finished, hasListener, s).actions);
    }
  }

  /** `DriveNotifiesOnce` for a run that starts by unwrapping pending ciphertext. */
  lemma {:induction false} UnwrapNotifiesOnce(rounds: seq<Round>, finished: bool, hasListener: bool, s: bool)
    requires rounds != [] && rounds[0].status == NeedUnwrap && rounds[0].pendingUnwrap
    ensures var p := Drive(rounds, finished, hasListener, s);
      && p.finished == (finished || p.reached)
      && Notifications(p.actions) == (if !finished && p.reached && hasListener then 1 else 0)
    decreases |rounds|, 0
  {
    var r := rounds[0];
    var done := r.result.handshakeStatus == Finished;
    var tail := if done then FinishActions(finished, hasListener) else [];
    DriveUnwrap(rounds, finished, hasListener, s);
    NotificationsAppend([Unwrap], tail);
    if r.result.status == Ok {
      DriveNotifiesOnce(rounds[1..], finished || done, hasListener, s);
      NotificationsAppend([Unwrap] + tail, Drive(rounds[1..], finished || done, hasListener, s).actions);
    }
  }

  /** Without a session-closed listener no run notifies one. */
  lemma {:induction false} NoSessionClosedListenerNoNotice(rounds: seq<Round>, finished: bool, hasListener: bool)
    ensures SessionClosedNotified !in Drive(rounds, finished, hasListener, false).actions
    decreases |rounds|
  {
    if rounds != [] {
      var r := rounds[0];
      if r.status == NeedWrap && r.result.handshakeStatus != Finished {
        NoSessionClosedListenerNoNotice(rounds[1..], finished, hasListener);
      } else if r.status == NeedUnwrap && r.pendingUnwrap && r.result.status == Ok {
        var done := r.result.handshakeStatus == Finished;
        NoSessionClosedListenerNoNotice(rounds[1..], finished || done, hasListener);
      }
    }
  }

  /**
   * The facade's completion listener `_hcl` together with the relay that
   * SSLFacade attaches to the handshaker (SSLFacade.java:131-141): the
   * relay calls `_hcl` when it is set and then clears it, so `_hcl` runs
   * once. A throwing `_hcl` is not cleared.
   */
  class CompletionSlot {
    /** Whether `_hcl` is still set. */
    var pending: bool
    /** Whether `_hcl.onComplete` throws. */
    const hclThrows: bool
    /** How many times `_hcl.onComplete` has run. */
    var delivered: nat

    constructor (hclThrows: bool)
      ensures !pending && delivered == 0 && this.hclThrows == hclThrows
    {
      pending := false;
      this.hclThrows := hclThrows;
      delivered := 0;
    }

    /** The relay's `onComplete`. */
    method OnComplete() returns (threw: bool)
      modifies this
      ensures delivered == old(delivered) + (if old(pending) then 1 else 0)
      ensures threw == (old(pending) && hclThrows)
      ensures pending == threw
    {
      threw := false;
      if pending {
        delivered := delivered + 1;
        if hclThrows {
          threw := true;
          return;
        }
        pending := false;
      }
    }
  }

  class Handshaker {
    /** `_finished`. */
    var finished: bool
    /** `_hscl`, the completion listener. */
    var listener: Option<CompletionSlot>
    /** Whether `_sessionClosedListener` is set; nothing assigns it after construction. */
    const sessionClosedListener: bool
    /** The connection whose handshake-completed flag the handshaker sets; it may be null. */
    const cc: ChannelContext?
    /** Every call made on the engine, the task handler and the listeners. */
    var trace: seq<Action>

    /**
     * The listener has been called at most once, and only once the
     * handshake has finished.
     */
    predicate Valid()
      reads this
    {
      Notifications(trace) <= (if finished then 1 else 0)
    }

    constructor (cc: ChannelContext?)
      ensures Valid() && !finished && listener.None? && !sessionClosedListener && this.cc == cc && trace == []
    {
      finished := false;
      listener := None;
      sessionClosedListener := false;
      this.cc := cc;
      trace := [];
    }

    /** The TLS state of the connection, when there is one. */
    function SslCtx(): (s: set<SslFacadeContext>)
      reads this, cc
    {
      if cc != null && cc.sslFacadeContext.Some? then {cc.sslFacadeContext.value} else {}
    }

    /** The listener object, when one is set. */
    function Slot(): (s: set<CompletionSlot>)
      reads this
    {
      if listener.Some? then {listener.value} else {}
    }

    /** The connection's handshake-completed flag is set, when the connection has TLS state. */
    predicate FlagSet()
      reads this, cc, SslCtx()
    {
      cc != null && cc.sslFacadeContext.Some? ==> cc.sslFacadeContext.value.handshakeCompleted
    }

    /** `addCompletedListener` (and `removeCompletedListener`, which does the same). */
    method AddCompletedListener(l: CompletionSlot)
      requires Valid()
      modifies this
      ensures Valid() && listener == Some(l)
      ensures finished == old(finished) && trace == old(trace)
    {
      listener := Some(l);
    }

    /**
     * `markHandshakeCompleted`: sets the connection's handshake-completed
     * flag when it is unset; it never throws.
     */
    method MarkHandshakeCompleted()
      modifies SslCtx()
      ensures FlagSet()
    {
      if cc != null && cc.sslFacadeContext.Some? && !cc.sslFacadeContext.value.handshakeCompleted {
        cc.sslFacadeContext.value.handshakeCompleted := true;
      }
    }

    /**
     * `handshakeFinished`: the first call marks the handshaker finished,
     * sets the flag and then calls the listener, whose exception is
     * swallowed; a later call only makes sure the flag is set.
     */
    method HandshakeFinished()
      requires Valid()
      modifies this, SslCtx(), Slot()
      ensures old(FlagSet()) ==> FlagSet()
      ensures Valid() && finished && FlagSet()
      ensures listener == old(listener)
      ensures trace == old(trace) + FinishActions(old(finished), listener.Some?)
      ensures listener.Some? ==>
        listener.value.delivered == old(listener.value.delivered)
          + (if !old(finished) && old(listener.value.pending) then 1 else 0)
    {
      if finished {
        MarkHandshakeCompleted();
        return;
      }
      finished := true;
      MarkHandshakeCompleted();
      if listener.Some? {
        trace := trace + [CompletionNotified];
        var _ := listener.value.OnComplete();
      }
      NotificationsAppend(old(trace), FinishActions(old(finished), listener.Some?));
    }

    /**
     * `shakehands`: answers the engine until it stops asking, as `Drive`
     * says; the handshaker stays valid, so whatever the engine answers the
     * listener is called once at most.
     */
    method Shakehands(rounds: seq<Round>)
      requires Valid()
      modifies this, SslCtx(), Slot()
      ensures old(FlagSet()) ==> FlagSet()
      ensures Valid() && listener == old(listener)
      ensures var p := Drive(rounds, old(finished), listener.Some?, sessionClosedListener);
        && trace == old(trace) + p.actions
        && finished == p.finished
        && (p.reached ==> FlagSet())
      decreases |rounds|, 1
    {
      if rounds == [] {
        return;
      }
      match rounds[0].status
      case NotHandshaking =>
        if !finished {
          HandshakeFinished();
        } else {
          MarkHandshakeCompleted();
        }
      case Finished =>
        HandshakeFinished();
      case NeedTask =>
        Log(TasksHanded);
      case NeedWrap =>
        WrapRound(rounds);
      case NeedUnwrap =>
        UnwrapRound(rounds);
    }

    /** A NEED_WRAP pass of `shakehands`. */
    method WrapRound(rounds: seq<Round>)
      requires Valid() && rounds != [] && rounds[0].status == NeedWrap
      modifies this, SslCtx(), Slot()
      ensures old(FlagSet()) ==> FlagSet()
      ensures Valid() && listener == old(listener)
      ensures var p := Drive(rounds, old(finished), listener.Some?, sessionClosedListener);
        && trace == old(trace) + p.actions
        && finished == p.finished
        && (p.reached ==> FlagSet())
      decreases |rounds|, 0
    {
      var r := rounds[0];
      ghost var f0, h0 := finished, listener.Some?;
      DriveWrap(rounds, f0, h0, sessionClosedListener);
      if r.result.status == Closed && sessionClosedListener {
        Log(Wrap);
        Log(SessionClosedNotified);
      } else {
        Log(Wrap);
      }
      assert trace == old(trace) + WrapActions(r, sessionClosedListener);
      if r.result.handshakeStatus == Finished {
        HandshakeFinished();
        AppendTwice(old(trace), WrapActions(r, sessionClosedListener), FinishActions(f0, h0));
      } else {
        Shakehands(rounds[1..]);
        AppendTwice(old(trace), WrapActions(r, sessionClosedListener), Drive(rounds[1..], f0, h0, sessionClosedListener).actions);
      }
    }

    /** A NEED_UNWRAP pass of `shakehands`. */
    method UnwrapRound(rounds: seq<Round>)
      requires Valid() && rounds != [] && rounds[0].status == NeedUnwrap
      modifies this, SslCtx(), Slot()
      ensures old(FlagSet()) ==> FlagSet()
      ensures Valid() && listener == old(listener)
      ensures var p := Drive(rounds, old(finished), listener.Some?, sessionClosedListener);
        && trace == old(trace) + p.actions
        && finished == p.finished
        && (p.reached ==> FlagSet())
      decreases |rounds|, 0
    {
      var r := rounds[0];
      if !r.pendingUnwrap {
        assert Drive(rounds, finished, listener.Some?, sessionClosedListener) == Pass([], false, finished);
        return;
      }
      ghost var f0, h0, s0 := finished, listener.Some?, sessionClosedListener;
      ghost var done := r.result.handshakeStatus == Finished;
      ghost var first := [Unwrap] + (if done then FinishActions(f0, h0) else []);
      ghost var rest := Drive(rounds[1..], f0 || done, h0, s0);
      DriveUnwrap(rounds, f0, h0, s0);
      UnwrapOnce(r.result.handshakeStatus == Finished);
      assert trace == old(trace) + first;
      if r.result.status == Ok {
        assert Drive(rounds, f0, h0, s0) == Pass(first + rest.actions, done || rest.reached, rest.finished);
        Shakehands(rounds[1..]);
        AppendTwice(old(trace), first, rest.actions);
      } else {
        assert Drive(rounds, f0, h0, s0) == Pass(first, done, f0 || done);
      }
    }

    /** The unwrap of a NEED_UNWRAP pass, and the finish it may report. */
    method UnwrapOnce(done: bool)
      requires Valid()
      modifies this, SslCtx(), Slot()
      ensures old(FlagSet()) ==> FlagSet()
      ensures Valid() && listener == old(listener)
      ensures trace == old(trace) + [Unwrap] + (if done then FinishActions(old(finished), listener.Some?) else [])
      ensures finished == (old(finished) || done)
      ensures done ==> FlagSet()
    {
      Log(Unwrap);
      if done {
        HandshakeFinished();
      }
    }

    /** Records a call that is not a completion notification. */
    method Log(a: Action)
      requires Valid() && a != CompletionNotified
      modifies this
      ensures Valid() && trace == old(trace) + [a]
      ensures finished == old(finished) && listener == old(listener)
    {
      NotificationsAppend(trace, [a]);
      trace := trace + [a];
    }

    /** `begin`: starts the engine's handshake, then drives it. */
    method Begin(rounds: seq<Round>)
      requires Valid()
      modifies this, SslCtx(), Slot()
      ensures Valid() && listener == old(listener)
      ensures var p := Drive(rounds, old(finished), listener.Some?, sessionClosedListener);
        && trace == old(trace) + [BeginHandshake] + p.actions
        && finished == p.finished
    {
      Log(BeginHandshake);
      Shakehands(rounds);
    }

    /**
     * `handleUnwrapResult`: an unwrap that reports FINISHED finishes the
     * handshake; any other drives it on.
     */
    method HandleUnwrapResult(result: EngineResult, rounds: seq<Round>)
      requires Valid()
      modifies this, SslCtx(), Slot()
      ensures Valid() && listener == old(listener)
      ensures result.handshakeStatus == Finished ==>
        finished && FlagSet() && trace == old(trace) + FinishActions(old(finished), listener.Some?)
      ensures result.handshakeStatus != Finished ==>
        var p := Drive(rounds, old(finished), listener.Some?, sessionClosedListener);
        trace == old(trace) + p.actions && finished == p.finished
    {
      if result.handshakeStatus == Finished {
        HandshakeFinished();
      } else {
        Shakehands(rounds);
      }
    }
  }
}
