# tio-core connection engine, modelled in Dafny

This project models the per-connection engine of tio-core, an asynchronous
TCP library for Java. The connection record (`ChannelContext`) is a class.
It holds the close flags (`isWaitingClose`, `isClosed`, `isRemoved`,
`isBind`), the close code and its metadata, the codec's length hint, the
decode-failure counter, the send queue and `isSending`, and the TLS
handshake-completed flag. The registries beside it (users, tokens, ips,
client nodes, the connected and closed sets) are classes of their own or
fields of the shared `TioConfig`. Every operation is sequential: a lock,
a compare-and-set or a latch is one atomic step.

What the engine does, one module per source file:

- **Decoding** (`DecodeTask`). Leftover bytes go in front of the new
  read. The codec is asked for one packet after another, and each packet
  is handed on in stream order. The length hint postpones decoding until
  enough bytes are there. A run of failed attempts over few bytes is taken
  for a slow attack and closes the connection with DECODE_ERROR. For a
  prefix-consistent codec, the packets and the final leftover do not depend
  on how the stream was cut into reads.
- **Closing** (`Tio.close`, `Tio.remove`, `CloseTask`, `TioUtils.checkBeforeIO`,
  `ChannelCloseCode`). A close runs at most once. The close code is
  settled with a fixed precedence, and the connection is either removed or
  kept for reconnecting. Removal is never undone. The guard before every
  read and write allows I/O only on a live connection with an open socket.
  `ChannelCloseCode.from` returns the first constant holding a value, so
  `from(9)` is WRITE_COUNT_IS_NEGATIVE, which shares its 9 with
  SERVER_CONNECTION.
- **Sending** (`Tio.send` and its fan-out helpers, `SendPacketTask`,
  `WriteCompletionHandler`). A packet is always queued. Only the caller
  that flips `isSending` writes, so at most one write is in flight. A
  partial write resumes with the rest of its buffer, and the next packet
  goes only when the write has settled. The model keeps the source's
  oddities: `sendPacket` reads the TLS flag and the file body from its
  argument rather than from the packet it polled; the latch is counted
  down twice per sent packet; `isSending` stays true when the guard
  refuses the write.
- **Reading** (`ReadCompletionHandler`, `HandlePacketTask`). A read count
  of 0, -1 or less closes the connection with a code of its own. A
  connection binds to the registries once, on its first packet. A packet
  carrying a `synSeq` answers the waiting request instead of reaching the
  handler.
- **TLS** (`Handshaker`, `SSLFacade`, `SslListener`,
  `SslHandshakeCompletedListener`, `AfterSslHandshakeCompleted`).
  - The handshake driver answers the engine's statuses and finishes
    idempotently: the completion listener hears of it once.
  - The session-closed listener is never assigned, so it is never told.
  - `encrypt` cuts plaintext into 8 KiB pieces and concatenates their
    ciphertexts.
  - The client engine is made for the peer host and port, and HTTPS
    endpoint identification is switched on for host names.
  - The completed-listener reads the pending queue from a holder it has
    just created without asking it to create the queue. So the queue is
    always absent and nothing is drained.
- **Connecting and serving** (`ConnectionCompletionHandler`,
  `ServerTioConfig`). A connect success installs the socket and opens the
  connection. A failure goes to the reconnect policy, and the connection
  is closed for good when the policy declines. `share` leaves one
  heartbeat checker for two configs. The heartbeat closes a connection
  idle longer than its timeout unless the listener keeps it.
- **Registries** (`Users`, `Tokens`, `Ips`, `ClientNodes`, `Node`).
  Blank keys and short connections are no-ops, and a key whose set
  empties is dropped. `Node` equality, ordering, hashing and rendering
  agree.
- **Buffers and serialisers** (`BufferPoolUtils`,
  `ByteBufferPoolMetricsSnapshot`, `AppendJsonConverter`,
  `ProxyHandshake`).
  - Aligned sizes are the least multiple of the chunk size.
  - A queued buffer is reused only on an exact capacity and kind match.
  - The cleaner destroys at most ten buffers per idle round.
  - The metrics report and both JSON arrays read back into what they
    were built from.
  - The HTTP CONNECT and SOCKS5 (RFC 1928) exchanges run over a scripted
    socket.

The application's codec, handler and listener, the reconnect policy and
the TLS engine are not implemented. They are fixed oracles in
`Config.Handlers`, and every call made to them is recorded in order in
`Config.Book.events`. Socket results (counts, bytes, failures) are
parameters.

## Model

| member | source | states |
|---|---|---|
| ChannelOps.MoveRegistersNewNode | src/main/java/com/litongjava/tio/core/ChannelContext.java:377-392 | on a long connection, after `setClientNode` the registry maps a real new node to the connection, no longer holds the old node, and keeps every other node as it was |
| ChannelOps.SetClientNode | src/main/java/com/litongjava/tio/core/ChannelContext.java:377-392 | the connection takes the new node; on a long connection the old node leaves the client-node registry and a new node that is not the placeholder address is registered; a short connection leaves the registry alone |
| ChannelOps.AssignAnUnknownClientNode | src/main/java/com/litongjava/tio/core/ChannelContext.java:151-154 | the connection gets the placeholder host `$UNKNOWN` and the next value of the config's port sequence, which wraps around as a 32-bit int, and the registry is updated as by `setClientNode` |
| ChannelOps.SetClosed | src/main/java/com/litongjava/tio/core/ChannelContext.java:397-404 | the flag is stored; marking a connection closed gives it the placeholder node unless it already has one, so afterwards its client node is always the placeholder; marking it open changes nothing else |
| ChannelOps.ClosedLeavesRegistry | src/main/java/com/litongjava/tio/core/ChannelContext.java:397-404 | once a long connection with a real peer is marked closed, neither its old node nor its placeholder node is in the client-node registry |
| ChannelOps.SetAsynchronousSocketChannel | src/main/java/com/litongjava/tio/core/ChannelContext.java:326-341 | the channel is stored; a readable peer address becomes the client node, while a missing channel or an unreadable address gives the connection a placeholder node |
| ChannelOps.StatIp | src/main/java/com/litongjava/tio/core/ChannelContext.java:306-311 | the ip a connection's statistics are filed under is the proxied client's when asked for and known, otherwise the client node's |
| ChannelOps.IncSentPackets | src/main/java/com/litongjava/tio/core/ChannelContext.java:310 | raising a statistic's sent-packet count adds one to that count and leaves its other counters alone |
| ChannelOps.BumpSentCountsOnce | src/main/java/com/litongjava/tio/core/ChannelContext.java:306-316 | reporting a sent packet touches only the connection ip's statistics of the configured durations; with an ip-stat listener each distinct duration's sent-packet count rises by exactly one |
| ChannelOps.ProcessAfterSent | src/main/java/com/litongjava/tio/core/ChannelContext.java:277-321 | the packet's latch, if any, is counted down (a meta without a latch fails before anything else); a connection without TLS or with a finished handshake then tells the listener the outcome, a missing outcome counting as failure, and counts the packet in the group and connection statistics when statistics are on and in its ip's statistics |
| ChannelOps.ReportSent | src/main/java/com/litongjava/tio/core/ChannelContext.java:292-317 | the listener hears the outcome when there is one, both sent-packet counters rise by one when statistics are on, and the ip statistics are raised per duration |
| ChannelOps.CountSentPacket | src/main/java/com/litongjava/tio/core/ChannelContext.java:306-316 | the loop over the durations leaves the statistics as the per-duration raise describes |
| ChannelOps.SwitchAllConserves | src/main/java/com/litongjava/tio/core/ChannelContext.java:560-580 | moving the connection's counters between two different ips keeps, for every duration, the two ips' combined counters and leaves every other ip's counters alone |
| ChannelOps.SwitchAtReads | src/main/java/com/litongjava/tio/core/ChannelContext.java:568-573 | one duration's switch rewrites the two ips' counters of that duration as `swithIpStat` does and nothing else |
| ChannelOps.SwitchAtElsewhere | src/main/java/com/litongjava/tio/core/ChannelContext.java:568-573 | one duration's switch leaves every other duration's counters alone |
| ChannelOps.SwitchAllMovesMine | src/main/java/com/litongjava/tio/core/ChannelContext.java:560-580 | with distinct durations, for each listed duration the new ip gains exactly the connection's counters and the old ip loses exactly them |
| ChannelOps.SwitchUntouched | src/main/java/com/litongjava/tio/core/ChannelContext.java:566-577 | a duration not in the list keeps both ips' counters |
| ChannelOps.SetProxyClientNode | src/main/java/com/litongjava/tio/core/ChannelContext.java:560-580 | the proxied client is stored; when its ip differs from the client node's, the connection's counters move from the client node's ip to the proxied ip for every duration; with no client node the comparison fails after the store |
| ChannelOps.SwitchIpStats | src/main/java/com/litongjava/tio/core/ChannelContext.java:566-577 | the loop over the durations leaves the statistics as the per-duration switch describes |
| CloseTask.FlagsOf | src/main/java/com/litongjava/tio/core/task/CloseTask.java:29-35 | the lifecycle flags read off a connection are its isWaitingClose, isClosed and isRemoved |
| CloseTask.TaskFlags | src/main/java/com/litongjava/tio/core/task/CloseTask.java:14-64 | after the task a removed connection stays removed; isWaitingClose stays set only when the listener did not throw and the early exits skipped the teardown; an early exit keeps isClosed and isRemoved; a teardown that runs leaves the connection closed, removed exactly when asked, and no longer waiting |
| CloseTask.TaskEvents | src/main/java/com/litongjava/tio/core/task/CloseTask.java:20-60 | the task calls the listener's beforeClose first exactly when there is a listener; a teardown that runs calls the maintainers' remove when asked to remove, and otherwise, on a client, their close and then the reconnect queue; a skipped teardown calls none of them |
| CloseTask.Close | src/main/java/com/litongjava/tio/core/task/CloseTask.java:14-64 | the task stamps the close time, leaves the flags as the flag function says, makes its calls in order, and on a teardown moves a kept connection from the connected set to the closed set, counts the close when statistics are on and gives the connection a placeholder client node |
| CloseTask.Notify | src/main/java/com/litongjava/tio/core/task/CloseTask.java:20-27 | the listener hears beforeClose with the recorded throwable, remark and remove decision; a listener that throws clears isWaitingClose and the task carries on |
| CloseTask.Teardown | src/main/java/com/litongjava/tio/core/task/CloseTask.java:37-62 | the try block and its finally clause: remove or keep, mark removed and closed, count and stamp; a server connection asked to be kept fails the client-config cast and skips to the finally clause, which always clears isWaitingClose |
| TioClose.NextCloseCode | src/main/java/com/litongjava/tio/core/Tio.java:318-324 | a given close code overwrites the current one; without one, INIT_STATUS becomes NO_CODE and any other code stays; the result is INIT_STATUS only when INIT_STATUS itself was given |
| TioClose.NextCloseCodeSettles | src/main/java/com/litongjava/tio/core/Tio.java:318-324 | a code chosen by a close survives a later close that gives none |
| TioClose.RemoveDecision | src/main/java/com/litongjava/tio/core/Tio.java:346-355 | the connection is removed when asked, always on the server, and on the client when the reconnect policy declines; so only a client connection is ever kept |
| TioClose.ShutDown | src/main/java/com/litongjava/tio/core/Tio.java:326-342 | a present socket gets shutdownInput, shutdownOutput and close attempted in that order and ends closed, keeping its address; a missing socket stays missing |
| TioClose.CloseFlags | src/main/java/com/litongjava/tio/core/Tio.java:294-362 | a close stopped by its guards (already waiting, or the close lock taken elsewhere) leaves the flags as they were; one that proceeds marks the connection waiting and leaves the flags as the teardown task does; a removed connection stays removed |
| TioClose.TeardownAtMostOnce | src/main/java/com/litongjava/tio/core/Tio.java:294-362 | once a close tears a connection down, it is closed and removed exactly when asked, and any later close that does not turn a keep into a remove leaves isClosed and isRemoved as they were |
| TioClose.SkippedCloseStaysWaiting | src/main/java/com/litongjava/tio/core/Tio.java:298-301 | a close whose teardown is skipped (and whose listener does not throw) leaves isWaitingClose set, after which every further close is a no-op |
| TioClose.Close | src/main/java/com/litongjava/tio/core/Tio.java:294-297 | `Tio.close` does nothing for a null connection, and otherwise behaves as the close of a present connection |
| TioClose.CloseConnection | src/main/java/com/litongjava/tio/core/Tio.java:294-362 | a close stopped by its guards changes nothing; otherwise the code is settled, the socket shut, the close meta records the throwable, the remark and the remove decision, and the teardown task has run |
| TioClose.CloseNow | src/main/java/com/litongjava/tio/core/Tio.java:312-361 | a close past its guards leaves the connection and the config as the marking followed by the teardown task describes |
| TioClose.MarkClosing | src/main/java/com/litongjava/tio/core/Tio.java:312-360 | the connection is marked waiting to close, its code settled, its socket shut and its close meta recorded with the remove decision |
| TioClose.Remove | src/main/java/com/litongjava/tio/core/Tio.java:952-954 | `Tio.remove` is a close that always removes, under the close lock: when it proceeds the connection ends removed with the remove flag recorded and its code settled; when it does not, nothing changes |
| TioClose.CloseOutcome | src/main/java/com/litongjava/tio/core/Tio.java:294-362 | what a caller reads back from a close: when it proceeds, the settled code and the recorded meta; otherwise the old flags, code and meta |
| CloseCodes.Index | src/main/java/com/litongjava/tio/core/ChannelCloseCode.java:10-136 | each constant's ordinal is below the 32 constants of `values()`, and `values()` at that ordinal is the constant itself |
| CloseCodes.IndexOfCodeAt | src/main/java/com/litongjava/tio/core/ChannelCloseCode.java:10-136 | the constant at position k of `values()` has ordinal k, for every k below 32 |
| CloseCodes.DefaultValues | src/main/java/com/litongjava/tio/core/ChannelCloseCode.java:14-136 | before any `setValue`, every constant holds the Byte its literal narrows to |
| CloseCodes.FirstWithValue | src/main/java/com/litongjava/tio/core/ChannelCloseCode.java:140-145 | the scan from position k stops at the first constant whose value equals v (null equals null); it finds nothing only when no constant from k on holds v |
| CloseCodes.From | src/main/java/com/litongjava/tio/core/ChannelCloseCode.java:138-146 | `from(v)` returns a constant holding v such that no earlier-declared constant holds v, and returns null exactly when no constant holds v |
| CloseCodes.FromIsFirst | src/main/java/com/litongjava/tio/core/ChannelCloseCode.java:138-146 | whenever some constant c holds v, `from(v)` finds a constant, and the one it finds is declared no later than c |
| CloseCodes.DefaultOwnerOf | src/main/java/com/litongjava/tio/core/ChannelCloseCode.java:14-136 | reading the declarations backwards from a default Byte gives back the constant, except that 9 gives WRITE_COUNT_IS_NEGATIVE and not SERVER_CONNECTION |
| CloseCodes.DefaultValueInjective | src/main/java/com/litongjava/tio/core/ChannelCloseCode.java:14-136 | apart from SERVER_CONNECTION, no two constants share a default Byte |
| CloseCodes.FromNineIsWriteCountIsNegative | src/main/java/com/litongjava/tio/core/ChannelCloseCode.java:46-48 | WRITE_COUNT_IS_NEGATIVE and SERVER_CONNECTION both hold 9, and `from(9)` answers WRITE_COUNT_IS_NEGATIVE |
| CloseCodes.EarlyValues | src/main/java/com/litongjava/tio/core/ChannelCloseCode.java:14-46 | the first nine constants hold 1 to 9 in declaration order |
| CloseCodes.FromInvertsDefaultValue | src/main/java/com/litongjava/tio/core/ChannelCloseCode.java:138-146 | with the default values, `from(c.getValue()) == c` for every constant except SERVER_CONNECTION, for which it is WRITE_COUNT_IS_NEGATIVE |
| CloseCodes.KnownValues | src/main/java/com/litongjava/tio/core/ChannelCloseCode.java:14-136 | NO_CODE holds 1; INIT_STATUS is declared 199 and the (byte) cast stores -57; OTHER_ERROR holds -56 and IP_IN_BLACK_LIST -53 |
| CloseCodes.TlsAndUserCodeValues | src/main/java/com/litongjava/tio/core/ChannelCloseCode.java:61-118 | the TLS codes run from 50 to 53 and the user codes from 100 to 110 |
| CloseCodes.CloseCodeTable.constructor | src/main/java/com/litongjava/tio/core/ChannelCloseCode.java:148-152 | the mutable value table starts with every constant's default Byte |
| CloseCodes.CloseCodeTable.GetValue | src/main/java/com/litongjava/tio/core/ChannelCloseCode.java:154-156 | `getValue` answers the constant's current entry in the table |
| CloseCodes.CloseCodeTable.Lookup | src/main/java/com/litongjava/tio/core/ChannelCloseCode.java:138-146 | `from` over the current table: a constant it returns has `getValue() == v`, and it returns null exactly when no constant does |
| CloseCodes.CloseCodeTable.SetValue | src/main/java/com/litongjava/tio/core/ChannelCloseCode.java:158-160 | `setValue` changes that constant's entry and no other; afterwards `getValue` returns v and `from(v)` finds that constant or an earlier one |
| ConnectionCompletionHandler.ConnectionCompletionVo.constructor | src/main/java/com/litongjava/tio/client/ConnectionCompletionVo.java:55-65 | an attempt carries its context, socket, server node, local address, reconnect flag and latch as given |
| ConnectionCompletionHandler.NewClientContext | src/main/java/com/litongjava/tio/client/ConnectionCompletionHandler.java:61-62 | a first connect builds a fresh client connection, still marked closed and with the initial close code, on the socket, whose peer is the socket's remote address and whose server node and id are the given ones; it has fresh TLS state, not yet handshaken, exactly when TLS is configured |
| ConnectionCompletionHandler.OnConnected | src/main/java/com/litongjava/tio/client/ConnectionCompletionHandler.java:55-87 | the success branch connects exactly when it is a first connect or a reconnect with a context; a reconnect without one changes nothing; otherwise the context (the old one for a reconnect, a fresh one for a first connect) holds the socket, is open with no reconnect attempts and the given local address, joins the connected set and leaves the closed set, has its first read issued, and on a first connect records when it first connected |
| ConnectionCompletionHandler.Open | src/main/java/com/litongjava/tio/client/ConnectionCompletionHandler.java:65-87 | the steps common to every success: local address, reconnect count cleared, opened, recorded in the attempt, added to the connected set, first read issued, first-connect time set on a first connect only |
| ConnectionCompletionHandler.OnFailed | src/main/java/com/litongjava/tio/client/ConnectionCompletionHandler.java:88-108 | the failure branch reports on the attempt's own context, else on a fresh one when a reconnect policy exists, else on none; a first connect records that context in the attempt; the context is offered to the policy, and when the policy declines it is closed for good, with removal, CLIENT_CONNECTION_FAIL and the no-reconnect remark |
| ConnectionCompletionHandler.ContextForFailure | src/main/java/com/litongjava/tio/client/ConnectionCompletionHandler.java:90-103 | the context a failure reports on: the attempt's own, else a fresh one when a reconnect policy exists, else none; a first connect records it in the attempt |
| ConnectionCompletionHandler.OfferToReconnect | src/main/java/com/litongjava/tio/client/ConnectionCompletionHandler.java:104-107 | when the reconnect policy accepts the context its close state is untouched; when it declines, a context not already closing is closed with CLIENT_CONNECTION_FAIL, the no-reconnect remark and removal |
| ConnectionCompletionHandler.Report | src/main/java/com/litongjava/tio/client/ConnectionCompletionHandler.java:116-137 | the `finally` block for a present context records whether it was a reconnect; a successful TLS connect gets fresh TLS state and starts the handshake instead of a notice; every other outcome is reported to the listener when there is one |
| ConnectionCompletionHandler.Handler | src/main/java/com/litongjava/tio/client/ConnectionCompletionHandler.java:42-156 | `handler`: a connect succeeds exactly when no failure was reported and a reconnect has a context to reuse; the caller's latch is counted down in every case; a connected context is open, connected, not among the closed, has its first read issued and knows whether it was a reconnect, and without TLS the listener hears of the success; a failure on an existing context is reported to the listener as not connected |
| Context.CountDownLatch.CountDown | src/main/java/com/litongjava/tio/core/ChannelContext.java:281-283 | the latch a blocking sender waits on loses one count per `countDown`, and a count of 0 stays 0 |
| Context.PacketMeta.constructor | src/main/java/com/litongjava/tio/core/ChannelContext.java:279-281 | a packet's meta starts with its latch and no recorded send outcome |
| Context.SendQueue.constructor | src/main/java/com/litongjava/tio/core/ChannelContext.java:79 | a connection's send queue starts empty |
| Context.SendQueue.Offer | src/main/java/com/litongjava/tio/core/ChannelContext.java:79 | `offer` appends the packet at the tail and keeps the queue first-in first-out: what was polled followed by what is queued is everything offered |
| Context.SendQueue.Poll | src/main/java/com/litongjava/tio/core/ChannelContext.java:79 | `poll` answers null on an empty queue and otherwise removes and answers the head, keeping the queue first-in first-out |
| Context.AtomicBoolean.CompareAndSet | src/main/java/com/litongjava/tio/core/ChannelContext.java:80 | compare-and-set succeeds exactly when the flag held the expected value, and only then stores the update |
| Context.AtomicBoolean.Set | src/main/java/com/litongjava/tio/core/ChannelContext.java:80 | the flag afterwards holds the value set |
| Context.ChannelStat.constructor | src/main/java/com/litongjava/tio/core/ChannelContext.java:63 | a connection's counters all start at 0 |
| Context.ChannelStat.Snapshot | src/main/java/com/litongjava/tio/core/ChannelContext.java:533-555 | the nine counters an ip statistic shares with a connection, with one request standing for the connection |
| Context.Sub | src/main/java/com/litongjava/tio/core/ChannelContext.java:534-542 | taking a connection's counters out of an ip statistic is undone by adding them back |
| Context.SwitchIpStat | src/main/java/com/litongjava/tio/core/ChannelContext.java:533-555 | `swithIpStat` moves the connection's counters from the old ip's statistic to the new one's: the old one minus them plus them is what it was, the new one gains exactly them, and the pair's total is unchanged |
| Context.ChannelContext.constructor | src/main/java/com/litongjava/tio/core/ChannelContext.java:35-80 | a new connection starts closed, not waiting to close, not removed, with an empty send queue, nothing sending, zeroed counters, no peer nodes, no user, token or groups, close code INIT_STATUS and an empty close meta |
| Context.ChannelContext.GetReadBufferSize | src/main/java/com/litongjava/tio/core/ChannelContext.java:515-520 | the connection's own read buffer size is used when it is set and positive; otherwise the config's size is |
| Context.ChannelContext.SetReadBufferSize | src/main/java/com/litongjava/tio/core/ChannelContext.java:522-524 | the stored size is capped at the largest data length, so a size within the cap reads back as itself and a larger one reads back as the cap |
| Context.ChannelContext.ReportedClient | src/main/java/com/litongjava/tio/core/ChannelContext.java:623-627 | the peer reported for a connection is the proxied client when one is known, else the socket's client node |
| Context.ChannelContext.ClientIpAndPort | src/main/java/com/litongjava/tio/core/ChannelContext.java:623-632 | `getClientIpAndPort` is the `toString` rendering (host, colon, port) of the reported peer |
| Context.SameContext | src/main/java/com/litongjava/tio/core/ChannelContext.java:172-191 | `equals`: a connection equals itself, and two equal connections are of the same class (server or client) and carry the same id |
| Context.SameContextIsEquivalence | src/main/java/com/litongjava/tio/core/ChannelContext.java:172-191 | `equals` on connections is reflexive, symmetric and transitive |
| Context.SameContextIsIdentity | src/main/java/com/litongjava/tio/core/ChannelContext.java:172-191 | among connections whose ids are pairwise distinct, `equals` is reference identity, so a registry holding references agrees with the source's hash sets |
| DecodeTask.Prepend | src/main/java/com/litongjava/tio/core/task/DecodeTask.java:50-168 | handing a packet on before the rest of a pass puts it in front of the rest's packets and changes nothing else |
| DecodeTask.Window | src/main/java/com/litongjava/tio/core/task/DecodeTask.java:46-49 | the bytes decoded are the leftover of the previous read followed by the new ones |
| DecodeTask.Stamp | src/main/java/com/litongjava/tio/core/task/DecodeTask.java:113-114 | a decoded packet records how many bytes the codec consumed for it, and nothing else about it changes |
| DecodeTask.ConsumedAppend | src/main/java/com/litongjava/tio/core/task/DecodeTask.java:113-114 | the bytes consumed by two runs of packets add up |
| DecodeTask.Missing | src/main/java/com/litongjava/tio/core/task/DecodeTask.java:81-106 | a window without a packet is kept whole as leftover and counts one more consecutive failure; it fails exactly when attacks are checked, there have been more than ten failures and their average share of the window is below the floor, in which case the hint is cleared and the failure records the count and the average |
| DecodeTask.Run | src/main/java/com/litongjava/tio/core/task/DecodeTask.java:50-196 | the decode loop over one window: a window shorter than the length hint is kept untouched; a failure always clears the hint; a slow-attack failure happens only with attacks checked after more than ten consecutive failures; a handling failure only when binding the connection fails |
| DecodeTask.RunAccount | src/main/java/com/litongjava/tio/core/task/DecodeTask.java:50-168 | a pass that does not fail drops and repeats no byte: its packets account for the bytes before the leftover, and the leftover is the end of the window |
| DecodeTask.FramesAccount | src/main/java/com/litongjava/tio/core/task/DecodeTask.java:50-168 | reading a stream whole drops and repeats no byte, and the codec finds no packet in the tail |
| DecodeTask.FramesAppend | src/main/java/com/litongjava/tio/core/task/DecodeTask.java:46-49 | for a codec that decodes from the front of its window, reading a stream in two parts gives the first part's packets, then what its tail and the second part decode to |
| DecodeTask.FramesAppendStep | src/main/java/com/litongjava/tio/core/task/DecodeTask.java:154-160 | the step of the two-part reading past the first packet |
| DecodeTask.RunIsFrames | src/main/java/com/litongjava/tio/core/task/DecodeTask.java:50-168 | without a failure, and with length hints that keep their promise, the decode loop over a window finds exactly the packets and the tail that reading it whole finds, and the hint it keeps still holds |
| DecodeTask.FeedAllIsFrames | src/main/java/com/litongjava/tio/core/task/DecodeTask.java:41-197 | from a stuck state whose hint holds, feeding reads one by one finds what reading them all at once finds |
| DecodeTask.ConcatSplit | src/main/java/com/litongjava/tio/core/task/DecodeTask.java:46-49 | the leftover and the reads joined are the first window followed by the later reads |
| DecodeTask.ChunkingIrrelevant | src/main/java/com/litongjava/tio/core/task/DecodeTask.java:41-197 | a connection not closed along the way hands on the packets, and keeps the leftover, that reading all its bytes at once gives: they do not depend on how the bytes were cut into reads |
| DecodeTask.SplitsAgree | src/main/java/com/litongjava/tio/core/task/DecodeTask.java:41-197 | two ways of cutting the same bytes into reads hand on the same packets and keep the same leftover, when neither closes the connection |
| DecodeTask.QuietRunsSucceed | src/main/java/com/litongjava/tio/core/task/DecodeTask.java:73-79 | without the attack check, with a codec that never throws and a binding that cannot fail, a decode pass never fails |
| DecodeTask.QuietFeedsSucceed | src/main/java/com/litongjava/tio/core/task/DecodeTask.java:41-197 | under the same conditions no run of reads ever closes the connection |
| DecodeTask.GuardOf | src/main/java/com/litongjava/tio/core/task/DecodeTask.java:87-91 | handling a packet fails to bind exactly when the connection is not yet bound, is a long connection and has no client node |
| DecodeTask.PrependTwice | src/main/java/com/litongjava/tio/core/task/DecodeTask.java:145-160 | handing on packets one by one adds up to handing them on together |
| DecodeTask.DecodeTask.constructor | src/main/java/com/litongjava/tio/core/task/DecodeTask.java:34 | a new decode task holds no leftover |
| DecodeTask.DecodeTask.Decode | src/main/java/com/litongjava/tio/core/task/DecodeTask.java:41-197 | `decode` hands on, in order, the packets of the loop over the leftover and the new bytes, and keeps its leftover, length hint and failure count; only a failure closes the connection, with DECODE_ERROR and the failure's exception |
| DecodeTask.DecodeTask.Loop | src/main/java/com/litongjava/tio/core/task/DecodeTask.java:50-196 | the loop over a window with nothing left over from before ends as the decode loop describes |
| DecodeTask.DecodeTask.Step | src/main/java/com/litongjava/tio/core/task/DecodeTask.java:51-168 | one turn of the loop from a position ends as the decode loop over the rest of the window describes |
| DecodeTask.DecodeTask.Consume | src/main/java/com/litongjava/tio/core/task/DecodeTask.java:107-168 | a turn that decoded a packet delivers it and goes on after it unless the window is used up |
| DecodeTask.DecodeTask.NoPacket | src/main/java/com/litongjava/tio/core/task/DecodeTask.java:81-106 | a window without a packet keeps the codec's new hint if it gave one, becomes the leftover and counts a failure; the slow-attack check may then close the connection |
| DecodeTask.CheckAttack | src/main/java/com/litongjava/tio/core/task/DecodeTask.java:87-98 | with attacks checked, more than ten consecutive failures whose average bytes are below min(read buffer size / 2, 256) close the connection with DECODE_ERROR and the slow-attack exception; otherwise nothing changes |
| DecodeTask.Deliver | src/main/java/com/litongjava/tio/core/task/DecodeTask.java:108-152 | a decoded packet clears the hint and the failure count and is handed on; the handling fails exactly when binding the connection fails, which closes it with DECODE_ERROR; otherwise the close state and the decode guard stay as they were |
| DecodeTask.HandleOne | src/main/java/com/litongjava/tio/core/task/DecodeTask.java:145-152 | the handling escapes exactly when binding throws, and otherwise changes nothing the decode guard reads; it never closes the connection |
| DecodeTask.Received | src/main/java/com/litongjava/tio/core/task/DecodeTask.java:108-139 | a decoded packet clears the hint and the failure count, stamps the receive time, counts a received packet when statistics are on, and is reported to the listener with its size |
| DecodeTask.ClearHint | src/main/java/com/litongjava/tio/core/task/DecodeTask.java:109 | the needed-length hint is cleared, and nothing the guards or the close path read moves |
| DecodeTask.CountReceived | src/main/java/com/litongjava/tio/core/task/DecodeTask.java:110-139 | the receive time is stamped, the failure count reset, both received-packet counters rise by one when statistics are on, and the listener hears of the packet and its size |
| DecodeTask.Fail | src/main/java/com/litongjava/tio/core/task/DecodeTask.java:169-195 | the catch block clears the hint and closes the connection with DECODE_ERROR and the exception, under the close lock and without asking for removal; a close stopped by its guards changes no flag, code or meta |
| Nodes.StringHash | src/main/java/com/litongjava/tio/core/Node.java:58-61 | Java's `String.hashCode` is always a 32-bit value |
| Nodes.HashCode | src/main/java/com/litongjava/tio/core/Node.java:58-61 | `hashCode` hashes the host-colon-port text and is a 32-bit value |
| Nodes.CompareStringsAntisymmetric | src/main/java/com/litongjava/tio/core/Node.java:37 | `String.compareTo` of two texts is the negation of the reverse comparison |
| Nodes.CompareStringsZeroIffEqual | src/main/java/com/litongjava/tio/core/Node.java:37 | `String.compareTo` answers 0 exactly for equal texts |
| Nodes.IntToStringInjective | src/main/java/com/litongjava/tio/core/Node.java:71-76 | two ports with the same decimal text are the same port |
| Nodes.NatToStringInjective | src/main/java/com/litongjava/tio/core/Node.java:71-76 | two non-negative numbers with the same decimal text are equal |
| Nodes.SignShowsInFirstChar | src/main/java/com/litongjava/tio/core/Node.java:71-76 | a port's text starts with a minus sign exactly when the port is negative |
| CloseCodes.IndexOfFirstRow | src/main/java/com/litongjava/tio/core/ChannelCloseCode.java:14-42 | the first eight constants have ordinals 0 to 7 in declaration order |
| CloseCodes.IndexOfSecondRow | src/main/java/com/litongjava/tio/core/ChannelCloseCode.java:46-73 | the next eight, from WRITE_COUNT_IS_NEGATIVE to SSL_DECRYPT_ERROR, have ordinals 8 to 15 |
| CloseCodes.IndexOfThirdRow | src/main/java/com/litongjava/tio/core/ChannelCloseCode.java:78-106 | USER_CODE_0 to USER_CODE_7 have ordinals 16 to 23 |
| CloseCodes.IndexOfFourthRow | src/main/java/com/litongjava/tio/core/ChannelCloseCode.java:110-136 | the last eight, from USER_CODE_8 to IP_IN_BLACK_LIST, have ordinals 24 to 31 |
| CloseCodes.DefaultOwnerOfEarly | src/main/java/com/litongjava/tio/core/ChannelCloseCode.java:14-73 | for the first sixteen constants, the default Byte leads back to the constant, except SERVER_CONNECTION's 9, which leads to WRITE_COUNT_IS_NEGATIVE |
| CloseCodes.DefaultOwnerOfLate | src/main/java/com/litongjava/tio/core/ChannelCloseCode.java:78-136 | the same for the later constants |
| CloseCodes.DefaultOwnerOfUserCode | src/main/java/com/litongjava/tio/core/ChannelCloseCode.java:78-118 | each user code's default Byte leads back to that user code |
| CloseCodes.DefaultOwnerOfNarrowed | src/main/java/com/litongjava/tio/core/ChannelCloseCode.java:122-136 | each of the last constants, whose literals are narrowed by the (byte) cast, is led back to from its stored Byte |
| CloseCodes.SharedNine | src/main/java/com/litongjava/tio/core/ChannelCloseCode.java:46-48 | WRITE_COUNT_IS_NEGATIVE and SERVER_CONNECTION both default to 9 |
| CloseCodes.NineInDefaultTable | src/main/java/com/litongjava/tio/core/ChannelCloseCode.java:138-146 | over the default values, the search for 9 stops at WRITE_COUNT_IS_NEGATIVE, declared before SERVER_CONNECTION |
| DecodeTask.FailureThrowable | src/main/java/com/litongjava/tio/core/task/DecodeTask.java:95-176 | a slow-attack failure closes the connection with an AioDecodeException |
| DecodeTask.FeedAll | src/main/java/com/litongjava/tio/core/task/DecodeTask.java:41-197 | feeding the reads one by one: a run that ends in failure leaves no length hint, as the catch block clears it |
| SslFacade.ParseRenderedNatural | src/main/java/com/litongjava/tio/core/ssl/facade/SSLFacade.java:161 | the decimal text of a non-negative 32-bit value parses back to it |
| SslFacade.ParseRenderedNegative | src/main/java/com/litongjava/tio/core/ssl/facade/SSLFacade.java:161 | a minus sign and the decimal of n parse back to -n when -n is a 32-bit value |
| SslFacade.WrapAllLength | src/main/java/com/litongjava/tio/core/ssl/facade/SSLFacade.java:84-105 | with an engine adding a fixed overhead per record, every piece wraps and the output is the input length plus one overhead per piece |
| TioSend.Virtuals | src/main/java/com/litongjava/tio/core/Tio.java:1043-1048 | the virtual connections of a group, which `send` answers true for without queueing |
| HandlePacketTask.BindsAtMostOnce | src/main/java/com/litongjava/tio/core/task/HandlePacketTask.java:40-45 | over any run of packets a connection is bound at most once, and it is bound exactly when it started unbound and some packet keeps the connection |
| HandlePacketTask.NoBindOnceBound | src/main/java/com/litongjava/tio/core/task/HandlePacketTask.java:40-45 | a connection already bound is never bound again |
| HandlePacketTask.RouteOf | src/main/java/com/litongjava/tio/core/task/HandlePacketTask.java:49-73 | a packet goes to the application handler exactly when it has no synSeq or a synSeq that is not positive; a positive synSeq answers the request waiting under it, or nobody when none waits |
| HandlePacketTask.Answer | src/main/java/com/litongjava/tio/core/task/HandlePacketTask.java:51-57 | a response takes the place of the request it answers, under the same synSeq; no other waiting request changes and none is added or lost |
| HandlePacketTask.RouteEvents | src/main/java/com/litongjava/tio/core/task/HandlePacketTask.java:58-72 | routing calls the application handler exactly for an application packet, and makes at most one call |
| HandlePacketTask.Handle | src/main/java/com/litongjava/tio/core/task/HandlePacketTask.java:35-112 | `handle`: when binding the ip fails the failure escapes and nothing changes; otherwise a packet that keeps an unbound connection binds it to the ip and id registries and gives it an empty group set, the packet is routed, the handled counters of the connection and the group rise by one packet and its byte count when statistics are on, and the listener hears of it |
| HandlePacketTask.BindOnce | src/main/java/com/litongjava/tio/core/task/HandlePacketTask.java:40-45 | the binding step: the connection joins its ip's set and the id registry, gets an empty group set and is marked bound, unless it is bound already or the packet does not keep it; a failing ip binding leaves everything as it was |
| HandlePacketTask.Dispatch | src/main/java/com/litongjava/tio/core/task/HandlePacketTask.java:47-111 | the try block and its finally clause: the routing's effect on the waiting requests and its calls, the handled counters when statistics are on, then the listener |
| Handshaker.Notifications | src/main/java/com/litongjava/tio/core/ssl/facade/Handshaker.java:156-178 | a trace holds no more completion notices than calls |
| Handshaker.NotificationsAppend | src/main/java/com/litongjava/tio/core/ssl/facade/Handshaker.java:156-178 | completion notices add up over joined traces |
| Handshaker.FinishActions | src/main/java/com/litongjava/tio/core/ssl/facade/Handshaker.java:156-178 | `handshakeFinished` notifies the listener once on its first call when a listener is set, and never otherwise |
| Handshaker.WrapActions | src/main/java/com/litongjava/tio/core/ssl/facade/Handshaker.java:107-111 | a NEED_WRAP pass never notifies the completion listener; a CLOSED wrap notifies the session-closed listener when there is one |
| Handshaker.DriveWrap | src/main/java/com/litongjava/tio/core/ssl/facade/Handshaker.java:107-117 | a NEED_WRAP pass wraps, then finishes when the wrap reports FINISHED and otherwise goes round again |
| Handshaker.DriveUnwrap | src/main/java/com/litongjava/tio/core/ssl/facade/Handshaker.java:119-128 | a NEED_UNWRAP pass with pending ciphertext unwraps, finishes when the unwrap reports FINISHED, and goes round again only on an OK unwrap |
| Handshaker.DriveNotifiesOnce | src/main/java/com/litongjava/tio/core/ssl/facade/Handshaker.java:79-178 | whatever the engine answers, a run ends finished exactly when it started finished or reached `handshakeFinished`, and notifies the listener exactly once when it reached it from an unfinished start with a listener set, never otherwise |
| Handshaker.WrapNotifiesOnce | src/main/java/com/litongjava/tio/core/ssl/facade/Handshaker.java:107-117 | the same for a run that begins with NEED_WRAP |
| Handshaker.UnwrapNotifiesOnce | src/main/java/com/litongjava/tio/core/ssl/facade/Handshaker.java:119-128 | the same for a run that begins by unwrapping pending ciphertext |
| Handshaker.NoSessionClosedListenerNoNotice | src/main/java/com/litongjava/tio/core/ssl/facade/Handshaker.java:109-111 | without a session-closed listener no run notifies one |
| Handshaker.CompletionSlot.constructor | src/main/java/com/litongjava/tio/core/ssl/facade/SSLFacade.java:131-141 | a fresh relay has no listener set and has delivered nothing |
| Handshaker.CompletionSlot.OnComplete | src/main/java/com/litongjava/tio/core/ssl/facade/SSLFacade.java:134-139 | the relay calls the facade's listener once when it is set and then clears it; a listener that throws stays set |
| Handshaker.Handshaker.constructor | src/main/java/com/litongjava/tio/core/ssl/facade/Handshaker.java:34-40 | a new handshaker is unfinished, with no listener, an empty trace and the connection it marks |
| Handshaker.Handshaker.AddCompletedListener | src/main/java/com/litongjava/tio/core/ssl/facade/Handshaker.java:63-69 | the listener is replaced; the finished state and the trace are kept |
| Handshaker.Handshaker.MarkHandshakeCompleted | src/main/java/com/litongjava/tio/core/ssl/facade/Handshaker.java:139-151 | afterwards the connection's handshake-completed flag is set whenever it has TLS state |
| Handshaker.Handshaker.HandshakeFinished | src/main/java/com/litongjava/tio/core/ssl/facade/Handshaker.java:156-178 | `handshakeFinished` is idempotent: afterwards the handshaker is finished and the flag is set, the listener is notified only on the first call, and the relay delivers only then |
| Handshaker.Handshaker.Shakehands | src/main/java/com/litongjava/tio/core/ssl/facade/Handshaker.java:79-134 | `shakehands` does exactly what the scripted run does: the same calls, the same finished state, the flag set once it reached `handshakeFinished`, and the listener notified at most once |
| Handshaker.Handshaker.WrapRound | src/main/java/com/litongjava/tio/core/ssl/facade/Handshaker.java:107-117 | a NEED_WRAP pass does what the scripted run does |
| Handshaker.Handshaker.UnwrapRound | src/main/java/com/litongjava/tio/core/ssl/facade/Handshaker.java:119-132 | a NEED_UNWRAP pass does what the scripted run does; without pending ciphertext nothing happens |
| Handshaker.Handshaker.UnwrapOnce | src/main/java/com/litongjava/tio/core/ssl/facade/Handshaker.java:120-125 | the unwrap is recorded, and a FINISHED report finishes the handshake and sets the flag |
| Handshaker.Handshaker.Log | src/main/java/com/litongjava/tio/core/ssl/facade/Handshaker.java:79-134 | a call other than a completion notice is appended to the trace and changes nothing else |
| Handshaker.Handshaker.Begin | src/main/java/com/litongjava/tio/core/ssl/facade/Handshaker.java:46-49 | `begin` starts the engine's handshake, then drives it as the scripted run says |
| Handshaker.Handshaker.HandleUnwrapResult | src/main/java/com/litongjava/tio/core/ssl/facade/Handshaker.java:55-61 | an unwrap that reports FINISHED finishes the handshake and sets the flag; any other result drives the handshake as the scripted run says |
| AppendJson.ReplaceChar | src/main/java/com/litongjava/tio/utils/AppendJsonConverter.java:71-77 | `String.replace` of a character that does not occur leaves the text as it is |
| AppendJson.ReplaceCharAppend | src/main/java/com/litongjava/tio/utils/AppendJsonConverter.java:71-77 | replacing a character distributes over concatenation, so each replacement works character by character |
| AppendJson.EscapeChar | src/main/java/com/litongjava/tio/utils/AppendJsonConverter.java:70-78 | one character escapes to itself or to a backslash and the letter that reads back as that character, and only the unchanged case has length 1 |
| AppendJson.EscapePlainChar | src/main/java/com/litongjava/tio/utils/AppendJsonConverter.java:70-78 | a character outside the seven special ones passes through all seven replacements unchanged |
| AppendJson.EscapeSpecialChar | src/main/java/com/litongjava/tio/utils/AppendJsonConverter.java:70-78 | each of the seven special characters comes out of the replacement chain as its two-character escape, not escaped twice although the backslash is replaced first |
| AppendJson.EscapeBackslash | src/main/java/com/litongjava/tio/utils/AppendJsonConverter.java:71 | a backslash becomes two backslashes |
| AppendJson.EscapeQuote | src/main/java/com/litongjava/tio/utils/AppendJsonConverter.java:72 | a double quote becomes backslash-quote |
| AppendJson.EscapeBackspace | src/main/java/com/litongjava/tio/utils/AppendJsonConverter.java:73 | a backspace becomes `\b` |
| AppendJson.EscapeFormFeed | src/main/java/com/litongjava/tio/utils/AppendJsonConverter.java:74 | a form feed becomes `\f` |
| AppendJson.EscapeNewline | src/main/java/com/litongjava/tio/utils/AppendJsonConverter.java:75 | a newline becomes `\n` |
| AppendJson.EscapeReturn | src/main/java/com/litongjava/tio/utils/AppendJsonConverter.java:76 | a carriage return becomes `\r` |
| AppendJson.EscapeTab | src/main/java/com/litongjava/tio/utils/AppendJsonConverter.java:77 | a tab becomes `\t` |
| AppendJson.EscapeOneChar | src/main/java/com/litongjava/tio/utils/AppendJsonConverter.java:70-78 | the whole chain on one character gives exactly that character's escape |
| AppendJson.EscapeJsonAppend | src/main/java/com/litongjava/tio/utils/AppendJsonConverter.java:70-78 | `escapeJson` of a concatenation is the concatenation of the escapes |
| AppendJson.EscapeJsonIsPerChar | src/main/java/com/litongjava/tio/utils/AppendJsonConverter.java:70-78 | `escapeJson` equals escaping each character on its own, in order |
| AppendJson.OtherCharsPassThrough | src/main/java/com/litongjava/tio/utils/AppendJsonConverter.java:70-78 | every character outside the seven, control characters included, is written as it is |
| AppendJson.Hex4 | src/main/java/com/litongjava/tio/utils/AppendJsonConverter.java:70-78 | four hex digits read as a UTF-16 code unit, below 0x10000 |
| AppendJson.ScanString | src/main/java/com/litongjava/tio/utils/AppendJsonConverter.java:70-78 | the JSON string reader used as the escaper's partner: what follows the closing quote is strictly shorter than the input |
| AppendJson.ScanEscaped | src/main/java/com/litongjava/tio/utils/AppendJsonConverter.java:70-78 | character-by-character escaped text followed by a quote reads back as the original text and the rest |
| AppendJson.EscapeJsonRoundTrip | src/main/java/com/litongjava/tio/utils/AppendJsonConverter.java:70-78 | `escapeJson` output followed by a closing quote reads back as the original string and whatever followed |
| AppendJson.EscapeJsonLeavesControlChar | src/main/java/com/litongjava/tio/utils/AppendJsonConverter.java:70-78 | the as-written escaper leaves U+0001 raw, and the result is not valid JSON string text |
| AppendJson.HexDigit | src/main/java/com/litongjava/tio/utils/AppendJsonConverter.java:70-78 | a hex digit character reads back as the value it was made from |
| AppendJson.UnicodeEscape | src/main/java/com/litongjava/tio/utils/AppendJsonConverter.java:70-78 | the `\u00XX` escape of a control character is six characters that read back as that character's code |
| AppendJson.EscapeStrictIsValid | src/main/java/com/litongjava/tio/utils/AppendJsonConverter.java:70-78 | the corrected escaper produces only text a JSON string may hold: no raw control character, quote or lone backslash |
| AppendJson.ScanCharStrict | src/main/java/com/litongjava/tio/utils/AppendJsonConverter.java:70-78 | one character escaped by the corrected escaper reads back as that character, whatever follows |
| AppendJson.ScanUnicode | src/main/java/com/litongjava/tio/utils/AppendJsonConverter.java:70-78 | a `\u00XX` escape of a control character reads back as that character, whatever follows |
| AppendJson.EscapeStrictRoundTrip | src/main/java/com/litongjava/tio/utils/AppendJsonConverter.java:70-78 | the corrected escaper's output followed by a closing quote reads back as the original string and the rest |
| AppendJson.LongTexts | src/main/java/com/litongjava/tio/utils/AppendJsonConverter.java:24 | one text per element, in order, each the decimal of the Long or "null" |
| AppendJson.JoinedStep | src/main/java/com/litongjava/tio/utils/AppendJsonConverter.java:23-28 | appending the separator before every element but the first and then the element extends the joined prefix by one |
| AppendJson.ConvertListLongToJson | src/main/java/com/litongjava/tio/utils/AppendJsonConverter.java:14-33 | `convertListLongToJson`: "[]" for a null or empty list, otherwise the elements' texts in list order separated by ", " in brackets |
| AppendJson.LongTextRoundTrip | src/main/java/com/litongjava/tio/utils/AppendJsonConverter.java:24 | an element's text reads back as that element (a number or null) and contains no comma |
| AppendJson.LongTextsRoundTrip | src/main/java/com/litongjava/tio/utils/AppendJsonConverter.java:23-28 | the element texts read back as the elements, and none contains a comma |
| AppendJson.LongsRoundTrip | src/main/java/com/litongjava/tio/utils/AppendJsonConverter.java:14-33 | the Long array text reads back as the list's elements in order; a null list reads back as an empty one |
| AppendJson.BracketedLongs | src/main/java/com/litongjava/tio/utils/AppendJsonConverter.java:19-30 | comma-free element texts in brackets, separated by ", ", read back as the texts parsed one by one |
| AppendJson.BracketedPieces | src/main/java/com/litongjava/tio/utils/AppendJsonConverter.java:19-30 | comma-free texts joined by ", " in brackets split back into those texts |
| AppendJson.Present | src/main/java/com/litongjava/tio/utils/AppendJsonConverter.java:51 | the elements of a collection, one per element, in order |
| AppendJson.QuotedAll | src/main/java/com/litongjava/tio/utils/AppendJsonConverter.java:55 | one text per element, in order: the element escaped by `escapeJson` as written, in quotes |
| AppendJson.ConvertCollectionStringToJson | src/main/java/com/litongjava/tio/utils/AppendJsonConverter.java:41-62 | `convertCollectionStringToJson`: "[]" for a null or empty collection; a null element throws; otherwise each element escaped by `escapeJson` as written and quoted, in iteration order, separated by ", " in brackets |
| AppendJson.PrefixStaysFree | src/main/java/com/litongjava/tio/utils/AppendJsonConverter.java:51-57 | the elements seen so far stay null-free when one more non-null element is seen |
| AppendJson.QuotedItem | src/main/java/com/litongjava/tio/utils/AppendJsonConverter.java:55 | an element quoted with the as-written `escapeJson` followed by anything reads back as that element, then the rest |
| AppendJson.ItemsRoundTrip | src/main/java/com/litongjava/tio/utils/AppendJsonConverter.java:50-59 | the quoted elements joined by ", " and closed by "]" read back as the elements |
| AppendJson.ItemsRoundTripMore | src/main/java/com/litongjava/tio/utils/AppendJsonConverter.java:50-59 | the same for two or more elements, one element at a time |
| AppendJson.QuotedAllTail | src/main/java/com/litongjava/tio/utils/AppendJsonConverter.java:55 | quoting the elements is done element by element from the head |
| AppendJson.JoinHead | src/main/java/com/litongjava/tio/utils/AppendJsonConverter.java:52-54 | the joined text is the first piece, the separator, then the rest joined |
| AppendJson.SeparatorAhead | src/main/java/com/litongjava/tio/utils/AppendJsonConverter.java:53 | a text starting with the separator gives the rest back once the separator is read |
| AppendJson.StringsRoundTrip | src/main/java/com/litongjava/tio/utils/AppendJsonConverter.java:41-62 | the String array text reads back as the collection's elements in order (none of them null); a null collection reads back as an empty one |
| AppendJson.PresentElements | src/main/java/com/litongjava/tio/utils/AppendJsonConverter.java:51 | in a null-free collection each element is the text it contributes |
| AppendJson.BracketedItems | src/main/java/com/litongjava/tio/utils/AppendJsonConverter.java:46-61 | a non-empty String array in brackets reads back as its elements |
| AppendJson.ConvertedControlCharIsRaw | src/main/java/com/litongjava/tio/utils/AppendJsonConverter.java:41-62 | the converter as written turns the one-element collection holding U+0001 into `["` U+0001 `"]` with the control character raw, which is not valid JSON string text |
| AppendJson.QuotedStrictReadsBack | src/main/java/com/litongjava/tio/utils/AppendJsonConverter.java:55 | quoting with the corrected escaper gives valid JSON string text between the quotes, and it reads back as the element and whatever followed |
| AppendJson.JoinFirst | src/main/java/com/litongjava/tio/utils/AppendJsonConverter.java:52-55 | the joined text is at least as long as its first piece |
| AppendJson.OpenBracket | src/main/java/com/litongjava/tio/utils/AppendJsonConverter.java:47 | reading an array past its opening bracket is reading its items |
| SetMaps.WithMember | src/main/java/com/litongjava/tio/core/maintain/Users.java:48-57 | binding under a key adds the key if it was missing and never leaves a key with an empty set |
| SetMaps.WithoutMember | src/main/java/com/litongjava/tio/core/maintain/Users.java:113-117 | unbinding removes no key other than this one, keeps every set non-empty, and keeps the key exactly when members other than the one removed remain |
| SetMaps.MembersAfterWith | src/main/java/com/litongjava/tio/core/maintain/Users.java:48-57 | after binding, the key's members are the old ones plus the new one, and every other key's members are unchanged |
| SetMaps.MembersAfterWithout | src/main/java/com/litongjava/tio/core/maintain/Users.java:107-117 | after unbinding, the key's members are the old ones minus the one removed, and every other key's members are unchanged |
| SetMaps.WithoutUndoesWith | src/main/java/com/litongjava/tio/core/maintain/Users.java:38-123 | binding a connection that was not bound under the key and then unbinding it gives back the original map |
| Users.Users.constructor | src/main/java/com/litongjava/tio/core/maintain/Users.java:30 | the user map starts empty |
| Users.Users.Bind | src/main/java/com/litongjava/tio/core/maintain/Users.java:38-62 | `bind` does nothing for a short connection or a blank id; otherwise the connection joins the id's set, created on first use, and its userId becomes the id; no bound id is blank and no set is empty |
| Users.Users.Find | src/main/java/com/litongjava/tio/core/maintain/Users.java:70-80 | `find` answers null for a short connection, a blank id or an unbound id, and otherwise the id's non-empty set |
| Users.Users.Unbind | src/main/java/com/litongjava/tio/core/maintain/Users.java:95-123 | `unbind` does nothing for a short connection, a blank userId or an id with no set; otherwise the connection leaves its id's set, the key goes when the set empties, and its userId is cleared |
| Users.Users.UnbindAll | src/main/java/com/litongjava/tio/core/maintain/Users.java:131-175 | `unbind(tioConfig, userid)` does nothing for a short connection, a blank or unbound id; otherwise every connection under the id has its userId cleared and the id's key is removed |
| Users.BindKeepsEarlierBinding | src/main/java/com/litongjava/tio/core/maintain/Users.java:38-62 | binding a connection under a second id leaves it in the first id's set as well: `bind` never unbinds |
| Tokens.Tokens.constructor | src/main/java/com/litongjava/tio/core/maintain/Tokens.java:25-30 | the token map starts empty |
| Tokens.Tokens.Bind | src/main/java/com/litongjava/tio/core/maintain/Tokens.java:44-80 | `bind` does nothing for a short connection or a blank token; otherwise the connection joins the token's set, created on first use, and its token becomes the given one |
| Tokens.Tokens.Find | src/main/java/com/litongjava/tio/core/maintain/Tokens.java:89-108 | `find` answers null for a short connection, a blank token or an unbound token, and otherwise the token's non-empty set |
| Tokens.Tokens.Unbind | src/main/java/com/litongjava/tio/core/maintain/Tokens.java:122-152 | `unbind` does nothing for a short connection, a blank token or a token with no set; otherwise the token is cleared, the connection leaves the set and the key goes when the set empties |
| Tokens.Tokens.UnbindAll | src/main/java/com/litongjava/tio/core/maintain/Tokens.java:160-195 | `unbind(tioConfig, token)` does nothing for a short connection, a blank or unbound token; otherwise every connection under the token has its token cleared and the key is removed |
| Tokens.BindKeepsEarlierBinding | src/main/java/com/litongjava/tio/core/maintain/Tokens.java:44-80 | binding a connection under a second token leaves it in the first token's set as well |
| Ips.Ips.constructor | src/main/java/com/litongjava/tio/core/maintain/Ips.java:20-30 | the ip map and the per-ip lock table start empty |
| Ips.Ips.Bind | src/main/java/com/litongjava/tio/core/maintain/Ips.java:36-72 | `bind` does nothing for null, a short connection, or an unknown or blank ip, and throws for a connection without a client node; otherwise the connection joins its ip's set, created on first use; an ip has a lock object exactly while it has a set |
| Ips.Ips.Clients | src/main/java/com/litongjava/tio/core/maintain/Ips.java:80-89 | `clients` answers null for a short connection, a blank ip or an ip with no connections, and otherwise the ip's non-empty set |
| Ips.Ips.Unbind | src/main/java/com/litongjava/tio/core/maintain/Ips.java:102-140 | `unbind` does nothing for null, a short connection, a missing client node, or a blank or unknown ip; otherwise the connection leaves its ip's set, and an emptied ip loses both its set and its lock object |
| ClientNodes.ClientNodes.constructor | src/main/java/com/litongjava/tio/core/maintain/ClientNodes.java:19-25 | the node map starts empty |
| ClientNodes.ClientNodes.GetKey | src/main/java/com/litongjava/tio/core/maintain/ClientNodes.java:31-34 | `getKey` is the connection's client node, and fails exactly when there is none |
| ClientNodes.ClientNodes.Find | src/main/java/com/litongjava/tio/core/maintain/ClientNodes.java:42-51 | `find(node)` answers the connection registered under the node, and null exactly when none is |
| ClientNodes.ClientNodes.FindAddress | src/main/java/com/litongjava/tio/core/maintain/ClientNodes.java:60-62 | `find(ip, port)` looks up the Node built from them, so a blank ip looks up 0.0.0.0 at that port |
| ClientNodes.ClientNodes.Put | src/main/java/com/litongjava/tio/core/maintain/ClientNodes.java:78-88 | `put` does nothing for a short connection or a missing client node; otherwise the node maps to this connection, replacing any earlier one |
| ClientNodes.ClientNodes.Remove | src/main/java/com/litongjava/tio/core/maintain/ClientNodes.java:95-105 | `remove` does nothing for a short connection or a missing client node; otherwise the node's entry goes, whichever connection it held |
| ClientNodes.RemoveUndoesPut | src/main/java/com/litongjava/tio/core/maintain/ClientNodes.java:78-105 | putting a node that was not registered and then removing it gives back the original map |
| Nodes.NewNode | src/main/java/com/litongjava/tio/core/Node.java:17-25 | a node's host is never blank; a blank or missing ip becomes 0.0.0.0, any other ip and the port are kept as given |
| Nodes.EqualsIsValueEquality | src/main/java/com/litongjava/tio/core/Node.java:41-48 | `equals` is false against null and otherwise holds exactly when host and port agree, i.e. it is value equality |
| Nodes.HashAgreesWithEquals | src/main/java/com/litongjava/tio/core/Node.java:58-61 | two nodes that are `equals` have the same `hashCode` |
| Nodes.RenderInjective | src/main/java/com/litongjava/tio/core/Node.java:71-76 | `toString` (host, colon, decimal port) never gives two different nodes the same text, even when the host itself holds colons |
| Nodes.LastColon | src/main/java/com/litongjava/tio/core/Node.java:71-76 | in the rendering the colon written before the port is the last colon of the text |
| Nodes.CompareToZeroIffEqual | src/main/java/com/litongjava/tio/core/Node.java:27-39 | `compareTo` answers 0 against a node exactly when the two are `equals` |
| Nodes.CompareToAntisymmetric | src/main/java/com/litongjava/tio/core/Node.java:27-39 | `a.compareTo(b)` is the negation of `b.compareTo(a)` |
| Nodes.BlankIpRendering | src/main/java/com/litongjava/tio/core/Node.java:17-25 | a node built from a blank ip renders as `0.0.0.0:` followed by the port |
| BufferPool.AlignedSize | src/main/java/com/litongjava/tio/core/pool/BufferPoolUtils.java:132-142 | the aligned allocators refuse a non-positive size or chunk size with "invalid size or chunkSize"; otherwise they ask for the size rounded up to a multiple of the chunk size, less than one chunk above it, the size itself when already aligned, and refuse with "aligned size too large" only beyond the int range |
| BufferPool.RoundUp | src/main/java/com/litongjava/tio/core/pool/BufferPoolUtils.java:136-137 | the rounded size is a multiple of the chunk size, at least the size and less than one chunk above it |
| BufferPool.AlignedSizeIsLeast | src/main/java/com/litongjava/tio/core/pool/BufferPoolUtils.java:136-141 | the aligned size is the least multiple of the chunk size that holds the request |
| BufferPool.AlignedRefusalIsForced | src/main/java/com/litongjava/tio/core/pool/BufferPoolUtils.java:138-140 | a refusal for size is forced: every multiple of the chunk size that holds the request exceeds the int range |
| BufferPool.Directs | src/main/java/com/litongjava/tio/core/pool/BufferPoolUtils.java:56-66 | the buffers that need an explicit free are exactly the direct ones |
| BufferPool.DirectsAppend | src/main/java/com/litongjava/tio/core/pool/BufferPoolUtils.java:56-66 | the direct buffers of a joined queue are those of each part, in order |
| BufferPool.Pool.constructor | src/main/java/com/litongjava/tio/core/pool/BufferPoolUtils.java:16-25 | a new pool is idle, with an empty queue, nothing freed and zero counters |
| BufferPool.Pool.Clean0 | src/main/java/com/litongjava/tio/core/pool/BufferPoolUtils.java:57-66 | a direct buffer is freed; a heap buffer is left to the collector |
| BufferPool.Pool.Allocate | src/main/java/com/litongjava/tio/core/pool/BufferPoolUtils.java:147-172 | `allocate`: a non-positive size is refused with "size must be > 0" before anything changes; otherwise the pool turns busy, the head of the queue is taken, and the result has the requested capacity with position 0 and limit at capacity; it is the head itself when capacity and kind match (a reuse hit), and otherwise a new buffer of the pool's kind after the head, if any, is destroyed (a new allocation); exactly one of the two counters rises |
| BufferPool.Pool.AllocateAligned | src/main/java/com/litongjava/tio/core/pool/BufferPoolUtils.java:132-142 | the aligned `allocate` refuses as the aligned size does, changing nothing, and otherwise hands back a buffer whose capacity is that aligned size |
| BufferPool.Pool.AllocateFromPages | src/main/java/com/litongjava/tio/core/pool/BufferPoolUtils.java:97-120 | `allocateRequest` and `allocateResponse` with a chunk size ask the page pool for the aligned size, and ask nothing when it is refused |
| BufferPool.Pool.Clean | src/main/java/com/litongjava/tio/core/pool/BufferPoolUtils.java:177-182 | `clean`: a returned buffer joins the tail of the queue; a null one is ignored |
| BufferPool.Pool.TryClean | src/main/java/com/litongjava/tio/core/pool/BufferPoolUtils.java:42-54 | `tryClean`: after a period with an allocation it only marks the pool idle; after an idle period it destroys the first ten queued buffers, or all of them when fewer, in order |
| BufferPool.Pool.Release | src/main/java/com/litongjava/tio/core/pool/BufferPoolUtils.java:69-74 | `release`: every queued buffer is destroyed, in order, and the queue is empty |
| PoolMetrics.AvgNs | src/main/java/com/litongjava/tio/core/pool/ByteBufferPoolMetricsSnapshot.java:39-40 | the average per operation is 0 without operations, the total itself for a negative count, and otherwise the total divided by the count truncated toward zero |
| PoolMetrics.DivBounds | src/main/java/com/litongjava/tio/core/pool/ByteBufferPoolMetricsSnapshot.java:39-40 | the quotient of a non-negative total by a positive count brackets the total |
| PoolMetrics.Render | src/main/java/com/litongjava/tio/core/pool/ByteBufferPoolMetricsSnapshot.java:41-46 | one `name=value` piece per reported pair |
| PoolMetrics.ToString | src/main/java/com/litongjava/tio/core/pool/ByteBufferPoolMetricsSnapshot.java:37-47 | `toString`: the report is never empty |
| PoolMetrics.NoSeparatorInNumber | src/main/java/com/litongjava/tio/core/pool/ByteBufferPoolMetricsSnapshot.java:41-46 | a rendered number holds neither ',' nor '=' |
| PoolMetrics.EntryRoundTrip | src/main/java/com/litongjava/tio/core/pool/ByteBufferPoolMetricsSnapshot.java:41-46 | a `name=value` piece with a plain name reads back as that name and value and holds no ',' |
| PoolMetrics.SplitEntry | src/main/java/com/litongjava/tio/core/pool/ByteBufferPoolMetricsSnapshot.java:41-46 | a `name=value` piece splits at '=' into its two halves |
| PoolMetrics.RenderRoundTrip | src/main/java/com/litongjava/tio/core/pool/ByteBufferPoolMetricsSnapshot.java:41-46 | rendered pairs with plain names read back as themselves |
| PoolMetrics.ReportRoundTrip | src/main/java/com/litongjava/tio/core/pool/ByteBufferPoolMetricsSnapshot.java:37-47 | the report reads back as exactly the reported pairs: every counter under its own name, in declaration order, with the two averages in place of the time totals |
| PoolMetrics.ReportedNamesPlain | src/main/java/com/litongjava/tio/core/pool/ByteBufferPoolMetricsSnapshot.java:41-46 | no reported name holds ',' or '=' |
| PoolMetrics.JoinedRoundTrip | src/main/java/com/litongjava/tio/core/pool/ByteBufferPoolMetricsSnapshot.java:41-46 | any non-empty list of pairs with plain names, rendered and joined by ", ", reads back as itself |
| PoolMetrics.CommaPieces | src/main/java/com/litongjava/tio/core/pool/ByteBufferPoolMetricsSnapshot.java:41-46 | pieces free of ',' joined by ", " split at ',' into the first piece and the others, each after one space |
| PoolMetrics.ParseReportOf | src/main/java/com/litongjava/tio/core/pool/ByteBufferPoolMetricsSnapshot.java:41-46 | a report whose pieces are a first entry and space-led others parses to those entries |
| ProxyHandshake.ReadStep | src/main/java/com/litongjava/tio/proxy/ProxyHandshake.java:35 | one read delivers at most the buffer's room, -1 exactly when the stream is over, and what it delivers plus what is left is the whole remaining stream |
| ProxyHandshake.Channel.constructor | src/main/java/com/litongjava/tio/proxy/ProxyHandshake.java:14 | a socket with nothing written and the given script of reads and write capacities |
| ProxyHandshake.Channel.Read | src/main/java/com/litongjava/tio/proxy/ProxyHandshake.java:35 | a read takes the next delivery off the stream and leaves the rest for later reads |
| ProxyHandshake.Channel.Write | src/main/java/com/litongjava/tio/proxy/ProxyHandshake.java:120 | a write sends a prefix of the buffer, as much as the socket accepts, appended to what was written before |
| ProxyHandshake.WriteFully | src/main/java/com/litongjava/tio/proxy/ProxyHandshake.java:118-122 | `writeFully`: after the loop the whole buffer has been written, in order, after what was written before |
| ProxyHandshake.ReadFully | src/main/java/com/litongjava/tio/proxy/ProxyHandshake.java:124-131 | `readFully`: when the stream holds enough bytes it yields exactly the next `size` bytes and leaves the rest; otherwise it fails with the stream used up |
| ProxyHandshake.Latin1Encode | src/main/java/com/litongjava/tio/proxy/ProxyHandshake.java:28 | ISO-8859-1 encoding keeps one byte per character |
| ProxyHandshake.Latin1Decode | src/main/java/com/litongjava/tio/proxy/ProxyHandshake.java:41 | ISO-8859-1 decoding gives one character per byte |
| ProxyHandshake.Latin1RoundTrip | src/main/java/com/litongjava/tio/proxy/ProxyHandshake.java:11 | decoding an encoded text gives it back exactly when every character is in ISO-8859-1 |
| ProxyHandshake.Latin1DecodeAppend | src/main/java/com/litongjava/tio/proxy/ProxyHandshake.java:41 | decoding the reads one by one equals decoding everything read |
| ProxyHandshake.Utf8Char | src/main/java/com/litongjava/tio/proxy/ProxyHandshake.java:23 | a character encodes to one to four bytes, and to its own single byte exactly when it is ASCII |
| ProxyHandshake.Utf8 | src/main/java/com/litongjava/tio/proxy/ProxyHandshake.java:23 | a text's UTF-8 bytes number between one and four per character |
| ProxyHandshake.Base64Digit | src/main/java/com/litongjava/tio/proxy/ProxyHandshake.java:23 | every 6-bit value maps to a Base64 alphabet character other than the padding |
| ProxyHandshake.Quad | src/main/java/com/litongjava/tio/proxy/ProxyHandshake.java:23 | three bytes become four alphabet characters |
| ProxyHandshake.Base64 | src/main/java/com/litongjava/tio/proxy/ProxyHandshake.java:23 | the encoded token has four characters per started group of three bytes |
| ProxyHandshake.FirstLineEnd | src/main/java/com/litongjava/tio/proxy/ProxyHandshake.java:18-26 | the first CRLF of a header block is right after a first line that holds no CR |
| ProxyHandshake.BlockReadsBack | src/main/java/com/litongjava/tio/proxy/ProxyHandshake.java:17-26 | lines without CR, each ended by CRLF and followed by a blank line, read back as those lines |
| ProxyHandshake.Base64Alphabetic | src/main/java/com/litongjava/tio/proxy/ProxyHandshake.java:23 | every character of the token is from the Base64 alphabet |
| ProxyHandshake.Base64HasNoReturn | src/main/java/com/litongjava/tio/proxy/ProxyHandshake.java:23-24 | the token holds no CR, so it cannot break the header line |
| ProxyHandshake.NoReturnInNumber | src/main/java/com/litongjava/tio/proxy/ProxyHandshake.java:18-19 | the port's decimal holds no CR |
| ProxyHandshake.RequestReadsBack | src/main/java/com/litongjava/tio/proxy/ProxyHandshake.java:14-28 | the CONNECT request reads back as its header lines, four of them exactly when both user and password are given |
| ProxyHandshake.HeaderVerdict | src/main/java/com/litongjava/tio/proxy/ProxyHandshake.java:48-58 | no verdict exactly while the response holds no blank line; once it does, the header before it decides |
| ProxyHandshake.IndexOfStays | src/main/java/com/litongjava/tio/proxy/ProxyHandshake.java:49 | more text after a match does not move the first match |
| ProxyHandshake.HeaderVerdictStays | src/main/java/com/litongjava/tio/proxy/ProxyHandshake.java:48-58 | once the blank line has arrived, further bytes do not change the verdict |
| ProxyHandshake.HttpLoopAgrees | src/main/java/com/litongjava/tio/proxy/ProxyHandshake.java:34-60 | the read loop's verdict, other than no response or too large, is the verdict of the whole stream; it gives up for size only when the stream is over 64 KiB |
| ProxyHandshake.HttpLoopComplete | src/main/java/com/litongjava/tio/proxy/ProxyHandshake.java:34-60 | when every read delivers and the whole header fits in 64 KiB, the loop reaches the whole stream's verdict |
| ProxyHandshake.NothingMore | src/main/java/com/litongjava/tio/proxy/ProxyHandshake.java:41 | an exhausted stream adds nothing to the response |
| ProxyHandshake.HttpMessagesDiffer | src/main/java/com/litongjava/tio/proxy/ProxyHandshake.java:37-56 | the three failures of the HTTP exchange carry distinct messages |
| ProxyHandshake.RestDelivers | src/main/java/com/litongjava/tio/proxy/ProxyHandshake.java:35-36 | a read from a stream of non-empty deliveries gets bytes and leaves such a stream |
| ProxyHandshake.HttpConnect | src/main/java/com/litongjava/tio/proxy/ProxyHandshake.java:14-61 | `httpConnect`: exactly the ISO-8859-1 request is written, and the outcome is the read loop's on the stream as it was |
| ProxyHandshake.BuildConnectRequest | src/main/java/com/litongjava/tio/proxy/ProxyHandshake.java:17-26 | the request built line by line is the request line, Host, Proxy-Connection, the Basic credentials when both user and password are given, and a blank line |
| ProxyHandshake.AppendLine | src/main/java/com/litongjava/tio/proxy/ProxyHandshake.java:17-26 | appending one line and CRLF keeps the built text a prefix of the whole block |
| ProxyHandshake.LineAdded | src/main/java/com/litongjava/tio/proxy/ProxyHandshake.java:17-26 | the block is the built prefix, the next line and CRLF, then the rest of the block |
| ProxyHandshake.Regrouped | src/main/java/com/litongjava/tio/proxy/ProxyHandshake.java:17-26 | appends regroup freely |
| ProxyHandshake.BlockHead | src/main/java/com/litongjava/tio/proxy/ProxyHandshake.java:17-26 | a block from line k is that line, CRLF, and the block from line k + 1 |
| ProxyHandshake.Socks5Request | src/main/java/com/litongjava/tio/proxy/ProxyHandshake.java:77-86 | the request is seven bytes plus the host's UTF-8 bytes |
| ProxyHandshake.Socks5RequestRoundTrip | src/main/java/com/litongjava/tio/proxy/ProxyHandshake.java:77-86 | the request reads back as the host bytes and the port modulo 65536 when the host fits the length byte, and is unreadable otherwise |
| ProxyHandshake.DomainRequestReadsBack | src/main/java/com/litongjava/tio/proxy/ProxyHandshake.java:78-85 | the head, host and port bytes read back as host and port exactly when the host is under 256 bytes |
| ProxyHandshake.BuildSocks5Request | src/main/java/com/litongjava/tio/proxy/ProxyHandshake.java:77-86 | the request put into its buffer byte by byte is the request |
| ProxyHandshake.Assembled | src/main/java/com/litongjava/tio/proxy/ProxyHandshake.java:78-85 | a buffer filled as head, host and tail is their concatenation |
| ProxyHandshake.Socks5VerdictStays | src/main/java/com/litongjava/tio/proxy/ProxyHandshake.java:63-116 | bytes after a successful reply change neither the outcome nor how many bytes the handshake takes |
| ProxyHandshake.Socks5Connect | src/main/java/com/litongjava/tio/proxy/ProxyHandshake.java:63-116 | `socks5Connect`: the outcome is the verdict on the stream as it was; the greeting is written, then the request only when the method was accepted; a success takes exactly the reply bytes |
| ProxyHandshake.ReadConnectReply | src/main/java/com/litongjava/tio/proxy/ProxyHandshake.java:89-115 | the reply half: outcome as the reply verdict, and a success takes exactly the reply's length |
| ReadCompletionHandler.NegativeRemark | src/main/java/com/litongjava/tio/core/ReadCompletionHandler.java:134 | the remark of a close after a count below -1 starts with "read result" and goes on with the count |
| ReadCompletionHandler.CodeForCount | src/main/java/com/litongjava/tio/core/ReadCompletionHandler.java:46-140 | a read count ends the connection exactly when it is not positive: 0 with READ_COUNT_IS_ZERO, -1 with CLOSED_BY_PEER, anything lower with READ_COUNT_IS_NEGATIVE |
| ReadCompletionHandler.ReadCompletionHandler.constructor | src/main/java/com/litongjava/tio/core/ReadCompletionHandler.java:38-41 | a new handler owns a fresh decoder with no leftover bytes |
| ReadCompletionHandler.ReadCompletionHandler.Completed | src/main/java/com/litongjava/tio/core/ReadCompletionHandler.java:43-141 | `completed`: a positive count is counted and consumed, and the buffer goes to the next read exactly when the connection is still live afterwards, reused when its capacity is the connection's read size, else released; a count of 0 or -1 leaves the byte counter alone, closes the connection with that count's code and releases the buffer; a lower count closes it and leaves the buffer unreleased |
| ReadCompletionHandler.ReadCompletionHandler.OnData | src/main/java/com/litongjava/tio/core/ReadCompletionHandler.java:46-106 | a positive count: the buffer goes to the next read exactly when the connection is still live, with the same reuse rule, and is released otherwise |
| ReadCompletionHandler.ReadCompletionHandler.OnBadCount | src/main/java/com/litongjava/tio/core/ReadCompletionHandler.java:108-140 | a count of 0, -1 or lower closes the connection with that count's code; the buffer is released for 0 and -1 and not for lower counts |
| ReadCompletionHandler.ReadCompletionHandler.CountReceived | src/main/java/com/litongjava/tio/core/ReadCompletionHandler.java:47-77 | with statistics on, the connection's and the group's received bytes rise by the count and their read counts by one; the time of the last byte is now, and the listener hears of the bytes |
| ReadCompletionHandler.ReadCompletionHandler.Consume | src/main/java/com/litongjava/tio/core/ReadCompletionHandler.java:79-100 | a plain connection's decoder keeps what a run of the decoder over its leftover and the new bytes leaves; a TLS connection whose bytes fail to decrypt is closed with SSL_DECRYPT_ERROR, carrying the decrypt exception and its text as the remark |
| ReadCompletionHandler.ReadCompletionHandler.Rearm | src/main/java/com/litongjava/tio/core/ReadCompletionHandler.java:102-106 | the next read is issued exactly when the guard before I/O allows it, with a buffer of the connection's read size, reused when the old one has that capacity; the connection is live afterwards exactly when the read was issued; otherwise the buffer is released |
| ReadCompletionHandler.ReadCompletionHandler.Failed | src/main/java/com/litongjava/tio/core/ReadCompletionHandler.java:162-171 | `failed`: the connection is closed with READ_ERROR, the exception and a remark naming its class; the buffer is released only when the channel was already closed |
| SendPacketTask.GetByteBuffer | src/main/java/com/litongjava/tio/core/task/SendPacketTask.java:74-89 | the bytes to write are the packet's pre-encoded buffer when it has one, else the codec's encoding; a buffer with its position at its limit was filled and not flipped, and what is written of it is everything put into it |
| SendPacketTask.WireBytes | src/main/java/com/litongjava/tio/core/task/SendPacketTask.java:101-114 | without TLS, or when the deciding packet is already encrypted, the plaintext goes out unchanged; otherwise its encryption, record by record, and nothing when the engine fails |
| SendPacketTask.HeaderPacket | src/main/java/com/litongjava/tio/core/task/SendPacketTask.java:116-131 | while a file body follows on the enhanced server channel, the header write is marked to keep the connection; otherwise the packet is written as it is |
| SendPacketTask.SendByteBuffer | src/main/java/com/litongjava/tio/core/task/SendPacketTask.java:198-218 | a write is issued, carrying the packet as its attachment, exactly when the guard before I/O lets it; otherwise nothing is written |
| SendPacketTask.SendPacket | src/main/java/com/litongjava/tio/core/task/SendPacketTask.java:91-138 | `sendPacket`: the packet always joins the tail of the queue and at most one write is ever in flight, held under the sending flag; a caller that finds the flag taken leaves everything else alone and reports true; the caller that takes it polls the head and writes its bytes; when encryption fails no write is issued, false is reported, the flag stays held and the close carries SSL_ENCRYPTION_ERROR |
| SendPacketTask.SendHead | src/main/java/com/litongjava/tio/core/task/SendPacketTask.java:99-131 | after the head is polled: true exactly when its bytes could be produced; then the write is issued as the guard allows and a file body on the enhanced channel is streamed after the header |
| SendPacketTask.Encode | src/main/java/com/litongjava/tio/core/task/SendPacketTask.java:101-114 | the bytes produced are the wire bytes of the head; a successful encoding leaves the connection's flags and channel alone, a failed one closes the connection with SSL_ENCRYPTION_ERROR |
| SendPacketTask.WriteHead | src/main/java/com/litongjava/tio/core/task/SendPacketTask.java:116-131 | the header goes out as the only write in flight, when the guard allows it, and a file body on the enhanced channel is recorded as streamed |
| SendPacketTask.QueuedBytes | src/main/java/com/litongjava/tio/core/task/SendPacketTask.java:225-238 | the queue drain writes the encryption when it succeeds and falls back to the plaintext when it fails |
| SendPacketTask.ProcessSendQueue | src/main/java/com/litongjava/tio/core/task/SendPacketTask.java:220-243 | `processSendQueue`: when the flag is already held, or the queue is empty, the queue and the writer are left alone (an empty queue releases a flag it took); otherwise the head leaves the queue, in order, and its bytes are written as the only write in flight; single flight and FIFO order are kept |
| SendPacketTask.SendPolled | src/main/java/com/litongjava/tio/core/task/SendPacketTask.java:224-238 | the polled head's bytes are written when the guard allows it, even after a failed encryption |
| ServerTioConfig.IdleInterval | src/main/java/com/litongjava/tio/server/ServerTioConfig.java:223-225 | the idle interval is the time since the later of the last received byte and the last sent packet: no longer than the time since either |
| ServerTioConfig.TimeoutOf | src/main/java/com/litongjava/tio/server/ServerTioConfig.java:228-232 | the connection's own timeout applies when it is set and positive, the config's otherwise |
| ServerTioConfig.RecentTrafficKeepsAlive | src/main/java/com/litongjava/tio/server/ServerTioConfig.java:223-232 | traffic in either direction within the applicable timeout keeps a connection from timing out |
| ServerTioConfig.TimedOutStays | src/main/java/com/litongjava/tio/server/ServerTioConfig.java:223-232 | a connection that has timed out stays timed out as time goes on without traffic |
| ServerTioConfig.ServerTioConfig.constructor | src/main/java/com/litongjava/tio/server/ServerTioConfig.java:44-53 | a new server config wants the heartbeat check, is not shared and has not started a checker |
| ServerTioConfig.ServerTioConfig.Share | src/main/java/com/litongjava/tio/server/ServerTioConfig.java:138-167 | `share` with itself changes nothing; otherwise this config takes the other's nine registries, both become shared, and of two configs that both wanted the heartbeat check at least one still does, exactly one when neither was shared before |
| ServerTioConfig.ServerTioConfig.TakeRegistries | src/main/java/com/litongjava/tio/server/ServerTioConfig.java:143-151 | afterwards this config's registries are the other's |
| ServerTioConfig.ServerTioConfig.SettleHeartbeat | src/main/java/com/litongjava/tio/server/ServerTioConfig.java:153-165 | both configs end shared; this one keeps checking only when it was shared already, the other stops only when this one was shared and it was not |
| ServerTioConfig.ServerTioConfig.Init | src/main/java/com/litongjava/tio/server/ServerTioConfig.java:181-192 | the heartbeat checker starts exactly when the check is wanted and the timeout is positive |
| ServerTioConfig.ServerTioConfig.CheckConnection | src/main/java/com/litongjava/tio/server/ServerTioConfig.java:222-241 | one connection in one round of the check: it times out exactly when its idle interval exceeds the applicable timeout; one that did not is left alone; one that did has its timeout count raised and, unless the listener keeps it, gets HEARTBEAT_TIMEOUT and is removed with the idle remark |
| ServerTioConfig.ServerTioConfig.RemoveIdle | src/main/java/com/litongjava/tio/server/ServerTioConfig.java:238-239 | the connection gets HEARTBEAT_TIMEOUT and, under the close lock, a removal carrying the idle remark |
| SslFacade.IsHandshakeCompleted | src/main/java/com/litongjava/tio/core/ssl/facade/SSLFacade.java:72-75 | the handshake counts as complete exactly when there is no handshaker or the handshaker has finished |
| SslFacade.SetHandshakeCompletedListener | src/main/java/com/litongjava/tio/core/ssl/facade/SSLFacade.java:51-55 | the listener is stored and a relay for it is attached to the handshaker, which keeps its state and trace |
| SslFacade.Chunks | src/main/java/com/litongjava/tio/core/ssl/facade/SSLFacade.java:82 | the plaintext is cut into at least one piece, the pieces concatenate back to it, none exceeds 8 KiB, every piece but the last is exactly 8 KiB, and non-empty input gives no empty piece |
| SslFacade.ChunksCount | src/main/java/com/litongjava/tio/core/ssl/facade/SSLFacade.java:82 | input up to 8 KiB gives one piece; longer input gives its length over 8 KiB rounded up |
| SslFacade.FlattenAppend | src/main/java/com/litongjava/tio/core/ssl/facade/SSLFacade.java:99-104 | concatenating pieces distributes over joining the lists of pieces |
| SslFacade.WrapAll | src/main/java/com/litongjava/tio/core/ssl/facade/SSLFacade.java:84-105 | the encryption fails exactly when the engine fails on some piece |
| SslFacade.Encrypt | src/main/java/com/litongjava/tio/core/ssl/facade/SSLFacade.java:77-106 | `encrypt`: the result is the pieces' ciphertexts wrapped in order and concatenated, or a failure when any piece fails |
| SslFacade.WrapPieces | src/main/java/com/litongjava/tio/core/ssl/facade/SSLFacade.java:87-97 | the first loop: it succeeds exactly when every piece wraps, each slot holds its piece's ciphertext, and the summed length is the length of their concatenation |
| SslFacade.Concat | src/main/java/com/litongjava/tio/core/ssl/facade/SSLFacade.java:99-103 | the second loop copies the ciphertexts into one buffer, in order |
| SslFacade.WrapAllIsFlatten | src/main/java/com/litongjava/tio/core/ssl/facade/SSLFacade.java:87-104 | when every piece wraps, the result is the concatenation of the ciphertexts |
| SslFacade.EncryptIdentity | src/main/java/com/litongjava/tio/core/ssl/facade/SSLFacade.java:77-106 | with a pass-through engine the output is the plaintext, however it was cut |
| SslFacade.EncryptLength | src/main/java/com/litongjava/tio/core/ssl/facade/SSLFacade.java:77-106 | with an engine that adds a fixed overhead per record, the output is the input's length plus one overhead per 8 KiB piece |
| SslFacade.LooksLikeHostname | src/main/java/com/litongjava/tio/core/ssl/facade/SSLFacade.java:210-230 | `looksLikeHostname`: true exactly when the trimmed host is not "localhost" in any letter case, has an ASCII letter and has a dot; a missing or blank host is refused |
| SslFacade.DotSearch | src/main/java/com/litongjava/tio/core/ssl/facade/SSLFacade.java:229 | the search for a dot finds one exactly when the host has one |
| SslFacade.HostnameLikeExamples | src/main/java/com/litongjava/tio/core/ssl/facade/SSLFacade.java:216-229 | "127.0.0.1", "LocalHost" and "example" are not host names; "example.com" is |
| SslFacade.ParseJavaInt | src/main/java/com/litongjava/tio/core/ssl/facade/SSLFacade.java:161 | `Integer.parseInt`: an accepted string gives a 32-bit value; an empty string or a bare sign is refused |
| SslFacade.ParseRendered | src/main/java/com/litongjava/tio/core/ssl/facade/SSLFacade.java:159-163 | every 32-bit value, written in decimal, parses back to itself |
| SslFacade.HostOf | src/main/java/com/litongjava/tio/core/ssl/facade/SSLFacade.java:154-156 | the peer host is taken from the attribute exactly when it is a String |
| SslFacade.PortOf | src/main/java/com/litongjava/tio/core/ssl/facade/SSLFacade.java:157-164 | an Integer port attribute is taken as it is, a String one is parsed, and a missing, other or unparsable one gives -1 |
| SslFacade.PeerSelection | src/main/java/com/litongjava/tio/core/ssl/facade/SSLFacade.java:150-178 | an explicit host with a positive port wins; when the host is missing or the port is not positive, the server node, if there is one, supplies both |
| SslFacade.StringPortActsAsInt | src/main/java/com/litongjava/tio/core/ssl/facade/SSLFacade.java:157-164 | a port attribute written as a decimal String selects the same port as the Integer |
| SslFacade.MakeEngine | src/main/java/com/litongjava/tio/core/ssl/facade/SSLFacade.java:143-208 | a client engine is created for the selected peer exactly when it has a host and a positive port, and checks the endpoint's identity exactly when the host looks like a host name; a server engine has no peer and applies the client-authentication setting |
| SslListener.HandshakeRecordIsPlain | src/main/java/com/litongjava/tio/core/ssl/SslListener.java:35-41 | a packet built from handshake ciphertext is marked encrypted, so a send it decides writes plaintext; when the ciphertext buffer has bytes remaining, exactly those bytes go out |
| SslListener.OnWrappedData | src/main/java/com/litongjava/tio/core/ssl/SslListener.java:30-45 | `onWrappedData`: ciphertext that belongs to a packet leaves the queue and the writer alone; ciphertext without one is queued as a handshake record, and the head it sends is written without encryption; single flight and FIFO order are kept |
| SslListener.OnPlainData | src/main/java/com/litongjava/tio/core/ssl/SslListener.java:47-64 | `onPlainData`: before the handshake completes the bytes are dropped and nothing changes; after it they are decoded as a run of the decoder over the kept leftover followed by the new bytes, and the new leftover is what that run leaves |
| SslHandshakeCompleted.PendingQueue.constructor | src/main/java/com/litongjava/tio/core/task/AfterSslHandshakeCompleted.java:14 | a new pending queue is empty |
| SslHandshakeCompleted.AfterSslHandshakeCompleted.constructor | src/main/java/com/litongjava/tio/core/task/AfterSslHandshakeCompleted.java:9 | a new holder has no queue |
| SslHandshakeCompleted.AfterSslHandshakeCompleted.GetForSend | src/main/java/com/litongjava/tio/core/task/AfterSslHandshakeCompleted.java:10-20 | once the queue exists it is returned whatever is asked; before that, a call that asks creates it empty and a call that does not returns none |
| SslHandshakeCompleted.OnComplete | src/main/java/com/litongjava/tio/core/ssl/SslHandshakeCompletedListener.java:30-57 | `onComplete`: the connection's handshake-completed flag is set and the listener hears that the connection is up; it changes nothing else, so no held-back packet is sent |
| SslHandshakeCompleted.Drain | src/main/java/com/litongjava/tio/core/ssl/SslHandshakeCompletedListener.java:48-56 | the drain loop empties the queue and offers its packets to the connection's send queue in the order they were held back, keeping single flight and FIFO order |
| TioSend.SendGate | src/main/java/com/litongjava/tio/core/Tio.java:1037-1069 | the guards of `send` in order: a packet reaches the queue exactly when packet and connection are present, the connection is neither virtual nor closed nor removed, and the converter (if any), given the packet and the connection, keeps the packet, in which case the converted packet is queued; a virtual connection and a dead one are told apart |
| TioSend.EarlyAnswer | src/main/java/com/litongjava/tio/core/Tio.java:1037-1069 | an exit before the queue answers true exactly at a virtual connection and at the converter's drop |
| TioSend.EarlyExitsCountDown | src/main/java/com/litongjava/tio/core/Tio.java:1037-1069 | every exit before the queue counts the caller's latch down except the converter's drop, and among those only the virtual connection answers true |
| TioSend.DeadConnectionRefuses | src/main/java/com/litongjava/tio/core/Tio.java:1050-1058 | a closed or removed connection that is not virtual refuses the packet, answering false and counting the latch down |
| TioSend.LatchAfter | src/main/java/com/litongjava/tio/core/Tio.java:1038-1083 | a count-down lowers a positive latch count by one; no count-down leaves it |
| TioSend.Send | src/main/java/com/litongjava/tio/core/Tio.java:1037-1085 | `send` answers the early answer at each guard and the send task's answer for a queued packet; the latch is counted down at every refusal but the converter's drop; an early exit leaves the queue alone, and a queued packet is appended once, carrying a fresh meta with the latch when there is one; a packet offered while a write is in flight is accepted, and on a free connection the answer is true exactly when the wire bytes of the queue's head could be produced |
| TioSend.Queue | src/main/java/com/litongjava/tio/core/Tio.java:1070-1085 | the packet, tagged with a new meta holding the latch when there is one, is offered to the connection's queue once; a refusal by the send task counts the latch down; on a free connection the answer is true exactly when the wire bytes of the queue's head could be produced |
| TioSend.Targets | src/main/java/com/litongjava/tio/core/Tio.java:1368-1377 | the members `sendToSet` sends to are those the filter passes, all of them without a filter |
| TioSend.BlockTimeout | src/main/java/com/litongjava/tio/core/Tio.java:1395-1396 | a blocking group send waits sendCount / 5 seconds, and at least 10 |
| TioSend.BlockTimeoutScales | src/main/java/com/litongjava/tio/core/Tio.java:1395-1396 | from 50 targets on, the wait is one second per five targets, rounded down |
| TioSend.FanOut | src/main/java/com/litongjava/tio/core/Tio.java:1363-1385 | the loop of `sendToSet` sends to every target once, so sendCount is the number of targets; every member's queue ends with exactly what its gate lets through: a target the guards let pass received the (converted) packet once, tagged with the latch when there is one, and a member held back or stopped at a guard kept its queue; every target whose send answered false counted the latch down, one that answered true did so only on a virtual connection, and the latch ends lowered by one per member held back by the filter plus one per such count-down |
| TioSend.TallyDone | src/main/java/com/litongjava/tio/core/Tio.java:1368-1385 | once every member is visited, the sends made are exactly the targets, and the count-downs are the held-back members plus the refused sends |
| TioSend.Visit | src/main/java/com/litongjava/tio/core/Tio.java:1368-1384 | one turn of the loop: a member the filter holds back counts the latch down and its queue is left alone; any other gets what its gate lets through, while every other member's queue stays as it was; the bookkeeping of the loop is kept |
| TioSend.FanSend | src/main/java/com/litongjava/tio/core/Tio.java:1379-1384 | a send of the fan-out to a member the filter lets through: the member joins the visited ones with its queue holding what its gate lets through, and every other member's queue is as it was |
| TioSend.HoldBack | src/main/java/com/litongjava/tio/core/Tio.java:1369-1376 | a member held back by the filter counts the latch down and touches no queue |
| TioSend.SendMember | src/main/java/com/litongjava/tio/core/Tio.java:1379-1384 | one send of the fan-out: the member's queue receives what its gate lets through; the queue, sending flag, writer and fields of every other member are unchanged; without a latch the answer is `send`'s answer for the member's state before the call; a false answer always counted the latch down, and a true one only on a virtual connection |
| TioSend.SendOne | src/main/java/com/litongjava/tio/core/Tio.java:1379-1384 | `send` to one member as the fan-out sees it: the queue receives the (converted) packet once exactly when the guards let it pass, and without a latch the answer is the early answer of the guard that stopped it, true while a write is in flight, or whether the wire bytes of the queue's head could be produced; a false answer always counts the latch down, a true one only on a virtual connection, and the latch drops by exactly the count-downs |
| TioSend.SendToSet | src/main/java/com/litongjava/tio/core/Tio.java:1352-1421 | `sendToSet` answers false for an empty set; otherwise it answers true exactly when the filter let some member through and, for a blocking send, the latch reached zero within the timeout for that many targets; every member's queue ends with exactly what its gate lets through |
| TioSend.SendEach | src/main/java/com/litongjava/tio/core/Tio.java:1453-1467 | the loop of `sendToToken` and `sendToUser`: every member gets the packet, whatever earlier sends answered; each member's queue ends with exactly the converted packet when its guards let it pass and unchanged otherwise; a member's send answered true exactly when its own state before the loop gives that answer, and the loop answers true exactly when some member's does |
| TioSend.SendToToken | src/main/java/com/litongjava/tio/core/Tio.java:1443-1476 | `sendToToken` answers false when the token finds no set; otherwise every connection bound to the token gets the packet (its queue ends with the converted packet when its guards let it pass, unchanged otherwise), and the answer is true exactly when some connection's state before the call makes its `send` answer true |
| TioSend.SendToUser | src/main/java/com/litongjava/tio/core/Tio.java:1497-1530 | `sendToUser` answers false when the user id finds no set; otherwise every connection bound to the user gets the packet (its queue ends with the converted packet when its guards let it pass, unchanged otherwise), and the answer is true exactly when some connection's state before the call makes its `send` answer true |
| TioUtils.BoolText | src/main/java/com/litongjava/tio/core/utils/TioUtils.java:29 | a boolean concatenated into a Java string reads "true" or "false" |
| TioUtils.IOAllowed | src/main/java/com/litongjava/tio/core/utils/TioUtils.java:17-48 | `checkBeforeIO` allows I/O exactly when the connection is not waiting to close, has a socket that is open, and is neither closed nor removed |
| TioUtils.ClosesOnCheck | src/main/java/com/litongjava/tio/core/utils/TioUtils.java:17-48 | the guard closes the connection exactly when it is not waiting to close, has a socket, and the socket is open although the connection is closed or removed, or shut although it is live; a connection it closes is never allowed I/O |
| TioUtils.CheckBeforeIO | src/main/java/com/litongjava/tio/core/utils/TioUtils.java:17-48 | the answer is the verdict above; when the flags and the socket disagree and the close lock is free, the connection is closed with CHANNEL_NOT_OPEN, the remark for the branch taken and no request to remove, its socket shut; in every other case nothing changes |
| TioUtils.CloseNotOpen | src/main/java/com/litongjava/tio/core/utils/TioUtils.java:26-45 | the guard's close goes through `Tio.close` with the close lock: taken elsewhere, nothing changes; otherwise the code becomes CHANNEL_NOT_OPEN, the meta holds the remark and the remove decision, and the flags are as a whole close leaves them |
| WriteCompletionHandler.CountedDownTwice | src/main/java/com/litongjava/tio/core/WriteCompletionHandler.java:133-146 | a latch that both `handleOne` and the after-send processing count down drops by two, and never below zero |
| WriteCompletionHandler.HandleOne | src/main/java/com/litongjava/tio/core/WriteCompletionHandler.java:133-154 | `handleOne`: the packet's meta records the outcome and its latch drops by two; a packet that keeps its connection leaves the close state alone; one that does not closes the connection under the close lock, with the not-kept remark and the removal decision of a plain close |
| WriteCompletionHandler.CloseNotKept | src/main/java/com/litongjava/tio/core/WriteCompletionHandler.java:147-153 | the close for a packet that does not keep its connection: the remark, the removal decision and the flags of a plain close, and the packet's outcome and latch are left as they were |
| WriteCompletionHandler.SettleOne | src/main/java/com/litongjava/tio/core/WriteCompletionHandler.java:134-146 | the outcome is recorded on the meta, the latch drops by two, and the listener hears of the send unless the missing latch made the after-send processing throw first |
| WriteCompletionHandler.HandleEach | src/main/java/com/litongjava/tio/core/WriteCompletionHandler.java:110-113 | every packet of a list attachment records the outcome; when all of them keep the connection its close state is unchanged |
| WriteCompletionHandler.HandleAttachment | src/main/java/com/litongjava/tio/core/WriteCompletionHandler.java:97-114 | one packet or each packet of a list is settled, with the same guarantees |
| WriteCompletionHandler.Handle | src/main/java/com/litongjava/tio/core/WriteCompletionHandler.java:78-123 | `handle`: a write succeeds exactly when it wrote a positive number of bytes; only then, and only with statistics on, do the connection's and the group's sent-byte counters rise by that number; every carried packet records the outcome; an unsuccessful write closes the connection with WRITE_COUNT_IS_NEGATIVE and the write-count remark |
| WriteCompletionHandler.CloseAfterWrite | src/main/java/com/litongjava/tio/core/WriteCompletionHandler.java:116-118 | the close after an unsuccessful write carries WRITE_COUNT_IS_NEGATIVE, the throwable and the write-count remark, and leaves the packets' outcomes alone |
| WriteCompletionHandler.Completed | src/main/java/com/litongjava/tio/core/WriteCompletionHandler.java:35-56 | `completed`: with bytes left, the rest of the buffer is written again with the running total raised, and nothing else changes; a drained buffer settles its packets with the total written, then releases the flag and sends the next queued packet; single flight and FIFO order are kept |
| WriteCompletionHandler.Progressed | src/main/java/com/litongjava/tio/core/WriteCompletionHandler.java:40-46 | a partial write resumes with exactly the bytes not yet written, and the total grows by the bytes just written |
| WriteCompletionHandler.Finished | src/main/java/com/litongjava/tio/core/WriteCompletionHandler.java:48-55 | a drained write settles its packets with the total written and hands the flag to the next queued packet |
| WriteCompletionHandler.Settle | src/main/java/com/litongjava/tio/core/WriteCompletionHandler.java:40-49 | a drained write leaves no write in flight, and its packets record success exactly when the total written is positive |
| WriteCompletionHandler.Failed | src/main/java/com/litongjava/tio/core/WriteCompletionHandler.java:58-63 | `failed`: the counters do not move, every packet records failure, and the next queued packet is sent (or the flag is released when the queue is empty) |
| WriteCompletionHandler.HandleFailure | src/main/java/com/litongjava/tio/core/WriteCompletionHandler.java:60 | a failed write settles as zero bytes written: no counter moves and every packet records failure |
| WriteCompletionHandler.ProcessNextPacket | src/main/java/com/litongjava/tio/core/WriteCompletionHandler.java:65-69 | `processNextPacket`: once the flag is released, an empty queue leaves nothing in flight and the flag free; otherwise the head leaves the queue and takes the flag |

## Findings

| source | as written | input that shows it | evidently intended | confidence | as-written member | corrected member |
|---|---|---|---|---|---|---|
| src/main/java/com/litongjava/tio/utils/AppendJsonConverter.java:70-78 | `escapeJson` escapes only the backslash, the quote and \b \f \n \r \t; every other character below U+0020 is written raw inside the quotes | the string "\u0001" | valid JSON string text, which section 7 of RFC 8259 requires: every control character written as an escape | not executed | AppendJson.EscapeJsonLeavesControlChar | AppendJson.EscapeStrictIsValid |

`AppendJson.EscapeJson` is the escaper as written. `AppendJson.EscapeStrict`
is the corrected escaper: it also writes the remaining control characters
as `\u00XX`. `AppendJson.EscapeStrictRoundTrip` proves that it still reads
back. `AppendJson.ConvertCollectionStringToJson` is modelled as written, with
`escapeJson`, and `AppendJson.ConvertedControlCharIsRaw` shows the bug in
its output. `AppendJson.QuotedStrict` is the corrected quoting of line 55;
`AppendJson.QuotedStrictReadsBack` proves it valid and readable.

## Left out

- I/O is not modelled. Sockets, files, clocks and thread pools are outside the model. Socket results are parameters, and `ProxyHandshake.Channel` replays a fixed script of reads and write sizes.
- Concurrency is not modelled. Locks, `synchronized`, compare-and-set and latches are single atomic steps, and no interleaving is modelled.
- Oracles are not implemented. The application codec, handler and listener, the reconnect policy and the TLS engine (SSLEngine and its worker) are fixed oracles. Their behaviour is assumed through well-formedness predicates such as a prefix-consistent codec, not implemented.
- Caches and statistics collaborators are out of scope. The IpStats cache, the ip blacklist, `ChannelStat` and the group statistics matter here only for the counters the properties name.
- The ids registry is recorded only as an event.
- TioConfig is not modelled beyond the flags and sizes the engine reads. It has no behaviour of its own; the JVM-wide sets and Android detection are left out.
- JSSE is not modelled. KeyStore and SSLContext construction, `SslConfig` and `SslFacadeContext` beyond the handshake-completed flag are left out.
- SSLFacade operations not modelled: `decrypt`, `close`, `terminate`, `setSSLListener` and `setCloseListener`. They only hand over to the engine and its worker.
- Floating point is not modelled: the percentage DecodeTask logs and `printStats` in ServerTioConfig are not part of the model.
- DecodeTask.DecodeTask.Decode: does not model the per-ip counters for decoded packets and decode errors (DecodeTask.java:120-130, 176-189). They feed statistics observers.
- HandlePacketTask.Dispatch: does not model `handledPacketCosts`, the ip-stat loop (HandlePacketTask.java:89-101) or the synSeq failure counter. They are timing and statistics.
- ReadCompletionHandler.ReadCompletionHandler.Completed: does not model the ip-stat loop (ReadCompletionHandler.java:58-69). Nor does it model the close with DECODE_ERROR when the decoder throws (84-88). The remark of a failed TLS decrypt is fixed as "SSL decrypt failed", because the exception text comes from the engine.
- ReadCompletionHandler.ReadCompletionHandler.Consume: the exception a failed decrypt closes with is the fixed `DecryptFailure`, an SSL exception whose text is the same fixed remark. The engine's own exception and its `toString()` are not modelled.
- WriteCompletionHandler.Handle: does not model the ip-stat loops (WriteCompletionHandler.java:89-94, 101-106). They feed statistics observers.
- WriteCompletionHandler.NotKeptRemark: the source appends the packet's `logstr()` to this remark (WriteCompletionHandler.java:148). The model takes that text as empty, which is what the base packet returns; a packet class that overrides `logstr` is not modelled.
- ConnectionCompletionHandler.Handler: does not model the ip-stat loop (ConnectionCompletionHandler.java:139-150). Starting the TLS handshake is modelled as fresh TLS state for the connection.
- TioSend.Converted: the converter receives the packet and the connection (Tio.java:1062), but as a function it cannot read the connection's fields. A converter whose answer depends on the connection's changing state is not modelled.
- TioSend.Send: does not model the SINGLE_BLOCK wait on the packet's metadata (Tio.java:1087-1099) or the blocking `bSend` variants. The wait only parks the caller until a later write completes.
- SendPacketTask.SendPacket: does not model `ensureDirect` or `transfer` (SendPacketTask.java:60-72, 140-190), the zero-copy file path. The file body is modelled only as the flag that selects it.
- BufferPool.Pool.Allocate: buffer contents are not modelled, only capacity and kind. The unaligned `allocateRequest`/`allocateResponse` (BufferPoolUtils.java:83-92) only delegate to a per-thread page pool that is not part of this model.
- PoolMetrics.Render: does not model 64-bit overflow of the counters and time totals, which would take centuries of operation to reach.
- ServerTioConfig.ServerTioConfig.CheckConnection: covers one pass of the heartbeat thread. The thread, its sleep and its logging are left out.
- Handshaker.Handshaker.Shakehands: the engine's answers are a finite script of rounds. An engine that never settles is therefore not modelled. `carryOn` is not modelled separately because it is the same code as `shakehands`.
- DecodeTask.Run: a codec that returns a packet without advancing the buffer position makes the source's `decode` loop forever (DecodeTask.java:114-157): the packet size is 0, bytes remain, and the same window is decoded again, handing on the same packet each time. `WellFormedCodec` requires every decoded packet to consume at least one byte, so the model does not contain that codec or that loop.
- ChannelOps.AssignAnUnknownClientNode: the placeholder port counter is one per config (`book.unknownPortSeq`), while the source's `UNKNOWN_ADDRESS_PORT_SEQ` is one static counter for the whole JVM (ChannelContext.java:34). Two configs joined by `share` use one client-node registry (ServerTioConfig.java:143) but separate counters here, so the model can give two connections the same `$UNKNOWN:k` node, and the second `put` then replaces the first. In the source the nodes never collide.
- Nodes.CompareStrings and Nodes.StringHash: work on code points, while Java's `compareTo` and `hashCode` work on UTF-16 code units. For a host above U+FFFF the values differ from Java's. Antisymmetry, zero iff equal and the 32-bit range still hold.
- SslFacade.ParseJavaInt: accepts ASCII digits only, while `Integer.parseInt` accepts any Unicode decimal digit. On such a port string `PortOf` gives -1 where the source parses a port.
- SendPacketTask.HeaderPacket: the source sets keepConnection on the polled packet object itself and never restores it; the model returns a changed packet value, so a caller that still holds that packet does not see the change.
- SendPacketTask.Encode: an exception thrown by the application encoder is not modelled. In the source it propagates out of `sendPacket` and leaves `isSending` set.
- Context.SameContext: registries hold connections by reference, which agrees with the source's hash sets only while ids are distinct (`Context.SameContextIsIdentity`). The id generator is not part of this model, and the identity-hash fallback for a blank id (ChannelContext.java:248-254) is not modelled.
- ProxyHandshake.Utf8: text is a sequence of Unicode scalar values, so Java's replacement of an unpaired surrogate by '?' is not modelled. No decoder for UTF-8 or Base64 is modelled, because the handshake only writes these encodings.
