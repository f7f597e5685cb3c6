# Verified model of the go-oam core

A Dafny 4.11 model of the stateful core of the repository and proofs about it:

- `PushPool`, `Batch`, `Retry`: the push client's worker pool with its poison pills, HealthCheck and Close, batch counting, and the retry and reconnect delays in int64 arithmetic.
- `TelnetFilter`, `TelnetStream`: the incremental filter for Telnet commands (RFC 854, RFC 855) and the window-size message (RFC 1073).
- `SocketServer`, `SocketClose`, `SocketClient`: the listen/serve/close protocol of the TCP, telnet and UDP servers and the connect/read/close protocol of the TCP and UDP clients.
- `WsTopics`, `WsConns`, `WsReplies`, `WsClient`: topic indexes, connection counting, reply codecs and reconnection of the WebSocket packages.
- `RingBuffer`, `ShardedHistory`, `History`, `Metrics`: bounded histories and counters, fast form against simple form.
- `Runs`, `Options`: runs of a transition system; optional values.
- `ChunkNames`, `Upload`: chunked upload and atomic writes on a disk on which any system call may fail.

Concurrent code is a transition system: one step is one atomic or channel operation or one section of a lock, and a theorem speaks of every finite run. Sequential code is a class or a method with loops, tied by its contract to functions about which the laws are proved. Sockets, clocks, random numbers and system calls are nondeterministic steps or parameters. `dafny verify dfyconfig.toml` checks everything.

## Where the code and its documentation differ

The model follows the code in each case.

- `RingBuffer.Resize` stores `tail = count`; on a buffer that comes out full the next Push indexes past the array, until a Clear or another Resize. `pkg/ringbuffer/ringbuffer.go` line 120 is the same.
- `MaxConns` of the TCP and telnet servers is documented as a limit on concurrent connections; no token is ever given back, so it limits the connections of the server's whole life.
- A Close that wins between the CAS of Listen and its `listenWG.Add` can return while the server goes on to serve; one that wins between the `Add` and the publication of the listener waits while the server serves, for ever if nothing else wakes the accept loop (CloseReturnsIff says exactly when); after a failed `net.Listen` it blocks for ever.
- `findSubnegEnd` takes the first FF F0 as the end, even when its FF is the second of a doubled one; `nawsMessage` does not double FF.
- An AsyncPush or SetWorkers that overlaps Close of the push client can panic on the closed channel; so can the put-back of a HealthCheck, which then also loses the job it had taken out.
- `calculateBackoff` panics at attempt 38, the reconnect loop at its 36th attempt.
- `ConnManager`'s total can be -1; a Subscribe that overlaps Close of the same connection leaves it subscribed until it unsubscribes itself; a WebSocket client's State can stay Connected after Close, and a Connect that overlaps another one overwrites its connection without closing it; a reply can be framed with the type of another codec.
- `ShardedHistory.List` returns the records of all keys in the shard; `BatchPush` stores records with an empty key, `Push` drops them.
- `History` keeps its default size as an int32, so a larger size reaches existing keys only.
- `Register` replaces an existing metric, although its comment says that it does not (RegisterKeepsIff); `IncBy` with a negative delta ignores the minimum.
- A RemoveAll that fails half way through a merge makes the next merge of the same upload succeed with the remaining chunks only.
- A size limit above (2^63-1)/2^20 megabytes makes streamed uploads succeed with an empty file.

## Model

| member | source | states |
|---|---|---|
| `PushPool.JobsAreConserved` | push/client/client.go:240-263 | In every run of enqueues, worker steps, SetWorkers, HealthCheck and Close, the accepted jobs are, as a multiset, those queued, held by a HealthCheck, held by a worker and sent; processed + failed counts the sent ones |
| `PushPool.CountersCount` | push/client/client.go:240-263 | In any run processed grows by the jobs that were delivered and failed by those that were not |
| `PushPool.PillsNeverStrandAJob` | push/client/client.go:466-491 | Live workers = settled worker count + pills not yet received, with the count at least 1, so a queued job always has a worker left |
| `PushPool.SetWorkersSets` | push/client/client.go:466-491 | SetWorkers(n) with n >= 1: whenever it is over in any run the worker count is n, and the live workers are n and the pills not yet received; nothing happens for n < 1 and for the present count |
| `PushPool.SetWorkersCompletes` | push/client/client.go:466-491 | From every reachable state with the channel open, SetWorkers(n) can run to its end with exactly that result, however full the queue is |
| `PushPool.FirstInFirstOut` | push/client/client.go:304-325 | Until a HealthCheck takes an item out, workers receive the jobs in the order they were accepted |
| `PushPool.AsyncPushFinds` | push/client/client.go:304-325 | Corollary of the steps: an AsyncPush panics on the closed channel, is queued at the end when there is room, and otherwise finds the queue full |
| `PushPool.CloseDrains` | push/client/client.go:451-459 | When Close can return, the queue is empty and no worker holds a job; every accepted job was sent exactly once if and only if no HealthCheck is holding one |
| `PushPool.PanicIsSendAfterClose` | push/client/client.go:562-574 | Corollary of the steps: the only panics of the pool are sends on the closed channel, by AsyncPush, SetWorkers or a HealthCheck that puts back |
| `PushPool.DisciplinedCloseDrains` | push/client/client.go:451-459 | If Close overlaps no AsyncPush, SetWorkers or HealthCheck, nothing panics and a returned Close means every accepted job was sent exactly once |
| `PushPool.ClosePanicsIff` | push/client/client.go:451-459 | When Close begins, the calls already in progress can lead to a panic if and only if a HealthCheck is in progress or holds an item, or a SetWorkers has pills left to send (an AsyncPush is a single send: one after Close counts as new) |
| `PushPool.UndisciplinedCloseLosesJob` | push/client/client.go:562-574 | A concrete run in which a HealthCheck overlaps Close: the job is lost and the put-back panics |
| `PushPool.CloseLosesIff` | push/client/client.go:451-459 | When Close begins, it can return with an accepted job unsent, the calls already in progress being the only others, if and only if a HealthCheck holds a job, or is in progress with a job queued that it can take out |
| `PushPool.PutBackCompletes` | push/client/client.go:562-574 | While the channel is open HealthCheck callers can put back everything they have taken out |
| `PushPool.WorkersTerminate` | push/client/client.go:240-263 | A measure on queue, busy and idle workers falls with every worker step: workers alone never run for ever |
| `PushPool.WorkersCanMove` | push/client/client.go:240-263 | Workers are never stuck while an item is queued, nor, after the channel is closed, while one of them lives |
| `PushPool.DrainCompletes` | push/client/client.go:451-459 | From every reachable state after the channel is closed, worker steps alone lead to a state in which Close returns |
| `Batches.BatchCountsAll` | push/client/client.go:501-539 | In whatever order the pushes of a batch finish, successes + failures = payloads, the failures are exactly the failed payloads, and nil is returned iff there are none |
| `Batches.FirstErrIsEarliest` | push/client/client.go:513-533 | The error that BatchPush wraps is that of the first push to fail in finishing order |
| `Retry.CalculateBackoff` | push/client/client.go:369-377 | For attempts up to 37 the wait lies in [d, d + d/4), d = min(100ms * 2^(attempt-1), 30s) |
| `Retry.BackoffIsExact` | push/client/client.go:369-377 | In int64 arithmetic, with its wrap-around, the delay is the exact minimum up to attempt 37 and rand.Int64N gets a positive bound |
| `Retry.FirstPanicAt38` | push/client/client.go:369-377 | Among the first 38 attempts exactly the 38th wraps to a delay for which rand.Int64N panics |
| `Retry.DoPushWithRetry` | push/client/client.go:327-367 | At most retry + 1 sends; every send but the last failed retryably with the context alive through the wait after it; nil exactly when the last send was delivered; each wait in its backoff range; a panic exactly when 38 attempts in a row fail retryably with the context alive |
| `Retry.RetryableKinds` | push/client/client.go:379-401 | Timeouts, status 429 and 500 or more are retried, other status codes and an ended context are not, other errors exactly if their text contains one of five phrases |
| `Retry.ReconnectDelay` | ws/client/client.go:348-368 | The reconnect wait lies in [d/2, d), d = min(500ms * 2^attempt, 60s), for attempts up to 34 |
| `Retry.ReconnectIsExact` | ws/client/client.go:354-362 | The int64 delay of the reconnect loop is the exact minimum up to attempt 34 |
| `Retry.ReconnectPanicNeeds36Attempts` | ws/client/client.go:354-366 | Some attempt of the loop gets a non-positive random bound if and only if 36 or more attempts are allowed |
| `TelnetFilter.IacProcessor.Feed` | pkg/telnet/client.go:526-575 | The index-based loop with its fast path returns and keeps exactly what one pass of the byte automaton over pending and chunk gives, flushing an unfinished command of 4096 bytes or more; disabled, it passes everything through |
| `TelnetFilter.IacProcessor.Stash` | pkg/telnet/client.go:579-586 | An unfinished command is kept while shorter than 4096 bytes and flushed to the output otherwise |
| `TelnetFilter.FindSubnegEnd` | pkg/telnet/client.go:588-597 | Finds the first FF F0 at or after start, or reports that there is none |
| `TelnetFilter.RunConcat` | pkg/telnet/client.go:526-575 | The automaton may be stopped anywhere and resumed: two parts of a stream give what the whole gives |
| `TelnetFilter.RunHeldIsUnfinished` | pkg/telnet/client.go:537-572 | What one pass holds back is empty or an incomplete command from its FF on, and replaying it leads to the same state |
| `TelnetFilter.CommandsByNumber` | pkg/telnet/client.go:526-575 | By byte value: 251 to 254 take an option byte, 255 255 gives 255, every other command but 250 has two bytes; no command leaves anything in the output |
| `TelnetFilter.SubnegotiationByNumber` | pkg/telnet/client.go:557-565 | By byte value: 255 250 opens a subnegotiation that is held until 255 240, and then nothing is left of it |
| `TelnetFilter.TerminatedVanishes` | pkg/telnet/client.go:557-565 | A subnegotiation up to its first FF F0 disappears entirely |
| `TelnetFilter.UnterminatedIsHeld` | pkg/telnet/client.go:557-565 | A subnegotiation without FF F0 is held whole, with no output |
| `TelnetStream.ChunkingInvisible` | pkg/telnet/client.go:526-586 | Joined outputs and final pending bytes equal one scan of the stream if and only if every unfinished tail stays under 4096 bytes; otherwise the output is strictly longer |
| `TelnetStream.CutsAgree` | pkg/telnet/client.go:526-586 | Two ways of cutting one stream, tails short in both, give the same output and the same pending bytes |
| `TelnetStream.LeavingEarlyEmitsMore` | pkg/telnet/client.go:579-586 | A flush in the middle of a subnegotiation never suppresses later output: the following bytes emit at least as much |
| `TelnetStream.PendingIsShortCommand` | pkg/telnet/client.go:507-510 | After any chunks pending is shorter than 4096 bytes and is empty or an incomplete command starting with FF |
| `TelnetStream.OutputIsSubsequence` | pkg/telnet/client.go:526-586 | Output followed by pending is a subsequence of the input, flushes included: nothing is invented or reordered |
| `TelnetStream.RenderedRoundTrip` | pkg/telnet/client.go:507-518 | Rendering any well-formed tokens and filtering them returns exactly the data bytes with nothing pending |
| `TelnetStream.EveryStreamIsTokens` | pkg/telnet/client.go:526-575 | Every byte stream is a list of well-formed tokens followed by the unfinished command the filter holds, and the filter emits exactly the tokens' data |
| `TelnetStream.RfcSubnegotiation` | pkg/telnet/client.go:557-597 | A subnegotiation encoded as in RFC 855 ends in text and emits exactly the payload behind the first FF F0 in it; so nothing, if and only if the payload has no FF F0 before its end; it is left where the RFC ends it if and only if there is none at all |
| `TelnetStream.RfcStreamIff` | pkg/telnet/client.go:526-575 | A whole stream rendered as the RFCs prescribe is filtered to its data if and only if no payload has FF F0 before its end; the filter ends in text in any case |
| `TelnetStream.NawsIsRfc` | pkg/telnet/client.go:495-503 | The window-size message is the one of section 2 of RFC 1073 if and only if no size byte is FF |
| `TelnetStream.NawsCarriesSize` | pkg/telnet/client.go:495-503 | The message carries width and height as 16-bit big-endian numbers |
| `TelnetStream.Exec` | pkg/telnet/client.go:374-411 | Stops at the first chunk at which the filtered text reaches the limit or satisfies done, and returns the text so far, cut at the limit; on a read error it fails only if there is no text |
| `SocketServer.CloseGuarantee` | pkg/socket/tcp_server.go:260-299 | Once Close has returned, listener closed, context cancelled, Listen returned, registry empty and no handler left hold together exactly if Listen has returned after serving; they do whenever Close won the CAS after listenWG.Add (TCP, telnet and UDP) |
| `SocketClose.CloseGuaranteeIff` | pkg/socket/tcp_server.go:101-126 | For a Close that wins in any reachable state: no continuation lets it return before everything has stopped if and only if Listen was past listenWG.Add at that moment |
| `SocketClose.RegisteredAreClosed` | pkg/socket/tcp_server.go:288-299 | Every connection that is registered when Close takes its snapshot is closed before Close waits, and so when it returns |
| `SocketClose.ClosedAcceptsNothing` | pkg/socket/tcp_server.go:280-287 | Once the listener is closed no continuation accepts anything |
| `SocketClose.CloseBeforeListen` | pkg/socket/tcp_server.go:260-265 | After a Close before Listen the server never starts |
| `SocketServer.MissedHandlersAreCancelled` | pkg/socket/tcp_server.go:187-222 | A Close that won after the listener was published and is past its cancel leaves no handler with a live context of its own, also those the closing snapshot missed |
| `SocketServer.HandlerContexts` | pkg/socket/tcp_server.go:187-222 | In every reachable state the context of a handler is cancelled if and only if the server's is or its connection has been closed |
| `SocketServer.StoppedHasClosed` | pkg/socket/tcp_server.go:187-222 | A server that has stopped has closed every connection it ever accepted; before that each is with its handler or closed |
| `SocketServer.NoAddAfterWait` | pkg/socket/tcp_server.go:135-173 | After wg.Wait has returned no run adds to the WaitGroup again |
| `SocketClose.CloseBeforeAddDoesNotClose` | pkg/socket/tcp_server.go:101-126 | For TCP, telnet and UDP and every MaxConns a run in which Close wins before listenWG.Add and returns, and the server then serves a first client with its context alive |
| `SocketClose.LateClose` | pkg/socket/tcp_server.go:106-143 | From every state with Listen between its CAS and the publication of its listener: Close can win and reach listenWG.Wait, and the server serve a first client while Close waits; the context is then cancelled only for a telnet server past the creation of that context |
| `SocketClose.ServesBesideCloseIff` | pkg/socket/tcp_server.go:106-143 | For a Close that wins in any reachable state: some continuation has an open, accepting listener with Close past its closeListener if and only if the listener was not yet published |
| `SocketClose.ServesForGood` | pkg/socket/tcp_server.go:135-173 | Such a server with a live context keeps serving in every run in which the configured Context does not end |
| `SocketClose.FailedListenBlocksClose` | pkg/socket/tcp_server.go:112-126 | After a failed net.Listen a Close that had won the CAS never returns: listenWG stays raised |
| `SocketClose.ListenMayFail` | pkg/socket/tcp_server.go:107-112 | For every server a run in which Close has won the CAS and net.Listen then fails |
| `SocketClose.CloseReturnsIff` | pkg/telnet/server.go:128-176 | For a Close of any of the servers that has won and not returned, with or without an ending configured Context and a failing Accept: some continuation lets it return, except that none does if Listen has failed, or uses a context that Close came too early to cancel and nothing else cancels, or (telnet) a listener that Close came too early to close and whose Accept never fails |
| `SocketServer.LimitHolds` | pkg/socket/udp_server.go:153-210 | Live handlers never exceed MaxConns; for UDP the semaphore counts exactly the handlers between acquire and release, bounds the active counter, and both are zero when no handler is left |
| `SocketServer.ExhaustedForGood` | pkg/socket/tcp_server.go:162-172 | For TCP and telnet, once MaxConns connections have been accepted no later one is, even when all are gone |
| `SocketServer.RefusalIff` | pkg/socket/tcp_server.go:162-172 | For TCP and telnet a connection is refused exactly when MaxConns have been accepted in all, and then fewer than MaxConns are live exactly if an accepted one has gone |
| `SocketServer.LifetimeLimit` | pkg/telnet/server.go:178-188 | For TCP and telnet MaxConns bounds the connections accepted in the whole life of the server |
| `SocketServer.StateStaysClosed` | pkg/socket/udp_server.go:224-249 | The closed state is absorbing in every run |
| `SocketServer.StepKeepsInv` | pkg/telnet/server.go:204-257 | Every step of Listen, Close and any handler keeps the invariant behind the guarantees: phases partition the handlers, registry and WaitGroup count them |
| `SocketClient.ChannelsCloseOnce` | pkg/socket/tcp_client.go:237-266 | In every interleaving closed and output are each closed at most once, and exactly once when the winning Close has returned |
| `SocketClient.ClosedIsAbsorbing` | pkg/socket/tcp_client.go:196-257 | No step leaves the closed state, reopens a channel or takes back a report or a delivery |
| `SocketClient.OnErrorAtMostOnce` | pkg/socket/tcp_client.go:276-323 | OnError fires at most once; when readLoop has come to its end it has fired exactly if readLoop won the shutdown CAS after a panic or after a read error for which it did not find its context cancelled |
| `SocketClient.ContextEndSilences` | pkg/socket/tcp_client.go:304-321 | When the context ends before readLoop asks for it, no continuation without a panic calls OnError |
| `SocketClient.ErrorsAfterCloseAreIgnored` | pkg/socket/tcp_client.go:309-321 | A read error after the client was closed is not looked at any further, in any continuation without a panic |
| `SocketClient.ReadersGetPrefix` | pkg/socket/tcp_client.go:297-321 | What readers received is a prefix of what readLoop enqueued, itself a prefix of what it read, with at most the channel's capacity between |
| `SocketClient.ReadsReturnOnce` | pkg/socket/tcp_client.go:362-397 | In any run every Read returns once, with one chunk that no other Read gets or with EOF |
| `SocketClient.TransfersAll` | pkg/socket/tcp_client.go:297-321 | An open client can pass on any list of chunks, all of them and in order |
| `SocketClient.ErrorEndsReading` | pkg/socket/tcp_client.go:301-321 | A Read that gives bytes together with an error is the last one, in every continuation |
| `SocketClient.EofMeansDrained` | pkg/socket/tcp_client.go:368-397 | When Read returns EOF all chunks enqueued so far were delivered; after a shutdown from readLoop none is enqueued later |
| `SocketClient.UserCloseMayStrandChunk` | pkg/socket/tcp_client.go:368-397 | A concrete run: after the user's Close a chunk is enqueued after EOF has been returned |
| `SocketClient.StrandsIff` | pkg/socket/tcp_client.go:297-321 | After an EOF some continuation enqueues a chunk if and only if readLoop already has one in hand: the connection is closed by then, and a later Read of it gives nothing |
| `SocketClient.ClosedWindsDown` | pkg/socket/tcp_client.go:237-321 | Once the connection is closed every step of readLoop and of the shutdown brings them nearer to their end |
| `SocketClient.CloseCanReturn` | pkg/socket/tcp_client.go:237-266 | From every closed state steps of readLoop, of the shutdown and of a Connect that holds mu, with no help from the peer, lead to one in which nothing is left for a Close to wait for |
| `SocketClient.StepKeepsInv` | pkg/socket/udp_client.go:131-218 | Every step of Connect, Close, readLoop and Read keeps the invariant; the UDP client has the same steps |
| `SocketClient.ConnectOutcomes` | pkg/socket/tcp_client.go:192-231 | Corollary of the steps: a Connect is refused unless the client is new, and neither a refusal nor a failed dial changes anything |
| `SocketClient.ConnectSucceeds` | pkg/socket/tcp_client.go:192-231 | With a dial that succeeds a new client ends connected with readLoop reading |
| `WsTopics.TopicManager.Subscribe` | ws/server/server.go:103-113 | The connection is added to the topic and nothing else changes |
| `WsTopics.TopicManager.Unsubscribe` | ws/server/server.go:116-128 | The connection is removed from the topic, and the topic with its last subscriber |
| `WsTopics.TopicManager.UnsubscribeAll` | ws/server/server.go:131-141 | The connection is removed from every topic; topics left empty disappear, whatever order the map is walked in |
| `WsTopics.TopicManager.Subscribers` | ws/server/server.go:144-157 | A snapshot of exactly the topic's subscribers, each once |
| `WsTopics.IndexesAgree` | ws/server/conn.go:105-126 | With subsMu free, an uncleared connection has a topic in its own set iff the topic's index holds it; no topic is kept empty |
| `WsTopics.ListsAreDone` | ws/server/conn.go:104-126 | Whatever happens meanwhile: when Subscribe(list) is over the connection has all topics of the list besides its own, when Unsubscribe(list) is over none of them and all others |
| `WsTopics.ListsMoveOn` | ws/server/conn.go:104-126 | Until then one of its steps is possible, and each brings the end nearer |
| `WsTopics.TopicCountIsExact` | ws/server/server.go:160-169 | With nothing in progress a topic is indexed for its subscribers and the connections that subscribed after being cleared; TopicCount is the number of subscribers if and only if there are no such connections, and the topic exists if and only if it has one of either |
| `WsTopics.ClearedIsNowhereIff` | ws/server/conn.go:170-186 | After Close a connection is indexed under exactly the topics it subscribed to since and did not unsubscribe from; so it is in no topic if and only if there are none |
| `WsTopics.SubscribeDuringCloseLeaks` | ws/server/conn.go:105-114 | A concrete run: a Subscribe that overlaps Close leaves the closed connection subscribed, and Close cannot run again |
| `WsTopics.LeakLasts` | ws/server/conn.go:105-126 | Such a connection stays indexed in every run in which it does not unsubscribe itself |
| `WsConns.CounterIsExact` | ws/server/server.go:74-86 | total = map size + removes in progress - adds in progress in every reachable state; negative only while an add is in progress |
| `WsConns.HandshakeDecides` | ws/server/server.go:211-247 | Corollary of the steps: a handshake goes on or is rejected depending on whether total has reached maxConns |
| `WsConns.HandshakesAddUp` | ws/server/server.go:211-247 | In any run every handshake ends once: rejected, failed, or with a connection in the map |
| `WsConns.CounterCanBeNegative` | ws/server/server.go:74-86 | A concrete run in which total is -1 |
| `WsConns.GoesNegativeIff` | ws/server/server.go:74-86 | In every reachable state the total can become negative without another connection being added if and only if an add is between the map and the counter |
| `WsConns.AllClose` | ws/server/conn.go:170-186 | From every reachable state closes alone lead to an empty map, with a total of minus the adds in progress |
| `WsConns.OvershootIsBounded` | ws/server/server.go:211-247 | With at most K handshakes between check and count at once, total never exceeds maxConns - 1 + K |
| `WsConns.OvershootIsAttained` | ws/server/server.go:211-247 | For every maxConns and K some run reaches maxConns - 1 + K |
| `WsConns.ShutdownMissesOnlyLateHandshakes` | ws/server/server.go:272-280 | After Shutdown went through its snapshot, a connection not being closed came from a handshake that had read the flag before it was set; without such handshakes all are being closed |
| `WsConns.ShutdownMissesIff` | ws/server/server.go:211-280 | A Shutdown that sets the flag can end with a connection that nobody closes if and only if a handshake was under way at that moment |
| `WsConns.ShutdownCompletes` | ws/server/server.go:272-280 | Shutdown can go through its snapshot, and then all of it that is still in the map is being closed |
| `WsConns.ShutdownKeepsToSnapshot` | ws/server/server.go:272-280 | A connection that is not in the snapshot is never closed by Shutdown |
| `WsReplies.RepliesInOrder` | ws/server/conn.go:193-206 | Accepted replies are, in order, the frames written, the one being written and the queued ones; the queue never exceeds its capacity |
| `WsReplies.RepliesFollowRequests` | ws/server/conn.go:246-263 | In any run a reply is encoded like the last request that could be decoded, before any with the configured codec |
| `WsReplies.RepliesAddUp` | ws/server/conn.go:193-206 | In any run every reply made is in the hands of its sender, accepted by the queue or refused |
| `WsReplies.MismatchIff` | ws/server/conn.go:289-302 | Some run writes a frame whose type differs from the codec its bytes were encoded with if and only if the configured codec uses binary frames |
| `WsReplies.SwitchedReply` | ws/server/conn.go:246-263 | The concrete run: binary request, reply encoded and queued, text request, write; the binary reply leaves as a text frame |
| `WsReplies.BinaryPeersSeeBinary` | ws/server/conn.go:289-302 | With a binary codec frame types still match in every run in which the peer sends no decodable text request |
| `WsClient.AtMostOneOwner` | ws/client/client.go:126-166 | With every go statement a new goroutine beside its parent: if the user connects only while no session is owned, at most one of live readers, reconnects that have not yet connected and Connects of the user exists, and no connection is left behind without one |
| `WsClient.ReadersFollowTheirSession` | ws/client/client.go:150-166 | If the user connects only while no session is owned: a reader may read on exactly as long as its session is the current one and there is no Close; otherwise its Read fails, also when the health loop has given the connection up |
| `WsClient.InstallOverwrites` | ws/client/client.go:140-153 | A Connect that stores its connection while there is a current one leaves that one open for good: no continuation drops it |
| `WsClient.ReaderRunsAhead` | ws/client/client.go:375-383 | A concrete run from the start: the new reader has already handed over to a reconnect while the Connect that started it has not returned |
| `WsClient.ReconnectIsBounded` | ws/client/client.go:348-390 | At every moment every reconnect loop, wherever it is, has dialled at most maxReconnectAttempts times; exhaustion is reported only after exactly that many failed attempts, and each of them has dialled as long as Close has not cancelled the context |
| `WsClient.ReconnectGoesOn` | ws/client/client.go:348-390 | Without a Close no step of a reconnect ends it unless it has connected or reports that it gave up |
| `WsClient.SessionIsReplaced` | ws/client/client.go:248-301 | Without a Close, from every lost session with autoReconnect and from everywhere in Connect and reconnect before the last attempt: the agents' own steps can lead to a live reader on the current connection, with State Connected |
| `WsClient.AgentsOnlyWindDown` | ws/client/client.go:169-179 | After Close every step of a goroutine lowers the work left to all of them, new ones included; only a Connect with its session announced and a lost session start another, and none begins to dial |
| `WsClient.AgentsEnd` | ws/client/client.go:248-301 | In every run after Close all goroutines together, old and new, take no more steps than the work there was and two for each new Connect |
| `WsClient.AllCanEnd` | ws/client/client.go:248-301 | From every state after Close their own steps lead to a state without goroutines |
| `WsClient.DisconnectedIsFinalIff` | ws/client/client.go:169-179 | Once a Close has stored Disconnected, State stays so in every continuation, whatever other Close calls overlap, if and only if no goroutine is dialling, past its dial, waiting or out of attempts in a reconnect loop, or about to report the end of a session that is not reconnected |
| `WsClient.LoudLeaves` | ws/client/client.go:126-166 | Each of those goroutines has a continuation of at most three steps after which State is something else |
| `WsClient.CloseMayLeaveConnected` | ws/client/client.go:126-166 | A concrete run: a Close that overlaps a dial ends with the client closed and State reporting Connected |
| `RingBuffers.RingBuffer.Push` | push/history/ringbuffer.go:138-150 | Appends, dropping the oldest when full; panics, changing nothing, exactly on a jammed buffer |
| `RingBuffers.RingBuffer.GetAll` | push/history/ringbuffer.go:167-183 | The contents, oldest first |
| `RingBuffers.RingBuffer.GetLast` | push/history/ringbuffer.go:213-235 | The newest min(n, count) elements, none for n <= 0 |
| `RingBuffers.RingBuffer.Resize` | push/history/ringbuffer.go:270-300 | Keeps the newest min(count, newSize) elements; with its literal tail = count the buffer is jammed exactly when the result is full |
| `RingBuffers.RingBuffer.ResizeAsIntended` | push/history/ringbuffer.go:256-300 | With tail = count % newSize instead, the same contents and no jam |
| `RingBuffers.RingBuffer.Clear` | push/history/ringbuffer.go:337-344 | Empties the buffer, also a jammed one, and keeps its capacity |
| `RingBuffers.ResizeKeepsNewest` | push/history/ringbuffer.go:270-300 | Resize leaves the end of the contents, as long as the new capacity allows |
| `RingBuffers.PushKeepsNewest` | push/history/ringbuffer.go:138-150 | Push leaves the end of the contents and the new element, one more than before unless the buffer is full |
| `RingBuffers.PushAfterResizePanics` | push/history/ringbuffer.go:283-294 | Corollary of Resize and Push: the Push after a Resize(n) of a working buffer panics if and only if n is a new positive size and the buffer holds at least n elements |
| `RingBuffers.JammedStaysJammed` | push/history/ringbuffer.go:138-150 | A jammed buffer refuses every Push until a Clear or a Resize to another size |
| `RingBuffers.ResizeBreaksPush` | push/history/ringbuffer.go:291 | A concrete run: capacity 4, three elements, Resize(2), and the next Push panics |
| `RingBuffers.WithoutPanicAsIntended` | push/history/ringbuffer.go:120-150 | Every run without a panic shows exactly the documented bounded sequence |
| `RingBuffers.ContentsAreLogSuffix` | push/history/ringbuffer.go:120-344 | After any run of Push, Resize and Clear the contents are the end of what was stored since the last Clear, and as many as the capacities on the way left room for |
| `RingBuffers.IntendedContentsAreLogSuffix` | push/history/ringbuffer.go:254-300 | With the intended index nothing ever jams and the contents are the end of all pushes since the last Clear, as many as the capacities left room for |
| `RingBuffers.PushAllKeepsNewest` | push/history/ringbuffer.go:138-150 | Pushing a list keeps the newest elements of contents and list together, up to the capacity |
| `ShardedHistories.BatchIsSingles` | push/history/sharded.go:135-155 | For records with non-empty keys BatchPush leaves every shard as pushing them one by one |
| `ShardedHistories.BatchIsSinglesIff` | push/history/sharded.go:135-155 | On shards with room, batch and single pushes agree if and only if no key is empty: BatchPush stores such records, Push drops them |
| `ShardedHistories.ListIsNewestOfShard` | push/history/sharded.go:175-192 | After any pushes List(key, n) is the newest n, within capacity, of the interleaved log of all keys in the key's shard |
| `ShardedHistories.ListsOwnOnlyIff` | push/history/sharded.go:157-192 | List shows records of its own key only, in every run, if and only if no other key shares the shard |
| `ShardedHistories.EveryShardIsARingBuffer` | push/history/sharded.go:98-326 | Any run of calls leaves each shard as a single ring buffer that saw only the calls for it |
| `ShardedHistories.ListIsEndOfLog` | push/history/sharded.go:175-192 | In any run and for every n what List shows is the end of what the shard stored since its last Clear, and for n > 0 the newest n of all it shows |
| `ShardedHistories.GroupByShard` | push/history/sharded.go:140-145 | The grouping map holds each shard's records in order, and no empty group |
| `ShardedHistories.ShardedHistory.BatchPush` | push/history/sharded.go:135-155 | Whatever order the map is walked in, each shard gets its share; a panic happens exactly if a jammed shard gets records, and then every shard is written whole or not at all |
| `ShardedHistories.ShardedHistory.Push` | push/history/sharded.go:98-109 | Pushes into the shard of the key and no other; an empty key is ignored |
| `ShardedHistories.ShardedHistory.List` | push/history/sharded.go:175-192 | Nothing for n < 0 or an empty key, all for n = 0, else the newest n of the shard |
| `ShardedHistories.ShardedHistory.SetSize` | push/history/sharded.go:244-254 | Resizes every shard, or nothing for n <= 0 |
| `ShardedHistories.ShardedHistory.CountAll` | push/history/sharded.go:295-306 | The sum of the shards' counts |
| `ShardedHistories.ShardedHistory.ClearAll` | push/history/sharded.go:317-326 | Empties every shard |
| `ShardedHistories.CountAllCounts` | push/history/sharded.go:295-326 | CountAll grows by one with each record stored where there is room, not otherwise, and is 0 after ClearAll |
| `Histories.LazyIsEager` | push/history/history.go:73-89 | In any run with sizes up to 2^31 - 1 each key shows the ring buffer that existed from the start and saw only the calls for its key: making buffers late and walking the map cannot be observed |
| `Histories.SetSizeReachesLaterKeysIff` | push/history/history.go:137-147 | Corollary of SetSize: SetSize(n) also holds for keys first used later if and only if n <= 2^31 - 1: the default is kept as an int32 |
| `Histories.UnusedKeys` | push/history/history.go:73-89 | Corollary of the steps: an unused key is empty with the size last set for all, 1024 if that is not positive, which it also is for SetSize(2^31) |
| `Histories.KeysAreUsed` | push/history/history.go:73-89 | In any run a key has a buffer exactly if a call has used it, List included |
| `Histories.KeyIsEndOfItsLog` | push/history/history.go:107-120 | What a key lists is the end of its own log |
| `Histories.KeyedHistory.GetBuffer` | push/history/history.go:73-89 | Returns the ring buffer object the map holds for the key, made, stored and empty with the default capacity if there was none |
| `Histories.KeyedHistory.Push` | push/history/history.go:240-248 | Pushes on that object: the key's contents gain the element, other keys keep theirs; a panic exactly if the buffer is jammed |
| `Histories.KeyedHistory.SetSize` | push/history/history.go:137-147 | Resizes every ring buffer object in any order and sets the default for later ones |
| `Histories.KeyedHistory.List` | push/history/history.go:107-120 | Nothing for n < 0, GetAll for n = 0, else GetLast(n) of the key's buffer |
| `MetricTables.ShardedAnswersAlike` | push/metrics/sharded.go:173-479 | For every sequence of operations the sharded form gives the same answers as the single table and holds the same metrics |
| `MetricTables.ReplyOfShards` | push/metrics/sharded.go:300-479 | Each answer gathered from sixteen shards, among them Flush, Snapshot, Count and Keys, is that of the single table |
| `MetricTables.UpdateKeepsSpread` | push/metrics/sharded.go:153-284 | Every operation keeps each metric in its own shard and equal to the single table's |
| `MetricTables.FlushesAddUp` | push/metrics/metrics.go:344-355 | In any run without reset, what Flush reported for a metric plus its unreported change is its whole change: nothing is reported twice or forgotten |
| `MetricTables.PeriodAccount` | push/metrics/metrics.go:316-386 | From a Register, Clear or FlushAndReset on, the sum of the Flush values plus GetDelta is accum - init |
| `MetricTables.GetAddsUp` | push/metrics/metrics.go:181-303 | In any run whose sums stay between the bounds Get shows the first value and all steps and deltas since, added up |
| `MetricTables.ValuesShow` | push/metrics/metrics.go:153-438 | What Set, Register, Clear, FlushAndReset, Flush and the cut operations leave, as Get, GetDelta, Snapshot and Flush then show it |
| `MetricTables.MaximumHolds` | push/metrics/metrics.go:209-277 | With step >= 0, min <= max and init <= max, accum <= max is kept by every run without Set or Register on the metric |
| `MetricTables.BothBoundsHold` | push/metrics/metrics.go:209-277 | Both bounds are kept by every such run in which IncBy gets no negative delta |
| `MetricTables.IncByUndercutsIff` | push/metrics/metrics.go:266-277 | Corollary of IncBy: it leaves the metric below its minimum if and only if the plain sum is below it |
| `MetricTables.RegisterKeepsIff` | push/metrics/metrics.go:153-166 | Corollary of Register: the metrics stay as they are if and only if the name is there already with exactly the record that Register stores |
| `MetricTables.Walk` | push/metrics/metrics.go:344-438 | The loops of Flush, FlushAndReset, Snapshot and Clear visit every record once, in any order |
| `MetricTables.Metrics.Inc` | push/metrics/metrics.go:209-220 | Adds the step, cut at the maximum; other metrics unchanged; unknown names ignored |
| `MetricTables.Metrics.Dec` | push/metrics/metrics.go:235-246 | Subtracts the step, cut at the minimum |
| `MetricTables.Metrics.IncBy` | push/metrics/metrics.go:266-277 | Adds delta, cut at the maximum only |
| `MetricTables.Metrics.Flush` | push/metrics/metrics.go:344-355 | Reports the change since the last Flush and marks it sent |
| `MetricTables.Metrics.FlushAndReset` | push/metrics/metrics.go:374-386 | Reports the values and returns every metric to init |
| `MetricTables.ShardedMetrics.Inc` | push/metrics/sharded.go:221-233 | Does to the one-table view what Metrics.Inc does |
| `MetricTables.ShardedMetrics.Flush` | push/metrics/sharded.go:352-364 | Does to the one-table view, and returns, what Metrics.Flush does |
| `MetricTables.ShardedMetrics.FlushAndReset` | push/metrics/sharded.go:378-391 | Does to the one-table view, and returns, what Metrics.FlushAndReset does |
| `MetricTables.ShardedMetrics.Snapshot` | push/metrics/sharded.go:405-416 | Returns the values of the one-table view |
| `MetricTables.ShardedMetrics.Count` | push/metrics/sharded.go:447-456 | The number of metrics of the one-table view |
| `MetricTables.ShardedMetrics.Keys` | push/metrics/sharded.go:468-479 | The names of the one-table view, each once |
| `ChunkNames.IndexRoundTrip` | pkg/file/upload.go:308-314 | A chunk name formatted from an index parses back to it iff it fits in 64 bits; a parsable name is one ChunkSave gives iff it has no leading zero |
| `ChunkNames.FormatIsInjective` | pkg/file/upload.go:126-127 | Different indexes have different file names |
| `Uploads.StreamIsFaithfulIff` | pkg/file/upload.go:318-329 | A streamed upload is stored whole, or refused for being too long or broken, for exactly the size limits up to (2^63-1)/2^20 megabytes; above that limit+1 wraps and an empty file is saved as success |
| `Uploads.MaxSizeBytes` | pkg/file/upload.go:40-50 | The byte limit is at least one megabyte and saturates at 2^63 - 1 exactly for MaxSize above (2^63-1)/2^20 |
| `Uploads.MaxSizeIsMegabytes` | pkg/file/upload.go:40-50 | MaxSize is in units of 1048576 bytes, at least one, up to 8796093022207 of them; beyond that the limit is 2^63 - 1 |
| `Uploads.DataIsStoredIff` | pkg/file/upload.go:131-138 | Data is stored byte for byte exactly if it is no longer than MaxSize megabytes |
| `Uploads.IdsArePlainNames` | pkg/file/upload.go:296-306 | An accepted upload id is one plain name: neither . nor .., no separator, wildcard, white space or control character; printable ASCII names without these are accepted |
| `Uploads.Disk.WriteFileAtomic` | pkg/file/internal.go:38-70 | With a failure possible at each system call: success replaces the destination by the complete contents and nothing else; failure, and every moment before the rename, changes at most the temporary file, which stays only if removing it fails |
| `Uploads.Disk.ChunkSave` | pkg/file/upload.go:113-139 | Success files the payload under the decimal index, replacing an earlier one; failure changes at most a temporary file; it succeeds whenever input and system calls allow |
| `Uploads.ReadChunkFiles` | pkg/file/upload.go:391-415 | Succeeds exactly if every regular file has an index as its name and no index occurs twice; then lists them all, ascending |
| `Uploads.GluedIsJoined` | pkg/file/upload.go:357-378 | Copying the listed files in order gives the chunks in ascending numeric order of their indexes |
| `Uploads.Disk.MergeFiles` | pkg/file/upload.go:349-388 | Success: the destination is the chunks in numeric order and the chunks are gone. Failure: all chunks survive with no new file but a temporary one, or the destination is complete and exactly the chunks that RemoveAll left remain |
| `Uploads.MergedChunksAreLastPayloads` | pkg/file/upload.go:113-184 | After any successful ChunkSave calls the directory is readable and its chunks are exactly the last payload saved per index |
| `Uploads.UploadRoundTrip` | pkg/file/upload.go:113-388 | After any saves and merges of any uploads, failing or not, an upload's directory is readable, and a successful MergeFiles leaves its surviving chunks in ascending order in the destination and changes nothing else but that its chunks are gone; the file is the last payload of each index saved since the last merge if and only if every chunk that a failed RemoveAll took away has been saved again or is empty |
| `Uploads.SurvivingIsNotLost` | pkg/file/upload.go:384-386 | The chunks that survive any calls are the last payloads saved since the last merge, but for those that a failed RemoveAll took away and nobody saved again |
| `Uploads.EventsById` | pkg/file/upload.go:113-184 | Failed calls and calls for other uploads leave no trace in the directory of an upload; without a failed RemoveAll it holds exactly what was saved since the last merge |
| `Uploads.ReadableHasChunks` | pkg/file/upload.go:391-415 | Every readable directory determines a set of chunks |
| `Uploads.ChunksAreUnique` | pkg/file/upload.go:391-415 | A directory determines at most one set of chunks |
| `Uploads.StrayTempBlocks` | pkg/file/internal.go:55-68 | A temporary file that could not be removed from a chunk directory makes every later merge fail, whatever is saved afterwards |

## Left out

- Network, WebSocket, HTTP, SSH, SFTP and PTY input and output, TLS, timeouts and keep-alive: they appear as nondeterministic success, failure or data.
- JSON, MsgPack and Protobuf encoding: a codec is a name and a frame type.
- The Go memory model: a step is atomic and sequentially consistent; aliasing of byte slices and pooled buffers is not modelled.
- Fairness: `DrainCompletes`, `AgentsEnd`, `AllCanEnd`, `ClosedWindsDown`, `CloseCanReturn` and `CloseReturnsIff` bound and exhibit the remaining steps; that the scheduler takes them is not modelled.
- PushPool: jobs that AsyncPushTimeout sends itself when the queue is full pass no queue and no counter, so they are not in the model; job identities stand for payload and address.
- Batches.BatchCountsAll: the outcome of each push is a parameter, not tied to the pool.
- SocketServer: rejected connections, accept errors that the loop survives, and OnError callbacks; Listen and Close calls that lose the CAS are not steps because they change nothing.
- SocketClient: writes, reconnecting after Close (refused by the code) and the telnet client's own Read, which reports ErrClientClosed where these clients report EOF.
- Telnet Auth and its prompt timing.
- WsTopics: connection identifiers are taken to be unique; Publish and the filtered broadcasts only read a snapshot.
- WsReplies.RepliesInOrder: a queue of capacity 0 hands over directly to a waiting writer; the model refuses there.
- WsClient: the health loop appears only as a loss of the connection; requests and responses are not modelled.
- Locks of ring buffers, histories and metrics: that a panic leaves a shard locked is not modelled; each operation is one step, so a Flush that overlaps other operations is not modelled, although the code locks shard by shard.
- Histories: `Keys`, and a `History` shared by goroutines: LoadOrStore never finds a buffer that another call has just stored.
- Metrics records are values in a map; values are exact reals, so rounding, infinities and NaN are not modelled.
- The FNV hash: any function from strings to numbers, taken modulo 16.
- Upload: file permissions, symbolic links, case-insensitive file systems, name cleaning and extension checks (genPath, checkNameAndExt), single-file Save, and the 64-entry lock table; the upload lock is taken as given, so operations of one storage directory do not overlap.
- StreamIsFaithfulIff: a negative MaxSize counts as one megabyte as in the code; sizes are unbounded integers except for the int64 sum limit + 1 and the saturation.
- pkg/crypto, pkg/parse, pkg/date, pkg/generate, pkg/cmd, pkg/state, pkg/fetch, push/timer, archives, CSV, JSON and text files: small, finite or wrappers over libraries.
