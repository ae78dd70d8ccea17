# A verified model of the load balancer's core

This project models the parts of a TCP/HTTP load balancer in which correctness is not visible in
any one function, and proves what they are for:

- **Connection lifecycle** (`lifecycle_*.dfy`, `proxy.dfy`, `event_*.dfy`, `sweeps.dfy`).
  Six maps keyed by descriptor, peer links, per-backend counters, the backpressure gauge and the
  memory budget are one state. `Lifecycle` gives every operation as a function of that state;
  `ProxyTables.Tables` is the object that updates it in place, and each of its methods is proved
  to compute the function. `LifecycleRuns.Step` lists what a reactor callback can do, with the
  kernel as an oracle: fresh descriptors, any read and write sizes, any outcome of a connect.
  The event handlers, with the TCP forwarder, are proved to produce only runs of such steps
  without a rewrite, so the theorems about every run, and about every TCP run, hold of every
  sequence of events. `LifecycleEffects` says what each operation achieves, and `EventLaws` what each
  event does, in terms of what the system calls return. `ReconcileRuns` joins these tables with the backend pool in one system.
- **Bytes and memory** (`lifecycle_bytes.dfy`, `memory_budget.dfy`, `budget_threads.dfy`): streams
  are carried exactly, the budget equals the buffers' contents, and the compare-and-swap loops are
  exact for any number of threads, one atomic access at a time.
- **Log drain** (`log_drain.dfy`, `log_order.dfy`): producers, the pending flag, the thread pool's
  queue and its workers, in every interleaving; and when lines keep their order.
- **HTTP/1.1 requests** (`http_*.dfy`): the parser object, its prefix behaviour, and the round trip
  with the serializer, with the exact set of requests for which it holds.
- **Routing** (`routing*.dfy`), **reconcile** (`reconcile*.dfy`), **rate limiter**, **connection
  pool**, **health checker** and **custom headers**, each against a specification that does not
  mention its loops.

`collections.dfy`, `remainders.dfy` and `words.dfy` hold general facts and sizes; `backends.dfy` the node record.
Descriptors, bytes, node identities, pooled connections and log lines are abstract types: nothing
depends on what they are.

Where code and documentation disagree the model follows the code. Seven natural statements are
false of it. For each the project has a failing input and says exactly when the statement holds:

| statement | holds exactly when | fails at |
|---|---|---|
| at most one drain is in flight (`architecture.md:164`) | `LogOrder.DrainsNeverOverlapIff`: at most one worker, or no producer | `LogOrder.TwoDrainsCanOverlap` |
| log lines reach the file in the order of acceptance | `LogOrder.WrittenInOrderIff`: under the same condition | `LogOrder.LinesCanSwap` |
| a reservation succeeds only if it fits | `MemoryBudget.ReserveIsExactIff`: limit and request fit in 64 bits, which holds of all callers (`LifecycleBytes.ReserveIsExact`) | `MemoryBudget.WrappingRequestIsAdmitted` |
| bytes that are read are counted | `LifecycleBytes.ReadIsCountedIffLimited`: the limit is positive | `LifecycleBytes.UnlimitedReadIsNotCounted` |
| every round of round robin is fair | `RoundRobinFairness.AlwaysFairIff`: the total weight is below 2^32, and divides 2^32 or belongs to one backend | `RoundRobinFairness.ThreeEqualBackendsAreNot` (the counter wraps), `RoundRobinFairness.TwoHeavyBackendsAreNot` (the sum wraps) |
| a request survives serializing and parsing | `HttpExactness.ComesBackIffWellFormed`, and for requests out of the parser `HttpExactness.ParsedComesBackIff` | `HttpExactness.LoneQuestionMarkIsLost`, `HttpExactness.UnknownVersionIsLost` |
| a header rule has one outcome | `CustomHeaderOutcomes.DecidedIff` for given headers and rule, `CustomHeaders.SafeIffUnambiguous` for the headers alone, `CustomHeaderOutcomes.SafeIffHarmless` for the rule alone | `CustomHeaders.AmbiguousHeadersAreNotSafe`, `CustomHeaders.TwiceNamedRulesAreNotSafe` |

## Model

| member | source | states |
|---|---|---|
| LifecycleRuns.ProxyStaysConsistent | src/core/connection_manager.cpp:59-251 | From a fresh proxy, every run of accept, connect, establish, retry, close, read, write, forward, rewrite, backpressure and pool steps keeps: both backend maps have one domain, each backend and its mapped client are mutual peers in the connection table and the mapping is injective; every live node's count is the number of established descriptors that refer to it; the gauge is the number of tracked descriptors; the budget's used bytes are the bytes in accounted buffers |
| LifecycleRuns.PairsAreDisjoint | src/core/backend_connector.cpp:132-148 | In every reachable state two backends never share a client, no client is a backend, and both sides of a pair are in the table and are each other's peers |
| LifecycleRuns.ClosingLeavesNoTrace | src/core/connection_manager.cpp:59-219 | In every reachable state, closing a descriptor removes it and its old peer, and nothing else, from all six maps, and neither is left as anybody's client |
| LifecycleRuns.ClampsNeverFire | src/core/backend_node.h:38-43 | In every reachable state an established backend's node has a positive count and the budget covers every accounted connection, so neither clamp loses anything |
| LifecycleRuns.TcpCarriesEveryByte | src/core/data_forwarder.cpp:16-68 | In every reachable state of a TCP-mode run, for each pair and each direction, bytes read from one side are bytes written to the other, then its write buffer, then this side's read buffer; all four buffers stay within 65536 bytes |
| LifecycleRuns.RetryKeepsUnreadBytes | src/core/event_handlers.cpp:48-68 | In every reachable state a failed connect either gives the client up or pairs it again with every byte and its whole history unchanged and a strictly larger retry count, which never exceeds three |
| LifecycleRuns.StepKeepsInv | src/core/event_handlers.cpp:70-340 | Every single step, from any consistent state, leads to a consistent state |
| LifecycleRuns.StepKeepsStreams | src/core/data_forwarder.cpp:16-68 | Every single step except an HTTP rewrite keeps both byte streams of every pair |
| LifecycleRuns.EstablishKeepsInv | src/core/event_handlers.cpp:238-249 | When a connecting backend becomes established its node's count grows by exactly the one descriptor that now refers to it |
| LifecycleRuns.AcceptKeepsInv | src/core/load_balancer.cpp:1290-1423 | Accepting a client and routing it, through every attempt, keeps the whole invariant |
| LifecycleRuns.HandshakeKeepsInv | src/core/load_balancer.cpp:119-127 | A client taken out of the table after its handshake and routed keeps the whole invariant |
| LifecycleRuns.PoolChangeKeepsInv | src/core/load_balancer.cpp:916-962 | Removing idle nodes, adding new ones and changing health keeps the counts exact |
| LifecycleRuns.RemovedNodesAreIdle | src/core/load_balancer.cpp:951-962 | A node that is removed has no established connection that refers to it |
| LifecycleClosing.CloseRemovesPair | src/core/connection_manager.cpp:59-219 | In any state with consistent links the close removes exactly the descriptor and its peer from all six maps |
| LifecycleClosing.CloseKeepsBooks | src/core/connection_manager.cpp:83-213 | Both decrements, both gauge updates and both releases of a close leave counts, gauge and budget exact |
| LifecycleClosing.CloseKeepsInv | src/core/connection_manager.cpp:59-219 | Closing any descriptor, known or not, keeps the whole invariant |
| LifecycleClosing.CloseKeepsStreams | src/core/connection_manager.cpp:59-219 | Closing a pair leaves every other pair's streams as they were |
| LifecycleClosing.BackendOnlyKeepsInv | src/core/connection_manager.cpp:221-251 | Closing only the backend leaves its client, without a peer, in a consistent table |
| LifecycleClosing.BackendOnlyKeepsStreams | src/core/connection_manager.cpp:221-251 | Closing only the backend leaves the other pairs' streams and the client's bytes as they were |
| LifecycleConnecting.LinkKeepsInv | src/core/backend_connector.cpp:210-235 | Entering a client and a fresh backend descriptor, connecting or established, keeps links, counts, gauge and budget |
| LifecycleConnecting.ConnectKeepsInv | src/core/backend_connector.cpp:77-249 | However many attempts are made, pooled, immediate, in progress, refused, unresolved or with no backend, the tables end up consistent |
| LifecycleConnecting.ConnectKeepsStreams | src/core/backend_connector.cpp:77-249 | The same attempts carry the client's unread bytes into the new pair |
| LifecycleConnecting.ConnectRoutes | src/core/backend_connector.cpp:77-249 | Routing either gives the client up, leaving the table as it was, or adds exactly the client with unchanged bytes and one fresh peer, with at most three retries |
| LifecycleConnecting.RetryKeepsInv | src/core/retry_handler.cpp:13-22 | A retry from any count keeps the whole invariant, whether it connects or gives up |
| LifecycleConnecting.RetryBackendKeepsInv | src/core/event_handlers.cpp:48-68 | Closing the failed backend, taking its client out of the table and retrying keeps the whole invariant |
| LifecycleConnecting.RetryBackendRoutes | src/core/event_handlers.cpp:48-68 | In any consistent state a failed connect can be retried, and the client keeps its bytes, with a strictly larger count within the bound |
| LifecycleEffects.ConnectEffect | src/core/backend_connector.cpp:77-249 | The first attempt that is not refused decides, if no more than three retries lead to it: if it is pooled, immediate or in progress the client is paired with exactly its socket and node, connecting exactly when in progress and counted otherwise, with that many more retries recorded; in every other case the client's bytes are given back and nothing else changes |
| LifecycleEffects.RetryEffect | src/core/event_handlers.cpp:48-68 | A failed backend leaves the tables, and its client is routed again in that way with one more retry, or given up after three |
| LifecycleEffects.AcceptEffect | src/core/load_balancer.cpp:1290-1423 | An accepted client is routed in that way with no retries yet |
| LifecycleEffects.HandshakeEffect | src/core/load_balancer.cpp:119-127 | After its handshake a client is established and routed in that way |
| LifecycleEffects.ArrivalEffect | src/core/load_balancer.cpp:1290-1423 | A TLS client waits for its handshake, and a rejected one, unaccounted, for its response to be sent |
| LifecycleEffects.EstablishEffect | src/core/event_handlers.cpp:238-249 | The backend is established and its node has one connection more; nothing else changes |
| LifecycleEffects.BackendOnlyEffect | src/core/connection_manager.cpp:221-251 | Exactly the backend leaves; its client stays with everything but its peer |
| LifecycleBytes.ReadIsExact | src/net/connection.cpp:37-91 | A read grows the buffer and the budget by the same bytes, or neither, and never beyond the limit |
| LifecycleBytes.ReadIsCountedIffLimited | src/core/memory_budget.h:34-37 | A read for which there is room in the budget, or no limit, grows the used bytes by what it delivers if and only if the limit is positive |
| LifecycleBytes.UnlimitedReadIsNotCounted | src/net/connection.cpp:45-90 | Without a limit a one-byte read is not counted, and gives back 65535 bytes that are not its own |
| LifecycleBytes.ReadKeepsInv | src/net/connection.cpp:37-91 | Any read outcome keeps the whole invariant |
| LifecycleBytes.WriteIsExact | src/net/connection.cpp:93-116 | A write takes a prefix off the write buffer and the same number of bytes off the budget |
| LifecycleBytes.WriteKeepsInv | src/net/connection.cpp:93-116 | Any write outcome keeps the whole invariant |
| LifecycleBytes.RewriteIsExact | src/core/http_data_forwarder.cpp:244-255 | Replacing a read buffer changes the budget by the difference of the two sizes, and happens only if the budget allows it |
| LifecycleBytes.RewriteKeepsInv | src/core/http_data_forwarder.cpp:244-255 | A header rewrite of any size keeps the whole invariant |
| LifecycleBytes.ShiftCarries | src/core/data_forwarder.cpp:38-44 | Moving a prefix of one read buffer to the end of the peer's write buffer keeps the stream equation in both directions |
| LifecycleBytes.ForwardKeepsInv | src/core/data_forwarder.cpp:16-68 | Forwarding, with any write outcome and any backpressure decision, keeps the whole invariant |
| LifecycleBytes.ForwardKeepsStreams | src/core/data_forwarder.cpp:16-68 | Forwarding keeps both streams of every pair |
| LifecycleEffects.ForwardDelivers | src/core/data_forwarder.cpp:16-68 | Between established peers as many unread bytes as fit move behind what was to be sent, and what is left over found the other side full; the pair closes exactly when something was moved and its write failed; otherwise the source is tracked exactly when the other side has bytes to send or had no room |
| LifecycleEffects.ReadEffect | src/net/connection.cpp:37-91 | What is added to the buffer, when the end is reported, when the connection counts as blocked, and when as full |
| LifecycleEffects.WriteEffect | src/net/connection.cpp:93-116 | Exactly what the kernel took is sent, and the write fails exactly when the kernel does and there was something to send |
| LifecycleEffects.RewriteEffect | src/core/http_data_forwarder.cpp:244-255 | The edited text replaces the buffer exactly when the budget has room for it |
| LifecycleEffects.PressureEffect | src/core/backpressure_manager.cpp:24-36 | Tracking starts once and keeps its first time, clearing ends it, and nobody else is touched |
| LifecycleBytes.PressureKeepsInv | src/core/backpressure_manager.cpp:24-36 | Starting or clearing backpressure, tracked or not, keeps the gauge equal to the number of tracked descriptors |
| LifecycleSweeps.ForceCloseEmptiesEverything | src/core/load_balancer.cpp:365-379 | From every reachable state and in every snapshot order, although a close may take another descriptor of the snapshot along: no connection remains, both backend maps are empty, every node count is zero and no byte is reserved |
| LifecycleSweeps.CloseAllRemoves | src/core/load_balancer.cpp:365-379 | A sweep over any descriptors removes them all, adds none, keeps the set of nodes and the whole invariant |
| LifecycleSweeps.CloseStalledKeepsInv | src/core/load_balancer.cpp:1043-1049 | The backpressure sweep keeps the whole invariant although it erases tracking entries without lowering the gauge |
| LifecycleSweeps.StalledSweepKeepsGauge | src/core/load_balancer.cpp:1024-1050 | After the sweep from any reachable state the gauge equals the number of tracked descriptors |
| ProxyTables.Tables.CloseConnection | src/core/connection_manager.cpp:59-219 | The object's six maps, counters, gauge and budget after the in-place close are those of the specification |
| ProxyTables.Tables.CloseBackendConnectionOnly | src/core/connection_manager.cpp:221-251 | The in-place backend close computes its specification; the client's retry count stays |
| ProxyTables.Tables.ConnectClient | src/core/backend_connector.cpp:77-249 | The branch of each attempt, and the recursion through retries, computes its specification |
| ProxyTables.Tables.RetryClient | src/core/retry_handler.cpp:13-22 | The bound is checked before the count grows |
| ProxyTables.Tables.EstablishBackend | src/core/event_handlers.cpp:238-249 | The state change and the node's increment are those of the specification |
| ProxyTables.Tables.TryRetryOnBackendError | src/core/event_handlers.cpp:48-68 | Whether a retry is made, and the whole state after it |
| ProxyTables.Tables.RouteAfterHandshake | src/core/load_balancer.cpp:119-127 | The client leaves the table and enters it again only through a connect |
| ProxyTables.Tables.ReadFromFd | src/net/connection.cpp:37-91 | Buffer, flags, budget and result of a read |
| ProxyTables.Tables.WriteToFd | src/net/connection.cpp:93-116 | Buffer, budget and result of a write |
| ProxyTables.Tables.ForwardData | src/core/data_forwarder.cpp:16-68 | Both buffers, the flags, tracking and a possible close after a forward |
| ProxyTables.Tables.StartTracking | src/core/backpressure_manager.cpp:24-31 | A descriptor is tracked, and counted in the gauge, once |
| ProxyTables.Tables.ClearTracking | src/core/backpressure_manager.cpp:33-36 | A descriptor leaves tracking and gauge together |
| EventHandlers.HandleBackendEvent | src/core/event_handlers.cpp:162-340 | The state after the event is the function of event and system calls that `EventLaws.BackendEventMeans` characterises, a retry's new socket with the number of the backend just closed included; it is reached by a run of steps without a rewrite, consistent tables stay consistent and every pair that carried its bytes still does |
| EventLaws.BackendEventMeans | src/core/event_handlers.cpp:162-340 | Stalled too long, the pair is closed. While connecting, a broken socket, a timeout or a socket error routes the client again, and otherwise the backend is established, counted, given what its client sent meanwhile, and served. A broken established backend passes on its last bytes and leaves its client behind. A read waits when the budget holds it back, closes the pair when its forward fails, ends the backend when the kernel says so, and otherwise passes on all that fits. A write sends what the kernel takes, closes the pair when it fails, and tracks exactly those with bytes to send |
| EventHandlers.HandleClientEvent | src/core/event_handlers.cpp:70-160 | The same for client events, characterised by `EventLaws.ClientEventMeans` |
| EventLaws.ClientEventMeans | src/core/event_handlers.cpp:70-160 | Stalled too long or broken, the pair is closed. A finished handshake routes the client, a pending one waits, a failed one closes. Reads and writes as for a backend, but at its end a client stays if it has an established backend, and is closed if not |
| EventLaws.KernelAnswersCount | src/net/connection.cpp:50-75 | Every answer that the kernel can give reaches the connection unchanged |
| EventHandlers.RunsJoin | src/core/event_handlers.cpp:70-340 | The runs of successive events are one run, in TCP mode if each of them is, so what holds of all runs holds after any sequence of events |
| Sweeps.ForceCloseAll | src/core/load_balancer.cpp:365-379 | The snapshot loop leaves no connection, no count and no reserved byte |
| Sweeps.CheckBackpressureTimeouts | src/core/load_balancer.cpp:1024-1050 | With no timeout nothing changes; otherwise every stalled connection is gone and untracked, a connection goes only if it or its peer was stalled, nothing is added, and the gauge is exact |
| MemoryBudget.ReserveIsExactIff | src/core/memory_budget.h:34-48 | A reservation succeeds exactly when it fits, for every counter up to the limit, if and only if limit plus request fits in 64 bits |
| MemoryBudget.WrappingRequestIsAdmitted | src/core/memory_budget.h:41-45 | A full budget of one byte admits a request of 2^64 - 1 bytes and forgets its byte |
| LifecycleBytes.ReserveIsExact | src/core/memory_budget.h:34-48 | For the limits that can be configured and the sizes of buffers a reservation is always exact |
| MemoryBudget.Budget.Reserve | src/core/memory_budget.h:34-48 | However often the weak exchange fails spuriously, the loop ends with the outcome of one undisturbed reservation |
| MemoryBudget.Budget.GiveBack | src/core/memory_budget.h:50-61 | The same for a release, which stops at zero |
| BudgetThreads.BudgetIsExact | src/core/memory_budget.h:34-61 | For any number of threads and any interleaving of single loads and exchanges, spurious failures included, used bytes never exceed the limit and equal successful reservations minus releases |
| BudgetThreads.ReleaseNeverClamps | src/core/memory_budget.h:50-61 | In every such interleaving a release that succeeds subtracts exactly what it gives back |
| BudgetThreads.ActKeepsInv | src/core/memory_budget.h:34-61 | Every single atomic access keeps: the counter is the sum of what the threads hold, and is within the limit |
| BudgetThreads.RefusedIffFull | src/core/memory_budget.h:39-42 | A reservation is refused exactly when it does not fit at the moment of its load |
| BudgetThreads.SwapCounts | src/core/memory_budget.h:43-61 | An exchange that meets the value it expects moves the counter by exactly the size of the call |
| LogDrain.DrainNeverStrandsALine | src/logging/logger.cpp:124-137 | In every interleaving the flag is set exactly when one drain is claimed, posted or taken and not started; a non-empty queue means the flag is set, a producer is between push and exchange, or a drainer is in its loop; accepted lines are the popped ones followed by the queue |
| LogDrain.QuiescenceIsComplete | src/logging/logger.cpp:181-192 | At rest the queue is empty, every accepted line has been popped in order and written exactly once |
| LogDrain.LogMeans | src/logging/logger.cpp:124-129 | A line is dropped exactly when ten thousand are waiting, and otherwise accepted behind all others |
| LogDrain.ActKeepsInv | src/core/thread_pool.cpp:25-58 | Every atomic step of a producer, of the pool's queue or of a worker keeps the hand-off invariant |
| LogDrain.SomebodyCanMove | src/core/thread_pool.cpp:36-58 | With at least one worker, a state that is not at rest always has an enabled step |
| LogDrain.EveryRunIsShort | src/logging/logger.cpp:181-192 | A run without new input has no more steps than the work at its start |
| LogDrain.EveryFinishedRunWroteEverything | src/logging/logger.cpp:181-192 | Every input-free run from a reachable state, however it is scheduled, is at most as long as the work at its start, and once nobody can move exactly the accepted lines have been written |
| LogDrain.EveryLineGetsWritten | src/logging/logger.cpp:181-192 | Such a run exists from every reachable state |
| LogOrder.DrainsNeverOverlapIff | src/logging/logger.cpp:181-192 | In every reachable state at most one worker is in the drain loop if and only if the pool has at most one worker or nobody logs |
| LogOrder.WrittenInOrderIff | src/logging/logger.cpp:185-191 | In every reachable state the written lines are a prefix of the accepted ones under exactly the same condition |
| LogOrder.OneWorkerWritesInOrder | src/logging/logger.cpp:181-192 | With at most one worker the accepted lines are, in every reachable state, the written ones, then the one in hand, then the queue |
| LogOrder.TwoDrainsCanOverlap | src/logging/logger.cpp:181-192 | With a producer and two workers, two workers can be in the drain loop at once, each with a line in hand |
| LogOrder.LinesCanSwap | src/logging/logger.cpp:185-191 | And then the line accepted second can reach the file first |
| HttpExactness.ComesBackIffWellFormed | src/core/http_data_forwarder.cpp:263-284 | A request comes back from every enumeration order of its headers and every trailing text if and only if it has a known version, a non-empty target free of spaces whose path has no question mark, trimmed one-line headers whose names have no colon, and length headers that all announce the body that is there (sections 3, 5 and 6.2 of RFC 9112) |
| HttpExactness.ParsedComesBackIff | src/core/http_data_forwarder.cpp:207-261 | A request that the parser has produced from any bytes comes back if and only if its version is known, its target is not empty and its length headers all announce its body |
| HttpExactness.LoneQuestionMarkIsLost | src/http/http_request.cpp:196-202 | "GET ? HTTP/1.1" is accepted, and its serialized form is refused |
| HttpExactness.UnknownVersionIsLost | src/http/http_request.cpp:315-326 | "GET / HTTP/3" is accepted, and comes back as HTTP/1.1 |
| HttpExactness.ParsedIsClean | src/http/http_request.cpp:130-264 | Whatever the bytes, a parsed request has a path without spaces and question marks, a query without spaces, and trimmed one-line headers |
| HttpRoundTrip.ParseUndoesSerialize | src/http/http_request.cpp:130-264 | For every well-formed request, header order and trailing text, a fresh parser returns the request and consumes exactly its text |
| HttpRoundTrip.RequestLineRoundTrip | src/http/http_request.cpp:183-214 | Method, path, query and any known version come back from a serialized request line |
| HttpRoundTrip.HeadersRoundTrip | src/http/http_request.cpp:216-245 | Every serialized header line is read back, in any order, and the empty line ends them |
| HttpRequestLaws.ParsingIsPrefixDetermined | src/http/http_request.cpp:130-181 | A fresh parser that succeeds or fails after k bytes gives the same request or error and the same k on every buffer that shares those k bytes |
| HttpRequestLaws.MoreBytesChangeNothing | src/http/http_request.cpp:130-181 | A request or an error, once found, is found again unchanged whatever bytes follow |
| HttpRequestLaws.ParsingStaysInTheBuffer | src/http/http_request.cpp:130-264 | The consumed count never exceeds the buffer |
| HttpNumbers.LengthIsDecimal | src/http/http_request.cpp:234-242 | With leading space, plus sign, leading zeros and any text behind it that starts with no digit, the decimal text of n announces n if n is below 2^64, and is an error otherwise |
| HttpNumbers.StoulReads | src/http/http_request.cpp:234-242 | For every space, sign, run of digits and remainder: without digits, or with a value of 2^64 or more, there is no number; a minus sign negates modulo 2^64 |
| HttpNumbers.NamesAreStandard | src/http/http_request.cpp:266-326 | Each method and version has its standard name, and no other word is read as it (section 9.1 of RFC 9110, section 2.3 of RFC 9112) |
| HttpTextLaws.LineEndings | src/http/http_request.cpp:140-157 | A line ends with CRLF or LF; with CR alone, or without an end, it has not arrived |
| HttpTextLaws.RequestLineMeans | src/http/http_request.cpp:183-214 | A request line is its words: fewer than two are invalid, two lack a version, and otherwise the second splits into path and query at its first question mark |
| HttpTextLaws.HeaderMeans | src/http/http_request.cpp:216-245 | A header line splits at its first colon and its value lies between blanks; without a colon, or with a length that is no number, it is an error; only a length header changes the announced length |
| HttpTextLaws.IncompleteWaits | src/http/http_request.cpp:130-264 | Every proper prefix of a well-formed request's text is neither a request nor an error |
| HttpTextLaws.SerializedTextIs | src/core/http_data_forwarder.cpp:263-284 | The serialized text is the request line, one line for each header and an empty line, each ended by CRLF, and the body |
| HttpTextLaws.CharacterClasses | src/http/http_request.cpp:140-228 | Which characters end lines, separate words and surround values |
| HttpParser.RequestParser.Parse | src/http/http_request.cpp:130-181 | The line loop, from any parser state, leaves the state, result and consumed count of the specification |
| HttpParser.RequestParser.ParseRequestLine | src/http/http_request.cpp:183-214 | The object after a request line, with its two error messages |
| HttpParser.RequestParser.ParseHeader | src/http/http_request.cpp:216-245 | The object after a header line, trimmed value and announced length included |
| HttpParser.RequestParser.ParseBody | src/http/http_request.cpp:247-264 | The body and the consumed count, or a wait for more bytes |
| HttpParser.RequestParser.Reset | src/http/http_request.cpp:121-128 | A reset parser is a fresh one |
| HttpParser.SerializeRequest | src/core/http_data_forwarder.cpp:263-284 | The loop produces the text whose parsing is characterised above |
| RoundRobinFairness.ExactlyFair | src/core/backend_pool.cpp:67-89 | Any W consecutive choices from any counter choose each backend exactly weight times, if the counter does not wrap inside the window or W divides 2^32 |
| RoundRobinFairness.NearlyFair | src/core/backend_pool.cpp:67-89 | Any n consecutive choices choose a backend between floor(n/W) and floor(n/W)+1 times its weight |
| RoundRobinFairness.AlwaysFairIff | src/core/backend_pool.cpp:67-89 | For every list of weights that a pool can have, every window of W choices is fair, those across the wrap of the counter included, if and only if W is below 2^32 and divides 2^32 or belongs to one backend |
| RoundRobinFairness.TwoHeavyBackendsAreNot | src/core/backend_pool.cpp:69-75 | Of two backends of weight 2^31, whose 32-bit sum is zero, the second is never chosen |
| RoundRobinFairness.OverflowIsNeverPicked | src/core/backend_pool.cpp:69-88 | The backend at which the running sum reaches 2^32 is never chosen, from any counter |
| RoundRobinFairness.ThreeEqualBackendsAreNot | src/core/backend_pool.cpp:77-78 | Three backends of weight one, at the wrap, are a window in which the first is chosen twice |
| Routing.SomeBackendIsInTurn | src/core/backend_pool.cpp:80-88 | Even if the 32-bit sums wrap, the first backend whose running sum exceeds the target is chosen, so the final return is unreachable |
| Routing.ChoosesEligible | src/core/backend_pool.cpp:21-65 | A backend is returned exactly when one is healthy and below the cap, and it is such a one, sticky or not |
| RoutingSelection.SelectionIsFair | src/core/backend_pool.cpp:21-65 | Over W consecutive round-robin selections, W being the total weight of the backends that are healthy and below the cap, each of these is returned exactly its weight times, from any counter, if the counter does not wrap or W divides 2^32 |
| RoutingSelection.SelectionIsNearlyFair | src/core/backend_pool.cpp:21-65 | Over any n selections each is returned between floor(n/W) and floor(n/W)+1 times its weight |
| RoutingSelection.NamedBackendIsReturned | src/core/backend_pool.cpp:27-35 | A named backend that is healthy and below the cap is returned, under both algorithms |
| RoutingSelection.OtherNamesDoNotMatter | src/core/backend_pool.cpp:27-35 | A name that is not in the pool, or not to be chosen, is as good as none |
| RoutingSelection.CounterMoves | src/core/backend_pool.cpp:77-78 | The counter moves by one modulo 2^32 with each selection by turns |
| Routing.Pool.SelectBackend | src/core/backend_pool.cpp:21-65 | The stickiness check, the filter and both algorithms compute the specified choice, and the counter moves only for round robin |
| Routing.Pool.SelectWeightedRoundRobin | src/core/backend_pool.cpp:67-89 | Both 32-bit loops compute whose turn it is |
| Routing.Pool.RemoveBackend | src/core/backend_pool.cpp:13-19 | Exactly the nodes with this host and port go, in place and in order |
| LeastConnectionsBalance.LoadStaysBalanced | src/core/backend_pool.cpp:53-62 | Over any run of choices from an idle pool, with any weights: for every busy i and every j that can still be chosen, (a_i - 1) * w_j <= a_j * w_i, and no count exceeds a non-zero cap |
| LeastConnectionsBalance.LightestIsNoHeavier | src/core/backend_pool.cpp:53-60 | The scan ends at a backend whose load no candidate undercuts, a weight of zero included |
| LeastConnectionsBalance.LightestIsFirst | src/core/backend_pool.cpp:53-60 | Every candidate with positive weight before the chosen one is strictly heavier |
| LeastConnectionsBalance.DispatchAddsOne | src/core/backend_node.h:35-37 | Each choice adds one connection in total, until nothing is eligible |
| ReconcileLaws.ReconciledIs | src/core/load_balancer.cpp:916-962 | The three loops together: old nodes in their order, configured ones no longer draining, others draining or gone if idle, then one new node for the first entry of each new key |
| ReconcileLaws.ReconcileIsRight | src/core/load_balancer.cpp:916-946 | Afterwards keys are unique, every configured backend is present and not draining, and every other remaining node is draining with a positive count |
| ReconcileLaws.ReconcileIsIdempotent | src/core/load_balancer.cpp:916-946 | Applying the same configuration again changes nothing |
| ReconcileLaws.SettleKeeps | src/core/load_balancer.cpp:923-943 | A node that stays keeps its identity, key, weight and connection count, and a configured one its health unless it was draining |
| ReconcileLaws.NodesComeFrom | src/core/backend_node.cpp:7-9 | Every node of a reconciled pool is an old one, changed at most in its health, or a healthy and idle one with the host, port and weight of the first entry for its key, a weight of zero counting as one |
| ReconcileLaws.KeysStayUnique | src/core/load_balancer.cpp:1052-1057 | Over every run of configurations, cleanups, additions and health or count changes no key occurs twice |
| ReconcileLaws.CleanupDropsOnlyDrained | src/core/load_balancer.cpp:951-962 | Although removal is by key, a cleanup drops exactly the draining nodes without connections |
| ReconcileLifecycle.ReconcileIsSafe | src/core/load_balancer.cpp:916-962 | In every consistent state of the connection tables a reconcile keeps the whole invariant, and a node that it removes has no established connection |
| ReconcileRuns.SystemStaysConsistent | src/core/load_balancer.cpp:916-962 | In every joint history of connection tables and pool, from an empty proxy: the tables stay consistent, the pool lists exactly their nodes, and no key occurs twice |
| ReconcileRuns.ConfiguringIsSafe | src/core/load_balancer.cpp:916-946 | Whenever a configuration is applied in such a history, every configured backend is present and not draining, every other remaining node is draining and has an established connection, and a removed node has none |
| LifecycleNodes.StepsAreAlike | src/core/backend_node.h:35-43 | No step on the connection tables changes anything about a node but its connection count |
| Reconcile.ReconcileBackends | src/core/load_balancer.cpp:916-946 | The loops over snapshot, configuration and pool, in place, compute the reconciled pool |
| Reconcile.CleanupDrained | src/core/load_balancer.cpp:951-962 | The loop over a snapshot of the pool that it shrinks computes its specification |
| RateLimiter.PruningIsInvisible | src/core/load_balancer.cpp:1152-1206 | For any interleaving of checks and cleanups with a monotone clock, every decision is that of a limiter which keeps every accepted time for ever |
| RateLimiter.WindowIsLimited | src/core/load_balancer.cpp:1163-1178 | No closed interval of one window's length holds more accepts from one limited address than the configured maximum |
| RateLimiter.DecisionMeans | src/core/load_balancer.cpp:1152-1179 | After any run a connection from a known address is accepted exactly when fewer than the limit have been accepted from it in the window before it |
| RateLimiter.OthersAreAccepted | src/core/load_balancer.cpp:1154-1155 | Without a configuration, with the limiter off or from an unknown address everything is accepted and nothing remembered |
| RateLimiter.TidyMeans | src/core/load_balancer.cpp:1181-1206 | A cleanup keeps exactly the addresses accepted in the window, with those times |
| RateLimiter.CheckAgrees | src/core/load_balancer.cpp:1152-1179 | A single check decides as the reference does and keeps the two in agreement on every address |
| RateLimiter.TidyAgrees | src/core/load_balancer.cpp:1181-1206 | A cleanup loses nothing that a later check could count |
| RateLimiter.Limiter.CheckRateLimit | src/core/load_balancer.cpp:1152-1179 | Decision and tracker, for missing or disabled configuration and empty or unknown address too |
| RateLimiter.Limiter.CleanupEntries | src/core/load_balancer.cpp:1181-1206 | Erasing while iterating leaves exactly the addresses with recent times |
| ConnectionPoolLaws.PoolStaysSound | src/core/connection_pool.cpp:22-94 | In every disciplined run idle and lent connections are distinct and disjoint, the active count is the number lent, active plus idle never exceeds the maximum, and idle is ordered by last use |
| ConnectionPoolLaws.BorrowKeepsInv | src/core/connection_pool.cpp:22-58 | A borrow keeps all that, lends a connection that was not lent, and returns nothing exactly when no idle connection is usable and none may be or could be created |
| ConnectionPoolLaws.BorrowEffect | src/core/connection_pool.cpp:22-58 | The first idle connection that is usable is lent, those before it are dropped and those behind it kept; only if there is none is a new one lent, below the maximum |
| ConnectionPoolLaws.ReleaseKeepsInv | src/core/connection_pool.cpp:60-85 | A release takes one loan back, queues the connection last if it is still usable, and otherwise leaves the idle ones as they are |
| ConnectionPoolLaws.EvictDropsTheOldest | src/core/connection_pool.cpp:129-159 | Eviction drops exactly the oldest min(expired, idle - min) connections, all of them expired, when more than the minimum are idle, and otherwise none |
| ConnectionPoolLaws.ExpiredMeans | src/core/connection_pool.cpp:144-148 | A connection has expired when it has been idle for more whole milliseconds than allowed |
| ConnectionPool.ConnectionPool.BorrowConnection | src/core/connection_pool.cpp:22-58 | The loop drops unusable connections from the front until one is usable |
| ConnectionPool.ConnectionPool.EvictExpired | src/core/connection_pool.cpp:129-159 | The erase-while-iterating loop computes its specification |
| ConnectionPool.ConnectionPool.ReleaseConnection | src/core/connection_pool.cpp:60-85 | Count, queue and loans after a release, a null connection included |
| ConnectionPool.ConnectionPool.InvalidateConnection | src/core/connection_pool.cpp:87-94 | Count and loans after an invalidation |
| HealthChecker.UnhealthyIffBad | src/health/health_checker.cpp:259-292 | After any probe history a backend is unhealthy if and only if some run of failure-threshold failures is not followed by a later run of success-threshold successes, a zero threshold acting as one and the 32-bit counters wrapping |
| HealthChecker.HealthFollowsHistory | src/health/health_checker.cpp:259-292 | However probes of different backends interleave, each backend's state is decided by its own history in that way |
| HealthChecker.DrainingIsLeftAlone | src/health/health_checker.cpp:263-291 | Probes neither start nor end draining |
| HealthChecker.Checker.UpdateBackendState | src/health/health_checker.cpp:259-292 | Counters and state of one backend change as specified, those of all others not at all |
| CustomHeaders.EditIsAsExpected | src/http/http_handler.cpp:34-93 | Under every name, compared without case (section 5.1 of RFC 9110), every possible outcome has exactly what the rule means for that name, and unambiguous names stay so; a rule may name a header twice if both times it removes it |
| CustomHeaders.ConfiguredHeaderMeans | src/http/http_handler.cpp:55-92 | A configured header with an empty value removes every key of its name; any other value is under the key that was there, or under the configured name if there was none |
| CustomHeaders.RemovedHeaderMeans | src/http/http_handler.cpp:37-53 | A removed name that is not configured is gone |
| CustomHeaders.OrderDoesNotMatter | src/http/http_handler.cpp:34-93 | With unambiguous headers and such a rule, all iteration orders of both maps give the same map |
| CustomHeaders.EditIsIdempotent | src/http/http_handler.cpp:34-93 | A second application, in any order, changes nothing |
| CustomHeaders.OthersAreUntouched | src/http/http_handler.cpp:34-93 | A header that the rule does not name keeps its key and value |
| CustomHeaders.SafeIffUnambiguous | src/http/http_handler.cpp:34-93 | Every such rule has a single outcome if and only if no two header keys are the same name |
| CustomHeaderOutcomes.DecidedIff | src/http/http_handler.cpp:34-93 | A given rule has a single outcome on given headers if and only if under every name the rule only removes it, or adds it once where the removals leave none, or sets it always to one value where there is one key or every key has that value already |
| CustomHeaderOutcomes.SafeIffHarmless | src/http/http_handler.cpp:55-92 | A rule has a single outcome on all unambiguous headers if and only if any two of its names that are the same name both remove it |
| CustomHeaders.TwiceNamedRulesAreNotSafe | src/http/http_handler.cpp:55-92 | No headers, and a rule that sets "A" to 1 and "a" to 2: two orders give different maps |
| CustomHeaders.AmbiguousHeadersAreNotSafe | src/http/http_handler.cpp:72-90 | With keys "A" and "a" two iteration orders give different maps |
| CustomHeaders.ApplyCustomHeaders | src/http/http_handler.cpp:34-93 | The nested loops lead to one of the possible outcomes, for every iteration order |

## Left out

- Sockets, epoll, OpenSSL, name resolution, files and YAML: foreign calls, present only as outcomes given to the operations.
- EventHandlers.HandleBackendEvent: events are modelled with the TCP forwarder; the HTTP forwarder's buffer rewrite is a step of its own (`LifecycleBytes.RewriteKeepsInv`).
- EventHandlers.HandleClientEvent: likewise with the TCP forwarder.
- The splice forwarder: it ignores bytes that were buffered before the backend was established, so it does not share the stream property.
- HTTP response parsing and serializing: the serializer writes the protocol name twice (src/core/http_data_forwarder.cpp:428), so a version does not survive. Its buffer rewrite is the same step as the request's.
- The 400 branch of the HTTP forwarder (src/core/http_data_forwarder.cpp:54-107): it clears a read buffer without giving its bytes back.
- The request parser on a second call: it starts at the front of the buffer but keeps its phase. `HttpRequest.Parse` models such calls; the theorems are about a fresh or reset parser.
- The `connections_active` metric and the histograms: their updates are not paired. Failure counts, sticky sessions' store, access log and TLS plumbing: only easy properties.
- Several handlers run on after a callback has closed the pair; a step of the model ends at that close.
- Peers are descriptors rather than addresses of objects, and times are integers. A second `::close` of one descriptor is not visible.
- Races of the health thread and the shutdown watcher with the reactor: their writes to a node's state are atomic steps, and all atomics are sequentially consistent.
- The 32-bit width of a node's connection count, which the number of descriptors bounds.
- The counts of connection pools inside the whole system: the release callback also hands back connections that were never borrowed (src/core/load_balancer.cpp:637-642). The pool's theorem is for clients that return only what they borrowed.
- ConnectionPool.ConnectionPool.BorrowConnection: the source erases from a deque while it holds an iterator; the model takes the intended loop, which drops unusable entries from the front.
- Request and handshake timeout sweeps: instances of `LifecycleSweeps.CloseAllRemoves`.
- LeastConnectionsBalance.LoadStaysBalanced: loads are compared as exact fractions, not as rounded doubles.
- Logger start, stop, and the switch between its own thread and the pool; the access logger.
- The second `apply_custom_headers`, for responses, which repeats the first.
