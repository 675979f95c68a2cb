# GoNC: a verified model of its concurrent protocols, retry logic and parsers

This project models five parts of GoNC and proves what they promise.

* **Reverse tunnel.** `Start`, the accept loop with `reconnect` inside it, any number of keepalive
  loops and connection handlers, the context watcher, and `Wait`/`Close` as driven by
  `ReverseTunnelMode.Run`, as one interleaved step system (`TunnelMachine`). A step is one critical
  section, one blocking call returning, or one WaitGroup, counter or context operation. Clients,
  listeners and connections have identities, and the sets of open ones are part of the state.
  `TunnelInvariant` holds the inductive invariant; `TunnelSafety`, `TunnelShutdown` and
  `TunnelRelease` hold what follows for every run. `ReverseTunnel` is the imperative code over the source's fields: each
  method is proved to be a run of the machine, so that the theorems about runs apply to it.
* **Byte movers.** `IoCopy` (the read and write loop of one copy), `Bridge` (`bridgeConns`) and
  `BidirectionalCopy`, under every interleaving of copiers, cancellation and join.
* **Circuit breaker and backoff.** `CircuitBreaker` reads its counters off the history of
  overlapping calls and bounds the load on a failing service. `Backoff` has the retry loop, its
  delays and jitter, permanent errors, and the schedule it shares with `reconnect`.
* **Port scan.** `PortScan` runs the workers under an arbitrary scheduler; `PortSpec` goes from
  the command line to the list of ports.
* **Tunnel specifications.** `TunnelRegex` gives the regular expression its backtracking meaning
  and proves that one scan finds the same groups; `TunnelSpec` has the parser and its round trips.

`Common`, `Metrics` and `Numerals` are shared vocabulary. `dafny verify dfyconfig.toml` checks all
of it.

## Where the code and its documentation differ

The model follows the code. Each difference is stated as the exact condition under which the
documented behaviour holds.

* `tunnel/reverse_tunnel.go:115-116` and `ARCHITECTURE.md:222` say that cancelling the context
  unblocks a waiting `Accept`. The watcher fires once. If that happens while `reconnect` is between
  the TCP connection of its dial (`tunnel/reverse_dial.go:49`, the last thing that heeds the
  context) and the installation of its new listener, the new `Accept` is not unblocked
  (`CancelReleasesAccept`, an equivalence; `CancelCanHang` constructs a whole run).
* `tunnel/reverse_health.go:38-39` says that a failed keepalive lets the accept loop reconnect.
  In any reachable state a later reconnect is possible after the failure if and only if one has
  just begun, or reconnection is wanted, the context is not done, and the accept loop is inside
  `Accept`, holds an error from it, or is in a reconnect that has an attempt left and has not yet
  installed its listener. Otherwise (before the first `Accept`, between two connections, just after
  an install) it reads the nil listener and the tunnel ends (`KeepaliveFailureHandsOver`, an
  equivalence; `KeepaliveCanEndTunnel` constructs a whole run).
* `internal/retry/circuit_breaker.go:46-47` asks for `HalfOpenMax` successes in the half-open state.
  Successes of calls that finish late, while the circuit is open, count as well (`ClosingTakes`
  gives the number of probes needed as an equivalence; `OneProbeCanClose` constructs a history of
  overlapping calls that needs one probe instead of two), and half-open limits no probes
  (`HalfOpenAdmitsAll`).
* `internal/retry/backoff.go:26-27` says the inner error of a permanent one is returned. That is so
  if and only if the mark is outermost. The loop returns nil, as if the operation had succeeded, if
  and only if the error has several causes, as those of `errors.Join` and of `fmt.Errorf` with more
  than one `%w` have, or is a `PermanentError` with no error in it
  (`PermanentReplyIsMarkedError`, with `FailureCanReadAsSuccess` for the two inputs).
* `internal/retry/backoff.go:47` says `MaxDelay` caps the delay. The first delay is never clipped:
  all delays are capped if and only if the first is (`CapHoldsIffFirstWithin`). Jitter is added
  after the cap: a jittered wait always stays within a cap if and only if the cap is at least a
  millisecond and five times the delay is at most four times the cap plus four nanoseconds
  (`JitterStaysWithinIff`; `DefaultCanWaitLongerThanMaxDelay` gives a default wait beyond it).
* `util/io.go:14-16` says copying goes on until one side reaches its end or the context is cancelled.
  Two things keep it from that. The plain end of the reader stops nothing: the call is told to stop
  if and only if the context is cancelled, the network side has ended, or the reader side has ended
  other than cleanly (`StopsExactlyWhen`; `ReaderEndDoesNotStop` constructs a run for any two streams).
  And a call told to stop still waits for both copies: in every reachable state it can be brought
  to return with nobody else acting if and only if the inbound copy is not held by a write to its
  writer, the outbound one not by a read from its reader, and neither by a connection whose close
  is yet to be answered (`BidirectionalCopy.ReturnsAloneIff`; `NetworkEndDoesNotReturn` constructs
  the run, for any two streams, in which the network has ended and a silent reader keeps the call).
* `tunnel/reverse_forwarder.go:43-45` says `bridgeConns` copies until one side closes or the context
  is cancelled. In every reachable state it can be brought to return without its peers if and only
  if each copier has stopped or waits on a connection whose close frees it at once or has been
  answered; one copier that does neither keeps the call (`Bridge.ReturnsAloneIff`). Seen from before
  the call, cancelling is enough at every point if and only if both connections end pending calls
  when closed, which an SSH channel does not (`CancellationSufficesIffPrompt`; `ChannelCanBeStuck`
  constructs a run).
* `internal/core/reverse.go:27-28` says `Run` blocks until the context is cancelled or the tunnel
  shuts down. Once it is cancelled and the watcher has fired, `Run` can come to its return without
  the remote side if and only if the accept loop is neither in an SSH handshake or listen request
  nor heading for an open listener that no failed keepalive is about to close, no keepalive loop is
  in a request or about to make one over a client that is not being taken away, and no bridge is at
  work (`ReturnsLocallyIff`; `BridgeKeepsRunWaiting` for the last of these).

## Model

| member | source | states |
|---|---|---|
| TunnelSafety.NothingLeaks | internal/core/reverse.go:46-55 | in every run, whenever Run has returned (with or without an error) every client ever dialled, every listener ever opened and every remote and local connection is closed, every counted goroutine has returned and the context is cancelled; after a successful Start both shared fields are nil |
| TunnelSafety.CountersAreExact | tunnel/reverse_forwarder.go:15-41 | once the WaitGroup is zero, no connection is active, each accepted one is counted once, and the byte counters are the sums of the lengths the bridges delivered |
| TunnelSafety.WaitGroupIsExact | tunnel/reverse_tunnel.go:126-134 | in every reachable state the WaitGroup is the number of goroutines running or about to be started, so never negative |
| TunnelSafety.AddersHoldACount | tunnel/reverse_tunnel.go:234 | after Start, a step that raises the WaitGroup is one of the accept loop, which itself holds a count |
| TunnelSafety.WaitReturnsWhenAllReturned | tunnel/reverse_tunnel.go:139-142 | in every run Wait can return exactly when the accept loop, all keepalive loops and all handlers have returned; then the context is cancelled, every connection is closed, and no continuation starts another |
| TunnelSafety.ZeroIsStable | tunnel/reverse_tunnel.go:140-142 | after Start a WaitGroup at zero stays there in every continuation, and no goroutine or connection is added |
| TunnelSafety.OneClientAtATime | tunnel/reverse_health.go:60-103 | in every reachable state at most one dialled client and one listener are open, and a listener in the shared field is the newest one and runs on the client in the shared field |
| TunnelSafety.DialsAreBounded | tunnel/reverse_health.go:74-98 | a run dials at most one client plus one per attempt allowed to each reconnect, and opens at most one listener plus one per reconnect, for any number of attempts; with the ten of the source, ten clients per reconnect |
| TunnelSafety.FieldsAreNilWhileReconnecting | tunnel/reverse_health.go:60-103 | between teardown and install both shared fields are nil, whatever the other goroutines do |
| TunnelInvariant.MainKeepsInv | tunnel/reverse_tunnel.go:72-195 | every step of Start, Wait and Close keeps the invariant: WaitGroup, counters, connections, ownership, phases, budget |
| TunnelInvariant.LoopKeepsInv | tunnel/reverse_tunnel.go:199-237 | every step of the accept loop outside reconnect keeps the invariant |
| TunnelInvariant.ReconnectKeepsInv | tunnel/reverse_health.go:56-117 | every step of reconnect keeps the invariant |
| TunnelInvariant.KeepaliveKeepsInv | tunnel/reverse_health.go:15-52 | every step of any keepalive loop, including one that outlived its client, keeps the invariant |
| TunnelInvariant.HandleKeepsInv | tunnel/reverse_forwarder.go:15-41 | every step of any connection handler keeps the invariant |
| TunnelInvariant.RunKeepsInv | tunnel/reverse_tunnel.go:72-237 | the invariant holds after every run from a state that satisfies it, under every interleaving |
| TunnelShutdown.CancelReleasesAccept | tunnel/reverse_tunnel.go:115-124 | the watcher releases Accept, and Accept can block again afterwards if and only if reconnect is past the TCP connection of its dial and has not installed its listener |
| TunnelShutdown.BlockedStaysBlocked | tunnel/reverse_tunnel.go:212 | blocked like that with no keepalive loop left, Accept stays blocked and Run does not return until the remote side acts |
| TunnelShutdown.CancelCanHang | tunnel/reverse_tunnel.go:117-124 | a complete run from the initial state into that situation exists |
| TunnelRelease.ReturnsLocallyIff | internal/core/reverse.go:53-55 | for every reachable state after the watcher has fired, a run to the return without any reply, handshake, connection or end of a bridge from the remote side exists if and only if accept loop, keepalive loops and bridges are none of them held by it |
| TunnelShutdown.BridgeKeepsRunWaiting | internal/core/reverse.go:53-55 | while a connection's bridge has not returned, no continuation by the other actors, cancellation included, gets Run out of Wait |
| TunnelShutdown.KeepaliveFailureHandsOver | tunnel/reverse_health.go:38-46 | in every reachable state, whoever else is doing what, a later reconnect is possible after a failed keepalive if and only if one has just begun, or reconnection is wanted, the context not done, and the accept loop in Accept, holding its error, or in a reconnect with an attempt left and not past its install |
| TunnelShutdown.KeepaliveCanEndTunnel | tunnel/reverse_health.go:40-46 | a complete run exists, never cancelled from outside and with reconnection wanted, in which one failed keepalive ends the tunnel and no reconnect was tried |
| TunnelShutdown.OrphanedNeverReconnects | tunnel/reverse_tunnel.go:208-210 | with reconnection off, the context done, a nil listener that is read next, or no attempt left, no continuation reconnects |
| ReverseTunnel.ReverseTunnel.constructor | tunnel/reverse_tunnel.go:63-68 | a new tunnel is the initial state of the machine with the empty run |
| ReverseTunnel.ReverseTunnel.ListenRemoteForward | tunnel/reverse_listener.go:120-146 | a granted request gives a fresh open listener on that client, a denied one changes nothing |
| ReverseTunnel.ReverseTunnel.CloseForward | tunnel/reverse_listener.go:85-93 | closes exactly that listener, and a second call changes nothing |
| ReverseTunnel.ReverseTunnel.Start | tunnel/reverse_tunnel.go:72-137 | succeeds exactly if dial, wanted validation and listen do; then it holds the newest pair and has launched watcher, keepalive and accept loop; otherwise nothing is open, nothing launched, and the context is cancelled |
| ReverseTunnel.ReverseTunnel.WaitAndClose | internal/core/reverse.go:51-55 | the end of Run: at a zero WaitGroup everything ends closed, and the counters are exactly those of the connections served |
| ReverseTunnel.ReverseTunnel.Close | tunnel/reverse_tunnel.go:145-195 | after Wait, everything is closed and both fields nil; a second call changes nothing |
| ReverseTunnel.ReverseTunnel.AcceptLoop | tunnel/reverse_tunnel.go:199-237 | is a run of the machine by the accept loop that serves and counts every connection it is given, through every reconnect, and leaves exactly at the first error that it does not get past, with the context cancelled; a nil listener ends it with no dial and no new listener |
| ReverseTunnel.ReverseTunnel.AcceptOnce | tunnel/reverse_tunnel.go:203-236 | a connection is counted and given a counted handler; an error leads to another round exactly if nothing is cancelled, reconnection is wanted and one of its attempts succeeds, and then with the newest pair installed |
| ReverseTunnel.ReverseTunnel.HandleAcceptError | tunnel/reverse_tunnel.go:213-228 | the loop goes on exactly if the context is not done, reconnection is wanted and one of its attempts succeeds; otherwise, context done or reconnection off, it ends without dialling |
| ReverseTunnel.ReverseTunnel.TearDown | tunnel/reverse_health.go:58-70 | counts the reconnect once and afterwards nothing is held and nothing is open |
| ReverseTunnel.ReverseTunnel.TryOnce | tunnel/reverse_health.go:81-103 | cancelled at any point of the attempt or at none, succeeds exactly if the TCP connection comes before the cancellation and handshake and listen succeed; installs exactly the newly dialled pair, or closes the client whose listen failed and holds nothing |
| ReverseTunnel.ReverseTunnel.SleepCtx | tunnel/reverse_health.go:120-127 | sleeps not at all under a done context, to the moment of a cancellation that comes first, and else exactly the given time with the context left as it is |
| ReverseTunnel.ReverseTunnel.Reconnect | tunnel/reverse_health.go:56-117 | for any outcomes, any cancellation point, any limit and cap: it succeeds exactly if some allowed attempt succeeds before a cancellation is noticed, and with that attempt; every failed one is followed by its wait of the schedule, of length zero if the context is done by then and ended by a cancellation during it; after a cut wait there is no attempt; the clients dialled are those of the attempts made; at the end exactly the new pair is held or nothing is |
| ReverseTunnel.ReverseTunnel.KeepaliveLoop | tunnel/reverse_health.go:15-52 | ends at the first wakeup with a done context, no client or a failed request; only the last touches the listener, which is then closed and nil; its count is given back exactly when it ends |
| ReverseTunnel.ReverseTunnel.WatcherFires | tunnel/reverse_tunnel.go:117-124 | closes the installed listener and leaves the field as it is |
| ReverseTunnel.ReverseTunnel.HandleConnection | tunnel/reverse_forwarder.go:15-41 | both connections end closed, the active count goes down by one, the byte counters go up by exactly the delivered lengths, and one WaitGroup count is given back |
| Metrics.Collector.ConnectionOpened | internal/metrics/metrics.go:40-46 | active and total go up by one, nothing else changes |
| Metrics.Collector.ConnectionClosed | internal/metrics/metrics.go:49-54 | active goes down by one, nothing else changes |
| Metrics.Collector.BytesReceived | internal/metrics/metrics.go:75-80 | bytes in go up by n, nothing else changes |
| Metrics.Collector.BytesSent | internal/metrics/metrics.go:83-88 | bytes out go up by n, nothing else changes |
| Metrics.Collector.TunnelReconnect | internal/metrics/metrics.go:109-114 | reconnects go up by one, nothing else changes |
| IoCopy.AdvanceKeepsSound | tunnel/reverse_forwarder.go:53-65 | no read or write of a copy invents, loses or reorders bytes: delivered plus buffered is what was taken, and after a clean end everything is delivered |
| IoCopy.StopsAsTold | tunnel/reverse_forwarder.go:53-65 | a copy stops exactly by an end of file, an interruption or a failure, with that failure's error, and a write stopped early has delivered what it says |
| Bridge.DeliveredIsPrefix | tunnel/reverse_forwarder.go:46-72 | in every reachable state of bridgeConns each side has received a prefix of what the other sends |
| Bridge.ReturnsDeliveredLengths | tunnel/reverse_forwarder.go:43-72 | when bridgeConns returns its results are the delivered lengths, both connections are closed, and unless cancelled from outside one direction is complete or failed by itself |
| Bridge.StopsExactlyWhen | tunnel/reverse_forwarder.go:53-67 | in every reachable state the call has been told to stop exactly if its caller cancelled or one of the two copiers is gone |
| Bridge.ReturnsAloneIff | tunnel/reverse_forwarder.go:67-71 | in every reachable state a run without the peers to the return exists if and only if each of the two copiers has stopped or waits on a connection whose close is enough, the one it reads or, holding bytes, the one it writes |
| Bridge.CancellationSufficesIffPrompt | tunnel/reverse_forwarder.go:43-72 | every reachable cancelled state has a run without the peers to the return if and only if both connections end pending calls when closed |
| Bridge.PromptIsNeverStuck | tunnel/reverse_forwarder.go:67-71 | between two connections whose Close ends pending calls it can always move on |
| Bridge.ChannelCanBeStuck | tunnel/reverse_listener.go:102-106 | with an SSH channel on side a, for any two streams, a run exists that carries all of side b, is cancelled from inside, has closed both connections, and has no step and no run without the peers to the return |
| Bridge.CallIsFinite | tunnel/reverse_forwarder.go:46-72 | under any schedule and cancellation the call takes at most 12 steps of its own and two for each byte sent |
| BidirectionalCopy.WrittenIsPrefix | util/io.go:17-51 | in every reachable state what was written is a prefix of what was sent, both ways |
| BidirectionalCopy.PeerIsDrained | util/io.go:38-50 | without outside cancellation and with a clean end of the reader, everything the peer sent has reached the writer, unless the inbound copy itself failed |
| BidirectionalCopy.ReturnsAloneIff | util/io.go:53-56 | in every reachable state a run with nobody else acting to the return exists if and only if the inbound copy is not held by its writer, the outbound one not by its reader, and neither by a connection whose close is unanswered |
| BidirectionalCopy.NetworkEndDoesNotReturn | util/io.go:26-56 | for any two streams a run exists in which the network is copied to its clean end and the connection closed, and no run returns before the reader acts |
| BidirectionalCopy.StopsExactlyWhen | util/io.go:30-53 | in every reachable state the internal context is cancelled, which is what the call waits for before closing the connection, exactly if the context was cancelled, the network side has ended, or the reader side has ended other than cleanly |
| BidirectionalCopy.ReaderEndDoesNotStop | util/io.go:45-53 | for any two streams a run exists in which the reader is copied to its end and its goroutine is gone while the call waits for the network |
| BidirectionalCopy.SendersNeverBlock | util/io.go:22-56 | a goroutine ready to send its error can always do so, and the channel is closed only with both errors in it |
| BidirectionalCopy.ReportsHarmfulErrors | util/io.go:58-63 | an error is returned exactly if one of the two copies failed with an error whose root cause is not EOF, a closed connection or a closed pipe, and it is that error |
| BidirectionalCopy.FailureIsReported | util/io.go:28-63 | if at any point of a run a read or write of either copy fails with such an error, the call returns an error |
| BidirectionalCopy.HalfClosedExactlyWhen | util/io.go:38-43 | a TCP connection is closed for writing once the reader's copy is over and before its end is reported, never while it runs, and any other connection never |
| BidirectionalCopy.DrainErrors | util/io.go:58-63 | the loop gives back the first harmful error, and none only if all are harmless |
| BidirectionalCopy.HarmlessIsByRootCause | util/io.go:67-80 | harmless means exactly no error or a root cause of EOF, closed connection or closed pipe |
| CircuitBreaker.CircuitBreaker.constructor | internal/retry/circuit_breaker.go:81-104 | a fresh closed breaker with usable settings |
| CircuitBreaker.Normalise | internal/retry/circuit_breaker.go:81-96 | positive settings are kept, others and a missing config become 5 failures, 30 s and 2 successes |
| CircuitBreaker.CircuitBreaker.BeforeRequest | internal/retry/circuit_breaker.go:142-161 | admits exactly unless open with resetTimeout not yet passed since the last failure; moves to half-open when it admits an open one |
| CircuitBreaker.CircuitBreaker.AfterRequest | internal/retry/circuit_breaker.go:163-188 | the state after a completion, as the history lemmas use it |
| CircuitBreaker.CircuitBreaker.ResetAll | internal/retry/circuit_breaker.go:132-138 | Reset: counters zero and closed |
| CircuitBreaker.CircuitBreaker.Execute | internal/retry/circuit_breaker.go:108-115 | runs the operation exactly unless the circuit is open with resetTimeout not yet passed, and reports an error exactly if rejected or failed |
| CircuitBreaker.CountersReadHistory | internal/retry/circuit_breaker.go:131-188 | for every history of overlapping calls and Resets, successes is the current run of successes, while closed failures is the current run of failures, and closed means failures below the limit |
| CircuitBreaker.OpensAtTheLimit | internal/retry/circuit_breaker.go:167-174 | a closed circuit leaves that state exactly at the maxFailures-th failed completion in a row, and then opens |
| CircuitBreaker.HalfOpenCountsLateSuccesses | internal/retry/circuit_breaker.go:175-187 | while half-open, successes is the late ones plus those of the current half-open period |
| CircuitBreaker.ClosingTakes | internal/retry/circuit_breaker.go:46-48 | exactly how many half-open successes close the circuit, always after a run of at least halfOpenMax successes; halfOpenMax of them if and only if none was late or the limit is one |
| CircuitBreaker.OneProbeCanClose | internal/retry/circuit_breaker.go:175-183 | with halfOpenMax 2 a history of overlapping calls closes the circuit on the first half-open success |
| CircuitBreaker.HalfOpenAdmitsAll | internal/retry/circuit_breaker.go:157-158 | while half-open any number of requests is admitted at once |
| CircuitBreaker.LogIsAPath | internal/retry/circuit_breaker.go:190-199 | the callback sees one connected path of legal edges, no self-loops, from closed to the current state |
| CircuitBreaker.OnlyResetSkipsHalfOpen | internal/retry/circuit_breaker.go:131-138 | open goes straight to closed only by Reset |
| CircuitBreaker.HalfOpenOnlyAfterTimeout | internal/retry/circuit_breaker.go:149-153 | open goes half-open only on a request more than resetTimeout after every failure recorded before |
| CircuitBreaker.ProbesExactlyAfterTimeout | internal/retry/circuit_breaker.go:146-156 | for every monotone history that ends open, a request is let through and makes the circuit half-open exactly if it comes more than resetTimeout after every failure recorded |
| CircuitBreaker.RequestsAreFree | internal/retry/circuit_breaker.go:146-158 | in the other two states a request is let through and changes nothing |
| CircuitBreaker.FailureReopens | internal/retry/circuit_breaker.go:167-174 | a failed completion in half-open or open leaves the circuit open |
| CircuitBreaker.ResetCloses | internal/retry/circuit_breaker.go:132-138 | after a Reset, whatever came before, the circuit is closed and both counts are zero |
| CircuitBreaker.AdmittedSpacing | internal/retry/circuit_breaker.go:108-174 | in a sequential run of failing calls, the calls run once the circuit has opened start more than resetTimeout after the previous one ended |
| CircuitBreaker.CallIsRunIff | internal/retry/circuit_breaker.go:108-174 | in a sequential run of failing calls, a call is run exactly if fewer than maxFailures were run before it or it starts more than resetTimeout after the end of the last one run |
| CircuitBreaker.LoadAfterOpening | internal/retry/circuit_breaker.go:108-174 | the (maxFailures+k)-th call run starts more than k * resetTimeout after the circuit first opened |
| CircuitBreaker.LoadInAnyWindow | internal/retry/circuit_breaker.go:108-174 | after opening, n calls run in a window of length D satisfy (n-1) * resetTimeout <= D, strictly for n > 1 |
| Backoff.Do | internal/retry/backoff.go:75-123 | attempts 1, 2, 3, ... going on exactly past a failure that is not permanent with budget left and no cancellation; nil for a success, what was marked for a permanent error, the last error with the budget when that is used up, cancellation otherwise; nil exactly for a success or a permanent error that has several causes or marks nothing; waits between attempts only, each as scheduled; with a budget all of them, one cut short included, last at most MaxAttempts - 1 longest waits |
| Backoff.PermanentIffMarkReached | internal/retry/backoff.go:35-39 | an error is permanent exactly if a mark is reached from it through wrappers and multiple causes, however deep |
| Backoff.PermanentReplyIsMarkedError | internal/retry/backoff.go:26-39 | the marked error comes back if and only if its mark is outermost, and nil if and only if it is an error with several causes or an outermost PermanentError holding nil |
| Backoff.FailureCanReadAsSuccess | internal/retry/backoff.go:95-98 | for an error with several causes, the first permanent, and for a PermanentError holding nil, the loop returns nil after the first attempt |
| Backoff.PermanentReturnsInner | internal/retry/backoff.go:95-98 | Permanent(e) ends the loop with e itself |
| Backoff.DelayClosedForm | internal/retry/backoff.go:75-121 | without jitter and with a whole multiplier the k-th delay is min(Initial * m^(k-1), MaxDelay) |
| Backoff.ConfiguredDelay | internal/retry/backoff.go:76-87 | the same in terms of the configured values, a zero first delay, a multiplier of zero or less and a zero cap standing for one second, two and one minute |
| Backoff.DefaultSchedule | internal/retry/backoff.go:60-68 | the defaults: ten attempts, jitter, and delays of min(2^(k-1) seconds, one minute) |
| Backoff.NextDelayIs | internal/retry/backoff.go:117-121 | for any positive multiplier each delay is the one before it multiplied, the fraction dropped, and capped |
| Backoff.DelaysGrow | internal/retry/backoff.go:117-121 | with a multiplier of at least one, delays never shrink and stay positive and capped |
| Backoff.CapHoldsIffFirstWithin | internal/retry/backoff.go:47-48 | MaxDelay caps every delay if and only if it is not below the first |
| Backoff.JitterBounds | internal/retry/backoff.go:126-131 | a jittered wait is within a quarter of its delay and never below a millisecond |
| Backoff.JitterExactly | internal/retry/backoff.go:126-131 | the jittered wait as a function of the delay and the number drawn |
| Backoff.JitterStaysWithinIff | internal/retry/backoff.go:105-131 | a jittered wait stays within a cap whatever is drawn if and only if the cap is at least 1 ms and 5 * delay <= 4 * (cap + 1) |
| Backoff.DefaultCanWaitLongerThanMaxDelay | internal/retry/backoff.go:60-68 | with the default settings the wait after the seventh attempt can exceed MaxDelay |
| Backoff.TotalWaitIsBounded | internal/retry/backoff.go:101-115 | waits within a budget add up to at most (MaxAttempts - 1) times the longest wait |
| Backoff.ReconnectDelayClosedForm | tunnel/reverse_health.go:72-97 | reconnect waits min(2^(k-1) seconds, cap) after its k-th failed attempt, for any cap of a second or more, and for any cap at all from the second on |
| ReverseTunnel.SourceSchedule | tunnel/reverse_health.go:72-97 | with reconnect's own constants the k-th wait is min(2^(k-1) seconds, one minute) |
| Backoff.SchedulesAgree | tunnel/reverse_health.go:72-97 | with a common cap, the default Backoff without jitter has reconnect's delay at every attempt |
| PortScan.ScanPorts | internal/core/scan.go:72-100 | under an arbitrary scheduler the result is the sequential map of dial outcomes in input order, and the scan terminates |
| PortScan.StepKeepsInv | internal/core/scan.go:77-96 | every step of caller or worker keeps the semaphore and WaitGroup equal to what the workers hold, and writes only the worker's own slot |
| PortScan.DialsAreLimited | internal/core/scan.go:74-82 | after any run, under any schedule, at most a hundred dials are in flight |
| PortScan.WaitsOnlyWhenFull | internal/core/scan.go:74-82 | after any run a worker that has yet to dial can go on exactly if fewer than a hundred others hold a slot |
| PortScan.EveryRunEnds | internal/core/scan.go:72-100 | every run has at most 6n + 2 steps, and one that has returned has exactly so many and the results of a sequential scan |
| PortScan.NeverStuck | internal/core/scan.go:81-98 | a scan that has not returned can take a step |
| PortScan.StepsCountDown | internal/core/scan.go:77-98 | every step brings the scan exactly one step closer to its end |
| PortScan.InitialSteps | internal/core/scan.go:72-100 | a scan of n ports takes 6n + 2 steps, whatever the schedule |
| PortScan.ReturnedIsComplete | internal/core/scan.go:98-99 | when it returns, every slot holds what a sequential scan would record |
| PortScan.CountOpen | internal/core/scan.go:54-66 | the count is the number of open results, and zero exactly if there is none |
| PortSpec.ParseInvertsPrint | config/config.go:92-117 | every valid range, printed, is read back as itself |
| PortSpec.AcceptsExactlyWritten | config/config.go:92-117 | a text is accepted as a range exactly if it has no dash and is a numeral of a port, or is two numerals around its first dash that make a range in 1..65535 |
| PortSpec.RefusesSingle | config/config.go:109-115 | without a dash, an unreadable text and a port out of range are refused as such, and nothing else is |
| PortSpec.RefusesDashed | config/config.go:93-105 | with a dash, an unreadable start, an unreadable end and two numbers that make no valid range are refused as such, the first of these that applies |
| PortSpec.Config.AllPorts | config/config.go:83-89 | the concatenation of the ranges' ports in order |
| PortSpec.FlattenPlaces | config/config.go:82-89 | that concatenation has the total size, and each port of each range at the place the ranges before it leave |
| PortSpec.FlattenMembers | config/config.go:73-89 | a port is listed exactly if some range contains it |
| PortSpec.Config.ParsePositional | cmd/root.go:161-201 | accepts exactly the lists whose port arguments are written as ports or ranges, appends exactly the ranges written, sets host and port accordingly, and names the first bad argument, with the ranges before it kept |
| PortSpec.BuildScanPorts | internal/core/builder.go:79-82 | the flattened ranges, or the single port if there are none |
| PortSpec.ScanPipeline | cmd/root.go:190-199 | accepts exactly such lists, and then the ports scanned are the in-order concatenation of the ranges written, not empty, all in 1..65535, as many as the range sizes sum up to |
| Numerals.AtoiInvertsItoa | config/config.go:109 | a printed number is read back as itself |
| Numerals.AtoiReadsNumerals | config/config.go:95-109 | exactly the texts of digits behind at most one sign with a 64-bit value are read, and as that value |
| TunnelRegex.BacktrackingAgreesWithScan | config/config.go:122 | for every string the groups of the first match in backtracking order are those of one deterministic scan |
| TunnelSpec.ParseInvertsPrintSpec | config/config.go:124-144 | user, host and port printed and parsed come back, for every user without '@' (empty included), host without ':' and port in range; with an empty user if and only if the host stands alone |
| TunnelSpec.ParsedIsCanonical | config/config.go:124-144 | every accepted string gives a triple of that kind |
| TunnelSpec.ParseIsStable | config/config.go:124-144 | for every accepted string, printing the result and parsing again gives the same triple |
| TunnelSpec.PortDefaultsTo22 | config/config.go:125-134 | a specification without a port gives the same user and host and port 22 |
| TunnelSpec.TrailingAtIsHost | config/validator_test.go:77 | an '@' with nothing or only a port behind it belongs to the host |
| TunnelSpec.AcceptsExactlyReadableTexts | config/config.go:127-142 | a string is accepted if and only if it has some reading as user, host and port in range |
| TunnelSpec.ParsesExactly | config/config.go:127-143 | a string is read as a triple exactly if it is user, host and port of that triple, the port omitted for 22, and a host without a user stands alone |
| TunnelSpec.RefusesExactly | config/config.go:127-142 | refused as no match exactly if it has no reading of the form, as a bad port exactly if the port written is out of range; the missing-host error never occurs |
| TunnelSpec.ScanReads | config/config.go:131-138 | however ambiguous the string, the port found is the one written |

## Left out

- Authentication, host keys, banner, `validateGatewayPorts` and `drainServerMessages`: external libraries and terminal input; a dial, validation or listen is an outcome chosen by the environment.
- SSH wire formats and the channel accepted inside `Accept`: a listener is an identity that is open or closed, and what `Accept` returns is chosen by the environment, also on a closed listener.
- `MDial`, the dial of `Start`, is one step whose success does not depend on the context; the dial of `reconnect` is two, because there it matters.
- ReverseTunnel.ReverseTunnel.AcceptLoop: each method of the class is a run of its own goroutine, interrupted by cancellation only; interference by the other goroutines is the subject of the machine, whose theorems need none of these contracts.
- ReverseTunnel.ReverseTunnel.AcceptOnce: likewise, no other goroutine moves during the round.
- ReverseTunnel.ReverseTunnel.KeepaliveLoop: likewise, so the client read at each tick is the one of the start; `KeepaliveStep` of the machine reads the field afresh.
- ReverseTunnel.ReverseTunnel.Close: specified after `Wait`, as `Run` calls it; a `Close` from elsewhere while the tunnel runs is not part of the machine.
- ReverseTunnel.ReverseTunnel.HandleConnection: takes the final state of its bridge as an argument; how bridges get there is `Bridge`.
- Backoff.Do: observed for a given number of attempts, since without a budget the loop need not end; the reply it gives when it ends does not depend on that number.
- Backoff.DelayClosedForm: durations are unbounded integers and the multiplier an exact real, so neither rounding nor overflow of int64 is modelled.
- PortScan.ScanPorts: the outcome of a dial, including its timeout and the scan's context, is a function of the position.
- Bridge.ReturnsAloneIff: a call on a closed connection is taken to end at once or with the peer's answer, as its kind says, also a write begun after the close, which an SSH channel with window left refuses at once; the model keeps that write waiting. That a possible step is eventually taken is left to the scheduler.
- BidirectionalCopy.ReturnsAloneIff: as for the bridge; the reader and the writer are taken not to react to anything the call does.
- TunnelRelease.ReturnsLocallyIff: the dial to the local service, which has a timeout, counts as local, and a bridge at work as held whatever it has left to do; when a bridge can return is `Bridge.ReturnsAloneIff`.
- Backoff.PermanentReplyIsMarkedError: an error type whose own `As` method claims to be a `PermanentError` is not among the errors of the model; `Do` returns what its `Unwrap` gives, often nil.
- Closing a listener sends a request and waits for its reply while the tunnel's mutex is held; the model makes the close one step, so a peer that never replies, and with it everyone waiting for the mutex, is not part of it.
- `reconnect`'s two constants, ten attempts and one minute, are settings of the model; no result depends on their values.
- Unconditional liveness after cancellation, a single keepalive loop, and a limit on half-open probes: the code does not provide them.
- Error and health metrics, the nil collector, counters beyond int64, logging, and the text of error messages.
- `Config.Validate`, flags and environment, `SSHTunnel` and its manager, `ConnectMode`, `ListenMode` and the remaining builders: thin or without state worth an invariant.
- Text is a sequence of characters; invalid UTF-8 is not modelled.
