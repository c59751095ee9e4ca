# A model of Sortie

Sortie generates load. A plan, written as scenarios over pools of backends, is compiled into executions,
dispatched to load engines and judged. This project models the parts of it that are hardest to get right
and proves what they promise:

- **The clients of the engine** (`Tcp*`, `Http*`, `Grpc*`, `Udp*`), as state machines over the events that
  the network, the timers and the scheduler raise. Each has a module with the machine, one with the
  invariant over every run, one that gives its counters and callbacks from the events alone, and one with
  the client as the engine writes it: an object whose callbacks update its fields in place, proved to do
  exactly what the machine does. For TCP, `TcpMatching` and `TcpLatency` say which bytes are echoes and
  how long each took, `TcpRotation` and `TcpWorn` when a connection is replaced.
- **The execution service** (`Service*`), as a transition system with one step per lock region, blocking
  point or write, over any number of streams, runs and progress threads.
- **The plan compiler** (`Shares`, `Rates`, `Plan`, `Groups`, `Labels`, `BackendName`, `BackendSegments`,
  `Prefixes`, `Series`, `Load`): weighted shares, stages and groups, the division of a rate in 32-bit arithmetic,
  and the names of metrics.
- **The runner and the results stream** (`RunGroup`, `Runner`, `ResultsStream`).

`Tally` and `Arith` hold totals over sequences and the little arithmetic they all use.

What the environment decides is a parameter of the model. In the clients it is part of an event: how a
connect turns out, whether a flushing close has raised its close event by the time it returns, what a
write took, when time passes. In the compiler and the runner it is an argument: what Unicode makes of a
character outside ASCII, how an address splits into host and port, what became of each dispatched
execution. Histories that a statement needs, such as which calls were told, are fields of the model.

## What the model found

- **HTTP, closed loop.** A pool failure is not counted as completed, so it takes a place in the window for
  good. A request is held back exactly when outstanding requests plus all pool failures so far reach the
  limits (`HttpRuns.HeldBackIff`), and the client never accepts another if and only if the pool failures
  alone do (`HttpRuns.ClosedForGoodIff`). The promise that no more than the limits are outstanding holds.
- **gRPC streams.** A reset raised while a stream's headers are being encoded is taken off pending_opens
  twice. The count is exact if and only if that never happened (`GrpcRuns.OpensExactIff`). It also leaves
  the stream open without its encoder, which nothing else does (`GrpcRuns.SendIsEnabled`).
- **UDP sequence numbers.** They are 64 bits wide and come round. A datagram sent with a number that is
  still outstanding is dropped from the books and its call is never told; conservation holds if and only if
  that never happens (`UdpRuns.ConservedIff`). Across the turn the sweep can leave a late datagram behind a
  newer one (`UdpRuns.SweepExactIff`).
- **Distributor pools.** The divisor of a rate is a 32-bit product. The load is the plan's if and only if it
  fits (`Rates.UniformExactIff`, for both ways engines take a rate), and where targets x workers is a
  multiple of 2^32 the code divides by zero, a run-time panic (`Rates.UniformDividesByZeroIff`).
- **Series of mixed plans.** Validation compares prefixes without the backends' names. Where a scenario's
  targets share one series behind a distributor, its prefix can be another scenario's with a backend's name
  behind, as with `a` on a backend called `b` and `a/b` (`Series.MixedPlanClashes`). By address nothing else
  clashes (`Series.AllSeries`).
- **Refused starts.** All reports of a group carry the cap error if and only if a refusal came before the
  caller cancelled (`RunGroup.RefusedIff`); the runner's comments speak of every refusal.

## Model

| member | source | states |
|---|---|---|
| `TcpBackoff.ScheduleKeepsPace` | engine/source/client/tcp_benchmark_client_impl.cc:125-136 | scheduling a retry keeps the backoff in 10..1000 ms, at most one retry pending, and a credit that pays for 438 ms a retry with 1570 ms owed at most, whatever doubling and starting over do |
| `TcpBackoff.FireKeepsPace` | engine/source/client/tcp_benchmark_client_impl.cc:43-48 | a retry that runs keeps the same credit, so any n + 1 of a slot's retries in a row span at least 438 n - 1570 ms |
| `TcpBackoff.CallOffKeepsPace` | engine/source/client/tcp_benchmark_client_impl.cc:190-197 | a retry called off by a promotion keeps the same credit |
| `TcpBackoff.DelaysDouble` | engine/source/client/tcp_benchmark_client_impl.cc:125-136 | however retries are asked for, run and called off, the pending one is due when it was asked for and 10 ms doubled for every one in a row before it, at most 1 s; a row starts over once 2 s have gone since a retry ran |
| `TcpSafety.LetGoKeepsCore` | engine/source/client/tcp_benchmark_client_impl.cc:343-391 | a close, by the peer or by us, with or without its close event raised, keeps every link in exactly one place, the books of calls and callbacks, and the roles of active and standby |
| `TcpSafety.ClosedKeepsInv` | engine/source/client/tcp_benchmark_client_impl.cc:168-186 | a close event keeps the whole invariant, and no slot is left without a link or a retry |
| `TcpSafety.ConnectedKeepsInv` | engine/source/client/tcp_benchmark_client_impl.cc:148-165 | a connect keeps the whole invariant in all its roles: first connect, reconnect, replacement |
| `TcpSafety.RotatedKeepsInv` | engine/source/client/tcp_benchmark_client_impl.cc:190-213 | a replacement that takes over keeps it while the old link retires, idle or with echoes to come |
| `TcpSafety.TimerKeepsInv` | engine/source/client/tcp_benchmark_client_impl.cc:215-227 | a connect or drain that times out keeps it |
| `TcpSafety.OpenLinkKeepsInv` | engine/source/client/tcp_benchmark_client_impl.cc:76-107 | opening a link keeps it, whatever connect() raises before it returns |
| `TcpSafety.ConnectNextKeepsInv` | engine/source/client/tcp_benchmark_client_impl.cc:109-123 | the next connect of a slot keeps it, and a slot never gets a second connecting link |
| `TcpSafety.RetryTimerKeepsInv` | engine/source/client/tcp_benchmark_client_impl.cc:43-48 | a retry that fires leaves the slot manned |
| `TcpSafety.SendKeepsInv` | engine/source/client/tcp_benchmark_client_impl.cc:229-265 | a send keeps it: the call is counted once and its callback is told or owed once |
| `TcpSafety.MismatchKeepsInv` | engine/source/client/tcp_benchmark_client_impl.cc:304-334 | an echo mismatch closes the link, loses what it owed untimed, and keeps it |
| `TcpSafety.DataKeepsInv` | engine/source/client/tcp_benchmark_client_impl.cc:267-302 | received data keeps it: what a link in use returned is exact copies of the message and then what is not matched yet |
| `TcpSafety.PrepareKeepsInv` | engine/source/client/tcp_benchmark_client_impl.cc:54-74 | the first connects, in order, establish it for every slot |
| `TcpSafety.FinishBeginKeepsInv` | engine/source/client/tcp_benchmark_client_impl.cc:445-461 | finish() drops every connect under way and opens nothing more |
| `TcpSafety.FinishEndKeepsInv` | engine/source/client/tcp_benchmark_client_impl.cc:471-485 | the end of finish() leaves every link closed and nothing outstanding |
| `TcpRuns.StepKeepsInv` | engine/source/client/tcp_benchmark_client_impl.cc:76-391 | every event keeps the invariant |
| `TcpRuns.RunKeepsInv` | engine/source/client/tcp_benchmark_client_impl.cc:54-485 | every run keeps it |
| `TcpRuns.NothingIsSkipped` | engine/source/client/tcp_benchmark_client_impl.cc:76-391 | in a reachable state every event that is enabled is one the model handles |
| `TcpRuns.EveryRun` | engine/source/client/tcp_benchmark_client_impl.cc:54-485 | after every run: each link in exactly one place of its slot, standbys connecting, one connecting link a slot, no slot stranded; calls = sent + deferred + unavailable, sent = received + lost + outstanding, each callback told or owed exactly once, nothing outstanding after finish(); a latency only behind exact copies no more than were sent (which one it is: `TcpLatency.EchoesTimed`); opened = first connects + reconnects + rotations; retries paced; calls in turn |
| `TcpEcho.TwoChunks` | engine/source/client/tcp_benchmark_client_impl.cc:267-302 | two pieces of received data have the effect of the two as one |
| `TcpEcho.ChunksDoNotMatter` | engine/source/client/tcp_benchmark_client_impl.cc:267-302 | pieces of received data that follow one another have the effect of the bytes at once, on matches, mismatches, latencies and losses, however they were split or coalesced |
| `TcpMatching.NextWhole` | engine/source/client/tcp_benchmark_client_impl.cc:267-302 | no event leaves a whole message's worth of bytes unmatched on a link that is not closed, or an exact copy unmatched on any link while messages sent are without an echo |
| `TcpMatching.EchoesAreCopies` | engine/source/client/tcp_benchmark_client_impl.cc:267-302 | after every run, on every link ever opened, the echoes matched are the exact copies of the message that came back in a row, as many of them as were sent; on a link in use what follows them is less than a message |
| `TcpMatching.SameBytesSameEchoes` | engine/source/client/tcp_benchmark_client_impl.cc:267-302 | links of any two runs on which as much was sent and the same bytes came back have matched as many echoes, however the bytes were split and whatever else happened between them |
| `TcpMatching.MismatchesCounted` | engine/source/client/tcp_benchmark_client_impl.cc:267-334 | over every run the mismatches counted are exactly the reads that bring a whole message's worth of bytes behind the copies, decided by what was sent and what came back; a link that retires closes with its last echo and reads no further |
| `TcpFrames.SendIff` | engine/source/client/tcp_benchmark_client_impl.cc:229-265 | a message is sent exactly if the link whose turn it is is open, takes writes and waits for fewer echoes than it may; deferred exactly if that link is open and does not; unavailable exactly if it is not open; and nothing else about the traffic changes |
| `TcpLatency.EchoesTimed` | engine/source/client/tcp_benchmark_client_impl.cc:229-302 | over every run the latencies recorded are exactly those of the echoes that reads brought while measuring was on, in order: the k-th echo of a link has the time of the read that brought the k-th copy of the message less the time of the k-th send written on that link; and the k-th echo tells the callback of the k-th message, the oldest outstanding |
| `TcpEvents.ConnectIff` | engine/source/client/tcp_benchmark_client_impl.cc:148-213 | a connect is a rotation exactly if it was to replace a link that is still there, else a reconnect exactly if it is not its slot's first, and its sample is the time since it began |
| `TcpEvents.EndsFromEvents` | engine/source/client/tcp_benchmark_client_impl.cc:168-391 | over every run connection_closed counts exactly the close events that found their link open or retiring, drain_incomplete exactly the links that waited for echoes when finish() ended, write_blocked exactly the watermarks that found their link writable |
| `TcpWorn.RotatesWhenWorn` | engine/source/client/tcp_benchmark_client_impl.cc:109-123 | after every run a replacement connects behind a link, or has taken over from one, only if that link has carried the messages it may; and until finish() an open link that has is being replaced or has a retry armed |
| `TcpRotation.RunServes` | engine/source/client/tcp_benchmark_client_impl.cc:109-123 | along a whole run, a slot with an open connection keeps one until an event of that connection itself takes it; a replacement that connects, fails or is never answered does not |
| `TcpRotation.ServedIsAvailable` | engine/source/client/tcp_benchmark_client_impl.cc:236-240 | a message for a slot that has an open connection is never unavailable |
| `TcpClient.TcpBenchmarkClient.constructor` | engine/source/client/tcp_benchmark_client_impl.cc:20-50 | a new client is the state machine's first state |
| `TcpClient.TcpBenchmarkClient.CompleteInflight` | engine/source/client/tcp_benchmark_client_impl.cc:382-391 | the loop loses every outstanding message and tells each callback |
| `TcpClient.TcpBenchmarkClient.ScheduleRetry` | engine/source/client/tcp_benchmark_client_impl.cc:125-136 | the retry and its backoff are those of the state machine |
| `TcpClient.TcpBenchmarkClient.MarkClosed` | engine/source/client/tcp_benchmark_client_impl.cc:168-179 | what a close counts, by the state it finds the link in |
| `TcpClient.TcpBenchmarkClient.Release` | engine/source/client/tcp_benchmark_client_impl.cc:355-380 | the link is taken out of the one place it has, and the slot connects again if it lost a link in use |
| `TcpClient.TcpBenchmarkClient.OnClosed` | engine/source/client/tcp_benchmark_client_impl.cc:168-186 | the close event, step by step, is the state machine's |
| `TcpClient.TcpBenchmarkClient.CloseLink` | engine/source/client/tcp_benchmark_client_impl.cc:343-353 | a close of our own, its close event now or later, is the state machine's |
| `TcpClient.TcpBenchmarkClient.Swap` | engine/source/client/tcp_benchmark_client_impl.cc:190-213 | active, standby and retiring change hands as the state machine says |
| `TcpClient.TcpBenchmarkClient.OnConnected` | engine/source/client/tcp_benchmark_client_impl.cc:148-165 | the connect event, step by step, is the state machine's |
| `TcpClient.TcpBenchmarkClient.OnTimer` | engine/source/client/tcp_benchmark_client_impl.cc:215-227 | the link timer, step by step, is the state machine's |
| `TcpClient.TcpBenchmarkClient.OnEchoMismatch` | engine/source/client/tcp_benchmark_client_impl.cc:304-334 | the mismatch, step by step, is the state machine's |
| `TcpClient.TcpBenchmarkClient.OnEcho` | engine/source/client/tcp_benchmark_client_impl.cc:283-302 | one echo is matched to the oldest outstanding message, or is a mismatch, as in the state machine whose latencies are those of `TcpLatency.EchoesTimed` |
| `TcpClient.TcpBenchmarkClient.OnData` | engine/source/client/tcp_benchmark_client_impl.cc:267-281 | the loop over received bytes is the state machine's recursion, and ends |
| `TcpClient.TcpBenchmarkClient.OpenSlot` | engine/source/client/tcp_benchmark_client_impl.cc:76-107 | opening a link for a slot is the state machine's |
| `TcpClient.TcpBenchmarkClient.ConnectNext` | engine/source/client/tcp_benchmark_client_impl.cc:109-123 | the next connect of a slot is the state machine's |
| `TcpClient.TcpBenchmarkClient.OnRetryTimer` | engine/source/client/tcp_benchmark_client_impl.cc:43-48 | the retry timer is the state machine's |
| `TcpClient.TcpBenchmarkClient.TryStartRequest` | engine/source/client/tcp_benchmark_client_impl.cc:229-265 | a send is the state machine's |
| `TcpClient.TcpBenchmarkClient.Prepare` | engine/source/client/tcp_benchmark_client_impl.cc:54-74 | the loop of first connects is the state machine's |
| `TcpClient.TcpBenchmarkClient.AllLinks` | engine/source/client/tcp_benchmark_client_impl.cc:393-407 | the nested loops list every link that has a place, slot by slot |
| `TcpClient.TcpBenchmarkClient.FinishBegin` | engine/source/client/tcp_benchmark_client_impl.cc:445-461 | the first half of finish() is the state machine's |
| `TcpClient.TcpBenchmarkClient.FinishEnd` | engine/source/client/tcp_benchmark_client_impl.cc:471-485 | the second half of finish() is the state machine's |
| `TcpClient.TcpBenchmarkClient.OnEvent` | engine/source/client/tcp_benchmark_client_impl.cc:145-485 | whatever happens next, the object does what the state machine does and keeps its invariant |
| `ServiceSafety.RunStepKeeps` | engine/source/client/service_impl.cc:28-247 | every step of a run's threads keeps: slot given back once and exactly on its way out, Process published only while alive, progress thread over before the answer |
| `ServiceSafety.CancelKeeps` | engine/source/client/service_impl.cc:388-414 | a cancellation, under the execution's lock, keeps them |
| `ServiceSafety.StreamStepKeeps` | engine/source/client/service_impl.cc:307-421 | every step of a stream's thread keeps the count, the cap and the ownership of runs |
| `ServiceSafety.ExecStepKeeps` | engine/source/client/service_impl.cc:28-247 | every step of a run keeps the count, the order of responses and the ownership of runs |
| `ServiceRuns.EveryInterleaving` | engine/source/client/service_impl.cc:28-421 | over every interleaving: active = accepted starts not given back, within the cap; each slot given back at most once, exactly once on every way out, and before the final response; responses run by run, the final one once and last, one writer at a time and none once the stream is finished; a cancellation reaches its own Process alive, or waits for it, or found the run over |
| `ServiceRuns.CancellationIsNeverLost` | engine/source/client/process_impl.cc:742-756 | a cancellation read while its execution is not done holds for the rest of the run: its Process is cancelled and its workers told, none are ever started if it came before the start-up, and no other execution is touched |
| `ServiceRuns.AnsweredRunsHoldNothing` | engine/source/client/service_impl.cc:28-67 | a run whose final response is on the wire holds no slot |
| `ServiceRuns.NoRunIsStuck` | engine/source/client/service_impl.cc:160-247 | until a run has ended one of its own threads can take a step |
| `ServiceStarts.SlotsFromActions` | engine/source/client/service_impl.cc:333-345 | over every interleaving the count that admission looks at is the starts that went through less the slots given back, both counted from the actions |
| `ServiceStarts.AdmitIff` | engine/source/client/service_impl.cc:333-375 | a start is refused exactly when the starts that went through and whose slot has not come back are as many as the cap; any other goes through and holds a slot |
| `ServiceStarts.WorkersIff` | engine/source/client/process_impl.cc:1120-1135 | over every interleaving a run's workers are started exactly if it came to its start-up and its stream had read no cancellation before; so a run never cancelled starts them |
| `HttpRuns.ClassOf` | engine/source/client/benchmark_client_impl.cc:349-363 | the code's status ranges are the classes of section 15 of RFC 9110 |
| `HttpRuns.EveryRun` | engine/source/client/benchmark_client_impl.cc:118-405 | after every run: each status counter is the number of requests of its class, resets equal the sum by phase, the counter of each reset reason is the number of requests reset for it, pool failures by reason, every callback told once; in closed loop never more outstanding than pending + active limits; a wait whose end has come has been told so |
| `HttpRuns.FinishAccounts` | engine/source/client/benchmark_client_impl.cc:118-154 | when finish() returns every accepted request is in exactly one place: a status class, a failed gRPC 2xx, a reset, a pool failure or http_inflight_lost |
| `HttpRuns.HeldBackIff` | engine/source/client/benchmark_client_impl.cc:238-251 | closed loop holds a request back exactly when the outstanding requests and all pool failures so far fill the limits |
| `HttpRuns.StaysClosed` | engine/source/client/benchmark_client_impl.cc:238-251 | in closed loop, once the pool has refused as many requests as the limits allow, no request is accepted again, whatever events follow |
| `HttpRuns.ClosedForGoodIff` | engine/source/client/benchmark_client_impl.cc:238-251 | a closed-loop client never accepts a request again if and only if the pool has refused as many as the limits allow; before that, resetting what is outstanding lets one in |
| `HttpRuns.FailureClosesTheWindow` | engine/source/client/benchmark_client_impl.cc:382-405 | one pool failure closes a window of one for good, with nothing outstanding |
| `HttpEvents.RequestsFromEvents` | engine/source/client/stream_decoder.cc:24-131 | over every run the requests are exactly those accepted, each with the status of its own headers event, the gRPC status of its own trailers or else its headers, and the end its own events gave it |
| `HttpEvents.CountersFromEvents` | engine/source/client/benchmark_client_impl.cc:329-405 | so each status counter is the number of requests whose own headers carried a status of its class, each reset counter the number reset in that phase or for that reason, each pool failure the number the pool failed so, and each gRPC status is tallied once for every call that ended with it |
| `HttpClient.HttpBenchmarkClient.Complete` | engine/source/client/benchmark_client_impl.cc:329-364 | a complete response, step by step, is the state machine's |
| `HttpClient.HttpBenchmarkClient.OnResetStream` | engine/source/client/stream_decoder.cc:112-131 | a reset is counted by phase and by reason, and then as a reset |
| `HttpClient.HttpBenchmarkClient.TryStartRequest` | engine/source/client/benchmark_client_impl.cc:232-281 | a request is accepted exactly when there is a pool, closed loop does not hold it back and there is something to send |
| `HttpClient.HttpBenchmarkClient.DecodeHeaders` | engine/source/client/stream_decoder.cc:24-55 | headers are kept, and end the request if they end the stream |
| `HttpClient.HttpBenchmarkClient.DecodeTrailers` | engine/source/client/stream_decoder.cc:69-82 | trailers end the request, and their gRPC status takes precedence |
| `HttpClient.HttpBenchmarkClient.OnEvent` | engine/source/client/benchmark_client_impl.cc:118-405 | whatever happens next, the object does what the state machine does and keeps its invariant |
| `GrpcRuns.EveryRun` | engine/source/client/grpc_stream_client_impl.cc:48-358 | after every run: calls = sent + deferred + unavailable, sent = received + inflight_lost + outstanding, each callback told or owed exactly once, no stream above the cap, nothing outstanding on one that is not open, turns differing by at most one, and no wait that sleeps through its end |
| `GrpcRuns.OpensExactIff` | engine/source/client/grpc_stream_client_impl.cc:73-120 | after prepare() pending_opens is the number of streams still opening, less one for every stream an event of the run made ready with a reset raised while its headers were being encoded; so it is exact if and only if no event did |
| `GrpcRuns.InnerResetMiscounts` | engine/source/client/grpc_stream_client_impl.cc:90-107 | one such reset: the count is below zero and the stream is taken for open without its encoder |
| `GrpcRuns.SendIsEnabled` | engine/source/client/grpc_stream_client_impl.cc:122-145 | in a run without such a reset every open stream has its encoder, so a send can always be tried |
| `GrpcRuns.FinishLeavesNothing` | engine/source/client/grpc_stream_client_impl.cc:295-336 | when finish() returns nothing is outstanding on any stream |
| `GrpcEvents.SendIff` | engine/source/client/grpc_stream_client_impl.cc:122-145 | a message is sent exactly if the stream whose turn it is is open, takes writes and is below the cap, deferred exactly if it is open and does not, unavailable exactly if it is not open |
| `GrpcEvents.EchoesOldestFirst` | engine/source/client/grpc_stream_client_impl.cc:122-195 | over every run what is outstanding on a stream are the last calls written on it, in order, and the calls told of their echo are those that frames brought, each time from the oldest outstanding on |
| `GrpcEvents.EndsIff` | engine/source/client/grpc_stream_client_impl.cc:164-243 | of the frames that come as many are received as messages are outstanding and the rest are unexpected; an end is early exactly if the stream is open; a stream that closes has its status counted once, and what it owed lost |
| `GrpcEvents.OpensIff` | engine/source/client/grpc_stream_client_impl.cc:73-120 | a stream counts as opened exactly if its headers were encoded; every other answer of the pool is an open failure, and so is a reset that comes first |
| `GrpcClient.GrpcStreamBenchmarkClient.OpenStreams` | engine/source/client/grpc_stream_client_impl.cc:285-293 | the loop counts the streams that are open or half-closed |
| `GrpcClient.GrpcStreamBenchmarkClient.MaybeExitWaitLoop` | engine/source/client/grpc_stream_client_impl.cc:268-283 | a wait is ended exactly when nothing is left to wait for |
| `GrpcClient.GrpcStreamBenchmarkClient.CompleteInflight` | engine/source/client/grpc_stream_client_impl.cc:245-254 | the loop loses every outstanding message and tells each callback |
| `GrpcClient.GrpcStreamBenchmarkClient.CloseStream` | engine/source/client/grpc_stream_client_impl.cc:232-243 | a stream closes once, with its status counted and what it owed lost |
| `GrpcClient.GrpcStreamBenchmarkClient.OnStreamReset` | engine/source/client/grpc_stream_client_impl.cc:206-222 | a reset, step by step, is the state machine's |
| `GrpcClient.GrpcStreamBenchmarkClient.OnStreamReady` | engine/source/client/grpc_stream_client_impl.cc:90-107 | a stream that is ready, with the reset that may come inside, is the state machine's |
| `GrpcClient.GrpcStreamBenchmarkClient.OnStreamOpenFailure` | engine/source/client/grpc_stream_client_impl.cc:109-120 | an open that fails is the state machine's |
| `GrpcClient.GrpcStreamBenchmarkClient.OpenOne` | engine/source/client/grpc_stream_client_impl.cc:73-88 | opening a stream is the state machine's, whatever the pool calls before it returns |
| `GrpcClient.GrpcStreamBenchmarkClient.Prepare` | engine/source/client/grpc_stream_client_impl.cc:48-71 | the loop of opens is the state machine's |
| `GrpcClient.GrpcStreamBenchmarkClient.TryStartRequest` | engine/source/client/grpc_stream_client_impl.cc:122-145 | a send goes to the stream whose turn it is, or is dropped and counted |
| `GrpcClient.GrpcStreamBenchmarkClient.MatchEchoes` | engine/source/client/grpc_stream_client_impl.cc:175-188 | the loop gives the oldest messages their echoes and counts the rest as unexpected |
| `GrpcClient.GrpcStreamBenchmarkClient.OnResponseData` | engine/source/client/grpc_stream_client_impl.cc:164-195 | a piece of response data is the state machine's |
| `GrpcClient.GrpcStreamBenchmarkClient.EndResponse` | engine/source/client/grpc_stream_client_impl.cc:197-204 | the end of a response before we half-closed is an early close, and closes the stream |
| `GrpcClient.GrpcStreamBenchmarkClient.Finish` | engine/source/client/grpc_stream_client_impl.cc:295-312 | the loop half-closes every open stream |
| `GrpcClient.GrpcStreamBenchmarkClient.FinishWaited` | engine/source/client/grpc_stream_client_impl.cc:318-328 | the loop loses what the streams still open owe |
| `GrpcClient.GrpcStreamBenchmarkClient.Terminate` | engine/source/client/grpc_stream_client_impl.cc:338-358 | the loop takes back what is opening and cuts off what is open |
| `GrpcClient.GrpcStreamBenchmarkClient.OnEvent` | engine/source/client/grpc_stream_client_impl.cc:48-358 | whatever happens next, the object does what the state machine does and keeps its invariant |
| `UdpRuns.PrefixBack` | engine/source/client/udp_benchmark_client_impl.cc:44-46 | every 64-bit sequence number comes back from its 16 hexadecimal digits, whatever follows them |
| `UdpRuns.PrefixOnlyOf` | engine/source/client/udp_benchmark_client_impl.cc:136-143 | sixteen hexadecimal digits give a number exactly when they are that number's prefix, but for the case of their letters |
| `UdpRuns.EveryRun` | engine/source/client/udp_benchmark_client_impl.cc:93-210 | after every run, of any length: sent = received + lost + outstanding + collided, never more than the cap, the callback of a call that collided never told and every other told or owed exactly once, nothing outstanding once finish() has returned, and no wait that sleeps through its end |
| `UdpRuns.ConservedIff` | engine/source/client/udp_benchmark_client_impl.cc:93-119 | sent = received + lost + outstanding, and every callback is told or owed once, if and only if no datagram was sent with a number that was still outstanding |
| `UdpRuns.OncePerNumber` | engine/source/client/udp_benchmark_client_impl.cc:104-119 | a run that uses each number at most once has no such collision, and its outstanding datagrams are in the order of their sending times |
| `UdpRuns.CollisionLosesACallback` | engine/source/client/udp_benchmark_client_impl.cc:104-119 | a datagram whose echo never comes, 2^64 - 1 failed sends and one more datagram: that one is forgotten and its call is never told |
| `UdpRuns.SweepExactIff` | engine/source/client/udp_benchmark_client_impl.cc:163-179 | the sweep gives up on exactly the datagrams past the timeout if and only if none of these has a higher number than one in time; each one given up on is counted as lost |
| `UdpRuns.SweepExact` | engine/source/client/udp_benchmark_client_impl.cc:163-179 | so it does wherever the outstanding numbers are in the order of their sending times, though it stops at the first one in time |
| `UdpRuns.SweepLeavesALateOne` | engine/source/client/udp_benchmark_client_impl.cc:163-179 | the last number before they come round and the first one after: the late datagram stands behind the newer one and is left |
| `UdpRuns.EchoCompletesItsOwn` | engine/source/client/udp_benchmark_client_impl.cc:136-161 | the echo of an outstanding datagram completes that one and no other, after every run |
| `UdpRuns.OnlyItsEcho` | engine/source/client/udp_benchmark_client_impl.cc:136-161 | of the datagrams that begin with sixteen hexadecimal digits only its echo completes it, but for the case of the digits' letters |
| `UdpEvents.SendIff` | engine/source/client/udp_benchmark_client_impl.cc:93-119 | a call is sent, or meets a send error, exactly when there is a socket, the client is not draining and the cap is not reached; it is deferred exactly at the cap and unavailable exactly without a socket or draining |
| `UdpEvents.OutstandingWereSent` | engine/source/client/udp_benchmark_client_impl.cc:104-119 | over every run each datagram outstanding has the number, the time and the call of the event that sent it |
| `UdpEvents.ArrivalIff` | engine/source/client/udp_benchmark_client_impl.cc:136-161 | a datagram is received exactly if it is the echo of one outstanding, which is then no longer, and else unexpected |
| `UdpClient.UdpBenchmarkClient.TryStartRequest` | engine/source/client/udp_benchmark_client_impl.cc:93-119 | a send takes the next number, or is dropped and counted |
| `UdpClient.UdpBenchmarkClient.Match` | engine/source/client/udp_benchmark_client_impl.cc:136-149 | a datagram is an echo exactly if its prefix parses, the rest is the message and its number is outstanding |
| `UdpClient.UdpBenchmarkClient.OnDatagram` | engine/source/client/udp_benchmark_client_impl.cc:136-161 | a datagram, step by step, is the state machine's |
| `UdpClient.UdpBenchmarkClient.Sweep` | engine/source/client/udp_benchmark_client_impl.cc:163-179 | the loop takes exactly the run of late datagrams at the front |
| `UdpClient.UdpBenchmarkClient.CompleteAll` | engine/source/client/udp_benchmark_client_impl.cc:181-190 | the loop loses everything outstanding |
| `UdpClient.UdpBenchmarkClient.Finish` | engine/source/client/udp_benchmark_client_impl.cc:192-210 | finish() waits only for what is outstanding on a socket |
| `UdpClient.UdpBenchmarkClient.OnEvent` | engine/source/client/udp_benchmark_client_impl.cc:48-210 | whatever happens next, the object does what the state machine does and keeps its invariant |
| `Shares.ShareIsNearest` | internal/plan/validate.go:473-489 | a share is the nearest integer to rate x w / total, at least 1 for a rate that is set, at most the rate, with no 32- or 64-bit step overflowing |
| `Shares.TotalFits` | internal/plan/validate.go:451-454 | fewer than 2^32 weights sum to a 64-bit number |
| `Shares.SharesSum` | internal/plan/validate.go:435-489 | the shares of n targets sum to within n of the rate, and to within n/2 when none was raised to 1 |
| `Rates.WorkersPerBackend` | internal/compile/compile.go:388-408 | a worker count is between 1 and 2^32 - 1, or an error |
| `Rates.Divide` | internal/compile/compile.go:296-348 | the loop sends every backend its share, or the whole is an error |
| `Rates.DividedIff` | internal/compile/compile.go:296-348 | an execution divides exactly when its workers are known, its rate is a multiple of them and every backend gets at least one a worker |
| `Rates.DividedKeepsTheLoad` | internal/compile/compile.go:296-375 | what the backends emit sums to the plan's rate, or with per_backend to that rate from each; none gets nothing without per_backend, none more than one a worker above another, and no 32-bit step overflows |
| `Rates.UniformKeepsTheLoad` | internal/compile/compile.go:248-278 | a distributor's one options object means the plan's rate when targets x workers fits in 32 bits |
| `Rates.UniformCongruent` | internal/compile/compile.go:267-278 | whatever wraps, what the targets emit together is the plan's rate in 32 bits |
| `Rates.UniformExactIff` | internal/compile/compile.go:267-278 | it means the plan's rate if and only if it fits: for a rate taken per worker, targets x workers is below 2^32 or there is no rate; for engines that take the whole rate, targets x (rate / (targets x workers mod 2^32) x workers mod 2^32) is |
| `Rates.UniformWraps` | internal/compile/compile.go:267-278 | a rate of 65536 over 65537 targets of 65536 workers: the divisor wraps and more than four thousand million requests a second are sent, however the engines take the rate |
| `Rates.UniformDividesByZeroIff` | internal/compile/compile.go:267-278 | the code divides by zero exactly when the workers are known, the rate is not per backend and targets x workers is a multiple of 2^32 |
| `Rates.UniformDividesByZero` | internal/compile/compile.go:267-278 | 65536 targets of 65536 workers do it, at any rate |
| `Rates.CompiledKeepsTheLoad` | internal/compile/compile.go:187-229 | whenever ForPool succeeds on a resolved pool, the rates its backends emit sum to the plan's, or to rate x backends with per_backend: always where each backend has its own options, behind a distributor if and only if the one object fits |
| `Rates.IdsDiffer` | internal/compile/compile.go:339-348 | the backends of a divided execution all have different execution ids |
| `Plan.ForTarget` | internal/plan/validate.go:435-463 | a target's scenario has its request, field by field, and every rate scaled to its weight |
| `Plan.VariantIs` | internal/plan/validate.go:435-463 | a target's variant has the target's url, and of the request what the target gives and the rest from the scenario, a body always whole from one of the two |
| `Plan.TotalWeight` | internal/plan/validate.go:451-454 | the loop sums the weights, an unset one as 1 |
| `Plan.ScaleExecutor` | internal/plan/validate.go:455-461 | the loop scales the rate and every stage's |
| `Plan.ExpandOne` | internal/compile/compile.go:131-171 | one execution, or one per stage, or an unknown executor |
| `Plan.StageMajor` | internal/compile/compile.go:112-127 | the two loops put the executions stage by stage: a stage's group is its targets' executions in the order listed |
| `Plan.Expand` | internal/compile/compile.go:72-129 | the expansion of a scenario, with its error cases, is the stage-major one |
| `Groups.ExecutionAt` | internal/compile/compile.go:112-127 | behind the groups of the stages before, target t's execution of stage k is number t |
| `Groups.GroupKeepsTheRate` | internal/compile/compile.go:86-129 | the rates of a stage's group sum to within one a target of the stage's rate |
| `Groups.GroupsAreStages` | internal/run/run.go:251-257 | the runner starts together exactly the executions of one stage |
| `Groups.OneGroup` | internal/run/run.go:251-257 | without stages the runner starts all the scenario's targets together |
| `Load.ExecutionsArePlanned` | internal/compile/compile.go:72-171 | every execution of a scenario that expands has the executor's per_backend, the duration and the rate of its stage or of the executor, scaled to its target's weight, and the ramp time exactly if the executor ramps; and there are as many as targets times stages |
| `Load.ScenarioKeepsTheLoad` | internal/compile/compile.go:86-348 | from the scenario and the pool: the backends of each execution together emit its planned rate, once, or with per_backend once a backend; behind a distributor if and only if the one options object fits |
| `Load.StageKeepsTheLoad` | internal/compile/compile.go:86-348 | and the targets of a stage together emit the stage's rate to within one a target |
| `Labels.StatsLabel` | internal/plan/validate.go:620-642 | the loops reduce each segment of a label and drop those with nothing left |
| `Labels.SanitizeBackendName` | engine/source/client/backend_name.cc:47-65 | the loop reduces a name as a whole |
| `Labels.SanitizersAgree` | engine/source/client/backend_name.cc:47-65 | for every ASCII name the engine's sanitizer is the compiler's label joined with underscores, slashes included |
| `Labels.SanitizedTwice` | engine/source/client/backend_name.cc:47-65 | a sanitized name holds only [a-z0-9_], and sanitizing it again changes nothing |
| `BackendName.ExpandBackendName` | engine/source/client/backend_name.cc:23-42 | a prefix without the placeholder is left alone; with it, a service without a name refuses and one with a name puts it in every place; with a sanitized name no placeholder is left |
| `BackendName.NoTokenIsLeft` | engine/source/client/backend_name.cc:23-42 | expanding a sanitized name that is not empty leaves no placeholder |
| `BackendSegments.NameByAddress` | internal/compile/stats.go:225-237 | by host where that is unique, by the whole address where it is not |
| `BackendSegments.LengthenedIs` | internal/compile/stats.go:254-258 | the name a candidate is lengthened to is free, and no shorter one is |
| `BackendSegments.Lengthen` | internal/compile/stats.go:254-258 | the lengthening loop ends, with that name |
| `BackendSegments.Disambiguate` | internal/compile/stats.go:238-261 | names that are unique are kept, the rest get their position, each lengthened against all names in use so far |
| `BackendSegments.NamesApart` | internal/compile/stats.go:202-262 | for any list of addresses: one name each, in order, pairwise different, not empty, without a dot; those that the addresses tell apart are the addresses' |
| `BackendSegments.BackendNames` | internal/compile/stats.go:215-262 | the three passes give the backends exactly those names |
| `Prefixes.LabelsOf` | internal/plan/validate.go:675-688 | the labels validation judges, with what the scenario inherits |
| `Prefixes.ValidateStatsPrefixes` | internal/plan/validate.go:653-705 | validation accepts exactly the plans whose scenarios with a statsd sink can be named and share no prefix |
| `Series.LabelsAgree` | internal/plan/validate.go:671-688 | those labels are exactly the ones the expansion produces, each as often |
| `Series.SamePrefixes` | internal/plan/validate.go:694-703 | and so are their prefixes |
| `Series.EmittedDistinct` | internal/plan/validate.go:644-705 | in an accepted plan no two executions emit under one prefix |
| `Series.ByBackendIff` | internal/compile/stats.go:177-191 | there is an options object for every address, and so a backend's name in the series, exactly for services and for a distributor of one target |
| `Series.NamePutIn` | engine/source/client/backend_name.cc:25-42 | by name, the engine's expansion of the placeholder behind a prefix that has no other is the prefix with the engine's name behind |
| `Series.EmitSeries` | internal/compile/stats.go:177-191 | an execution emits under its prefix with each backend's name behind: the engines' own where the plan asks for them, else the ones made from the addresses; or under the one prefix its backends share |
| `Series.NoTwoAlikeIff` | internal/compile/stats.go:196-262 | under distinct prefixes no two series are the same if and only if each execution's components differ and no shared prefix is another's with a component behind |
| `Series.AllSeries` | internal/compile/stats.go:177-262 | in an accepted plan over pools of any kind no two series are the same if and only if engines asked for their names have different ones and no execution whose backends share one series has as its prefix another's with the name of one of its backends behind, a name given by the addresses |
| `Series.NestedPrefix` | internal/plan/validate.go:714-719 | the prefix of a scenario a/b is that of a with b's segment behind |
| `Series.MixedPlanClashes` | internal/compile/stats.go:189-191 | scenario a on a backend b:8443 and scenario a/b behind a distributor of two targets: validation accepts the plan and two of its series are the same |
| `Series.MixedPlanCompiles` | internal/compile/compile.go:187-229 | and its executions compile for those pools |
| `RunGroup.FinishGroup` | internal/run/run.go:475-499 | the loop after the join gives every report the group's cap error, with only refusals named |
| `RunGroup.OneOutcome` | internal/run/run.go:428-605 | under every interleaving, either every report of the group carries the same cap error, with no pass, nothing judged and only refusals named, or none carries any |
| `RunGroup.RefusedIff` | internal/run/run.go:453-499 | over every run of a group that has joined, all its reports carry a cap error if and only if some start was refused with no cancellation by the caller before it, and otherwise none does |
| `RunGroup.ReportIs` | internal/run/run.go:503-605 | over every interleaving of a joined group a report passes exactly if no start was refused before a cancellation, the caller had not cancelled by when it was judged, and its dispatch brought readable answers that pass with no backend failed; and each error it can carry comes exactly in its own case |
| `RunGroup.CancelHidesTheRefusal` | internal/run/run.go:453-458 | a caller that cancels first hides a refusal that follows |
| `Runner.GroupEnd` | internal/run/run.go:252-257 | the loop finds where a group ends |
| `Runner.RunOne` | internal/run/run.go:258-276 | the reports of a group, and after a refusal not-run ones for the rest of the scenario |
| `Runner.RunScenario` | internal/run/run.go:251-294 | a scenario is cancelled exactly if some turn ended with the run cancelled and an error among its reports; then the reports end with the first such turn, and otherwise they are all the planned ones |
| `Runner.RunPlan` | internal/run/run.go:229-297 | the run goes up to the first scenario that cannot be expanded or is cut short: no report exactly in the first case, cancelled exactly in the second; the report lists the expanded executions up to there, once each and in order, all of them if there is none, and passes exactly if every listed one passed |
| `Runner.NotRunIff` | internal/run/run.go:258-276 | an execution is reported as not run exactly when the goroutines of an earlier group that ran had a start refused before the caller cancelled; one that ran carries a cap error exactly when its own group did |
| `ResultsStream.OpenedLines` | internal/cli/run.go:145-184 | an unfinished last line of an earlier run is closed off as a line of its own |
| `ResultsStream.ResultsFile.ExecutionFinished` | internal/report/report.go:628-645 | one record: what is written, and whether the stream is torn after it |
| `ResultsStream.EveryRecordIsALine` | internal/report/report.go:613-645 | whatever the writes took and whichever failed, the records whose write succeeded are whole lines, each at a place of its own and in order, behind what the file held; every line at no such place is what a failed write left of its record |

## Left out

- Rates.DividedKeepsTheLoad: for fewer than 2^32 backends, the most that the code's 32-bit cast keeps apart.
- GrpcRuns.OpensExactIff: the count is an integer here; the engine's is a 32-bit one, which wraps where this one goes below zero.
- GrpcRuns.EveryRun: a send on a stream that is open without its encoder, which only a reset inside the encoding of headers leaves behind, is no event of the model; the engine would use a null encoder there.
- TcpEcho.ChunksDoNotMatter: for pieces with nothing between them; over whole runs, with time and other events between, what is matched is `TcpMatching.SameBytesSameEchoes`, and latencies do depend on when an echo came.
- ServiceRuns.EveryInterleaving: the tunnel of a Process is not part of this model, so a cancellation always reaches it.
- Series.AllSeries: a plan whose own stats prefix holds the placeholder has it expanded too, which is not part of this statement.
- UdpRuns.OnlyItsEcho: for prefixes of sixteen hexadecimal digits; what the library makes of any other is a parameter.
- The live snapshots of a Process and their pending state: merging statistics is not part of this model.
- Latency statistics other than the TCP client's, and the histograms behind them.
- When the dispatcher leaves its wait in the TCP client's prepare() and finish(): the model lets the wait end at any time, which covers it.
- How options are built from a scenario beyond the rate and the metric prefix: flat copying of fields.
- Backend deadlines, dialling, name resolution, thresholds, report layout and command-line handling.
- The WebSocket client, the sequencer, rate limiters, TLS and redaction.
