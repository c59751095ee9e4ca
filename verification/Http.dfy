/** The HTTP benchmark client and its response decoders, as a state machine over what the connection
    pool and the codec raise.

    A request is named by its position in `requests`, which keeps every request ever accepted. A decoder
    gets no event after its last one: the codec raises at most one of a complete response, a reset and a
    pool failure for a request. */
module Http {
  import opened Tally

  datatype ResetReason =
    | LocalReset | LocalRefusedStreamReset | RemoteReset | RemoteRefusedStreamReset
    | LocalConnectionFailure | RemoteConnectionFailure | ConnectionTimeout | ConnectionTermination
    | Overflow | ConnectError | ProtocolError | OverloadManager
    | Http1PrematureUpstreamHalfClose | RemoteResetNoError

  datatype PoolFailure = PoolOverflow | LocalFailure | RemoteFailure | Timeout

  /** How a request ended; `Running` while it has not. */
  datatype Ending = Running | Completed | WasReset(reason: ResetReason) | NoPool(failure: PoolFailure)

  /** A decoder: the response status once headers came, the last gRPC status seen, and how often the
      caller's callback was told of the end. */
  datatype Request = Request(status: Option<nat>, grpcStatus: Option<nat>, ending: Ending, told: nat)

  datatype Counters = Counters(
    http1xx: nat, http2xx: nat, http3xx: nat, http4xx: nat, http5xx: nat, httpXxx: nat,
    resets: nat, resetsBeforeHeaders: nat, resetsIncompleteBody: nat, resetsBy: multiset<ResetReason>,
    overflow: nat, connectionFailure: nat, localFailure: nat, remoteFailure: nat, poolTimeout: nat,
    inflightLost: nat, grpcError: nat, grpcStatuses: multiset<Option<nat>>)

  datatype Config = Config(
    backpressure: bool, multiplexed: bool, connectionLimit: nat, maxPending: nat, maxActive: nat,
    grpc: bool, waits: bool)

  /** `exitAsked`: an exit was asked of the dispatcher since it last returned. `ended`: finish() has
      returned. */
  datatype Client = Client(
    cfg: Config, requests: seq<Request>, n: Counters,
    initiated: nat, completed: nat, outstanding: nat,
    finished: bool, waiting: bool, timedOut: bool, abandoned: bool, exitAsked: bool, ended: bool)

  datatype Event =
    | Start(pooled: bool, generated: bool)
    | Headers(id: nat, status: nat, grpc: Option<nat>, end: bool)
    | Data(id: nat, end: bool)
    | Trailers(id: nat, grpc: Option<nat>)
    | Reset(id: nat, reason: ResetReason)
    | PoolFails(id: nat, failure: PoolFailure)
    | ExitAsked
    | Abandon
    | Finish
    | FinishTimer
    | DispatcherReturns

  const ZERO := Counters(0, 0, 0, 0, 0, 0, 0, 0, 0, multiset{}, 0, 0, 0, 0, 0, 0, 0, multiset{})

  function New(cfg: Config): Client {
    Client(cfg, [], ZERO, 0, 0, 0, false, false, false, false, false, false)
  }

  function Limit(cfg: Config): nat {
    cfg.maxPending + if cfg.multiplexed then cfg.maxActive else cfg.connectionLimit
  }

  // ----- Completion -----

  function OnRequestDone(v: Client): (q: Client)
    ensures q.cfg == v.cfg
  {
    var outstanding := if v.outstanding > 0 then v.outstanding - 1 else 0;
    v.(outstanding := outstanding, exitAsked := v.exitAsked || (v.waiting && outstanding == 0))
  }

  function TrackGrpc(n: Counters, status: Option<nat>): Counters {
    n.(grpcStatuses := n.grpcStatuses + multiset{status},
       grpcError := if status == Some(0) then n.grpcError else n.grpcError + 1)
  }

  /** What a complete response counts. */
  function CountStatus(n: Counters, status: nat, scored: bool): Counters {
    if 199 < status <= 299 then if scored then n.(http2xx := n.http2xx + 1) else n
    else if 99 < status <= 199 then n.(http1xx := n.http1xx + 1)
    else if 299 < status <= 399 then n.(http3xx := n.http3xx + 1)
    else if 399 < status <= 499 then n.(http4xx := n.http4xx + 1)
    else if 499 < status <= 599 then n.(http5xx := n.http5xx + 1)
    else n.(httpXxx := n.httpXxx + 1)
  }

  function CountReset(n: Counters, before: bool, reason: ResetReason): Counters {
    n.(resets := n.resets + 1,
       resetsBeforeHeaders := n.resetsBeforeHeaders + (if before then 1 else 0),
       resetsIncompleteBody := n.resetsIncompleteBody + (if before then 0 else 1),
       resetsBy := n.resetsBy + multiset{reason})
  }

  function CountFailure(n: Counters, failure: PoolFailure): Counters {
    match failure
    case PoolOverflow => n.(overflow := n.overflow + 1)
    case LocalFailure => n.(connectionFailure := n.connectionFailure + 1, localFailure := n.localFailure + 1)
    case RemoteFailure => n.(connectionFailure := n.connectionFailure + 1, remoteFailure := n.remoteFailure + 1)
    case Timeout => n.(poolTimeout := n.poolTimeout + 1)
  }

  function Ended(r: Request, ending: Ending): Request {
    r.(ending := ending, told := r.told + 1)
  }

  /** A complete response for the request, whose decoder has become `r`. */
  function OnComplete(v: Client, id: nat, r: Request): (q: Client)
    requires id < |v.requests| && r.status.Some?
    ensures q.cfg == v.cfg
  {
    var n := if v.cfg.grpc then TrackGrpc(v.n, r.grpcStatus) else v.n;
    OnRequestDone(v.(requests := v.requests[id := Ended(r, Completed)], completed := v.completed + 1,
                     n := CountStatus(n, r.status.value, !v.cfg.grpc || r.grpcStatus == Some(0))))
  }

  function OnReset(v: Client, id: nat, reason: ResetReason): (q: Client)
    requires id < |v.requests|
    ensures q.cfg == v.cfg
  {
    var r := v.requests[id];
    var n := CountReset(v.n, r.status.None?, reason);
    OnRequestDone(v.(requests := v.requests[id := Ended(r, WasReset(reason))], completed := v.completed + 1,
                     n := if v.cfg.grpc then TrackGrpc(n, r.grpcStatus) else n))
  }

  function OnPoolFailure(v: Client, id: nat, failure: PoolFailure): (q: Client)
    requires id < |v.requests|
    ensures q.cfg == v.cfg
  {
    OnRequestDone(v.(requests := v.requests[id := Ended(v.requests[id], NoPool(failure))],
                     n := CountFailure(v.n, failure)))
  }

  // ----- Events -----

  /** Closed loop: the client takes no more requests than it may have under way. */
  predicate HoldsBack(v: Client) {
    v.cfg.backpressure && v.initiated >= v.completed + Limit(v.cfg)
  }

  predicate Accepts(v: Client, pooled: bool, generated: bool) {
    pooled && !HoldsBack(v) && generated
  }

  function TryStartRequest(v: Client, pooled: bool, generated: bool): (q: Client)
    ensures q.cfg == v.cfg
  {
    if !Accepts(v, pooled, generated) then v
    else v.(requests := v.requests + [Request(None, None, Running, 0)],
            initiated := v.initiated + 1, outstanding := v.outstanding + 1)
  }

  function OnHeaders(v: Client, id: nat, status: nat, grpc: Option<nat>, end: bool): (q: Client)
    requires id < |v.requests|
    ensures q.cfg == v.cfg
  {
    var r := v.requests[id].(status := Some(status), grpcStatus := grpc);
    if end then OnComplete(v, id, r) else v.(requests := v.requests[id := r])
  }

  function OnTrailers(v: Client, id: nat, grpc: Option<nat>): (q: Client)
    requires id < |v.requests| && v.requests[id].status.Some?
    ensures q.cfg == v.cfg
  {
    var r := v.requests[id];
    OnComplete(v, id, if grpc.Some? then r.(grpcStatus := grpc) else r)
  }

  /** The end of finish(): what is still outstanding is lost. */
  function Closed(v: Client): (q: Client)
    ensures q.cfg == v.cfg
  {
    v.(waiting := false, ended := true, n := v.n.(inflightLost := v.n.inflightLost + v.outstanding))
  }

  function OnFinish(v: Client): (q: Client)
    ensures q.cfg == v.cfg
  {
    if v.finished then v
    else if v.outstanding > 0 && !v.abandoned && v.cfg.waits then v.(finished := true, waiting := true)
    else Closed(v.(finished := true))
  }

  /** The dispatcher returns to the wait of finish(), which goes on or is over. */
  function OnReturn(v: Client): (q: Client)
    ensures q.cfg == v.cfg
  {
    var q := v.(exitAsked := false);
    if v.outstanding > 0 && !v.timedOut && !v.abandoned then q else Closed(q)
  }

  predicate Live(v: Client, id: nat) {
    id < |v.requests| && v.requests[id].ending.Running?
  }

  predicate Enabled(v: Client, e: Event) {
    match e
    case Headers(id, _, _, _) => Live(v, id) && v.requests[id].status.None?
    case Data(id, _) => Live(v, id) && v.requests[id].status.Some?
    case Trailers(id, _) => Live(v, id) && v.requests[id].status.Some?
    case Reset(id, _) => Live(v, id)
    case PoolFails(id, _) => Live(v, id)
    case FinishTimer => v.waiting
    case DispatcherReturns => v.waiting && v.exitAsked
    case _ => true
  }

  function Next(v: Client, e: Event): Client {
    if !Enabled(v, e) then v
    else match e
      case Start(pooled, generated) => TryStartRequest(v, pooled, generated)
      case Headers(id, status, grpc, end) => OnHeaders(v, id, status, grpc, end)
      case Data(id, end) => if end then OnComplete(v, id, v.requests[id]) else v
      case Trailers(id, grpc) => OnTrailers(v, id, grpc)
      case Reset(id, reason) => OnReset(v, id, reason)
      case PoolFails(id, failure) => OnPoolFailure(v, id, failure)
      case ExitAsked => v.(exitAsked := true)
      case Abandon => v.(abandoned := true, exitAsked := v.exitAsked || v.waiting)
      case Finish => OnFinish(v)
      case FinishTimer => v.(timedOut := true, exitAsked := true)
      case DispatcherReturns => OnReturn(v)
  }

  function Run(v: Client, events: seq<Event>): Client {
    if events == [] then v else Next(Run(v, events[..|events| - 1]), events[|events| - 1])
  }
}
