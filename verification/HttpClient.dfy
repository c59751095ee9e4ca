/** The HTTP client as the engine writes it, an object its decoders call back. Every method is proved to
    do what the state machine of Http says of its event. */
module HttpClient {
  import opened Tally
  import opened Http
  import opened HttpRuns

  class HttpBenchmarkClient {
    const cfg: Config
    var requests: seq<Request>
    var n: Counters
    var initiated: nat
    var completed: nat
    var outstanding: nat
    var finished: bool
    var waiting: bool
    var timedOut: bool
    var abandoned: bool
    var exitAsked: bool
    var ended: bool

    function View(): Client
      reads this
    {
      Client(cfg, requests, n, initiated, completed, outstanding,
             finished, waiting, timedOut, abandoned, exitAsked, ended)
    }

    constructor (cfg: Config)
      ensures View() == New(cfg)
    {
      this.cfg := cfg;
      requests, n, initiated, completed, outstanding := [], ZERO, 0, 0, 0;
      finished, waiting, timedOut, abandoned, exitAsked, ended := false, false, false, false, false, false;
    }

    method RequestDone()
      modifies `outstanding, `exitAsked
      ensures View() == OnRequestDone(old(View()))
    {
      if outstanding > 0 {
        outstanding := outstanding - 1;
      }
      if waiting && outstanding == 0 {
        exitAsked := true;
      }
    }

    method TrackGrpcStatus(status: Option<nat>) returns (ok: bool)
      modifies `n
      ensures n == TrackGrpc(old(n), status) && ok == (status == Some(0))
    {
      n := n.(grpcStatuses := n.grpcStatuses + multiset{status});
      ok := status.Some? && status.value == 0;
      if !ok {
        n := n.(grpcError := n.grpcError + 1);
      }
    }

    /** The status ranges, in the order the engine asks for them. */
    method CountResponse(status: nat, scored: bool)
      modifies `n
      ensures n == CountStatus(old(n), status, scored)
    {
      if status > 199 && status <= 299 {
        if scored {
          n := n.(http2xx := n.http2xx + 1);
        }
      } else if status > 99 && status <= 199 {
        n := n.(http1xx := n.http1xx + 1);
      } else if status > 299 && status <= 399 {
        n := n.(http3xx := n.http3xx + 1);
      } else if status > 399 && status <= 499 {
        n := n.(http4xx := n.http4xx + 1);
      } else if status > 499 && status <= 599 {
        n := n.(http5xx := n.http5xx + 1);
      } else {
        n := n.(httpXxx := n.httpXxx + 1);
      }
    }

    /** The decoder of request `id`, which has become `r`, has the whole response. */
    method Complete(id: nat, r: Request)
      requires id < |requests| && r.status.Some?
      modifies `requests, `n, `completed, `outstanding, `exitAsked
      ensures View() == OnComplete(old(View()), id, r)
    {
      hide CountStatus, TrackGrpc;
      completed := completed + 1;
      RequestDone();
      var grpcOk := false;
      if cfg.grpc {
        grpcOk := TrackGrpcStatus(r.grpcStatus);
      }
      CountResponse(r.status.value, !cfg.grpc || grpcOk);
      requests := requests[id := r.(ending := Completed, told := r.told + 1)];
    }

    method OnStreamReset(before: bool, reason: ResetReason)
      modifies `n
      ensures n == CountReset(old(n), before, reason).(resets := old(n).resets)
    {
      if before {
        n := n.(resetsBeforeHeaders := n.resetsBeforeHeaders + 1);
      } else {
        n := n.(resetsIncompleteBody := n.resetsIncompleteBody + 1);
      }
      n := n.(resetsBy := n.resetsBy + multiset{reason});
    }

    method OnResetStream(id: nat, reason: ResetReason)
      requires id < |requests|
      modifies `requests, `n, `completed, `outstanding, `exitAsked
      ensures View() == OnReset(old(View()), id, reason)
    {
      hide TrackGrpc;
      var r := requests[id];
      OnStreamReset(r.status.None?, reason);
      completed := completed + 1;
      RequestDone();
      n := n.(resets := n.resets + 1);
      if cfg.grpc {
        var _ := TrackGrpcStatus(r.grpcStatus);
      }
      requests := requests[id := r.(ending := WasReset(reason), told := r.told + 1)];
    }

    method PoolFailed(id: nat, failure: PoolFailure)
      requires id < |requests|
      modifies `requests, `n, `outstanding, `exitAsked
      ensures View() == OnPoolFailure(old(View()), id, failure)
    {
      match failure {
        case PoolOverflow => n := n.(overflow := n.overflow + 1);
        case LocalFailure =>
          n := n.(connectionFailure := n.connectionFailure + 1);
          n := n.(localFailure := n.localFailure + 1);
        case RemoteFailure =>
          n := n.(connectionFailure := n.connectionFailure + 1);
          n := n.(remoteFailure := n.remoteFailure + 1);
        case Timeout => n := n.(poolTimeout := n.poolTimeout + 1);
      }
      RequestDone();
      var r := requests[id];
      requests := requests[id := r.(ending := NoPool(failure), told := r.told + 1)];
    }

    method TryStartRequest(pooled: bool, generated: bool) returns (started: bool)
      modifies `requests, `initiated, `outstanding
      ensures View() == Http.TryStartRequest(old(View()), pooled, generated)
      ensures started == Accepts(old(View()), pooled, generated)
    {
      if !pooled {
        return false;
      }
      if cfg.backpressure {
        var maxActive := if cfg.multiplexed then cfg.maxActive else cfg.connectionLimit;
        if initiated - completed >= cfg.maxPending + maxActive {
          return false;
        }
      }
      if !generated {
        return false;
      }
      initiated := initiated + 1;
      outstanding := outstanding + 1;
      requests := requests + [Request(None, None, Running, 0)];
      started := true;
    }

    method DecodeHeaders(id: nat, status: nat, grpc: Option<nat>, end: bool)
      requires id < |requests|
      modifies `requests, `n, `completed, `outstanding, `exitAsked
      ensures View() == OnHeaders(old(View()), id, status, grpc, end)
    {
      hide OnComplete;
      var r := requests[id].(status := Some(status), grpcStatus := grpc);
      if end {
        Complete(id, r);
      } else {
        requests := requests[id := r];
      }
    }

    method DecodeTrailers(id: nat, grpc: Option<nat>)
      requires id < |requests| && requests[id].status.Some?
      modifies `requests, `n, `completed, `outstanding, `exitAsked
      ensures View() == OnTrailers(old(View()), id, grpc)
    {
      hide OnComplete;
      var r := requests[id];
      if grpc.Some? {
        r := r.(grpcStatus := grpc);
      }
      Complete(id, r);
    }

    method Close()
      modifies `waiting, `ended, `n
      ensures View() == Closed(old(View()))
    {
      waiting := false;
      if outstanding > 0 {
        n := n.(inflightLost := n.inflightLost + outstanding);
      }
      ended := true;
    }

    /** finish(), up to the first return of the dispatcher it waits on. */
    method Finish()
      modifies `finished, `waiting, `ended, `n
      ensures View() == OnFinish(old(View()))
    {
      if finished {
        return;
      }
      finished := true;
      if outstanding > 0 && !abandoned && cfg.waits {
        waiting := true;
      } else {
        Close();
      }
    }

    /** What asks for the end of a wait, and the loop of finish() each time the dispatcher returns to it. */
    method OnWaitEvent(e: Event)
      requires Enabled(View(), e)
      requires e.ExitAsked? || e.Abandon? || e.Finish? || e.FinishTimer? || e.DispatcherReturns?
      modifies this
      ensures View() == Next(old(View()), e)
    {
      hide OnFinish;
      match e
      case ExitAsked => exitAsked := true;
      case Abandon =>
        abandoned := true;
        if waiting {
          exitAsked := true;
        }
      case Finish => Finish();
      case FinishTimer => timedOut, exitAsked := true, true;
      case DispatcherReturns =>
        exitAsked := false;
        if !(outstanding > 0 && !timedOut && !abandoned) {
          Close();
        }
    }

    /** One event of a request under way. */
    method OnRequestEvent(e: Event)
      requires Enabled(View(), e)
      requires e.Headers? || e.Data? || e.Trailers? || e.Reset? || e.PoolFails?
      modifies this
      ensures View() == Next(old(View()), e)
    {
      hide OnHeaders, OnComplete, OnTrailers, OnReset, OnPoolFailure;
      match e
      case Headers(id, status, grpc, end) => DecodeHeaders(id, status, grpc, end);
      case Data(id, end) =>
        if end {
          Complete(id, requests[id]);
        }
      case Trailers(id, grpc) => DecodeTrailers(id, grpc);
      case Reset(id, reason) => OnResetStream(id, reason);
      case PoolFails(id, failure) => PoolFailed(id, failure);
    }

    /** Whatever happens next, the object does what the state machine does. */
    method OnEvent(e: Event)
      requires Inv(View()) && Enabled(View(), e)
      modifies this
      ensures View() == Next(old(View()), e) && Inv(View())
    {
      NextKeeps(View(), e);
      hide Inv;
      if e.Start? {
        var _ := TryStartRequest(e.pooled, e.generated);
      } else {
        hide Next, HttpBenchmarkClient.View;
        if e.Headers? || e.Data? || e.Trailers? || e.Reset? || e.PoolFails? {
          OnRequestEvent(e);
        } else {
          OnWaitEvent(e);
        }
      }
    }
  }
}
