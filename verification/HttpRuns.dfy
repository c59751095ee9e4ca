/** The promises of the HTTP client, over every run. */
module HttpRuns {
  import opened Tally
  import opened Http

  // ----- Where a request ends up -----

  /** `InClass(0)` is for a status outside 100..599. */
  datatype Place = Nowhere | InClass(first: nat) | FailedCall | EarlyReset | LateReset | Unpooled(failure: PoolFailure)

  /** The class of a response, by section 15 of RFC 9110: its first digit. */
  function StatusClass(status: nat): nat {
    if 100 <= status < 600 then status / 100 else 0
  }

  function Where(grpc: bool, r: Request): Place {
    match r.ending
    case Running => Nowhere
    case Completed =>
      if r.status.None? then Nowhere
      else if StatusClass(r.status.value) == 2 && grpc && r.grpcStatus != Some(0) then FailedCall
      else InClass(StatusClass(r.status.value))
    case WasReset(_) => if r.status.None? then EarlyReset else LateReset
    case NoPool(failure) => Unpooled(failure)
  }

  ghost function At(grpc: bool, place: Place): Request -> int {
    (r: Request) => if Where(grpc, r) == place then 1 else 0
  }

  /** How many requests are in a place. */
  ghost function Count(v: Client, place: Place): int {
    Sum(v.requests, At(v.cfg.grpc, place))
  }

  ghost function Pooled(v: Client): int {
    Count(v, Unpooled(PoolOverflow)) + Count(v, Unpooled(LocalFailure))
    + Count(v, Unpooled(RemoteFailure)) + Count(v, Unpooled(Timeout))
  }

  ghost function Answered(v: Client): int {
    Count(v, InClass(0)) + Count(v, InClass(1)) + Count(v, InClass(2)) + Count(v, InClass(3))
    + Count(v, InClass(4)) + Count(v, InClass(5)) + Count(v, FailedCall)
  }

  // ----- The invariant -----

  ghost predicate ClassesExact(v: Client) {
    && v.n.http1xx == Count(v, InClass(1)) && v.n.http2xx == Count(v, InClass(2))
    && v.n.http3xx == Count(v, InClass(3)) && v.n.http4xx == Count(v, InClass(4))
    && v.n.http5xx == Count(v, InClass(5)) && v.n.httpXxx == Count(v, InClass(0))
  }

  ghost predicate ResetsExact(v: Client) {
    && v.n.resetsBeforeHeaders == Count(v, EarlyReset) && v.n.resetsIncompleteBody == Count(v, LateReset)
    && v.n.resets == v.n.resetsBeforeHeaders + v.n.resetsIncompleteBody == |v.n.resetsBy|
  }

  ghost predicate FailuresExact(v: Client) {
    && v.n.overflow == Count(v, Unpooled(PoolOverflow)) && v.n.localFailure == Count(v, Unpooled(LocalFailure))
    && v.n.remoteFailure == Count(v, Unpooled(RemoteFailure)) && v.n.poolTimeout == Count(v, Unpooled(Timeout))
    && v.n.connectionFailure == v.n.localFailure + v.n.remoteFailure
  }

  /** Every request is under way, complete, or was refused by the pool; only the first two are known to
      the closed loop. */
  ghost predicate Accounted(v: Client) {
    && v.initiated == |v.requests|
    && v.outstanding == Count(v, Nowhere)
    && v.initiated == v.completed + v.outstanding + Pooled(v)
    && (v.cfg.backpressure ==> v.initiated <= v.completed + Limit(v.cfg))
    && (v.cfg.grpc ==> |v.n.grpcStatuses| == v.completed && v.n.grpcError + v.n.grpcStatuses[Some(0)] == v.completed)
  }

  ghost predicate ToldOnce(v: Client) {
    forall id | 0 <= id < |v.requests| ::
      && v.requests[id].told == (if v.requests[id].ending.Running? then 0 else 1)
      && (v.requests[id].ending.Completed? ==> v.requests[id].status.Some?)
  }

  /** finish() waits only while something is outstanding, and never sleeps through the end of its wait. */
  ghost predicate WaitOk(v: Client) {
    && !(v.waiting && v.ended) && (v.finished <==> v.waiting || v.ended) && (v.timedOut ==> v.finished)
    && (v.waiting && (v.outstanding == 0 || v.timedOut || v.abandoned) ==> v.exitAsked)
    && (!v.ended ==> v.n.inflightLost == 0)
  }

  ghost predicate Inv(v: Client) {
    ClassesExact(v) && ResetsExact(v) && FailuresExact(v) && Accounted(v) && ToldOnce(v) && WaitOk(v)
  }

  ghost function Is(grpc: bool, r: Request, place: Place): int {
    if Where(grpc, r) == place then 1 else 0
  }

  /** One request moves, and every count but those of its two places stays. */
  lemma Moved(v: Client, q: Client, id: nat, r: Request)
    requires id < |v.requests| && q.requests == v.requests[id := r] && q.cfg == v.cfg
    ensures forall place ::
      Count(q, place) == Count(v, place) - Is(v.cfg.grpc, v.requests[id], place) + Is(v.cfg.grpc, r, place)
  {
    forall place
      ensures Count(q, place) == Count(v, place) - Is(v.cfg.grpc, v.requests[id], place) + Is(v.cfg.grpc, r, place)
    {
      SumUpdate(v.requests, At(v.cfg.grpc, place), id, r);
    }
  }

  /** A request under way whose decoder changes stays under way. */
  lemma HeadersKeep(v: Client, id: nat, r: Request)
    requires Inv(v) && Live(v, id) && r.ending.Running? && r.told == 0
    ensures Inv(v.(requests := v.requests[id := r]))
  {
    Moved(v, v.(requests := v.requests[id := r]), id, r);
    hide Count;
  }

  lemma LiveIsOutstanding(v: Client, id: nat)
    requires Inv(v) && Live(v, id)
    ensures v.outstanding > 0
  {
    SumAtLeast(v.requests, At(v.cfg.grpc, Nowhere), id);
  }

  /** The code's ranges are the classes. */
  lemma ClassOf(n: Counters, status: nat, scored: bool)
    ensures var m := CountStatus(n, status, scored);
      var c := StatusClass(status);
      m == n.(http1xx := n.http1xx + (if c == 1 then 1 else 0),
              http2xx := n.http2xx + (if c == 2 && scored then 1 else 0),
              http3xx := n.http3xx + (if c == 3 then 1 else 0), http4xx := n.http4xx + (if c == 4 then 1 else 0),
              http5xx := n.http5xx + (if c == 5 then 1 else 0), httpXxx := n.httpXxx + (if c == 0 then 1 else 0))
  {
  }

  lemma CompleteKeeps(v: Client, id: nat, r: Request)
    requires Inv(v) && Live(v, id) && r.ending.Running? && r.told == 0 && r.status.Some?
    ensures Inv(OnComplete(v, id, r))
  {
    hide Count, CountStatus, StatusClass, ClassesExact, ResetsExact, FailuresExact, Accounted, OnComplete;
    LiveIsOutstanding(v, id);
    CompleteClasses(v, id, r);
    CompleteCounts(v, id, r);
    CompleteRest(v, id, r);
  }

  lemma CompleteCounts(v: Client, id: nat, r: Request)
    requires ResetsExact(v) && FailuresExact(v) && Accounted(v) && v.outstanding > 0
    requires Live(v, id) && r.ending.Running? && r.status.Some?
    ensures var q := OnComplete(v, id, r); ResetsExact(q) && FailuresExact(q) && Accounted(q)
  {
    Moved(v, OnComplete(v, id, r), id, Ended(r, Completed));
    ClassOf(if v.cfg.grpc then TrackGrpc(v.n, r.grpcStatus) else v.n, r.status.value,
            !v.cfg.grpc || r.grpcStatus == Some(0));
    hide Count, CountStatus, StatusClass;
  }

  lemma CompleteRest(v: Client, id: nat, r: Request)
    requires ToldOnce(v) && WaitOk(v) && Live(v, id) && r.ending.Running? && r.told == 0 && r.status.Some?
    ensures ToldOnce(OnComplete(v, id, r)) && WaitOk(OnComplete(v, id, r))
  {
    ClassOf(if v.cfg.grpc then TrackGrpc(v.n, r.grpcStatus) else v.n, r.status.value,
            !v.cfg.grpc || r.grpcStatus == Some(0));
    hide CountStatus, StatusClass;
  }

  lemma CompleteClasses(v: Client, id: nat, r: Request)
    requires ClassesExact(v) && Live(v, id) && r.ending.Running? && r.status.Some?
    ensures ClassesExact(OnComplete(v, id, r))
  {
    Moved(v, OnComplete(v, id, r), id, Ended(r, Completed));
    ClassOf(if v.cfg.grpc then TrackGrpc(v.n, r.grpcStatus) else v.n, r.status.value,
            !v.cfg.grpc || r.grpcStatus == Some(0));
    hide Count, CountStatus, StatusClass;
  }

  lemma ResetKeeps(v: Client, id: nat, reason: ResetReason)
    requires Inv(v) && Live(v, id)
    ensures Inv(OnReset(v, id, reason))
  {
    hide ClassesExact, ResetsExact, FailuresExact, Accounted, Count;
    LiveIsOutstanding(v, id);
    ResetCounts(v, id, reason);
    ResetAccounts(v, id, reason);
  }

  lemma ResetCounts(v: Client, id: nat, reason: ResetReason)
    requires ClassesExact(v) && ResetsExact(v) && FailuresExact(v) && Live(v, id)
    ensures var q := OnReset(v, id, reason); ClassesExact(q) && ResetsExact(q) && FailuresExact(q)
  {
    Moved(v, OnReset(v, id, reason), id, Ended(v.requests[id], WasReset(reason)));
    hide Count;
  }

  lemma ResetAccounts(v: Client, id: nat, reason: ResetReason)
    requires Accounted(v) && Live(v, id) && v.outstanding > 0
    ensures Accounted(OnReset(v, id, reason))
  {
    Moved(v, OnReset(v, id, reason), id, Ended(v.requests[id], WasReset(reason)));
    hide Count;
  }

  lemma FailureKeeps(v: Client, id: nat, failure: PoolFailure)
    requires Inv(v) && Live(v, id)
    ensures Inv(OnPoolFailure(v, id, failure))
  {
    LiveIsOutstanding(v, id);
    Moved(v, OnPoolFailure(v, id, failure), id, Ended(v.requests[id], NoPool(failure)));
    hide Count;
  }

  lemma StartCounts(v: Client, q: Client, r: Request)
    requires q == v.(requests := v.requests + [r], initiated := v.initiated + 1, outstanding := v.outstanding + 1)
    requires r.ending.Running?
    requires ClassesExact(v) && ResetsExact(v) && FailuresExact(v)
    ensures ClassesExact(q) && ResetsExact(q) && FailuresExact(q)
    ensures Pooled(q) == Pooled(v) && Count(q, Nowhere) == Count(v, Nowhere) + 1
  {
    forall place
      ensures Count(q, place) == Count(v, place) + Is(v.cfg.grpc, r, place)
    {
      SumAppend(v.requests, At(v.cfg.grpc, place), r);
    }
    hide Count;
  }

  lemma StartKeeps(v: Client, pooled: bool, generated: bool)
    requires Inv(v)
    ensures Inv(TryStartRequest(v, pooled, generated))
  {
    hide ClassesExact, ResetsExact, FailuresExact, Pooled, Count;
    if Accepts(v, pooled, generated) {
      StartCounts(v, TryStartRequest(v, pooled, generated), Request(None, None, Running, 0));
    }
  }

  lemma NextKeeps(v: Client, e: Event)
    requires Inv(v)
    ensures Inv(Next(v, e))
  {
    if Enabled(v, e) {
      match e
      case Start(pooled, generated) => StartKeeps(v, pooled, generated);
      case Headers(id, status, grpc, end) =>
        var r := v.requests[id].(status := Some(status), grpcStatus := grpc);
        if end { CompleteKeeps(v, id, r); } else { HeadersKeep(v, id, r); }
      case Data(id, end) => if end { CompleteKeeps(v, id, v.requests[id]); }
      case Trailers(id, grpc) =>
        CompleteKeeps(v, id, if grpc.Some? then v.requests[id].(grpcStatus := grpc) else v.requests[id]);
      case Reset(id, reason) => ResetKeeps(v, id, reason);
      case PoolFails(id, failure) => FailureKeeps(v, id, failure);
      case _ => QuietKeeps(v, e);
    }
  }

  lemma QuietKeeps(v: Client, e: Event)
    requires Inv(v) && Enabled(v, e)
    requires e.ExitAsked? || e.Abandon? || e.Finish? || e.FinishTimer? || e.DispatcherReturns?
    ensures Inv(Next(v, e))
  {
    hide Count, ClassesExact, ResetsExact;
    var q := Next(v, e);
    assert q.requests == v.requests && q.cfg == v.cfg;
    SameRequests(v, q);
  }

  lemma SameRequests(v: Client, q: Client)
    requires ClassesExact(v) && ResetsExact(v)
    requires q.requests == v.requests && q.cfg == v.cfg && q.n == v.n.(inflightLost := q.n.inflightLost)
    ensures ClassesExact(q) && ResetsExact(q) && forall place :: Count(q, place) == Count(v, place)
  {
  }

  lemma {:induction false} RunKeeps(v: Client, events: seq<Event>)
    requires Inv(v)
    ensures Inv(Run(v, events))
  {
    if events != [] {
      RunKeeps(v, events[..|events| - 1]);
      NextKeeps(Run(v, events[..|events| - 1]), events[|events| - 1]);
    }
  }

  // ----- Resets by reason -----

  ghost function ResetFor(reason: ResetReason): Request -> int {
    (r: Request) => if r.ending == WasReset(reason) then 1 else 0
  }

  ghost predicate ReasonsExact(v: Client) {
    forall reason :: v.n.resetsBy[reason] == Sum(v.requests, ResetFor(reason))
  }

  /** A request under way changes, and the counter of the reason it was reset for, if it was. */
  lemma ReasonsMoved(v: Client, q: Client, id: nat, r: Request)
    requires ReasonsExact(v) && Live(v, id) && q.requests == v.requests[id := r]
    requires q.n.resetsBy == v.n.resetsBy + if r.ending.WasReset? then multiset{r.ending.reason} else multiset{}
    ensures ReasonsExact(q)
  {
    forall reason
      ensures q.n.resetsBy[reason] == Sum(q.requests, ResetFor(reason))
    {
      SumUpdate(v.requests, ResetFor(reason), id, r);
    }
  }

  ghost function Refusals(n: Counters): int {
    n.overflow + n.localFailure + n.remoteFailure + n.poolTimeout
  }

  lemma CompleteIs(v: Client, id: nat, r: Request)
    requires id < |v.requests| && r.status.Some?
    ensures var q := OnComplete(v, id, r);
      && q.requests == v.requests[id := Ended(r, Completed)] && q.n.resetsBy == v.n.resetsBy
      && Refusals(q.n) == Refusals(v.n)
  {
  }

  lemma NextKeepsReasons(v: Client, e: Event)
    requires ReasonsExact(v)
    ensures ReasonsExact(Next(v, e))
  {
    hide ReasonsExact, OnComplete;
    if Enabled(v, e) {
      match e
      case Start(_, _) => StartKeepsReasons(v, e);
      case Headers(id, status, grpc, end) =>
        var r := v.requests[id].(status := Some(status), grpcStatus := grpc);
        CompleteIs(v, id, r);
        ReasonsMoved(v, Next(v, e), id, if end then Ended(r, Completed) else r);
      case Data(id, end) =>
        CompleteIs(v, id, v.requests[id]);
        if end { ReasonsMoved(v, Next(v, e), id, Ended(v.requests[id], Completed)); }
      case Trailers(id, grpc) =>
        var r := if grpc.Some? then v.requests[id].(grpcStatus := grpc) else v.requests[id];
        CompleteIs(v, id, r);
        ReasonsMoved(v, Next(v, e), id, Ended(r, Completed));
      case Reset(id, reason) => ReasonsMoved(v, Next(v, e), id, Ended(v.requests[id], WasReset(reason)));
      case PoolFails(id, failure) => ReasonsMoved(v, Next(v, e), id, Ended(v.requests[id], NoPool(failure)));
      case _ => SameReasons(v, Next(v, e));
    }
  }

  lemma SameReasons(v: Client, q: Client)
    requires ReasonsExact(v) && q.requests == v.requests && q.n.resetsBy == v.n.resetsBy
    ensures ReasonsExact(q)
  {
  }

  lemma StartKeepsReasons(v: Client, e: Event)
    requires ReasonsExact(v) && e.Start?
    ensures ReasonsExact(Next(v, e))
  {
    var q := Next(v, e);
    if q != v {
      forall reason
        ensures q.n.resetsBy[reason] == Sum(q.requests, ResetFor(reason))
      {
        SumAppend(v.requests, ResetFor(reason), Request(None, None, Running, 0));
      }
    }
  }

  lemma {:induction false} RunKeepsReasons(cfg: Config, events: seq<Event>)
    ensures ReasonsExact(Run(New(cfg), events))
  {
    if events != [] {
      RunKeepsReasons(cfg, events[..|events| - 1]);
      hide ReasonsExact, Next;
      NextKeepsReasons(Run(New(cfg), events[..|events| - 1]), events[|events| - 1]);
    }
  }

  // ----- The promises -----

  lemma CountLast(v: Client, p: Client)
    requires v.requests != [] && p == v.(requests := v.requests[..|v.requests| - 1])
    ensures forall place :: Count(v, place) == Count(p, place) + Is(v.cfg.grpc, v.requests[|v.requests| - 1], place)
  {
  }

  lemma OnePlace(grpc: bool, r: Request)
    requires r.ending.Completed? ==> r.status.Some?
    ensures Is(grpc, r, Nowhere) + Is(grpc, r, EarlyReset) + Is(grpc, r, LateReset)
            + Is(grpc, r, InClass(0)) + Is(grpc, r, InClass(1)) + Is(grpc, r, InClass(2)) + Is(grpc, r, InClass(3))
            + Is(grpc, r, InClass(4)) + Is(grpc, r, InClass(5)) + Is(grpc, r, FailedCall)
            + Is(grpc, r, Unpooled(PoolOverflow)) + Is(grpc, r, Unpooled(LocalFailure))
            + Is(grpc, r, Unpooled(RemoteFailure)) + Is(grpc, r, Unpooled(Timeout)) == 1
  {
    if r.ending.Completed? {
      var c := StatusClass(r.status.value);
      assert c == 0 || c == 1 || c == 2 || c == 3 || c == 4 || c == 5;
    } else if r.ending.NoPool? {
      var f := r.ending.failure;
      assert f.PoolOverflow? || f.LocalFailure? || f.RemoteFailure? || f.Timeout?;
    }
  }

  /** Every request is in exactly one place. */
  lemma {:induction false} Partition(v: Client)
    requires forall id | 0 <= id < |v.requests| :: v.requests[id].ending.Completed? ==> v.requests[id].status.Some?
    ensures |v.requests| == Count(v, Nowhere) + Answered(v) + Count(v, EarlyReset) + Count(v, LateReset) + Pooled(v)
    decreases |v.requests|
  {
    if v.requests != [] {
      var k := |v.requests| - 1;
      var p := v.(requests := v.requests[..k]);
      Partition(p);
      CountLast(v, p);
      OnePlace(v.cfg.grpc, v.requests[k]);
      hide Count, Is;
    }
  }

  lemma Reachable(cfg: Config, events: seq<Event>)
    ensures var v := Run(New(cfg), events); v.cfg == cfg && Inv(v)
  {
    assert Inv(New(cfg));
    RunKeeps(New(cfg), events);
    RunKeepsConfig(New(cfg), events);
  }

  /** The client's counters, after every run: requests by class, resets by phase and by reason, pool
      failures by reason; in closed loop never more outstanding than the limits allow. */
  lemma EveryRun(cfg: Config, events: seq<Event>)
    ensures var v := Run(New(cfg), events);
      && v.cfg == cfg && ClassesExact(v) && ResetsExact(v) && ReasonsExact(v) && FailuresExact(v) && ToldOnce(v)
      && v.outstanding == Count(v, Nowhere)
      && |v.requests| == v.outstanding + Answered(v) + v.n.resets
                         + v.n.overflow + v.n.localFailure + v.n.remoteFailure + v.n.poolTimeout
      && (cfg.backpressure ==> v.outstanding <= Limit(cfg))
      && (cfg.grpc ==> v.n.grpcError + v.n.grpcStatuses[Some(0)] == |v.n.grpcStatuses| == v.completed)
      && (v.waiting && (v.outstanding == 0 || v.timedOut || v.abandoned) ==> v.exitAsked)
  {
    hide Run, New, Count, ClassesExact, ReasonsExact;
    var v := Run(New(cfg), events);
    Reachable(cfg, events);
    RunKeepsReasons(cfg, events);
    Partition(v);
  }

  lemma NextKeepsConfig(v: Client, e: Event)
    ensures Next(v, e).cfg == v.cfg
  {
    hide OnComplete, OnReset, OnPoolFailure, OnHeaders, OnTrailers, TryStartRequest, OnFinish, OnReturn;
  }

  lemma {:induction false} RunKeepsConfig(v: Client, events: seq<Event>)
    ensures Run(v, events).cfg == v.cfg
  {
    hide Next;
    if events != [] {
      NextKeepsConfig(Run(v, events[..|events| - 1]), events[|events| - 1]);
      RunKeepsConfig(v, events[..|events| - 1]);
    }
  }

  /** When finish() returns, every accepted request is in exactly one counter. */
  lemma FinishAccounts(cfg: Config, events: seq<Event>, e: Event)
    requires !Run(New(cfg), events).ended && Run(New(cfg), events + [e]).ended
    ensures var v := Run(New(cfg), events + [e]);
      |v.requests| == v.n.http1xx + v.n.http2xx + v.n.http3xx + v.n.http4xx + v.n.http5xx + v.n.httpXxx
                      + Count(v, FailedCall) + v.n.resets
                      + v.n.overflow + v.n.connectionFailure + v.n.poolTimeout + v.n.inflightLost
  {
    var v := Run(New(cfg), events);
    assert (events + [e])[..|events|] == events;
    Reachable(cfg, events);
    EveryRun(cfg, events + [e]);
    Returned(v, e);
  }

  lemma Returned(v: Client, e: Event)
    requires Inv(v) && !v.ended && Next(v, e).ended
    ensures Next(v, e).n.inflightLost == Next(v, e).outstanding
  {
  }

  /** A start is refused in closed loop exactly when what is outstanding and what the pool ever refused
      fill the limits: a pool failure takes a place in the window for good. */
  lemma HeldBackIff(cfg: Config, events: seq<Event>)
    ensures var v := Run(New(cfg), events);
      HoldsBack(v) <==> cfg.backpressure && v.outstanding + Pooled(v) >= Limit(cfg)
  {
    Reachable(cfg, events);
    hide Run, New, Count;
  }

  // ----- The window closes for good -----

  /** The pool's refusals are only ever added to, and no request is accepted while the client holds back. */
  lemma NextAccepts(v: Client, e: Event)
    ensures Refusals(v.n) <= Refusals(Next(v, e).n)
    ensures HoldsBack(v) ==> |Next(v, e).requests| == |v.requests|
  {
    hide OnComplete, HoldsBack;
    if Enabled(v, e) {
      match e
      case Headers(id, status, grpc, _) =>
        CompleteIs(v, id, v.requests[id].(status := Some(status), grpcStatus := grpc));
      case Data(id, _) => CompleteIs(v, id, v.requests[id]);
      case Trailers(id, grpc) =>
        CompleteIs(v, id, if grpc.Some? then v.requests[id].(grpcStatus := grpc) else v.requests[id]);
      case _ =>
    }
  }

  /** The window of a client, by its counters. */
  lemma Window(cfg: Config, events: seq<Event>)
    ensures var v := Run(New(cfg), events);
      && v.cfg == cfg && Inv(v) && Pooled(v) == Refusals(v.n)
      && (HoldsBack(v) <==> cfg.backpressure && v.outstanding + Refusals(v.n) >= Limit(cfg))
  {
    Reachable(cfg, events);
    hide Run, New, Count, ClassesExact, ResetsExact;
  }

  lemma LastStep(cfg: Config, events: seq<Event>, e: Event)
    ensures Run(New(cfg), events + [e]) == Next(Run(New(cfg), events), e)
  {
    assert (events + [e])[..|events|] == events;
  }

  /** In closed loop, once the pool has refused as many requests as the limits allow, no request is ever
      accepted again, whatever happens. */
  lemma {:induction false} StaysClosed(cfg: Config, events: seq<Event>, after: seq<Event>)
    requires cfg.backpressure && Pooled(Run(New(cfg), events)) >= Limit(cfg)
    ensures |Run(New(cfg), events + after).requests| == |Run(New(cfg), events).requests|
    ensures Pooled(Run(New(cfg), events + after)) >= Limit(cfg)
    decreases |after|
  {
    if after == [] {
      assert events + after == events;
    } else {
      var k := |after| - 1;
      var so := events + after[..k];
      assert events + after == so + [after[k]];
      StaysClosed(cfg, events, after[..k]);
      hide *;
      Window(cfg, so);
      Window(cfg, events + after);
      LastStep(cfg, so, after[k]);
      NextAccepts(Run(New(cfg), so), after[k]);
    }
  }

  lemma OutstandingIsLive(v: Client) returns (id: nat)
    requires Inv(v) && v.outstanding > 0
    ensures Live(v, id)
  {
    id := SumHas(v.requests, At(v.cfg.grpc, Nowhere));
  }

  /** While the pool has refused fewer, some way on has a request accepted: what is outstanding is reset. */
  lemma {:induction false} CanReopen(cfg: Config, events: seq<Event>) returns (after: seq<Event>)
    requires Pooled(Run(New(cfg), events)) < Limit(cfg)
    ensures |Run(New(cfg), events + after).requests| > |Run(New(cfg), events).requests|
    decreases Run(New(cfg), events).outstanding
  {
    hide *;
    var v := Run(New(cfg), events);
    Window(cfg, events);
    if !HoldsBack(v) {
      after := [Start(true, true)];
      LastStep(cfg, events, Start(true, true));
      Accepted(v);
    } else {
      var id := OutstandingIsLive(v);
      var e := Reset(id, RemoteReset);
      LastStep(cfg, events, e);
      ResetFrees(v, id, RemoteReset);
      Window(cfg, events + [e]);
      var rest := CanReopen(cfg, events + [e]);
      after := [e] + rest;
      assert events + after == events + [e] + rest;
    }
  }

  lemma Accepted(v: Client)
    requires !HoldsBack(v)
    ensures |Next(v, Start(true, true)).requests| == |v.requests| + 1
  {
  }

  lemma ResetFrees(v: Client, id: nat, reason: ResetReason)
    requires Inv(v) && Live(v, id)
    ensures var q := Next(v, Reset(id, reason));
      q.outstanding < v.outstanding && Refusals(q.n) == Refusals(v.n) && |q.requests| == |v.requests|
  {
    LiveIsOutstanding(v, id);
    hide Count;
  }

  /** A closed-loop client is closed for good exactly when the pool has refused as many requests as the
      limits allow: no completion gives a refused request's place back. */
  lemma ClosedForGoodIff(cfg: Config, events: seq<Event>)
    requires cfg.backpressure
    ensures (forall after :: |Run(New(cfg), events + after).requests| == |Run(New(cfg), events).requests|)
            <==> Pooled(Run(New(cfg), events)) >= Limit(cfg)
  {
    if Pooled(Run(New(cfg), events)) >= Limit(cfg) {
      forall after
        ensures |Run(New(cfg), events + after).requests| == |Run(New(cfg), events).requests|
      {
        StaysClosed(cfg, events, after);
      }
    } else {
      var after := CanReopen(cfg, events);
    }
  }

  /** One pool failure is enough to close a window of one, with nothing outstanding and for good. */
  lemma FailureClosesTheWindow()
    ensures var cfg := Config(true, false, 1, 0, 0, false, true);
      var v := Run(New(cfg), [Start(true, true), PoolFails(0, LocalFailure)]);
      && v.outstanding == 0 && Limit(cfg) == 1 && HoldsBack(v)
      && forall after :: |Run(New(cfg), [Start(true, true), PoolFails(0, LocalFailure)] + after).requests| == 1
  {
    var cfg := Config(true, false, 1, 0, 0, false, true);
    var a := [Start(true, true)];
    var b := [Start(true, true), PoolFails(0, LocalFailure)];
    assert b[..1] == a && a[..0] == [];
    assert Run(New(cfg), a) == Next(New(cfg), a[0]);
    assert Run(New(cfg), b) == Next(Run(New(cfg), a), b[1]);
    HeldBackIff(cfg, b);
    ClosedForGoodIff(cfg, b);
  }
}
