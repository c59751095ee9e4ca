/** The HTTP client's counters, from the events alone: what each request's own headers, trailers and end were. */
module HttpEvents {
  import opened Tally
  import opened Http
  import opened HttpRuns

  // ----- The story of a request, from the events -----

  /** The last event of the run happens. */
  ghost predicate Happens(v: Client, events: seq<Event>) {
    events != [] && Enabled(Run(v, events[..|events| - 1]), events[|events| - 1])
  }

  /** The status that the request's headers carried. */
  ghost function StatusFrom(v: Client, events: seq<Event>, id: nat): Option<nat> {
    if events == [] then None
    else
      var e := events[|events| - 1];
      if Happens(v, events) && e.Headers? && e.id == id then Some(e.status)
      else StatusFrom(v, events[..|events| - 1], id)
  }

  /** The gRPC status: the trailers' where they carried one, else the headers'. */
  ghost function GrpcFrom(v: Client, events: seq<Event>, id: nat): Option<nat> {
    if events == [] then None
    else
      var e := events[|events| - 1];
      if Happens(v, events) && e.Headers? && e.id == id then e.grpc
      else if Happens(v, events) && e.Trailers? && e.id == id && e.grpc.Some? then e.grpc
      else GrpcFrom(v, events[..|events| - 1], id)
  }

  /** How an event ends a request, if it does. */
  function EndOf(e: Event, id: nat): Option<Ending> {
    match e
    case Headers(i, _, _, end) => if i == id && end then Some(Completed) else None
    case Data(i, end) => if i == id && end then Some(Completed) else None
    case Trailers(i, _) => if i == id then Some(Completed) else None
    case Reset(i, reason) => if i == id then Some(WasReset(reason)) else None
    case PoolFails(i, failure) => if i == id then Some(NoPool(failure)) else None
    case _ => None
  }

  ghost function EndingFrom(v: Client, events: seq<Event>, id: nat): Ending {
    if events == [] then Running
    else
      var end := EndOf(events[|events| - 1], id);
      if Happens(v, events) && end.Some? then end.value else EndingFrom(v, events[..|events| - 1], id)
  }

  ghost function Story(v: Client, events: seq<Event>, id: nat): Request {
    var ending := EndingFrom(v, events, id);
    Request(StatusFrom(v, events, id), GrpcFrom(v, events, id), ending, if ending.Running? then 0 else 1)
  }

  // ----- It is the request's -----

  const UNTOUCHED := Request(None, None, Running, 0)

  /** What an event that happens makes of a request. */
  function Touched(r: Request, e: Event, id: nat): Request {
    var status := if e.Headers? && e.id == id then Some(e.status) else r.status;
    var grpc := if e.Headers? && e.id == id then e.grpc
                else if e.Trailers? && e.id == id && e.grpc.Some? then e.grpc else r.grpcStatus;
    var end := EndOf(e, id);
    if end.Some? then Request(status, grpc, end.value, r.told + 1) else Request(status, grpc, r.ending, r.told)
  }

  lemma CompleteTouches(v: Client, i: nat, r: Request)
    requires i < |v.requests| && r.status.Some?
    ensures OnComplete(v, i, r).requests == v.requests[i := r.(ending := Completed, told := r.told + 1)]
  {
  }

  lemma NextTouches(v: Client, e: Event, id: nat)
    ensures |v.requests| <= |Next(v, e).requests|
    ensures id < |v.requests| ==>
      Next(v, e).requests[id] == if Enabled(v, e) then Touched(v.requests[id], e, id) else v.requests[id]
    ensures |v.requests| <= id < |Next(v, e).requests| ==>
      Next(v, e).requests[id] == UNTOUCHED && e.Start? && Enabled(v, e)
  {
    if Enabled(v, e) {
      if e.Headers? || e.Data? || e.Trailers? {
        AnswerTouches(v, e, id);
        hide Touched, Next;
      } else {
        OtherTouches(v, e, id);
        hide Touched, Next;
      }
    }
  }

  lemma AnswerTouches(v: Client, e: Event, id: nat)
    requires Enabled(v, e) && (e.Headers? || e.Data? || e.Trailers?)
    ensures |Next(v, e).requests| == |v.requests|
    ensures id < |v.requests| ==> Next(v, e).requests[id] == Touched(v.requests[id], e, id)
  {
    hide OnComplete;
    match e
    case Headers(i, status, grpc, _) =>
      CompleteTouches(v, i, v.requests[i].(status := Some(status), grpcStatus := grpc));
    case Data(i, _) => CompleteTouches(v, i, v.requests[i]);
    case Trailers(i, grpc) =>
      CompleteTouches(v, i, if grpc.Some? then v.requests[i].(grpcStatus := grpc) else v.requests[i]);
  }

  lemma EndTouches(v: Client, e: Event, id: nat)
    requires Enabled(v, e) && (e.Reset? || e.PoolFails?)
    ensures |Next(v, e).requests| == |v.requests|
    ensures id < |v.requests| ==> Next(v, e).requests[id] == Touched(v.requests[id], e, id)
  {
    var ended := Ended(v.requests[e.id], if e.Reset? then WasReset(e.reason) else NoPool(e.failure));
    assert Next(v, e).requests == v.requests[e.id := ended];
    hide Next;
  }

  lemma StartTouches(v: Client, e: Event, id: nat)
    requires e.Start?
    ensures |v.requests| <= |Next(v, e).requests|
    ensures id < |v.requests| ==> Next(v, e).requests[id] == v.requests[id]
    ensures |v.requests| <= id < |Next(v, e).requests| ==> Next(v, e).requests[id] == UNTOUCHED
  {
    hide HoldsBack;
  }

  lemma QuietTouches(v: Client, e: Event)
    requires e.ExitAsked? || e.Abandon? || e.Finish? || e.FinishTimer? || e.DispatcherReturns?
    ensures Next(v, e).requests == v.requests
  {
  }

  lemma NotTouched(r: Request, e: Event, id: nat)
    requires !(e.Headers? || e.Data? || e.Trailers? || e.Reset? || e.PoolFails?)
    ensures Touched(r, e, id) == r
  {
  }

  lemma OtherTouches(v: Client, e: Event, id: nat)
    requires Enabled(v, e) && !(e.Headers? || e.Data? || e.Trailers?)
    ensures |v.requests| <= |Next(v, e).requests|
    ensures id < |v.requests| ==> Next(v, e).requests[id] == Touched(v.requests[id], e, id)
    ensures |v.requests| <= id < |Next(v, e).requests| ==> Next(v, e).requests[id] == UNTOUCHED && e.Start?
  {
    hide Next, Touched, Enabled;
    if e.Reset? || e.PoolFails? {
      EndTouches(v, e, id);
    } else {
      if id < |v.requests| {
        NotTouched(v.requests[id], e, id);
      }
      if e.Start? {
        StartTouches(v, e, id);
      } else {
        QuietTouches(v, e);
      }
    }
  }

  lemma LastStory(v: Client, events: seq<Event>, id: nat)
    requires events != []
    requires Happens(v, events) && EndOf(events[|events| - 1], id).Some? ==>
      EndingFrom(v, events[..|events| - 1], id).Running?
    ensures var before := events[..|events| - 1];
      Story(v, events, id)
      == if Happens(v, events) then Touched(Story(v, before, id), events[|events| - 1], id) else Story(v, before, id)
  {
  }

  /** An event that ends a request finds it under way. */
  lemma EndsLive(v: Client, e: Event, id: nat)
    requires Enabled(v, e) && EndOf(e, id).Some?
    ensures Live(v, id)
  {
  }

  /** The request's own events, and no others, made it what it is; one not accepted yet has none. */
  ghost predicate StoryIs(v: Client, events: seq<Event>, w: Client, id: nat) {
    Story(v, events, id) == if id < |w.requests| then w.requests[id] else UNTOUCHED
  }

  lemma NextStory(v: Client, events: seq<Event>, id: nat)
    requires events != [] && StoryIs(v, events[..|events| - 1], Run(v, events[..|events| - 1]), id)
    ensures StoryIs(v, events, Run(v, events), id)
  {
    var before, e := events[..|events| - 1], events[|events| - 1];
    var u := Run(v, before);
    assert Run(v, events) == Next(u, e);
    if Happens(v, events) && EndOf(e, id).Some? {
      EndsLive(u, e, id);
    }
    NextTouches(u, e, id);
    LastStory(v, events, id);
    if id >= |u.requests| && Enabled(u, e) {
      NotYetTouched(u, e, id);
    }
    hide Run, Next, Story, Touched, EndOf, Enabled;
  }

  lemma NotYetTouched(u: Client, e: Event, id: nat)
    requires id >= |u.requests| && Enabled(u, e)
    ensures Touched(UNTOUCHED, e, id) == UNTOUCHED
  {
  }

  lemma {:induction false} StoriesAre(cfg: Config, events: seq<Event>, id: nat)
    ensures StoryIs(New(cfg), events, Run(New(cfg), events), id)
  {
    if events != [] {
      StoriesAre(cfg, events[..|events| - 1], id);
      hide StoryIs, Run;
      NextStory(New(cfg), events, id);
    }
  }

  // ----- Accepted requests -----

  /** There is a pool and something to send, and closed loop has a place for it. */
  ghost predicate AcceptedNow(v: Client, e: Event) {
    && e.Start? && e.pooled && e.generated
    && !(v.cfg.backpressure && v.outstanding + Pooled(v) >= Limit(v.cfg))
  }

  ghost function AcceptedOf(v: Client, events: seq<Event>): nat {
    if events == [] then 0
    else
      var k := |events| - 1;
      AcceptedOf(v, events[..k]) + if AcceptedNow(Run(v, events[..k]), events[k]) then 1 else 0
  }

  lemma NextAccepted(v: Client, e: Event)
    requires HoldsBack(v) <==> v.cfg.backpressure && v.outstanding + Pooled(v) >= Limit(v.cfg)
    ensures |Next(v, e).requests| == |v.requests| + if AcceptedNow(v, e) then 1 else 0
  {
    hide OnComplete, Pooled, HoldsBack;
    if Enabled(v, e) {
      match e
      case Headers(i, status, grpc, _) =>
        CompleteTouches(v, i, v.requests[i].(status := Some(status), grpcStatus := grpc));
      case Data(i, _) => CompleteTouches(v, i, v.requests[i]);
      case Trailers(i, grpc) =>
        CompleteTouches(v, i, if grpc.Some? then v.requests[i].(grpcStatus := grpc) else v.requests[i]);
      case _ =>
    }
  }

  lemma {:induction false} AcceptedAre(cfg: Config, events: seq<Event>)
    ensures |Run(New(cfg), events).requests| == AcceptedOf(New(cfg), events)
  {
    if events != [] {
      var k := |events| - 1;
      AcceptedAre(cfg, events[..k]);
      HeldBackIff(cfg, events[..k]);
      RunKeepsConfig(New(cfg), events[..k]);
      hide New, Next, AcceptedNow, HoldsBack, Pooled, Limit;
      NextAccepted(Run(New(cfg), events[..k]), events[k]);
    }
  }

  // ----- gRPC statuses -----

  /** A call that counts, with this status: complete or reset. */
  ghost function CallWith(status: Option<nat>): Request -> int {
    (r: Request) => if (r.ending.Completed? || r.ending.WasReset?) && r.grpcStatus == status then 1 else 0
  }

  ghost predicate StatusesExact(v: Client) {
    v.cfg.grpc ==> forall status :: v.n.grpcStatuses[status] == Sum(v.requests, CallWith(status))
  }

  /** A request under way changes, and the tally of the status it ended with, if it is a call that counts. */
  lemma StatusesMoved(v: Client, q: Client, id: nat, r: Request)
    requires StatusesExact(v) && Live(v, id) && q.requests == v.requests[id := r] && q.cfg == v.cfg
    requires v.cfg.grpc ==>
      q.n.grpcStatuses
      == v.n.grpcStatuses + if r.ending.Completed? || r.ending.WasReset? then multiset{r.grpcStatus} else multiset{}
    ensures StatusesExact(q)
  {
    forall status
      ensures v.cfg.grpc ==> q.n.grpcStatuses[status] == Sum(q.requests, CallWith(status))
    {
      SumUpdate(v.requests, CallWith(status), id, r);
    }
  }

  lemma CompleteScores(v: Client, id: nat, r: Request)
    requires StatusesExact(v) && Live(v, id) && r.status.Some?
    ensures StatusesExact(OnComplete(v, id, r))
  {
    hide StatusesExact;
    StatusesMoved(v, OnComplete(v, id, r), id, Ended(r, Completed));
  }

  lemma StartScores(v: Client, q: Client)
    requires StatusesExact(v) && q.cfg == v.cfg && q.n == v.n && q.requests == v.requests + [UNTOUCHED]
    ensures StatusesExact(q)
  {
    forall status
      ensures v.cfg.grpc ==> q.n.grpcStatuses[status] == Sum(q.requests, CallWith(status))
    {
      SumAppend(v.requests, CallWith(status), UNTOUCHED);
    }
  }

  lemma SameScores(v: Client, q: Client)
    requires StatusesExact(v) && q.cfg == v.cfg && q.requests == v.requests && q.n.grpcStatuses == v.n.grpcStatuses
    ensures StatusesExact(q)
  {
  }

  lemma NextScores(v: Client, e: Event)
    requires StatusesExact(v)
    ensures StatusesExact(Next(v, e))
  {
    hide StatusesExact, OnComplete;
    if Enabled(v, e) {
      match e
      case Start(_, _) =>
        if Next(v, e) != v {
          StartScores(v, Next(v, e));
        }
      case Headers(id, status, grpc, end) =>
        var r := v.requests[id].(status := Some(status), grpcStatus := grpc);
        if end { CompleteScores(v, id, r); } else { StatusesMoved(v, Next(v, e), id, r); }
      case Data(id, end) => if end { CompleteScores(v, id, v.requests[id]); }
      case Trailers(id, grpc) =>
        CompleteScores(v, id, if grpc.Some? then v.requests[id].(grpcStatus := grpc) else v.requests[id]);
      case Reset(id, reason) => StatusesMoved(v, Next(v, e), id, Ended(v.requests[id], WasReset(reason)));
      case PoolFails(id, failure) => StatusesMoved(v, Next(v, e), id, Ended(v.requests[id], NoPool(failure)));
      case _ => SameScores(v, Next(v, e));
    }
  }

  lemma {:induction false} RunScores(cfg: Config, events: seq<Event>)
    ensures StatusesExact(Run(New(cfg), events))
  {
    if events != [] {
      RunScores(cfg, events[..|events| - 1]);
      hide StatusesExact, Next;
      NextScores(Run(New(cfg), events[..|events| - 1]), events[|events| - 1]);
    }
  }

  // ----- The counters -----

  /** The requests of a run, from its events. */
  ghost function FromEvents(cfg: Config, events: seq<Event>): seq<Request> {
    seq(AcceptedOf(New(cfg), events), id requires 0 <= id => Story(New(cfg), events, id))
  }

  lemma RequestsFromEvents(cfg: Config, events: seq<Event>)
    ensures Run(New(cfg), events).requests == FromEvents(cfg, events)
  {
    AcceptedAre(cfg, events);
    var all := Run(New(cfg), events).requests;
    forall id | 0 <= id < |all|
      ensures all[id] == Story(New(cfg), events, id)
    {
      StoriesAre(cfg, events, id);
    }
    hide Run, New, Story, AcceptedOf;
  }

  /** Each status counter is the number of requests whose own headers carried a status of its class and which
      then completed, a gRPC call only if its own status was 0; each reset and pool failure counter is the number
      of requests with an event of that kind, by phase and reason; each gRPC status is tallied once for every call
      that ended with it. */
  lemma CountersFromEvents(cfg: Config, events: seq<Event>)
    ensures var n, all := Run(New(cfg), events).n, FromEvents(cfg, events);
      && n.http1xx == Sum(all, At(cfg.grpc, InClass(1))) && n.http2xx == Sum(all, At(cfg.grpc, InClass(2)))
      && n.http3xx == Sum(all, At(cfg.grpc, InClass(3))) && n.http4xx == Sum(all, At(cfg.grpc, InClass(4)))
      && n.http5xx == Sum(all, At(cfg.grpc, InClass(5))) && n.httpXxx == Sum(all, At(cfg.grpc, InClass(0)))
      && n.resetsBeforeHeaders == Sum(all, At(cfg.grpc, EarlyReset))
      && n.resetsIncompleteBody == Sum(all, At(cfg.grpc, LateReset))
      && (forall reason :: n.resetsBy[reason] == Sum(all, ResetFor(reason)))
      && n.overflow == Sum(all, At(cfg.grpc, Unpooled(PoolOverflow)))
      && n.localFailure == Sum(all, At(cfg.grpc, Unpooled(LocalFailure)))
      && n.remoteFailure == Sum(all, At(cfg.grpc, Unpooled(RemoteFailure)))
      && n.poolTimeout == Sum(all, At(cfg.grpc, Unpooled(Timeout)))
      && (cfg.grpc ==> forall status :: n.grpcStatuses[status] == Sum(all, CallWith(status)))
  {
    RequestsFromEvents(cfg, events);
    EveryRun(cfg, events);
    RunScores(cfg, events);
    hide Run, New, FromEvents, Sum, At;
  }
}
