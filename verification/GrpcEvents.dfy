/** The gRPC stream client's messages and counters, from the events alone. */
module GrpcEvents {
  import opened Tally
  import opened GrpcStream
  import opened GrpcRuns

  // ----- Sending -----

  /** A call goes to the stream whose turn it is: it is sent if the stream is open, takes writes and is below
      the cap, deferred if the stream is open but does not, and unavailable if the stream is not open. */
  lemma SendIff(v: Client)
    requires v.next < |v.streams|
    ensures var st, n, m := v.streams[v.next], v.n, TryStartRequest(v).n;
      var free := !st.writeBlocked && |st.inflight| < v.maxInflight;
      && m == n.(sent := n.sent + (if st.state.Open? && free then 1 else 0),
                 deferred := n.deferred + (if st.state.Open? && !free then 1 else 0),
                 unavailable := n.unavailable + (if st.state.Open? then 0 else 1))
  {
  }

  /** The call is written on the stream. */
  predicate WritesOn(v: Client, e: Event, i: nat) {
    && e.Send? && Enabled(v, e) && i == v.next < |v.streams|
    && v.streams[i].state.Open? && !v.streams[i].writeBlocked && |v.streams[i].inflight| < v.maxInflight
  }

  /** The calls written on a stream, in order. */
  ghost function CallsOn(v: Client, events: seq<Event>, i: nat): seq<nat> {
    if events == [] then []
    else
      var k := |events| - 1;
      var u := Run(v, events[..k]);
      CallsOn(v, events[..k], i) + if WritesOn(u, events[k], i) then [u.calls] else []
  }

  // ----- Echoes -----

  /** How many of the frames that come are echoes of what is outstanding. */
  function Matched(v: Client, e: Event): nat {
    if e.Frames? && Enabled(v, e) then Min(e.count, |v.streams[e.stream].inflight|) else 0
  }

  /** The calls that frames tell of their echo: from the oldest outstanding on, in the order they were sent. */
  ghost function ToldAt(v: Client, before: seq<Event>, e: Event): multiset<nat> {
    var u := Run(v, before);
    var m := Matched(u, e);
    if !e.Frames? || m == 0 then multiset{}
    else
      var calls, owed := CallsOn(v, before, e.stream), |u.streams[e.stream].inflight|;
      if owed <= |calls| then multiset(calls[|calls| - owed..|calls| - owed + m]) else multiset{}
  }

  ghost function AllTold(v: Client, events: seq<Event>): multiset<nat> {
    if events == [] then multiset{}
    else AllTold(v, events[..|events| - 1]) + ToldAt(v, events[..|events| - 1], events[|events| - 1])
  }

  /** What is outstanding are the last calls written, in order. */
  ghost predicate EndsWith(calls: seq<nat>, owed: seq<nat>) {
    |owed| <= |calls| && owed == calls[|calls| - |owed|..]
  }

  lemma EndsWithMore(calls: seq<nat>, owed: seq<nat>, call: nat)
    requires EndsWith(calls, owed)
    ensures EndsWith(calls + [call], owed + [call])
  {
  }

  lemma EndsWithFewer(calls: seq<nat>, owed: seq<nat>, m: nat)
    requires EndsWith(calls, owed) && m <= |owed|
    ensures EndsWith(calls, owed[m..]) && EndsWith(calls, [])
    ensures owed[..m] == calls[|calls| - |owed|..|calls| - |owed| + m]
  {
  }

  // ----- What an event does to a stream -----

  /** Nothing is written or matched on a stream: it owes what it owed, or has lost it all. */
  predicate Idle(st: Stream, q: Stream) {
    q.inflight == st.inflight || q.inflight == []
  }

  ghost predicate AllIdle(v: Client, q: Client) {
    && |q.streams| == |v.streams| && q.succeeded == v.succeeded
    && forall i | 0 <= i < |v.streams| :: Idle(v.streams[i], q.streams[i])
  }

  lemma IdleTwice(v: Client, q: Client, r: Client)
    requires AllIdle(v, q) && AllIdle(q, r)
    ensures AllIdle(v, r)
  {
    forall i | 0 <= i < |v.streams|
      ensures Idle(v.streams[i], r.streams[i])
    {
      assert Idle(v.streams[i], q.streams[i]) && Idle(q.streams[i], r.streams[i]);
    }
  }

  lemma SameIdle(v: Client, q: Client)
    requires q.streams == v.streams && q.succeeded == v.succeeded
    ensures AllIdle(v, q)
  {
  }

  lemma OneIdle(v: Client, q: Client, i: nat, st: Stream)
    requires i < |v.streams| && q.streams == v.streams[i := st] && q.succeeded == v.succeeded && Idle(v.streams[i], st)
    ensures AllIdle(v, q)
  {
  }

  lemma CloseIdle(v: Client, i: nat, status: Option<nat>)
    requires i < |v.streams|
    ensures AllIdle(v, Close(v, i, status))
  {
    hide Sum, AllIdle;
    SameIdle(v, v);
    if !v.streams[i].state.Closed? {
      OneIdle(v, Close(v, i, status), i, v.streams[i].(state := Closed, encoder := false, inflight := []));
    }
  }

  lemma ResetIdle(v: Client, i: nat)
    requires i < |v.streams|
    ensures AllIdle(v, OnReset(v, i))
  {
    hide Close, AllIdle;
    SameIdle(v, v);
    var c := ResetCounted(v, i);
    SameIdle(v, c);
    CloseIdle(c, i, None);
    IdleTwice(v, c, Close(c, i, None));
  }

  lemma EndedIdle(v: Client, i: nat, encoded: bool)
    requires i < |v.streams|
    ensures AllIdle(v, MaybeExit(OpenEnded(v, i, encoded)))
  {
    hide Sum;
  }

  lemma InnerIdle(v: Client, i: nat)
    requires i < |v.streams|
    ensures AllIdle(v, InnerReset(v, i))
  {
    hide AllIdle, OnReset;
    var q := v.(innerResets := v.innerResets + 1);
    SameIdle(v, q);
    ResetIdle(q, i);
    IdleTwice(v, q, OnReset(q, i));
  }

  lemma ReadyIdle(v: Client, i: nat, encoded: bool, reset: bool)
    requires i < |v.streams|
    ensures AllIdle(v, OnReady(v, i, encoded, reset))
  {
    hide AllIdle, InnerReset, OpenEnded, MaybeExit;
    var q := v.(streams := v.streams[i := v.streams[i].(encoder := true)]);
    OneIdle(v, q, i, v.streams[i].(encoder := true));
    var r := if reset then InnerReset(q, i) else q;
    if reset {
      InnerIdle(q, i);
      IdleTwice(v, q, r);
    }
    EndedIdle(r, i, encoded);
    IdleTwice(v, r, OnReady(v, i, encoded, reset));
  }

  lemma OpenIdle(v: Client, i: nat, outcome: Outcome)
    requires i < |v.streams|
    ensures AllIdle(v, OpenStream(v, i, outcome))
  {
    var a := Asked(v, i);
    OneIdle(v, a, i, v.streams[i].(asked := true));
    OneIdle(v, Refused(v, i), i, v.streams[i].(state := Closed));
    hide AllIdle, OnReady, OpenEnded, MaybeExit, Asked, Refused;
    EndedIdle(a, i, false);
    IdleTwice(v, a, OnOpenFailure(a, i));
    if outcome.Ready? {
      ReadyIdle(a, i, outcome.encoded, outcome.reset);
      IdleTwice(v, a, OnReady(a, i, outcome.encoded, outcome.reset));
    }
  }

  lemma {:induction false} OpenAllIdle(v: Client, outcomes: seq<Outcome>)
    ensures AllIdle(v, OpenAll(v, outcomes))
  {
    hide AllIdle, OpenStream;
    SameIdle(v, v);
    if outcomes != [] {
      var k := |outcomes| - 1;
      var q := OpenAll(v, outcomes[..k]);
      OpenAllIdle(v, outcomes[..k]);
      if k < |q.streams| {
        OpenIdle(q, k, outcomes[k]);
        IdleTwice(v, q, OpenStream(q, k, outcomes[k]));
      }
    }
  }

  lemma {:induction false} LoseIdle(v: Client, k: nat)
    requires k <= |v.streams|
    ensures AllIdle(v, LoseOpen(v, k))
  {
    hide AllIdle;
    SameIdle(v, v);
    if k > 0 {
      var q := LoseOpen(v, k - 1);
      LoseIdle(v, k - 1);
      OneIdle(q, Drained(q, k - 1), k - 1, q.streams[k - 1].(inflight := []));
      IdleTwice(v, q, Drained(q, k - 1));
    }
  }

  lemma TerminatedIdle(v: Client, i: nat)
    requires i < |v.streams|
    ensures AllIdle(v, Terminated(v, i))
  {
    hide AllIdle;
    SameIdle(v, v);
    var st := v.streams[i];
    OneIdle(v, Cancelled(v, i), i, st.(state := Closed));
    OneIdle(v, Cut(v, i), i, st.(state := Closed, encoder := false, inflight := []));
  }

  lemma {:induction false} TerminateIdle(v: Client, k: nat)
    requires k <= |v.streams|
    ensures AllIdle(v, TerminateEach(v, k))
  {
    hide AllIdle, Terminated;
    SameIdle(v, v);
    if k > 0 {
      TerminateIdle(v, k - 1);
      TerminatedIdle(TerminateEach(v, k - 1), k - 1);
      IdleTwice(v, TerminateEach(v, k - 1), TerminateEach(v, k));
    }
  }

  lemma FinishIdle(v: Client)
    ensures AllIdle(v, OnFinish(v))
  {
    hide Sum;
  }

  lemma EndIdle(v: Client, i: nat, status: Option<nat>)
    requires i < |v.streams|
    ensures AllIdle(v, OnEnd(v, i, status))
  {
    var q := if v.streams[i].state.Open? then v.(n := v.n.(earlyClose := v.n.earlyClose + 1)) else v;
    SameIdle(v, q);
    hide AllIdle, Close;
    CloseIdle(q, i, status);
    IdleTwice(v, q, Close(q, i, status));
  }

  /** Every event but a send and frames. */
  lemma StepIdle(v: Client, e: Event)
    requires Enabled(v, e) && !e.Send? && !e.Frames?
    ensures AllIdle(v, Step(v, e))
  {
    SameIdle(v, v.(prepared := true));
    hide AllIdle, OpenAll, OnReady, OpenEnded, MaybeExit, OnEnd, OnReset, OnFinish, LoseOpen, TerminateEach;
    match e
    case Prepare(outcomes) =>
      var p := v.(prepared := true);
      var q := OpenAll(p, outcomes);
      OpenAllIdle(p, outcomes);
      IdleTwice(v, p, q);
      SameIdle(q, Step(v, e));
      IdleTwice(v, q, Step(v, e));
    case OpenResult(i, outcome) =>
      EndedIdle(v, i, false);
      if outcome.Ready? {
        ReadyIdle(v, i, outcome.encoded, outcome.reset);
      }
    case EndOfResponse(i, status) => EndIdle(v, i, status);
    case Reset(i) => ResetIdle(v, i);
    case Watermark(i, blocked) => OneIdle(v, Step(v, e), i, v.streams[i].(writeBlocked := blocked));
    case WaitTimer => SameIdle(v, Step(v, e));
    case Finish => FinishIdle(v);
    case PrepareReturns => SameIdle(v, Step(v, e));
    case FinishReturns =>
      var p := v.(waiting := Nothing, exitAsked := false);
      SameIdle(v, p);
      LoseIdle(p, |p.streams|);
      IdleTwice(v, p, LoseOpen(p, |p.streams|));
    case Terminate => TerminateIdle(v, |v.streams|);
    case _ =>
  }

  /** The first `m` that a stream owed have come, and of the rest it has lost none or all. */
  predicate Left(owed: seq<nat>, left: seq<nat>, m: nat) {
    m <= |owed| && (left == owed[m..] || left == [])
  }

  lemma EndsWithLeft(calls: seq<nat>, owed: seq<nat>, left: seq<nat>, m: nat)
    requires EndsWith(calls, owed) && Left(owed, left, m)
    ensures EndsWith(calls, left)
  {
    EndsWithFewer(calls, owed, m);
  }

  lemma IdleLeft(st: Stream, q: Stream)
    requires Idle(st, q)
    ensures Left(st.inflight, q.inflight, 0)
  {
    assert st.inflight[0..] == st.inflight;
  }

  lemma FramesAre(v: Client, i: nat, count: nat, end: bool, j: nat)
    requires i < |v.streams| && j < |v.streams|
    ensures var q, m := OnFrames(v, i, count, end), Min(count, |v.streams[i].inflight|);
      && |q.streams| == |v.streams| && q.succeeded == v.succeeded + multiset(v.streams[i].inflight[..m])
      && Left(v.streams[j].inflight, q.streams[j].inflight, if j == i then m else 0)
  {
    var c, q := Echoed(v, i, count), OnFrames(v, i, count, end);
    assert AllIdle(c, q) by {
      hide OnEnd, AllIdle, Echoed;
      SameIdle(c, c);
      EndIdle(c, i, None);
    }
    hide OnFrames;
    assert Idle(c.streams[j], q.streams[j]);
    if j != i {
      IdleLeft(v.streams[j], q.streams[j]);
    }
  }

  // ----- Every run -----

  ghost predicate StoryIs(v: Client, events: seq<Event>, w: Client) {
    && w.succeeded == AllTold(v, events)
    && forall i | 0 <= i < |w.streams| :: EndsWith(CallsOn(v, events, i), w.streams[i].inflight)
  }

  lemma LastCalls(v: Client, events: seq<Event>, i: nat)
    requires events != []
    ensures var before, e := events[..|events| - 1], events[|events| - 1];
      var u := Run(v, before);
      CallsOn(v, events, i) == CallsOn(v, before, i) + (if WritesOn(u, e, i) then [u.calls] else [])
  {
  }

  /** Only a send writes, and only frames tell. */
  lemma CallsSame(v: Client, events: seq<Event>, i: nat)
    requires events != []
    requires !(events[|events| - 1].Send? && Enabled(Run(v, events[..|events| - 1]), events[|events| - 1]))
    ensures CallsOn(v, events, i) == CallsOn(v, events[..|events| - 1], i)
  {
  }

  lemma ToldSame(v: Client, events: seq<Event>)
    requires events != []
    requires !(events[|events| - 1].Frames? && Enabled(Run(v, events[..|events| - 1]), events[|events| - 1]))
    ensures AllTold(v, events) == AllTold(v, events[..|events| - 1])
  {
  }

  lemma IdleStory(v: Client, events: seq<Event>, u: Client, w: Client)
    requires events != [] && u == Run(v, events[..|events| - 1]) && StoryIs(v, events[..|events| - 1], u)
    requires AllIdle(u, w) && !(events[|events| - 1].Send? && Enabled(u, events[|events| - 1]))
    requires !(events[|events| - 1].Frames? && Enabled(u, events[|events| - 1]))
    ensures StoryIs(v, events, w)
  {
    hide AllTold, CallsOn, Run, Enabled, EndsWith, Left, Idle;
    ToldSame(v, events);
    forall i | 0 <= i < |w.streams|
      ensures EndsWith(CallsOn(v, events, i), w.streams[i].inflight)
    {
      CallsSame(v, events, i);
      IdleLeft(u.streams[i], w.streams[i]);
      EndsWithLeft(CallsOn(v, events[..|events| - 1], i), u.streams[i].inflight, w.streams[i].inflight, 0);
    }
  }

  lemma Written(u: Client, e: Event, i: nat)
    requires e.Send? && Enabled(u, e) && i < |u.streams|
    ensures var w := TryStartRequest(u);
      && |w.streams| == |u.streams| && w.succeeded == u.succeeded
      && w.streams[i].inflight == u.streams[i].inflight + (if WritesOn(u, e, i) then [u.calls] else [])
  {
  }

  lemma SendOn(v: Client, events: seq<Event>, u: Client, i: nat)
    requires events != [] && u == Run(v, events[..|events| - 1]) && i < |u.streams|
    requires events[|events| - 1].Send? && Enabled(u, events[|events| - 1])
    requires EndsWith(CallsOn(v, events[..|events| - 1], i), u.streams[i].inflight)
    ensures EndsWith(CallsOn(v, events, i), TryStartRequest(u).streams[i].inflight)
  {
    var before, e := events[..|events| - 1], events[|events| - 1];
    hide CallsOn, Run, TryStartRequest, WritesOn, EndsWith, Enabled;
    LastCalls(v, events, i);
    Written(u, e, i);
    if WritesOn(u, e, i) {
      EndsWithMore(CallsOn(v, before, i), u.streams[i].inflight, u.calls);
    } else {
      assert TryStartRequest(u).streams[i].inflight == u.streams[i].inflight;
      assert CallsOn(v, events, i) == CallsOn(v, before, i);
    }
  }

  lemma SendStory(v: Client, events: seq<Event>, u: Client)
    requires events != [] && u == Run(v, events[..|events| - 1]) && StoryIs(v, events[..|events| - 1], u)
    requires events[|events| - 1].Send? && Enabled(u, events[|events| - 1])
    ensures StoryIs(v, events, TryStartRequest(u))
  {
    var w := TryStartRequest(u);
    ToldSame(v, events);
    Written(u, events[|events| - 1], u.next);
    hide AllTold, CallsOn, Run, TryStartRequest, WritesOn, EndsWith;
    forall i | 0 <= i < |w.streams|
      ensures EndsWith(CallsOn(v, events, i), w.streams[i].inflight)
    {
      SendOn(v, events, u, i);
    }
  }

  lemma LastTold(v: Client, events: seq<Event>)
    requires events != []
    ensures var before, e := events[..|events| - 1], events[|events| - 1];
      AllTold(v, events) == AllTold(v, before) + ToldAt(v, before, e)
  {
  }

  /** What frames tell, when what is outstanding are the last calls written. */
  lemma ToldIs(v: Client, before: seq<Event>, u: Client, e: Event)
    requires u == Run(v, before) && e.Frames? && Enabled(u, e)
    requires EndsWith(CallsOn(v, before, e.stream), u.streams[e.stream].inflight)
    ensures ToldAt(v, before, e) == multiset(u.streams[e.stream].inflight[..Matched(u, e)])
  {
    hide Run, CallsOn;
    EndsWithFewer(CallsOn(v, before, e.stream), u.streams[e.stream].inflight, Matched(u, e));
    assert u.streams[e.stream].inflight[..0] == [];
  }

  lemma FramesStory(v: Client, events: seq<Event>, u: Client)
    requires events != [] && u == Run(v, events[..|events| - 1]) && StoryIs(v, events[..|events| - 1], u)
    requires events[|events| - 1].Frames? && Enabled(u, events[|events| - 1])
    ensures var e := events[|events| - 1]; StoryIs(v, events, OnFrames(u, e.stream, e.count, e.end))
  {
    var before, e := events[..|events| - 1], events[|events| - 1];
    var w := OnFrames(u, e.stream, e.count, e.end);
    hide AllTold, ToldAt, CallsOn, Run, OnFrames, EndsWith, Left;
    LastTold(v, events);
    ToldIs(v, before, u, e);
    FramesAre(u, e.stream, e.count, e.end, e.stream);
    forall i | 0 <= i < |w.streams|
      ensures EndsWith(CallsOn(v, events, i), w.streams[i].inflight)
    {
      CallsSame(v, events, i);
      FramesAre(u, e.stream, e.count, e.end, i);
      EndsWithLeft(CallsOn(v, before, i), u.streams[i].inflight, w.streams[i].inflight,
                   if i == e.stream then Matched(u, e) else 0);
    }
  }

  lemma NextStory(v: Client, events: seq<Event>)
    requires events != [] && StoryIs(v, events[..|events| - 1], Run(v, events[..|events| - 1]))
    ensures StoryIs(v, events, Run(v, events))
  {
    var u, e := Run(v, events[..|events| - 1]), events[|events| - 1];
    assert Run(v, events) == Next(u, e);
    hide StoryIs, Run, AllIdle;
    if !Enabled(u, e) {
      SameIdle(u, u);
      IdleStory(v, events, u, u);
    } else if e.Send? {
      SendStory(v, events, u);
    } else if e.Frames? {
      FramesStory(v, events, u);
    } else {
      StepIdle(u, e);
      hide Step;
      IdleStory(v, events, u, Step(u, e));
    }
  }

  /** After every run: on each stream what is outstanding are the last calls written on it, in order, and the calls
      told of their echo are those that frames brought, each time from the oldest outstanding on. */
  lemma {:induction false} EchoesOldestFirst(streams: nat, maxInflight: nat, events: seq<Event>)
    ensures StoryIs(New(streams, maxInflight), events, Run(New(streams, maxInflight), events))
  {
    if events != [] {
      EchoesOldestFirst(streams, maxInflight, events[..|events| - 1]);
      hide StoryIs, Run, New;
      NextStory(New(streams, maxInflight), events);
    }
  }

  // ----- Frames and ends -----

  lemma CloseCounts(v: Client, i: nat, status: Option<nat>)
    requires i < |v.streams|
    ensures var st := v.streams[i];
      Close(v, i, status).n ==
      if st.state.Closed? then v.n
      else v.n.(statuses := v.n.statuses + multiset{status}, inflightLost := v.n.inflightLost + |st.inflight|)
  {
    hide Sum;
  }

  lemma EndCounts(v: Client, i: nat, status: Option<nat>)
    requires i < |v.streams|
    ensures var n, q, st := v.n, OnEnd(v, i, status).n, v.streams[i];
      && q.earlyClose == n.earlyClose + (if st.state.Open? then 1 else 0)
      && q.statuses == n.statuses + (if st.state.Closed? then multiset{} else multiset{status})
      && q.inflightLost == n.inflightLost + (if st.state.Closed? then 0 else |st.inflight|)
      && q.received == n.received && q.unexpected == n.unexpected
  {
    CloseCounts(v, i, status);
    CloseCounts(v.(n := v.n.(earlyClose := v.n.earlyClose + 1)), i, status);
    hide Close;
  }

  lemma ResetCounts(v: Client, i: nat)
    requires i < |v.streams|
    ensures var n, q, st := v.n, OnReset(v, i).n, v.streams[i].state;
      && q.resets == n.resets + (if st.Closed? then 0 else 1)
      && q.statuses == n.statuses + (if st.Closed? then multiset{} else multiset{None})
      && q.openFailures == n.openFailures + (if st.Opening? then 1 else 0)
  {
    CloseCounts(ResetCounted(v, i), i, None);
    hide Close;
  }

  lemma ResetOpened(v: Client, i: nat)
    requires i < |v.streams|
    ensures OnReset(v, i).n.streamsOpened == v.n.streamsOpened
  {
    CloseCounts(ResetCounted(v, i), i, None);
    hide Close;
  }

  /** Frames are received or unexpected, and an end that comes while the stream is open is early; a stream that
      closes has its status counted, once. */
  lemma EndsIff(v: Client, i: nat, count: nat, end: bool, status: Option<nat>)
    requires i < |v.streams|
    ensures var m := Min(count, |v.streams[i].inflight|);
      var n, q, st := v.n, OnFrames(v, i, count, end).n, v.streams[i].state;
      && q.received == n.received + m && q.unexpected == n.unexpected + count - m
      && q.earlyClose == n.earlyClose + (if end && st.Open? then 1 else 0)
      && q.statuses == n.statuses + (if end && !st.Closed? then multiset{None} else multiset{})
      && q.inflightLost == n.inflightLost + (if end && !st.Closed? then |v.streams[i].inflight| - m else 0)
    ensures var n, q, st := v.n, OnEnd(v, i, status).n, v.streams[i].state;
      && q.earlyClose == n.earlyClose + (if st.Open? then 1 else 0)
      && q.statuses == n.statuses + (if st.Closed? then multiset{} else multiset{status})
    ensures var n, q, st := v.n, OnReset(v, i).n, v.streams[i].state;
      && q.resets == n.resets + (if st.Closed? then 0 else 1)
      && q.statuses == n.statuses + (if st.Closed? then multiset{} else multiset{None})
      && q.openFailures == n.openFailures + (if st.Opening? then 1 else 0)
  {
    EndCounts(v, i, status);
    EndCounts(Echoed(v, i, count), i, None);
    ResetCounts(v, i);
    hide OnEnd, OnReset;
  }

  lemma SettledIs(v: Client, i: nat)
    requires i < |v.streams|
    ensures OnOpenFailure(v, i) == Settled(v, i, false)
  {
  }

  lemma SettledCounts(v: Client, i: nat, encoded: bool)
    requires i < |v.streams|
    ensures var n, q := v.n, Settled(v, i, encoded).n;
      && q.streamsOpened == n.streamsOpened + (if encoded then 1 else 0)
      && q.openFailures == n.openFailures + (if encoded then 0 else 1) && q.resets == n.resets
  {
    hide Sum;
  }

  lemma ReadyCounts(v: Client, i: nat, encoded: bool, reset: bool)
    requires i < |v.streams|
    ensures var n, q, st := v.n, OnReady(v, i, encoded, reset).n, v.streams[i].state;
      && q.streamsOpened == n.streamsOpened + (if encoded then 1 else 0)
      && q.openFailures == n.openFailures + (if encoded then 0 else 1) + (if reset && st.Opening? then 1 else 0)
      && q.resets == n.resets + (if reset && !st.Closed? then 1 else 0)
  {
    hide OnReset, Settled;
    var q := v.(streams := v.streams[i := v.streams[i].(encoder := true)]);
    var u := q.(innerResets := q.innerResets + 1);
    ResetCounts(u, i);
    ResetOpened(u, i);
    SettledCounts(q, i, encoded);
    SettledCounts(OnReset(u, i), i, encoded);
  }

  /** A stream counts as opened exactly if its headers were encoded. Each other answer of the pool is an open failure,
      and so is a reset that comes first. */
  lemma OpensIff(v: Client, i: nat, outcome: Outcome)
    requires i < |v.streams|
    ensures var n, q, st := v.n, OpenStream(v, i, outcome).n, v.streams[i].state;
      var encoded := outcome.Ready? && outcome.encoded;
      var inside := outcome.Ready? && outcome.reset;
      && q.streamsOpened == n.streamsOpened + (if encoded then 1 else 0)
      && q.openFailures == n.openFailures + (if encoded || outcome.Pending? then 0 else 1)
                           + (if inside && st.Opening? then 1 else 0)
      && q.resets == n.resets + (if inside && !st.Closed? then 1 else 0)
  {
    var a := Asked(v, i);
    assert |a.streams| == |v.streams| && a.streams[i].state == v.streams[i].state && a.n == v.n;
    assert Refused(v, i).n == v.n.(openFailures := v.n.openFailures + 1);
    hide Asked, Refused, OnReady, Settled;
    SettledCounts(a, i, false);
    assert OnOpenFailure(a, i) == Settled(a, i, false) by { SettledIs(a, i); }
    hide OnOpenFailure;
    if outcome.Ready? {
      ReadyCounts(a, i, outcome.encoded, outcome.reset);
    }
  }
}
