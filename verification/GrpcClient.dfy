/** The gRPC stream client as the engine writes it, an object its streams call back. Every method is
    proved to do what the state machine of GrpcStream says of its event. */
module GrpcClient {
  import opened Tally
  import opened GrpcStream
  import opened GrpcRuns

  lemma TakeNext(xs: seq<nat>, m: nat)
    requires m < |xs|
    ensures multiset(xs[..m + 1]) == multiset(xs[..m]) + multiset{xs[m]}
  {
    assert xs[..m + 1] == xs[..m] + [xs[m]];
  }

  class GrpcStreamBenchmarkClient {
    const maxInflight: nat
    var streams: seq<Stream>
    var n: Counters
    var next: nat
    var pendingOpens: int
    var waiting: Waiting
    var exitAsked: bool
    var prepared: bool
    var finished: bool
    var calls: nat
    var succeeded: multiset<nat>
    var failed: multiset<nat>
    ghost var innerResets: nat

    ghost function View(): Client
      reads this
    {
      Client(maxInflight, streams, n, next, pendingOpens, waiting, exitAsked, prepared, finished,
             calls, succeeded, failed, innerResets)
    }

    constructor (count: nat, maxInflight: nat)
      ensures View() == New(count, maxInflight)
    {
      this.maxInflight := maxInflight;
      streams := seq(count, i => Stream(Opening, false, false, [], false, 0));
      n, next, pendingOpens, waiting, exitAsked := ZERO, 0, 0, Nothing, false;
      prepared, finished, calls, succeeded, failed := false, false, 0, multiset{}, multiset{};
      innerResets := 0;
    }

    method OpenStreams() returns (open: nat)
      ensures open == Sum(streams, IsOpen)
    {
      open := 0;
      for i := 0 to |streams|
        invariant open == Sum(streams[..i], IsOpen)
      {
        if streams[i].state == Open || streams[i].state == HalfClosed {
          open := open + 1;
        }
        assert streams[..i + 1][..i] == streams[..i];
      }
      assert streams[..|streams|] == streams;
    }

    method MaybeExitWaitLoop()
      modifies `exitAsked
      ensures View() == MaybeExit(old(View()))
    {
      match waiting {
        case Opens =>
          if pendingOpens == 0 {
            exitAsked := true;
          }
        case Closes =>
          var open := OpenStreams();
          if open == 0 {
            exitAsked := true;
          }
        case Nothing =>
      }
    }

    /** Every message the stream still owes is lost, oldest first. */
    method CompleteInflight(st: Stream) returns (after: Stream)
      modifies `n, `failed
      ensures after == st.(inflight := [])
      ensures n == old(n).(inflightLost := old(n).inflightLost + |st.inflight|)
      ensures failed == old(failed) + multiset(st.inflight)
    {
      var queue := st.inflight;
      while queue != []
        invariant |queue| <= |st.inflight|
        invariant n == old(n).(inflightLost := old(n).inflightLost + |st.inflight| - |queue|)
        invariant failed + multiset(queue) == old(failed) + multiset(st.inflight)
        decreases |queue|
      {
        assert queue == [queue[0]] + queue[1..];
        var call := queue[0];
        queue := queue[1..];
        n := n.(inflightLost := n.inflightLost + 1);
        failed := failed + multiset{call};
      }
      after := st.(inflight := queue);
    }

    method CloseStream(i: nat, status: Option<nat>)
      requires i < |streams|
      modifies `streams, `n, `failed, `exitAsked
      ensures View() == Close(old(View()), i, status)
    {
      if streams[i].state == Closed {
        return;
      }
      ghost var v := View();
      var st := streams[i].(state := Closed, encoder := false);
      n := n.(statuses := n.statuses + multiset{status});
      st := CompleteInflight(st);
      streams := streams[i := st];
      assert View() == Shut(v, i, status);
      hide Shut, MaybeExit;
      MaybeExitWaitLoop();
    }

    method OnStreamReset(i: nat)
      requires i < |streams|
      modifies `streams, `n, `failed, `exitAsked, `pendingOpens
      ensures View() == OnReset(old(View()), i)
    {
      if streams[i].state == Closed {
        return;
      }
      ghost var v := View();
      n := n.(resets := n.resets + 1);
      if streams[i].state == Opening {
        n := n.(openFailures := n.openFailures + 1);
        pendingOpens := pendingOpens - 1;
      }
      assert View() == ResetCounted(v, i);
      hide Close, ResetCounted;
      CloseStream(i, None);
    }

    method Settle(i: nat, encoded: bool)
      requires i < |streams|
      modifies `streams, `n, `exitAsked, `pendingOpens
      ensures View() == Settled(old(View()), i, encoded)
    {
      ghost var v := View();
      if !encoded {
        streams := streams[i := streams[i].(state := Closed)];
        n := n.(openFailures := n.openFailures + 1);
      } else {
        streams := streams[i := streams[i].(state := Open)];
        n := n.(streamsOpened := n.streamsOpened + 1);
      }
      pendingOpens := pendingOpens - 1;
      assert View() == OpenEnded(v, i, encoded);
      hide MaybeExit, OpenEnded;
      MaybeExitWaitLoop();
    }

    /** `reset`: a reset comes while the headers are being encoded. */
    method OnStreamReady(i: nat, encoded: bool, reset: bool)
      requires i < |streams|
      modifies `streams, `n, `failed, `exitAsked, `pendingOpens, `innerResets
      ensures View() == OnReady(old(View()), i, encoded, reset)
    {
      hide Settled, OnReset;
      streams := streams[i := streams[i].(encoder := true)];
      if reset {
        innerResets := innerResets + 1;
        OnStreamReset(i);
      }
      Settle(i, encoded);
    }

    method OnStreamOpenFailure(i: nat)
      requires i < |streams|
      modifies `streams, `n, `exitAsked, `pendingOpens
      ensures View() == OnOpenFailure(old(View()), i)
    {
      ghost var v := View();
      streams := streams[i := streams[i].(state := Closed)];
      n := n.(openFailures := n.openFailures + 1);
      pendingOpens := pendingOpens - 1;
      assert View() == OpenEnded(v, i, false);
      hide MaybeExit, OpenEnded;
      MaybeExitWaitLoop();
    }

    method OpenOne(i: nat, outcome: Outcome)
      requires i < |streams|
      modifies `streams, `n, `failed, `exitAsked, `pendingOpens, `innerResets
      ensures View() == OpenStream(old(View()), i, outcome)
    {
      if outcome.NoPool? {
        streams := streams[i := streams[i].(state := Closed)];
        n := n.(openFailures := n.openFailures + 1);
        return;
      }
      ghost var v := View();
      pendingOpens := pendingOpens + 1;
      streams := streams[i := streams[i].(asked := true)];
      assert View() == Asked(v, i);
      hide Asked, OnOpenFailure, OnReady;
      match outcome
      case Fails => OnStreamOpenFailure(i);
      case Ready(encoded, reset) => OnStreamReady(i, encoded, reset);
      case _ =>
    }

    method Prepare(outcomes: seq<Outcome>)
      requires |outcomes| == |streams|
      modifies `streams, `n, `failed, `exitAsked, `pendingOpens, `innerResets, `prepared, `waiting
      ensures View() == OnPrepare(old(View()), outcomes)
    {
      prepared := true;
      ghost var v := View();
      hide OpenStream;
      for i := 0 to |outcomes|
        invariant View() == OpenAll(v, outcomes[..i])
      {
        assert outcomes[..i + 1][..i] == outcomes[..i];
        OpenOne(i, outcomes[i]);
      }
      assert outcomes[..|outcomes|] == outcomes;
      if pendingOpens != 0 {
        waiting := Opens;
      }
    }

    /** The stream whose turn it is has had it. */
    method TakeTurn(st: Stream, counters: Counters)
      requires next < |streams|
      modifies `streams, `n, `next, `calls
      ensures View() == Turn(old(View()), st, counters)
    {
      streams := streams[next := st.(turns := st.turns + 1)];
      next := (next + 1) % |streams|;
      n := counters;
      calls := calls + 1;
    }

    method TryStartRequest() returns (started: bool)
      requires next < |streams|
      modifies `streams, `n, `failed, `next, `calls
      ensures started && View() == GrpcStream.TryStartRequest(old(View()))
    {
      hide Turn;
      started := true;
      var st := streams[next];
      if st.state == Open && !st.writeBlocked && |st.inflight| < maxInflight {
        TakeTurn(st.(inflight := st.inflight + [calls]), n.(sent := n.sent + 1));
      } else {
        var call := calls;
        TakeTurn(st, if st.state == Open then n.(deferred := n.deferred + 1) else n.(unavailable := n.unavailable + 1));
        failed := failed + multiset{call};
      }
    }

    /** The echoes in one piece of response data, one at a time. */
    method MatchEchoes(st: Stream, count: nat) returns (after: Stream)
      modifies `n, `succeeded
      ensures var m := Min(count, |st.inflight|);
        && after == st.(inflight := st.inflight[m..])
        && n == old(n).(received := old(n).received + m, unexpected := old(n).unexpected + count - m)
        && succeeded == old(succeeded) + multiset(st.inflight[..m])
    {
      var queue := st.inflight;
      ghost var m := 0;
      for k := 0 to count
        invariant m == Min(k, |st.inflight|) && queue == st.inflight[m..]
        invariant n == old(n).(received := old(n).received + m, unexpected := old(n).unexpected + k - m)
        invariant succeeded == old(succeeded) + multiset(st.inflight[..m])
      {
        if queue == [] {
          n := n.(unexpected := n.unexpected + 1);
        } else {
          TakeNext(st.inflight, m);
          succeeded := succeeded + multiset{queue[0]};
          queue := queue[1..];
          n := n.(received := n.received + 1);
          m := m + 1;
        }
      }
      after := st.(inflight := queue);
    }

    method TakeEchoes(i: nat, count: nat)
      requires i < |streams|
      modifies `streams, `n, `succeeded
      ensures View() == Echoed(old(View()), i, count)
    {
      var st := MatchEchoes(streams[i], count);
      streams := streams[i := st];
    }

    /** The response ends: in its headers, its data or its trailers. */
    method EndResponse(i: nat, status: Option<nat>)
      requires i < |streams|
      modifies `streams, `n, `failed, `exitAsked
      ensures View() == OnEnd(old(View()), i, status)
    {
      hide Close;
      if streams[i].state == Open {
        n := n.(earlyClose := n.earlyClose + 1);
      }
      CloseStream(i, status);
    }

    method OnResponseData(i: nat, count: nat, end: bool)
      requires i < |streams|
      modifies `streams, `n, `succeeded, `failed, `exitAsked
      ensures View() == OnFrames(old(View()), i, count, end)
    {
      hide Echoed, OnEnd;
      TakeEchoes(i, count);
      if end {
        EndResponse(i, None);
      }
    }

    method OnWriteBlocked(i: nat, blocked: bool)
      requires i < |streams|
      modifies `streams, `n
      ensures View() == OnWatermark(old(View()), i, blocked)
    {
      if blocked && !streams[i].writeBlocked {
        n := n.(writeBlocked := n.writeBlocked + 1);
      }
      streams := streams[i := streams[i].(writeBlocked := blocked)];
    }

    method HalfCloseAll()
      modifies `streams
      ensures streams == HalfClosedAll(old(streams))
    {
      for i := 0 to |streams|
        invariant |streams| == |old(streams)|
        invariant forall k | 0 <= k < |streams| ::
          streams[k] == if k < i then HalfClose(old(streams)[k]) else old(streams)[k]
      {
        if streams[i].state == Open && streams[i].encoder {
          streams := streams[i := streams[i].(state := HalfClosed)];
        }
      }
    }

    /** finish() up to its wait. */
    method Finish()
      modifies `streams, `finished, `waiting
      ensures View() == OnFinish(old(View()))
    {
      if finished {
        return;
      }
      hide HalfClosedAll;
      finished := true;
      HalfCloseAll();
      var open := OpenStreams();
      if open != 0 {
        waiting := Closes;
      }
    }

    method Drain(i: nat)
      requires i < |streams|
      modifies `streams, `n, `failed
      ensures View() == if IsOpen(old(streams)[i]) == 0 then old(View()) else Drained(old(View()), i)
    {
      if streams[i].state == Open || streams[i].state == HalfClosed {
        n := n.(drainIncomplete := n.drainIncomplete + 1);
        var st := CompleteInflight(streams[i]);
        streams := streams[i := st];
      }
    }

    /** finish() once its wait is over: what the streams still open owe is lost. */
    method FinishWaited()
      modifies `streams, `n, `failed, `waiting, `exitAsked
      ensures View() == OnFinishReturns(old(View()))
    {
      waiting, exitAsked := Nothing, false;
      ghost var v := View();
      hide Drained, GrpcStreamBenchmarkClient.View;
      for i := 0 to |streams|
        invariant View() == LoseOpen(v, i) && View().streams == streams && |streams| == |v.streams|
      {
        Drain(i);
        ViewStreams();
      }
    }

    lemma ViewStreams()
      ensures View().streams == streams
    {
    }

    method CutOff(i: nat)
      requires i < |streams|
      modifies `streams, `n, `failed
      ensures View() == Cut(old(View()), i)
    {
      var st := CompleteInflight(streams[i].(state := Closed, encoder := false));
      streams := streams[i := st];
    }

    method TerminateOne(i: nat)
      requires i < |streams|
      modifies `streams, `n, `failed, `pendingOpens
      ensures View() == Terminated(old(View()), i)
    {
      hide Cut;
      var st := streams[i];
      if st.state == Opening && st.asked {
        streams := streams[i := st.(state := Closed)];
        pendingOpens := pendingOpens - 1;
      } else if st.state == Open || st.state == HalfClosed {
        CutOff(i);
      }
    }

    method Terminate()
      modifies `streams, `n, `failed, `pendingOpens
      ensures View() == TerminateEach(old(View()), |old(streams)|)
    {
      ghost var v := View();
      hide Terminated, GrpcStreamBenchmarkClient.View;
      ViewStreams();
      for i := 0 to |streams|
        invariant View() == TerminateEach(v, i) && View().streams == streams && |streams| == |v.streams|
      {
        TerminateOne(i);
        ViewStreams();
      }
    }

    /** Whatever happens next, the object does what the state machine does and keeps its invariant. */
    method OnEvent(e: Event)
      requires Inv(View()) && Enabled(View(), e)
      modifies this
      ensures View() == Step(old(View()), e) && Inv(View())
    {
      StepKeeps(View(), e);
      hide Inv;
      if e.Prepare? || e.OpenResult? || e.Terminate? || e.Finish? || e.FinishReturns? {
        OnPhase(e);
      } else {
        OnTraffic(e);
      }
    }

    method OnPhase(e: Event)
      requires Enabled(View(), e)
      requires e.Prepare? || e.OpenResult? || e.Terminate? || e.Finish? || e.FinishReturns?
      modifies this
      ensures View() == Step(old(View()), e)
    {
      hide OnPrepare, OnReady, OnOpenFailure, OnFinish, OnFinishReturns, TerminateEach;
      match e {
        case Prepare(outcomes) => Prepare(outcomes);
        case OpenResult(i, outcome) =>
          if outcome.Ready? {
            OnStreamReady(i, outcome.encoded, outcome.reset);
          } else {
            OnStreamOpenFailure(i);
          }
        case Finish => Finish();
        case FinishReturns => FinishWaited();
        case Terminate => Terminate();
      }
    }

    method OnTraffic(e: Event)
      requires Enabled(View(), e)
      requires !(e.Prepare? || e.OpenResult? || e.Terminate? || e.Finish? || e.FinishReturns?)
      modifies this
      ensures View() == Step(old(View()), e)
    {
      hide OnFrames, OnEnd, OnReset, OnWatermark, GrpcStream.TryStartRequest;
      match e {
        case Send => var _ := TryStartRequest();
        case Frames(i, count, end) => OnResponseData(i, count, end);
        case EndOfResponse(i, status) => EndResponse(i, status);
        case Reset(i) => OnStreamReset(i);
        case Watermark(i, blocked) => OnWriteBlocked(i, blocked);
        case WaitTimer => exitAsked := true;
        case PrepareReturns => waiting, exitAsked := Nothing, false;
      }
    }
  }
}
