/** The promises of the gRPC stream client, over every run. */
module GrpcRuns {
  import opened Tally
  import opened GrpcStream
  import Arith

  ghost function Owes(st: Stream): multiset<nat> { multiset(st.inflight) }
  ghost function Awaited(st: Stream): int { if st.state.Opening? && st.asked then 1 else 0 }

  // ----- The invariant -----

  /** Never more outstanding than the cap, and nothing on a stream that is not open. */
  ghost predicate StreamOk(st: Stream, maxInflight: nat) {
    && |st.inflight| <= maxInflight
    && (st.state.Opening? || st.state.Closed? ==> st.inflight == [])
  }

  ghost predicate StreamsOk(streams: seq<Stream>, maxInflight: nat) {
    forall i | 0 <= i < |streams| :: StreamOk(streams[i], maxInflight)
  }

  /** Every call's callback was told once or is owed once, and the counters say which. */
  ghost predicate Books(v: Client) {
    && v.calls == v.n.sent + v.n.deferred + v.n.unavailable
    && Gather(v.streams, Owes) + v.succeeded + v.failed == Below(v.calls)
    && |v.succeeded| == v.n.received
    && |v.failed| == v.n.deferred + v.n.unavailable + v.n.inflightLost
  }

  /** The streams go in turn. */
  ghost predicate TurnsOk(streams: seq<Stream>, next: nat, calls: nat) {
    && |streams| > 0 && next == calls % |streams|
    && forall i | 0 <= i < |streams| :: streams[i].turns == calls / |streams| + if i < next then 1 else 0
  }

  /** An open stream has its encoder, unless a reset came while its headers were being encoded. */
  ghost predicate Encoders(v: Client) {
    v.innerResets == 0 ==>
      forall i | 0 <= i < |v.streams| ::
        v.streams[i].state.Open? || v.streams[i].state.HalfClosed? ==> v.streams[i].encoder
  }

  ghost predicate Phases(v: Client) {
    && (v.prepared ==> forall i | 0 <= i < |v.streams| :: v.streams[i].state.Opening? ==> v.streams[i].asked)
    && (v.waiting.Opens? ==> v.prepared) && (v.waiting.Closes? ==> v.finished)
    && (!v.prepared ==> v.innerResets == 0 && forall i | 0 <= i < |v.streams| ::
          v.streams[i].state.Opening? && !v.streams[i].asked)
  }

  /** `over`: how many opens have ended that are still to be taken off the count. */
  ghost predicate Core(v: Client, over: int) {
    && StreamsOk(v.streams, v.maxInflight) && Books(v)
    && v.pendingOpens + v.innerResets == Sum(v.streams, Awaited) + over
    && TurnsOk(v.streams, v.next, v.calls) && Encoders(v)
  }

  /** A wait whose end has come has been told so. */
  ghost predicate Waits(v: Client) {
    && (v.waiting.Opens? && v.pendingOpens == 0 ==> v.exitAsked)
    && (v.waiting.Closes? && Sum(v.streams, IsOpen) == 0 ==> v.exitAsked)
  }

  ghost predicate Inv(v: Client) {
    Core(v, 0) && Waits(v) && Phases(v)
  }

  // ----- One stream changes -----

  /** The totals follow the one stream that changes. */
  lemma Changed(streams: seq<Stream>, i: nat, st: Stream)
    requires i < |streams|
    ensures Gather(streams[i := st], Owes) + Owes(streams[i]) == Gather(streams, Owes) + Owes(st)
    ensures Sum(streams[i := st], Awaited) == Sum(streams, Awaited) - Awaited(streams[i]) + Awaited(st)
    ensures Sum(streams[i := st], IsOpen) == Sum(streams, IsOpen) - IsOpen(streams[i]) + IsOpen(st)
  {
    GatherUpdate(streams, Owes, i, st);
    SumUpdate(streams, Awaited, i, st);
    SumUpdate(streams, IsOpen, i, st);
  }

  lemma Rebalanced(g: multiset<nat>, o: multiset<nat>, s: multiset<nat>, f: multiset<nat>,
                   g': multiset<nat>, o': multiset<nat>, s': multiset<nat>, f': multiset<nat>)
    requires g' + o == g + o' && o' + s' + f' == o + s + f
    ensures g' + s' + f' == g + s + f
  {
    forall x: nat
      ensures (g' + s' + f')[x] == (g + s + f)[x]
    {
      assert (g' + o)[x] == (g + o')[x] && (o' + s' + f')[x] == (o + s + f)[x];
    }
  }

  lemma OneMore(g: multiset<nat>, o: multiset<nat>, s: multiset<nat>, f: multiset<nat>,
                g': multiset<nat>, o': multiset<nat>, f': multiset<nat>, call: nat)
    requires g' + o == g + o' && o' + f' == o + f + multiset{call}
    ensures g' + s + f' == g + s + f + multiset{call}
  {
    forall x: nat
      ensures (g' + s + f')[x] == (g + s + f + multiset{call})[x]
    {
      assert (g' + o)[x] == (g + o')[x] && (o' + f')[x] == (o + f + multiset{call})[x];
    }
  }

  lemma SameTurns(streams: seq<Stream>, i: nat, st: Stream, next: nat, calls: nat)
    requires TurnsOk(streams, next, calls) && i < |streams| && st.turns == streams[i].turns
    ensures TurnsOk(streams[i := st], next, calls)
  {
  }

  /** A change of one stream that is not a turn. */
  ghost predicate Fits(v: Client, q: Client, i: nat, st: Stream, over: int, over': int) {
    && i < |v.streams| && q.streams == v.streams[i := st]
    && q.maxInflight == v.maxInflight && q.next == v.next && q.calls == v.calls
    && st.turns == v.streams[i].turns && StreamOk(st, v.maxInflight)
    && Owes(st) + q.succeeded + q.failed == Owes(v.streams[i]) + v.succeeded + v.failed
    && q.n.sent == v.n.sent && q.n.deferred == v.n.deferred && q.n.unavailable == v.n.unavailable
    && |q.succeeded| - q.n.received == |v.succeeded| - v.n.received
    && |q.failed| - q.n.inflightLost == |v.failed| - v.n.inflightLost
    && q.pendingOpens + q.innerResets - over'
       == v.pendingOpens + v.innerResets - over - Awaited(v.streams[i]) + Awaited(st)
    && q.innerResets >= v.innerResets
    && (q.innerResets == 0 ==> (st.state.Open? || st.state.HalfClosed? ==> st.encoder))
  }

  lemma OneStream(v: Client, q: Client, i: nat, st: Stream, over: int, over': int)
    requires Core(v, over) && Fits(v, q, i, st, over, over')
    ensures Core(q, over')
  {
    Changed(v.streams, i, st);
    SameTurns(v.streams, i, st, v.next, v.calls);
    Rebalanced(Gather(v.streams, Owes), Owes(v.streams[i]), v.succeeded, v.failed,
               Gather(q.streams, Owes), Owes(st), q.succeeded, q.failed);
    hide Sum, Gather, Below, Owes, StreamOk, TurnsOk, Awaited;
  }

  lemma CoreAt(v: Client, i: nat, over: int)
    requires Core(v, over) && i < |v.streams|
    ensures StreamOk(v.streams[i], v.maxInflight)
    ensures v.innerResets == 0 ==> (v.streams[i].state.Open? || v.streams[i].state.HalfClosed? ==> v.streams[i].encoder)
  {
  }

  lemma MaybeExitKeeps(v: Client)
    ensures forall over | Core(v, over) :: Core(MaybeExit(v), over)
    ensures MaybeExit(v).streams == v.streams && MaybeExit(v).innerResets == v.innerResets
    ensures Waits(MaybeExit(v))
    ensures Phases(v) ==> Phases(MaybeExit(v))
  {
    hide Sum, Gather;
  }

  lemma LostKeeps(v: Client, i: nat)
    requires Core(v, 0) && i < |v.streams|
    ensures Core(Lost(v, i), 0)
  {
    CoreAt(v, i, 0);
    hide Core;
    OneStream(v, Lost(v, i), i, v.streams[i].(inflight := []), 0, 0);
  }

  // ----- Opening -----

  lemma ShutKeeps(v: Client, i: nat, status: Option<nat>)
    requires Core(v, 0) && i < |v.streams| && Awaited(v.streams[i]) == 0
    ensures Core(Shut(v, i, status), 0)
  {
    CoreAt(v, i, 0);
    hide Core;
    OneStream(v, Shut(v, i, status), i, v.streams[i].(state := Closed, encoder := false, inflight := []), 0, 0);
  }

  lemma ClosedKeeps(v: Client, i: nat, status: Option<nat>)
    requires Core(v, 0) && i < |v.streams| && Awaited(v.streams[i]) == 0
    ensures Core(Close(v, i, status), 0) && (Waits(v) ==> Waits(Close(v, i, status)))
  {
    hide Core, Waits, MaybeExit, Shut;
    if !v.streams[i].state.Closed? {
      ShutKeeps(v, i, status);
      MaybeExitKeeps(Shut(v, i, status));
    }
  }

  lemma ResetKeeps(v: Client, i: nat)
    requires Core(v, 0) && i < |v.streams| && !v.streams[i].state.Opening?
    ensures Core(OnReset(v, i), 0) && (Waits(v) ==> Waits(OnReset(v, i)))
  {
    if !v.streams[i].state.Closed? {
      hide Core, Waits, Close;
      var q := v.(n := v.n.(resets := v.n.resets + 1));
      assert OnReset(v, i) == Close(q, i, None);
      hide OnReset;
      CountedKeeps(v, q.n);
      ClosedKeeps(q, i, None);
    }
  }

  /** The counters no total depends on. */
  lemma CountedKeeps(v: Client, n: Counters)
    requires Core(v, 0)
             && n == v.n.(resets := n.resets, earlyClose := n.earlyClose, drainIncomplete := n.drainIncomplete)
    ensures Core(v.(n := n), 0) && (Waits(v) ==> Waits(v.(n := n))) && (Phases(v) ==> Phases(v.(n := n)))
  {
    hide StreamsOk, TurnsOk, Sum, Gather, Below;
  }

  ghost function ResetWhileOpening(v: Client): Client {
    v.(innerResets := v.innerResets + 1, pendingOpens := v.pendingOpens - 1,
       n := v.n.(resets := v.n.resets + 1, openFailures := v.n.openFailures + 1))
  }

  lemma InnerResetIs(v: Client, i: nat)
    requires i < |v.streams| && v.streams[i].state.Opening?
    ensures InnerReset(v, i) == MaybeExit(Shut(ResetWhileOpening(v), i, None))
  {
    hide MaybeExit, Shut;
  }

  /** It closes the stream, which is then taken for open: the open is counted as over twice. */
  lemma InnerResetKeeps(v: Client, i: nat)
    requires Core(v, 0) && i < |v.streams| && v.streams[i].state.Opening? && v.streams[i].asked
    ensures var q := InnerReset(v, i);
      && Core(q, 1) && q.innerResets > 0 && q.streams == v.streams[i := q.streams[i]] && q.streams[i].state.Closed?
  {
    var q := ResetWhileOpening(v);
    InnerResetIs(v, i);
    CoreAt(v, i, 0);
    hide InnerReset, Core, MaybeExit;
    OneStream(v, Shut(q, i, None), i, v.streams[i].(state := Closed, encoder := false, inflight := []), 0, 1);
    MaybeExitKeeps(Shut(q, i, None));
  }

  lemma SettledKeeps(v: Client, i: nat, encoded: bool, over: int)
    requires Core(v, over) && i < |v.streams| && over == 1 - Awaited(v.streams[i])
    requires v.streams[i].state.Opening? || v.streams[i].state.Closed?
    requires v.streams[i].encoder || v.innerResets > 0
    ensures var q := Settled(v, i, encoded);
      && Core(q, 0) && Waits(q) && q.streams == v.streams[i := q.streams[i]] && !q.streams[i].state.Opening?
  {
    CoreAt(v, i, over);
    hide Core, Sum;
    OneStream(v, Settled(v, i, encoded), i, v.streams[i].(state := if encoded then Open else Closed), over, 0);
  }

  lemma ReadyKeeps(v: Client, i: nat, encoded: bool, reset: bool)
    requires Core(v, 0) && i < |v.streams| && v.streams[i].state.Opening? && v.streams[i].asked
    ensures var q := OnReady(v, i, encoded, reset);
      && Core(q, 0) && Waits(q) && q.streams == v.streams[i := q.streams[i]] && !q.streams[i].state.Opening?
  {
    var st := v.streams[i].(encoder := true);
    var q := v.(streams := v.streams[i := st]);
    hide Core, Waits, InnerReset, Settled, Sum;
    var q1 := if reset then InnerReset(q, i) else q;
    assert OnReady(v, i, encoded, reset) == Settled(q1, i, encoded);
    hide OnReady;
    EncoderKeeps(v, i);
    if reset {
      InnerResetKeeps(q, i);
      Rewritten(v.streams, i, st, q1.streams[i]);
    }
    SettledKeeps(q1, i, encoded, if reset then 1 else 0);
    Rewritten(v.streams, i, q1.streams[i], Settled(q1, i, encoded).streams[i]);
  }

  lemma EncoderKeeps(v: Client, i: nat)
    requires Core(v, 0) && i < |v.streams|
    ensures Core(v.(streams := v.streams[i := v.streams[i].(encoder := true)]), 0)
  {
    CoreAt(v, i, 0);
    hide Core;
    OneStream(v, v.(streams := v.streams[i := v.streams[i].(encoder := true)]),
              i, v.streams[i].(encoder := true), 0, 0);
  }

  lemma FailureKeeps(v: Client, i: nat)
    requires Core(v, 0) && i < |v.streams| && v.streams[i].state.Opening? && v.streams[i].asked
    ensures var q := OnOpenFailure(v, i);
      && Core(q, 0) && Waits(q) && q.streams == v.streams[i := q.streams[i]] && !q.streams[i].state.Opening?
  {
    CoreAt(v, i, 0);
    hide Core, Sum;
    OneStream(v, OnOpenFailure(v, i), i, v.streams[i].(state := Closed), 0, 0);
  }

  lemma AskedKeeps(v: Client, i: nat)
    requires Core(v, 0) && i < |v.streams| && v.streams[i].state.Opening? && !v.streams[i].asked
    ensures var q := Asked(v, i);
      && Core(q, 0) && q.streams == v.streams[i := q.streams[i]] && q.streams[i].state.Opening? && q.streams[i].asked
  {
    CoreAt(v, i, 0);
    hide Core;
    OneStream(v, Asked(v, i), i, v.streams[i].(asked := true), 0, 0);
  }

  lemma RefusedKeeps(v: Client, i: nat)
    requires Core(v, 0) && i < |v.streams| && v.streams[i].state.Opening? && !v.streams[i].asked
    ensures var q := Refused(v, i);
      Core(q, 0) && q.streams == v.streams[i := q.streams[i]] && !q.streams[i].state.Opening?
  {
    CoreAt(v, i, 0);
    hide Core;
    OneStream(v, Refused(v, i), i, v.streams[i].(state := Closed), 0, 0);
  }

  lemma OpenStreamKeeps(v: Client, i: nat, outcome: Outcome)
    requires Core(v, 0) && i < |v.streams| && v.streams[i].state.Opening? && !v.streams[i].asked
    ensures var q := OpenStream(v, i, outcome);
      && Core(q, 0) && q.streams == v.streams[i := q.streams[i]] && (q.streams[i].state.Opening? ==> q.streams[i].asked)
  {
    hide Core, OnReady, OnOpenFailure, Waits, Asked, Refused;
    RefusedKeeps(v, i);
    AskedKeeps(v, i);
    var q := Asked(v, i);
    match outcome
    case Fails => FailureKeeps(q, i);
      Rewritten(v.streams, i, q.streams[i], OnOpenFailure(q, i).streams[i]);
    case Ready(encoded, reset) => ReadyKeeps(q, i, encoded, reset);
      Rewritten(v.streams, i, q.streams[i], OnReady(q, i, encoded, reset).streams[i]);
    case _ =>
  }

  lemma {:induction false} OpenAllKeeps(v: Client, outcomes: seq<Outcome>)
    requires Core(v, 0) && |outcomes| <= |v.streams|
    requires forall i | 0 <= i < |v.streams| :: v.streams[i].state.Opening? && !v.streams[i].asked
    ensures var q := OpenAll(v, outcomes);
      && Core(q, 0) && |q.streams| == |v.streams|
      && (forall i | 0 <= i < |outcomes| :: q.streams[i].state.Opening? ==> q.streams[i].asked)
      && (forall i | |outcomes| <= i < |v.streams| :: q.streams[i] == v.streams[i])
  {
    hide Core, OpenStream;
    if outcomes != [] {
      var k := |outcomes| - 1;
      OpenAllKeeps(v, outcomes[..k]);
      OpenStreamKeeps(OpenAll(v, outcomes[..k]), k, outcomes[k]);
    }
  }

  lemma PreparedKeeps(v: Client)
    requires Core(v, 0)
    ensures Core(v.(prepared := true), 0)
  {
    hide StreamsOk, TurnsOk, Sum, Gather, Below;
  }

  lemma PrepareKeeps(v: Client, outcomes: seq<Outcome>)
    requires Inv(v) && Enabled(v, Prepare(outcomes))
    ensures Inv(OnPrepare(v, outcomes))
  {
    var p := v.(prepared := true);
    PreparedKeeps(v);
    hide Core, OpenAll, Sum;
    OpenAllKeeps(p, outcomes);
    WaitingKeeps(OpenAll(p, outcomes), Opens);
  }

  // ----- Sending and receiving -----

  lemma TurnTaken(streams: seq<Stream>, next: nat, calls: nat, st: Stream)
    requires TurnsOk(streams, next, calls) && st.turns == streams[next].turns + 1
    ensures TurnsOk(streams[next := st], (next + 1) % |streams|, calls + 1)
  {
    Arith.NextInCycle(calls, |streams|);
    var n := |streams|;
    assert (next + 1) % n == (calls + 1) % n;
    if next + 1 == n {
      Arith.DivModUnique(n, n, 1, 0);
    } else {
      Arith.DivModUnique(next + 1, n, 0, next + 1);
    }
  }

  /** A turn: the message is outstanding, or the call was told at once. */
  ghost predicate TurnFits(v: Client, st: Stream, n: Counters, failed: multiset<nat>) {
    && v.next < |v.streams|
    && st == v.streams[v.next].(inflight := st.inflight) && StreamOk(st, v.maxInflight)
    && Owes(st) + failed == Owes(v.streams[v.next]) + v.failed + multiset{v.calls}
    && n == v.n.(sent := n.sent, deferred := n.deferred, unavailable := n.unavailable)
    && n.sent + n.deferred + n.unavailable == v.calls + 1
    && |failed| == n.deferred + n.unavailable + n.inflightLost
  }

  lemma TurnBooks(v: Client, st: Stream, n: Counters, failed: multiset<nat>)
    requires Books(v) && TurnFits(v, st, n, failed)
    ensures Books(Turn(v, st, n).(failed := failed))
  {
    hide Gather, Owes, StreamOk, Below, Sum, Awaited, IsOpen;
    var st1 := st.(turns := st.turns + 1);
    var streams := v.streams[v.next := st1];
    Changed(v.streams, v.next, st1);
    OwesSame(st, st1);
    OneMore(Gather(v.streams, Owes), Owes(v.streams[v.next]), v.succeeded, v.failed,
            Gather(streams, Owes), Owes(st1), failed, v.calls);
    BelowNext(v.calls);
    assert Turn(v, st, n).streams == streams;
  }

  lemma OwesSame(st: Stream, st1: Stream)
    requires st1.inflight == st.inflight
    ensures Owes(st1) == Owes(st)
  {
  }

  lemma TurnKeeps(v: Client, st: Stream, n: Counters, failed: multiset<nat>)
    requires Core(v, 0) && TurnFits(v, st, n, failed)
    ensures Core(Turn(v, st, n).(failed := failed), 0)
  {
    hide Gather, Owes, Sum, TurnsOk, Books;
    TurnBooks(v, st, n, failed);
    var st1 := st.(turns := st.turns + 1);
    Changed(v.streams, v.next, st1);
    TurnTaken(v.streams, v.next, v.calls, st1);
  }

  /** The call was not sent, and is told at once. */
  lemma DropKeeps(v: Client, n: Counters)
    requires Core(v, 0) && v.next < |v.streams|
    requires n == v.n.(deferred := v.n.deferred + 1) || n == v.n.(unavailable := v.n.unavailable + 1)
    ensures Core(Turn(v, v.streams[v.next], n).(failed := v.failed + multiset{v.calls}), 0)
  {
    CoreAt(v, v.next, 0);
    CoreBooks(v);
    hide Core, Turn;
    TurnKeeps(v, v.streams[v.next], n, v.failed + multiset{v.calls});
  }

  lemma SentKeeps(v: Client)
    requires Core(v, 0) && v.next < |v.streams| && Sends(v, v.streams[v.next])
    ensures Core(TryStartRequest(v), 0)
  {
    var st := v.streams[v.next];
    var st1 := st.(inflight := st.inflight + [v.calls]);
    var n := v.n.(sent := v.n.sent + 1);
    CoreAt(v, v.next, 0);
    CoreBooks(v);
    hide Core, Turn;
    SameFailed(v, st1, n);
    TurnKeeps(v, st1, n, v.failed);
  }

  lemma SendKeeps(v: Client)
    requires Core(v, 0) && v.next < |v.streams|
    ensures Core(TryStartRequest(v), 0)
  {
    hide Core, Turn;
    if Sends(v, v.streams[v.next]) {
      SentKeeps(v);
    } else if v.streams[v.next].state.Open? {
      DropKeeps(v, v.n.(deferred := v.n.deferred + 1));
    } else {
      DropKeeps(v, v.n.(unavailable := v.n.unavailable + 1));
    }
  }

  lemma SameFailed(v: Client, st: Stream, n: Counters)
    requires v.next < |v.streams|
    ensures Turn(v, st, n) == Turn(v, st, n).(failed := v.failed)
  {
  }

  lemma CoreBooks(v: Client)
    requires Core(v, 0)
    ensures v.calls == v.n.sent + v.n.deferred + v.n.unavailable
    ensures |v.failed| == v.n.deferred + v.n.unavailable + v.n.inflightLost
  {
  }

  lemma EchoedKeeps(v: Client, i: nat, count: nat)
    requires Core(v, 0) && i < |v.streams|
    ensures Core(Echoed(v, i, count), 0)
  {
    CoreAt(v, i, 0);
    hide Core;
    var st := v.streams[i];
    var m := Min(count, |st.inflight|);
    assert st.inflight == st.inflight[..m] + st.inflight[m..];
    OneStream(v, Echoed(v, i, count), i, st.(inflight := st.inflight[m..]), 0, 0);
  }

  lemma WatermarkKeeps(v: Client, i: nat, blocked: bool)
    requires Core(v, 0) && i < |v.streams|
    ensures Core(OnWatermark(v, i, blocked), 0)
  {
    CoreAt(v, i, 0);
    hide Core;
    OneStream(v, OnWatermark(v, i, blocked), i, v.streams[i].(writeBlocked := blocked), 0, 0);
  }

  /** A change that opens and closes nothing changes no wait and no phase. */
  lemma SameStates(v: Client, q: Client, i: nat, st: Stream)
    requires Waits(v) && Phases(v) && Kept(v, q) && i < |v.streams|
    requires q.streams == v.streams[i := st] && st.state == v.streams[i].state && st.asked == v.streams[i].asked
    requires q.pendingOpens == v.pendingOpens && q.exitAsked == v.exitAsked && q.innerResets == v.innerResets
    ensures Waits(q) && Phases(q)
  {
    SumUpdate(v.streams, IsOpen, i, st);
    hide Sum;
  }

  lemma EndKeeps(v: Client, i: nat, status: Option<nat>)
    requires Core(v, 0) && i < |v.streams| && !v.streams[i].state.Opening?
    ensures Core(OnEnd(v, i, status), 0) && (Waits(v) ==> Waits(OnEnd(v, i, status)))
  {
    var q := v.(n := v.n.(earlyClose := v.n.earlyClose + 1));
    hide Core, Waits, Close;
    if v.streams[i].state.Open? {
      assert OnEnd(v, i, status) == Close(q, i, status);
      hide OnEnd;
      CountedKeeps(v, q.n);
      ClosedKeeps(q, i, status);
    } else {
      assert OnEnd(v, i, status) == Close(v, i, status);
      hide OnEnd;
      ClosedKeeps(v, i, status);
    }
  }

  // ----- The end -----

  lemma {:induction false} SameTotals(xs: seq<Stream>, ys: seq<Stream>)
    requires |xs| == |ys| && forall i | 0 <= i < |xs| :: Owes(xs[i]) == Owes(ys[i]) && Awaited(xs[i]) == Awaited(ys[i])
    ensures Gather(xs, Owes) == Gather(ys, Owes) && Sum(xs, Awaited) == Sum(ys, Awaited)
  {
    hide Owes, Awaited;
    if xs != [] {
      SameTotals(xs[..|xs| - 1], ys[..|ys| - 1]);
    }
  }

  lemma HalfClosedTotals(streams: seq<Stream>)
    ensures Gather(HalfClosedAll(streams), Owes) == Gather(streams, Owes)
    ensures Sum(HalfClosedAll(streams), Awaited) == Sum(streams, Awaited)
  {
    SameTotals(HalfClosedAll(streams), streams);
  }

  lemma HalfClosedStreams(v: Client)
    requires Core(v, 0)
    ensures var ys := HalfClosedAll(v.streams);
      && StreamsOk(ys, v.maxInflight) && TurnsOk(ys, v.next, v.calls) && Encoders(v.(streams := ys))
  {
    hide Sum, Gather, Below;
  }

  lemma HalfClosedKeeps(v: Client)
    requires Core(v, 0)
    ensures Core(v.(finished := true, streams := HalfClosedAll(v.streams)), 0)
  {
    HalfClosedTotals(v.streams);
    HalfClosedStreams(v);
    hide Sum, Gather, Below, HalfClosedAll, StreamsOk, TurnsOk;
  }

  lemma FinishKeeps(v: Client)
    requires Inv(v) && v.waiting.Nothing?
    ensures Inv(OnFinish(v))
  {
    if !v.finished {
      hide Core, Sum, Phases, HalfClosedAll;
      var q := v.(finished := true, streams := HalfClosedAll(v.streams));
      HalfClosedKeeps(v);
      HalfClosedPhases(v);
      WaitingKeeps(q, Closes);
    }
  }

  lemma HalfClosedPhases(v: Client)
    requires Phases(v)
    ensures var q := v.(finished := true, streams := HalfClosedAll(v.streams));
      Phases(q) && (v.waiting.Nothing? ==> Phases(q.(waiting := Closes)))
  {
  }

  lemma WaitingKeeps(v: Client, waiting: Waiting)
    requires Core(v, 0)
    ensures Core(v.(waiting := waiting), 0)
    ensures Core(v.(waiting := waiting, exitAsked := false), 0)
    ensures Core(v.(exitAsked := true), 0)
  {
    hide StreamsOk, TurnsOk, Sum, Gather, Below;
  }

  lemma DrainedKeeps(v: Client, i: nat)
    requires Core(v, 0) && i < |v.streams|
    ensures var q := Drained(v, i);
      && Core(q, 0) && q.streams == v.streams[i := v.streams[i].(inflight := [])]
      && q.pendingOpens == v.pendingOpens && q.innerResets == v.innerResets
  {
    var n := v.n.(drainIncomplete := v.n.drainIncomplete + 1);
    CountedKeeps(v, n);
    hide Core;
    LostKeeps(v.(n := n), i);
  }

  /** Once the wait of finish() is over, nothing is owed on the streams it looked at. */
  lemma {:induction false} LoseOpenKeeps(v: Client, k: nat)
    requires Core(v, 0) && k <= |v.streams| && v.waiting.Nothing?
    ensures var q := LoseOpen(v, k);
      && Core(q, 0)
      && (forall i | 0 <= i < |v.streams| ::
            q.streams[i] == v.streams[i] || q.streams[i] == v.streams[i].(inflight := []))
      && (forall i | 0 <= i < k :: q.streams[i].inflight == [])
      && q.pendingOpens == v.pendingOpens && q.innerResets == v.innerResets
  {
    hide Core, Drained;
    if k > 0 {
      LoseOpenKeeps(v, k - 1);
      var q := LoseOpen(v, k - 1);
      CoreAt(q, k - 1, 0);
      if IsOpen(q.streams[k - 1]) != 0 {
        DrainedKeeps(q, k - 1);
      }
    }
  }

  lemma FinishReturnsKeeps(v: Client)
    requires Inv(v)
    ensures Inv(OnFinishReturns(v)) && |OnFinishReturns(v).streams| == |v.streams|
    ensures forall i | 0 <= i < |v.streams| :: OnFinishReturns(v).streams[i].inflight == []
  {
    WaitingKeeps(v, Nothing);
    var p := v.(waiting := Nothing, exitAsked := false);
    hide Core, LoseOpen, Sum;
    LoseOpenKeeps(p, |v.streams|);
    PhasesKept(v, LoseOpen(p, |v.streams|));
    hide Phases;
  }

  lemma PhasesKept(v: Client, q: Client)
    requires Phases(v) && |q.streams| == |v.streams| && q.prepared == v.prepared && q.finished == v.finished
    requires q.waiting == v.waiting || q.waiting.Nothing?
    requires q.innerResets == v.innerResets || v.prepared
    requires forall i | 0 <= i < |v.streams| ::
      || (q.streams[i].state == v.streams[i].state && q.streams[i].asked == v.streams[i].asked)
      || (v.prepared && !q.streams[i].state.Opening?)
    ensures Phases(q)
  {
  }

  lemma TerminatedKeeps(v: Client, i: nat)
    requires Core(v, 0) && i < |v.streams|
    ensures var q := Terminated(v, i);
      && Core(q, 0) && q.innerResets == v.innerResets
      && q.streams == v.streams[i := q.streams[i]]
      && (|| q.streams[i] == v.streams[i]
          || (q.streams[i].state.Closed? && !(v.streams[i].state.Opening? && !v.streams[i].asked)))
  {
    hide Core, Cancelled, Cut;
    var st := v.streams[i];
    if st.state.Opening? && st.asked {
      CancelledKeeps(v, i);
    } else if st.state.Open? || st.state.HalfClosed? {
      CutKeeps(v, i);
    } else {
      Rewritten(v.streams, i, st, st);
    }
  }

  lemma CancelledKeeps(v: Client, i: nat)
    requires Core(v, 0) && i < |v.streams| && v.streams[i].state.Opening? && v.streams[i].asked
    ensures var q := Cancelled(v, i);
      && Core(q, 0) && q.innerResets == v.innerResets
      && q.streams == v.streams[i := q.streams[i]] && q.streams[i].state.Closed?
  {
    CoreAt(v, i, 0);
    hide Core;
    OneStream(v, Cancelled(v, i), i, v.streams[i].(state := Closed), 0, 0);
  }

  lemma CutKeeps(v: Client, i: nat)
    requires Core(v, 0) && i < |v.streams| && !v.streams[i].state.Opening?
    ensures var q := Cut(v, i);
      && Core(q, 0) && q.innerResets == v.innerResets
      && q.streams == v.streams[i := q.streams[i]] && q.streams[i].state.Closed?
  {
    CoreAt(v, i, 0);
    hide Core;
    OneStream(v, Cut(v, i), i, v.streams[i].(state := Closed, encoder := false, inflight := []), 0, 0);
  }

  lemma {:induction false} TerminateKeeps(v: Client, k: nat)
    requires Core(v, 0) && k <= |v.streams|
    ensures var q := TerminateEach(v, k);
      && Core(q, 0) && q.innerResets == v.innerResets
      && (forall i | 0 <= i < |v.streams| ::
            || q.streams[i] == v.streams[i]
            || (q.streams[i].state.Closed? && !(v.streams[i].state.Opening? && !v.streams[i].asked)))
  {
    hide Core, Terminated;
    if k > 0 {
      TerminateKeeps(v, k - 1);
      TerminatedKeeps(TerminateEach(v, k - 1), k - 1);
    }
  }

  // ----- Every run -----

  lemma OpenResultKeeps(v: Client, i: nat, outcome: Outcome)
    requires Inv(v) && Enabled(v, OpenResult(i, outcome))
    ensures Inv(Step(v, OpenResult(i, outcome)))
  {
    hide Core, Waits, OnReady, OnOpenFailure;
    var q := Step(v, OpenResult(i, outcome));
    if outcome.Ready? {
      ReadyKeeps(v, i, outcome.encoded, outcome.reset);
    } else {
      FailureKeeps(v, i);
    }
    PhasesKept(v, q);
  }

  lemma CloseFrame(v: Client, i: nat, status: Option<nat>)
    requires i < |v.streams|
    ensures var q := Close(v, i, status);
      && q.innerResets == v.innerResets
      && (q.streams == v.streams || (q.streams == v.streams[i := q.streams[i]] && q.streams[i].state.Closed?))
  {
    hide Sum;
  }

  lemma ClosePhases(v: Client, i: nat, status: Option<nat>)
    requires Phases(v) && i < |v.streams| && !v.streams[i].state.Opening?
    ensures Phases(Close(v, i, status))
  {
    CloseFrame(v, i, status);
    hide Close;
    PhasesKept(v, Close(v, i, status));
  }

  lemma EndPhases(v: Client, i: nat, status: Option<nat>)
    requires Phases(v) && i < |v.streams| && !v.streams[i].state.Opening?
    ensures Phases(OnEnd(v, i, status))
  {
    var q := v.(n := v.n.(earlyClose := v.n.earlyClose + 1));
    assert Phases(q);
    hide Close, Phases;
    ClosePhases(q, i, status);
    ClosePhases(v, i, status);
  }

  lemma ResetPhases(v: Client, i: nat)
    requires Phases(v) && i < |v.streams| && !v.streams[i].state.Opening?
    ensures Phases(OnReset(v, i))
  {
    var q := v.(n := v.n.(resets := v.n.resets + 1));
    assert Phases(q);
    hide Close, Phases;
    ClosePhases(q, i, None);
  }

  lemma FramesKeep(v: Client, i: nat, count: nat, end: bool)
    requires Inv(v) && i < |v.streams| && !v.streams[i].state.Opening?
    ensures Inv(OnFrames(v, i, count, end))
  {
    var q := Echoed(v, i, count);
    SameStates(v, q, i, q.streams[i]);
    EchoedKeeps(v, i, count);
    assert !q.streams[i].state.Opening?;
    hide Core, Waits, Phases, Echoed, OnEnd;
    if end {
      EndKeeps(q, i, None);
      EndPhases(q, i, None);
    }
  }

  lemma StepKeeps(v: Client, e: Event)
    requires Inv(v) && Enabled(v, e)
    ensures Inv(Step(v, e))
  {
    match e
    case Prepare(outcomes) => PrepareKeeps(v, outcomes);
    case OpenResult(i, outcome) => OpenResultKeeps(v, i, outcome);
    case Frames(i, count, end) => FramesKeep(v, i, count, end);
    case EndOfResponse(i, status) =>
      hide Core, Waits, Phases, OnEnd;
      EndKeeps(v, i, status);
      EndPhases(v, i, status);
    case Reset(i) =>
      hide Core, Waits, Phases, OnReset;
      ResetKeeps(v, i);
      ResetPhases(v, i);
    case Finish => FinishKeeps(v);
    case FinishReturns => FinishReturnsKeeps(v);
    case _ => QuietKeeps(v, e);
  }

  lemma QuietKeeps(v: Client, e: Event)
    requires Inv(v) && Enabled(v, e)
    requires e.Send? || e.Watermark? || e.WaitTimer? || e.PrepareReturns? || e.Terminate?
    ensures Inv(Step(v, e))
  {
    hide Core, Waits, Phases;
    match e
    case Send => SendInv(v);
    case Watermark(i, blocked) => WatermarkInv(v, i, blocked);
    case Terminate => TerminateInv(v);
    case _ => ReturnInv(v);
  }

  lemma SendInv(v: Client)
    requires Inv(v) && v.next < |v.streams|
    ensures Inv(TryStartRequest(v))
  {
    SendKeeps(v);
    hide Core, Sum;
    var q := TryStartRequest(v);
    SameStates(v, q, v.next, q.streams[v.next]);
    hide Waits, Phases, TryStartRequest;
  }

  lemma WatermarkInv(v: Client, i: nat, blocked: bool)
    requires Inv(v) && i < |v.streams|
    ensures Inv(OnWatermark(v, i, blocked))
  {
    WatermarkKeeps(v, i, blocked);
    hide Core, Sum;
    var q := OnWatermark(v, i, blocked);
    SameStates(v, q, i, q.streams[i]);
    hide Waits, Phases, OnWatermark;
  }

  lemma TerminateInv(v: Client)
    requires Inv(v) && v.waiting.Nothing?
    ensures Inv(TerminateEach(v, |v.streams|))
  {
    hide Core, TerminateEach, Sum;
    TerminateKeeps(v, |v.streams|);
    PhasesKept(v, TerminateEach(v, |v.streams|));
    hide Phases;
  }

  lemma ReturnInv(v: Client)
    requires Inv(v)
    ensures Inv(v.(waiting := Nothing, exitAsked := false)) && Inv(v.(exitAsked := true))
  {
    WaitingKeeps(v, Nothing);
    hide Core, Sum;
  }

  lemma {:induction false} RunKeeps(v: Client, events: seq<Event>)
    requires Inv(v)
    ensures Inv(Run(v, events))
  {
    hide Inv, Step, Enabled;
    if events != [] {
      RunKeeps(v, events[..|events| - 1]);
      if Enabled(Run(v, events[..|events| - 1]), events[|events| - 1]) {
        StepKeeps(Run(v, events[..|events| - 1]), events[|events| - 1]);
      }
    }
  }

  // ----- The promises -----

  ghost function Outstanding(v: Client): multiset<nat> {
    Gather(v.streams, Owes)
  }

  /** Every call is sent, deferred or unavailable; what was sent was received, was lost or is
      outstanding; each call's callback was told exactly once or is owed exactly once. */
  ghost predicate MessagesConserved(v: Client) {
    && v.calls == v.n.sent + v.n.deferred + v.n.unavailable
    && v.n.sent == v.n.received + v.n.inflightLost + |Outstanding(v)|
    && forall call: nat ::
         v.succeeded[call] + v.failed[call] + Outstanding(v)[call] == if call < v.calls then 1 else 0
  }

  /** No stream has more outstanding than the cap, and one that is not open has nothing. */
  ghost predicate WithinCap(v: Client) {
    forall i | 0 <= i < |v.streams| ::
      && |v.streams[i].inflight| <= v.maxInflight
      && (!(v.streams[i].state.Open? || v.streams[i].state.HalfClosed?) ==> v.streams[i].inflight == [])
  }

  /** No stream had two turns more than another. */
  ghost predicate TurnsFair(v: Client) {
    forall i, j | 0 <= i < |v.streams| && 0 <= j < |v.streams| :: v.streams[i].turns <= v.streams[j].turns + 1
  }

  ghost function IsOpening(st: Stream): int { if st.state.Opening? then 1 else 0 }

  lemma NewInv(streams: nat, maxInflight: nat)
    requires streams > 0
    ensures Inv(New(streams, maxInflight))
  {
    var v := New(streams, maxInflight);
    GatherNothing(v.streams, Owes);
    SumOfFlags(v.streams, Awaited, 0);
    assert TurnsOk(v.streams, 0, 0);
  }

  lemma InvMessages(v: Client)
    requires Inv(v)
    ensures MessagesConserved(v)
  {
    hide StreamsOk, TurnsOk, Gather, Waits, Phases, Sum;
    BelowIsASet(v.calls);
    assert |Outstanding(v) + v.succeeded + v.failed| == v.calls;
    forall call: nat
      ensures v.succeeded[call] + v.failed[call] + Outstanding(v)[call] == if call < v.calls then 1 else 0
    {
      assert (Outstanding(v) + v.succeeded + v.failed)[call] == Below(v.calls)[call];
    }
  }

  lemma InvStreams(v: Client)
    requires Inv(v)
    ensures WithinCap(v) && TurnsFair(v) && v.next < |v.streams|
  {
    hide Gather, Sum, Waits, Phases;
    forall i | 0 <= i < |v.streams|
      ensures StreamOk(v.streams[i], v.maxInflight)
    {
    }
  }

  /** The stream client's promises, after every run. */
  lemma EveryRun(streams: nat, maxInflight: nat, events: seq<Event>)
    requires streams > 0
    ensures var v := Run(New(streams, maxInflight), events);
      MessagesConserved(v) && WithinCap(v) && TurnsFair(v) && Waits(v)
  {
    hide Inv;
    NewInv(streams, maxInflight);
    RunKeeps(New(streams, maxInflight), events);
    InvMessages(Run(New(streams, maxInflight), events));
    InvStreams(Run(New(streams, maxInflight), events));
    InvWaits(Run(New(streams, maxInflight), events));
  }

  lemma InvWaits(v: Client)
    requires Inv(v)
    ensures Waits(v)
  {
  }

  lemma {:induction false} AwaitedIsOpening(streams: seq<Stream>)
    requires forall i | 0 <= i < |streams| :: streams[i].state.Opening? ==> streams[i].asked
    ensures Sum(streams, Awaited) == Sum(streams, IsOpening)
  {
    if streams != [] {
      AwaitedIsOpening(streams[..|streams| - 1]);
    }
  }

  // ----- Resets inside the encoding of headers -----

  function ResetsInside(outcome: Outcome): nat {
    if outcome.Ready? && outcome.reset then 1 else 0
  }

  function AllInside(outcomes: seq<Outcome>): nat {
    if outcomes == [] then 0
    else AllInside(outcomes[..|outcomes| - 1]) + ResetsInside(outcomes[|outcomes| - 1])
  }

  /** How many streams an event makes ready with a reset raised while their headers are encoded. */
  function Inside(e: Event): nat {
    match e
    case Prepare(outcomes) => AllInside(outcomes)
    case OpenResult(_, outcome) => ResetsInside(outcome)
    case _ => 0
  }

  /** And how many those of a run do that can happen. */
  ghost function InnerResets(v: Client, events: seq<Event>): nat {
    if events == [] then 0
    else
      var k := |events| - 1;
      InnerResets(v, events[..k]) + if Enabled(Run(v, events[..k]), events[k]) then Inside(events[k]) else 0
  }

  ghost predicate NoInnerReset(v: Client, events: seq<Event>) {
    forall k | 0 <= k < |events| && Enabled(Run(v, events[..k]), events[k]) :: Inside(events[k]) == 0
  }

  lemma {:induction false} NoInnerResetIff(v: Client, events: seq<Event>)
    ensures InnerResets(v, events) == 0 <==> NoInnerReset(v, events)
  {
    if events != [] {
      NoInnerResetIff(v, events[..|events| - 1]);
      NoInnerResetLast(v, events);
      hide NoInnerReset, Enabled, Run, Inside;
    }
  }

  lemma NoInnerResetLast(v: Client, events: seq<Event>)
    requires events != []
    ensures var k := |events| - 1;
      NoInnerReset(v, events)
      <==> NoInnerReset(v, events[..k]) && (Enabled(Run(v, events[..k]), events[k]) ==> Inside(events[k]) == 0)
  {
    hide Enabled, Run, Inside;
    var k := |events| - 1;
    assert forall j | 0 <= j < k :: events[..k][..j] == events[..j] && events[..k][j] == events[j];
  }

  lemma CloseResets(v: Client, i: nat, status: Option<nat>)
    requires i < |v.streams|
    ensures Close(v, i, status).innerResets == v.innerResets
  {
    hide Sum;
  }

  lemma EndResets(v: Client, i: nat, status: Option<nat>)
    requires i < |v.streams|
    ensures OnEnd(v, i, status).innerResets == v.innerResets
  {
    hide Close;
    CloseResets(v, i, status);
    CloseResets(v.(n := v.n.(earlyClose := v.n.earlyClose + 1)), i, status);
  }

  lemma FramesResets(v: Client, i: nat, count: nat, end: bool)
    requires i < |v.streams|
    ensures OnFrames(v, i, count, end).innerResets == v.innerResets
  {
    hide OnEnd;
    EndResets(Echoed(v, i, count), i, None);
  }

  lemma ResetResets(v: Client, i: nat)
    requires i < |v.streams|
    ensures OnReset(v, i).innerResets == v.innerResets
  {
    hide Close;
    CloseResets(ResetCounted(v, i), i, None);
  }

  lemma ReadyResets(v: Client, i: nat, encoded: bool, reset: bool)
    requires i < |v.streams|
    ensures OnReady(v, i, encoded, reset).innerResets == v.innerResets + if reset then 1 else 0
  {
    hide OnReset, Sum;
    var q := v.(streams := v.streams[i := v.streams[i].(encoder := true)]);
    ResetResets(q.(innerResets := q.innerResets + 1), i);
  }

  lemma OpenResets(v: Client, i: nat, outcome: Outcome)
    requires i < |v.streams|
    ensures OpenStream(v, i, outcome).innerResets == v.innerResets + ResetsInside(outcome)
  {
    hide OnReady, Sum;
    if outcome.Ready? {
      ReadyResets(Asked(v, i), i, outcome.encoded, outcome.reset);
    }
  }

  lemma {:induction false} OpenAllResets(v: Client, outcomes: seq<Outcome>)
    requires |outcomes| <= |v.streams|
    ensures OpenAll(v, outcomes).innerResets == v.innerResets + AllInside(outcomes)
  {
    hide OpenStream;
    if outcomes != [] {
      var k := |outcomes| - 1;
      OpenAllResets(v, outcomes[..k]);
      OpenResets(OpenAll(v, outcomes[..k]), k, outcomes[k]);
    }
  }

  lemma {:induction false} LoseResets(v: Client, k: nat)
    requires k <= |v.streams|
    ensures LoseOpen(v, k).innerResets == v.innerResets
  {
    if k > 0 {
      LoseResets(v, k - 1);
    }
  }

  lemma {:induction false} TerminateResets(v: Client, k: nat)
    requires k <= |v.streams|
    ensures TerminateEach(v, k).innerResets == v.innerResets
  {
    if k > 0 {
      TerminateResets(v, k - 1);
    }
  }

  lemma StepResets(v: Client, e: Event)
    requires Enabled(v, e)
    ensures Step(v, e).innerResets == v.innerResets + Inside(e)
  {
    hide OpenAll, OnReady, OnFrames, OnEnd, OnReset, LoseOpen, TerminateEach, Sum;
    match e
    case Prepare(outcomes) => OpenAllResets(v.(prepared := true), outcomes);
    case OpenResult(i, outcome) =>
      if outcome.Ready? {
        ReadyResets(v, i, outcome.encoded, outcome.reset);
      }
    case Frames(i, count, end) => FramesResets(v, i, count, end);
    case EndOfResponse(i, status) => EndResets(v, i, status);
    case Reset(i) => ResetResets(v, i);
    case FinishReturns => LoseResets(v.(waiting := Nothing, exitAsked := false), |v.streams|);
    case Terminate => TerminateResets(v, |v.streams|);
    case _ =>
  }

  lemma {:induction false} RunResets(streams: nat, maxInflight: nat, events: seq<Event>)
    ensures var v := New(streams, maxInflight); Run(v, events).innerResets == InnerResets(v, events)
  {
    if events != [] {
      var k := |events| - 1;
      var v := Run(New(streams, maxInflight), events[..k]);
      RunResets(streams, maxInflight, events[..k]);
      hide Step, Enabled, Inside, New;
      if Enabled(v, events[k]) {
        StepResets(v, events[k]);
      }
    }
  }

  /** After prepare(), the count of pending opens is the number of streams still opening exactly when no
      stream was made ready with a reset raised while its headers were being encoded; each such reset makes
      it one too few. */
  lemma OpensExactIff(streams: nat, maxInflight: nat, events: seq<Event>)
    requires streams > 0 && Run(New(streams, maxInflight), events).prepared
    ensures var v := Run(New(streams, maxInflight), events);
      && v.pendingOpens == Sum(v.streams, IsOpening) - InnerResets(New(streams, maxInflight), events)
      && (v.pendingOpens == Sum(v.streams, IsOpening) <==> NoInnerReset(New(streams, maxInflight), events))
  {
    NewInv(streams, maxInflight);
    RunKeeps(New(streams, maxInflight), events);
    AwaitedIsOpening(Run(New(streams, maxInflight), events).streams);
    RunResets(streams, maxInflight, events);
    NoInnerResetIff(New(streams, maxInflight), events);
    hide Run, New, InnerResets, NoInnerReset, Sum;
  }

  /** One such reset, on the only stream there is. */
  lemma InnerResetMiscounts()
    ensures var v := Run(New(1, 1), [Prepare([Ready(true, true)])]);
      v.pendingOpens == -1 && v.streams[0].state.Open? && !v.streams[0].encoder
  {
    var v := New(1, 1);
    var outcomes := [Ready(true, true)];
    assert [] + [Prepare(outcomes)] == [Prepare(outcomes)];
    LastStep(v, [], Prepare(outcomes));
    assert outcomes[..0] == [];
    assert OpenAll(v.(prepared := true), outcomes) == OnReady(Asked(v.(prepared := true), 0), 0, true, true);
    hide OpenAll, Sum;
  }

  /** Until such a reset a stream that is open has its encoder, and a message can always be tried. */
  lemma SendIsEnabled(streams: nat, maxInflight: nat, events: seq<Event>)
    requires streams > 0 && NoInnerReset(New(streams, maxInflight), events)
    ensures Enabled(Run(New(streams, maxInflight), events), Send)
  {
    var v := Run(New(streams, maxInflight), events);
    RunResets(streams, maxInflight, events);
    NoInnerResetIff(New(streams, maxInflight), events);
    hide InnerResets, NoInnerReset;
    NewInv(streams, maxInflight);
    RunKeeps(New(streams, maxInflight), events);
    InvStreams(v);
    hide Run, New;
    assert Encoders(v);
  }

  /** When finish() returns, nothing is outstanding. */
  lemma FinishLeavesNothing(streams: nat, maxInflight: nat, events: seq<Event>, e: Event)
    requires streams > 0
    requires var v := Run(New(streams, maxInflight), events);
      Enabled(v, e) && (e.FinishReturns? || (e.Finish? && !v.finished && Next(v, e).waiting.Nothing?))
    ensures Outstanding(Run(New(streams, maxInflight), events + [e])) == multiset{}
  {
    var v := Run(New(streams, maxInflight), events);
    hide Inv, OnFinishReturns, Run, New;
    assert Run(New(streams, maxInflight), events + [e]) == Step(v, e)
    by { LastStep(New(streams, maxInflight), events, e); }
    NewInv(streams, maxInflight);
    RunKeeps(New(streams, maxInflight), events);
    if e.FinishReturns? {
      FinishReturnsKeeps(v);
      NothingOwed(OnFinishReturns(v));
    } else {
      FinishKeeps(v);
      NoneOpen(OnFinish(v));
    }
  }

  lemma LastStep(v: Client, events: seq<Event>, e: Event)
    requires Enabled(Run(v, events), e)
    ensures Run(v, events + [e]) == Step(Run(v, events), e)
  {
    assert (events + [e])[..|events|] == events;
  }

  lemma NothingOwed(v: Client)
    requires forall i | 0 <= i < |v.streams| :: v.streams[i].inflight == []
    ensures Outstanding(v) == multiset{}
  {
    GatherNothing(v.streams, Owes);
  }

  lemma NoneOpen(v: Client)
    requires Inv(v) && Sum(v.streams, IsOpen) == 0
    ensures Outstanding(v) == multiset{}
  {
    forall i | 0 <= i < |v.streams|
      ensures Owes(v.streams[i]) == multiset{}
    {
      NoneIsOne(v.streams, i);
      assert StreamOk(v.streams[i], v.maxInflight);
    }
    GatherNothing(v.streams, Owes);
  }

  lemma {:induction false} NoneIsOne(streams: seq<Stream>, i: nat)
    requires Sum(streams, IsOpen) == 0 && i < |streams|
    ensures IsOpen(streams[i]) == 0
  {
    var k := |streams| - 1;
    SumOfFlags(streams[..k], IsOpen, |streams|);
    if i < k {
      NoneIsOne(streams[..k], i);
    }
  }
}
