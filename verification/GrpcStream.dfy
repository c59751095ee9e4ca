/** The gRPC stream client as a state machine over what the pool and the streams raise: a fixed set of
    bidirectional streams, messages sent on them in turn, and echoes matched oldest first.

    A call is numbered by the order it was made in, and a message outstanding on a stream is the number
    of the call whose callback it owes. */
module GrpcStream {
  import opened Tally

  datatype State = Opening | Open | HalfClosed | Closed

  /** `asked`: the pool was asked for this stream. `turns` is history: how many calls were this
      stream's. */
  datatype Stream = Stream(
    state: State, asked: bool, encoder: bool, inflight: seq<nat>, writeBlocked: bool, turns: nat)

  datatype Counters = Counters(
    sent: nat, received: nat, deferred: nat, unavailable: nat, resets: nat, earlyClose: nat,
    unexpected: nat, inflightLost: nat, drainIncomplete: nat, writeBlocked: nat,
    streamsOpened: nat, openFailures: nat, statuses: multiset<Option<nat>>)

  datatype Waiting = Nothing | Opens | Closes

  /** `innerResets` is history: the resets that came while a stream's headers were being encoded. */
  datatype Client = Client(
    maxInflight: nat, streams: seq<Stream>, n: Counters, next: nat, pendingOpens: int,
    waiting: Waiting, exitAsked: bool, prepared: bool, finished: bool,
    calls: nat, succeeded: multiset<nat>, failed: multiset<nat>, innerResets: nat)

  /** How the pool answers: at once or not, and for a stream that is ready, whether its headers were
      encoded and whether a reset came before that returned. */
  datatype Outcome = NoPool | Pending | Fails | Ready(encoded: bool, reset: bool)

  datatype Event =
    | Prepare(outcomes: seq<Outcome>)
    | OpenResult(stream: nat, outcome: Outcome)
    | Send
    | Frames(stream: nat, count: nat, end: bool)
    | EndOfResponse(stream: nat, status: Option<nat>)
    | Reset(stream: nat)
    | Watermark(stream: nat, blocked: bool)
    | WaitTimer
    | Finish
    | FinishReturns
    | PrepareReturns
    | Terminate

  const ZERO := Counters(0, 0, 0, 0, 0, 0, 0, 0, 0, 0, 0, 0, multiset{})

  function New(streams: nat, maxInflight: nat): Client {
    Client(maxInflight, seq(streams, i => Stream(Opening, false, false, [], false, 0)), ZERO, 0, 0,
           Nothing, false, false, false, 0, multiset{}, multiset{}, 0)
  }

  /** Nothing but prepare() and finish() changes these. */
  predicate Kept(v: Client, q: Client) {
    && |q.streams| == |v.streams| && q.maxInflight == v.maxInflight
    && q.waiting == v.waiting && q.prepared == v.prepared && q.finished == v.finished
  }

  ghost function IsOpen(st: Stream): int { if st.state.Open? || st.state.HalfClosed? then 1 else 0 }

  /** The wait under way is over once nothing is left to wait for. */
  ghost function MaybeExit(v: Client): (q: Client)
    ensures Kept(v, q)
  {
    if (v.waiting.Opens? && v.pendingOpens == 0) || (v.waiting.Closes? && Sum(v.streams, IsOpen) == 0)
    then v.(exitAsked := true) else v
  }

  /** Everything a stream still owes is lost. */
  function Lost(v: Client, i: nat): (q: Client)
    requires i < |v.streams|
    ensures Kept(v, q)
  {
    var st := v.streams[i];
    v.(streams := v.streams[i := st.(inflight := [])],
       n := v.n.(inflightLost := v.n.inflightLost + |st.inflight|),
       failed := v.failed + multiset(st.inflight))
  }

  /** A stream that closes: its status is counted, and everything it still owes is lost. */
  function Shut(v: Client, i: nat, status: Option<nat>): (q: Client)
    requires i < |v.streams|
    ensures Kept(v, q)
  {
    var st := v.streams[i];
    v.(streams := v.streams[i := st.(state := Closed, encoder := false, inflight := [])],
       n := v.n.(statuses := v.n.statuses + multiset{status}, inflightLost := v.n.inflightLost + |st.inflight|),
       failed := v.failed + multiset(st.inflight))
  }

  ghost function Close(v: Client, i: nat, status: Option<nat>): (q: Client)
    requires i < |v.streams|
    ensures Kept(v, q)
  {
    if v.streams[i].state.Closed? then v else MaybeExit(Shut(v, i, status))
  }

  // ----- Opening -----

  /** A reset while opening counts as an open failure. */
  function ResetCounted(v: Client, i: nat): (q: Client)
    requires i < |v.streams|
    ensures Kept(v, q)
  {
    if v.streams[i].state.Opening?
    then v.(n := v.n.(resets := v.n.resets + 1, openFailures := v.n.openFailures + 1),
            pendingOpens := v.pendingOpens - 1)
    else v.(n := v.n.(resets := v.n.resets + 1))
  }

  ghost function OnReset(v: Client, i: nat): (q: Client)
    requires i < |v.streams|
    ensures Kept(v, q)
  {
    if v.streams[i].state.Closed? then v else Close(ResetCounted(v, i), i, None)
  }

  /** A reset that comes while the stream's headers are being encoded. */
  ghost function InnerReset(v: Client, i: nat): (q: Client)
    requires i < |v.streams|
    ensures Kept(v, q)
  {
    OnReset(v.(innerResets := v.innerResets + 1), i)
  }

  function OpenEnded(v: Client, i: nat, encoded: bool): (q: Client)
    requires i < |v.streams|
    ensures Kept(v, q)
  {
    v.(streams := v.streams[i := v.streams[i].(state := if encoded then Open else Closed)],
       n := if encoded then v.n.(streamsOpened := v.n.streamsOpened + 1)
            else v.n.(openFailures := v.n.openFailures + 1),
       pendingOpens := v.pendingOpens - 1)
  }

  ghost function Settled(v: Client, i: nat, encoded: bool): (q: Client)
    requires i < |v.streams|
    ensures Kept(v, q)
  {
    MaybeExit(OpenEnded(v, i, encoded))
  }

  ghost function OnReady(v: Client, i: nat, encoded: bool, reset: bool): (q: Client)
    requires i < |v.streams|
    ensures Kept(v, q)
  {
    var q := v.(streams := v.streams[i := v.streams[i].(encoder := true)]);
    Settled(if reset then InnerReset(q, i) else q, i, encoded)
  }

  ghost function OnOpenFailure(v: Client, i: nat): (q: Client)
    requires i < |v.streams|
    ensures Kept(v, q)
  {
    MaybeExit(OpenEnded(v, i, false))
  }

  function Refused(v: Client, i: nat): (q: Client)
    requires i < |v.streams|
    ensures Kept(v, q)
  {
    v.(streams := v.streams[i := v.streams[i].(state := Closed)], n := v.n.(openFailures := v.n.openFailures + 1))
  }

  function Asked(v: Client, i: nat): (q: Client)
    requires i < |v.streams|
    ensures Kept(v, q)
  {
    v.(streams := v.streams[i := v.streams[i].(asked := true)], pendingOpens := v.pendingOpens + 1)
  }

  ghost function OpenStream(v: Client, i: nat, outcome: Outcome): (q: Client)
    requires i < |v.streams|
    ensures Kept(v, q)
  {
    match outcome
    case NoPool => Refused(v, i)
    case Pending => Asked(v, i)
    case Fails => OnOpenFailure(Asked(v, i), i)
    case Ready(encoded, reset) => OnReady(Asked(v, i), i, encoded, reset)
  }

  ghost function OpenAll(v: Client, outcomes: seq<Outcome>): (q: Client)
    ensures Kept(v, q)
  {
    if outcomes == [] then v
    else
      var k := |outcomes| - 1;
      var q := OpenAll(v, outcomes[..k]);
      if k < |q.streams| then OpenStream(q, k, outcomes[k]) else q
  }

  ghost function OnPrepare(v: Client, outcomes: seq<Outcome>): Client {
    var q := OpenAll(v.(prepared := true), outcomes);
    if q.pendingOpens == 0 then q else q.(waiting := Opens)
  }

  // ----- Sending and receiving -----

  function Turn(v: Client, st: Stream, n: Counters): (q: Client)
    requires v.next < |v.streams|
    ensures Kept(v, q)
  {
    v.(streams := v.streams[v.next := st.(turns := st.turns + 1)], n := n,
       next := (v.next + 1) % |v.streams|, calls := v.calls + 1)
  }

  predicate Sends(v: Client, st: Stream) {
    st.state.Open? && !st.writeBlocked && |st.inflight| < v.maxInflight
  }

  function TryStartRequest(v: Client): (q: Client)
    requires v.next < |v.streams|
    ensures Kept(v, q)
  {
    var st := v.streams[v.next];
    if Sends(v, st) then Turn(v, st.(inflight := st.inflight + [v.calls]), v.n.(sent := v.n.sent + 1))
    else
      Turn(v, st, if st.state.Open? then v.n.(deferred := v.n.deferred + 1)
                  else v.n.(unavailable := v.n.unavailable + 1)).(failed := v.failed + multiset{v.calls})
  }

  function Min(a: nat, b: nat): nat { if a < b then a else b }

  /** `count` echoes: each is for the oldest message outstanding, and unexpected when there is none. */
  function Echoed(v: Client, i: nat, count: nat): (q: Client)
    requires i < |v.streams|
    ensures Kept(v, q)
  {
    var st := v.streams[i];
    var m := Min(count, |st.inflight|);
    v.(streams := v.streams[i := st.(inflight := st.inflight[m..])],
       n := v.n.(received := v.n.received + m, unexpected := v.n.unexpected + count - m),
       succeeded := v.succeeded + multiset(st.inflight[..m]))
  }

  ghost function OnEnd(v: Client, i: nat, status: Option<nat>): (q: Client)
    requires i < |v.streams|
    ensures Kept(v, q)
  {
    var q := if v.streams[i].state.Open? then v.(n := v.n.(earlyClose := v.n.earlyClose + 1)) else v;
    Close(q, i, status)
  }

  ghost function OnFrames(v: Client, i: nat, count: nat, end: bool): (q: Client)
    requires i < |v.streams|
    ensures Kept(v, q)
  {
    var q := Echoed(v, i, count);
    if end then OnEnd(q, i, None) else q
  }

  function OnWatermark(v: Client, i: nat, blocked: bool): (q: Client)
    requires i < |v.streams|
    ensures Kept(v, q)
  {
    var st := v.streams[i];
    v.(streams := v.streams[i := st.(writeBlocked := blocked)],
       n := if blocked && !st.writeBlocked then v.n.(writeBlocked := v.n.writeBlocked + 1) else v.n)
  }

  // ----- The end -----

  function HalfClose(st: Stream): Stream {
    if st.state.Open? && st.encoder then st.(state := HalfClosed) else st
  }

  function HalfClosedAll(streams: seq<Stream>): seq<Stream> {
    seq(|streams|, i requires 0 <= i < |streams| => HalfClose(streams[i]))
  }

  ghost function OnFinish(v: Client): Client {
    if v.finished then v
    else
      var q := v.(finished := true, streams := HalfClosedAll(v.streams));
      if Sum(q.streams, IsOpen) == 0 then q else q.(waiting := Closes)
  }

  function Drained(v: Client, i: nat): (q: Client)
    requires i < |v.streams|
    ensures Kept(v, q)
  {
    Lost(v.(n := v.n.(drainIncomplete := v.n.drainIncomplete + 1)), i)
  }

  /** The streams still open when the wait ends: their messages are lost. */
  ghost function LoseOpen(v: Client, k: nat): (q: Client)
    requires k <= |v.streams|
    ensures Kept(v, q)
  {
    if k == 0 then v
    else
      var q := LoseOpen(v, k - 1);
      if IsOpen(q.streams[k - 1]) == 0 then q
      else Drained(q, k - 1)
  }

  ghost function OnFinishReturns(v: Client): Client {
    LoseOpen(v.(waiting := Nothing, exitAsked := false), |v.streams|)
  }

  /** A stream still opening is taken back from the pool. */
  function Cancelled(v: Client, i: nat): (q: Client)
    requires i < |v.streams|
    ensures Kept(v, q)
  {
    v.(streams := v.streams[i := v.streams[i].(state := Closed)], pendingOpens := v.pendingOpens - 1)
  }

  /** A stream still open is cut off, and gets no status. */
  function Cut(v: Client, i: nat): (q: Client)
    requires i < |v.streams|
    ensures Kept(v, q)
  {
    var st := v.streams[i];
    v.(streams := v.streams[i := st.(state := Closed, encoder := false, inflight := [])],
       n := v.n.(inflightLost := v.n.inflightLost + |st.inflight|),
       failed := v.failed + multiset(st.inflight))
  }

  function Terminated(v: Client, i: nat): (q: Client)
    requires i < |v.streams|
    ensures Kept(v, q)
  {
    var st := v.streams[i];
    if st.state.Opening? && st.asked then Cancelled(v, i)
    else if st.state.Open? || st.state.HalfClosed? then Cut(v, i)
    else v
  }

  function TerminateEach(v: Client, k: nat): (q: Client)
    requires k <= |v.streams|
    ensures Kept(v, q)
  {
    if k == 0 then v else Terminated(TerminateEach(v, k - 1), k - 1)
  }

  // ----- The state machine -----

  predicate Enabled(v: Client, e: Event) {
    match e
    case Prepare(outcomes) => !v.prepared && !v.finished && |outcomes| == |v.streams|
    case OpenResult(i, outcome) =>
      i < |v.streams| && v.streams[i].state.Opening? && v.streams[i].asked && (outcome.Fails? || outcome.Ready?)
    case Send =>
      v.next < |v.streams| && (Sends(v, v.streams[v.next]) ==> v.streams[v.next].encoder)
    case Frames(i, _, _) => i < |v.streams| && !v.streams[i].state.Opening?
    case EndOfResponse(i, _) => i < |v.streams| && !v.streams[i].state.Opening?
    case Reset(i) => i < |v.streams| && !v.streams[i].state.Opening?
    case Watermark(i, _) => i < |v.streams|
    case WaitTimer => !v.waiting.Nothing?
    case Finish => v.waiting.Nothing?
    case PrepareReturns => v.waiting.Opens? && v.exitAsked
    case FinishReturns => v.waiting.Closes? && v.exitAsked
    case Terminate => v.finished && v.waiting.Nothing?
  }

  ghost function Step(v: Client, e: Event): Client
    requires Enabled(v, e)
  {
    match e
    case Prepare(outcomes) => OnPrepare(v, outcomes)
    case OpenResult(i, outcome) =>
      if outcome.Ready? then OnReady(v, i, outcome.encoded, outcome.reset) else OnOpenFailure(v, i)
    case Send => TryStartRequest(v)
    case Frames(i, count, end) => OnFrames(v, i, count, end)
    case EndOfResponse(i, status) => OnEnd(v, i, status)
    case Reset(i) => OnReset(v, i)
    case Watermark(i, blocked) => OnWatermark(v, i, blocked)
    case WaitTimer => v.(exitAsked := true)
    case Finish => OnFinish(v)
    case PrepareReturns => v.(waiting := Nothing, exitAsked := false)
    case FinishReturns => OnFinishReturns(v)
    case Terminate => TerminateEach(v, |v.streams|)
  }

  ghost function Next(v: Client, e: Event): Client {
    if Enabled(v, e) then Step(v, e) else v
  }

  ghost function Run(v: Client, events: seq<Event>): Client {
    if events == [] then v else Next(Run(v, events[..|events| - 1]), events[|events| - 1])
  }
}
