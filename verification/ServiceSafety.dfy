/** What holds of the execution service under every interleaving of its threads. */
module ServiceSafety {
  import opened Tally
  import opened Service

  // ----- One execution -----

  /** The Process is published from the step that makes it reachable to the one that takes it back. */
  predicate Reachable(pc: RunPc) {
    || pc.Published? || pc.Starting? || pc.Running? || pc.Stopping? || pc.Joining?
    || pc.Collecting? || pc.Unpublishing? || pc.UnwindStop? || pc.UnwindJoin? || pc.UnwindUnpublish?
  }

  /** While the progress thread may be there. */
  predicate WithProgress(pc: RunPc) {
    || pc.Starting? || pc.Running? || pc.Stopping? || pc.Joining? || pc.UnwindStop? || pc.UnwindJoin?
  }

  /** The slot is given back, and the execution done, in exactly these states; on the last ways out it
      depends on whether the run had answered. */
  predicate ReleasedBy(e: Exec) {
    match e.pc
    case AnsweringDone => e.released && !e.done && !e.answered
    case LeavingDone => e.released && !e.done && !e.answered
    case Writing => e.released && e.done && !e.answered
    case Destroying => e.released == e.done == e.answered
    case Leaving => e.released == e.done == e.answered
    case Ended => e.released && e.done
    case _ => !e.released && !e.done && !e.answered
  }

  predicate LifetimeOk(e: Exec) {
    match e.pc
    case Setup => e.process.NotBuilt?
    case Built => e.process.Alive?
    case Leaving => !e.process.Alive?
    case LeavingDone => !e.process.Alive?
    case Ended => !e.process.Alive?
    case _ => if Reachable(e.pc) then e.process.Alive? else !e.process.Destroyed?
  }

  predicate CancelOk(e: Exec) {
    && (e.cancelled || e.cancelRequested || e.askedEarly ==> e.asked)
    && (e.asked ==> || e.cancelled
                    || (e.cancelRequested && (e.pc.Setup? || e.pc.Built?))
                    || !(e.pc.Setup? || e.pc.Built? || Reachable(e.pc)))
    && (e.pc.Setup? || e.pc.Built? ==> !e.cancelled)
    && (BeforeStartUp(e.pc) || e.askedEarly ==> !e.workers)
    && (e.cancelled && e.workers ==> e.workersTold)
  }

  predicate ExecOk(e: Exec) {
    && ReleasedBy(e) && LifetimeOk(e) && CancelOk(e)
    && e.givenBack == (if e.released then 1 else 0)
    && e.published == Reachable(e.pc)
    && (!Joinable(e) ==> WithProgress(e.pc))
  }

  /** What the rest of the service sees of a run's step. */
  predicate Shows(e: Exec, q: Exec, effect: Effect) {
    && q.owner == e.owner && !e.pc.Ended? && q.asked == e.asked && q.askedEarly == e.askedEarly
    && match effect
       case Quiet => q.released == e.released && q.answered == e.answered
       case GivesBack => !e.released && q.released && q.answered == e.answered
       case Sends(final) => q.released == e.released && !e.answered && q.answered == final
  }

  predicate OnTheWayOut(a: RunAction) {
    a.Unpublish? || a.GiveBack? || a.MarkDone? || a.WriteFinal? || a.Destroy?
  }

  predicate OfProgress(a: RunAction) {
    a.Wake? || a.Snapshot? || a.WriteInterim?
  }

  lemma WayInKeeps(e: Exec, a: RunAction)
    requires ExecOk(e) && CanRun(e, a) && !OnTheWayOut(a) && !OfProgress(a)
    ensures ExecOk(RunStep(e, a)) && Shows(e, RunStep(e, a), EffectOf(e, a))
  {
  }

  lemma WayOutKeeps(e: Exec, a: RunAction)
    requires ExecOk(e) && CanRun(e, a) && OnTheWayOut(a)
    ensures ExecOk(RunStep(e, a)) && Shows(e, RunStep(e, a), EffectOf(e, a))
  {
  }

  lemma ProgressKeeps(e: Exec, a: RunAction)
    requires ExecOk(e) && CanRun(e, a) && OfProgress(a)
    ensures ExecOk(RunStep(e, a)) && Shows(e, RunStep(e, a), EffectOf(e, a))
  {
  }

  lemma RunStepKeeps(e: Exec, a: RunAction)
    requires ExecOk(e) && CanRun(e, a)
    ensures ExecOk(RunStep(e, a)) && Shows(e, RunStep(e, a), EffectOf(e, a))
  {
    hide ExecOk, RunStep, EffectOf, CanRun, Shows;
    if OnTheWayOut(a) {
      WayOutKeeps(e, a);
    } else if OfProgress(a) {
      ProgressKeeps(e, a);
    } else {
      WayInKeeps(e, a);
    }
  }

  lemma CancelKeeps(e: Exec)
    requires ExecOk(e)
    ensures var q := Cancel(e);
      ExecOk(q) && q.owner == e.owner && q.pc == e.pc && q.released == e.released && q.answered == e.answered
  {
  }

  // ----- The service -----

  /** A stream's thread that holds a slot no run has taken over yet. */
  ghost function Holding(st: Stream): int { if st.pc.Spawning? || st.pc.Undoing? then 1 else 0 }
  ghost function Held(e: Exec): int { if e.released then 0 else 1 }

  ghost predicate Slots(v: Service) {
    && v.active == Sum(v.streams, Holding) + Sum(v.execs, Held)
    && v.active == v.accepted - v.returned
    && v.active <= v.cap
  }

  /** A stream that can have a run under way. */
  predicate MayRun(pc: StreamPc) {
    pc.Reading? || pc.AwaitingPrevious? || pc.Closing?
  }

  ghost predicate ExecsOk(execs: seq<Exec>) {
    forall id | 0 <= id < |execs| :: ExecOk(execs[id])
  }

  /** A run that has not ended is the current one of a stream that waits for it before it moves on. */
  ghost predicate Owned(streams: seq<Stream>, execs: seq<Exec>) {
    && (forall id | 0 <= id < |execs| ::
          && execs[id].owner < |streams|
          && (!execs[id].pc.Ended? ==>
                streams[execs[id].owner].exec == Some(id) && MayRun(streams[execs[id].owner].pc)))
    && (forall s | 0 <= s < |streams| && streams[s].exec.Some? ::
          streams[s].exec.value < |execs| && execs[streams[s].exec.value].owner == s)
  }

  /** A stream's responses: run by run, and nothing of a run after its final one. */
  ghost predicate Ordered(wire: seq<Response>) {
    forall i, j | 0 <= i < j < |wire| ::
      wire[i].exec <= wire[j].exec && (wire[i].final ==> wire[i].exec < wire[j].exec)
  }

  ghost predicate WireOk(wire: seq<Response>, s: StreamId, execs: seq<Exec>) {
    && Ordered(wire)
    && (forall i | 0 <= i < |wire| ::
          && wire[i].exec < |execs| && execs[wire[i].exec].owner == s
          && (wire[i].final ==> execs[wire[i].exec].answered))
  }

  ghost predicate Bounded(wire: seq<Response>, id: ExecId) {
    forall i | 0 <= i < |wire| :: wire[i].exec <= id
  }

  ghost predicate Wires(streams: seq<Stream>, execs: seq<Exec>) {
    && (forall s | 0 <= s < |streams| :: WireOk(streams[s].wire, s, execs))
    && (forall id | 0 <= id < |execs| && execs[id].owner < |streams| ::
          && (!execs[id].pc.Ended? ==> Bounded(streams[execs[id].owner].wire, id))
          && (execs[id].answered ==> Response(id, true) in streams[execs[id].owner].wire))
  }

  ghost predicate Inv(v: Service) {
    Slots(v) && ExecsOk(v.execs) && Owned(v.streams, v.execs) && Wires(v.streams, v.execs)
  }

  // ----- Steps of a stream -----

  /** A change of one stream that leaves its responses alone. */
  lemma StreamChange(v: Service, q: Service, s: StreamId, st: Stream)
    requires Inv(v) && s < |v.streams|
    requires q.streams == v.streams[s := st] && q.execs == v.execs && q.cap == v.cap
    requires st.wire == v.streams[s].wire
    requires MayRun(st.pc) || (v.streams[s].exec.Some? ==> v.execs[v.streams[s].exec.value].pc.Ended?)
    requires st.exec == v.streams[s].exec || (st.exec.None? && !MayRun(v.streams[s].pc))
    requires q.active == v.active + Holding(st) - Holding(v.streams[s])
    requires q.active == q.accepted - q.returned && q.active <= q.cap
    ensures Inv(q)
  {
    SumUpdate(v.streams, Holding, s, st);
    hide Sum, ExecOk, WireOk;
  }

  lemma SpawnOwned(v: Service, s: StreamId)
    requires Owned(v.streams, v.execs) && s < |v.streams| && v.streams[s].pc.Spawning?
    ensures var q := StreamStep(v, s, Spawn); Owned(q.streams, q.execs)
  {
  }

  lemma SpawnSlots(v: Service, s: StreamId)
    requires Slots(v) && ExecsOk(v.execs) && s < |v.streams| && v.streams[s].pc.Spawning?
    ensures var q := StreamStep(v, s, Spawn); Slots(q) && ExecsOk(q.execs)
  {
    var q := StreamStep(v, s, Spawn);
    SumUpdate(v.streams, Holding, s, q.streams[s]);
    SumAppend(v.execs, Held, NewExec(s));
    hide Sum;
    assert ExecOk(NewExec(s));
    hide ExecOk;
  }

  lemma SpawnKeeps(v: Service, s: StreamId)
    requires Inv(v) && s < |v.streams| && v.streams[s].pc.Spawning?
    ensures Inv(StreamStep(v, s, Spawn))
  {
    hide Slots, ExecsOk, Owned, Wires, StreamStep;
    SpawnSlots(v, s);
    SpawnOwned(v, s);
    SpawnWires(v, s);
  }

  lemma SpawnWires(v: Service, s: StreamId)
    requires Wires(v.streams, v.execs) && Owned(v.streams, v.execs)
    requires s < |v.streams| && v.streams[s].pc.Spawning?
    ensures var q := StreamStep(v, s, Spawn); Wires(q.streams, q.execs)
  {
    var q := StreamStep(v, s, Spawn);
    forall t | 0 <= t < |q.streams|
      ensures WireOk(q.streams[t].wire, t, q.execs)
    {
      assert WireOk(v.streams[t].wire, t, v.execs);
    }
    assert WireOk(v.streams[s].wire, s, v.execs);
  }

  lemma CancelStepKeeps(v: Service, id: ExecId)
    requires Inv(v) && id < |v.execs|
    ensures Inv(v.(execs := v.execs[id := Cancel(v.execs[id])]))
  {
    hide Slots, Owned, Wires, Cancel, ExecOk;
    var e := v.execs[id];
    CancelKeeps(e);
    SlotsBook(v);
    ExecSlots(v, id, Cancel(e), v.(execs := v.execs[id := Cancel(e)]));
    SameWires(v.streams, v.execs, id, Cancel(e));
    ExecOwned(v.streams, v.execs, id, Cancel(e), v.streams);
  }

  /** The count follows the slot of the one execution that changes. */
  lemma ExecSlots(v: Service, id: ExecId, e: Exec, q: Service)
    requires Slots(v) && id < |v.execs| && q.execs == v.execs[id := e] && q.cap == v.cap
    requires Sum(q.streams, Holding) == Sum(v.streams, Holding)
    requires q.active == v.active + Held(e) - Held(v.execs[id]) && q.active <= v.active
    requires q.active == q.accepted - q.returned
    ensures Slots(q)
  {
    SumUpdate(v.execs, Held, id, e);
  }

  lemma SameWires(streams: seq<Stream>, execs: seq<Exec>, id: ExecId, e: Exec)
    requires Wires(streams, execs) && id < |execs|
    requires e.owner == execs[id].owner && e.answered == execs[id].answered
    requires execs[id].pc.Ended? ==> e.pc.Ended?
    ensures Wires(streams, execs[id := e])
  {
    forall s | 0 <= s < |streams|
      ensures WireOk(streams[s].wire, s, execs[id := e])
    {
      assert WireOk(streams[s].wire, s, execs);
    }
  }

  lemma StreamStepKeeps(v: Service, s: StreamId, a: StreamAction)
    requires Inv(v) && Enabled(v, Serves(s, a))
    ensures Inv(StreamStep(v, s, a))
  {
    var q := StreamStep(v, s, a);
    match a
    case Spawn => SpawnKeeps(v, s);
    case ReadCancel =>
      if v.streams[s].exec.Some? {
        CancelStepKeeps(v, v.streams[s].exec.value);
      }
    case _ =>
      hide Sum, ExecOk, WireOk;
      StreamChange(v, q, s, q.streams[s]);
  }

  // ----- Steps of a run -----

  /** One more response, of the run that is under way. */
  lemma SendWires(streams: seq<Stream>, execs: seq<Exec>, id: ExecId, e: Exec, final: bool)
    requires Wires(streams, execs) && id < |execs| && execs[id].owner < |streams|
    requires !execs[id].pc.Ended? && !execs[id].answered
    requires e.owner == execs[id].owner && e.answered == final
    requires forall j | 0 <= j < |execs| && execs[j].owner == e.owner && !execs[j].pc.Ended? :: j == id
    ensures var st := streams[e.owner];
      Wires(streams[e.owner := st.(wire := st.wire + [Response(id, final)])], execs[id := e])
  {
    var st := streams[e.owner];
    var wire := st.wire + [Response(id, final)];
    var streams' := streams[e.owner := st.(wire := wire)];
    var execs' := execs[id := e];
    assert WireOk(st.wire, e.owner, execs) && Bounded(st.wire, id);
    forall s | 0 <= s < |streams'|
      ensures WireOk(streams'[s].wire, s, execs')
    {
      assert WireOk(streams[s].wire, s, execs);
    }
    assert Bounded(wire, id);
    forall j | 0 <= j < |execs'| && execs'[j].answered && execs'[j].owner < |streams'|
      ensures Response(j, true) in streams'[execs'[j].owner].wire
    {
      if j == id {
        assert wire[|st.wire|] == Response(id, true);
      } else {
        var was := streams[execs[j].owner].wire;
        assert Response(j, true) in was && was <= streams'[execs'[j].owner].wire;
      }
    }
  }

  lemma ExecOwned(streams: seq<Stream>, execs: seq<Exec>, id: ExecId, e: Exec, streams': seq<Stream>)
    requires Owned(streams, execs) && id < |execs|
    requires e.owner == execs[id].owner && (execs[id].pc.Ended? ==> e.pc.Ended?)
    requires |streams'| == |streams|
    requires forall s | 0 <= s < |streams| :: streams'[s].exec == streams[s].exec && streams'[s].pc == streams[s].pc
    ensures Owned(streams', execs[id := e])
  {
  }

  /** A response changes no slot and no one's place. */
  lemma SentFrame(v: Service, id: ExecId, final: bool, q: Service)
    requires id < |v.execs| && v.execs[id].owner < |v.streams|
    requires var st := v.streams[v.execs[id].owner];
      q.streams == v.streams[v.execs[id].owner := st.(wire := st.wire + [Response(id, final)])]
    ensures Sum(q.streams, Holding) == Sum(v.streams, Holding)
    ensures forall s | 0 <= s < |v.streams| ::
      q.streams[s].exec == v.streams[s].exec && q.streams[s].pc == v.streams[s].pc
  {
    SumUpdate(v.streams, Holding, v.execs[id].owner, q.streams[v.execs[id].owner]);
  }

  lemma OnlyCurrent(v: Service, id: ExecId)
    requires Owned(v.streams, v.execs) && id < |v.execs| && !v.execs[id].pc.Ended?
    ensures v.execs[id].owner < |v.streams|
    ensures forall j | 0 <= j < |v.execs| && v.execs[j].owner == v.execs[id].owner && !v.execs[j].pc.Ended? :: j == id
  {
  }

  lemma ExecStepKeeps(v: Service, id: ExecId, step: RunAction)
    requires Inv(v) && Enabled(v, Runs(id, step))
    ensures Inv(ExecStep(v, id, step))
  {
    hide RunStep, CanRun, ExecOk, Slots, Owned, Wires, EffectOf;
    var e := v.execs[id];
    var e1 := RunStep(e, step);
    var q := ExecStep(v, id, step);
    RunStepKeeps(e, step);
    OnlyCurrent(v, id);
    SlotsBook(v);
    if EffectOf(e, step).Sends? {
      SentFrame(v, id, EffectOf(e, step).final, q);
      SendWires(v.streams, v.execs, id, e1, EffectOf(e, step).final);
    } else {
      SameWires(v.streams, v.execs, id, e1);
    }
    ExecOwned(v.streams, v.execs, id, e1, q.streams);
    ExecSlots(v, id, e1, q);
  }

  lemma SlotsBook(v: Service)
    requires Slots(v)
    ensures v.active == v.accepted - v.returned
  {
  }

  // ----- Every interleaving -----

  lemma OpenKeeps(v: Service)
    requires Inv(v)
    ensures Inv(Next(v, OpenStream))
  {
    SumAppend(v.streams, Holding, Stream(Reading, None, []));
    hide Sum, ExecOk;
    var q := Next(v, OpenStream);
    forall s | 0 <= s < |q.streams|
      ensures WireOk(q.streams[s].wire, s, q.execs)
    {
      if s < |v.streams| {
        assert WireOk(v.streams[s].wire, s, v.execs);
      }
    }
  }

  lemma NextKeeps(v: Service, a: Action)
    requires Inv(v)
    ensures Inv(Next(v, a))
  {
    if Enabled(v, a) {
      hide Inv;
      match a
      case OpenStream => OpenKeeps(v);
      case Serves(s, act) => StreamStepKeeps(v, s, act);
      case Runs(id, step) => ExecStepKeeps(v, id, step);
    }
  }

  lemma {:induction false} RunKeeps(v: Service, actions: seq<Action>)
    requires Inv(v)
    ensures Inv(Run(v, actions))
  {
    if actions != [] {
      RunKeeps(v, actions[..|actions| - 1]);
      NextKeeps(Run(v, actions[..|actions| - 1]), actions[|actions| - 1]);
    }
  }
}
