/** The promises of the execution service, over every interleaving of any number of streams. */
module ServiceRuns {
  import opened Tally
  import opened Service
  import opened ServiceSafety

  /** The count is the starts accepted and not given back, within the cap. A run gives its slot back at
      most once, before it writes its final response, and on every way out. */
  ghost predicate SlotsExact(v: Service) {
    && 0 <= v.active <= v.cap
    && v.active == v.accepted - v.returned == Sum(v.streams, Holding) + Sum(v.execs, Held)
    && (forall id | 0 <= id < |v.execs| ::
          var e := v.execs[id];
          && e.givenBack <= 1 && (e.released <==> e.givenBack == 1)
          && (e.pc.Ended? || e.pc.Writing? || e.answered ==> e.givenBack == 1 && e.done))
  }

  ghost predicate Writes(e: Exec) {
    e.pc.Writing? || e.progress.WritingInterim?
  }

  /** A stream's responses come run by run, the final one of a run once and last; at most one thread
      writes on a stream at a time, and none once the stream is finished. */
  ghost predicate ResponsesInOrder(v: Service) {
    && (forall s | 0 <= s < |v.streams| ::
          && Ordered(v.streams[s].wire)
          && (forall i | 0 <= i < |v.streams[s].wire| ::
                v.streams[s].wire[i].exec < |v.execs| && v.execs[v.streams[s].wire[i].exec].owner == s))
    && (forall id | 0 <= id < |v.execs| ::
          && v.execs[id].owner < |v.streams|
          && (v.execs[id].answered <==> Response(id, true) in v.streams[v.execs[id].owner].wire))
    && (forall id | 0 <= id < |v.execs| && Writes(v.execs[id]) ::
          && !(v.execs[id].pc.Writing? && v.execs[id].progress.WritingInterim?)
          && !v.streams[v.execs[id].owner].pc.Finished?)
    && (forall i, j | 0 <= i < j < |v.execs| && v.execs[i].owner == v.execs[j].owner ::
          !(Writes(v.execs[i]) && Writes(v.execs[j])))
  }

  /** A cancellation read while its run was not done has reached the run's own Process, or waits for it
      to be published, or found the run over; nothing else cancels a Process. One that is there to be
      cancelled, or that a snapshot is taken of, is alive. */
  ghost predicate CancellationsKept(v: Service) {
    forall id | 0 <= id < |v.execs| ::
      var e := v.execs[id];
      && (e.cancelled ==> e.asked)
      && (e.asked && Reachable(e.pc) ==> e.cancelled && (e.workers ==> e.workersTold))
      && (e.asked && (e.pc.Setup? || e.pc.Built?) ==> e.cancelRequested)
      && (e.askedEarly ==> !e.workers)
      && (e.published || e.progress.Snapshotting? ==> e.process.Alive?)
  }

  lemma InvSlots(v: Service)
    requires Inv(v)
    ensures SlotsExact(v)
  {
    SumAtLeast(v.streams, Holding, 0);
    SumAtLeast(v.execs, Held, 0);
    hide Owned, Wires, Sum;
    forall id | 0 <= id < |v.execs|
      ensures ExecOk(v.execs[id])
    {
    }
  }

  lemma InvResponses(v: Service)
    requires Inv(v)
    ensures ResponsesInOrder(v)
  {
    hide Slots;
    forall s | 0 <= s < |v.streams|
      ensures WireOk(v.streams[s].wire, s, v.execs)
    {
    }
    forall id | 0 <= id < |v.execs|
      ensures Writes(v.execs[id]) ==>
          !v.execs[id].pc.Ended? && !(v.execs[id].pc.Writing? && v.execs[id].progress.WritingInterim?)
    {
      assert ExecOk(v.execs[id]);
    }
  }

  lemma InvCancellations(v: Service)
    requires Inv(v)
    ensures CancellationsKept(v)
  {
    hide Slots, Owned, Wires;
    forall id | 0 <= id < |v.execs|
      ensures ExecOk(v.execs[id])
    {
    }
  }

  lemma NewInv(cap: nat)
    ensures Inv(New(cap))
  {
  }

  /** The service's promises, after every interleaving. */
  lemma EveryInterleaving(cap: nat, actions: seq<Action>)
    ensures var v := Run(New(cap), actions);
      v.cap == cap && SlotsExact(v) && ResponsesInOrder(v) && CancellationsKept(v)
  {
    hide Inv;
    NewInv(cap);
    RunKeeps(New(cap), actions);
    RunKeepsCap(New(cap), actions);
    InvSlots(Run(New(cap), actions));
    InvResponses(Run(New(cap), actions));
    InvCancellations(Run(New(cap), actions));
  }

  lemma {:induction false} RunKeepsCap(v: Service, actions: seq<Action>)
    ensures Run(v, actions).cap == v.cap
  {
    if actions != [] {
      RunKeepsCap(v, actions[..|actions| - 1]);
    }
  }

  // ----- Cancellation across a run -----

  /** What is remembered of an execution is never forgotten. */
  predicate Remembers(e: Exec, q: Exec) {
    q.owner == e.owner && (e.asked ==> q.asked) && (e.askedEarly ==> q.askedEarly)
  }

  lemma CancelRemembers(e: Exec)
    ensures Remembers(e, Cancel(e))
  {
  }

  lemma ServingRemembers(v: Service, s: StreamId, a: StreamAction, id: ExecId)
    requires Enabled(v, Serves(s, a)) && id < |v.execs|
    ensures var q := StreamStep(v, s, a); id < |q.execs| && Remembers(v.execs[id], q.execs[id])
  {
    hide Cancel;
    if a.ReadCancel? {
      CancelRemembers(v.execs[id]);
    } else if a.Spawn? {
      assert StreamStep(v, s, a).execs[id] == v.execs[id];
    } else {
      assert StreamStep(v, s, a).execs == v.execs;
    }
  }

  lemma RunningRemembers(v: Service, id: ExecId, step: RunAction)
    requires Inv(v) && Enabled(v, Runs(id, step))
    ensures var q := ExecStep(v, id, step);
      |q.execs| == |v.execs| && Remembers(v.execs[id], q.execs[id])
      && (forall j | 0 <= j < |v.execs| && j != id :: q.execs[j] == v.execs[j])
  {
    assert ExecOk(v.execs[id]);
    hide Inv, RunStep, CanRun, ExecOk, EffectOf;
    RunStepKeeps(v.execs[id], step);
  }

  lemma NextRemembers(v: Service, a: Action, id: ExecId)
    requires Inv(v) && id < |v.execs|
    ensures id < |Next(v, a).execs| && Remembers(v.execs[id], Next(v, a).execs[id])
  {
    hide Inv, StreamStep, ExecStep;
    if Enabled(v, a) {
      match a
      case OpenStream =>
      case Serves(s, act) => ServingRemembers(v, s, act, id);
      case Runs(other, step) => RunningRemembers(v, other, step);
    }
  }

  lemma {:induction false} RunRemembers(v: Service, actions: seq<Action>, id: ExecId)
    requires Inv(v) && id < |v.execs|
    ensures id < |Run(v, actions).execs| && Remembers(v.execs[id], Run(v, actions).execs[id])
  {
    hide Inv, Next;
    if actions != [] {
      RunKeeps(v, actions[..|actions| - 1]);
      RunRemembers(v, actions[..|actions| - 1], id);
      NextRemembers(Run(v, actions[..|actions| - 1]), actions[|actions| - 1], id);
    }
  }

  /** A cancellation a stream reads while its execution is not done is never lost: for as long as the
      run goes on after its start-up, its Process is cancelled and its workers are told, and if it was
      read before the start-up there never are any. It touches no other execution. */
  lemma CancellationIsNeverLost(cap: nat, before: seq<Action>, s: StreamId, after: seq<Action>)
    requires var v := Run(New(cap), before);
      && Enabled(v, Serves(s, ReadCancel)) && v.streams[s].exec.Some?
      && !v.execs[v.streams[s].exec.value].done
    ensures var v := Run(New(cap), before);
      var id := v.streams[s].exec.value;
      var read := Next(v, Serves(s, ReadCancel));
      var w := Run(read, after);
      && v.execs[id].owner == s && id < |w.execs|
      && (forall j | 0 <= j < |v.execs| && j != id :: read.execs[j] == v.execs[j])
      && w.execs[id].asked
      && (Reachable(w.execs[id].pc) ==> w.execs[id].cancelled && (w.execs[id].workers ==> w.execs[id].workersTold))
      && (BeforeStartUp(v.execs[id].pc) ==> !w.execs[id].workers)
  {
    var v := Run(New(cap), before);
    var id := v.streams[s].exec.value;
    var read := Next(v, Serves(s, ReadCancel));
    NewInv(cap);
    RunKeeps(New(cap), before);
    CurrentIsOwn(v, s);
    ReadAsks(v, s);
    NextKeeps(v, Serves(s, ReadCancel));
    hide Inv, Run, Next;
    RunKeeps(read, after);
    RunRemembers(read, after, id);
    InvCancellations(Run(read, after));
  }

  lemma ReadAsks(v: Service, s: StreamId)
    requires Enabled(v, Serves(s, ReadCancel)) && v.streams[s].exec.Some?
    requires !v.execs[v.streams[s].exec.value].done
    ensures var id := v.streams[s].exec.value;
      var read := Next(v, Serves(s, ReadCancel));
      && |read.execs| == |v.execs| && read.execs[id].asked
      && (BeforeStartUp(v.execs[id].pc) ==> read.execs[id].askedEarly)
      && (forall j | 0 <= j < |v.execs| && j != id :: read.execs[j] == v.execs[j])
  {
  }

  lemma CurrentIsOwn(v: Service, s: StreamId)
    requires Inv(v) && s < |v.streams| && v.streams[s].exec.Some?
    ensures v.streams[s].exec.value < |v.execs| && v.execs[v.streams[s].exec.value].owner == s
  {
  }

  /** A client that reads its run's final response finds the slot free: no start can be refused on
      account of a run whose final response is on the wire. */
  lemma AnsweredRunsHoldNothing(cap: nat, actions: seq<Action>, s: StreamId, i: nat)
    requires var v := Run(New(cap), actions);
      s < |v.streams| && i < |v.streams[s].wire| && v.streams[s].wire[i].final
    ensures var v := Run(New(cap), actions);
      var id := v.streams[s].wire[i].exec;
      id < |v.execs| && Held(v.execs[id]) == 0 && v.execs[id].done
  {
    EveryInterleaving(cap, actions);
    var v := Run(New(cap), actions);
    assert Response(v.streams[s].wire[i].exec, true) in v.streams[s].wire;
  }

  /** No run is stuck: until it has ended, one of its own threads can take a step. */
  lemma NoRunIsStuck(e: Exec) returns (a: RunAction)
    requires ExecOk(e) && !e.pc.Ended?
    ensures CanRun(e, a)
  {
    if e.progress.WritingInterim? {
      return WriteInterim;
    } else if e.progress.Snapshotting? {
      return Snapshot(true);
    } else if (e.pc.Joining? || e.pc.UnwindJoin?) && !Joinable(e) {
      return Wake;
    }
    match e.pc
    case Setup => a := Build;
    case Built => a := Publish;
    case Published => a := Launch(true);
    case Starting => a := StartUp;
    case Running => a := Return;
    case Collecting => a := Collect;
    case Answering => a := GiveBack;
    case Leaving => a := GiveBack;
    case AnsweringDone => a := MarkDone;
    case LeavingDone => a := MarkDone;
    case Writing => a := WriteFinal;
    case Destroying => a := Destroy;
    case _ =>
      a := if e.pc.Stopping? || e.pc.UnwindStop? then SetStop
           else if e.pc.Joining? || e.pc.UnwindJoin? then Join else Unpublish;
  }
}
