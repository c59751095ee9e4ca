/** When the service accepts a start and when a run gets its workers, counted from the actions that came before,
    over every interleaving. */
module ServiceStarts {
  import opened Tally
  import opened Service
  import opened ServiceSafety
  import opened ServiceRuns

  // ----- Slots, from the actions -----

  /** The stream's start goes through. */
  predicate AdmittedNow(v: Service, a: Action) {
    a.Serves? && a.act.Admit? && Enabled(v, a) && Next(v, a).streams[a.stream].pc.Spawning?
  }

  /** How many starts went through. */
  function Admissions(v: Service, actions: seq<Action>): nat {
    if actions == [] then 0
    else
      var k := |actions| - 1;
      Admissions(v, actions[..k]) + if AdmittedNow(Run(v, actions[..k]), actions[k]) then 1 else 0
  }

  /** The run has come to one of its ways out. */
  predicate GaveBack(v: Service, actions: seq<Action>, id: ExecId) {
    actions != []
    && var k := |actions| - 1;
       || GaveBack(v, actions[..k], id)
       || (actions[k] == Runs(id, GiveBack) && Enabled(Run(v, actions[..k]), actions[k]))
  }

  /** A slot comes back: a run is on its way out for the first time, or a start that went through could not
      be turned into a run. */
  predicate Returns(v: Service, before: seq<Action>, a: Action) {
    && Enabled(Run(v, before), a)
    && ((a.Runs? && a.step.GiveBack? && !GaveBack(v, before, a.exec)) || (a.Serves? && a.act.Undo?))
  }

  /** How many slots came back. */
  function Returned(v: Service, actions: seq<Action>): nat {
    if actions == [] then 0
    else
      var k := |actions| - 1;
      Returned(v, actions[..k]) + if Returns(v, actions[..k], actions[k]) then 1 else 0
  }

  ghost predicate GaveBackIs(v: Service, actions: seq<Action>, w: Service) {
    forall id: ExecId :: GaveBack(v, actions, id) <==> id < |w.execs| && w.execs[id].released
  }

  /** A step that leaves alone what is known, and goes no further back. */
  predicate Onward(e: Exec, q: Exec) {
    && q.workers == e.workers && q.cancelRequested == e.cancelRequested && q.cancelled == e.cancelled
    && (BeforeStartUp(q.pc) ==> BeforeStartUp(e.pc) && q.published == e.published)
    && (q.pc.Setup? || q.pc.Built? ==> e.pc.Setup? || e.pc.Built?)
    && (q.pc.Published? || q.pc.Starting? ==> e.pc.Published? || e.pc.Starting?)
  }

  lemma ThrowIs(e: Exec)
    requires CanRun(e, Throw)
    ensures RunStep(e, Throw)
            == e.(pc := if e.pc.Setup? then Destroying else if e.pc.Published? then UnwindUnpublish else UnwindStop)
  {
  }

  lemma ThrowOnward(e: Exec)
    requires CanRun(e, Throw)
    ensures Onward(e, RunStep(e, Throw))
  {
    hide RunStep, CanRun;
    ThrowIs(e);
  }

  lemma GiveBackIs(e: Exec)
    requires e.pc.Answering? || e.pc.Leaving?
    ensures Onward(e, RunStep(e, GiveBack))
  {
    if e.released {
      if e.pc.Answering? {
      } else {
      }
    } else if e.pc.Answering? {
    } else {
    }
  }

  lemma ReleasedNext(e: Exec, a: RunAction)
    requires ExecOk(e) && CanRun(e, a)
    ensures RunStep(e, a).released == (e.released || a.GiveBack?)
  {
    hide RunStep, CanRun, ExecOk;
    RunStepKeeps(e, a);
  }

  lemma ServingReleases(v: Service, s: StreamId, a: StreamAction)
    requires Enabled(v, Serves(s, a))
    ensures var w := StreamStep(v, s, a);
      && |v.execs| <= |w.execs| && (forall id | 0 <= id < |v.execs| :: w.execs[id].released == v.execs[id].released)
      && (forall id | |v.execs| <= id < |w.execs| :: !w.execs[id].released)
  {
  }

  /** Who has been released, after one action. */
  lemma NextReleases(v: Service, a: Action, id: ExecId)
    requires Inv(v)
    ensures var w := Next(v, a);
      && |v.execs| <= |w.execs|
      && (id < |w.execs| && w.execs[id].released <==>
            (id < |v.execs| && v.execs[id].released) || (a == Runs(id, GiveBack) && Enabled(v, a)))
  {
    hide RunStep, StreamStep, CanRun, EffectOf;
    if Enabled(v, a) {
      match a
      case OpenStream =>
      case Serves(s, act) => ServingReleases(v, s, act);
      case Runs(other, step) =>
        assert ExecOk(v.execs[other]);
        hide ExecOk, Inv;
        ReleasedNext(v.execs[other], step);
    }
  }

  lemma {:induction false} GaveBackReleased(cap: nat, actions: seq<Action>)
    ensures GaveBackIs(New(cap), actions, Run(New(cap), actions))
  {
    if actions != [] {
      var k := |actions| - 1;
      var v := Run(New(cap), actions[..k]);
      GaveBackReleased(cap, actions[..k]);
      NewInv(cap);
      RunKeeps(New(cap), actions[..k]);
      hide Inv;
      forall id: ExecId
        ensures GaveBack(New(cap), actions, id)
                <==> id < |Run(New(cap), actions).execs| && Run(New(cap), actions).execs[id].released
      {
        NextReleases(v, actions[k], id);
        hide Next, Enabled;
      }
    }
  }

  lemma ServingCounts(v: Service, s: StreamId, a: StreamAction)
    requires Enabled(v, Serves(s, a))
    ensures var w := StreamStep(v, s, a);
      w.active == v.active + (if a.Admit? && w.streams[s].pc.Spawning? then 1 else 0) - if a.Undo? then 1 else 0
  {
    hide Cancel;
  }

  lemma NextCounts(v: Service, a: Action)
    ensures Next(v, a).active
      == v.active + (if AdmittedNow(v, a) then 1 else 0)
         - if && Enabled(v, a)
              && ((a.Runs? && a.step.GiveBack? && !v.execs[a.exec].released) || (a.Serves? && a.act.Undo?))
           then 1 else 0
  {
    hide RunStep, StreamStep, CanRun;
    if Enabled(v, a) && a.Serves? {
      ServingCounts(v, a.stream, a.act);
    }
  }

  /** The count that admission looks at is the starts that went through and whose slot has not come back. */
  lemma {:induction false} SlotsFromActions(cap: nat, actions: seq<Action>)
    ensures Run(New(cap), actions).active == Admissions(New(cap), actions) - Returned(New(cap), actions)
  {
    if actions != [] {
      var k := |actions| - 1;
      var v := Run(New(cap), actions[..k]);
      SlotsFromActions(cap, actions[..k]);
      GaveBackReleased(cap, actions[..k]);
      NextCounts(v, actions[k]);
      hide Next, AdmittedNow, GaveBack;
      if actions[k].Runs? {
        assert GaveBack(New(cap), actions[..k], actions[k].exec)
               <==> actions[k].exec < |v.execs| && v.execs[actions[k].exec].released;
      }
    }
  }

  /** A start is refused exactly when the starts that went through and whose slot has not come back are as many
      as the cap; one that is not refused has gone through, and holds a slot. */
  lemma AdmitIff(cap: nat, before: seq<Action>, s: StreamId)
    requires Enabled(Run(New(cap), before), Serves(s, Admit))
    ensures var v := Run(New(cap), before);
      var w := Next(v, Serves(s, Admit));
      var taken := Admissions(New(cap), before) - Returned(New(cap), before);
      && |w.streams| == |v.streams| && 0 <= taken <= cap
      && (w.streams[s].pc.Finished? <==> taken == cap)
      && (taken < cap <==> AdmittedNow(v, Serves(s, Admit)))
      && (taken < cap ==> Holding(w.streams[s]) == 1 && w.active == taken + 1)
  {
    SlotsFromActions(cap, before);
    EveryInterleaving(cap, before);
    hide Run, Admissions, Returned;
  }

  // ----- Workers, from the actions -----

  predicate StartedUp(v: Service, actions: seq<Action>, id: ExecId) {
    actions != []
    && var k := |actions| - 1;
       || StartedUp(v, actions[..k], id)
       || (actions[k] == Runs(id, StartUp) && Enabled(Run(v, actions[..k]), actions[k]))
  }

  /** A stream reads a cancellation of its current execution, which is not done. */
  predicate CancelRead(v: Service, a: Action, id: ExecId) {
    && a.Serves? && a.act.ReadCancel? && Enabled(v, a) && v.streams[a.stream].exec == Some(id)
    && id < |v.execs| && !v.execs[id].done
  }

  predicate CancelledEarly(v: Service, actions: seq<Action>, id: ExecId) {
    actions != []
    && var k := |actions| - 1;
       || CancelledEarly(v, actions[..k], id)
       || (CancelRead(Run(v, actions[..k]), actions[k], id) && !StartedUp(v, actions[..k], id))
  }

  /** What a run knows of its start-up and of a cancellation before it. */
  predicate WorkersOk(e: Exec, started: bool, early: bool) {
    && (e.workers <==> started && !early)
    && (BeforeStartUp(e.pc) ==> !started)
    && (e.pc.Setup? || e.pc.Built? ==> (e.cancelRequested <==> early) && !e.cancelled && !e.published)
    && (e.pc.Published? || e.pc.Starting? ==> (e.cancelled <==> early) && e.published)
  }

  lemma OtherStep(e: Exec, a: RunAction)
    requires CanRun(e, a) && !a.Publish? && !a.StartUp?
    ensures Onward(e, RunStep(e, a))
  {
    if a.Throw? {
      ThrowOnward(e);
      hide RunStep, Onward;
    } else if a.GiveBack? {
      GiveBackIs(e);
      hide RunStep, Onward;
    } else {
      ElseOnward(e, a);
      hide RunStep, Onward;
    }
  }

  lemma ElseOnward(e: Exec, a: RunAction)
    requires CanRun(e, a) && !a.Publish? && !a.StartUp? && !a.Throw? && !a.GiveBack?
    ensures Onward(e, RunStep(e, a))
  {
  }

  lemma StepWorkers(e: Exec, a: RunAction, started: bool, early: bool)
    requires WorkersOk(e, started, early) && CanRun(e, a)
    ensures WorkersOk(RunStep(e, a), started || a.StartUp?, early)
  {
    if a.Publish? {
      PublishWorkers(e, started, early);
    } else if a.StartUp? {
      StartUpWorkers(e, started, early);
    } else {
      OtherStep(e, a);
      hide RunStep, CanRun;
    }
  }

  lemma PublishWorkers(e: Exec, started: bool, early: bool)
    requires WorkersOk(e, started, early) && CanRun(e, Publish)
    ensures WorkersOk(RunStep(e, Publish), started, early)
  {
  }

  lemma StartUpWorkers(e: Exec, started: bool, early: bool)
    requires WorkersOk(e, started, early) && CanRun(e, StartUp)
    ensures WorkersOk(RunStep(e, StartUp), true, early)
  {
  }

  lemma CancelWorkers(e: Exec, started: bool, early: bool)
    requires WorkersOk(e, started, early) && !e.done
    ensures WorkersOk(Cancel(e), started, early || !started)
  {
  }

  ghost predicate WorkersAre(v: Service, actions: seq<Action>, w: Service, id: ExecId) {
    if id < |w.execs| then WorkersOk(w.execs[id], StartedUp(v, actions, id), CancelledEarly(v, actions, id))
    else !StartedUp(v, actions, id) && !CancelledEarly(v, actions, id)
  }

  lemma LastStarted(v: Service, actions: seq<Action>, id: ExecId)
    requires actions != []
    ensures var k := |actions| - 1;
      var u, a := Run(v, actions[..k]), actions[k];
      && (StartedUp(v, actions, id) <==> StartedUp(v, actions[..k], id) || (a == Runs(id, StartUp) && Enabled(u, a)))
      && (CancelledEarly(v, actions, id) <==>
            CancelledEarly(v, actions[..k], id) || (CancelRead(u, a, id) && !StartedUp(v, actions[..k], id)))
  {
  }

  /** What an action does to one execution. */
  lemma NextExec(v: Service, a: Action, id: ExecId)
    ensures var w := Next(v, a);
      && |v.execs| <= |w.execs|
      && (id < |v.execs| ==>
            w.execs[id] == (if CancelRead(v, a, id) then Cancel(v.execs[id])
                            else if a.Runs? && a.exec == id && Enabled(v, a) then RunStep(v.execs[id], a.step)
                            else v.execs[id]))
      && (|v.execs| <= id < |w.execs| ==> exists s: StreamId :: w.execs[id] == NewExec(s))
  {
    hide RunStep, CanRun, EffectOf;
    if Enabled(v, a) {
      match a
      case OpenStream =>
      case Runs(other, step) =>
      case Serves(s, act) => ServingExec(v, s, act, id);
    }
  }

  lemma ServingExec(v: Service, s: StreamId, a: StreamAction, id: ExecId)
    requires Enabled(v, Serves(s, a))
    ensures var w := StreamStep(v, s, a);
      && |v.execs| <= |w.execs|
      && (id < |v.execs| ==>
            w.execs[id] == if CancelRead(v, Serves(s, a), id) then Cancel(v.execs[id]) else v.execs[id])
      && (|v.execs| <= id < |w.execs| ==> w.execs[id] == NewExec(s))
  {
  }

  lemma NewWorkers(e: Exec, s: StreamId)
    requires e == NewExec(s)
    ensures WorkersOk(e, false, false)
  {
  }

  lemma NextWorkers(v: Service, actions: seq<Action>, id: ExecId)
    requires actions != [] && WorkersAre(v, actions[..|actions| - 1], Run(v, actions[..|actions| - 1]), id)
    ensures WorkersAre(v, actions, Run(v, actions), id)
  {
    var k := |actions| - 1;
    var u, a := Run(v, actions[..k]), actions[k];
    var w := Run(v, actions);
    assert w == Next(u, a);
    LastStarted(v, actions, id);
    NextExec(u, a, id);
    if a.Runs? {
      assert Enabled(u, a) ==> a.exec < |u.execs| && CanRun(u.execs[a.exec], a.step);
    }
    hide Run, Next, StartedUp, CancelledEarly, WorkersOk, RunStep, Cancel, CanRun;
    var started, early := StartedUp(v, actions[..k], id), CancelledEarly(v, actions[..k], id);
    if id < |u.execs| {
      if CancelRead(u, a, id) {
        CancelWorkers(u.execs[id], started, early);
      } else if a.Runs? && a.exec == id && Enabled(u, a) {
        StepWorkers(u.execs[id], a.step, started, early);
      }
    } else if id < |w.execs| {
      var s: StreamId :| w.execs[id] == NewExec(s);
      NewWorkers(w.execs[id], s);
    }
  }

  /** A run's workers are started exactly when it comes to its start-up without a cancellation that its stream
      read before. */
  lemma {:induction false} WorkersIff(cap: nat, actions: seq<Action>, id: ExecId)
    ensures var v := New(cap);
      && WorkersAre(v, actions, Run(v, actions), id)
      && (id < |Run(v, actions).execs| ==>
            (Run(v, actions).execs[id].workers <==> StartedUp(v, actions, id) && !CancelledEarly(v, actions, id)))
  {
    if actions != [] {
      WorkersIff(cap, actions[..|actions| - 1], id);
      NextWorkers(New(cap), actions, id);
    }
    hide Run, StartedUp, CancelledEarly;
  }
}
