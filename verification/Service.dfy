/** The execution service: stream threads, run threads and progress threads that share one counted cap.

    One action is one thread's step from one lock region, blocking point or write to the next. The
    actions of all threads interleave freely; a thread that waits for a lock or for another thread is
    an action that is not enabled. */
module Service {
  import opened Tally

  type StreamId = nat
  type ExecId = nat

  /** Where a stream's thread is. */
  datatype StreamPc = Reading | AwaitingPrevious | Admitting | Spawning | Undoing | Closing | Finished

  /** A response on the wire: an execution's interim snapshot, or its final one. */
  datatype Response = Response(exec: ExecId, final: bool)

  datatype Stream = Stream(pc: StreamPc, exec: Option<ExecId>, wire: seq<Response>)

  /** Where a run's thread is: up to Collecting it goes through the run, from there or from any Unwind
      state it is on one of its ways out. */
  datatype RunPc =
    | Setup | Built | Published | Starting | Running | Stopping | Joining | Collecting | Unpublishing
    | Answering | AnsweringDone | Writing
    | UnwindStop | UnwindJoin | UnwindUnpublish
    | Destroying | Leaving | LeavingDone | Ended

  datatype ProgressPc = NoThread | Waiting | Snapshotting | WritingInterim | Stopped

  datatype Lifetime = NotBuilt | Alive | Destroyed

  /** One execution: what its lock guards, its Process, and its two threads.

      `released` is the running thread's own note that it gave its slot back. `givenBack`, `answered`,
      `asked` and `askedEarly` are history: how often the slot was given back, whether the final
      response was written, whether a cancellation was read while it was not done, and whether one was
      before its Process started up. */
  datatype Exec = Exec(
    owner: StreamId, pc: RunPc, progress: ProgressPc, stop: bool, released: bool,
    published: bool, done: bool, cancelRequested: bool,
    process: Lifetime, cancelled: bool, workers: bool, workersTold: bool,
    givenBack: nat, answered: bool, asked: bool, askedEarly: bool)

  datatype Service = Service(
    cap: nat, active: int, streams: seq<Stream>, execs: seq<Exec>, accepted: nat, returned: nat)

  datatype RunAction =
    | Refuse | Throw | Build | Publish | Launch(progress: bool) | StartUp | Return | SetStop | Join
    | Collect | Unpublish | GiveBack | MarkDone | WriteFinal | Destroy
    | Wake | Snapshot(taken: bool) | WriteInterim

  datatype StreamAction =
    | ReadStart | PreviousEnded | Admit | Spawn | SpawnFails | Undo | ReadCancel | ReadLast | Close

  datatype Action =
    | OpenStream
    | Serves(stream: StreamId, act: StreamAction)
    | Runs(exec: ExecId, step: RunAction)

  /** What a step of a run does outside its execution. */
  datatype Effect = Quiet | GivesBack | Sends(final: bool)

  function New(cap: nat): Service {
    Service(cap, 0, [], [], 0, 0)
  }

  function NewExec(owner: StreamId): Exec {
    Exec(owner, Setup, NoThread, false, false, false, false, false, NotBuilt, false, false, false,
         0, false, false, false)
  }

  // ----- A run's threads -----

  /** The progress thread holds its lock except while it waits. */
  predicate ProgressLockFree(e: Exec) {
    !e.progress.Snapshotting? && !e.progress.WritingInterim?
  }

  predicate Joinable(e: Exec) {
    e.progress.NoThread? || e.progress.Stopped?
  }

  predicate CanRun(e: Exec, a: RunAction) {
    match a
    case Refuse => e.pc.Setup?
    case Throw => e.pc.Setup? || e.pc.Published? || e.pc.Starting? || e.pc.Running? || e.pc.Collecting?
    case Build => e.pc.Setup?
    case Publish => e.pc.Built?
    case Launch(_) => e.pc.Published?
    case StartUp => e.pc.Starting?
    case Return => e.pc.Running?
    case SetStop => (e.pc.Stopping? || e.pc.UnwindStop?) && ProgressLockFree(e)
    case Join => (e.pc.Joining? || e.pc.UnwindJoin?) && Joinable(e)
    case Collect => e.pc.Collecting?
    case Unpublish => e.pc.Unpublishing? || e.pc.UnwindUnpublish?
    case GiveBack => e.pc.Answering? || e.pc.Leaving?
    case MarkDone => e.pc.AnsweringDone? || e.pc.LeavingDone?
    case WriteFinal => e.pc.Writing?
    case Destroy => e.pc.Destroying?
    case Wake => e.progress.Waiting?
    case Snapshot(_) => e.progress.Snapshotting?
    case WriteInterim => e.progress.WritingInterim?
  }

  /** A Process that is asked to cancel: what it has running is told, and it starts nothing more. */
  function CancelProcess(e: Exec): Exec {
    e.(cancelled := true, workersTold := e.workersTold || e.workers)
  }

  function RunStep(e: Exec, a: RunAction): Exec {
    match a
    case Refuse => e.(pc := Answering)
    case Throw =>
      if e.pc.Setup? then e.(pc := Destroying)
      else if e.pc.Published? then e.(pc := UnwindUnpublish)
      else e.(pc := UnwindStop)
    case Build => e.(pc := Built, process := Alive)
    case Publish =>
      var q := e.(pc := Published, published := true);
      if e.cancelRequested then CancelProcess(q) else q
    case Launch(progress) => e.(pc := Starting, progress := if progress then Waiting else NoThread)
    case StartUp => e.(pc := Running, workers := !e.cancelled)
    case Return => e.(pc := Stopping)
    case SetStop => e.(pc := if e.pc.Stopping? then Joining else UnwindJoin, stop := true)
    case Join => e.(pc := if e.pc.Joining? then Collecting else UnwindUnpublish)
    case Collect => e.(pc := Unpublishing)
    case Unpublish => e.(pc := if e.pc.Unpublishing? then Answering else Destroying, published := false)
    case GiveBack =>
      if e.released then e.(pc := if e.pc.Answering? then Writing else Ended)
      else e.(pc := if e.pc.Answering? then AnsweringDone else LeavingDone, released := true,
              givenBack := e.givenBack + 1)
    case MarkDone => e.(pc := if e.pc.AnsweringDone? then Writing else Ended, done := true)
    case WriteFinal => e.(pc := Destroying, answered := true)
    case Destroy => e.(pc := Leaving, process := if e.process.Alive? then Destroyed else e.process)
    case Wake => e.(progress := if e.stop then Stopped else Snapshotting)
    case Snapshot(taken) => e.(progress := if taken then WritingInterim else Waiting)
    case WriteInterim => e.(progress := Waiting)
  }

  function EffectOf(e: Exec, a: RunAction): Effect {
    match a
    case GiveBack => if e.released then Quiet else GivesBack
    case WriteFinal => Sends(true)
    case WriteInterim => Sends(false)
    case _ => Quiet
  }

  predicate BeforeStartUp(pc: RunPc) {
    pc.Setup? || pc.Built? || pc.Published? || pc.Starting?
  }

  /** The stream's cancellation of its own execution, under that execution's lock. */
  function Cancel(e: Exec): Exec {
    if e.done then e
    else
      var q := e.(asked := true, askedEarly := e.askedEarly || BeforeStartUp(e.pc));
      if e.published then CancelProcess(q) else q.(cancelRequested := true)
  }

  // ----- The service -----

  predicate HasEnded(v: Service, st: Stream) {
    st.exec.Some? ==> st.exec.value < |v.execs| && v.execs[st.exec.value].pc.Ended?
  }

  predicate CanServe(v: Service, st: Stream, a: StreamAction) {
    match a
    case PreviousEnded => st.pc.AwaitingPrevious? && HasEnded(v, st)
    case Admit => st.pc.Admitting?
    case Spawn => st.pc.Spawning?
    case SpawnFails => st.pc.Spawning?
    case Undo => st.pc.Undoing?
    case Close => st.pc.Closing? && HasEnded(v, st)
    case ReadStart => st.pc.Reading? && (st.exec.Some? ==> st.exec.value < |v.execs|)
    case ReadCancel => st.pc.Reading? && (st.exec.Some? ==> st.exec.value < |v.execs|)
    case ReadLast => st.pc.Reading?
  }

  predicate Enabled(v: Service, a: Action) {
    match a
    case OpenStream => true
    case Serves(s, act) => s < |v.streams| && CanServe(v, v.streams[s], act)
    case Runs(id, step) => id < |v.execs| && v.execs[id].owner < |v.streams| && CanRun(v.execs[id], step)
  }

  function SetStream(v: Service, s: StreamId, st: Stream): Service
    requires s < |v.streams|
  {
    v.(streams := v.streams[s := st])
  }

  /** A step of a stream's thread. */
  function StreamStep(v: Service, s: StreamId, a: StreamAction): Service
    requires Enabled(v, Serves(s, a))
  {
    var st := v.streams[s];
    match a
    case ReadStart =>
      if st.exec.None? then SetStream(v, s, st.(pc := Admitting))
      else if v.execs[st.exec.value].done then SetStream(v, s, st.(pc := AwaitingPrevious))
      else SetStream(v, s, st.(pc := Closing))
    case PreviousEnded => SetStream(v, s, st.(pc := Admitting))
    case Admit =>
      if v.active >= v.cap then SetStream(v, s, st.(pc := Finished))
      else SetStream(v, s, st.(pc := Spawning)).(active := v.active + 1, accepted := v.accepted + 1)
    case Spawn =>
      SetStream(v, s, st.(pc := Reading, exec := Some(|v.execs|))).(execs := v.execs + [NewExec(s)])
    case SpawnFails => SetStream(v, s, st.(pc := Undoing))
    case Undo =>
      SetStream(v, s, st.(pc := Finished, exec := None)).(active := v.active - 1, returned := v.returned + 1)
    case ReadCancel =>
      if st.exec.None? then v
      else v.(execs := v.execs[st.exec.value := Cancel(v.execs[st.exec.value])])
    case ReadLast => SetStream(v, s, st.(pc := Closing))
    case Close => SetStream(v, s, st.(pc := Finished))
  }

  /** A step of one of a run's threads. */
  function ExecStep(v: Service, id: ExecId, step: RunAction): Service
    requires Enabled(v, Runs(id, step))
  {
    var e := v.execs[id];
    var q := v.(execs := v.execs[id := RunStep(e, step)]);
    match EffectOf(e, step)
    case Quiet => q
    case GivesBack => q.(active := v.active - 1, returned := v.returned + 1)
    case Sends(final) =>
      var st := v.streams[e.owner];
      SetStream(q, e.owner, st.(wire := st.wire + [Response(id, final)]))
  }

  function Next(v: Service, a: Action): Service {
    if !Enabled(v, a) then v
    else match a
      case OpenStream => v.(streams := v.streams + [Stream(Reading, None, [])])
      case Runs(id, step) => ExecStep(v, id, step)
      case Serves(s, act) => StreamStep(v, s, act)
  }

  function Run(v: Service, actions: seq<Action>): Service {
    if actions == [] then v else Next(Run(v, actions[..|actions| - 1]), actions[|actions| - 1])
  }
}
