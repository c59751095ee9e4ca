/** A group of executions that start together, one goroutine each, and the refusal that stops them all.

    One action is one step of one goroutine, or the caller's cancellation; they interleave freely. The
    context of the group has one cause, and what sets it first sets it for good. */
module RunGroup {
  import opened Tally

  /** A refused start: which execution's, and by which backend. */
  datatype Refusal = Refusal(exec: nat, backend: string)

  datatype Cause = NotStopped | AtCap(refusal: Refusal) | ByCaller

  datatype Failure = Failure(backend: string, busy: bool)

  /** What dispatching an execution came to: it could not be dispatched, or these backends failed and so
      many answered; `passes` is what judging the answers would say. */
  datatype Dispatched = NotDispatched | Came(failed: seq<Failure>, answers: nat, readable: bool, passes: bool)

  datatype Error = CapError(refusal: Refusal) | Cancelled | DispatchError | NoAnswer | Unreadable

  datatype Report = Report(error: Option<Error>, failed: seq<Failure>, judged: bool, pass: bool)

  datatype Runner = Going | Returned(came: Dispatched) | PastTheCap(came: Dispatched) | Reported(report: Report)

  /** `refusals` is history. */
  datatype Group = Group(cause: Cause, runners: seq<Runner>, refusals: nat)

  datatype Action = Refuse(exec: nat, backend: string) | Cancel | Return(exec: nat, came: Dispatched)
    | Check(exec: nat) | Judge(exec: nat)

  function New(count: nat): Group {
    Group(NotStopped, seq(count, i => Going), 0)
  }

  function Busy(failed: seq<Failure>): seq<Failure> {
    if failed == [] then []
    else Busy(failed[..|failed| - 1]) + if failed[|failed| - 1].busy then [failed[|failed| - 1]] else []
  }

  function Stopped(g: Group, cause: Cause): Group {
    if g.cause.NotStopped? then g.(cause := cause) else g
  }

  /** A report with nothing judged. */
  function Unjudged(error: Error, failed: seq<Failure>): Report {
    Report(Some(error), failed, false, false)
  }

  /** What a runner makes of its answers, once it has seen that the group was not stopped at a cap. */
  function Judged(came: Dispatched, cause: Cause): Report {
    match came
    case NotDispatched => Unjudged(DispatchError, [])
    case Came(failed, answers, readable, passes) =>
      if !cause.NotStopped? then Unjudged(Cancelled, failed)
      else if answers == 0 then Unjudged(NoAnswer, failed)
      else if !readable then Unjudged(Unreadable, failed)
      else Report(None, failed, true, passes && failed == [])
  }

  predicate Enabled(g: Group, a: Action) {
    match a
    case Refuse(i, _) => i < |g.runners| && g.runners[i].Going?
    case Cancel => true
    case Return(i, _) => i < |g.runners| && g.runners[i].Going?
    case Check(i) => i < |g.runners| && g.runners[i].Returned?
    case Judge(i) => i < |g.runners| && g.runners[i].PastTheCap?
  }

  function Step(g: Group, a: Action): Group
    requires Enabled(g, a)
  {
    match a
    case Refuse(i, backend) => Stopped(g, AtCap(Refusal(i, backend))).(refusals := g.refusals + 1)
    case Cancel => Stopped(g, ByCaller)
    case Return(i, came) => g.(runners := g.runners[i := Returned(came)])
    case Check(i) =>
      var came := g.runners[i].came;
      if came.Came? && g.cause.AtCap? then
        g.(runners := g.runners[i := Reported(Unjudged(CapError(g.cause.refusal), Busy(came.failed)))])
      else g.(runners := g.runners[i := PastTheCap(came)])
    case Judge(i) => g.(runners := g.runners[i := Reported(Judged(g.runners[i].came, g.cause))])
  }

  function Next(g: Group, a: Action): Group {
    if Enabled(g, a) then Step(g, a) else g
  }

  function Run(g: Group, actions: seq<Action>): Group {
    if actions == [] then g else Next(Run(g, actions[..|actions| - 1]), actions[|actions| - 1])
  }

  predicate Joined(g: Group) {
    forall i | 0 <= i < |g.runners| :: g.runners[i].Reported?
  }

  /** A report once all have joined: a group stopped at a cap was stopped for all of them. */
  function Final(report: Report, cause: Cause): Report {
    if cause.AtCap? && report.error != Some(CapError(cause.refusal))
    then Unjudged(CapError(cause.refusal), Busy(report.failed)) else report
  }

  predicate CarriesCap(report: Report) {
    report.error.Some? && report.error.value.CapError?
  }

  method FinishGroup(g: Group) returns (reports: seq<Report>)
    requires Joined(g)
    ensures |reports| == |g.runners|
    ensures forall i | 0 <= i < |reports| :: reports[i] == Final(g.runners[i].report, g.cause)
  {
    reports := [];
    for i := 0 to |g.runners|
      invariant |reports| == i && forall k | 0 <= k < i :: reports[k] == g.runners[k].report
    {
      reports := reports + [g.runners[i].report];
    }
    if g.cause.AtCap? {
      for i := 0 to |reports|
        invariant |reports| == |g.runners|
        invariant forall k | 0 <= k < |reports| ::
          reports[k] == if k < i then Final(g.runners[k].report, g.cause) else g.runners[k].report
      {
        if reports[i].error != Some(CapError(g.cause.refusal)) {
          var refusals := [];
          for f := 0 to |reports[i].failed|
            invariant refusals == Busy(reports[i].failed[..f])
          {
            assert reports[i].failed[..f + 1][..f] == reports[i].failed[..f];
            if reports[i].failed[f].busy {
              refusals := refusals + [reports[i].failed[f]];
            }
          }
          assert reports[i].failed[..|reports[i].failed|] == reports[i].failed;
          reports := reports[i := Unjudged(CapError(g.cause.refusal), refusals)];
        }
      }
    }
  }

  // ----- Every interleaving -----

  /** The failures kept are refusals. */
  predicate OnlyRefusals(failed: seq<Failure>) {
    forall i | 0 <= i < |failed| :: failed[i].busy
  }

  lemma {:induction false} BusyOnly(failed: seq<Failure>)
    ensures OnlyRefusals(Busy(failed))
  {
    if failed != [] {
      BusyOnly(failed[..|failed| - 1]);
    }
  }

  /** All the refusals among these failures, and nothing else. */
  ghost predicate RefusalsOf(named: seq<Failure>, failed: seq<Failure>) {
    forall f: Failure :: multiset(named)[f] == if f.busy then multiset(failed)[f] else 0
  }

  lemma {:induction false} BusyIs(failed: seq<Failure>)
    ensures RefusalsOf(Busy(failed), failed)
  {
    if failed != [] {
      var k := |failed| - 1;
      BusyIs(failed[..k]);
      assert failed == failed[..k] + [failed[k]];
    }
  }

  /** A report that says it was stopped at a cap says the group's cause, and was not judged. */
  predicate Honest(r: Report, cause: Cause) {
    && (r.pass ==> r.judged) && (r.judged ==> r.error.None?)
    && (CarriesCap(r) ==>
          cause == AtCap(r.error.value.refusal) && OnlyRefusals(r.failed))
  }

  ghost predicate Inv(g: Group) {
    && (g.refusals > 0 ==> !g.cause.NotStopped?)
    && (g.cause.AtCap? ==> g.refusals > 0 && g.cause.refusal.exec < |g.runners|)
    && forall i | 0 <= i < |g.runners| && g.runners[i].Reported? :: Honest(g.runners[i].report, g.cause)
  }

  lemma NextKeeps(g: Group, a: Action)
    requires Inv(g)
    ensures Inv(Next(g, a)) && |Next(g, a).runners| == |g.runners|
    ensures !g.cause.NotStopped? ==> Next(g, a).cause == g.cause
  {
    if Enabled(g, a) && a.Check? {
      var came := g.runners[a.exec].came;
      if came.Came? {
        BusyOnly(came.failed);
      }
    }
  }

  lemma {:induction false} RunKeeps(g: Group, actions: seq<Action>)
    requires Inv(g)
    ensures Inv(Run(g, actions)) && |Run(g, actions).runners| == |g.runners|
    ensures !g.cause.NotStopped? ==> Run(g, actions).cause == g.cause
  {
    if actions != [] {
      RunKeeps(g, actions[..|actions| - 1]);
      NextKeeps(Run(g, actions[..|actions| - 1]), actions[|actions| - 1]);
    }
  }

  /** Under every interleaving: once all have joined, either every report carries the one cap error that
      was first, with nothing passed, nothing judged and only refusals named, or none carries any. */
  lemma OneOutcome(count: nat, actions: seq<Action>)
    requires Joined(Run(New(count), actions))
    ensures var g := Run(New(count), actions);
      && |g.runners| == count
      && (g.cause.AtCap? ==> forall i | 0 <= i < count ::
            var r := Final(g.runners[i].report, g.cause);
            r.error == Some(CapError(g.cause.refusal)) && !r.pass && !r.judged && OnlyRefusals(r.failed))
      && (!g.cause.AtCap? ==> forall i | 0 <= i < count ::
            !CarriesCap(Final(g.runners[i].report, g.cause)))
  {
    RunKeeps(New(count), actions);
    var g := Run(New(count), actions);
    forall i | 0 <= i < count
      ensures Honest(g.runners[i].report, g.cause) && OnlyRefusals(Busy(g.runners[i].report.failed))
    {
      BusyOnly(g.runners[i].report.failed);
    }
  }

  /** Action `k` refuses an execution that is still going. */
  predicate Refuses(count: nat, actions: seq<Action>, k: nat)
    requires k < |actions|
  {
    actions[k].Refuse? && Enabled(Run(New(count), actions[..k]), actions[k])
  }

  predicate CancelledBefore(actions: seq<Action>, k: nat)
    requires k <= |actions|
  {
    exists m | 0 <= m < k :: actions[m].Cancel?
  }

  /** Some start was refused, and the caller had not cancelled before. */
  predicate RefusedFirst(count: nat, actions: seq<Action>) {
    exists k | 0 <= k < |actions| :: Refuses(count, actions, k) && !CancelledBefore(actions, k)
  }

  lemma RefusesEarlier(count: nat, actions: seq<Action>, n: nat, k: nat)
    requires k < n <= |actions|
    ensures Refuses(count, actions[..n], k) == Refuses(count, actions, k)
    ensures CancelledBefore(actions[..n], k) == CancelledBefore(actions, k)
  {
    assert actions[..n][..k] == actions[..k];
  }

  lemma RefusedFirstNext(count: nat, actions: seq<Action>)
    requires actions != []
    ensures var n := |actions| - 1;
      RefusedFirst(count, actions)
      <==> RefusedFirst(count, actions[..n]) || (Refuses(count, actions, n) && !CancelledBefore(actions, n))
  {
    hide Refuses, CancelledBefore;
    var n := |actions| - 1;
    forall k | 0 <= k < n
      ensures Refuses(count, actions[..n], k) == Refuses(count, actions, k)
      ensures CancelledBefore(actions[..n], k) == CancelledBefore(actions, k)
    {
      RefusesEarlier(count, actions, n, k);
    }
  }

  lemma CancelledNext(actions: seq<Action>)
    requires actions != []
    ensures var n := |actions| - 1;
      && CancelledBefore(actions, n) == CancelledBefore(actions[..n], n)
      && (CancelledBefore(actions, n + 1) <==> CancelledBefore(actions, n) || actions[n].Cancel?)
  {
  }

  /** What the cause of the group says of the run so far. */
  lemma {:induction false} CauseIs(count: nat, actions: seq<Action>)
    ensures var cause := Run(New(count), actions).cause;
      && (cause.AtCap? <==> RefusedFirst(count, actions))
      && (cause.NotStopped? ==> !CancelledBefore(actions, |actions|))
      && (cause.ByCaller? ==> CancelledBefore(actions, |actions|))
  {
    if actions != [] {
      var n := |actions| - 1;
      CauseIs(count, actions[..n]);
      RefusedFirstNext(count, actions);
      CancelledNext(actions);
      CauseNext(count, actions);
      hide RefusedFirst, CancelledBefore, Refuses, Run;
    }
  }

  lemma CauseNext(count: nat, actions: seq<Action>)
    requires actions != []
    ensures var n := |actions| - 1;
      var was, cause := Run(New(count), actions[..n]).cause, Run(New(count), actions).cause;
      && (!was.NotStopped? ==> cause == was)
      && (was.NotStopped? ==>
            && (cause.AtCap? <==> Refuses(count, actions, n))
            && (cause.ByCaller? <==> actions[n].Cancel?))
  {
    var n := |actions| - 1;
    var g := Run(New(count), actions[..n]);
    assert Run(New(count), actions) == Next(g, actions[n]);
    hide Run, New, Next, Enabled;
    CauseAfter(g, actions[n]);
  }

  lemma CauseAfter(g: Group, a: Action)
    ensures !g.cause.NotStopped? ==> Next(g, a).cause == g.cause
    ensures g.cause.NotStopped? ==> (Next(g, a).cause.AtCap? <==> a.Refuse? && Enabled(g, a))
    ensures g.cause.NotStopped? ==> (Next(g, a).cause.ByCaller? <==> a.Cancel?)
  {
    hide Judged, Busy;
  }

  /** The reports of a group that has joined carry a cap error, every one of them, exactly when some start
      was refused with no cancellation by the caller before it; otherwise none does. */
  lemma RefusedIff(count: nat, actions: seq<Action>)
    requires count > 0 && Joined(Run(New(count), actions))
    ensures var g := Run(New(count), actions);
      && |g.runners| == count
      && ((forall i | 0 <= i < count :: CarriesCap(Final(g.runners[i].report, g.cause)))
          <==> RefusedFirst(count, actions))
      && ((exists i | 0 <= i < count :: CarriesCap(Final(g.runners[i].report, g.cause)))
          <==> RefusedFirst(count, actions))
  {
    OneOutcome(count, actions);
    CauseIs(count, actions);
    hide RefusedFirst, Run;
    var g := Run(New(count), actions);
    assert CarriesCap(Final(g.runners[0].report, g.cause)) <==> g.cause.AtCap?;
  }

  // ----- What an execution is reported as -----

  /** The last action happens. */
  predicate Happens(count: nat, actions: seq<Action>) {
    actions != [] && Enabled(Run(New(count), actions[..|actions| - 1]), actions[|actions| - 1])
  }

  /** What the execution's dispatch came to. */
  function CameOf(count: nat, actions: seq<Action>, i: nat): Option<Dispatched> {
    if actions == [] then None
    else
      var a := actions[|actions| - 1];
      if Happens(count, actions) && a.Return? && a.exec == i then Some(a.came)
      else CameOf(count, actions[..|actions| - 1], i)
  }

  /** How many actions there were before the one that judges the execution. */
  function JudgedAt(count: nat, actions: seq<Action>, i: nat): (k: Option<nat>)
    ensures k.Some? ==> k.value < |actions|
  {
    if actions == [] then None
    else if Happens(count, actions) && actions[|actions| - 1] == Judge(i) then Some(|actions| - 1)
    else JudgedAt(count, actions[..|actions| - 1], i)
  }

  /** How far an execution's goroutine has come, from the actions. */
  ghost predicate Known(count: nat, actions: seq<Action>, i: nat, runner: Runner) {
    var came, k := CameOf(count, actions, i), JudgedAt(count, actions, i);
    match runner
    case Going => came.None? && k.None?
    case Returned(c) => came == Some(c) && k.None?
    case PastTheCap(c) => came == Some(c) && k.None?
    case Reported(r) =>
      && came.Some?
      && if k.Some? then r == Judged(came.value, Run(New(count), actions[..k.value]).cause)
         else CarriesCap(r) && came.value.Came? && r.failed == Busy(came.value.failed)
  }

  lemma LastKnown(count: nat, actions: seq<Action>, i: nat)
    requires actions != []
    ensures var before, a := actions[..|actions| - 1], actions[|actions| - 1];
      && CameOf(count, actions, i)
         == (if Happens(count, actions) && a.Return? && a.exec == i then Some(a.came)
             else CameOf(count, before, i))
      && JudgedAt(count, actions, i)
         == (if Happens(count, actions) && a == Judge(i) then Some(|before|) else JudgedAt(count, before, i))
  {
  }

  /** What an action does to one goroutine. */
  lemma RunnerNext(g: Group, a: Action, i: nat)
    requires i < |g.runners|
    ensures |Next(g, a).runners| == |g.runners|
    ensures var was, now := g.runners[i], Next(g, a).runners[i];
      if !Enabled(g, a) || a.Refuse? || a.Cancel? || a.exec != i then now == was
      else match a
        case Return(_, came) => was.Going? && now == Returned(came)
        case Check(_) =>
          && was.Returned?
          && if now.Reported? then
               CarriesCap(now.report) && was.came.Came? && now.report.failed == Busy(was.came.failed)
             else now == PastTheCap(was.came)
        case Judge(_) => was.PastTheCap? && now == Reported(Judged(was.came, g.cause))
        case _ => true
  {
  }

  lemma EarlierCause(count: nat, actions: seq<Action>, k: nat)
    requires actions != [] && k <= |actions| - 1
    ensures actions[..|actions| - 1][..k] == actions[..k]
  {
  }

  lemma NextKnown(count: nat, actions: seq<Action>, i: nat)
    requires actions != [] && i < |Run(New(count), actions[..|actions| - 1]).runners|
    requires Known(count, actions[..|actions| - 1], i, Run(New(count), actions[..|actions| - 1]).runners[i])
    ensures i < |Run(New(count), actions).runners| && Known(count, actions, i, Run(New(count), actions).runners[i])
  {
    var before, a := actions[..|actions| - 1], actions[|actions| - 1];
    var g := Run(New(count), before);
    assert Run(New(count), actions) == Next(g, a);
    LastKnown(count, actions, i);
    RunnerNext(g, a, i);
    if JudgedAt(count, before, i).Some? {
      EarlierCause(count, actions, JudgedAt(count, before, i).value);
    }
    hide Run, New, Next, CameOf, JudgedAt, Enabled, Judged;
  }

  lemma {:induction false} RunnersKnown(count: nat, actions: seq<Action>, i: nat)
    requires i < count
    ensures |Run(New(count), actions).runners| == count
    ensures Known(count, actions, i, Run(New(count), actions).runners[i])
  {
    if actions != [] {
      RunnersKnown(count, actions[..|actions| - 1], i);
      NextKnown(count, actions, i);
      RunKeeps(New(count), actions);
    }
    hide Run, Known;
  }

  lemma EarlierRefusal(count: nat, actions: seq<Action>, k: nat)
    requires k <= |actions| && RefusedFirst(count, actions[..k])
    ensures RefusedFirst(count, actions)
  {
    var j :| 0 <= j < k && Refuses(count, actions[..k], j) && !CancelledBefore(actions[..k], j);
    RefusesEarlier(count, actions, k, j);
    hide Refuses, CancelledBefore;
  }

  /** The cause by the time of action `k`, in a group in which no refusal came first. */
  lemma CauseBy(count: nat, actions: seq<Action>, k: nat)
    requires k <= |actions| && !RefusedFirst(count, actions)
    ensures var cause := Run(New(count), actions[..k]).cause;
      !cause.AtCap? && (cause.NotStopped? <==> !CancelledBefore(actions, k))
  {
    CauseIs(count, actions[..k]);
    if RefusedFirst(count, actions[..k]) {
      EarlierRefusal(count, actions, k);
    }
    assert CancelledBefore(actions[..k], k) == CancelledBefore(actions, k);
    hide RefusedFirst, Run, CancelledBefore;
  }

  /** Of the failed backends, a report of a group that was stopped names those that refused. */
  ghost predicate NamesRefusals(r: Report, came: Dispatched) {
    if came.Came? then RefusalsOf(r.failed, came.failed) else r.failed == []
  }

  lemma FinalNames(report: Report, cause: Cause, came: Dispatched)
    requires cause.AtCap?
    requires || (CarriesCap(report) && came.Came? && report.failed == Busy(came.failed))
             || exists c: Cause :: report == Judged(came, c) && !CarriesCap(report)
    ensures NamesRefusals(Final(report, cause), came)
  {
    assert Busy([]) == [];
    if came.Came? {
      BusyIs(came.failed);
      BusyTwice(came.failed);
      hide Busy;
    }
  }

  lemma {:induction false} BusyTwice(failed: seq<Failure>)
    ensures Busy(Busy(failed)) == Busy(failed)
  {
    if failed != [] {
      var k := |failed| - 1;
      BusyTwice(failed[..k]);
      var front := Busy(failed[..k]);
      if failed[k].busy {
        assert (front + [failed[k]])[..|front|] == front;
      } else {
        assert front + [] == front;
      }
    }
  }

  /** Whatever the interleaving, of an execution of a group that has joined: if some start was refused with no
      cancellation before, it carries the cap error. If not, it was judged, and its report is of what its own
      dispatch came to: not dispatched, cancelled if the caller had cancelled by then, no answer, unreadable
      answers, or judged, and then it passes exactly if the answers do and no backend failed. */
  lemma ReportIs(count: nat, actions: seq<Action>, i: nat)
    requires i < count && Joined(Run(New(count), actions))
    ensures var g := Run(New(count), actions);
      var came, k := CameOf(count, actions, i), JudgedAt(count, actions, i);
      && |g.runners| == count && came.Some?
      && var r := Final(g.runners[i].report, g.cause);
         && (CarriesCap(r) <==> RefusedFirst(count, actions))
         && (RefusedFirst(count, actions) ==> !r.pass && !r.judged && NamesRefusals(r, came.value))
         && (!RefusedFirst(count, actions) ==>
               && k.Some? && (r.judged <==> r.error.None?)
               && (r.error == Some(DispatchError) <==> came.value.NotDispatched?)
               && (came.value.Came? ==>
                     && r.failed == came.value.failed
                     && (r.error == Some(Cancelled) <==> CancelledBefore(actions, k.value))
                     && (!CancelledBefore(actions, k.value) ==>
                           && (r.error == Some(NoAnswer) <==> came.value.answers == 0)
                           && (r.error == Some(Unreadable) <==> came.value.answers > 0 && !came.value.readable)
                           && (r.error.None? <==> came.value.answers > 0 && came.value.readable))))
         && (r.pass <==>
               && !RefusedFirst(count, actions) && came.value.Came? && !CancelledBefore(actions, k.value)
               && came.value.answers > 0 && came.value.readable && came.value.passes && came.value.failed == [])
  {
    RunnersKnown(count, actions, i);
    OneOutcome(count, actions);
    CauseIs(count, actions);
    RefusedIff(count, actions);
    var g, k := Run(New(count), actions), JudgedAt(count, actions, i);
    assert g.runners[i].Reported?;
    if !RefusedFirst(count, actions) && k.Some? {
      CauseBy(count, actions, k.value);
    }
    hide Run, New, RefusedFirst, CancelledBefore, CameOf, JudgedAt, Busy, NamesRefusals;
    if g.cause.AtCap? {
      FinalNames(g.runners[i].report, g.cause, CameOf(count, actions, i).value);
    }
  }

  /** A caller that cancels first hides a refusal that follows: the one execution ends as cancelled, not
      as refused. */
  lemma CancelHidesTheRefusal()
    ensures var came := Came([Failure("b", true)], 0, false, false);
      var g := Run(New(1), [Cancel, Refuse(0, "b"), Return(0, came), Check(0), Judge(0)]);
      && g.refusals == 1 && |g.runners| == 1 && Joined(g)
      && Final(g.runners[0].report, g.cause).error == Some(Cancelled)
  {
    var came := Came([Failure("b", true)], 0, false, false);
    var a1, a2, a3, a4 := Cancel, Refuse(0, "b"), Return(0, came), Check(0);
    assert [a1] == [] + [a1] && [a1, a2] == [a1] + [a2] && [a1, a2, a3] == [a1, a2] + [a3];
    assert [a1, a2, a3, a4] == [a1, a2, a3] + [a4];
    assert [a1, a2, a3, a4, Judge(0)] == [a1, a2, a3, a4] + [Judge(0)];
    LastStep(New(1), [], a1);
    LastStep(New(1), [a1], a2);
    LastStep(New(1), [a1, a2], a3);
    LastStep(New(1), [a1, a2, a3], a4);
    LastStep(New(1), [a1, a2, a3, a4], Judge(0));
  }

  lemma LastStep(g: Group, actions: seq<Action>, a: Action)
    ensures Run(g, actions + [a]) == Next(Run(g, actions), a)
  {
    assert (actions + [a])[..|actions|] == actions;
  }
}
