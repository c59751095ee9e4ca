/** The run of a whole plan: scenario by scenario, group by group, until it is done or cancelled. */
module Runner {
  import opened Tally
  import RunGroup

  /** An execution as the runner sees it; one with an empty group runs by itself. */
  datatype Exec = Exec(name: string, group: string)

  datatype Report = Ran(name: string, outcome: RunGroup.Report) | NotRun(name: string)

  /** What came of execution `i` of scenario `s`, and whether the run was cancelled by the time the turn
      that ends before execution `j` was over. */
  datatype World = World(outcome: (nat, nat) -> RunGroup.Report, cancelledBy: (nat, nat) -> bool)

  datatype Result = NoReport | Reported(reports: seq<Report>, pass: bool, cancelled: bool)

  predicate Passes(r: Report) {
    r.Ran? && r.outcome.pass
  }

  predicate HasError(r: Report) {
    r.NotRun? || r.outcome.error.Some?
  }

  /** The start of execution `i` was refused at an engine's cap. */
  predicate Refused(w: World, s: nat, i: nat) {
    RunGroup.CarriesCap(w.outcome(s, i))
  }

  // ----- Groups -----

  /** Executions `i - 1` and `i` start together. */
  predicate Together(execs: seq<Exec>, i: nat) {
    0 < i < |execs| && execs[i].group != "" && execs[i].group == execs[i - 1].group
  }

  /** The first execution of the group that `i` is in. */
  function Start(execs: seq<Exec>, i: nat): (k: nat)
    requires i < |execs|
    ensures k <= i
  {
    if Together(execs, i) then Start(execs, i - 1) else i
  }

  /** A start was refused in a group before execution `i`'s. */
  ghost predicate RefusedBefore(execs: seq<Exec>, w: World, s: nat, i: nat)
    requires i < |execs|
  {
    exists k: nat | k < Start(execs, i) :: Refused(w, s, k)
  }

  /** What is reported of execution `i`: it was not run if an earlier group was refused. */
  ghost function ReportOf(execs: seq<Exec>, w: World, s: nat, i: nat): Report
    requires i < |execs|
  {
    if RefusedBefore(execs, w, s, i) then NotRun(execs[i].name) else Ran(execs[i].name, w.outcome(s, i))
  }

  ghost function ReportsOf(execs: seq<Exec>, w: World, s: nat, n: nat): (r: seq<Report>)
    requires n <= |execs|
    ensures |r| == n
  {
    if n == 0 then [] else ReportsOf(execs, w, s, n - 1) + [ReportOf(execs, w, s, n - 1)]
  }

  /** What would be reported of the first `n` scenarios of a run that is never cancelled. */
  ghost function AllReports(plan: seq<Option<seq<Exec>>>, w: World, n: nat): seq<Report>
    requires n <= |plan|
  {
    if n == 0 then []
    else AllReports(plan, w, n - 1)
         + if plan[n - 1].Some? then ReportsOf(plan[n - 1].value, w, n - 1, |plan[n - 1].value|) else []
  }

  lemma {:induction false} ReportsAt(execs: seq<Exec>, w: World, s: nat, n: nat, i: nat)
    requires i < n <= |execs|
    ensures ReportsOf(execs, w, s, n)[i] == ReportOf(execs, w, s, i)
  {
    if i < n - 1 {
      ReportsAt(execs, w, s, n - 1, i);
    }
  }

  // ----- Turns -----

  ghost predicate NoneRefused(w: World, s: nat, n: nat) {
    forall k: nat | k < n :: !Refused(w, s, k)
  }

  /** A turn of the runner ends before execution `j`: with its group, or, after a refusal, with the
      scenario. */
  ghost predicate TurnEnds(execs: seq<Exec>, w: World, s: nat, j: nat) {
    0 < j <= |execs| && (j < |execs| ==> !Together(execs, j) && NoneRefused(w, s, j))
  }

  /** Some execution reported at the turn that ends before `j`, and at none before, has an error. */
  ghost predicate Costs(execs: seq<Exec>, w: World, s: nat, j: nat) {
    exists k: nat | k < j && k < |execs| ::
      HasError(ReportOf(execs, w, s, k)) && forall t | k < t < j :: !TurnEnds(execs, w, s, t)
  }

  /** The run is cut short before execution `j`: it was cancelled by the end of the turn, and the turn
      had an error. */
  ghost predicate CutAt(execs: seq<Exec>, w: World, s: nat, j: nat) {
    TurnEnds(execs, w, s, j) && w.cancelledBy(s, j) && Costs(execs, w, s, j)
  }

  /** The first cut from `j` on. */
  ghost function FirstCut(execs: seq<Exec>, w: World, s: nat, j: nat): (cut: Option<nat>)
    requires j <= |execs|
    ensures cut.Some? ==> j <= cut.value <= |execs| && CutAt(execs, w, s, cut.value)
    ensures forall t | j <= t < if cut.Some? then cut.value else |execs| + 1 :: !CutAt(execs, w, s, t)
    decreases |execs| - j
  {
    if CutAt(execs, w, s, j) then Some(j)
    else if j == |execs| then None
    else FirstCut(execs, w, s, j + 1)
  }

  /** What is reported of a scenario up to a cut. */
  ghost function Before(execs: seq<Exec>, w: World, s: nat, cut: nat): seq<Report>
    requires cut <= |execs|
  {
    ReportsOf(execs, w, s, |execs|)[..cut]
  }

  ghost function Cut(execs: seq<Exec>, w: World, s: nat): (cut: Option<nat>)
    ensures cut.Some? ==> cut.value <= |execs|
  {
    FirstCut(execs, w, s, 0)
  }

  // ----- One group -----

  /** Where the group that starts at `i` ends. */
  method GroupEnd(execs: seq<Exec>, i: nat) returns (j: nat)
    requires i < |execs| && !Together(execs, i)
    ensures i < j <= |execs| && (j < |execs| ==> !Together(execs, j))
    ensures forall k | i <= k < j :: Start(execs, k) == i && (i < k ==> Together(execs, k))
  {
    j := i + 1;
    if execs[i].group != "" {
      while j < |execs| && execs[j].group == execs[i].group
        invariant i < j <= |execs|
        invariant forall k | i <= k < j :: Start(execs, k) == i && execs[k].group == execs[i].group
      {
        j := j + 1;
      }
    }
  }

  /** The reports of one group, and of the rest of the scenario if the group was refused. */
  method RunOne(execs: seq<Exec>, w: World, s: nat, i: nat) returns (reports: seq<Report>, j: nat)
    requires i < |execs| && !Together(execs, i) && NoneRefused(w, s, i)
    ensures i < j <= |execs| && (j < |execs| ==> !Together(execs, j) && NoneRefused(w, s, j))
    ensures |reports| == j - i
    ensures forall k | i <= k < j :: reports[k - i] == ReportOf(execs, w, s, k)
    ensures TurnEnds(execs, w, s, j) && forall t | i < t < j :: !TurnEnds(execs, w, s, t)
  {
    j := GroupEnd(execs, i);
    var refused := false;
    reports := [];
    for k := i to j
      invariant |reports| == k - i
      invariant forall l | i <= l < k :: reports[l - i] == Ran(execs[l].name, w.outcome(s, l))
      invariant refused <==> exists l: nat | i <= l < k :: Refused(w, s, l)
    {
      reports := reports + [Ran(execs[k].name, w.outcome(s, k))];
      refused := refused || Refused(w, s, k);
    }
    if refused {
      ghost var end := j;
      for k := j to |execs|
        invariant |reports| == k - i
        invariant forall l | i <= l < k ::
          reports[l - i] == if l < end then Ran(execs[l].name, w.outcome(s, l)) else NotRun(execs[l].name)
      {
        reports := reports + [NotRun(execs[k].name)];
      }
      forall k | end <= k < |execs|
        ensures end <= Start(execs, k)
      {
        StartAfter(execs, end, k);
      }
      assert forall t: nat | end <= t :: !NoneRefused(w, s, t);
      j := |execs|;
    }
  }

  lemma {:induction false} StartAfter(execs: seq<Exec>, j: nat, k: nat)
    requires j <= k < |execs| && !Together(execs, j)
    ensures j <= Start(execs, k)
  {
    if k > j {
      StartAfter(execs, j, k - 1);
    }
  }

  // ----- The run -----

  ghost predicate AllPass(reports: seq<Report>) {
    forall i | 0 <= i < |reports| :: Passes(reports[i])
  }

  lemma AllPassAppend(a: seq<Report>, b: seq<Report>)
    ensures AllPass(a + b) <==> AllPass(a) && AllPass(b)
  {
    if AllPass(a + b) {
      assert forall i | 0 <= i < |a| :: a[i] == (a + b)[i];
      assert forall i | 0 <= i < |b| :: b[i] == (a + b)[|a| + i];
    }
  }

  method AnyError(reports: seq<Report>) returns (found: bool)
    ensures found <==> exists i | 0 <= i < |reports| :: HasError(reports[i])
  {
    found := false;
    for i := 0 to |reports|
      invariant found <==> exists k | 0 <= k < i :: HasError(reports[k])
    {
      found := found || HasError(reports[i]);
    }
  }

  method Collect(reports: seq<Report>, pass: bool) returns (p: bool)
    ensures p <==> pass && AllPass(reports)
  {
    p := pass;
    for i := 0 to |reports|
      invariant p <==> pass && forall k | 0 <= k < i :: Passes(reports[k])
    {
      if !Passes(reports[i]) {
        p := false;
      }
    }
  }

  /** An error reported at this turn is an error of the turn. */
  lemma TurnCosts(execs: seq<Exec>, w: World, s: nat, i: nat, j: nat, more: seq<Report>)
    requires i < j <= |execs| && (i > 0 ==> TurnEnds(execs, w, s, i))
    requires forall t | i < t < j :: !TurnEnds(execs, w, s, t)
    requires |more| == j - i && forall k | i <= k < j :: more[k - i] == ReportOf(execs, w, s, k)
    ensures Costs(execs, w, s, j) <==> exists k | 0 <= k < |more| :: HasError(more[k])
  {
    hide TurnEnds, ReportOf;
    if k :| 0 <= k < |more| && HasError(more[k]) {
      assert more[k] == more[(i + k) - i] == ReportOf(execs, w, s, i + k);
    }
  }

  lemma CutIs(execs: seq<Exec>, w: World, s: nat, j: nat)
    requires j <= |execs| && CutAt(execs, w, s, j) && forall t | 0 <= t < j :: !CutAt(execs, w, s, t)
    ensures Cut(execs, w, s) == Some(j)
  {
    hide CutAt;
  }

  /** One scenario. It is cut short after the first turn that had an error with the run cancelled by its
      end, and reported in full if there is none. */
  method RunScenario(execs: seq<Exec>, w: World, s: nat) returns (reports: seq<Report>, pass: bool, cancelled: bool)
    ensures cancelled <==> Cut(execs, w, s).Some?
    ensures reports == if cancelled then Before(execs, w, s, Cut(execs, w, s).value)
                       else ReportsOf(execs, w, s, |execs|)
    ensures pass <==> AllPass(reports)
  {
    hide Costs, FirstCut;
    reports, pass, cancelled := [], true, false;
    var i := 0;
    while i < |execs|
      invariant i <= |execs| && (i < |execs| ==> !Together(execs, i) && NoneRefused(w, s, i))
      invariant (i > 0 ==> TurnEnds(execs, w, s, i)) && forall t | 0 <= t <= i :: !CutAt(execs, w, s, t)
      invariant reports == ReportsOf(execs, w, s, |execs|)[..i] && (pass <==> AllPass(reports))
    {
      var more, j := RunOne(execs, w, s, i);
      pass := Collect(more, pass);
      ghost var all := ReportsOf(execs, w, s, |execs|);
      forall k | i <= k < j
        ensures all[k] == more[k - i]
      {
        ReportsAt(execs, w, s, |execs|, k);
      }
      assert all[..j] == reports + more;
      AllPassAppend(reports, more);
      reports := reports + more;
      TurnCosts(execs, w, s, i, j, more);
      var cost := AnyError(more);
      if w.cancelledBy(s, j) && cost {
        CutIs(execs, w, s, j);
        cancelled := true;
        return;
      }
      i := j;
    }
  }

  /** The run gets past scenario `s`. */
  ghost predicate GetsPast(plan: seq<Option<seq<Exec>>>, w: World, s: nat)
    requires s < |plan|
  {
    plan[s].Some? && Cut(plan[s].value, w, s).None?
  }

  /** The first scenario from `s` on that the run does not get past. */
  ghost function Stop(plan: seq<Option<seq<Exec>>>, w: World, s: nat): (t: nat)
    requires s <= |plan|
    ensures s <= t <= |plan| && (t < |plan| ==> !GetsPast(plan, w, t))
    ensures forall k | s <= k < t :: GetsPast(plan, w, k)
    decreases |plan| - s
  {
    if s < |plan| && GetsPast(plan, w, s) then Stop(plan, w, s + 1) else s
  }

  /** The whole run, up to the first scenario that it does not get past. It leaves no report exactly if
      that one cannot be expanded. It is cancelled exactly if that one is cut short, and then reports what
      came before the cut; if there is none it reports the whole plan, each execution once and in order.
      It passes exactly if every execution it lists passed. */
  method RunPlan(plan: seq<Option<seq<Exec>>>, w: World) returns (r: Result)
    ensures var s := Stop(plan, w, 0);
      && (r.NoReport? <==> s < |plan| && plan[s].None?)
      && (r.Reported? ==>
            && (r.pass <==> AllPass(r.reports))
            && (r.cancelled <==> s < |plan|)
            && r.reports == AllReports(plan, w, s)
                            + if s < |plan| then Before(plan[s].value, w, s, Cut(plan[s].value, w, s).value) else [])
  {
    hide Cut, ReportsOf;
    var reports, pass := [], true;
    for s := 0 to |plan|
      invariant reports == AllReports(plan, w, s) && (pass <==> AllPass(reports))
      invariant Stop(plan, w, 0) == Stop(plan, w, s)
    {
      if plan[s].None? {
        return NoReport;
      }
      var more, ok, cancelled := RunScenario(plan[s].value, w, s);
      AllPassAppend(reports, more);
      reports, pass := reports + more, pass && ok;
      if cancelled {
        return Reported(reports, pass, true);
      }
    }
    r := Reported(reports, pass, false);
  }

  // ----- The groups behind the outcomes -----

  /** Where the group that execution `i` is in ends. */
  ghost function End(execs: seq<Exec>, i: nat): (j: nat)
    requires i < |execs|
    ensures i < j <= |execs|
    decreases |execs| - i
  {
    if i + 1 < |execs| && Together(execs, i + 1) then End(execs, i + 1) else i + 1
  }

  /** The outcomes of the group that starts at `a` are the reports of goroutines that interleaved as
      `actions` says and have joined. */
  ghost predicate FromGroup(execs: seq<Exec>, w: World, s: nat, a: nat, actions: seq<RunGroup.Action>)
    requires a < |execs|
  {
    var g := RunGroup.Run(RunGroup.New(End(execs, a) - a), actions);
    && |g.runners| == End(execs, a) - a && RunGroup.Joined(g)
    && forall k | a <= k < End(execs, a) :: w.outcome(s, k) == RunGroup.Final(g.runners[k - a].report, g.cause)
  }

  /** A group that no refusal before it kept from running. */
  ghost predicate GroupRuns(execs: seq<Exec>, w: World, s: nat, a: nat) {
    a < |execs| && !Together(execs, a) && !RefusedBefore(execs, w, s, a)
  }

  ghost predicate FromGroups(execs: seq<Exec>, w: World, s: nat, actions: nat -> seq<RunGroup.Action>) {
    forall a: nat | GroupRuns(execs, w, s, a) :: FromGroup(execs, w, s, a, actions(a))
  }

  lemma {:induction false} StartIs(execs: seq<Exec>, i: nat)
    requires i < |execs|
    ensures var a := Start(execs, i);
      !Together(execs, a) && Start(execs, a) == a && i < End(execs, i) == End(execs, a)
  {
    if Together(execs, i) {
      StartIs(execs, i - 1);
    }
  }

  lemma GroupRefused(execs: seq<Exec>, w: World, s: nat, a: nat, k: nat, actions: seq<RunGroup.Action>)
    requires a < |execs| && FromGroup(execs, w, s, a, actions) && a <= k < End(execs, a)
    ensures Refused(w, s, k) <==> RunGroup.RefusedFirst(End(execs, a) - a, actions)
  {
    hide RunGroup.Run, RunGroup.RefusedFirst, RunGroup.New, RunGroup.Final, End;
    var n := End(execs, a) - a;
    var g := RunGroup.Run(RunGroup.New(n), actions);
    RunGroup.RefusedIff(n, actions);
    assert w.outcome(s, k) == RunGroup.Final(g.runners[k - a].report, g.cause);
  }

  lemma {:induction false} FirstRefused(w: World, s: nat, n: nat) returns (k: nat)
    requires !NoneRefused(w, s, n)
    ensures k < n && Refused(w, s, k) && NoneRefused(w, s, k)
  {
    k := n - 1;
    if !NoneRefused(w, s, n - 1) {
      k := FirstRefused(w, s, n - 1);
    }
  }

  /** An execution is reported as not run exactly when an earlier group of its scenario ran and had a start
      refused before the caller cancelled; one that ran carries a cap error exactly when its own group did. */
  lemma NotRunIff(execs: seq<Exec>, w: World, s: nat, actions: nat -> seq<RunGroup.Action>, i: nat)
    requires i < |execs| && FromGroups(execs, w, s, actions)
    ensures var first := Start(execs, i);
      && (ReportOf(execs, w, s, i).NotRun? <==>
            exists a: nat | a < first && GroupRuns(execs, w, s, a) ::
              RunGroup.RefusedFirst(End(execs, a) - a, actions(a)))
      && (ReportOf(execs, w, s, i).Ran? ==>
            (RunGroup.CarriesCap(ReportOf(execs, w, s, i).outcome) <==>
               RunGroup.RefusedFirst(End(execs, first) - first, actions(first))))
  {
    hide FromGroup, RunGroup.RefusedFirst, RunGroup.CarriesCap, Start, End, Together;
    var first := Start(execs, i);
    StartIs(execs, i);
    if !NoneRefused(w, s, first) {
      var k := FirstRefused(w, s, first);
      var a := Start(execs, k);
      StartIs(execs, k);
      GroupRefused(execs, w, s, a, k, actions(a));
    } else {
      GroupRefused(execs, w, s, first, i, actions(first));
    }
    forall a: nat | a < first && GroupRuns(execs, w, s, a) && RunGroup.RefusedFirst(End(execs, a) - a, actions(a))
      ensures Refused(w, s, a)
    {
      GroupRefused(execs, w, s, a, a, actions(a));
    }
  }
}
