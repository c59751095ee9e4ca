/** What the compiler promises the runner about a scenario with weighted targets: its executions come in
    groups, a stage's together, and a group's rates add up to the stage's. */
module Groups {
  import opened Tally
  import opened Shares
  import opened Labels
  import opened Plan
  import Runner

  // ----- Where an execution is -----

  lemma {:induction false} GroupAt(s: Scenario, k: nat, n: nat, t: nat)
    requires s.executor.Some? && k <= |s.executor.value.stages| && t < n <= |s.targets|
    ensures GroupOfFirst(s, k, n)[t] == TargetExecution(s, s.targets[t], k)
  {
    hide TargetExecution;
    if t < n - 1 {
      GroupAt(s, k, n - 1, t);
    }
  }

  lemma {:induction false} GroupsInOrder(s: Scenario, k: nat, m: nat)
    requires s.executor.Some? && k <= m <= |s.executor.value.stages|
    ensures StageGroups(s, k) <= StageGroups(s, m)
  {
    if k < m {
      GroupsInOrder(s, k, m - 1);
    }
  }

  /** Stage by stage, and within a stage target by target: behind the groups of the stages before, target
      t's execution of stage k is number t. */
  lemma ExecutionAt(s: Scenario, m: nat, k: nat, t: nat)
    requires s.executor.Some? && 0 < k <= m <= |s.executor.value.stages| && t < |s.targets|
    ensures var at := |StageGroups(s, k - 1)| + t;
      at < |StageGroups(s, m)| && StageGroups(s, m)[at] == TargetExecution(s, s.targets[t], k)
  {
    hide TargetExecution, StageGroups, GroupOfFirst;
    GroupsInOrder(s, k, m);
    GroupAt(s, k, |s.targets|, t);
    NextGroup(s, k);
    var at := |StageGroups(s, k - 1)| + t;
    assert StageGroups(s, k)[at] == StageGroup(s, k)[t];
  }

  lemma NextGroup(s: Scenario, k: nat)
    requires s.executor.Some? && 0 < k <= |s.executor.value.stages|
    ensures StageGroups(s, k) == StageGroups(s, k - 1) + StageGroup(s, k)
    ensures |StageGroups(s, k)| == |StageGroups(s, k - 1)| + |s.targets|
  {
  }

  // ----- A group's rate -----

  ghost function RateOf(e: Execution): int { e.rate }

  function StageRate(ex: Executor, k: nat): nat
    requires k <= |ex.stages|
  {
    if k == 0 then ex.rate else ex.stages[k - 1].rate
  }

  lemma TargetRate(s: Scenario, t: Target, k: nat)
    requires s.executor.Some? && k <= |s.executor.value.stages| && Total(Weights(s.targets)) > 0
    ensures TargetExecution(s, t, k).rate
            == Share(StageRate(s.executor.value, k), WeightOf(t.weight), Total(Weights(s.targets)))
  {
  }

  lemma {:induction false} GroupRateIs(s: Scenario, k: nat, n: nat)
    requires s.executor.Some? && k <= |s.executor.value.stages| && n <= |s.targets| && Total(Weights(s.targets)) > 0
    ensures Sum(GroupOfFirst(s, k, n), RateOf)
            == SharesOf(StageRate(s.executor.value, k), Weights(s.targets)[..n], Total(Weights(s.targets)))
  {
    var ws := Weights(s.targets);
    if n > 0 {
      hide TargetExecution, Share, Sum, Total;
      GroupRateIs(s, k, n - 1);
      assert ws[..n][..n - 1] == ws[..n - 1] && ws[n - 1] == s.targets[n - 1].weight;
      TargetRate(s, s.targets[n - 1], k);
      SumAppend(GroupOfFirst(s, k, n - 1), RateOf, TargetExecution(s, s.targets[n - 1], k));
    }
  }

  /** The rates of a stage's group sum to within one a target of the stage's rate. */
  lemma GroupKeepsTheRate(s: Scenario, k: nat)
    requires s.executor.Some? && k <= |s.executor.value.stages| && s.targets != []
    requires StageRate(s.executor.value, k) < U32 && forall i | 0 <= i < |s.targets| :: s.targets[i].weight < U32
    ensures var off := Sum(StageGroup(s, k), RateOf) - StageRate(s.executor.value, k);
      -(|s.targets| as int) <= off <= |s.targets|
  {
    var ws := Weights(s.targets);
    SharesSum(StageRate(s.executor.value, k), ws);
    GroupRateIs(s, k, |s.targets|);
    assert ws[..|s.targets|] == ws;
  }

  // ----- What the runner starts together -----

  lemma StageNamesDiffer(name: string, a: nat, b: nat)
    requires StageName(name, a) == StageName(name, b)
    ensures a == b
  {
    var front := name + "/stage-";
    assert (front + Digits(a))[|front|..] == Digits(a) && (front + Digits(b))[|front|..] == Digits(b);
    DigitsDiffer(a, b);
  }

  function Seen(all: seq<Execution>): (execs: seq<Runner.Exec>)
    ensures |execs| == |all|
  {
    seq(|all|, i requires 0 <= i < |all| => Runner.Exec(all[i].name, all[i].group))
  }

  lemma GroupName(s: Scenario, t: Target, k: nat)
    requires s.executor.Some? && k <= |s.executor.value.stages|
    ensures TargetExecution(s, t, k).group == GroupOf(s, k)
  {
  }

  /** The runner starts together exactly the executions of one stage: the group of target t's execution in
      stage k starts where stage k does. */
  lemma {:induction false} GroupsAreStages(s: Scenario, k: nat, t: nat)
    requires s.executor.Some? && 0 < k <= |s.executor.value.stages| && t < |s.targets|
    ensures var all := StageGroups(s, |s.executor.value.stages|);
      var start := |StageGroups(s, k - 1)|;
      start + t < |all| && Runner.Start(Seen(all), start + t) == start
  {
    hide TargetExecution, StageGroups, StageName;
    var m := |s.executor.value.stages|;
    var all, start := StageGroups(s, m), |StageGroups(s, k - 1)|;
    ExecutionAt(s, m, k, t);
    GroupName(s, s.targets[t], k);
    NotEmpty(s.name, k);
    if t > 0 {
      ExecutionAt(s, m, k, t - 1);
      GroupName(s, s.targets[t - 1], k);
      GroupsAreStages(s, k, t - 1);
      assert Runner.Together(Seen(all), start + t);
    } else if k > 1 {
      LastOfStage(s, k - 1);
      if StageName(s.name, k) == StageName(s.name, k - 1) {
        StageNamesDiffer(s.name, k, k - 1);
      }
    } else {
      NoGroups(s);
    }
  }

  /** Without stages all targets start together. */
  lemma {:induction false} OneGroup(s: Scenario, t: nat)
    requires s.executor.Some? && t < |s.targets| && s.name != ""
    ensures Runner.Start(Seen(StageGroup(s, 0)), t) == 0
  {
    hide TargetExecution, GroupOfFirst;
    if t > 0 {
      GroupAt(s, 0, |s.targets|, t);
      GroupAt(s, 0, |s.targets|, t - 1);
      GroupName(s, s.targets[t], 0);
      GroupName(s, s.targets[t - 1], 0);
      OneGroup(s, t - 1);
    }
  }

  lemma NoGroups(s: Scenario)
    requires s.executor.Some?
    ensures StageGroups(s, 0) == []
  {
  }

  lemma NotEmpty(name: string, k: nat)
    ensures StageName(name, k) != ""
  {
  }

  lemma LastOfStage(s: Scenario, k: nat)
    requires s.executor.Some? && 0 < k <= |s.executor.value.stages| && s.targets != []
    ensures var all := StageGroups(s, |s.executor.value.stages|);
      var last := |StageGroups(s, k)| - 1;
      0 <= last < |all| && all[last].group == StageName(s.name, k)
  {
    hide TargetExecution, StageGroups;
    var n := |s.targets|;
    ExecutionAt(s, |s.executor.value.stages|, k, n - 1);
    GroupName(s, s.targets[n - 1], k);
    NextGroup(s, k);
  }
}
