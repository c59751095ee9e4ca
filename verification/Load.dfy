/** From a scenario and a pool to what the backends emit: the executions a scenario runs as are the ones planned,
    and compiled for a pool they emit the planned load. */
module Load {
  import opened Tally
  import opened Plan
  import opened Groups
  import opened Shares
  import opened Rates
  import Arith

  // ----- The executions are the planned ones -----

  /** The rate of a stage, or its part of it for a target of its own. */
  function PlannedRate(s: Scenario, target: Option<Target>, k: nat): nat
    requires s.executor.Some? && k <= |s.executor.value.stages|
  {
    var rate := StageRate(s.executor.value, k);
    if target.None? then rate
    else if Total(Weights(s.targets)) == 0 then rate
    else Share(rate, WeightOf(target.value.weight), Total(Weights(s.targets)))
  }

  /** An execution of the scenario: of a stage exactly if there are stages, of a target exactly if there are
      targets, for as long, with the ramp and per backend as the executor says. */
  predicate Planned(s: Scenario, e: Execution)
    requires s.executor.Some?
  {
    var ex := s.executor.value;
    && e.scenario == s && e.stage <= |ex.stages| && (e.stage > 0 <==> ex.kind.Staircase?)
    && (if s.targets == [] then e.target.None? else e.target.Some? && e.target.value in s.targets)
    && e.perBackend == ex.perBackend
    && e.duration == (if e.stage > 0 then ex.stages[e.stage - 1].duration else ex.duration)
    && e.rampTime == (if ex.kind.RampingRate? then ex.rampTime else 0)
    && e.rate == PlannedRate(s, e.target, e.stage)
  }

  lemma OnePlanned(s: Scenario, k: nat)
    requires s.executor.Some? && s.targets == [] && k <= |s.executor.value.stages|
    requires k > 0 <==> s.executor.value.kind.Staircase?
    ensures Planned(s, ExecutionOf(s, s.executor.value, k))
  {
  }

  lemma TargetPlanned(s: Scenario, t: Target, k: nat)
    requires s.executor.Some? && t in s.targets && k <= |s.executor.value.stages|
    requires k > 0 <==> s.executor.value.kind.Staircase?
    ensures Planned(s, TargetExecution(s, t, k))
  {
    hide Share, Total;
  }

  lemma GroupPlanned(s: Scenario, k: nat, i: nat)
    requires s.executor.Some? && i < |s.targets| && k <= |s.executor.value.stages|
    requires k > 0 <==> s.executor.value.kind.Staircase?
    ensures Planned(s, StageGroup(s, k)[i]) && StageGroup(s, k)[i].stage == k
    ensures StageGroup(s, k)[i].target == Some(s.targets[i])
  {
    GroupAt(s, k, |s.targets|, i);
    TargetPlanned(s, s.targets[i], k);
    TargetStage(s, s.targets[i], k);
    hide Planned, StageGroup;
    TargetIs(s, s.targets[i], k);
    hide TargetExecution;
    GroupIs(s, k);
  }

  lemma TargetIs(s: Scenario, t: Target, k: nat)
    requires s.executor.Some? && k <= |s.executor.value.stages|
    ensures TargetExecution(s, t, k).target == Some(t)
  {
  }

  lemma GroupIs(s: Scenario, k: nat)
    requires s.executor.Some? && k <= |s.executor.value.stages|
    ensures StageGroup(s, k) == GroupOfFirst(s, k, |s.targets|)
  {
    hide GroupOfFirst;
  }

  ghost predicate AllPlanned(s: Scenario, all: seq<Execution>)
    requires s.executor.Some?
  {
    forall i | 0 <= i < |all| :: Planned(s, all[i])
  }

  lemma PlannedAppend(s: Scenario, a: seq<Execution>, b: seq<Execution>)
    requires s.executor.Some? && AllPlanned(s, a) && AllPlanned(s, b)
    ensures AllPlanned(s, a + b)
  {
    hide Planned;
  }

  lemma AGroupPlanned(s: Scenario, k: nat)
    requires s.executor.Some? && k <= |s.executor.value.stages|
    requires k > 0 <==> s.executor.value.kind.Staircase?
    ensures AllPlanned(s, StageGroup(s, k))
  {
    hide Planned, StageGroup;
    forall i | 0 <= i < |StageGroup(s, k)|
      ensures Planned(s, StageGroup(s, k)[i])
    {
      GroupPlanned(s, k, i);
    }
  }

  lemma OneMoreStage(m: nat, n: nat)
    requires m > 0
    ensures m * n == (m - 1) * n + n
  {
  }

  lemma NonePlanned(s: Scenario)
    requires s.executor.Some?
    ensures AllPlanned(s, StageGroups(s, 0)) && |StageGroups(s, 0)| == 0
  {
  }

  lemma {:induction false} StagesPlanned(s: Scenario, m: nat)
    requires s.executor.Some? && s.executor.value.kind.Staircase? && m <= |s.executor.value.stages|
    ensures AllPlanned(s, StageGroups(s, m)) && |StageGroups(s, m)| == m * |s.targets|
  {
    hide *;
    if m == 0 {
      NonePlanned(s);
    } else {
      StagesPlanned(s, m - 1);
      NextGroup(s, m);
      AGroupPlanned(s, m);
      PlannedAppend(s, StageGroups(s, m - 1), StageGroup(s, m));
      OneMoreStage(m, |s.targets|);
    }
  }

  /** Every scenario that expands runs as executions that are all planned: one for each target, or one, times one
      for each stage, or one. */
  lemma ExecutionsArePlanned(s: Scenario)
    requires Expanded(s).Executions?
    ensures s.executor.Some? && AllPlanned(s, Expanded(s).all)
    ensures |Expanded(s).all|
            == (if s.targets == [] then 1 else |s.targets|)
               * (if s.executor.value.kind.Staircase? then |s.executor.value.stages| else 1)
  {
    var ex := s.executor.value;
    var all := Expanded(s).all;
    if s.targets == [] {
      forall i | 0 <= i < |all|
        ensures Planned(s, all[i])
      {
        OnePlanned(s, if ex.kind.Staircase? then i + 1 else 0);
      }
    } else if ex.kind.Staircase? {
      StagesPlanned(s, |ex.stages|);
    } else {
      AGroupPlanned(s, 0);
    }
  }

  // ----- And emit the planned load -----

  /** What the backends of a pool emit for an execution. */
  ghost function EmittedFor(e: Execution, pool: Pool): int {
    if ForPool(e, pool).Err? || WorkersPerBackend(e.scenario.concurrency).Err? then 0
    else EmittedByPool(e, pool, ForPool(e, pool).value.1, WorkersPerBackend(e.scenario.concurrency).value)
  }

  function Backends(pool: Pool): seq<string> {
    match pool
    case Distributor(targets) => targets
    case Unresolved(dns) => [dns]
    case Services(services) => services
  }

  /** An execution that can be compiled for the pool, behind a distributor with an options object that fits. */
  ghost predicate Compiles(e: Execution, pool: Pool) {
    && ForPool(e, pool).Ok? && WorkersPerBackend(e.scenario.concurrency).Ok?
    && (pool.Distributor? ==> UniformFits(e, |pool.targets|, WorkersPerBackend(e.scenario.concurrency).value))
  }

  /** How often the pool emits a rate: once, or once for each backend if the executor says so. */
  function Copies(s: Scenario, pool: Pool): nat
    requires s.executor.Some?
  {
    if s.executor.value.perBackend then |Backends(pool)| else 1
  }

  lemma BackendsAre(e: Execution, pool: Pool)
    requires ForPool(e, pool).Ok?
    ensures ForPool(e, pool).value.0 == Backends(pool)
  {
    hide UniformShare, Divided;
  }

  lemma CopiesOf(s: Scenario, e: Execution, pool: Pool)
    requires s.executor.Some? && Planned(s, e)
    ensures Copies(s, pool) * e.rate == if e.perBackend then e.rate * |Backends(pool)| else e.rate
  {
  }

  lemma PlannedEmits(s: Scenario, e: Execution, pool: Pool)
    requires s.executor.Some? && Planned(s, e) && !pool.Unresolved? && ForPool(e, pool).Ok?
    requires e.rate < U32 && (pool.Services? ==> |pool.services| < U32)
    ensures EmittedFor(e, pool) == Copies(s, pool) * e.rate <==> Compiles(e, pool)
  {
    CopiesOf(s, e, pool);
    hide Planned, Backends, Copies, ForPool, EmittedByPool, UniformFits, WorkersPerBackend;
    CompiledKeepsTheLoad(e, pool);
    BackendsAre(e, pool);
  }

  /** From the scenario and the pool: each execution's backends together emit its planned rate, once or, if the
      executor says per_backend, once for each backend; behind a distributor if and only if the one options object
      fits. */
  lemma ScenarioKeepsTheLoad(s: Scenario, i: nat, pool: Pool)
    requires Expanded(s).Executions? && i < |Expanded(s).all| && !pool.Unresolved?
    requires Expanded(s).all[i].rate < U32 && (pool.Services? ==> |pool.services| < U32)
    requires ForPool(Expanded(s).all[i], pool).Ok?
    ensures s.executor.Some? && Expanded(s).all[i].stage <= |s.executor.value.stages|
    ensures var e := Expanded(s).all[i];
      EmittedFor(e, pool) == Copies(s, pool) * PlannedRate(s, e.target, e.stage) <==> Compiles(e, pool)
  {
    ExecutionsArePlanned(s);
    assert Planned(s, Expanded(s).all[i]);
    hide Expanded, PlannedRate, EmittedFor, Compiles, Copies, ForPool;
    PlannedEmits(s, Expanded(s).all[i], pool);
  }

  ghost function EmittedOn(pool: Pool): Execution -> int {
    (e: Execution) => EmittedFor(e, pool)
  }

  lemma {:induction false} GroupEmits(s: Scenario, k: nat, n: nat, pool: Pool)
    requires s.executor.Some? && k <= |s.executor.value.stages| && n <= |s.targets|
    requires forall i | 0 <= i < n ::
      EmittedFor(StageGroup(s, k)[i], pool) == Copies(s, pool) * StageGroup(s, k)[i].rate
    ensures Sum(GroupOfFirst(s, k, n), EmittedOn(pool)) == Copies(s, pool) * Sum(GroupOfFirst(s, k, n), RateOf)
  {
    hide EmittedFor, TargetExecution, Copies;
    if n > 0 {
      var e := TargetExecution(s, s.targets[n - 1], k);
      GroupEmits(s, k, n - 1, pool);
      GroupNext(s, k, n);
      GroupAt(s, k, |s.targets|, n - 1);
      assert StageGroup(s, k)[n - 1] == e && EmittedOn(pool)(e) == EmittedFor(e, pool);
      SumAppend(GroupOfFirst(s, k, n - 1), EmittedOn(pool), e);
      SumAppend(GroupOfFirst(s, k, n - 1), RateOf, e);
      assert RateOf(e) == e.rate;
      hide *;
      Arith.Distributes(Copies(s, pool), Sum(GroupOfFirst(s, k, n - 1), RateOf), RateOf(e));
    }
  }

  lemma OneEmits(s: Scenario, k: nat, i: nat, pool: Pool)
    requires s.executor.Some? && k <= |s.executor.value.stages| && i < |s.targets|
    requires k > 0 <==> s.executor.value.kind.Staircase?
    requires !pool.Unresolved? && (pool.Services? ==> |pool.services| < U32)
    requires StageGroup(s, k)[i].rate < U32 && Compiles(StageGroup(s, k)[i], pool)
    ensures EmittedFor(StageGroup(s, k)[i], pool) == Copies(s, pool) * StageGroup(s, k)[i].rate
  {
    GroupPlanned(s, k, i);
    assert ForPool(StageGroup(s, k)[i], pool).Ok?;
    hide StageGroup, Planned, EmittedFor, Compiles, Copies, ForPool;
    PlannedEmits(s, StageGroup(s, k)[i], pool);
  }

  /** And a whole stage: what the targets of a weighted scenario emit together is the stage's rate to within one
      request a second a target, once or once for each backend. */
  lemma StageKeepsTheLoad(s: Scenario, k: nat, pool: Pool)
    requires s.executor.Some? && k <= |s.executor.value.stages| && s.targets != []
    requires k > 0 <==> s.executor.value.kind.Staircase?
    requires StageRate(s.executor.value, k) < U32 && forall i | 0 <= i < |s.targets| :: s.targets[i].weight < U32
    requires !pool.Unresolved? && (pool.Services? ==> |pool.services| < U32)
    requires forall i | 0 <= i < |s.targets| :: StageGroup(s, k)[i].rate < U32 && Compiles(StageGroup(s, k)[i], pool)
    ensures var off := Sum(StageGroup(s, k), RateOf) - StageRate(s.executor.value, k);
      && Sum(StageGroup(s, k), EmittedOn(pool)) == Copies(s, pool) * (StageRate(s.executor.value, k) + off)
      && -(|s.targets| as int) <= off <= |s.targets|
  {
    GroupKeepsTheRate(s, k);
    forall i | 0 <= i < |s.targets|
      ensures EmittedFor(StageGroup(s, k)[i], pool) == Copies(s, pool) * StageGroup(s, k)[i].rate
    {
      hide Compiles;
      OneEmits(s, k, i, pool);
    }
    GroupEmits(s, k, |s.targets|, pool);
    hide EmittedFor, Copies, Sum, Compiles, StageRate;
  }
}
