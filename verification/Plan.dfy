/** A plan's scenarios as the compiler sees them: defaults folded in, one scenario per weighted target,
    and the executions each of them runs as. */
module Plan {
  import opened Tally
  import opened Shares
  import opened Labels

  datatype Stage = Stage(rate: nat, duration: nat)

  datatype Kind = ConstantRate | RampingRate | Staircase | OtherKind

  datatype Executor = Executor(
    kind: Kind, rate: nat, duration: nat, rampTime: nat, stages: seq<Stage>, perBackend: bool)

  datatype Request = Request(verb: string, headers: seq<string>, body: string, bodyFile: string)

  datatype Target = Target(name: string, url: string, weight: nat, request: Request)

  /** `byName`: the backend component of the prefix is the engine's own name, not its address. */
  datatype Stats = Stats(prefix: string, statsd: bool, byName: bool)

  /** `aggregate`: the engine takes a backend's whole rate and divides it over its workers itself, as it
      does for gRPC bidirectional streams and for WebSocket. */
  datatype Scenario = Scenario(
    name: string, pool: string, url: string, targets: seq<Target>, executor: Option<Executor>,
    stats: Option<Stats>, request: Request, concurrency: string, aggregate: bool)

  datatype Defaults = Defaults(
    pool: string, url: string, targets: seq<Target>, executor: Option<Executor>, stats: Option<Stats>,
    request: Request, concurrency: string)

  datatype Plan = Plan(scenarios: seq<Scenario>, defaults: Option<Defaults>, stats: Option<Stats>)

  /** `name` is the execution's label. */
  datatype Execution = Execution(
    scenario: Scenario, target: Option<Target>, name: string, group: string, stage: nat,
    rate: nat, perBackend: bool, duration: nat, rampTime: nat)

  datatype Expansion = Executions(all: seq<Execution>) | NoExecutor | UnknownExecutor

  // ----- Defaults -----

  function EffectiveStats(p: Plan, s: Scenario): Option<Stats> {
    if s.stats.Some? then s.stats
    else if p.defaults.Some? && p.defaults.value.stats.Some? then p.defaults.value.stats
    else p.stats
  }

  /** The scenario with what it left unset taken from the defaults; where its load goes, its body and its
      executor are each one thing, taken whole. */
  function WithDefaults(p: Plan, s: Scenario): Scenario {
    var s1 := s.(stats := EffectiveStats(p, s));
    if p.defaults.None? then s1
    else
      var d := p.defaults.value;
      var s2 := if s1.url == "" && s1.targets == [] then s1.(url := d.url, targets := d.targets) else s1;
      var r := s2.request;
      s2.(pool := if s2.pool == "" then d.pool else s2.pool,
          request := Request(if r.verb == "" then d.request.verb else r.verb,
                             if r.headers == [] then d.request.headers else r.headers,
                             if r.body == "" && r.bodyFile == "" then d.request.body else r.body,
                             if r.body == "" && r.bodyFile == "" then d.request.bodyFile else r.bodyFile),
          concurrency := if s2.concurrency == "" then d.concurrency else s2.concurrency,
          executor := if s2.executor.None? then d.executor else s2.executor)
  }

  // ----- Weighted targets -----

  function Weights(targets: seq<Target>): seq<nat> {
    seq(|targets|, i requires 0 <= i < |targets| => targets[i].weight)
  }

  function Scaled(ex: Executor, w: nat, total: nat): Executor
    requires total > 0
  {
    ex.(rate := Share(ex.rate, w, total),
        stages := seq(|ex.stages|, i requires 0 <= i < |ex.stages| =>
          ex.stages[i].(rate := Share(ex.stages[i].rate, w, total))))
  }

  /** The request a target describes for itself replaces the scenario's, field by field, its body whole. */
  function RequestFor(r: Request, t: Request): Request {
    Request(if t.verb != "" then t.verb else r.verb,
            if t.headers != [] then t.headers else r.headers,
            if t.body != "" || t.bodyFile != "" then t.body else r.body,
            if t.body != "" || t.bodyFile != "" then t.bodyFile else r.bodyFile)
  }

  function VariantFor(s: Scenario, t: Target): Scenario {
    var total := Total(Weights(s.targets));
    s.(url := t.url, targets := [], request := RequestFor(s.request, t.request),
       executor := if s.executor.Some? && total > 0 then Some(Scaled(s.executor.value, WeightOf(t.weight), total))
                   else s.executor)
  }

  /** A target's variant asks the target's own url, with what the target says of the request and the rest from
      the scenario; a body is taken whole, so never in one form from the one and in the other from the other. */
  lemma VariantIs(s: Scenario, t: Target)
    ensures var v, r, own := VariantFor(s, t), s.request, t.request;
      && v.url == t.url && v.targets == [] && v.name == s.name && v.pool == s.pool && v.stats == s.stats
      && v.concurrency == s.concurrency && v.aggregate == s.aggregate
      && v.request.verb in {own.verb, r.verb} && (own.verb != "" ==> v.request.verb == own.verb)
      && v.request.headers in {own.headers, r.headers} && (own.headers != [] ==> v.request.headers == own.headers)
      && (v.request.body, v.request.bodyFile) in {(own.body, own.bodyFile), (r.body, r.bodyFile)}
      && (own.body != "" || own.bodyFile != "" ==>
            v.request.body == own.body && v.request.bodyFile == own.bodyFile)
      && (own == Request("", [], "", "") ==> v.request == r)
  {
  }

  method ForTarget(s: Scenario, t: Target) returns (out: Scenario)
    ensures out == VariantFor(s, t)
  {
    out := s.(url := t.url, targets := []);
    if t.request.verb != "" {
      out := out.(request := out.request.(verb := t.request.verb));
    }
    if |t.request.headers| > 0 {
      out := out.(request := out.request.(headers := t.request.headers));
    }
    if t.request.body != "" || t.request.bodyFile != "" {
      out := out.(request := out.request.(body := t.request.body, bodyFile := t.request.bodyFile));
    }
    var total := TotalWeight(s.targets);
    if out.executor.Some? && total > 0 {
      var ex := ScaleExecutor(out.executor.value, WeightOf(t.weight), total);
      out := out.(executor := Some(ex));
    }
  }

  method TotalWeight(targets: seq<Target>) returns (total: nat)
    ensures total == Total(Weights(targets))
  {
    total := 0;
    ghost var ws := Weights(targets);
    for i := 0 to |targets|
      invariant total == Total(ws[..i])
    {
      total := total + WeightOf(targets[i].weight);
      assert ws[..i + 1][..i] == ws[..i];
    }
    assert ws[..|targets|] == ws;
  }

  method ScaleExecutor(ex: Executor, w: nat, total: nat) returns (out: Executor)
    requires total > 0
    ensures out == Scaled(ex, w, total)
  {
    out := ex.(rate := Share(ex.rate, w, total));
    var stages := ex.stages;
    for i := 0 to |stages|
      invariant |stages| == |ex.stages|
      invariant forall k | 0 <= k < |stages| ::
        stages[k] == if k < i then ex.stages[k].(rate := Share(ex.stages[k].rate, w, total)) else ex.stages[k]
    {
      stages := stages[i := stages[i].(rate := Share(stages[i].rate, w, total))];
    }
    out := out.(stages := stages);
  }

  // ----- Executions -----

  function StageName(name: string, k: nat): string {
    name + "/stage-" + Digits(k)
  }

  /** The execution of an executor's stage `k`, or of one without stages when `k` is zero. */
  function ExecutionOf(s: Scenario, ex: Executor, k: nat): Execution
    requires k <= |ex.stages|
  {
    if k == 0 then
      Execution(s, None, s.name, "", 0, ex.rate, ex.perBackend, ex.duration,
                if ex.kind.RampingRate? then ex.rampTime else 0)
    else
      Execution(s, None, StageName(s.name, k), "", k,
                ex.stages[k - 1].rate, ex.perBackend, ex.stages[k - 1].duration, 0)
  }

  /** What a scenario with one target runs as. */
  function ExpandedOne(s: Scenario): Expansion {
    if s.executor.None? then NoExecutor
    else
      var ex := s.executor.value;
      match ex.kind
      case OtherKind => UnknownExecutor
      case Staircase => Executions(seq(|ex.stages|, i requires 0 <= i < |ex.stages| => ExecutionOf(s, ex, i + 1)))
      case _ => Executions([ExecutionOf(s, ex, 0)])
  }

  function Variant(s: Scenario, t: Target): Scenario {
    VariantFor(s, t).(name := s.name + "/" + t.name)
  }

  function GroupOf(s: Scenario, k: nat): string {
    if k == 0 then s.name else StageName(s.name, k)
  }

  /** Target `t`'s execution in stage `k` of a scenario with weighted targets. */
  function TargetExecution(s: Scenario, t: Target, k: nat): Execution
    requires s.executor.Some? && k <= |s.executor.value.stages|
  {
    var v := Variant(s, t);
    ExecutionOf(v, v.executor.value, k).(scenario := s, target := Some(t), group := GroupOf(s, k))
  }

  /** The executions of the first `n` targets in a stage, in the order listed. */
  function GroupOfFirst(s: Scenario, k: nat, n: nat): (g: seq<Execution>)
    requires s.executor.Some? && k <= |s.executor.value.stages| && n <= |s.targets|
    ensures |g| == n
  {
    if n == 0 then [] else GroupOfFirst(s, k, n - 1) + [TargetExecution(s, s.targets[n - 1], k)]
  }

  /** A stage's executions, one per target: a group the runner starts together. */
  function StageGroup(s: Scenario, k: nat): (g: seq<Execution>)
    requires s.executor.Some? && k <= |s.executor.value.stages|
    ensures |g| == |s.targets|
  {
    GroupOfFirst(s, k, |s.targets|)
  }

  /** The groups of stages 1 to `k`, one after another. */
  function StageGroups(s: Scenario, k: nat): seq<Execution>
    requires s.executor.Some? && k <= |s.executor.value.stages|
  {
    if k == 0 then [] else StageGroups(s, k - 1) + StageGroup(s, k)
  }

  function Expanded(s: Scenario): Expansion {
    if s.targets == [] then ExpandedOne(s)
    else if s.executor.None? then NoExecutor
    else match s.executor.value.kind
      case OtherKind => UnknownExecutor
      case Staircase => Executions(StageGroups(s, |s.executor.value.stages|))
      case _ => Executions(StageGroup(s, 0))
  }

  // ----- Expansion, as the compiler does it -----

  method ExpandOne(s: Scenario) returns (r: Expansion)
    ensures r == ExpandedOne(s)
  {
    if s.executor.None? {
      return NoExecutor;
    }
    var ex := s.executor.value;
    match ex.kind {
      case ConstantRate => return Executions([ExecutionOf(s, ex, 0)]);
      case RampingRate => return Executions([ExecutionOf(s, ex, 0)]);
      case OtherKind => return UnknownExecutor;
      case Staircase =>
        var out := [];
        for i := 0 to |ex.stages|
          invariant |out| == i && forall k | 0 <= k < i :: out[k] == ExecutionOf(s, ex, k + 1)
        {
          out := out + [ExecutionOf(s, ex, i + 1)];
        }
        r := Executions(out);
    }
  }

  /** One target's executions of stages 1 to `m`. */
  function StagesOf(s: Scenario, t: Target, m: nat): (row: seq<Execution>)
    requires s.executor.Some? && m <= |s.executor.value.stages|
    ensures |row| == m
  {
    if m == 0 then [] else StagesOf(s, t, m - 1) + [TargetExecution(s, t, m)]
  }

  lemma {:induction false} StagesAt(s: Scenario, t: Target, m: nat, i: nat)
    requires s.executor.Some? && i < m <= |s.executor.value.stages|
    ensures StagesOf(s, t, m)[i] == TargetExecution(s, t, i + 1)
  {
    hide TargetExecution;
    if i < m - 1 {
      StagesAt(s, t, m - 1, i);
    }
  }

  /** One target's executions, stage by stage. */
  function Row(s: Scenario, t: Target): seq<Execution>
    requires s.executor.Some?
  {
    if s.executor.value.kind.Staircase? then StagesOf(s, t, |s.executor.value.stages|) else [TargetExecution(s, t, 0)]
  }

  /** The executions of the first `n` targets, target by target. */
  function Rows(s: Scenario, n: nat): seq<Execution>
    requires s.executor.Some? && n <= |s.targets|
  {
    if n == 0 then [] else Rows(s, n - 1) + Row(s, s.targets[n - 1])
  }

  function OfStage(all: seq<Execution>, k: nat): seq<Execution> {
    if all == [] then []
    else OfStage(all[..|all| - 1], k) + if all[|all| - 1].stage == k then [all[|all| - 1]] else []
  }

  function Highest(all: seq<Execution>): nat {
    if all == [] then 0
    else
      var h := Highest(all[..|all| - 1]);
      if all[|all| - 1].stage > h then all[|all| - 1].stage else h
  }

  lemma {:induction false} OfStageAppend(a: seq<Execution>, b: seq<Execution>, k: nat)
    ensures OfStage(a + b, k) == OfStage(a, k) + OfStage(b, k)
    decreases |b|
  {
    if b == [] {
      assert a + b == a;
    } else {
      assert (a + b)[..|a + b| - 1] == a + b[..|b| - 1];
      OfStageAppend(a, b[..|b| - 1], k);
    }
  }

  lemma {:induction false} HighestAppend(a: seq<Execution>, b: seq<Execution>)
    ensures Highest(a + b) == if Highest(a) > Highest(b) then Highest(a) else Highest(b)
    decreases |b|
  {
    if b == [] {
      assert a + b == a;
    } else {
      assert (a + b)[..|a + b| - 1] == a + b[..|b| - 1];
      HighestAppend(a, b[..|b| - 1]);
    }
  }

  lemma TargetStage(s: Scenario, t: Target, k: nat)
    requires s.executor.Some? && k <= |s.executor.value.stages|
    ensures TargetExecution(s, t, k).stage == k
  {
  }

  /** A row has one execution of each stage. */
  lemma {:induction false} OfStageRow(s: Scenario, t: Target, k: nat, m: nat)
    requires s.executor.Some? && m <= |s.executor.value.stages| && 0 < k <= |s.executor.value.stages|
    ensures OfStage(StagesOf(s, t, m), k) == (if k <= m then [TargetExecution(s, t, k)] else [])
    ensures Highest(StagesOf(s, t, m)) == m
  {
    hide TargetExecution;
    if m > 0 {
      OfStageRow(s, t, k, m - 1);
      TargetStage(s, t, m);
      assert StagesOf(s, t, m)[..m - 1] == StagesOf(s, t, m - 1);
    }
  }

  /** Of the executions target by target, those of one stage are that stage's group. */
  lemma {:induction false} OfStageRows(s: Scenario, k: nat, n: nat)
    requires s.executor.Some? && s.executor.value.kind.Staircase?
    requires n <= |s.targets| && 0 < k <= |s.executor.value.stages|
    ensures OfStage(Rows(s, n), k) == GroupOfFirst(s, k, n)
    ensures Highest(Rows(s, n)) == if n == 0 then 0 else |s.executor.value.stages|
  {
    hide *;
    if n == 0 {
      NoRows(s, k);
    } else {
      var row := StagesOf(s, s.targets[n - 1], |s.executor.value.stages|);
      OfStageRows(s, k, n - 1);
      OfStageRow(s, s.targets[n - 1], k, |s.executor.value.stages|);
      OfStageAppend(Rows(s, n - 1), row, k);
      HighestAppend(Rows(s, n - 1), row);
      RowsNext(s, n);
      GroupNext(s, k, n);
    }
  }

  lemma NoRows(s: Scenario, k: nat)
    requires s.executor.Some? && k <= |s.executor.value.stages|
    ensures Rows(s, 0) == [] && OfStage(Rows(s, 0), k) == [] && GroupOfFirst(s, k, 0) == [] && Highest(Rows(s, 0)) == 0
  {
  }

  lemma RowsNext(s: Scenario, n: nat)
    requires s.executor.Some? && s.executor.value.kind.Staircase? && 0 < n <= |s.targets|
    ensures Rows(s, n) == Rows(s, n - 1) + StagesOf(s, s.targets[n - 1], |s.executor.value.stages|)
  {
    hide StagesOf;
  }

  lemma GroupNext(s: Scenario, k: nat, n: nat)
    requires s.executor.Some? && k <= |s.executor.value.stages| && 0 < n <= |s.targets|
    ensures GroupOfFirst(s, k, n) == GroupOfFirst(s, k, n - 1) + [TargetExecution(s, s.targets[n - 1], k)]
  {
    hide TargetExecution;
  }

  lemma HighestOfOne(e: Execution)
    ensures Highest([e]) == e.stage && Highest([]) == 0
  {
    assert [e][..0] == [];
  }

  lemma RowWithoutStages(s: Scenario, t: Target)
    requires s.executor.Some?
    requires s.executor.value.kind.Staircase? ==> s.executor.value.stages == []
    ensures Highest(Row(s, t)) == 0
    ensures Row(s, t) == if s.executor.value.kind.Staircase? then [] else [TargetExecution(s, t, 0)]
  {
    TargetStage(s, t, 0);
    hide TargetExecution, Highest;
    HighestOfOne(TargetExecution(s, t, 0));
  }

  lemma {:induction false} HighestWithoutStages(s: Scenario, n: nat)
    requires s.executor.Some? && n <= |s.targets|
    requires s.executor.value.kind.Staircase? ==> s.executor.value.stages == []
    ensures Highest(Rows(s, n)) == 0
  {
    hide TargetExecution, Row;
    if n > 0 {
      HighestWithoutStages(s, n - 1);
      RowWithoutStages(s, s.targets[n - 1]);
      hide Highest;
      HighestAppend(Rows(s, n - 1), Row(s, s.targets[n - 1]));
    }
  }

  lemma {:induction false} RowsWithoutStages(s: Scenario, n: nat)
    requires s.executor.Some? && n <= |s.targets|
    requires s.executor.value.kind.Staircase? ==> s.executor.value.stages == []
    ensures Highest(Rows(s, n)) == 0
    ensures Rows(s, n) == if s.executor.value.kind.Staircase? then [] else GroupOfFirst(s, 0, n)
  {
    hide TargetExecution, Highest, Row;
    HighestWithoutStages(s, n);
    if n > 0 {
      RowsWithoutStages(s, n - 1);
      RowWithoutStages(s, s.targets[n - 1]);
    }
  }

  /** An execution of one target, with the scenario, the target and the group noted on it. */
  function Tagged(e: Execution, s: Scenario, t: Target): Execution {
    e.(scenario := s, target := Some(t), group := GroupOf(s, e.stage))
  }

  method TagAll(all: seq<Execution>, s: Scenario, t: Target) returns (out: seq<Execution>)
    ensures |out| == |all| && forall i | 0 <= i < |all| :: out[i] == Tagged(all[i], s, t)
  {
    out := [];
    for i := 0 to |all|
      invariant |out| == i && forall k | 0 <= k < i :: out[k] == Tagged(all[k], s, t)
    {
      var e := all[i].(scenario := s, target := Some(t), group := s.name);
      if e.stage > 0 {
        e := e.(group := StageName(s.name, e.stage));
      }
      out := out + [e];
    }
  }

  /** A variant's executions, tagged, are its target's row. */
  lemma TaggedIsRow(s: Scenario, t: Target, out: seq<Execution>)
    requires s.executor.Some? && !s.executor.value.kind.OtherKind?
    requires var one := ExpandedOne(Variant(s, t));
      one.Executions? && |out| == |one.all| && forall i | 0 <= i < |out| :: out[i] == Tagged(one.all[i], s, t)
    ensures out == Row(s, t)
  {
    var one := ExpandedOne(Variant(s, t)).all;
    var row := Row(s, t);
    assert |out| == |row|;
    forall i | 0 <= i < |out|
      ensures out[i] == row[i]
    {
      assert out[i] == Tagged(one[i], s, t);
      if s.executor.value.kind.Staircase? {
        StagesAt(s, t, |s.executor.value.stages|, i);
      }
    }
  }

  method ExpandTarget(s: Scenario, t: Target) returns (r: Expansion)
    ensures if s.executor.None? then r == NoExecutor
            else if s.executor.value.kind.OtherKind? then r == UnknownExecutor
            else r == Executions(Row(s, t))
  {
    var variant := ForTarget(s, t);
    variant := variant.(name := s.name + "/" + t.name);
    var one := ExpandOne(variant);
    if !one.Executions? {
      return one;
    }
    var out := TagAll(one.all, s, t);
    TaggedIsRow(s, t, out);
    r := Executions(out);
  }

  method HighestStage(all: seq<Execution>) returns (stages: nat)
    ensures stages == Highest(all)
  {
    stages := 0;
    for i := 0 to |all|
      invariant stages == Highest(all[..i])
    {
      assert all[..i + 1][..i] == all[..i];
      if all[i].stage > stages {
        stages := all[i].stage;
      }
    }
    assert all[..|all|] == all;
  }

  /** The highest stage of all is the number of stages. */
  lemma HighestOfAll(s: Scenario)
    requires s.executor.Some? && s.targets != []
    ensures var ex := s.executor.value;
      && Highest(Rows(s, |s.targets|)) == (if ex.kind.Staircase? then |ex.stages| else 0)
      && (!ex.kind.Staircase? ==> Rows(s, |s.targets|) == StageGroup(s, 0))
      && (ex.kind.Staircase? && ex.stages == [] ==> Rows(s, |s.targets|) == [])
  {
    if s.executor.value.kind.Staircase? && s.executor.value.stages != [] {
      OfStageRows(s, 1, |s.targets|);
    } else {
      RowsWithoutStages(s, |s.targets|);
    }
  }

  /** Stage by stage, so that a group's executions are next to each other. */
  method StageMajor(s: Scenario, all: seq<Execution>) returns (out: seq<Execution>)
    requires s.executor.Some? && s.targets != [] && all == Rows(s, |s.targets|)
    ensures out == if s.executor.value.kind.Staircase?
                   then StageGroups(s, |s.executor.value.stages|) else StageGroup(s, 0)
  {
    hide TargetExecution, Highest, OfStage, Rows, GroupOfFirst;
    HighestOfAll(s);
    var stages := HighestStage(all);
    out := all;
    if stages > 0 {
      out := [];
      for st := 1 to stages + 1
        invariant out == StageGroups(s, st - 1)
      {
        OfStageRows(s, st, |s.targets|);
        var group := Pick(all, st);
        out := out + group;
      }
    }
  }

  method Pick(all: seq<Execution>, st: nat) returns (group: seq<Execution>)
    ensures group == OfStage(all, st)
  {
    group := [];
    for i := 0 to |all|
      invariant group == OfStage(all[..i], st)
    {
      assert all[..i + 1][..i] == all[..i];
      if all[i].stage == st {
        group := group + [all[i]];
      }
    }
    assert all[..|all|] == all;
  }

  method Expand(s: Scenario) returns (r: Expansion)
    ensures r == Expanded(s)
  {
    if s.targets == [] {
      r := ExpandOne(s);
      return;
    }
    var all := [];
    for i := 0 to |s.targets|
      invariant i > 0 ==> s.executor.Some? && !s.executor.value.kind.OtherKind?
      invariant if s.executor.Some? then all == Rows(s, i) else all == []
    {
      var row := ExpandTarget(s, s.targets[i]);
      if !row.Executions? {
        return row;
      }
      all := all + row.all;
    }
    var out := StageMajor(s, all);
    r := Executions(out);
  }
}
