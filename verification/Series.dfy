/** The series a plan's executions emit on their backends, and that no two of them are the same. */
module Series {
  import opened Tally
  import opened Labels
  import opened BackendSegments
  import opened Plan
  import opened Prefixes
  import BackendName
  import Rates

  // ----- The validator's labels are the compiler's -----

  function Names(all: seq<Execution>): (names: seq<string>)
    ensures |names| == |all| && forall i | 0 <= i < |all| :: names[i] == all[i].name
  {
    if all == [] then [] else Names(all[..|all| - 1]) + [all[|all| - 1].name]
  }

  lemma NamesAppend(a: seq<Execution>, b: seq<Execution>)
    ensures Names(a + b) == Names(a) + Names(b)
  {
  }

  lemma TargetName(s: Scenario, t: Target, k: nat)
    requires s.executor.Some? && k <= |s.executor.value.stages|
    ensures TargetExecution(s, t, k).name == var v := s.name + "/" + t.name; if k == 0 then v else StageName(v, k)
  {
  }

  lemma StageNamesNext(s: Scenario, t: Target, m: nat)
    requires s.executor.Some? && 0 < m <= |s.executor.value.stages|
    ensures Names(StagesOf(s, t, m)) == Names(StagesOf(s, t, m - 1)) + [TargetExecution(s, t, m).name]
  {
    hide TargetExecution;
    NamesAppend(StagesOf(s, t, m - 1), [TargetExecution(s, t, m)]);
  }

  lemma NoStageNames(s: Scenario, t: Target, name: string)
    requires s.executor.Some?
    ensures Names(StagesOf(s, t, 0)) == [] == StageNames(name, 0)
  {
  }

  lemma StageNamesLast(name: string, m: nat)
    requires m > 0
    ensures StageNames(name, m) == StageNames(name, m - 1) + [StageName(name, m)]
  {
  }

  lemma {:induction false} StageNamesOf(s: Scenario, t: Target, m: nat)
    requires s.executor.Some? && m <= |s.executor.value.stages|
    ensures Names(StagesOf(s, t, m)) == StageNames(s.name + "/" + t.name, m)
  {
    hide *;
    if m == 0 {
      NoStageNames(s, t, s.name + "/" + t.name);
    } else {
      StageNamesOf(s, t, m - 1);
      TargetName(s, t, m);
      StageNamesNext(s, t, m);
      StageNamesLast(s.name + "/" + t.name, m);
    }
  }

  lemma RowNames(s: Scenario, t: Target)
    requires s.executor.Some?
    ensures Names(Row(s, t)) == VariantLabels(s.executor, s.name + "/" + t.name)
  {
    TargetName(s, t, 0);
    StageNamesOf(s, t, |s.executor.value.stages|);
    hide TargetExecution, StagesOf, StageNames;
  }

  lemma RowsNamesNext(s: Scenario, n: nat)
    requires s.executor.Some? && 0 < n <= |s.targets|
    ensures Names(Rows(s, n)) == Names(Rows(s, n - 1)) + Names(Row(s, s.targets[n - 1]))
  {
    hide Row;
    NamesAppend(Rows(s, n - 1), Row(s, s.targets[n - 1]));
  }

  lemma TargetLabelsNext(ex: Option<Executor>, name: string, targets: seq<Target>, n: nat)
    requires 0 < n <= |targets|
    ensures TargetLabels(ex, name, targets[..n])
            == TargetLabels(ex, name, targets[..n - 1]) + VariantLabels(ex, name + "/" + targets[n - 1].name)
  {
    hide VariantLabels;
    assert targets[..n][..n - 1] == targets[..n - 1];
  }

  lemma NoRowNames(s: Scenario)
    requires s.executor.Some?
    ensures Names(Rows(s, 0)) == [] == TargetLabels(s.executor, s.name, s.targets[..0])
  {
  }

  /** Target by target, the labels are the ones validation builds. */
  lemma {:induction false} RowsNames(s: Scenario, n: nat)
    requires s.executor.Some? && n <= |s.targets|
    ensures Names(Rows(s, n)) == TargetLabels(s.executor, s.name, s.targets[..n])
  {
    hide *;
    if n == 0 {
      NoRowNames(s);
    } else {
      RowsNames(s, n - 1);
      RowNames(s, s.targets[n - 1]);
      RowsNamesNext(s, n);
      TargetLabelsNext(s.executor, s.name, s.targets, n);
    }
  }

  lemma SubjectIsScenario(p: Plan, s: Scenario)
    ensures var w := WithDefaults(p, s);
      && SubjectTargets(p, s) == w.targets && SubjectExecutor(p, s) == w.executor && w.name == s.name
      && EffectiveStats(p, s) == w.stats
  {
  }

  // ----- Stage by stage is a permutation of target by target -----

  function ByStages(all: seq<Execution>, m: nat): seq<Execution> {
    if m == 0 then [] else ByStages(all, m - 1) + OfStage(all, m)
  }

  lemma {:induction false} GroupsByStages(s: Scenario, k: nat)
    requires s.executor.Some? && s.executor.value.kind.Staircase? && k <= |s.executor.value.stages|
    ensures StageGroups(s, k) == ByStages(Rows(s, |s.targets|), k)
  {
    hide OfStage, Rows, GroupOfFirst, TargetExecution;
    if k > 0 {
      GroupsByStages(s, k - 1);
      OfStageRows(s, k, |s.targets|);
    }
  }

  lemma SumOfStages(all: seq<Execution>, m: nat, f: Execution -> int)
    requires m > 0
    ensures Sum(ByStages(all, m), f) == Sum(ByStages(all, m - 1), f) + Sum(OfStage(all, m), f)
  {
    SumConcat(ByStages(all, m - 1), OfStage(all, m), f);
  }

  lemma SumOfStageNext(all: seq<Execution>, e: Execution, m: nat, f: Execution -> int)
    ensures Sum(OfStage(all + [e], m), f) == Sum(OfStage(all, m), f) + if e.stage == m then f(e) else 0
  {
    assert (all + [e])[..|all|] == all;
    if e.stage == m {
      SumAppend(OfStage(all, m), f, e);
    } else {
      assert OfStage(all, m) + [] == OfStage(all, m);
    }
  }

  lemma {:induction false} ByStagesOneMore(all: seq<Execution>, e: Execution, m: nat, f: Execution -> int)
    ensures Sum(ByStages(all + [e], m), f) == Sum(ByStages(all, m), f) + if 1 <= e.stage <= m then f(e) else 0
  {
    if m > 0 {
      hide Sum, ByStages, OfStage;
      ByStagesOneMore(all, e, m - 1, f);
      SumOfStages(all, m, f);
      SumOfStages(all + [e], m, f);
      SumOfStageNext(all, e, m, f);
    }
  }

  lemma {:induction false} ByStagesSum(all: seq<Execution>, m: nat, f: Execution -> int)
    requires forall i | 0 <= i < |all| :: 1 <= all[i].stage <= m
    ensures Sum(ByStages(all, m), f) == Sum(all, f)
  {
    if all == [] {
      NoneByStages(m);
    } else {
      var k := |all| - 1;
      assert all == all[..k] + [all[k]];
      ByStagesSum(all[..k], m, f);
      ByStagesOneMore(all[..k], all[k], m, f);
      SumAppend(all[..k], f, all[k]);
    }
  }

  lemma {:induction false} NoneByStages(m: nat)
    ensures ByStages([], m) == []
  {
    if m > 0 {
      NoneByStages(m - 1);
    }
  }

  lemma {:induction false} RowsStages(s: Scenario, n: nat)
    requires s.executor.Some? && s.executor.value.kind.Staircase? && n <= |s.targets|
    ensures forall i | 0 <= i < |Rows(s, n)| :: 1 <= Rows(s, n)[i].stage <= |s.executor.value.stages|
  {
    hide *;
    if n == 0 {
      NoRows(s, 0);
    } else {
      RowsStages(s, n - 1);
      RowStages(s, s.targets[n - 1]);
      RowsNext(s, n);
    }
  }

  lemma RowStages(s: Scenario, t: Target)
    requires s.executor.Some?
    ensures var row := StagesOf(s, t, |s.executor.value.stages|);
      forall i | 0 <= i < |row| :: 1 <= row[i].stage <= |s.executor.value.stages|
  {
    hide TargetExecution;
    var row := StagesOf(s, t, |s.executor.value.stages|);
    forall i | 0 <= i < |row|
      ensures 1 <= row[i].stage <= |s.executor.value.stages|
    {
      StagesAt(s, t, |row|, i);
      TargetStage(s, t, i + 1);
    }
  }

  /** The compiler's order and the validator's hold the same executions, each as often. */
  lemma ExpandedIsRows(s: Scenario, f: Execution -> int)
    requires s.targets != [] && Expanded(s).Executions?
    ensures Sum(Expanded(s).all, f) == Sum(Rows(s, |s.targets|), f)
  {
    hide Sum, TargetExecution;
    HighestOfAll(s);
    if s.executor.value.kind.Staircase? {
      GroupsByStages(s, |s.executor.value.stages|);
      RowsStages(s, |s.targets|);
      ByStagesSum(Rows(s, |s.targets|), |s.executor.value.stages|, f);
    }
  }

  ghost function Called(x: string): Execution -> int {
    (e: Execution) => if e.name == x then 1 else 0
  }

  lemma {:induction false} NameCount(all: seq<Execution>, x: string)
    ensures multiset(Names(all))[x] == Sum(all, Called(x))
  {
    if all != [] {
      NameCount(all[..|all| - 1], x);
    }
  }

  lemma OneTargetNames(s: Scenario)
    requires s.targets == [] && ExpandedOne(s).Executions?
    ensures Names(ExpandedOne(s).all) == VariantLabels(s.executor, s.name)
  {
    var ex := s.executor.value;
    if ex.kind.Staircase? {
      StageNamesAt(s.name, |ex.stages|);
    }
  }

  lemma {:induction false} StageNamesAt(name: string, m: nat)
    ensures forall i | 0 <= i < m :: StageNames(name, m)[i] == StageName(name, i + 1)
  {
    if m > 0 {
      StageNamesAt(name, m - 1);
    }
  }

  /** The labels that validation judges are exactly those the compiler gives the executions. */
  lemma LabelsAgree(p: Plan, s: Scenario)
    requires Expanded(WithDefaults(p, s)).Executions?
    ensures multiset(ValidatorLabels(p, s)) == multiset(Names(Expanded(WithDefaults(p, s)).all))
  {
    var w := WithDefaults(p, s);
    var all := Expanded(w).all;
    SubjectIsScenario(p, s);
    if w.targets == [] {
      OneTargetNames(w);
    } else {
      RowsNames(w, |w.targets|);
      assert w.targets[..|w.targets|] == w.targets;
      forall x: string
        ensures multiset(Names(all))[x] == multiset(Names(Rows(w, |w.targets|)))[x]
      {
        NameCount(all, x);
        NameCount(Rows(w, |w.targets|), x);
        ExpandedIsRows(w, Called(x));
      }
      hide Names, Expanded, Rows, TargetLabels;
    }
  }

  // ----- Prefixes, as multisets -----

  lemma PrefixesSplit(prefix: string, a: seq<string>, x: string, b: seq<string>, fold: Fold)
    ensures PrefixesOf(prefix, a + [x] + b, fold)
            == PrefixesOf(prefix, a, fold) + [StatsPrefix(prefix, x, fold)] + PrefixesOf(prefix, b, fold)
    ensures PrefixesOf(prefix, a + b, fold) == PrefixesOf(prefix, a, fold) + PrefixesOf(prefix, b, fold)
  {
    hide StatsPrefix;
  }

  lemma MembersAround(b: seq<string>, i: nat)
    requires i < |b|
    ensures b == b[..i] + [b[i]] + b[i + 1..]
    ensures multiset(b) == multiset(b[..i] + b[i + 1..]) + multiset{b[i]}
  {
    assert b == b[..i] + [b[i]] + b[i + 1..];
  }

  lemma SameWithout(m: multiset<string>, n: multiset<string>, x: string)
    requires m + multiset{x} == n + multiset{x}
    ensures m == n
  {
    assert m == m + multiset{x} - multiset{x};
  }

  /** Labels that are the same but for their order give prefixes that are. */
  lemma {:induction false} SameLabels(prefix: string, a: seq<string>, b: seq<string>, fold: Fold)
    requires multiset(a) == multiset(b)
    ensures multiset(PrefixesOf(prefix, a, fold)) == multiset(PrefixesOf(prefix, b, fold))
  {
    hide *;
    if a == [] {
      assert b == [] by { assert |multiset(b)| == |multiset(a)| == 0; }
    } else {
      var k := |a| - 1;
      var i := PlaceOf(b, a[k]);
      MembersAround(a, k);
      MembersAround(b, i);
      var c, d := a[..k] + a[k + 1..], b[..i] + b[i + 1..];
      SameWithout(multiset(c), multiset(d), a[k]);
      SameLabels(prefix, c, d, fold);
      PrefixesAround(prefix, a, k, fold);
      PrefixesAround(prefix, b, i, fold);
    }
  }

  lemma PlaceOf(b: seq<string>, x: string) returns (i: nat)
    requires x in multiset(b)
    ensures i < |b| && b[i] == x
  {
    i :| 0 <= i < |b| && b[i] == x;
  }

  lemma PrefixesAround(prefix: string, b: seq<string>, i: nat, fold: Fold)
    requires i < |b|
    ensures multiset(PrefixesOf(prefix, b, fold))
            == multiset(PrefixesOf(prefix, b[..i] + b[i + 1..], fold)) + multiset{StatsPrefix(prefix, b[i], fold)}
  {
    hide *;
    MembersAround(b, i);
    PrefixesSplit(prefix, b[..i], b[i], b[i + 1..], fold);
  }

  /** What a scenario's executions emit under, in the order they run. */
  function EmittedPrefixes(p: Plan, s: Scenario, fold: Fold): seq<string> {
    var w := WithDefaults(p, s);
    if HasStatsd(p, s) && Expanded(w).Executions?
    then PrefixesOf(EffectiveStats(p, s).value.prefix, Names(Expanded(w).all), fold) else []
  }

  /** The validator's prefixes of a scenario are exactly those its executions emit under. */
  lemma SamePrefixes(p: Plan, s: Scenario, fold: Fold)
    requires Expanded(WithDefaults(p, s)).Executions?
    ensures multiset(EmittedPrefixes(p, s, fold)) == multiset(ScenarioPrefixes(p, s, fold))
  {
    if HasStatsd(p, s) {
      LabelsAgree(p, s);
      SameLabels(EffectiveStats(p, s).value.prefix, Names(Expanded(WithDefaults(p, s)).all),
                 ValidatorLabels(p, s), fold);
    }
  }

  // ----- The whole plan -----

  function AllEmitted(p: Plan, n: nat, fold: Fold): seq<string>
    requires n <= |p.scenarios|
  {
    if n == 0 then [] else AllEmitted(p, n - 1, fold) + EmittedPrefixes(p, p.scenarios[n - 1], fold)
  }

  ghost predicate Expands(p: Plan) {
    forall i | 0 <= i < |p.scenarios| :: Expanded(WithDefaults(p, p.scenarios[i])).Executions?
  }

  lemma {:induction false} AllSame(p: Plan, n: nat, fold: Fold)
    requires n <= |p.scenarios| && Expands(p)
    ensures multiset(AllEmitted(p, n, fold)) == multiset(AllPrefixes(p, n, fold))
  {
    hide *;
    if n == 0 {
      NoneYet(p, fold);
    } else {
      OneMoreScenario(p, n, fold);
      AllSame(p, n - 1, fold);
      ExpandsAt(p, n - 1);
      SamePrefixes(p, p.scenarios[n - 1], fold);
    }
  }

  lemma NoneYet(p: Plan, fold: Fold)
    ensures AllEmitted(p, 0, fold) == [] && AllPrefixes(p, 0, fold) == []
  {
  }

  lemma OneMoreScenario(p: Plan, n: nat, fold: Fold)
    requires 0 < n <= |p.scenarios|
    ensures AllEmitted(p, n, fold) == AllEmitted(p, n - 1, fold) + EmittedPrefixes(p, p.scenarios[n - 1], fold)
    ensures AllPrefixes(p, n, fold) == AllPrefixes(p, n - 1, fold) + ScenarioPrefixes(p, p.scenarios[n - 1], fold)
  {
    hide EmittedPrefixes, ScenarioPrefixes;
  }

  lemma ExpandsAt(p: Plan, i: nat)
    requires Expands(p) && i < |p.scenarios|
    ensures Expanded(WithDefaults(p, p.scenarios[i])).Executions?
  {
  }

  lemma {:induction false} DistinctIff(xs: seq<string>)
    ensures Distinct(xs) <==> forall x :: multiset(xs)[x] <= 1
  {
    if xs != [] {
      var k := |xs| - 1;
      var front, last := xs[..k], xs[k];
      DistinctIff(front);
      assert xs == front + [last];
      DistinctAppend(front, [last]);
      assert last in [last];
      forall x: string
        ensures multiset(xs)[x] == multiset(front)[x] + if x == last then 1 else 0
      {
        assert multiset(xs) == multiset(front) + multiset{last};
      }
      hide Distinct;
      if forall x :: multiset(xs)[x] <= 1 {
        assert multiset(xs)[last] <= 1;
        forall x: string
          ensures multiset(front)[x] <= 1
        {
          assert multiset(xs)[x] <= 1;
        }
      }
    }
  }

  /** In an accepted plan no two executions emit under one prefix. */
  lemma EmittedDistinct(p: Plan, fold: Fold)
    requires Accepted(p, fold) && Expands(p)
    ensures Distinct(AllEmitted(p, |p.scenarios|, fold))
  {
    AllSame(p, |p.scenarios|, fold);
    DistinctIff(AllPrefixes(p, |p.scenarios|, fold));
    DistinctIff(AllEmitted(p, |p.scenarios|, fold));
  }

  // ----- On every backend -----

  lemma NoDotAfter(a: string, m: string)
    requires AllKept(m)
    ensures var s := a + "." + m;
      s[|a|] == '.' && forall i | |a| < i < |s| :: s[i] != '.'
  {
    var s := a + "." + m;
    forall i | |a| < i < |s|
      ensures s[i] != '.'
    {
      assert s[i] == m[i - |a| - 1];
    }
  }

  /** A component without a dot is the last one. */
  lemma LastComponent(a: string, m: string, b: string, n: string)
    requires AllKept(m) && AllKept(n) && a + "." + m == b + "." + n
    ensures a == b && m == n
  {
    NoDotAfter(a, m);
    NoDotAfter(b, n);
    var s := a + "." + m;
    assert |a| == |b|;
    assert s[..|a|] == a && s[..|b|] == b && s[|a| + 1..] == m && s[|b| + 1..] == n;
  }

  /** The addresses there are to name backends by: none before a name is resolved. */
  function Addresses(pool: Rates.Pool): seq<string> {
    match pool
    case Distributor(targets) => targets
    case Unresolved(_) => []
    case Services(services) => services
  }

  /** There is an address for every options object. */
  predicate ByBackend(pool: Rates.Pool) {
    pool.Services? || (pool.Distributor? && |pool.targets| == 1)
  }

  lemma ByBackendIff(e: Execution, pool: Rates.Pool)
    requires Rates.ForPool(e, pool).Ok?
    ensures |Rates.ForPool(e, pool).value.1| == |Addresses(pool)| <==> ByBackend(pool)
  {
    hide Rates.SentTo, Rates.ShareOf;
  }

  /** Where an execution runs: its pool, and what its engines call themselves, sanitized. An engine without a
      name refuses an execution that asks for it, and emits nothing. */
  datatype Site = Site(pool: Rates.Pool, engines: seq<string>)

  /** The last components of an execution's series, one for each backend; none where the backends share
      one series. By name they are the engines', by address the compiler's. */
  ghost function Components(byName: bool, site: Site, split: SplitHost, fold: Fold): Option<seq<string>> {
    if byName then Some(site.engines)
    else if ByBackend(site.pool) then Some(NamesOf(Addresses(site.pool), split, fold))
    else None
  }

  ghost function SeriesOf(prefix: string, components: Option<seq<string>>): seq<string> {
    if components.None? then [prefix]
    else seq(|components.value|, k requires 0 <= k < |components.value| => prefix + "." + components.value[k])
  }

  /** What an engine called `name` makes of the placeholder that the compiler sends it, in a prefix that has
      no other. */
  lemma NamePutIn(prefix: string, name: string)
    requires !BackendName.HasToken(prefix)
    ensures BackendName.HasToken(prefix + "." + BackendName.TOKEN)
    ensures BackendName.ReplaceAll(prefix + "." + BackendName.TOKEN, name) == prefix + "." + name
  {
    var s := prefix + "." + BackendName.TOKEN;
    assert BackendName.Occurs(s, |prefix| + 1);
    BackendName.ReplaceTail(prefix, name);
  }

  /** The series that the compiler, or the engines, name for an execution. */
  method EmitSeries(prefix: string, byName: bool, site: Site, split: SplitHost, fold: Fold)
    returns (series: seq<string>)
    ensures series == SeriesOf(prefix, Components(byName, site, split, fold))
  {
    if !byName && !ByBackend(site.pool) {
      return [prefix];
    }
    var names := site.engines;
    if !byName {
      names := BackendNames(Addresses(site.pool), split, fold);
    }
    series := [];
    for b := 0 to |names|
      invariant |series| == b && forall k | 0 <= k < b :: series[k] == prefix + "." + names[k]
    {
      series := series + [prefix + "." + names[b]];
    }
    hide Addresses, ByBackend, NamesOf;
  }

  // ----- No two alike -----

  ghost predicate NoTwoAlike(all: seq<seq<string>>) {
    forall i, b, j, c | 0 <= i < |all| && 0 <= b < |all[i]| && 0 <= j < |all| && 0 <= c < |all[j]| ::
      i != j || b != c ==> all[i][b] != all[j][c]
  }

  ghost function EachSeries(prefixes: seq<string>, components: seq<Option<seq<string>>>): (all: seq<seq<string>>)
    requires |components| == |prefixes|
    ensures |all| == |prefixes|
  {
    seq(|prefixes|, i requires 0 <= i < |prefixes| => SeriesOf(prefixes[i], components[i]))
  }

  /** The one series of execution `j`, whose backends share it, is that of backend `c` of execution `i`. */
  ghost predicate Clashes(prefixes: seq<string>, components: seq<Option<seq<string>>>, i: nat, c: nat, j: nat)
    requires |components| == |prefixes|
  {
    && i < |prefixes| && j < |prefixes| && components[i].Some? && components[j].None? && c < |components[i].value|
    && prefixes[j] == prefixes[i] + "." + components[i].value[c]
  }

  ghost predicate NoClash(prefixes: seq<string>, components: seq<Option<seq<string>>>)
    requires |components| == |prefixes|
  {
    forall i: nat, c: nat, j: nat :: !Clashes(prefixes, components, i, c, j)
  }

  ghost predicate DotFree(components: Option<seq<string>>) {
    components.Some? ==> forall k | 0 <= k < |components.value| :: AllKept(components.value[k])
  }

  ghost predicate AllDiffer(components: Option<seq<string>>) {
    components.Some? ==> Distinct(components.value)
  }

  lemma SeriesDiffer(prefix: string, components: Option<seq<string>>, b: nat, c: nat)
    requires DotFree(components) && AllDiffer(components) && b < c < |SeriesOf(prefix, components)|
    ensures SeriesOf(prefix, components)[b] != SeriesOf(prefix, components)[c]
  {
    var names := components.value;
    if prefix + "." + names[b] == prefix + "." + names[c] {
      LastComponent(prefix, names[b], prefix, names[c]);
    }
  }

  lemma SeriesApart(prefixes: seq<string>, components: seq<Option<seq<string>>>, i: nat, b: nat, j: nat, c: nat)
    requires |components| == |prefixes| && Distinct(prefixes) && NoClash(prefixes, components)
    requires i < |prefixes| && j < |prefixes| && i != j && DotFree(components[i]) && DotFree(components[j])
    requires b < |SeriesOf(prefixes[i], components[i])| && c < |SeriesOf(prefixes[j], components[j])|
    ensures SeriesOf(prefixes[i], components[i])[b] != SeriesOf(prefixes[j], components[j])[c]
  {
    assert prefixes[i] != prefixes[j];
    if components[i].Some? && components[j].Some? {
      if prefixes[i] + "." + components[i].value[b] == prefixes[j] + "." + components[j].value[c] {
        LastComponent(prefixes[i], components[i].value[b], prefixes[j], components[j].value[c]);
      }
    } else if components[i].Some? {
      assert !Clashes(prefixes, components, i, b, j);
    } else if components[j].Some? {
      assert !Clashes(prefixes, components, j, c, i);
    }
  }

  lemma AllApart(prefixes: seq<string>, components: seq<Option<seq<string>>>)
    requires |components| == |prefixes| && Distinct(prefixes) && NoClash(prefixes, components)
    requires forall i | 0 <= i < |components| :: DotFree(components[i]) && AllDiffer(components[i])
    ensures NoTwoAlike(EachSeries(prefixes, components))
  {
    var all := EachSeries(prefixes, components);
    hide DotFree, AllDiffer, NoClash, Distinct, SeriesOf;
    forall i, b, j, c | 0 <= i < |all| && 0 <= b < |all[i]| && 0 <= j < |all| && 0 <= c < |all[j]| && (i != j || b != c)
      ensures all[i][b] != all[j][c]
    {
      if i != j {
        SeriesApart(prefixes, components, i, b, j, c);
      } else if b < c {
        SeriesDiffer(prefixes[i], components[i], b, c);
      } else {
        SeriesDiffer(prefixes[i], components[i], c, b);
      }
    }
  }

  lemma ClashIsShared(prefixes: seq<string>, components: seq<Option<seq<string>>>, i: nat, c: nat, j: nat)
    requires |components| == |prefixes| && Clashes(prefixes, components, i, c, j)
    ensures !NoTwoAlike(EachSeries(prefixes, components))
  {
    var all := EachSeries(prefixes, components);
    assert all[i][c] == all[j][0] && i != j;
  }

  lemma SameComponents(prefixes: seq<string>, components: seq<Option<seq<string>>>, i: nat)
    requires |components| == |prefixes| && i < |prefixes| && !AllDiffer(components[i])
    ensures !NoTwoAlike(EachSeries(prefixes, components))
  {
    var all := EachSeries(prefixes, components);
    var b, c :| 0 <= b < c < |components[i].value| && components[i].value[b] == components[i].value[c];
    assert all[i][b] == all[i][c];
  }

  lemma NoTwoAlikeIff(prefixes: seq<string>, components: seq<Option<seq<string>>>)
    requires |components| == |prefixes| && Distinct(prefixes)
    requires forall i | 0 <= i < |components| :: DotFree(components[i])
    ensures NoTwoAlike(EachSeries(prefixes, components)) <==>
      NoClash(prefixes, components) && forall i | 0 <= i < |components| :: AllDiffer(components[i])
  {
    hide NoTwoAlike, EachSeries, DotFree, AllDiffer, Distinct;
    if !NoClash(prefixes, components) {
      var i: nat, c: nat, j: nat :| Clashes(prefixes, components, i, c, j);
      ClashIsShared(prefixes, components, i, c, j);
    } else if i :| 0 <= i < |components| && !AllDiffer(components[i]) {
      SameComponents(prefixes, components, i);
    } else {
      AllApart(prefixes, components);
    }
  }

  // ----- Every execution of a plan, on every backend -----

  predicate NamedByEngine(p: Plan, s: Scenario) {
    EffectiveStats(p, s).Some? && EffectiveStats(p, s).value.byName
  }

  /** Which executions ask for the engines' own names, in the order of AllEmitted. */
  function AllByName(p: Plan, n: nat, fold: Fold): (flags: seq<bool>)
    requires n <= |p.scenarios|
    ensures |flags| == |AllEmitted(p, n, fold)|
  {
    if n == 0 then []
    else
      var s := p.scenarios[n - 1];
      AllByName(p, n - 1, fold) + seq(|EmittedPrefixes(p, s, fold)|, i => NamedByEngine(p, s))
  }

  ghost function EachComponents(byName: seq<bool>, sites: seq<Site>, split: SplitHost, fold: Fold):
    (components: seq<Option<seq<string>>>)
    requires |sites| == |byName|
    ensures |components| == |sites|
  {
    seq(|sites|, i requires 0 <= i < |sites| => Components(byName[i], sites[i], split, fold))
  }

  lemma ComponentsAre(byName: bool, site: Site, split: SplitHost, fold: Fold)
    requires byName ==> forall k | 0 <= k < |site.engines| :: AllKept(site.engines[k])
    ensures var components := Components(byName, site, split, fold);
      DotFree(components) && (AllDiffer(components) <==> byName ==> Distinct(site.engines))
  {
    if !byName && ByBackend(site.pool) {
      var addrs := Addresses(site.pool);
      NamesApart(addrs, split, fold);
      var names := NamesOf(addrs, split, fold);
      hide NamesOf, ByAddress, Addresses;
      forall k | 0 <= k < |names|
        ensures AllKept(names[k])
      {
        assert NameOk(ByAddress(addrs, split, fold), k, names[k]);
      }
    }
  }

  /** What keeps the series of a plan apart: the engines of a pool whose names are asked for have different
      ones, and no execution whose backends share one series is called what another is, with the name of
      one of its backends behind. */
  ghost predicate KeptApartBy(prefixes: seq<string>, byName: seq<bool>, sites: seq<Site>, split: SplitHost, fold: Fold)
    requires |sites| == |byName| == |prefixes|
  {
    && (forall i | 0 <= i < |sites| && byName[i] :: Distinct(sites[i].engines))
    && NoClash(prefixes, EachComponents(byName, sites, split, fold))
  }

  lemma KeptApartIff(prefixes: seq<string>, byName: seq<bool>, sites: seq<Site>, split: SplitHost, fold: Fold)
    requires |sites| == |byName| == |prefixes| && Distinct(prefixes)
    requires forall i, k | 0 <= i < |sites| && 0 <= k < |sites[i].engines| :: AllKept(sites[i].engines[k])
    ensures NoTwoAlike(EachSeries(prefixes, EachComponents(byName, sites, split, fold)))
            <==> KeptApartBy(prefixes, byName, sites, split, fold)
  {
    var components := EachComponents(byName, sites, split, fold);
    hide NoTwoAlike, EachSeries, DotFree, AllDiffer, Distinct, NoClash, Components, AllKept;
    forall i | 0 <= i < |sites|
      ensures DotFree(components[i]) && (AllDiffer(components[i]) <==> byName[i] ==> Distinct(sites[i].engines))
    {
      ComponentsAre(byName[i], sites[i], split, fold);
    }
    NoTwoAlikeIff(prefixes, components);
  }

  method SeriesOfEach(prefixes: seq<string>, byName: seq<bool>, sites: seq<Site>, split: SplitHost, fold: Fold)
    returns (all: seq<seq<string>>)
    requires |sites| == |byName| == |prefixes|
    ensures all == EachSeries(prefixes, EachComponents(byName, sites, split, fold))
  {
    hide SeriesOf, Components;
    all := [];
    for i := 0 to |sites|
      invariant |all| == i
      invariant forall k | 0 <= k < i :: all[k] == SeriesOf(prefixes[k], Components(byName[k], sites[k], split, fold))
    {
      var series := EmitSeries(prefixes[i], byName[i], sites[i], split, fold);
      all := all + [series];
    }
  }

  /** The series of every execution of an accepted plan, on every backend of its pool, and exactly when no
      two of them are the same. `sites[i]` is where execution `i` runs. */
  method AllSeries(p: Plan, sites: seq<Site>, split: SplitHost, fold: Fold) returns (all: seq<seq<string>>)
    requires Accepted(p, fold) && Expands(p)
    requires |sites| == |AllEmitted(p, |p.scenarios|, fold)|
    requires forall i, k | 0 <= i < |sites| && 0 <= k < |sites[i].engines| :: AllKept(sites[i].engines[k])
    ensures var prefixes, byName := AllEmitted(p, |p.scenarios|, fold), AllByName(p, |p.scenarios|, fold);
      && all == EachSeries(prefixes, EachComponents(byName, sites, split, fold))
      && (NoTwoAlike(all) <==> KeptApartBy(prefixes, byName, sites, split, fold))
  {
    EmittedDistinct(p, fold);
    hide AllEmitted, AllByName, Accepted, Expands, Distinct, NoTwoAlike, EachSeries, EachComponents, KeptApartBy;
    hide AllKept;
    var prefixes, byName := AllEmitted(p, |p.scenarios|, fold), AllByName(p, |p.scenarios|, fold);
    all := SeriesOfEach(prefixes, byName, sites, split, fold);
    KeptApartIff(prefixes, byName, sites, split, fold);
  }

  // ----- A plan whose series clash -----

  /** The prefix of a scenario `a/b` is that of `a` with the segment of `b` behind. */
  lemma NestedPrefix(prefix: string, a: string, b: string, name: string, fold: Fold)
    requires LabelSegments(b, fold) == [name]
    ensures StatsPrefix(prefix, a + "/" + b, fold) == StatsPrefix(prefix, a, fold) + "." + name
  {
    SegmentsAcross(a, b, fold);
    hide LabelSegments;
    var xs := [if prefix == "" then DEFAULT_PREFIX else prefix] + LabelSegments(a, fold);
    assert (xs + [name])[..|xs|] == xs;
    assert [if prefix == "" then DEFAULT_PREFIX else prefix] + LabelSegments(a + "/" + b, fold) == xs + [name];
  }

  lemma OneLetter(c: char, fold: Fold)
    requires 'a' <= c <= 'z'
    ensures LabelSegments([c], fold) == [[c]]
  {
    assert [c][0] == c && c < 128 as char && AsciiLower(c) == c;
    assert Lower([c], fold) == [c];
    assert [c][1..] == "";
    assert Reduce([c], "", false) == [c];
    assert FirstSlash([c]) == 1;
    SegmentsPrepend([c], [], fold);
    assert [[c]] + [] == [[c]];
  }

  /** Two requests a second, at a constant rate. */
  function Steady(name: string): Scenario {
    Scenario(name, "", "http://target", [], Some(Executor(ConstantRate, 2, 1, 0, [], false)), None,
             Request("", [], "", ""), "", false)
  }

  function MixedPlan(): Plan {
    Plan([Steady("a"), Steady("a/b")], None, Some(Stats("", true, false)))
  }

  function MixedSites(): seq<Site> {
    [Site(Rates.Services(["b:8443"]), []), Site(Rates.Distributor(["x:8443", "y:8443"]), [])]
  }

  lemma SteadyIs(name: string, fold: Fold)
    ensures var p, s := MixedPlan(), Steady(name);
      && Expanded(WithDefaults(p, s)).Executions? && HasStatsd(p, s) && !NamedByEngine(p, s)
      && ScenarioPrefixes(p, s, fold) == EmittedPrefixes(p, s, fold) == [StatsPrefix("", name, fold)]
  {
    hide StatsPrefix;
    var p, s := MixedPlan(), Steady(name);
    var w := WithDefaults(p, s);
    assert Expanded(w).all == [ExecutionOf(w, w.executor.value, 0)];
    assert ValidatorLabels(p, s) == [name] == Names(Expanded(w).all);
  }

  lemma TwoScenarios(p: Plan, fold: Fold)
    requires |p.scenarios| == 2
    ensures var s, t := p.scenarios[0], p.scenarios[1];
      && AllPrefixes(p, 2, fold) == ScenarioPrefixes(p, s, fold) + ScenarioPrefixes(p, t, fold)
      && AllEmitted(p, 2, fold) == EmittedPrefixes(p, s, fold) + EmittedPrefixes(p, t, fold)
  {
    hide *;
    NoneYet(p, fold);
    OneMoreScenario(p, 1, fold);
    OneMoreScenario(p, 2, fold);
  }

  lemma NoneByName(p: Plan, n: nat, fold: Fold)
    requires n <= |p.scenarios| && forall i | 0 <= i < n :: !NamedByEngine(p, p.scenarios[i])
    ensures forall i | 0 <= i < |AllByName(p, n, fold)| :: !AllByName(p, n, fold)[i]
  {
    hide AllEmitted, EmittedPrefixes, NamedByEngine;
  }

  lemma MixedPlanHas()
    ensures var p := MixedPlan(); |p.scenarios| == 2 && p.scenarios[0] == Steady("a") && p.scenarios[1] == Steady("a/b")
  {
  }

  /** The prefixes of the two scenarios. */
  lemma MixedPrefixes(fold: Fold)
    ensures LabelSegments("a", fold) == ["a"] && LabelSegments("a/b", fold) == ["a", "b"]
    ensures StatsPrefix("", "a/b", fold) == StatsPrefix("", "a", fold) + "." + "b"
  {
    hide *;
    assert "a" + "/" + "b" == "a/b" && ['a'] == "a" && ['b'] == "b";
    OneLetter('a', fold);
    OneLetter('b', fold);
    SegmentsAcross("a", "b", fold);
    NestedPrefix("", "a", "b", "b", fold);
  }

  lemma AcceptedTwo(p: Plan, fold: Fold, one: string, two: string)
    requires |p.scenarios| == 2 && AllPrefixes(p, 2, fold) == [one, two] && one != two
    requires LabelSegments(p.scenarios[0].name, fold) != [] && LabelSegments(p.scenarios[1].name, fold) != []
    ensures Accepted(p, fold)
  {
    hide AllPrefixes, LabelSegments, HasStatsd;
  }

  lemma ExpandsTwo(p: Plan)
    requires |p.scenarios| == 2
    requires Expanded(WithDefaults(p, p.scenarios[0])).Executions?
             && Expanded(WithDefaults(p, p.scenarios[1])).Executions?
    ensures Expands(p)
  {
    hide Expanded, WithDefaults;
  }

  lemma SteadyName(name: string)
    ensures Steady(name).name == name
  {
  }

  /** Validation accepts the plan. */
  lemma MixedPlanIsAccepted(fold: Fold)
    ensures var p := MixedPlan();
      && |p.scenarios| == 2 && Accepted(p, fold) && Expands(p)
      && AllEmitted(p, 2, fold) == [StatsPrefix("", "a", fold), StatsPrefix("", "a/b", fold)]
      && AllByName(p, 2, fold) == [false, false]
  {
    hide *;
    var p := MixedPlan();
    MixedPlanHas();
    MixedPrefixes(fold);
    SteadyIs("a", fold);
    SteadyIs("a/b", fold);
    SteadyName("a");
    SteadyName("a/b");
    TwoScenarios(p, fold);
    NoneByName(p, 2, fold);
    AcceptedTwo(p, fold, StatsPrefix("", "a", fold), StatsPrefix("", "a/b", fold));
    ExpandsTwo(p);
  }

  lemma OneBackendName(split: SplitHost, fold: Fold)
    requires split("b:8443") == Some("b")
    ensures NamesOf(["b:8443"], split, fold) == ["b"]
  {
    OneLetter('b', fold);
    assert ['b'] == "b";
    assert Sanitize("b", fold) == "b";
    var names := ByAddress(["b:8443"], split, fold);
    assert ByHost(["b:8443"], split, fold) == ["b"];
    assert names == ["b"];
    assert Kept(names, 0);
    hide ByAddress;
    assert FirstNames(names, 1) == FirstNames(names, 0) + [NextName(names, [])];
  }

  /** Both of its executions can be compiled for either pool. */
  lemma MixedPlanCompiles(name: string)
    ensures var all := Expanded(WithDefaults(MixedPlan(), Steady(name)));
      && all.Executions? && |all.all| == 1
      && forall i | 0 <= i < |MixedSites()| :: Rates.ForPool(all.all[0], MixedSites()[i].pool).Ok?
  {
    hide Rates.SentTo;
  }

  lemma MixedComponents(split: SplitHost, fold: Fold)
    requires split("b:8443") == Some("b")
    ensures |MixedSites()| == 2
    ensures EachComponents([false, false], MixedSites(), split, fold) == [Some(["b"]), None]
  {
    OneBackendName(split, fold);
    hide NamesOf;
  }

  lemma ClashesHere(prefixes: seq<string>, components: seq<Option<seq<string>>>)
    requires |prefixes| == 2 && components == [Some(["b"]), None] && prefixes[1] == prefixes[0] + "." + "b"
    ensures Clashes(prefixes, components, 0, 0, 1)
  {
  }

  /** Scenario `a` on a backend called `b`, and scenario `a/b` behind a distributor: the plan is accepted, and
      two of its series are the same. */
  lemma MixedPlanClashes(split: SplitHost, fold: Fold)
    requires split("b:8443") == Some("b")
    ensures var p, sites := MixedPlan(), MixedSites();
      && Accepted(p, fold) && Expands(p) && |AllEmitted(p, |p.scenarios|, fold)| == |sites|
      && var components := EachComponents(AllByName(p, |p.scenarios|, fold), sites, split, fold);
         !NoTwoAlike(EachSeries(AllEmitted(p, |p.scenarios|, fold), components))
  {
    hide *;
    MixedPlanIsAccepted(fold);
    MixedPrefixes(fold);
    MixedComponents(split, fold);
    var prefixes := AllEmitted(MixedPlan(), 2, fold);
    var components := EachComponents([false, false], MixedSites(), split, fold);
    ClashesHere(prefixes, components);
    ClashIsShared(prefixes, components, 0, 0, 1);
  }
}
