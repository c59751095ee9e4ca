/** No two series of a plan share a metric prefix: what validation refuses, and what is emitted. */
module Prefixes {
  import opened Tally
  import opened Labels
  import opened BackendSegments
  import opened Plan

  const DEFAULT_PREFIX: string := "sortie"

  function StatsPrefix(prefix: string, name: string, fold: Fold): string {
    Join([if prefix == "" then DEFAULT_PREFIX else prefix] + LabelSegments(name, fold), ".")
  }

  // ----- What validation looks at, before the defaults are folded in -----

  function SubjectTargets(p: Plan, s: Scenario): seq<Target> {
    if s.url == "" && s.targets == [] && p.defaults.Some? && p.defaults.value.targets != []
    then p.defaults.value.targets else s.targets
  }

  function SubjectExecutor(p: Plan, s: Scenario): Option<Executor> {
    if s.executor.Some? then s.executor else if p.defaults.Some? then p.defaults.value.executor else None
  }

  function StageNames(name: string, m: nat): (names: seq<string>)
    ensures |names| == m
  {
    if m == 0 then [] else StageNames(name, m - 1) + [StageName(name, m)]
  }

  /** The labels of one variant. */
  function VariantLabels(ex: Option<Executor>, name: string): seq<string> {
    if ex.Some? && ex.value.kind.Staircase? then StageNames(name, |ex.value.stages|) else [name]
  }

  function TargetLabels(ex: Option<Executor>, name: string, targets: seq<Target>): seq<string> {
    if targets == [] then []
    else TargetLabels(ex, name, targets[..|targets| - 1])
         + VariantLabels(ex, name + "/" + targets[|targets| - 1].name)
  }

  function ValidatorLabels(p: Plan, s: Scenario): seq<string> {
    var targets := SubjectTargets(p, s);
    var ex := SubjectExecutor(p, s);
    if targets == [] then VariantLabels(ex, s.name) else TargetLabels(ex, s.name, targets)
  }

  function PrefixesOf(prefix: string, labels: seq<string>, fold: Fold): (r: seq<string>)
    ensures |r| == |labels| && forall i | 0 <= i < |r| :: r[i] == StatsPrefix(prefix, labels[i], fold)
  {
    if labels == [] then []
    else PrefixesOf(prefix, labels[..|labels| - 1], fold) + [StatsPrefix(prefix, labels[|labels| - 1], fold)]
  }

  predicate HasStatsd(p: Plan, s: Scenario) {
    EffectiveStats(p, s).Some? && EffectiveStats(p, s).value.statsd
  }

  /** A scenario's prefixes; none without a statsd sink. */
  function ScenarioPrefixes(p: Plan, s: Scenario, fold: Fold): seq<string> {
    if HasStatsd(p, s) then PrefixesOf(EffectiveStats(p, s).value.prefix, ValidatorLabels(p, s), fold) else []
  }

  function AllPrefixes(p: Plan, n: nat, fold: Fold): seq<string>
    requires n <= |p.scenarios|
  {
    if n == 0 then [] else AllPrefixes(p, n - 1, fold) + ScenarioPrefixes(p, p.scenarios[n - 1], fold)
  }

  ghost predicate Distinct(xs: seq<string>) {
    forall i, j | 0 <= i < j < |xs| :: xs[i] != xs[j]
  }

  predicate Nameable(p: Plan, s: Scenario, fold: Fold) {
    HasStatsd(p, s) ==> LabelSegments(s.name, fold) != []
  }

  /** What validation accepts: every scenario with a statsd sink can be named, and no prefix twice. */
  ghost predicate Accepted(p: Plan, fold: Fold) {
    && (forall i | 0 <= i < |p.scenarios| :: Nameable(p, p.scenarios[i], fold))
    && Distinct(AllPrefixes(p, |p.scenarios|, fold))
  }

  // ----- Validation, as the code does it -----

  method LabelsOf(p: Plan, s: Scenario) returns (labels: seq<string>)
    ensures labels == ValidatorLabels(p, s)
  {
    var targets := SubjectTargets(p, s);
    var ex := SubjectExecutor(p, s);
    labels := [];
    if targets == [] {
      labels := LabelsOfVariant(ex, s.name);
      return;
    }
    for i := 0 to |targets|
      invariant labels == TargetLabels(ex, s.name, targets[..i])
    {
      var more := LabelsOfVariant(ex, s.name + "/" + targets[i].name);
      labels := labels + more;
      assert targets[..i + 1][..i] == targets[..i];
    }
    assert targets[..|targets|] == targets;
  }

  method LabelsOfVariant(ex: Option<Executor>, name: string) returns (labels: seq<string>)
    ensures labels == VariantLabels(ex, name)
  {
    if ex.None? || ex.value.kind != Staircase {
      return [name];
    }
    labels := [];
    for i := 0 to |ex.value.stages|
      invariant labels == StageNames(name, i)
    {
      labels := labels + [StageName(name, i + 1)];
    }
  }

  /** One scenario's prefixes against those seen before. */
  method Take(seen: set<string>, prefixes: seq<string>) returns (ok: bool, all: set<string>)
    ensures ok <==> Distinct(prefixes) && forall x | x in prefixes :: x !in seen
    ensures ok ==> forall x :: x in all <==> x in seen || x in prefixes
  {
    all := seen;
    for i := 0 to |prefixes|
      invariant forall x :: x in all <==> x in seen || x in prefixes[..i]
      invariant Distinct(prefixes[..i]) && forall x | x in prefixes[..i] :: x !in seen
    {
      if prefixes[i] in all {
        assert prefixes[i] in prefixes;
        return false, all;
      }
      all := all + {prefixes[i]};
    }
    assert prefixes[..|prefixes|] == prefixes;
    ok := true;
  }

  /** One scenario: its prefixes are new and differ, or it has none. */
  ghost predicate Fits(p: Plan, s: Scenario, seen: set<string>, fold: Fold) {
    && Nameable(p, s, fold) && Distinct(ScenarioPrefixes(p, s, fold))
    && forall x | x in ScenarioPrefixes(p, s, fold) :: x !in seen
  }

  method ValidateScenario(p: Plan, s: Scenario, seen: set<string>, fold: Fold) returns (ok: bool, all: set<string>)
    ensures ok <==> Fits(p, s, seen, fold)
    ensures ok ==> forall x :: x in all <==> x in seen || x in ScenarioPrefixes(p, s, fold)
  {
    if !HasStatsd(p, s) {
      return true, seen;
    }
    var labels := LabelsOf(p, s);
    if LabelSegments(s.name, fold) == [] {
      return false, seen;
    }
    ok, all := Take(seen, PrefixesOf(EffectiveStats(p, s).value.prefix, labels, fold));
  }

  /** The first `i` scenarios are accepted, and these are their prefixes. */
  ghost predicate SoFar(p: Plan, i: nat, seen: set<string>, fold: Fold)
    requires i <= |p.scenarios|
  {
    && (forall k | 0 <= k < i :: Nameable(p, p.scenarios[k], fold))
    && Distinct(AllPrefixes(p, i, fold))
    && (forall x :: x in seen <==> x in AllPrefixes(p, i, fold))
  }

  method ValidateStatsPrefixes(p: Plan, fold: Fold) returns (ok: bool)
    ensures ok <==> Accepted(p, fold)
  {
    hide *;
    var seen: set<string> := {};
    NoneSoFar(p, fold);
    for i := 0 to |p.scenarios|
      invariant SoFar(p, i, seen, fold)
    {
      var fits, all := ValidateScenario(p, p.scenarios[i], seen, fold);
      if !fits {
        if Accepted(p, fold) {
          AcceptedFits(p, i, seen, fold);
        }
        return false;
      }
      FitsExtends(p, i, seen, all, fold);
      seen := all;
    }
    AllAccepted(p, seen, fold);
    ok := true;
  }

  lemma NoneSoFar(p: Plan, fold: Fold)
    ensures SoFar(p, 0, {}, fold)
  {
  }

  lemma AllAccepted(p: Plan, seen: set<string>, fold: Fold)
    requires SoFar(p, |p.scenarios|, seen, fold)
    ensures Accepted(p, fold)
  {
  }

  lemma AcceptedFits(p: Plan, i: nat, seen: set<string>, fold: Fold)
    requires i < |p.scenarios| && SoFar(p, i, seen, fold) && Accepted(p, fold)
    ensures Fits(p, p.scenarios[i], seen, fold)
  {
    hide Distinct, ScenarioPrefixes, Nameable;
    DistinctAppend(AllPrefixes(p, i, fold), ScenarioPrefixes(p, p.scenarios[i], fold));
    PrefixesGrow(p, i + 1, fold);
  }

  lemma FitsExtends(p: Plan, i: nat, seen: set<string>, all: set<string>, fold: Fold)
    requires i < |p.scenarios| && SoFar(p, i, seen, fold) && Fits(p, p.scenarios[i], seen, fold)
    requires forall x :: x in all <==> x in seen || x in ScenarioPrefixes(p, p.scenarios[i], fold)
    ensures SoFar(p, i + 1, all, fold)
  {
    hide Distinct, ScenarioPrefixes, Nameable;
    DistinctAppend(AllPrefixes(p, i, fold), ScenarioPrefixes(p, p.scenarios[i], fold));
  }

  lemma DistinctAppend(a: seq<string>, b: seq<string>)
    ensures Distinct(a + b) <==> Distinct(a) && Distinct(b) && forall x | x in b :: x !in a
  {
    var c := a + b;
    if Distinct(c) {
      forall i, j | 0 <= i < j < |a|
        ensures a[i] != a[j]
      {
        assert c[i] == a[i] && c[j] == a[j];
      }
      forall i, j | 0 <= i < j < |b|
        ensures b[i] != b[j]
      {
        assert c[|a| + i] == b[i] && c[|a| + j] == b[j];
      }
      forall i, j | 0 <= i < |a| && 0 <= j < |b|
        ensures a[i] != b[j]
      {
        assert c[i] == a[i] && c[|a| + j] == b[j];
      }
    } else {
      var i, j :| 0 <= i < j < |c| && c[i] == c[j];
      if i < |a| <= j {
        assert b[j - |a|] in b && a[i] in a;
      } else if i >= |a| {
        assert b[i - |a|] == b[j - |a|];
      }
    }
  }

  /** What is refused for the first scenarios is refused for all. */
  lemma {:induction false} PrefixesGrow(p: Plan, n: nat, fold: Fold)
    requires n <= |p.scenarios|
    ensures Distinct(AllPrefixes(p, |p.scenarios|, fold)) ==> Distinct(AllPrefixes(p, n, fold))
    decreases |p.scenarios| - n
  {
    if n < |p.scenarios| {
      PrefixesGrow(p, n + 1, fold);
      DistinctAppend(AllPrefixes(p, n, fold), ScenarioPrefixes(p, p.scenarios[n], fold));
    }
  }
}
