/** The last component of a metric prefix: a name for each backend of a pool, made from its address. */
module BackendSegments {
  import opened Tally
  import opened Labels

  /** The host of a host:port address, or nothing when it is not one. */
  type SplitHost = string -> Option<string>

  function Sanitize(s: string, fold: Fold): string {
    Join(LabelSegments(s, fold), "_")
  }

  function Host(addr: string, split: SplitHost): string {
    if split(addr).Some? then split(addr).value else addr
  }

  /** How many of the names are this one. */
  ghost function Count(names: seq<string>, name: string): nat {
    multiset(names)[name]
  }

  /** By host alone. */
  function ByHost(addrs: seq<string>, split: SplitHost, fold: Fold): (names: seq<string>)
    ensures |names| == |addrs|
  {
    seq(|addrs|, i requires 0 <= i < |addrs| => Sanitize(Host(addrs[i], split), fold))
  }

  /** By host where that tells a backend apart, by the whole address where it does not. */
  ghost function ByAddress(addrs: seq<string>, split: SplitHost, fold: Fold): (names: seq<string>)
    ensures |names| == |addrs|
  {
    var hosts := ByHost(addrs, split, fold);
    seq(|addrs|, i requires 0 <= i < |addrs| =>
      if Count(hosts, hosts[i]) > 1 then Sanitize(addrs[i], fold) else hosts[i])
  }

  /** A name that is kept: nobody else has it, and it is one. */
  ghost predicate Kept(names: seq<string>, i: nat) {
    i < |names| && Count(names, names[i]) == 1 && names[i] != ""
  }

  /** A name lengthened by underscores. */
  predicate Lengthens(base: string, s: string) {
    base <= s && forall i | |base| <= i < |s| :: s[i] == '_'
  }

  method CountNames(names: seq<string>) returns (seen: map<string, nat>)
    ensures forall name :: name in names ==> name in seen && seen[name] == Count(names, name)
  {
    seen := map[];
    for i := 0 to |names|
      invariant forall name :: name in seen <==> name in names[..i]
      invariant forall name :: name in seen ==> seen[name] == Count(names[..i], name)
    {
      var name := names[i];
      assert names[..i + 1] == names[..i] + [name];
      if name !in seen {
        assert multiset(names[..i])[name] == 0;
      }
      seen := seen[name := if name in seen then seen[name] + 1 else 1];
    }
    assert names[..|names|] == names;
  }

  lemma {:induction false} JoinKept(parts: seq<string>)
    requires forall i | 0 <= i < |parts| :: AllKept(parts[i])
    ensures AllKept(Join(parts, "_"))
  {
    if |parts| > 1 {
      JoinKept(parts[..|parts| - 1]);
    }
  }

  lemma SanitizeKept(s: string, fold: Fold)
    ensures AllKept(Sanitize(s, fold))
  {
    SegmentsNotEmpty(Split(s), fold);
    JoinKept(LabelSegments(s, fold));
  }

  lemma CountTwo(names: seq<string>, i: nat, j: nat)
    requires i < j < |names| && names[i] == names[j]
    ensures Count(names, names[i]) >= 2
  {
    assert names == names[..j] + ([names[j]] + names[j + 1..]);
    assert names[..j][i] == names[i];
  }

  lemma KeptApart(names: seq<string>, i: nat)
    requires Kept(names, i)
    ensures forall k | 0 <= k < |names| && k != i :: names[k] != names[i]
  {
    forall k | 0 <= k < |names| && k != i
      ensures names[k] != names[i]
    {
      if names[k] == names[i] {
        if k < i { CountTwo(names, k, i); } else { CountTwo(names, i, k); }
      }
    }
  }

  lemma ByAddressKept(addrs: seq<string>, split: SplitHost, fold: Fold, i: nat)
    requires i < |addrs|
    ensures AllKept(ByAddress(addrs, split, fold)[i])
  {
    SanitizeKept(addrs[i], fold);
    SanitizeKept(Host(addrs[i], split), fold);
  }

  /** The first two passes. */
  method NameByAddress(addrs: seq<string>, split: SplitHost, fold: Fold) returns (out: seq<string>)
    ensures out == ByAddress(addrs, split, fold)
  {
    out := ByHost(addrs, split, fold);
    ghost var hosts := out;
    var seen := CountNames(out);
    for i := 0 to |addrs|
      invariant |out| == |addrs|
      invariant forall k | 0 <= k < |addrs| ::
        out[k] == if k < i && Count(hosts, hosts[k]) > 1 then Sanitize(addrs[k], fold) else hosts[k]
    {
      assert hosts[i] in hosts;
      if seen[out[i]] > 1 {
        out := out[i := Sanitize(addrs[i], fold)];
      }
    }
  }

  // ----- Names that an address does not tell apart -----

  /** The base, and as many underscores as it takes for a name that nobody has. */
  function Lengthened(base: string, used: set<string>): string
    decreases |used|
  {
    if base in used then Lengthened(base + "_", used - {base}) else base
  }

  /** It is free, and no shorter one is. */
  lemma {:induction false} LengthenedIs(base: string, used: set<string>)
    ensures var name := Lengthened(base, used);
      && name !in used && Lengthens(base, name) && (AllKept(base) ==> AllKept(name))
      && forall m | |base| <= m < |name| :: name[..m] in used
    decreases |used|
  {
    if base in used {
      var name := Lengthened(base + "_", used - {base});
      LengthenedIs(base + "_", used - {base});
      assert name[..|base|] == base;
    }
  }

  /** Candidates get longer, so one that was tried is not met again. */
  method Lengthen(base: string, used: set<string>) returns (name: string)
    ensures name == Lengthened(base, used)
  {
    name := base;
    ghost var rest := used;
    while name in used
      invariant rest <= used && forall s | s in used - rest :: |s| < |name|
      invariant Lengthened(base, used) == Lengthened(name, rest)
      decreases |rest|
    {
      assert name in rest;
      rest := rest - {name};
      name := name + "_";
    }
    assert name !in rest;
  }

  /** The names that are kept. */
  ghost function Reserved(names: seq<string>): set<string> {
    set k | 0 <= k < |names| && Kept(names, k) :: names[k]
  }

  ghost function InUse(names: seq<string>, front: seq<string>): set<string> {
    Reserved(names) + set x | x in front
  }

  /** What the next backend is called, once those before it are: its own name where that is kept, else its
      name with its position, lengthened until it is free. */
  ghost function NextName(names: seq<string>, front: seq<string>): string
    requires |front| < |names|
  {
    var k := |front|;
    if Kept(names, k) then names[k] else Lengthened(names[k] + "_b" + Digits(k), InUse(names, front))
  }

  ghost function FirstNames(names: seq<string>, n: nat): (front: seq<string>)
    requires n <= |names|
    ensures |front| == n
  {
    if n == 0 then [] else FirstNames(names, n - 1) + [NextName(names, FirstNames(names, n - 1))]
  }

  /** What the backends at these addresses are called. */
  ghost function NamesOf(addrs: seq<string>, split: SplitHost, fold: Fold): (names: seq<string>)
    ensures |names| == |addrs|
  {
    FirstNames(ByAddress(addrs, split, fold), |addrs|)
  }

  /** A name that is kept is the backend's; another begins with it and the backend's position. */
  ghost predicate NameOk(names: seq<string>, k: nat, name: string)
    requires k < |names|
  {
    && name != "" && AllKept(name)
    && if Kept(names, k) then name == names[k]
       else name !in Reserved(names) && Lengthens(names[k] + "_b" + Digits(k), name)
  }

  ghost predicate Apart(names: seq<string>, front: seq<string>) {
    && |front| <= |names| && (forall k | 0 <= k < |front| :: NameOk(names, k, front[k]))
    && (forall k, l | 0 <= k < l < |front| :: front[k] != front[l])
  }

  lemma KeptIsReserved(names: seq<string>, k: nat)
    requires Kept(names, k)
    ensures names[k] in Reserved(names)
  {
  }

  lemma NextNameOk(names: seq<string>, front: seq<string>)
    requires |front| < |names| && AllKept(names[|front|])
    ensures NameOk(names, |front|, NextName(names, front))
    ensures !Kept(names, |front|) ==> NextName(names, front) !in InUse(names, front)
  {
    var k := |front|;
    if !Kept(names, k) {
      hide Kept, Reserved;
      LengthenedIs(names[k] + "_b" + Digits(k), InUse(names, front));
    }
  }

  lemma NextApart(names: seq<string>, front: seq<string>, l: nat)
    requires |front| < |names| && AllKept(names[|front|]) && Apart(names, front) && l < |front|
    ensures front[l] != NextName(names, front)
  {
    var k := |front|;
    NextNameOk(names, front);
    assert NameOk(names, l, front[l]) && front[l] in front;
    if Kept(names, k) {
      KeptApart(names, k);
      KeptIsReserved(names, k);
    }
    hide Kept, Reserved, Lengthens;
  }

  lemma {:induction false} FirstNamesApart(names: seq<string>, n: nat)
    requires n <= |names| && forall i | 0 <= i < |names| :: AllKept(names[i])
    ensures Apart(names, FirstNames(names, n))
  {
    if n > 0 {
      var front := FirstNames(names, n - 1);
      FirstNamesApart(names, n - 1);
      NextNameOk(names, front);
      forall l | 0 <= l < |front|
        ensures front[l] != NextName(names, front)
      {
        NextApart(names, front, l);
      }
      hide NameOk, NextName, AllKept;
    }
  }

  /** One name per backend, in order: pairwise different, not empty, and without a dot. Those that their
      addresses tell apart keep the name these give; the others get their position, and what it takes. */
  lemma NamesApart(addrs: seq<string>, split: SplitHost, fold: Fold)
    ensures Apart(ByAddress(addrs, split, fold), NamesOf(addrs, split, fold))
  {
    var names := ByAddress(addrs, split, fold);
    forall i | 0 <= i < |names|
      ensures AllKept(names[i])
    {
      ByAddressKept(addrs, split, fold, i);
    }
    hide ByAddress, AllKept, Apart;
    FirstNamesApart(names, |addrs|);
  }

  // ----- The last pass, as the compiler does it -----

  method Reserve(names: seq<string>, seen: map<string, nat>) returns (used: set<string>)
    requires forall name :: name in names ==> name in seen && seen[name] == Count(names, name)
    ensures used == Reserved(names)
  {
    used := {};
    for i := 0 to |names|
      invariant forall s :: s in used <==> exists k | 0 <= k < i :: Kept(names, k) && names[k] == s
    {
      assert names[i] in names;
      if seen[names[i]] == 1 && names[i] != "" {
        used := used + {names[i]};
      }
    }
  }

  /** The first `i` backends have their final names. */
  ghost predicate Done(names: seq<string>, out: seq<string>, i: nat, used: set<string>) {
    && i <= |names| == |out| && out[..i] == FirstNames(names, i) && out[i..] == names[i..]
    && used == InUse(names, out[..i])
  }

  lemma DoneNext(names: seq<string>, out: seq<string>, i: nat, used: set<string>, name: string)
    requires Done(names, out, i, used) && i < |names| && name == NextName(names, out[..i])
    ensures Done(names, out[i := name], i + 1, used + {name})
  {
    hide NextName, Reserved;
    var next := out[i := name];
    assert next[..i + 1] == out[..i] + [name] && next[i + 1..] == names[i + 1..];
  }

  lemma NextNameIs(names: seq<string>, front: seq<string>)
    requires |front| < |names|
    ensures var k := |front|;
      NextName(names, front)
      == if Kept(names, k) then names[k] else Lengthened(names[k] + "_b" + Digits(k), InUse(names, front))
  {
    hide Lengthened, Count, InUse;
  }

  lemma NoneDone(names: seq<string>, used: set<string>)
    requires used == Reserved(names)
    ensures Done(names, names, 0, used)
  {
  }

  lemma DoneSoFar(names: seq<string>, out: seq<string>, i: nat, used: set<string>)
    requires Done(names, out, i, used) && i < |names|
    ensures |out| == |names| && out[i] == names[i] && used == InUse(names, out[..i]) && Reserved(names) <= used
  {
    assert out[i] == out[i..][0];
  }

  lemma AllDone(names: seq<string>, out: seq<string>, used: set<string>)
    requires Done(names, out, |names|, used)
    ensures out == FirstNames(names, |names|)
  {
    assert out[..|names|] == out;
  }

  /** The backend at one position, once those before it have their names. */
  method Settle(names: seq<string>, out: seq<string>, i: nat, unique: bool, used: set<string>)
    returns (next: seq<string>, inUse: set<string>)
    requires Done(names, out, i, used) && i < |names| && (unique <==> Kept(names, i))
    ensures Done(names, next, i + 1, inUse)
  {
    hide *;
    DoneSoFar(names, out, i, used);
    NextNameIs(names, out[..i]);
    if unique {
      KeptIsReserved(names, i);
      assert used + {names[i]} == used && out[i := names[i]] == out;
      DoneNext(names, out, i, used, names[i]);
      return out, used;
    }
    var name := Lengthen(out[i] + "_b" + Digits(i), used);
    DoneNext(names, out, i, used, name);
    next, inUse := out[i := name], used + {name};
  }

  method Disambiguate(names: seq<string>) returns (out: seq<string>)
    ensures out == FirstNames(names, |names|)
  {
    var seen := CountNames(names);
    var used := Reserve(names, seen);
    out := names;
    NoneDone(names, used);
    hide Done, FirstNames, Count;
    for i := 0 to |names|
      invariant Done(names, out, i, used)
    {
      assert names[i] in names;
      out, used := Settle(names, out, i, seen[names[i]] == 1 && names[i] != "", used);
    }
    AllDone(names, out, used);
  }

  method BackendNames(addrs: seq<string>, split: SplitHost, fold: Fold) returns (out: seq<string>)
    ensures out == NamesOf(addrs, split, fold)
    ensures Apart(ByAddress(addrs, split, fold), out)
  {
    var names := NameByAddress(addrs, split, fold);
    out := Disambiguate(names);
    NamesApart(addrs, split, fold);
  }
}
