/** How a plan's rate is divided over the backends of a pool: what each of them is sent, in the 32-bit
    arithmetic of the compiler, and what each of them then emits. */
module Rates {
  import opened Tally
  import opened Labels
  import opened Plan
  import opened Shares
  import Arith

  datatype Error = NoBackends | BadConcurrency | NotDivisible | TooThin | DivisionByZero

  datatype Result<+T> = Ok(value: T) | Err(error: Error)

  datatype Options = Options(rps: nat, executionId: string)

  datatype Pool = Distributor(targets: seq<string>) | Unresolved(dns: string) | Services(services: seq<string>)

  // ----- Workers -----

  /** Decimal digits only, as strconv.ParseUint takes them in base 10. */
  function Decimal(s: string): Option<nat> {
    if s == "" then Some(0)
    else
      var high := Decimal(s[..|s| - 1]);
      var c := s[|s| - 1];
      if high.None? || !('0' <= c <= '9') then None else Some(10 * high.value + (c - '0') as nat)
  }

  function WorkersPerBackend(concurrency: string): (r: Result<nat>)
    ensures r.Ok? ==> 1 <= r.value < U32
  {
    if concurrency == "" then Ok(1)
    else if concurrency == "auto" then Err(BadConcurrency)
    else
      var n := Decimal(concurrency);
      if n.None? || n.value >= U32 || n.value < 1 then Err(BadConcurrency) else Ok(n.value)
  }

  // ----- What is sent -----

  function BackendRate(e: Execution, share: nat, workers: nat): nat {
    if e.scenario.aggregate then share * workers % U32 else share
  }

  function PerBackendShare(e: Execution, workers: nat): (r: Result<nat>)
    requires workers > 0
    ensures r.Ok? <==> e.rate % workers == 0
  {
    if e.rate % workers != 0 then Err(NotDivisible) else Ok(e.rate / workers)
  }

  /** The per-worker rate of backend `i` when `total` is spread over `backends`. */
  function Spread(total: nat, backends: nat, i: nat): nat
    requires backends > 0
  {
    if i % U32 < total % backends then total / backends + 1 else total / backends
  }

  /** The per-worker rate of each of `backends` backends. */
  function ShareOf(e: Execution, backends: nat, workers: nat, i: nat): Result<nat>
    requires workers > 0
  {
    if e.perBackend then PerBackendShare(e, workers)
    else if e.rate % workers != 0 then Err(NotDivisible)
    else
      var total := e.rate / workers;
      if backends % U32 > total then Err(TooThin)
      else if backends % U32 == 0 then Err(DivisionByZero)
      else Ok(Spread(total, backends % U32, i))
  }

  function Sent(e: Execution, backends: nat, workers: nat, i: nat): Options
    requires workers > 0 && ShareOf(e, backends, workers, i).Ok?
  {
    Options(BackendRate(e, ShareOf(e, backends, workers, i).value, workers),
            if backends > 1 then e.name + "#" + Digits(i) else e.name)
  }

  /** What the first `k` backends are sent. */
  function SentTo(e: Execution, backends: nat, workers: nat, k: nat): (all: seq<Options>)
    requires workers > 0 && ShareOf(e, backends, workers, 0).Ok?
    ensures |all| == k
  {
    if k == 0 then [] else SentTo(e, backends, workers, k - 1) + [Sent(e, backends, workers, k - 1)]
  }

  lemma {:induction false} SentToAt(e: Execution, backends: nat, workers: nat, k: nat, i: nat)
    requires workers > 0 && ShareOf(e, backends, workers, 0).Ok? && i < k
    ensures ShareOf(e, backends, workers, i).Ok?
    ensures SentTo(e, backends, workers, k)[i] == Sent(e, backends, workers, i)
  {
    if i < k - 1 {
      SentToAt(e, backends, workers, k - 1, i);
    }
  }

  /** One options object per backend. */
  function Divided(e: Execution, backends: nat): Result<seq<Options>> {
    if backends == 0 then Err(NoBackends)
    else match WorkersPerBackend(e.scenario.concurrency)
      case Err(error) => Err(error)
      case Ok(workers) =>
        var first := ShareOf(e, backends, workers, 0);
        if first.Err? then Err(first.error)
        else Ok(SentTo(e, backends, workers, backends))
  }

  method Divide(e: Execution, backends: nat) returns (r: Result<seq<Options>>)
    ensures r == Divided(e, backends)
  {
    if backends == 0 {
      return Err(NoBackends);
    }
    var w := WorkersPerBackend(e.scenario.concurrency);
    if w.Err? {
      return Err(w.error);
    }
    var workers := w.value;
    var first := ShareOf(e, backends, workers, 0);
    if first.Err? {
      return Err(first.error);
    }
    var out := [];
    for i := 0 to backends
      invariant out == SentTo(e, backends, workers, i)
    {
      out := out + [Sent(e, backends, workers, i)];
    }
    r := Ok(out);
  }

  /** The one options object that every target of a distributor is sent. */
  function UniformShare(e: Execution, targets: nat): Result<Options> {
    if targets == 0 then Err(NoBackends)
    else match WorkersPerBackend(e.scenario.concurrency)
      case Err(error) => Err(error)
      case Ok(workers) =>
        if e.perBackend then
          var share := PerBackendShare(e, workers);
          if share.Err? then Err(share.error) else Ok(Options(BackendRate(e, share.value, workers), e.name))
        else
          var divisor := (targets % U32) * workers % U32;
          if divisor == 0 then Err(DivisionByZero)
          else if e.rate % divisor != 0 then Err(NotDivisible)
          else Ok(Options(BackendRate(e, e.rate / divisor, workers), e.name))
  }

  // ----- What is emitted -----

  /** The requests a second a backend emits for what it is sent. */
  function Emitted(e: Execution, o: Options, workers: nat): nat {
    if e.scenario.aggregate then o.rps else o.rps * workers
  }

  ghost function EmittedByAll(e: Execution, all: seq<Options>, workers: nat): nat {
    if all == [] then 0
    else EmittedByAll(e, all[..|all| - 1], workers) + Emitted(e, all[|all| - 1], workers)
  }

  // ----- The plan's rate is what is emitted -----

  /** A backend's per-worker rate times its workers fits, so what it is sent is exact in both modes. */
  lemma SentIsExact(e: Execution, share: nat, workers: nat)
    requires workers > 0 && share * workers <= e.rate < U32
    ensures var o := Options(BackendRate(e, share, workers), "");
      && o.rps < U32 && Emitted(e, o, workers) == share * workers
      && (e.scenario.aggregate ==> o.rps % workers == 0)
  {
    if e.scenario.aggregate {
      Arith.DivModUnique(share * workers, workers, share, 0);
    } else {
      Arith.MulMono(1, workers, share);
    }
  }

  lemma SpreadWithin(total: nat, backends: nat, i: nat)
    requires 0 < backends <= total && i < backends < U32
    ensures 1 <= Spread(total, backends, i) <= total
    ensures total / backends <= Spread(total, backends, i) <= total / backends + 1
  {
    var base, rem := total / backends, total % backends;
    assert total == backends * base + rem;
    Arith.MulMono(1, backends, base);
    Arith.QuotientAtLeastOne(total, backends);
  }

  function SpreadSum(total: nat, backends: nat, k: nat): nat
    requires backends > 0
  {
    if k == 0 then 0 else SpreadSum(total, backends, k - 1) + Spread(total, backends, k - 1)
  }

  ghost function Times(a: nat, b: nat): nat { a * b }

  lemma Accumulates(workers: nat, a: nat, b: nat)
    ensures Times(workers, a + b) == Times(workers, a) + Times(workers, b)
  {
  }

  lemma SpreadIs(total: nat, backends: nat, base: nat, rem: nat, i: nat)
    requires 0 < backends < U32 && i < backends && base == total / backends && rem == total % backends
    ensures Spread(total, backends, i) == if i < rem then base + 1 else base
  {
  }

  lemma {:induction false} SpreadSumIs(total: nat, backends: nat, base: nat, rem: nat, k: nat)
    requires 0 < backends < U32 && k <= backends && base == total / backends && rem == total % backends
    ensures SpreadSum(total, backends, k) == Times(base, k) + if k < rem then k else rem
  {
    if k > 0 {
      hide Spread, Times;
      SpreadSumIs(total, backends, base, rem, k - 1);
      SpreadIs(total, backends, base, rem, k - 1);
      Accumulates(base, k - 1, 1);
      TimesOne(base);
    }
  }

  lemma TimesOne(base: nat)
    ensures Times(base, 1) == base
  {
  }

  /** Spread over all backends, the total is all there. */
  lemma SpreadIsAll(total: nat, backends: nat)
    requires 0 < backends < U32
    ensures SpreadSum(total, backends, backends) == total
  {
    SpreadSumIs(total, backends, total / backends, total % backends, backends);
    assert total == backends * (total / backends) + total % backends;
  }

  /** What one backend of a divided execution is sent. */
  lemma OneBackend(e: Execution, backends: nat, workers: nat, i: nat)
    requires e.rate < U32 && 0 < backends < U32 && i < backends && workers > 0
    requires ShareOf(e, backends, workers, i).Ok?
    ensures var share := ShareOf(e, backends, workers, i).value;
      var o := Sent(e, backends, workers, i);
      && o.rps < U32 && Emitted(e, o, workers) == share * workers
      && (e.scenario.aggregate ==> o.rps % workers == 0)
      && e.rate == workers * (e.rate / workers)
      && (if e.perBackend then share == e.rate / workers
          else 1 <= share && e.rate / workers / backends <= share <= e.rate / workers / backends + 1)
  {
    var share := ShareOf(e, backends, workers, i).value;
    var total := e.rate / workers;
    assert e.rate == workers * total + e.rate % workers;
    if !e.perBackend {
      SpreadWithin(total, backends, i);
    }
    Arith.MulMono(share, total, workers);
    SentIsExact(e, share, workers);
  }

  /** What the first `k` backends emit for each of their workers. */
  function SharesSent(e: Execution, backends: nat, workers: nat, k: nat): nat
    requires workers > 0 && backends > 0
  {
    if e.perBackend then e.rate / workers * k else SpreadSum(e.rate / workers, backends, k)
  }

  lemma NextShare(e: Execution, backends: nat, workers: nat, k: nat)
    requires workers > 0 && 0 < backends < U32 && k < backends && ShareOf(e, backends, workers, k).Ok?
    ensures SharesSent(e, backends, workers, k + 1)
            == SharesSent(e, backends, workers, k) + ShareOf(e, backends, workers, k).value
  {
    hide Spread;
    var each := e.rate / workers;
    if e.perBackend {
      Arith.Distributes(each, k, 1);
    } else {
      assert SpreadSum(each, backends, k + 1) == SpreadSum(each, backends, k) + Spread(each, backends, k);
    }
  }

  lemma BackendEmits(e: Execution, backends: nat, workers: nat, i: nat)
    requires e.rate < U32 && 0 < backends < U32 && i < backends && workers > 0
    requires ShareOf(e, backends, workers, 0).Ok?
    ensures ShareOf(e, backends, workers, i).Ok?
    ensures Emitted(e, Sent(e, backends, workers, i), workers) == Times(workers, ShareOf(e, backends, workers, i).value)
  {
    OneBackend(e, backends, workers, i);
  }

  lemma NothingSent(e: Execution, backends: nat, workers: nat)
    requires workers > 0 && backends > 0 && ShareOf(e, backends, workers, 0).Ok?
    ensures EmittedByAll(e, SentTo(e, backends, workers, 0), workers)
            == Times(workers, SharesSent(e, backends, workers, 0))
  {
  }

  lemma SentToNext(e: Execution, backends: nat, workers: nat, k: nat)
    requires workers > 0 && ShareOf(e, backends, workers, 0).Ok? && k > 0
    ensures ShareOf(e, backends, workers, k - 1).Ok?
    ensures SentTo(e, backends, workers, k) == SentTo(e, backends, workers, k - 1) + [Sent(e, backends, workers, k - 1)]
  {
  }

  lemma EmittedByOneMore(e: Execution, all: seq<Options>, o: Options, workers: nat)
    ensures EmittedByAll(e, all + [o], workers) == EmittedByAll(e, all, workers) + Emitted(e, o, workers)
  {
    assert (all + [o])[..|all|] == all;
  }

  lemma {:induction false} EmittedByFirst(e: Execution, backends: nat, workers: nat, k: nat)
    requires e.rate < U32 && 0 < backends < U32 && workers > 0 && k <= backends
    requires ShareOf(e, backends, workers, 0).Ok?
    ensures EmittedByAll(e, SentTo(e, backends, workers, k), workers)
            == Times(workers, SharesSent(e, backends, workers, k))
  {
    hide *;
    if k == 0 {
      NothingSent(e, backends, workers);
    } else {
      SentToNext(e, backends, workers, k);
      EmittedByFirst(e, backends, workers, k - 1);
      BackendEmits(e, backends, workers, k - 1);
      NextShare(e, backends, workers, k - 1);
      EmittedByOneMore(e, SentTo(e, backends, workers, k - 1), Sent(e, backends, workers, k - 1), workers);
      Accumulates(workers, SharesSent(e, backends, workers, k - 1), ShareOf(e, backends, workers, k - 1).value);
    }
  }

  /** Division keeps the load: what the backends emit sums to the plan's rate, or with per_backend to that
      rate from each; no backend gets nothing, none gets more than one a worker above another, and no step
      overflows. */
  lemma DividedKeepsTheLoad(e: Execution, backends: nat)
    requires e.rate < U32 && backends < U32 && Divided(e, backends).Ok?
    ensures WorkersPerBackend(e.scenario.concurrency).Ok?
    ensures var workers := WorkersPerBackend(e.scenario.concurrency).value;
      var all := Divided(e, backends).value;
      && |all| == backends
      && EmittedByAll(e, all, workers) == (if e.perBackend then e.rate * backends else e.rate)
      && (forall i | 0 <= i < backends ::
            && all[i].rps < U32
            && (e.scenario.aggregate ==> all[i].rps % workers == 0)
            && (!e.perBackend ==> Emitted(e, all[i], workers) > 0))
      && (forall i, j | 0 <= i < backends && 0 <= j < backends ::
            Emitted(e, all[i], workers) <= Emitted(e, all[j], workers) + workers)
  {
    var workers := WorkersPerBackend(e.scenario.concurrency).value;
    var all := Divided(e, backends).value;
    EmittedByFirst(e, backends, workers, backends);
    SharesSentAre(e, backends, workers);
    forall i | 0 <= i < backends
      ensures && all[i].rps < U32 && (e.scenario.aggregate ==> all[i].rps % workers == 0)
              && (!e.perBackend ==> Emitted(e, all[i], workers) > 0)
    {
      SentToAt(e, backends, workers, backends, i);
      OneBackend(e, backends, workers, i);
      if !e.perBackend {
        Positive(e, backends, workers, i);
      }
      hide SentTo, Sent, ShareOf, Emitted;
    }
    forall i, j | 0 <= i < backends && 0 <= j < backends
      ensures Emitted(e, all[i], workers) <= Emitted(e, all[j], workers) + workers
    {
      SentToAt(e, backends, workers, backends, i);
      SentToAt(e, backends, workers, backends, j);
      Apart(e, backends, workers, i, j);
      hide SentTo, Sent, ShareOf, Emitted;
    }
  }

  lemma Positive(e: Execution, backends: nat, workers: nat, i: nat)
    requires e.rate < U32 && 0 < backends < U32 && i < backends && workers > 0 && !e.perBackend
    requires ShareOf(e, backends, workers, i).Ok?
    ensures Emitted(e, Sent(e, backends, workers, i), workers) > 0
  {
    OneBackend(e, backends, workers, i);
    Arith.MulMono(1, ShareOf(e, backends, workers, i).value, workers);
  }

  lemma SharesSentAre(e: Execution, backends: nat, workers: nat)
    requires e.rate < U32 && 0 < backends < U32 && workers > 0 && ShareOf(e, backends, workers, 0).Ok?
    ensures workers * SharesSent(e, backends, workers, backends) == if e.perBackend then e.rate * backends else e.rate
  {
    OneBackend(e, backends, workers, 0);
    SpreadIsAll(e.rate / workers, backends);
    Rearranged(workers, e.rate / workers, backends);
  }

  lemma Rearranged(workers: nat, share: nat, backends: nat)
    ensures workers * (share * backends) == workers * share * backends
  {
  }

  lemma Apart(e: Execution, backends: nat, workers: nat, i: nat, j: nat)
    requires e.rate < U32 && 0 < backends < U32 && i < backends && j < backends && workers > 0
    requires ShareOf(e, backends, workers, 0).Ok?
    ensures Emitted(e, Sent(e, backends, workers, i), workers)
            <= Emitted(e, Sent(e, backends, workers, j), workers) + workers
  {
    OneBackend(e, backends, workers, i);
    OneBackend(e, backends, workers, j);
    var a, b := ShareOf(e, backends, workers, i).value, ShareOf(e, backends, workers, j).value;
    assert a <= b + 1;
    hide ShareOf, Sent, Emitted;
    ScaledApart(workers, a, b);
  }

  lemma ScaledApart(workers: nat, a: nat, b: nat)
    requires a <= b + 1
    ensures a * workers <= b * workers + workers
  {
    Arith.MulMono(a, b + 1, workers);
    Arith.Distributes(workers, b, 1);
  }

  /** An execution can be divided exactly when its workers are known, its rate is a multiple of them, and
      every backend gets at least one request a second for each of them. */
  lemma DividedIff(e: Execution, backends: nat)
    requires e.rate < U32 && backends < U32
    ensures Divided(e, backends).Ok? <==>
      && backends > 0 && WorkersPerBackend(e.scenario.concurrency).Ok?
      && var workers := WorkersPerBackend(e.scenario.concurrency).value;
         e.rate % workers == 0 && (e.perBackend || backends <= e.rate / workers)
  {
    hide Decimal, WorkersPerBackend, SentTo, Spread;
    if backends > 0 && WorkersPerBackend(e.scenario.concurrency).Ok? {
      FirstShareIff(e, backends, WorkersPerBackend(e.scenario.concurrency).value);
      hide ShareOf;
    }
  }

  lemma FirstShareIff(e: Execution, backends: nat, workers: nat)
    requires 0 < backends < U32 && workers > 0
    ensures ShareOf(e, backends, workers, 0).Ok? <==>
      e.rate % workers == 0 && (e.perBackend || backends <= e.rate / workers)
  {
    hide Spread;
  }

  /** The backends of a divided execution are told apart by their execution ids. */
  lemma IdsDiffer(e: Execution, backends: nat, i: nat, j: nat)
    requires Divided(e, backends).Ok? && i < j < backends
    ensures |Divided(e, backends).value| == backends
    ensures Divided(e, backends).value[i].executionId != Divided(e, backends).value[j].executionId
  {
    var workers := WorkersPerBackend(e.scenario.concurrency).value;
    SentToAt(e, backends, workers, backends, i);
    SentToAt(e, backends, workers, backends, j);
    hide SentTo, ShareOf, BackendRate, WorkersPerBackend;
    var front := e.name + "#";
    assert (front + Digits(i))[|front|..] == Digits(i) && (front + Digits(j))[|front|..] == Digits(j);
    if front + Digits(i) == front + Digits(j) {
      DigitsDiffer(i, j);
    }
  }

  // ----- A distributor -----

  /** What all targets of a distributor emit together. */
  function EmittedByTargets(e: Execution, o: Options, targets: nat, workers: nat): nat {
    targets * Emitted(e, o, workers)
  }

  /** Under the bound that targets x workers fits in 32 bits, the one options object means the plan's rate
      too, and nothing overflows. */
  lemma UniformKeepsTheLoad(e: Execution, targets: nat)
    requires e.rate < U32 && UniformShare(e, targets).Ok?
    ensures WorkersPerBackend(e.scenario.concurrency).Ok?
    ensures var workers := WorkersPerBackend(e.scenario.concurrency).value;
      var o := UniformShare(e, targets).value;
      && (e.perBackend ==> EmittedByTargets(e, o, targets, workers) == targets * e.rate && o.rps < U32)
      && (!e.perBackend && targets * workers < U32 ==>
            EmittedByTargets(e, o, targets, workers) == e.rate && o.rps < U32
            && (e.scenario.aggregate ==> o.rps % workers == 0))
  {
    var workers := WorkersPerBackend(e.scenario.concurrency).value;
    if e.perBackend {
      ExactShare(e.rate, workers, 1);
      SentIsExact(e, e.rate / workers, workers);
      hide BackendRate, PerBackendShare;
    } else if targets * workers < U32 {
      DivisorFits(targets, workers);
      ExactShare(e.rate, workers, targets);
      SentIsExact(e, e.rate / (targets * workers), workers);
      hide BackendRate, PerBackendShare;
    }
  }

  /** A rate that divides by targets x workers: each target's workers together emit their part. */
  lemma ExactShare(rate: nat, workers: nat, targets: nat)
    requires workers > 0 && targets > 0 && targets * workers > 0 && rate % (targets * workers) == 0
    ensures var share := rate / (targets * workers);
      targets * (share * workers) == rate && share * workers <= rate
  {
    var d := targets * workers;
    var share := rate / d;
    assert rate == d * share;
    assert d * share == targets * (share * workers) by {
      Rearranged(targets, workers, share);
      assert workers * share == share * workers;
    }
    Arith.MulMono(1, targets, share * workers);
  }

  lemma DivisorFits(targets: nat, workers: nat)
    requires workers > 0 && targets * workers < U32
    ensures (targets % U32) * workers % U32 == targets * workers
  {
    Arith.MulMono(1, workers, targets);
  }

  /** In 32 bits. */
  ghost function Wrap(x: nat): nat { x % U32 }

  lemma PlusMultiple(x: nat, k: nat)
    ensures (x + U32 * k) % U32 == x % U32
  {
    Arith.DivModUnique(x + U32 * k, U32, x / U32 + k, x % U32);
  }

  lemma ModTimes(a: nat, b: nat)
    ensures (a % U32) * b % U32 == a * b % U32
  {
    var q, r := a / U32, a % U32;
    assert a == U32 * q + r;
    Arith.Distributes(b, U32 * q, r);
    assert b * (U32 * q) == U32 * (q * b);
    assert a * b == r * b + U32 * (q * b);
    PlusMultiple(r * b, q * b);
  }

  lemma WrapTimes(a: nat, b: nat)
    ensures Wrap(Times(Wrap(a), b)) == Wrap(Times(a, b))
  {
    ModTimes(a, b);
  }

  lemma TimesCommutes(a: nat, b: nat)
    ensures Times(a, b) == Times(b, a)
  {
  }

  lemma TimesAssociates(a: nat, b: nat, c: nat)
    ensures Times(Times(a, b), c) == Times(a, Times(b, c))
  {
    Rearranged(a, b, c);
  }

  lemma WrappedProduct(rate: nat, targets: nat, workers: nat, share: nat)
    requires rate == Times(Wrap(Times(targets, workers)), share)
    ensures Wrap(Times(targets, Times(share, workers))) == Wrap(rate)
    ensures Wrap(Times(targets, Wrap(Times(share, workers)))) == Wrap(rate)
  {
    hide *;
    WrapTimes(Times(targets, workers), share);
    TimesAssociates(targets, workers, share);
    TimesCommutes(workers, share);
    WrapTimes(Times(share, workers), targets);
    TimesCommutes(Wrap(Times(share, workers)), targets);
    TimesCommutes(Times(share, workers), targets);
  }

  ghost function ShareOfTarget(rate: nat, targets: nat, workers: nat): nat {
    if targets * workers % U32 == 0 then 0 else rate / (targets * workers % U32)
  }

  /** What a target of a distributor is made to emit, with the divisor as it wraps. */
  ghost function EachTarget(e: Execution, targets: nat, workers: nat): nat {
    var share := Times(ShareOfTarget(e.rate, targets, workers), workers);
    if e.scenario.aggregate then Wrap(share) else share
  }

  lemma EmittedIs(e: Execution, targets: nat, workers: nat)
    requires !e.perBackend && UniformShare(e, targets).Ok?
    requires WorkersPerBackend(e.scenario.concurrency) == Ok(workers)
    ensures Wrap(Times(targets, workers)) != 0
    ensures e.rate == Times(Wrap(Times(targets, workers)), ShareOfTarget(e.rate, targets, workers))
    ensures EmittedByTargets(e, UniformShare(e, targets).value, targets, workers)
            == Times(targets, EachTarget(e, targets, workers))
  {
    ModTimes(targets, workers);
    hide WorkersPerBackend;
  }

  /** Whatever wraps, what the targets emit together is the plan's rate in 32 bits. */
  lemma UniformCongruent(e: Execution, targets: nat, workers: nat)
    requires !e.perBackend && UniformShare(e, targets).Ok?
    requires WorkersPerBackend(e.scenario.concurrency) == Ok(workers)
    ensures Wrap(EmittedByTargets(e, UniformShare(e, targets).value, targets, workers)) == Wrap(e.rate)
  {
    hide UniformShare, WorkersPerBackend, EmittedByTargets, Times, Wrap, ShareOfTarget;
    EmittedIs(e, targets, workers);
    WrappedProduct(e.rate, targets, workers, ShareOfTarget(e.rate, targets, workers));
  }

  /** The one options object means the plan's rate: with per_backend always. An engine that takes the rate
      per worker needs targets x workers to fit in 32 bits, unless there is no rate; one that takes the
      whole rate needs what the targets are then sent to add up in 32 bits. */
  predicate UniformFits(e: Execution, targets: nat, workers: nat) {
    if e.perBackend then true
    else if !e.scenario.aggregate then e.rate == 0 || targets * workers < U32
    else
      var divisor := targets * workers % U32;
      divisor != 0 && targets * (e.rate / divisor * workers % U32) < U32
  }

  lemma AggregateFitsIs(e: Execution, targets: nat, workers: nat)
    requires !e.perBackend && e.scenario.aggregate && Wrap(Times(targets, workers)) != 0
    ensures UniformFits(e, targets, workers) <==> Times(targets, EachTarget(e, targets, workers)) < U32
  {
  }

  /** Where it does not fit the divisor is a smaller one, and the workers are sent too much. */
  lemma UniformExactIff(e: Execution, targets: nat, workers: nat)
    requires e.rate < U32 && !e.perBackend && UniformShare(e, targets).Ok?
    requires WorkersPerBackend(e.scenario.concurrency) == Ok(workers)
    ensures EmittedByTargets(e, UniformShare(e, targets).value, targets, workers) == e.rate
            <==> UniformFits(e, targets, workers)
  {
    hide UniformShare, WorkersPerBackend, EmittedByTargets, Times, ShareOfTarget, UniformFits;
    EmittedIs(e, targets, workers);
    if e.scenario.aggregate {
      UniformCongruent(e, targets, workers);
      hide EachTarget;
      AggregateFitsIs(e, targets, workers);
    } else {
      PerWorkerExactIff(e, targets, workers, ShareOfTarget(e.rate, targets, workers));
    }
  }

  lemma PerWorkerExactIff(e: Execution, targets: nat, workers: nat, share: nat)
    requires Wrap(Times(targets, workers)) != 0 && e.rate == Times(Wrap(Times(targets, workers)), share)
    requires !e.scenario.aggregate && !e.perBackend
    ensures Times(targets, Times(share, workers)) == e.rate <==> UniformFits(e, targets, workers)
  {
    TimesAssociates(targets, workers, share);
    TimesCommutes(workers, share);
    var product := Times(targets, workers);
    hide Times;
    FitsIs(e, targets, workers);
    hide UniformFits;
    SameProduct(product, share);
  }

  lemma FitsIs(e: Execution, targets: nat, workers: nat)
    requires !e.scenario.aggregate && !e.perBackend
    ensures UniformFits(e, targets, workers) <==> e.rate == 0 || Times(targets, workers) < U32
  {
  }

  lemma SameProduct(product: nat, share: nat)
    requires Wrap(product) != 0
    ensures Times(product, share) == Times(Wrap(product), share) <==> Times(Wrap(product), share) == 0 || product < U32
  {
    if product >= U32 {
      if share == 0 {
        assert Times(product, share) == 0 && Times(Wrap(product), share) == 0;
      } else {
        Arith.MulMono(1, share, Wrap(product));
        Larger(product, Wrap(product), share);
      }
    }
  }

  lemma Larger(a: nat, b: nat, share: nat)
    requires b < a && b * share > 0
    ensures a * share > b * share
  {
    Arith.MulMono(b + 1, a, share);
    assert share * (b + 1) == b * share + share;
  }

  lemma Parsed65536()
    ensures WorkersPerBackend("65536") == Ok(65536)
  {
    var c := "65536";
    assert c[..4] == "6553" && "6553"[..3] == "655" && "655"[..2] == "65" && "65"[..1] == "6" && "6"[..0] == "";
    assert Decimal("6") == Some(6);
    assert Decimal("65") == Some(65);
    assert Decimal("655") == Some(655);
    assert Decimal("6553") == Some(6553);
  }

  /** 65537 targets of 65536 workers: the divisor wraps to 65536, and a plan of 65536 requests a second
      becomes one for each of more than four thousand million workers, however the engines take it. */
  lemma UniformWraps(e: Execution)
    requires e.rate == 65536 && !e.perBackend && e.scenario.concurrency == "65536"
    ensures UniformShare(e, 65537) == Ok(Options(if e.scenario.aggregate then 65536 else 1, e.name))
    ensures EmittedByTargets(e, UniformShare(e, 65537).value, 65537, 65536) == 65537 * 65536
  {
    Parsed65536();
  }

  /** The divisor of a distributor's rate is zero exactly when targets x workers is a multiple of 2^32; the
      code then divides by it. */
  lemma UniformDividesByZeroIff(e: Execution, targets: nat)
    ensures UniformShare(e, targets) == Err(DivisionByZero) <==>
      && targets > 0 && !e.perBackend && WorkersPerBackend(e.scenario.concurrency).Ok?
      && targets * WorkersPerBackend(e.scenario.concurrency).value % U32 == 0
  {
    var w := WorkersPerBackend(e.scenario.concurrency);
    if w.Ok? {
      ModTimes(targets, w.value);
      hide Decimal;
    }
  }

  /** 65536 targets of 65536 workers are enough. */
  lemma UniformDividesByZero(e: Execution)
    requires !e.perBackend && e.scenario.concurrency == "65536"
    ensures UniformShare(e, 65536) == Err(DivisionByZero)
  {
    Parsed65536();
  }

  // ----- A pool -----

  /** The backends an execution is dispatched to, and the options objects they receive. */
  function ForPool(e: Execution, pool: Pool): Result<(seq<string>, seq<Options>)> {
    match pool
    case Distributor(targets) =>
      var o := UniformShare(e, |targets|);
      if o.Err? then Err(o.error) else Ok((targets, [o.value]))
    case Unresolved(dns) =>
      var all := Divided(e, 1);
      if all.Err? then Err(all.error) else Ok(([dns], all.value))
    case Services(services) =>
      var all := Divided(e, |services|);
      if all.Err? then Err(all.error) else Ok((services, all.value))
  }

  /** What the backends of a pool emit together: a distributor forwards its one object to each target. */
  ghost function EmittedByPool(e: Execution, pool: Pool, sent: seq<Options>, workers: nat): nat {
    if pool.Distributor? && |sent| == 1 then EmittedByTargets(e, sent[0], |pool.targets|, workers)
    else EmittedByAll(e, sent, workers)
  }

  /** Compilation keeps the load of a resolved pool: always where each backend has its own options, and
      behind a distributor exactly where the one object fits. */
  lemma CompiledKeepsTheLoad(e: Execution, pool: Pool)
    requires e.rate < U32 && !pool.Unresolved? && ForPool(e, pool).Ok?
    requires pool.Services? ==> |pool.services| < U32
    ensures WorkersPerBackend(e.scenario.concurrency).Ok?
    ensures var workers := WorkersPerBackend(e.scenario.concurrency).value;
      var (backends, sent) := ForPool(e, pool).value;
      EmittedByPool(e, pool, sent, workers) == (if e.perBackend then e.rate * |backends| else e.rate)
      <==> (pool.Distributor? ==> UniformFits(e, |pool.targets|, workers))
  {
    if pool.Services? {
      DividedKeepsTheLoad(e, |pool.services|);
    } else {
      UniformKeepsTheLoad(e, |pool.targets|);
      if !e.perBackend {
        UniformExactIff(e, |pool.targets|, WorkersPerBackend(e.scenario.concurrency).value);
      }
    }
    hide UniformShare, Divided, UniformFits;
  }
}
