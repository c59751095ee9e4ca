/** The promises of the UDP client, over every run, those included in which a sequence number comes round
    again while its datagram is still outstanding. */
module UdpRuns {
  import opened Tally
  import opened Udp

  // ----- The prefix -----

  function Pow16(k: nat): nat { if k == 0 then 1 else 16 * Pow16(k - 1) }

  lemma DigitBack(d: nat)
    requires d < 16
    ensures DigitValue(DIGITS[d]) == Some(d)
  {
  }

  lemma {:induction false} HexBack(number: nat, width: nat)
    requires number < Pow16(width)
    ensures HexValue(Hex(number, width)) == Some(number)
  {
    if width > 0 {
      HexBack(number / 16, width - 1);
      DigitBack(number % 16);
      var s := Hex(number, width);
      assert s[..|s| - 1] == Hex(number / 16, width - 1);
    }
  }

  lemma SixteenDigits()
    ensures Pow16(16) == NUMBERS
  {
    assert Pow16(4) == 0x1_0000;
    assert Pow16(8) == 0x1_0000_0000;
    assert Pow16(12) == 0x1_0000_0000_0000;
  }

  /** Every 64-bit sequence number comes back from its 16 digits, whatever follows them. */
  lemma PrefixBack(number: nat, rest: string, lenient: string -> Option<nat>)
    requires number < NUMBERS
    ensures ParsePrefix((SequencePrefix(number) + rest)[..16], lenient) == Some(number)
  {
    SixteenDigits();
    HexBack(number, 16);
    assert (SequencePrefix(number) + rest)[..16] == SequencePrefix(number);
  }

  function LowerDigit(c: char): char {
    if 'A' <= c <= 'F' then DIGITS[(c - 'A') as nat + 10] else c
  }

  function LowerHex(s: string): (r: string)
    ensures |r| == |s|
  {
    if s == "" then "" else LowerHex(s[..|s| - 1]) + [LowerDigit(s[|s| - 1])]
  }

  lemma DigitOf(c: char)
    requires DigitValue(c).Some?
    ensures DigitValue(c).value < 16
    ensures DIGITS[DigitValue(c).value] == LowerDigit(c)
  {
  }

  lemma LastDigit(high: nat, low: nat)
    requires low < 16
    ensures (16 * high + low) / 16 == high && (16 * high + low) % 16 == low
  {
  }

  lemma HexValueLast(s: string)
    requires s != "" && HexValue(s).Some?
    ensures var k := |s| - 1;
      && HexValue(s[..k]).Some? && DigitValue(s[k]).Some?
      && HexValue(s).value == 16 * HexValue(s[..k]).value + DigitValue(s[k]).value
  {
  }

  lemma HexLast(high: nat, low: nat, width: nat)
    requires low < 16
    ensures Hex(16 * high + low, width + 1) == Hex(high, width) + [DIGITS[low]]
  {
    LastDigit(high, low);
  }

  lemma LowerHexLast(s: string)
    requires s != "" && DigitValue(s[|s| - 1]).Some?
    ensures var k := |s| - 1;
      DigitValue(s[k]).value < 16 && LowerHex(s) == LowerHex(s[..k]) + [DIGITS[DigitValue(s[k]).value]]
  {
    hide DigitValue, LowerDigit, DIGITS;
    DigitOf(s[|s| - 1]);
  }

  lemma NoDigits()
    ensures Hex(0, 0) == LowerHex("") && HexValue("") == Some(0)
  {
  }

  lemma {:induction false} HexOnlyOf(s: string)
    requires HexValue(s).Some?
    ensures Hex(HexValue(s).value, |s|) == LowerHex(s)
  {
    hide *;
    if s == "" {
      NoDigits();
    } else {
      var k := |s| - 1;
      HexValueLast(s);
      LowerHexLast(s);
      HexOnlyOf(s[..k]);
      HexLast(HexValue(s[..k]).value, DigitValue(s[k]).value, k);
    }
  }

  /** A prefix of 16 hexadecimal digits gives a number exactly when it is that number's prefix, but for
      the case of its letters. */
  lemma PrefixOnlyOf(prefix: string, number: nat)
    requires |prefix| == 16 && HexValue(prefix).Some? && number < NUMBERS
    ensures HexValue(prefix) == Some(number) <==> LowerHex(prefix) == SequencePrefix(number)
  {
    HexOnlyOf(prefix);
    if LowerHex(prefix) == SequencePrefix(number) {
      var n := HexValue(prefix).value;
      HexBelow(prefix);
      SixteenDigits();
      PrefixBack(number, "", Never);
      PrefixBack(n, "", Never);
      assert SequencePrefix(number) + "" == SequencePrefix(number) == SequencePrefix(n) == SequencePrefix(n) + "";
    }
  }

  function Never(s: string): Option<nat> { None }

  lemma {:induction false} HexBelow(s: string)
    requires HexValue(s).Some?
    ensures HexValue(s).value < Pow16(|s|)
  {
    if s != "" {
      HexBelow(s[..|s| - 1]);
      DigitOf(s[|s| - 1]);
    }
  }

  // ----- The datagrams outstanding -----

  lemma {:induction false} CallsCount(q: seq<Datagram>)
    ensures |Calls(q)| == |q|
  {
    if q != [] {
      CallsCount(q[1..]);
    }
  }

  lemma {:induction false} CallsAppend(a: seq<Datagram>, b: seq<Datagram>)
    ensures Calls(a + b) == Calls(a) + Calls(b)
  {
    if a == [] {
      assert a + b == b;
    } else {
      assert (a + b)[1..] == a[1..] + b;
      CallsAppend(a[1..], b);
    }
  }

  lemma CallsWithout(q: seq<Datagram>, i: nat)
    requires i < |q|
    ensures Calls(q[..i] + q[i + 1..]) + multiset{q[i].call} == Calls(q)
  {
    hide Calls;
    var a, b := q[..i], q[i + 1..];
    CallsAppend(a, b);
    assert q == a + ([q[i]] + b);
    CallsAppend(a, [q[i]] + b);
    CallsAppend([q[i]], b);
    OneCall(q[i]);
  }

  lemma OneCall(d: Datagram)
    ensures Calls([d]) == multiset{d.call}
  {
  }

  ghost predicate ByNumber(q: seq<Datagram>) {
    forall i, j | 0 <= i < j < |q| :: q[i].number < q[j].number
  }

  predicate Outstanding(q: seq<Datagram>, number: nat) {
    IndexOf(q, number) < |q|
  }

  lemma {:induction false} OutstandingIff(q: seq<Datagram>, number: nat)
    ensures Outstanding(q, number) <==> exists i | 0 <= i < |q| :: q[i].number == number
  {
    if q != [] && q[0].number != number {
      OutstandingIff(q[1..], number);
      if i :| 0 <= i < |q| && q[i].number == number {
        assert q[1..][i - 1] == q[i];
      }
    }
  }

  /** A number that is outstanding keeps its datagram, and the new one is dropped. */
  lemma {:induction false} InsertTaken(q: seq<Datagram>, d: Datagram)
    requires ByNumber(q) && Outstanding(q, d.number)
    ensures Insert(q, d) == q
  {
    if q[0].number != d.number {
      InsertTaken(q[1..], d);
      OutstandingIff(q[1..], d.number);
    }
  }

  /** One that is not goes in its place. */
  lemma {:induction false} InsertFree(q: seq<Datagram>, d: Datagram) returns (k: nat)
    requires ByNumber(q) && !Outstanding(q, d.number)
    ensures k <= |q| && Insert(q, d) == q[..k] + [d] + q[k..] && (k < |q| ==> d.number < q[k].number)
    ensures (forall i | 0 <= i < k :: q[i].number < d.number) && (forall i | k <= i < |q| :: d.number < q[i].number)
  {
    k := 0;
    if q != [] && q[0].number < d.number {
      k := InsertFree(q[1..], d);
      k := k + 1;
    }
  }

  lemma CallsInsert(q: seq<Datagram>, d: Datagram)
    requires ByNumber(q) && !Outstanding(q, d.number)
    ensures Calls(Insert(q, d)) == Calls(q) + multiset{d.call}
  {
    hide Calls, Insert;
    var k := InsertFree(q, d);
    assert q == q[..k] + q[k..];
    assert Insert(q, d) == q[..k] + ([d] + q[k..]);
    CallsAppend(q[..k], [d] + q[k..]);
    CallsAppend([d], q[k..]);
    CallsAppend(q[..k], q[k..]);
    OneCall(d);
  }

  // ----- Collisions -----

  /** A datagram that is sent with a number that is still outstanding. */
  predicate Collides(v: Client, e: Event) {
    && e.Send? && e.written && v.socket && !v.draining && |v.inflight| < v.cfg.maxInflight
    && Outstanding(v.inflight, v.next)
  }

  ghost predicate NoCollision(v: Client, events: seq<Event>) {
    forall k | 0 <= k < |events| :: !Collides(Run(v, events[..k]), events[k])
  }

  ghost function CollidedAt(v: Client, e: Event): multiset<nat> {
    if Collides(v, e) then multiset{v.calls} else multiset{}
  }

  /** The calls whose datagram collided, over a run. */
  ghost function Collided(v: Client, events: seq<Event>): multiset<nat> {
    if events == [] then multiset{}
    else
      var k := |events| - 1;
      Collided(v, events[..k]) + CollidedAt(Run(v, events[..k]), events[k])
  }

  lemma {:induction false} NoneCollided(v: Client, events: seq<Event>)
    ensures NoCollision(v, events) <==> Collided(v, events) == multiset{}
  {
    if events != [] {
      var k := |events| - 1;
      NoneCollided(v, events[..k]);
      NoCollisionLast(v, events);
      CollidedLast(v, events);
      hide Collides, Run, Collided, NoCollision;
    }
  }

  lemma NoCollisionLast(v: Client, events: seq<Event>)
    requires events != []
    ensures var k := |events| - 1;
      NoCollision(v, events) <==> NoCollision(v, events[..k]) && !Collides(Run(v, events[..k]), events[k])
  {
    hide Collides, Run;
    var k := |events| - 1;
    assert forall j | 0 <= j < k :: events[..k][..j] == events[..j] && events[..k][j] == events[j];
  }

  lemma CollidedLast(v: Client, events: seq<Event>)
    requires events != []
    ensures var k := |events| - 1;
      Collided(v, events) == Collided(v, events[..k]) + CollidedAt(Run(v, events[..k]), events[k])
  {
  }

  // ----- The invariant -----

  /** How many sequence numbers were used. */
  function Taken(v: Client): nat { v.n.sent + v.n.sendErrors }

  ghost predicate BySendingTime(q: seq<Datagram>) {
    forall i, j | 0 <= i < j < |q| :: q[i].sentAt <= q[j].sentAt
  }

  /** In the order of numbers, which is the order sent until the numbers come round. */
  ghost predicate InOrder(q: seq<Datagram>, taken: nat, now: int) {
    && ByNumber(q) && (forall i | 0 <= i < |q| :: q[i].number < NUMBERS && q[i].sentAt <= now)
    && (taken <= NUMBERS ==> BySendingTime(q) && forall i | 0 <= i < |q| :: q[i].number < taken)
  }

  /** `gone` are the calls that collided. */
  ghost predicate Books(v: Client, gone: multiset<nat>) {
    && v.calls + (if v.noSocket then 1 else 0) == v.n.sent + v.n.deferred + v.n.sendErrors + v.n.unavailable
    && Calls(v.inflight) + v.succeeded + v.failed + gone == Below(v.calls)
    && |v.succeeded| == v.n.received
    && |v.failed| + (if v.noSocket then 1 else 0) == v.n.deferred + v.n.sendErrors + v.n.unavailable + v.n.lost
  }

  ghost predicate Phases(v: Client) {
    && v.next == Taken(v) % NUMBERS
    && |v.inflight| <= v.cfg.maxInflight
    && (v.draining <==> v.waiting || v.ended) && !(v.waiting && v.ended)
    && (v.ended ==> v.inflight == [])
    && (v.waiting && v.inflight == [] ==> v.exitAsked)
    && (v.noSocket ==> !v.socket) && (!v.prepared ==> !v.socket && !v.noSocket)
  }

  ghost predicate Inv(v: Client, gone: multiset<nat>) {
    InOrder(v.inflight, Taken(v), v.now) && Books(v, gone) && Phases(v)
  }

  lemma DroppedKeeps(v: Client, n: Counters, gone: multiset<nat>)
    requires Inv(v, gone)
    requires || n == v.n.(unavailable := v.n.unavailable + 1)
             || n == v.n.(deferred := v.n.deferred + 1)
             || n == v.n.(sendErrors := v.n.sendErrors + 1)
    ensures var next := (v.n.sent + n.sendErrors) % NUMBERS; Inv(Dropped(v, n).(next := next), gone)
  {
    hide Books, InOrder;
    DroppedBooks(v, n, gone, (v.n.sent + n.sendErrors) % NUMBERS);
    OrderLater(v.inflight, Taken(v), v.n.sent + n.sendErrors, v.now);
  }

  lemma DroppedBooks(v: Client, n: Counters, gone: multiset<nat>, next: nat)
    requires Books(v, gone)
    requires || n == v.n.(unavailable := v.n.unavailable + 1)
             || n == v.n.(deferred := v.n.deferred + 1)
             || n == v.n.(sendErrors := v.n.sendErrors + 1)
    ensures Books(Dropped(v, n).(next := next), gone)
  {
    var f := v.failed + multiset{v.calls};
    BelowNext(v.calls);
    hide Below, Calls;
    assert Calls(v.inflight) + v.succeeded + f + gone
        == Calls(v.inflight) + v.succeeded + v.failed + gone + multiset{v.calls};
  }

  lemma OrderLater(q: seq<Datagram>, taken: nat, later: nat, now: int)
    requires InOrder(q, taken, now) && taken <= later
    ensures InOrder(q, later, now)
  {
  }

  /** While numbers are fresh the next one is above every number outstanding. */
  lemma OrderInsert(q: seq<Datagram>, d: Datagram, taken: nat, now: int)
    requires InOrder(q, taken, now) && !Outstanding(q, d.number)
    requires d.number == taken % NUMBERS && d.sentAt == now
    ensures InOrder(Insert(q, d), taken + 1, now) && |Insert(q, d)| == |q| + 1
  {
    hide Insert;
    var k := InsertFree(q, d);
    if taken + 1 <= NUMBERS {
      assert forall i | 0 <= i < |q| :: q[i].number < taken == d.number;
    }
  }

  lemma FreshIsFree(q: seq<Datagram>, taken: nat, now: int)
    requires InOrder(q, taken, now) && taken < NUMBERS
    ensures !Outstanding(q, taken % NUMBERS)
  {
  }

  lemma SentBooks(v: Client, q: Client, gone: multiset<nat>, more: multiset<nat>)
    requires Books(v, gone) && q.calls == v.calls + 1 && q.n == v.n.(sent := v.n.sent + 1)
    requires q.succeeded == v.succeeded && q.failed == v.failed && q.noSocket == v.noSocket
    requires Calls(q.inflight) + more == Calls(v.inflight) + multiset{v.calls}
    ensures Books(q, gone + more)
  {
    BelowNext(v.calls);
    hide Below, Calls;
    var c, c' := Calls(v.inflight), Calls(q.inflight);
    assert c' + v.succeeded + v.failed + (gone + more) == c' + more + v.succeeded + v.failed + gone;
    assert c' + more + v.succeeded + v.failed + gone == c + v.succeeded + v.failed + gone + multiset{v.calls};
  }

  /** A datagram is sent: it goes in its place, or collides and is forgotten. */
  lemma SentKeeps(v: Client, gone: multiset<nat>)
    requires Inv(v, gone) && v.socket && !v.draining && |v.inflight| < v.cfg.maxInflight
    ensures Inv(TryStartRequest(v, true), gone + CollidedAt(v, Send(true)))
  {
    hide Below, Calls, Insert, Books, Outstanding;
    var d := Datagram(v.next, v.now, v.calls);
    var q := TryStartRequest(v, true);
    assert q.inflight == Insert(v.inflight, d);
    if Outstanding(v.inflight, v.next) {
      InsertTaken(v.inflight, d);
      OrderLater(v.inflight, Taken(v), Taken(v) + 1, v.now);
      SentBooks(v, q, gone, multiset{v.calls});
    } else {
      CallsInsert(v.inflight, d);
      OrderInsert(v.inflight, d, Taken(v), v.now);
      SentBooks(v, q, gone, multiset{});
    }
    hide InOrder;
  }

  lemma SendKeeps(v: Client, written: bool, gone: multiset<nat>)
    requires Inv(v, gone)
    ensures Inv(TryStartRequest(v, written), gone + CollidedAt(v, Send(written)))
  {
    if v.socket && !v.draining && |v.inflight| < v.cfg.maxInflight && written {
      hide Inv;
      SentKeeps(v, gone);
    } else {
      assert gone + CollidedAt(v, Send(written)) == gone;
      hide Inv;
      DroppedIs(v, written, gone);
      DroppedKeeps(v, TryStartRequest(v, written).n, gone);
    }
  }

  lemma DroppedIs(v: Client, written: bool, gone: multiset<nat>)
    requires Inv(v, gone) && !(v.socket && !v.draining && |v.inflight| < v.cfg.maxInflight && written)
    ensures var q := TryStartRequest(v, written);
      q == Dropped(v, q.n).(next := (v.n.sent + q.n.sendErrors) % NUMBERS)
  {
    hide Books, InOrder;
  }

  /** Datagrams leave, answered or lost, and their calls are told. */
  lemma ToldKeepsBooks(v: Client, q: Client, told: multiset<nat>, answered: bool, gone: multiset<nat>)
    requires Books(v, gone) && Calls(q.inflight) + told == Calls(v.inflight)
    requires q.calls == v.calls && q.noSocket == v.noSocket
    requires if answered then q.n == v.n.(received := v.n.received + |told|) else q.n == v.n.(lost := v.n.lost + |told|)
    requires q.succeeded == (if answered then v.succeeded + told else v.succeeded)
    requires q.failed == (if answered then v.failed else v.failed + told)
    ensures Books(q, gone)
  {
    hide Below, Calls;
    var c, c' := Calls(v.inflight), Calls(q.inflight);
    assert c' + q.succeeded + q.failed + gone == c' + told + v.succeeded + v.failed + gone;
  }

  lemma OrderWithout(q: seq<Datagram>, i: nat, taken: nat, now: int)
    requires InOrder(q, taken, now) && i < |q|
    ensures InOrder(q[..i] + q[i + 1..], taken, now)
  {
  }

  lemma OrderFrom(q: seq<Datagram>, k: nat, taken: nat, now: int)
    requires InOrder(q, taken, now) && k <= |q|
    ensures InOrder(q[k..], taken, now)
  {
  }

  lemma ArrivesKeeps(v: Client, bytes: string, gone: multiset<nat>)
    requires Inv(v, gone)
    ensures Inv(OnDatagram(v, bytes), gone)
  {
    hide Answers, IndexOf, Calls, Below;
    var number := Answers(v.cfg, bytes);
    if number.Some? && IndexOf(v.inflight, number.value) < |v.inflight| {
      var i := IndexOf(v.inflight, number.value);
      CallsWithout(v.inflight, i);
      ToldKeepsBooks(v, OnDatagram(v, bytes), multiset{v.inflight[i].call}, true, gone);
      OrderWithout(v.inflight, i, Taken(v), v.now);
      hide Books, InOrder;
    }
  }

  lemma GivenUpKeeps(v: Client, k: nat, gone: multiset<nat>)
    requires Books(v, gone) && InOrder(v.inflight, Taken(v), v.now) && k <= |v.inflight|
    ensures var q := GivenUp(v, k); Books(q, gone) && InOrder(q.inflight, Taken(q), q.now)
  {
    hide Calls, Below, Books, InOrder;
    var q := v.inflight;
    assert q == q[..k] + q[k..];
    CallsAppend(q[..k], q[k..]);
    CallsCount(q[..k]);
    OrderFrom(q, k, Taken(v), v.now);
    ToldKeepsBooks(v, GivenUp(v, k), Calls(q[..k]), false, gone);
  }

  lemma NextKeeps(v: Client, e: Event, gone: multiset<nat>)
    requires Inv(v, gone)
    ensures Inv(Next(v, e), gone + CollidedAt(v, e)) && Taken(v) <= Taken(Next(v, e))
  {
    hide Books, InOrder, Calls, LateRun, IndexOf, Answers, Insert;
    assert !e.Send? ==> gone + CollidedAt(v, e) == gone;
    if Enabled(v, e) {
      match e
      case Prepare(connected) => PreparedKeeps(v, connected, gone);
      case Elapse(time) => ElapsedKeeps(v, time, gone);
      case Send(written) => SendKeeps(v, written, gone);
      case Arrives(bytes) => ArrivesKeeps(v, bytes, gone);
      case SweepTimer => SweepKeeps(v, gone);
      case Finish => FinishKeeps(v, gone);
      case FinishReturns => ReturnKeeps(v, gone);
      case DrainTimer => SameBooks(v, Next(v, e), gone);
    }
  }

  lemma ReturnKeeps(v: Client, gone: multiset<nat>)
    requires Inv(v, gone) && v.waiting && v.exitAsked
    ensures Inv(Next(v, FinishReturns), gone)
  {
    hide Books, InOrder, Calls;
    GivenUpKeeps(v, |v.inflight|, gone);
    SameBooks(GivenUp(v, |v.inflight|), Next(v, FinishReturns), gone);
  }

  lemma SweepKeeps(v: Client, gone: multiset<nat>)
    requires Inv(v, gone) && v.socket && !v.ended
    ensures Inv(OnSweep(v), gone)
  {
    hide Books, InOrder, Calls, LateRun;
    var k := LateRun(v, v.inflight);
    GivenUpKeeps(v, k, gone);
    SameBooks(GivenUp(v, k), OnSweep(v), gone);
  }

  lemma FinishKeeps(v: Client, gone: multiset<nat>)
    requires Inv(v, gone)
    ensures Inv(OnFinish(v), gone)
  {
    hide Books, InOrder, Calls;
    if !v.draining {
      GivenUpKeeps(v, |v.inflight|, gone);
      if v.inflight != [] && v.socket {
        SameBooks(v, OnFinish(v), gone);
      } else {
        SameBooks(GivenUp(v, |v.inflight|), OnFinish(v), gone);
      }
    }
  }

  lemma SameBooks(v: Client, q: Client, gone: multiset<nat>)
    requires Books(v, gone) && InOrder(v.inflight, Taken(v), v.now)
    requires q.calls == v.calls && q.noSocket == v.noSocket && q.n == v.n && q.inflight == v.inflight && q.now == v.now
    requires q.succeeded == v.succeeded && q.failed == v.failed
    ensures Books(q, gone) && InOrder(q.inflight, Taken(q), q.now)
  {
    hide Calls, Below;
  }

  lemma PreparedKeeps(v: Client, connected: bool, gone: multiset<nat>)
    requires Inv(v, gone)
    ensures Inv(Next(v, Prepare(connected)), gone)
  {
    hide Calls, Below;
  }

  lemma ElapsedKeeps(v: Client, time: nat, gone: multiset<nat>)
    requires Inv(v, gone)
    ensures Inv(v.(now := v.now + time), gone)
  {
    hide Calls, Below;
  }

  lemma {:induction false} RunKeeps(cfg: Config, now: int, events: seq<Event>)
    ensures Inv(Run(New(cfg, now), events), Collided(New(cfg, now), events))
  {
    NewInv(cfg, now);
    if events != [] {
      var k := |events| - 1;
      RunKeeps(cfg, now, events[..k]);
      hide Inv, Next, CollidedAt, New;
      NextKeeps(Run(New(cfg, now), events[..k]), events[k], Collided(New(cfg, now), events[..k]));
    }
  }

  lemma NewInv(cfg: Config, now: int)
    ensures Inv(New(cfg, now), multiset{}) && Taken(New(cfg, now)) == 0
  {
  }

  lemma NextKeepsConfig(v: Client, e: Event)
    ensures Next(v, e).cfg == v.cfg
  {
    hide TryStartRequest, OnDatagram, OnSweep, OnFinish, Closed;
  }

  lemma {:induction false} RunKeepsConfig(v: Client, events: seq<Event>)
    ensures Run(v, events).cfg == v.cfg
  {
    hide Next;
    if events != [] {
      NextKeepsConfig(Run(v, events[..|events| - 1]), events[|events| - 1]);
      RunKeepsConfig(v, events[..|events| - 1]);
    }
  }

  // ----- The books -----

  /** Every call is sent, deferred, an error or unavailable; what was sent was received, was lost, is
      outstanding or collided; the callback of a call that collided is never told, and every other is told
      exactly once or owed exactly once; and once finish() has returned nothing is outstanding. */
  lemma EveryRun(cfg: Config, now: int, events: seq<Event>)
    ensures var v := Run(New(cfg, now), events);
      var gone := Collided(New(cfg, now), events);
      && v.n.sent == v.n.received + v.n.lost + |v.inflight| + |gone|
      && |v.inflight| <= cfg.maxInflight
      && v.calls + (if v.noSocket then 1 else 0) == v.n.sent + v.n.deferred + v.n.sendErrors + v.n.unavailable
      && (forall call: nat :: gone[call] <= 1 && (call in gone ==> call < v.calls)
            && v.succeeded[call] + v.failed[call] + Calls(v.inflight)[call]
               == if call < v.calls && call !in gone then 1 else 0)
      && (v.ended ==> v.inflight == []) && (v.waiting && v.inflight == [] ==> v.exitAsked)
  {
    hide Run, New, Collided, InOrder;
    var v := Run(New(cfg, now), events);
    var gone := Collided(New(cfg, now), events);
    RunKeeps(cfg, now, events);
    ConfigIs(cfg, now, events);
    CallsCount(v.inflight);
    BelowIsASet(v.calls);
    hide Below, Calls;
    assert |Calls(v.inflight) + v.succeeded + v.failed + gone| == v.calls;
    forall call: nat
      ensures v.succeeded[call] + v.failed[call] + Calls(v.inflight)[call] + gone[call]
              == if call < v.calls then 1 else 0
    {
      assert (Calls(v.inflight) + v.succeeded + v.failed + gone)[call] == Below(v.calls)[call];
    }
  }

  lemma ConfigIs(cfg: Config, now: int, events: seq<Event>)
    ensures Run(New(cfg, now), events).cfg == cfg
  {
    RunKeepsConfig(New(cfg, now), events);
  }

  ghost predicate Conserved(v: Client) {
    v.n.sent == v.n.received + v.n.lost + |v.inflight|
  }

  ghost predicate ToldOrOwedOnce(v: Client) {
    forall call: nat | call < v.calls :: v.succeeded[call] + v.failed[call] + Calls(v.inflight)[call] == 1
  }

  /** Nothing that was sent goes missing, and no call's callback does, exactly in the runs in which no
      datagram is sent with a number that is still outstanding. */
  lemma ConservedIff(cfg: Config, now: int, events: seq<Event>)
    ensures var v := Run(New(cfg, now), events);
      && (Conserved(v) <==> NoCollision(New(cfg, now), events))
      && (ToldOrOwedOnce(v) <==> NoCollision(New(cfg, now), events))
  {
    EveryRun(cfg, now, events);
    NoneCollided(New(cfg, now), events);
    hide Run, New, Collided, NoCollision, Calls;
    var gone := Collided(New(cfg, now), events);
    if gone != multiset{} {
      var call :| call in gone;
    }
  }

  lemma TakenGrows(v: Client, e: Event, gone: multiset<nat>)
    requires Inv(v, gone)
    ensures Taken(v) <= Taken(Next(v, e))
    ensures Taken(v) < NUMBERS ==> !Collides(v, e)
    ensures Collides(v, e) ==> Taken(Next(v, e)) == Taken(v) + 1
  {
    NextKeeps(v, e, gone);
    if Taken(v) < NUMBERS {
      FreshIsFree(v.inflight, Taken(v), v.now);
    }
    hide Outstanding, InOrder, Books, LateRun, Insert;
  }

  /** A run that uses each number at most once has no collision, and its outstanding datagrams are in the
      order of their sending times. */
  lemma {:induction false} OncePerNumber(cfg: Config, now: int, events: seq<Event>)
    requires Taken(Run(New(cfg, now), events)) <= NUMBERS
    ensures NoCollision(New(cfg, now), events) && BySendingTime(Run(New(cfg, now), events).inflight)
  {
    RunKeeps(cfg, now, events);
    NoneCollided(New(cfg, now), events);
    if events != [] {
      var k := |events| - 1;
      var v := Run(New(cfg, now), events[..k]);
      RunKeeps(cfg, now, events[..k]);
      CollidedLast(New(cfg, now), events);
      assert Run(New(cfg, now), events) == Next(v, events[k]);
      hide Run, New, Next, Collides, NoCollision, Collided, Books, Phases;
      TakenGrows(v, events[k], Collided(New(cfg, now), events[..k]));
      OncePerNumber(cfg, now, events[..k]);
      NoneCollided(New(cfg, now), events[..k]);
    }
  }

  // ----- The sweep -----

  /** No datagram past the timeout stands behind one in time. */
  ghost predicate LateInFront(v: Client) {
    forall i, j | 0 <= i < j < |v.inflight| :: Late(v, v.inflight[j]) ==> Late(v, v.inflight[i])
  }

  lemma {:induction false} LateRunIs(v: Client, q: seq<Datagram>)
    ensures forall i | 0 <= i < LateRun(v, q) :: Late(v, q[i])
    ensures LateRun(v, q) < |q| ==> !Late(v, q[LateRun(v, q)])
  {
    if q != [] && Late(v, q[0]) {
      LateRunIs(v, q[1..]);
    }
  }

  /** The sweep stops at the first datagram in time. It gives up on exactly those that are late when none
      of these is behind one in time, and only then. */
  lemma SweepExactIff(v: Client)
    ensures var q := OnSweep(v);
      && ((forall d :: d in q.inflight <==> d in v.inflight && !Late(v, d)) <==> LateInFront(v))
      && q.n.lost - v.n.lost == |v.inflight| - |q.inflight|
  {
    hide Late, LateRun;
    LateRunIs(v, v.inflight);
    var k := LateRun(v, v.inflight);
    assert OnSweep(v).inflight == v.inflight[k..];
    if LateInFront(v) {
      forall d
        ensures d in v.inflight[k..] <==> d in v.inflight && !Late(v, d)
      {
        if d in v.inflight && !Late(v, d) {
          var i :| 0 <= i < |v.inflight| && v.inflight[i] == d;
          assert v.inflight[k..][i - k] == d;
        }
      }
    } else {
      var i, j :| 0 <= i < j < |v.inflight| && Late(v, v.inflight[j]) && !Late(v, v.inflight[i]);
      assert v.inflight[k..][j - k] == v.inflight[j];
    }
  }

  /** Where the numbers outstanding are in the order of their sending times, it does. */
  lemma SweepExact(v: Client)
    requires BySendingTime(v.inflight)
    ensures forall d :: d in OnSweep(v).inflight <==> d in v.inflight && !Late(v, d)
  {
    SweepExactIff(v);
    hide OnSweep;
  }

  // ----- Echoes -----

  lemma {:induction false} FoundAt(q: seq<Datagram>, i: nat)
    requires i < |q| && ByNumber(q)
    ensures IndexOf(q, q[i].number) == i
  {
    if i > 0 {
      assert q[1..][i - 1] == q[i];
      FoundAt(q[1..], i - 1);
    }
  }

  /** The datagram `i` outstanding, answered. */
  ghost predicate Completes(v: Client, q: Client, i: nat)
    requires i < |v.inflight|
  {
    && q.inflight == v.inflight[..i] + v.inflight[i + 1..]
    && q.succeeded == v.succeeded + multiset{v.inflight[i].call}
  }

  /** The echo of an outstanding datagram completes that datagram, whatever else was sent. */
  lemma EchoCompletesItsOwn(cfg: Config, now: int, events: seq<Event>, i: nat)
    requires i < |Run(New(cfg, now), events).inflight|
    ensures var v := Run(New(cfg, now), events);
      Completes(v, OnDatagram(v, SequencePrefix(v.inflight[i].number) + cfg.message), i)
  {
    hide Run, New, Collided;
    var v := Run(New(cfg, now), events);
    RunKeeps(cfg, now, events);
    ConfigIs(cfg, now, events);
    var number := v.inflight[i].number;
    var bytes := SequencePrefix(number) + cfg.message;
    PrefixBack(number, cfg.message, cfg.lenient);
    assert bytes[16..] == cfg.message;
    assert Answers(v.cfg, bytes) == Some(number);
    FoundAt(v.inflight, i);
    hide Answers, IndexOf, SequencePrefix, Books, InOrder;
  }

  /** And nothing else does: of the datagrams that begin with sixteen hexadecimal digits, only the echo,
      but for the case of its letters. */
  lemma OnlyItsEcho(cfg: Config, now: int, events: seq<Event>, i: nat, bytes: string)
    requires i < |Run(New(cfg, now), events).inflight|
    requires |bytes| >= 16 && HexValue(bytes[..16]).Some?
    ensures var v := Run(New(cfg, now), events);
      Completes(v, OnDatagram(v, bytes), i)
      <==> LowerHex(bytes[..16]) + bytes[16..] == SequencePrefix(v.inflight[i].number) + cfg.message
  {
    hide Run, New, Collided;
    var v := Run(New(cfg, now), events);
    RunKeeps(cfg, now, events);
    ConfigIs(cfg, now, events);
    hide Books, Phases;
    var number := v.inflight[i].number;
    PrefixOnlyOf(bytes[..16], number);
    JoinedAt16(LowerHex(bytes[..16]), bytes[16..], SequencePrefix(number), cfg.message);
    hide HexValue, LowerHex, SequencePrefix;
    assert Answers(v.cfg, bytes) == Some(number)
           <==> HexValue(bytes[..16]) == Some(number) && bytes[16..] == cfg.message;
    CompletesIff(v, bytes, i);
  }

  lemma JoinedAt16(a: string, b: string, c: string, d: string)
    requires |a| == |c| == 16
    ensures a + b == c + d <==> a == c && b == d
  {
    if a + b == c + d {
      assert (a + b)[..16] == a && (c + d)[..16] == c && (a + b)[16..] == b && (c + d)[16..] == d;
    }
  }

  lemma CompletesIff(v: Client, bytes: string, i: nat)
    requires ByNumber(v.inflight) && i < |v.inflight|
    ensures Completes(v, OnDatagram(v, bytes), i) <==> Answers(v.cfg, bytes) == Some(v.inflight[i].number)
  {
    var number := Answers(v.cfg, bytes);
    FoundAt(v.inflight, i);
    Matched(v, bytes);
    hide Answers, IndexOf, OnDatagram, ByNumber;
    if number.Some? && IndexOf(v.inflight, number.value) < |v.inflight| {
      var k := IndexOf(v.inflight, number.value);
      if k != i {
        WithoutDiffers(v.inflight, i, k);
      }
    } else {
      assert |v.inflight[..i] + v.inflight[i + 1..]| < |v.inflight|;
    }
  }

  lemma Matched(v: Client, bytes: string)
    ensures var number := Answers(v.cfg, bytes);
      var k := if number.None? then |v.inflight| else IndexOf(v.inflight, number.value);
      if k < |v.inflight| then Completes(v, OnDatagram(v, bytes), k) else OnDatagram(v, bytes).inflight == v.inflight
  {
    hide Answers, IndexOf;
  }

  lemma WithoutDiffers(q: seq<Datagram>, i: nat, k: nat)
    requires i < |q| && k < |q| && i != k && ByNumber(q)
    ensures q[..i] + q[i + 1..] != q[..k] + q[k + 1..]
  {
    var a := if i < k then i else k;
    assert (q[..a] + q[a + 1..])[a] == q[a + 1];
    assert (if i < k then q[..k] + q[k + 1..] else q[..i] + q[i + 1..])[a] == q[a];
  }

  // ----- When the numbers come round -----

  /** So many sends that fail; each uses a number. */
  function Failing(k: nat): (events: seq<Event>)
    ensures |events| == k
  {
    if k == 0 then [] else Failing(k - 1) + [Send(false)]
  }

  lemma {:induction false} RunAppend(v: Client, a: seq<Event>, b: seq<Event>)
    ensures Run(v, a + b) == Run(Run(v, a), b)
    decreases |b|
  {
    if b == [] {
      assert a + b == a;
    } else {
      var k := |b| - 1;
      assert (a + b)[..|a + b| - 1] == a + b[..k];
      RunAppend(v, a, b[..k]);
    }
  }

  lemma RunOne(v: Client, e: Event)
    ensures Run(v, [e]) == Next(v, e)
  {
    assert [e][..0] == [];
  }

  predicate CanSend(v: Client) {
    v.socket && !v.draining && |v.inflight| < v.cfg.maxInflight
  }

  /** Both clients are alike but for the numbers and calls used. */
  ghost predicate Alike(v: Client, q: Client) {
    q.cfg == v.cfg && q.now == v.now && q.socket == v.socket && q.draining == v.draining && q.inflight == v.inflight
  }

  lemma OneFails(v: Client)
    requires CanSend(v)
    ensures var q := Next(v, Send(false)); Alike(v, q) && q.next == (v.next + 1) % NUMBERS
  {
  }

  lemma {:induction false} FailingUse(v: Client, k: nat)
    requires CanSend(v) && v.next < NUMBERS
    ensures var q := Run(v, Failing(k)); Alike(v, q) && q.next == (v.next + k) % NUMBERS
  {
    hide *;
    if k == 0 {
      NoneFailing(v);
    } else {
      FailingUse(v, k - 1);
      FailingLast(k);
      RunAppend(v, Failing(k - 1), [Send(false)]);
      var q := Run(v, Failing(k - 1));
      RunOne(q, Send(false));
      StillCan(v, q);
      OneFails(q);
      AlikeStill(v, q, Next(q, Send(false)));
      Wraps(v.next + k - 1);
    }
  }

  lemma NoneFailing(v: Client)
    requires v.next < NUMBERS
    ensures Alike(v, Run(v, Failing(0))) && Run(v, Failing(0)).next == (v.next + 0) % NUMBERS
  {
  }

  lemma FailingLast(k: nat)
    requires k > 0
    ensures Failing(k) == Failing(k - 1) + [Send(false)]
  {
  }

  lemma StillCan(v: Client, q: Client)
    requires CanSend(v) && Alike(v, q)
    ensures CanSend(q)
  {
  }

  lemma AlikeStill(v: Client, p: Client, q: Client)
    requires Alike(v, p) && Alike(p, q)
    ensures Alike(v, q)
  {
  }

  lemma Wraps(n: nat)
    ensures (n % NUMBERS + 1) % NUMBERS == (n + 1) % NUMBERS
  {
  }

  const ROOM_FOR_TWO: Config := Config(2, 1, "", Never)

  /** A datagram whose echo never comes, and as many failed sends as it takes for its number to come round:
      the next datagram is sent and forgotten, and its call is never told. */
  function Round(): seq<Event> {
    [Prepare(true), Send(true)] + Failing(NUMBERS - 1) + [Send(true)]
  }

  lemma CollisionLosesACallback()
    ensures var v := Run(New(ROOM_FOR_TWO, 0), Round());
      !Conserved(v) && !ToldOrOwedOnce(v)
  {
    assert NUMBERS > 1;
    hide *;
    var first := [Prepare(true), Send(true)];
    var v1 := Run(New(ROOM_FOR_TWO, 0), first);
    var events := first + Failing(NUMBERS - 1);
    FirstSent();
    RunAppend(New(ROOM_FOR_TWO, 0), first, Failing(NUMBERS - 1));
    FailingUse(v1, NUMBERS - 1);
    CollidesLast(Run(New(ROOM_FOR_TWO, 0), events), v1);
    RoundIs();
    CollisionCounts(New(ROOM_FOR_TWO, 0), events, Send(true));
    ConservedIff(ROOM_FOR_TWO, 0, Round());
  }

  lemma RoundIs()
    ensures Round() == [Prepare(true), Send(true)] + Failing(NUMBERS - 1) + [Send(true)]
  {
  }

  lemma FirstSent()
    ensures var v := Run(New(ROOM_FOR_TWO, 0), [Prepare(true), Send(true)]);
      CanSend(v) && v.next == 1 && v.inflight == [Datagram(0, 0, 0)]
  {
    assert [Prepare(true), Send(true)] == [Prepare(true)] + [Send(true)];
    RunAppend(New(ROOM_FOR_TWO, 0), [Prepare(true)], [Send(true)]);
    RunOne(New(ROOM_FOR_TWO, 0), Prepare(true));
    RunOne(Next(New(ROOM_FOR_TWO, 0), Prepare(true)), Send(true));
  }

  lemma CollidesLast(v: Client, was: Client)
    requires CanSend(was) && was.inflight == [Datagram(0, 0, 0)] && Alike(was, v) && v.next == 0
    ensures Collides(v, Send(true))
  {
  }

  lemma CollisionCounts(v: Client, events: seq<Event>, e: Event)
    requires Collides(Run(v, events), e)
    ensures !NoCollision(v, events + [e])
  {
    hide Collides, Run;
    assert (events + [e])[..|events|] == events && (events + [e])[|events|] == e;
  }

  /** The last number sent before the numbers come round, and the first one after: by the time the older
      datagram is late the newer one, which is not, stands before it, and the sweep leaves both. */
  lemma SweepLeavesALateOne()
    ensures var v := Run(New(ROOM_FOR_TWO, 0),
                         [Prepare(true)] + Failing(NUMBERS - 1) + [Send(true), Elapse(1), Send(true)]);
      |v.inflight| == 2 && Late(v, v.inflight[1]) && OnSweep(v).inflight == v.inflight
  {
    var v0 := New(ROOM_FOR_TWO, 0);
    var v1 := Next(v0, Prepare(true));
    RunOne(v0, Prepare(true));
    RunAppend(v0, [Prepare(true)], Failing(NUMBERS - 1));
    FailingUse(v1, NUMBERS - 1);
    var v2 := Run(v1, Failing(NUMBERS - 1));
    assert v2.next == NUMBERS - 1 && v2.inflight == [] && CanSend(v2) && v2.now == 0 && v2.cfg == ROOM_FOR_TWO;
    RunAppend(v0, [Prepare(true)] + Failing(NUMBERS - 1), [Send(true), Elapse(1), Send(true)]);
    hide Failing;
    AcrossTheTurn(v2);
  }

  lemma AcrossTheTurn(v: Client)
    requires v.next == NUMBERS - 1 && v.inflight == [] && CanSend(v) && v.now == 0 && v.cfg == ROOM_FOR_TWO
    ensures var q := Run(v, [Send(true), Elapse(1), Send(true)]);
      |q.inflight| == 2 && Late(q, q.inflight[1]) && OnSweep(q).inflight == q.inflight
  {
    ThreeSteps(v, Send(true), Elapse(1), Send(true));
    var a := Next(v, Send(true));
    var b := Next(a, Elapse(1));
    BeforeTheTurn(v);
    AfterTheTurn(b, v.calls);
    hide Run, Next, OnSweep;
  }

  lemma BeforeTheTurn(v: Client)
    requires v.next == NUMBERS - 1 && v.inflight == [] && CanSend(v) && v.now == 0 && v.cfg == ROOM_FOR_TWO
    ensures var b := Next(Next(v, Send(true)), Elapse(1));
      && b.inflight == [Datagram(NUMBERS - 1, 0, v.calls)] && b.next == 0 && CanSend(b)
      && b.now == 1 && b.cfg == ROOM_FOR_TWO
  {
    var d := Datagram(v.next, 0, v.calls);
    assert Insert([], d) == [d];
  }

  lemma AfterTheTurn(b: Client, call: nat)
    requires b.inflight == [Datagram(NUMBERS - 1, 0, call)] && b.next == 0 && CanSend(b)
    requires b.now == 1 && b.cfg == ROOM_FOR_TWO
    ensures var q := Next(b, Send(true));
      |q.inflight| == 2 && Late(q, q.inflight[1]) && OnSweep(q).inflight == q.inflight
  {
    var d := Datagram(0, 1, b.calls);
    assert Insert(b.inflight, d) == [d] + b.inflight;
    hide Insert, Calls;
  }

  lemma ThreeSteps(v: Client, a: Event, b: Event, c: Event)
    ensures Run(v, [a, b, c]) == Next(Next(Next(v, a), b), c)
  {
    hide Next, Run;
    assert [a, b, c] == [a] + ([b] + [c]);
    RunAppend(v, [a], [b] + [c]);
    RunOne(v, a);
    RunAppend(Next(v, a), [b], [c]);
    RunOne(Next(v, a), b);
    RunOne(Next(Next(v, a), b), c);
  }
}
