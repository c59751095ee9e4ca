/** The promises of the TCP client, over every run: any sequence of events from a new client on. */
module TcpRuns {
  import opened Tally
  import opened TcpBackoff
  import opened TcpPool
  import opened TcpSafety

  /** What the constructor and prepare() insist on. */
  predicate Sound(cfg: Config) {
    cfg.connections > 0 && cfg.maxInflight > 0 && (cfg.expectEcho ==> cfg.message != [])
  }

  /** One event, where it can happen; elsewhere nothing does. */
  function Next(p: Pool, e: Event): Pool {
    if Enabled(p, e) && ActiveNamed(p) && (p.cfg.expectEcho ==> p.cfg.message != []) then Step(p, e) else p
  }

  function Run(p: Pool, events: seq<Event>): Pool {
    if events == [] then p else Next(Run(p, events[..|events| - 1]), events[|events| - 1])
  }

  lemma NewInv(cfg: Config, now: int)
    requires Sound(cfg)
    ensures Inv(New(cfg, now))
  {
    var p := New(cfg, now);
    assert Attempts(p) && Connects(p) && Books(p);
    forall s | 0 <= s < |p.slots|
      ensures RolesOk(p.links, p.slots[s], false) && Paced(p.slots[s].retry, now)
    {
    }
  }

  lemma ElapseKeepsInv(p: Pool, time: nat)
    requires Inv(p)
    ensures Inv(p.(now := p.now + time))
  {
    var q := p.(now := p.now + time);
    forall s | 0 <= s < |p.slots|
      ensures Paced(q.slots[s].retry, q.now)
    {
      LaterKeepsPace(p.slots[s].retry, p.now, q.now);
    }
    hide Paced, Placed, LinksOk, SlotsOk, Sampled, Manned;
  }

  lemma MeasureKeepsInv(p: Pool, measure: bool)
    requires Inv(p)
    ensures Inv(p.(measure := measure))
  {
    hide Placed, LinksOk, SlotsOk, RetriesOk, Sampled, Manned;
  }

  /** Nothing is opened before prepare(), and nothing fires a retry after finish(). */
  lemma BeforeAndAfter(p: Pool, e: Event)
    requires Inv(p) && Enabled(p, e)
    ensures !p.prepared ==> p.links == []
    ensures e.RetryTimer? ==> p.prepared && !p.ended
  {
  }

  lemma LinkEventKeepsInv(p: Pool, e: Event)
    requires Inv(p) && Enabled(p, e) && ActiveNamed(p) && (p.cfg.expectEcho ==> p.cfg.message != [])
    requires e.Connected? || e.CloseRaised? || e.LinkTimer? || e.Watermark? || e.Data?
    ensures Inv(Step(p, e))
  {
    BeforeAndAfter(p, e);
    hide Core, Rest;
    var k := if p.prepared then |p.slots| else 0;
    match e
    case Connected(id, flushed) => ConnectedKeepsInv(p, id, flushed, k, -1);
    case CloseRaised(id) => ClosedKeepsInv(p, id, k, -1);
    case LinkTimer(id) => TimerKeepsInv(p, id, k, -1);
    case Watermark(id, blocked) => WatermarkKeepsInv(p, id, blocked, k, -1);
    case Data(id, bytes, flushed) => DataKeepsInv(p, id, bytes, flushed, k, -1);
    case _ => assert false;
  }

  lemma StepKeepsInv(p: Pool, e: Event)
    requires Inv(p) && Enabled(p, e) && ActiveNamed(p) && (p.cfg.expectEcho ==> p.cfg.message != [])
    ensures Inv(Step(p, e))
  {
    BeforeAndAfter(p, e);
    hide Core, Rest;
    var k := if p.prepared then |p.slots| else 0;
    match e
    case Prepare(outcomes) => PrepareKeepsInv(p, outcomes);
    case RetryTimer(s, outcome) => RetryTimerKeepsInv(p, s, outcome, k);
    case Send(outcome) => SendKeepsInv(p, outcome, k);
    case _ => OtherEventKeepsInv(p, e);
  }

  lemma OtherEventKeepsInv(p: Pool, e: Event)
    requires Inv(p) && Enabled(p, e) && ActiveNamed(p) && (p.cfg.expectEcho ==> p.cfg.message != [])
    requires !(e.Prepare? || e.RetryTimer? || e.Send?)
    ensures Inv(Step(p, e))
  {
    hide Core, Rest, OnFinishBegin, OnFinishEnd;
    match e
    case Elapse(time) => ElapseKeepsInv(p, time);
    case SetMeasure(measure) => MeasureKeepsInv(p, measure);
    case FinishBegin => FinishBeginKeepsInv(p);
    case FinishEnd(flushed) => FinishEndKeepsInv(p, flushed);
    case _ => LinkEventKeepsInv(p, e);
  }

  lemma {:induction false} RunKeepsInv(p: Pool, events: seq<Event>)
    requires Inv(p)
    ensures Inv(Run(p, events))
  {
    hide Inv, Step, Enabled;
    if events != [] {
      var q := Run(p, events[..|events| - 1]);
      RunKeepsInv(p, events[..|events| - 1]);
      var e := events[|events| - 1];
      if Enabled(q, e) && ActiveNamed(q) && (q.cfg.expectEcho ==> q.cfg.message != []) {
        StepKeepsInv(q, e);
      }
    }
  }

  /** The guard of Next never stands in the way: what is enabled happens. */
  lemma NothingIsSkipped(p: Pool, e: Event)
    requires Inv(p) && Enabled(p, e)
    ensures ActiveNamed(p) && (p.cfg.expectEcho ==> p.cfg.message != [])
  {
    forall s | 0 <= s < |p.slots|
      ensures p.slots[s].active.Some? ==> Named(p, p.slots[s].active.value)
    {
      assert RolesOk(p.links, p.slots[s], p.finished);
    }
  }

  // ----- The promises -----

  /** A link is in exactly one place of its own slot, or was let go of and is in none. */
  ghost predicate OnePlaceEach(p: Pool) {
    forall s, id: LinkId {:trigger Places(p.slots[s], id)} | 0 <= s < |p.slots| ::
      Places(p.slots[s], id) == if id < |p.links| && p.links[id].slot == s && !p.links[id].released then 1 else 0
  }

  /** A standby is connecting, a slot has at most one connecting link, and from prepare() to finish()
      every slot has an active link, a standby or an armed retry. After finish() all links are closed. */
  ghost predicate NoSlotStranded(p: Pool) {
    && (forall s | 0 <= s < |p.slots| && p.slots[s].standby.Some? ::
          p.slots[s].standby.value < |p.links| && p.links[p.slots[s].standby.value].state == Connecting)
    && (forall i, j | 0 <= i < j < |p.links| && p.links[i].slot == p.links[j].slot ::
          !(p.links[i].state == Connecting && p.links[j].state == Connecting))
    && (p.prepared && !p.finished ==> forall s | 0 <= s < |p.slots| ::
          p.slots[s].active.Some? || p.slots[s].standby.Some? || p.slots[s].retry.due.Some?)
    && (p.ended ==> forall id | 0 <= id < |p.links| :: p.links[id].state == Closed)
  }

  /** The callbacks owed by the messages outstanding on all links. */
  ghost function Outstanding(p: Pool): multiset<nat> {
    Gather(p.links, Owes)
  }

  /** Every call is sent, deferred or unavailable; with echoes, what was sent was received, lost or is
      outstanding; and each call's callback was told exactly once or is owed exactly once. */
  ghost predicate MessagesConserved(p: Pool) {
    && p.calls == p.n.messagesSent + p.n.deferred + p.n.unavailable
    && (p.cfg.expectEcho ==> p.n.messagesSent == p.n.messagesReceived + p.n.inflightLost + |Outstanding(p)|)
    && (!p.cfg.expectEcho ==> Outstanding(p) == multiset{} && |p.succeeded| == p.n.messagesSent)
    && (forall call: nat ::
          p.succeeded[call] + p.failed[call] + Outstanding(p)[call] == if call < p.calls then 1 else 0)
    && (p.ended ==> Outstanding(p) == multiset{})
  }

  /** A latency is that of an echo before which all the link returned were exact copies of the
      message, and no more copies than were sent on it. */
  ghost predicate LatenciesExact(p: Pool) {
    forall i | 0 <= i < |p.samples| ::
      var sample := p.samples[i];
      && sample.link < |p.links|
      && Repeat(p.cfg.message, sample.ordinal) <= p.links[sample.link].returned
      && 1 <= sample.ordinal <= p.links[sample.link].sent
  }

  /** Every successful connect is a slot's first, a reconnect or a rotation, and every attempt
      succeeded, failed, was dropped by finish() or is under way. */
  ghost predicate ConnectsCounted(p: Pool) {
    var first := Sum(p.links, FirstConnect);
    && p.n.connectionsOpened == first + p.n.reconnects + p.n.rotated
    && 0 <= first <= p.cfg.connections
    && |p.connectSamples| == p.n.connectionsOpened
    && p.n.connectionsOpened + p.n.connectFailures + p.dropped + Sum(p.links, Attempting) == p.attempts
  }

  /** A slot's backoff is between 10 ms and 1 s, and any n + 1 of its retries in a row span at least
      438 n - 1570 ms. */
  ghost predicate RetriesPaced(p: Pool) {
    forall s | 0 <= s < |p.slots| ::
      && 10 * MS <= p.slots[s].retry.backoff <= 1000 * MS
      && Spread(p.slots[s].retry.log)
  }

  lemma InvPlaces(p: Pool)
    requires Inv(p)
    ensures OnePlaceEach(p) && NoSlotStranded(p) && RetriesPaced(p)
  {
    hide Books, Connects, Attempts, LinksOk;
    forall s | 0 <= s < |p.slots| && p.slots[s].standby.Some?
      ensures p.slots[s].standby.value < |p.links| && p.links[p.slots[s].standby.value].state == Connecting
    {
      assert RolesOk(p.links, p.slots[s], p.finished);
    }
    forall i, j | 0 <= i < j < |p.links| && p.links[i].slot == p.links[j].slot
      ensures !(p.links[i].state == Connecting && p.links[j].state == Connecting)
    {
      OneConnectingEach(p, i, j);
    }
  }

  lemma OneConnectingEach(p: Pool, i: LinkId, j: LinkId)
    requires Core(p, None) && i < j < |p.links| && p.links[i].slot == p.links[j].slot
    ensures !(p.links[i].state == Connecting && p.links[j].state == Connecting)
  {
    CoreAt(p, None, i);
    CoreAt(p, None, j);
  }

  lemma NothingOwed(p: Pool)
    requires Inv(p)
    ensures p.ended || !p.cfg.expectEcho ==> Outstanding(p) == multiset{}
  {
    if p.ended || !p.cfg.expectEcho {
      forall id | 0 <= id < |p.links|
        ensures Owes(p.links[id]) == multiset{}
      {
        CoreAt(p, None, id);
      }
      GatherNothing(p.links, Owes);
    }
  }

  lemma InvMessages(p: Pool)
    requires Inv(p)
    ensures MessagesConserved(p)
  {
    NothingOwed(p);
    assert Books(p);
    hide Core, Rest, Gather, Below;
    BelowIsASet(p.calls);
    forall call: nat
      ensures p.succeeded[call] + p.failed[call] + Outstanding(p)[call] == if call < p.calls then 1 else 0
    {
      assert (Outstanding(p) + p.succeeded + p.failed)[call] == Below(p.calls)[call];
    }
  }

  lemma {:induction false} RepeatPrefix(m: seq<byte>, j: nat, k: nat)
    requires j <= k
    ensures Repeat(m, j) <= Repeat(m, k)
  {
    if j < k {
      RepeatPrefix(m, j, k - 1);
    }
  }

  lemma InvLatencies(p: Pool)
    requires Inv(p)
    ensures LatenciesExact(p)
  {
    forall i | 0 <= i < |p.samples|
      ensures var sample := p.samples[i];
        && sample.link < |p.links|
        && Repeat(p.cfg.message, sample.ordinal) <= p.links[sample.link].returned
        && 1 <= sample.ordinal <= p.links[sample.link].sent
    {
      var sample := p.samples[i];
      var l := p.links[sample.link];
      assert LinkBase(p.cfg, l);
      RepeatPrefix(p.cfg.message, sample.ordinal, l.echoed);
    }
  }

  lemma InvConnects(p: Pool)
    requires Inv(p)
    ensures ConnectsCounted(p)
  {
    SumOfFlags(p.links, FirstConnect, p.cfg.connections);
  }

  /** The TCP client's promises, after every event of every run. */
  lemma EveryRun(cfg: Config, now: int, events: seq<Event>)
    requires Sound(cfg)
    ensures var p := Run(New(cfg, now), events);
      && OnePlaceEach(p) && NoSlotStranded(p) && RetriesPaced(p)
      && MessagesConserved(p) && LatenciesExact(p) && ConnectsCounted(p)
      && p.cfg == cfg && p.nextSlot == p.calls % cfg.connections
  {
    hide Core, Rest;
    NewInv(cfg, now);
    RunKeepsInv(New(cfg, now), events);
    var p := Run(New(cfg, now), events);
    RunKeepsConfig(New(cfg, now), events);
    InvPlaces(p);
    InvMessages(p);
    InvLatencies(p);
    InvConnects(p);
    InvTurn(p);
  }

  lemma InvTurn(p: Pool)
    requires Inv(p)
    ensures p.cfg.connections > 0 && p.nextSlot == p.calls % p.cfg.connections
  {
  }

  lemma {:induction false} RunKeepsConfig(p: Pool, events: seq<Event>)
    ensures Run(p, events).cfg == p.cfg
  {
    if events != [] {
      RunKeepsConfig(p, events[..|events| - 1]);
    }
  }
}
