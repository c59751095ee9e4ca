/** The TCP benchmark client as a state machine over its events: a pool of slots, each with the
    connection it sends on, the one being opened to replace it and the ones it replaced.

    A link is named by its position in `links`, which keeps every link ever opened; a slot holds
    names, as the engine's slots refer to them. What the network decides is part of the event: how
    a connect turns out, and whether a flushing close has raised its close event by the time it
    returns. A close without flush always has. */
module TcpPool {
  import opened Tally
  import opened TcpBackoff

  type LinkId = nat
  newtype byte = b: int | 0 <= b < 256

  datatype LinkState = Connecting | Open | Retiring | Closed

  /** A message that waits for its echo, and the number of the call whose callback it owes. */
  datatype Message = Message(id: nat, sentAt: int)

  /** `returned` and `echoed` are history: the bytes the peer sent back while the link was in use,
      and how many echoes were matched in them. `everOpened` is history too. */
  datatype Link = Link(
    slot: nat, state: LinkState, initial: bool, initialPending: bool,
    inflight: seq<Message>, received: seq<byte>, writeBlocked: bool, sent: nat,
    timerArmed: bool, connectStarted: int,
    returned: seq<byte>, echoed: nat, everOpened: bool, released: bool)

  datatype Slot = Slot(active: Option<LinkId>, standby: Option<LinkId>, retiring: seq<LinkId>, retry: Retry)

  datatype Counters = Counters(
    connectionsOpened: nat, connectFailures: nat, reconnects: nat, rotated: nat,
    messagesSent: nat, messagesReceived: nat, deferred: nat, unavailable: nat,
    connectionClosed: nat, echoMismatch: nat, inflightLost: nat, drainIncomplete: nat,
    writeBlocked: nat)

  datatype Config = Config(
    connections: nat, maxInflight: nat, expectEcho: bool, maxMessages: nat, message: seq<byte>)

  /** One latency: the `ordinal`th echo matched on a link. */
  datatype Sample = Sample(link: LinkId, ordinal: nat, latency: int)

  /** `succeeded` and `failed` are the calls whose callback was told so; `calls`, `attempts` and
      `dropped` count the sends asked for, the connects begun, and those finish() gave up. */
  datatype Pool = Pool(
    cfg: Config, now: int, slots: seq<Slot>, links: seq<Link>, n: Counters,
    nextSlot: nat, pendingOpens: int, measure: bool, prepared: bool, finished: bool, ended: bool,
    samples: seq<Sample>, connectSamples: seq<int>,
    succeeded: multiset<nat>, failed: multiset<nat>, calls: nat, attempts: nat, dropped: nat)

  /** How a connect turns out by the time open() returns. `flushed` is for the connection that a
      replacement retires on the spot. */
  datatype Outcome = NoConnection | Pending | FailedNow | ConnectedNow(flushed: bool)

  datatype Event =
    | Prepare(outcomes: seq<Outcome>)
    | Connected(link: LinkId, flushed: bool)
    | CloseRaised(link: LinkId)
    | LinkTimer(link: LinkId)
    | RetryTimer(slot: nat, outcome: Outcome)
    | Watermark(link: LinkId, blocked: bool)
    | Data(link: LinkId, bytes: seq<byte>, flushed: bool)
    | Send(outcome: Outcome)
    | Elapse(time: nat)
    | SetMeasure(measure: bool)
    | FinishBegin
    | FinishEnd(flushedAll: set<LinkId>)

  const ZERO := Counters(0, 0, 0, 0, 0, 0, 0, 0, 0, 0, 0, 0, 0)

  function NewLink(slot: nat, initial: bool, now: int): Link {
    Link(slot, Connecting, initial, initial, [], [], false, 0, true, now, [], 0, false, false)
  }

  function New(cfg: Config, now: int): Pool {
    Pool(cfg, now, seq(cfg.connections, i => Slot(None, None, [], NEW_RETRY)), [], ZERO,
         0, 0, false, false, false, false, [], [], multiset{}, multiset{}, 0, 0, 0)
  }

  // ----- The operations -----

  /** Nothing but finish() and the clock changes these. */
  predicate Kept(p: Pool, q: Pool) {
    && q.cfg == p.cfg && q.now == p.now && |q.slots| == |p.slots|
    && q.prepared == p.prepared && q.finished == p.finished && q.ended == p.ended
  }

  predicate Named(p: Pool, id: LinkId) {
    id < |p.links| && p.links[id].slot < |p.slots|
  }

  predicate InUse(l: Link) {
    l.state == Open || l.state == Retiring
  }

  function RotationDue(p: Pool, l: Link): bool {
    p.cfg.maxMessages > 0 && l.sent >= p.cfg.maxMessages
  }

  function Ids(q: seq<Message>): multiset<nat> {
    if q == [] then multiset{} else multiset{q[0].id} + Ids(q[1..])
  }

  function Without(xs: seq<LinkId>, id: LinkId): seq<LinkId> {
    if xs == [] then [] else if xs[0] == id then xs[1..] else [xs[0]] + Without(xs[1..], id)
  }

  predicate HasPlace(slot: Slot, id: LinkId) {
    slot.active == Some(id) || slot.standby == Some(id) || id in slot.retiring
  }

  /** The slot with the link taken out of the place it has there, if it has one. */
  function TakeOut(slot: Slot, id: LinkId): Slot {
    if slot.active == Some(id) then slot.(active := None)
    else if slot.standby == Some(id) then slot.(standby := None)
    else slot.(retiring := Without(slot.retiring, id))
  }

  /** The slot as scheduleRetry leaves it. */
  function Rescheduled(slot: Slot, finished: bool, now: int): Slot {
    if finished then slot else slot.(retry := Schedule(slot.retry, now))
  }

  function ScheduleRetry(p: Pool, s: nat): (q: Pool)
    requires s < |p.slots|
    ensures Kept(p, q)
  {
    p.(slots := p.slots[s := Rescheduled(p.slots[s], p.finished, p.now)])
  }

  /** A link when it is closed: its timer is off, and what it still owed is lost. */
  function Shut(l: Link, released: bool): Link {
    l.(state := Closed, timerArmed := false, initialPending := false, inflight := [],
       released := l.released || released)
  }

  /** What a close event counts, by the state it finds the link in. */
  function CountClose(n: Counters, state: LinkState): Counters {
    match state
    case Connecting => n.(connectFailures := n.connectFailures + 1)
    case Open => n.(connectionClosed := n.connectionClosed + 1)
    case Retiring => n.(connectionClosed := n.connectionClosed + 1)
    case Closed => n
  }

  function CountLost(n: Counters, messages: nat): Counters {
    n.(inflightLost := n.inflightLost + messages)
  }

  /** Closes a link: `release` takes it out of its slot, `retry` schedules the slot's next connect. */
  function LetGo(p: Pool, id: LinkId, n: Counters, release: bool, retry: bool): (q: Pool)
    requires Named(p, id)
    ensures Named(q, id) && q.cfg == p.cfg && q.links[id].received == p.links[id].received
    ensures Kept(p, q)
  {
    var l := p.links[id];
    var slot := p.slots[l.slot];
    var slot1 := if release then TakeOut(slot, id) else slot;
    p.(slots := p.slots[l.slot := if retry then Rescheduled(slot1, p.finished, p.now) else slot1],
       links := p.links[id := Shut(l, release && HasPlace(slot, id))],
       n := CountLost(n, |l.inflight|),
       pendingOpens := if l.initialPending then p.pendingOpens - 1 else p.pendingOpens,
       failed := p.failed + Ids(l.inflight))
  }

  /** A close event: the peer's, or the one our own close raises. */
  function OnClosed(p: Pool, id: LinkId): (q: Pool)
    requires Named(p, id)
    ensures Kept(p, q)
  {
    var l := p.links[id];
    var slot := p.slots[l.slot];
    LetGo(p, id, CountClose(p.n, l.state), true,
          l.state != Closed && (slot.active == Some(id) || slot.standby == Some(id)))
  }

  /** Closes a link of our own accord; `raised` says the close event came before this returned. */
  function CloseLink(p: Pool, id: LinkId, raised: bool): (q: Pool)
    requires Named(p, id)
    ensures Named(q, id) && q.cfg == p.cfg && q.links[id].received == p.links[id].received
    ensures Kept(p, q)
  {
    if p.links[id].state == Closed then p else LetGo(p, id, p.n, raised, false)
  }

  /** The active link has connected. */
  function Arrived(p: Pool, id: LinkId, n: Counters): (q: Pool)
    requires Named(p, id)
    ensures Kept(p, q)
  {
    var l := p.links[id];
    p.(links := p.links[id := l.(state := Open, timerArmed := false, initialPending := false, everOpened := true)],
       n := n.(connectionsOpened := n.connectionsOpened + 1),
       pendingOpens := if l.initialPending then p.pendingOpens - 1 else p.pendingOpens,
       connectSamples := p.connectSamples + [p.now - l.connectStarted])
  }

  /** The active link moves to the retiring ones. */
  function Retired(p: Pool, s: nat): (q: Pool)
    requires s < |p.slots| && p.slots[s].active.Some? && Named(p, p.slots[s].active.value)
    ensures Kept(p, q)
  {
    var slot := p.slots[s];
    var worn := slot.active.value;
    var l := p.links[worn];
    var l1 := if l.state == Open then l.(state := Retiring, timerArmed := l.inflight != []) else l;
    p.(links := p.links[worn := l1],
       slots := p.slots[s := slot.(active := None, retiring := slot.retiring + [worn])])
  }

  /** The standby becomes the active link of a slot that has none. */
  function TakenOver(p: Pool, id: LinkId, n: Counters): (q: Pool)
    requires Named(p, id)
    ensures Kept(p, q)
  {
    var q := Arrived(p, id, n);
    var t := p.links[id].slot;
    q.(slots := p.slots[t := p.slots[t].(active := Some(id), standby := None, retry := CallOff(p.slots[t].retry))])
  }

  /** The standby has connected while the link it replaces is there: that one retires, and is closed
      on the spot if it waits for nothing. */
  function Rotated(p: Pool, id: LinkId, flushed: bool): (q: Pool)
    requires Named(p, id)
    requires var a := p.slots[p.links[id].slot].active; a.Some? && Named(p, a.value)
    ensures Kept(p, q)
  {
    var s := p.links[id].slot;
    var worn := p.slots[s].active.value;
    var q := TakenOver(Retired(p, s), id, p.n.(rotated := p.n.rotated + 1));
    if p.links[worn].state == Open && p.links[worn].inflight == [] then CloseLink(q, worn, flushed) else q
  }

  function OnConnected(p: Pool, id: LinkId, flushed: bool): (q: Pool)
    requires Named(p, id)
    requires var a := p.slots[p.links[id].slot].active; a.Some? ==> Named(p, a.value)
    ensures Kept(p, q)
  {
    var l := p.links[id];
    var slot := p.slots[l.slot];
    if l.state != Connecting then p
    else if slot.standby != Some(id) then
      Arrived(p, id, if l.initial then p.n else p.n.(reconnects := p.n.reconnects + 1))
    else if slot.active.None? then TakenOver(p, id, p.n.(reconnects := p.n.reconnects + 1))
    else Rotated(p, id, flushed)
  }

  /** A connect has begun: the link has its place in the slot before anything it may raise. */
  function Begun(p: Pool, s: nat, standby: bool, initial: bool): (q: Pool)
    requires s < |p.slots|
    ensures Kept(p, q)
  {
    var id := |p.links|;
    var slot := p.slots[s];
    p.(links := p.links + [NewLink(s, initial, p.now)],
       attempts := p.attempts + 1,
       pendingOpens := if initial then p.pendingOpens + 1 else p.pendingOpens,
       slots := p.slots[s := if standby then slot.(standby := Some(id)) else slot.(active := Some(id))])
  }

  /** Opens a connection for the slot, as its active one or as the one that will replace it. */
  function OpenLink(p: Pool, s: nat, standby: bool, initial: bool, outcome: Outcome): (q: Pool)
    requires s < |p.slots|
    requires standby && p.slots[s].active.Some? ==> Named(p, p.slots[s].active.value)
    ensures Kept(p, q)
  {
    match outcome
    case NoConnection =>
      ScheduleRetry(p.(attempts := p.attempts + 1, n := p.n.(connectFailures := p.n.connectFailures + 1)), s)
    case Pending => Begun(p, s, standby, initial)
    case FailedNow => OnClosed(Begun(p, s, standby, initial), |p.links|)
    case ConnectedNow(flushed) => OnConnected(Begun(p, s, standby, initial), |p.links|, flushed)
  }

  function ConnectNext(p: Pool, s: nat, outcome: Outcome): (q: Pool)
    requires s < |p.slots|
    requires p.slots[s].active.Some? ==> Named(p, p.slots[s].active.value)
    ensures Kept(p, q)
  {
    var slot := p.slots[s];
    if p.finished then p
    else if slot.active.None? then
      if slot.standby.None? then OpenLink(p, s, false, false, outcome) else p
    else if slot.standby.None? && p.links[slot.active.value].state == Open
            && RotationDue(p, p.links[slot.active.value])
    then OpenLink(p, s, true, false, outcome)
    else p
  }

  function OnRetryTimer(p: Pool, s: nat, outcome: Outcome): (q: Pool)
    requires s < |p.slots|
    requires p.slots[s].active.Some? ==> Named(p, p.slots[s].active.value)
    ensures Kept(p, q)
  {
    ConnectNext(p.(slots := p.slots[s := p.slots[s].(retry := Fire(p.slots[s].retry, p.now))]), s, outcome)
  }

  function OnTimer(p: Pool, id: LinkId): (q: Pool)
    requires Named(p, id)
    ensures Kept(p, q)
  {
    var l := p.links[id];
    if l.state == Connecting then
      LetGo(p, id, p.n.(connectFailures := p.n.connectFailures + 1), true, true)
    else if l.state == Retiring then CloseLink(p, id, true)
    else p.(links := p.links[id := l.(timerArmed := false)])
  }

  function OnEchoMismatch(p: Pool, id: LinkId): (q: Pool)
    requires Named(p, id)
    ensures Named(q, id) && q.cfg == p.cfg && q.links[id].received == p.links[id].received
    ensures Kept(p, q)
  {
    var n := p.n.(echoMismatch := p.n.echoMismatch + 1);
    var s := p.links[id].slot;
    var active := p.slots[s].active == Some(id);
    if p.links[id].state != Closed then LetGo(p, id, n, true, active)
    else if active then ScheduleRetry(p.(n := n), s)
    else p.(n := n)
  }

  /** The echo of the oldest message on the link. */
  function Echoed(p: Pool, id: LinkId): (q: Pool)
    requires Named(p, id) && p.links[id].inflight != []
    ensures Kept(p, q)
  {
    var l := p.links[id];
    var m := l.inflight[0];
    p.(links := p.links[id := l.(inflight := l.inflight[1..], echoed := l.echoed + 1)],
       n := p.n.(messagesReceived := p.n.messagesReceived + 1),
       samples := if p.measure then p.samples + [Sample(id, l.echoed + 1, p.now - m.sentAt)] else p.samples,
       succeeded := p.succeeded + multiset{m.id})
  }

  function OnEcho(p: Pool, id: LinkId, bytes: seq<byte>, flushed: bool): (q: Pool)
    requires Named(p, id)
    ensures Named(q, id) && q.cfg == p.cfg && q.links[id].received == p.links[id].received
    ensures Kept(p, q)
  {
    if bytes != p.cfg.message || p.links[id].inflight == [] then OnEchoMismatch(p, id)
    else
      var q := Echoed(p, id);
      if q.links[id].state == Retiring && q.links[id].inflight == [] then CloseLink(q, id, flushed) else q
  }

  /** Takes one message's worth of bytes off the front of what the link has received. */
  function Taken(p: Pool, id: LinkId): (q: Pool)
    requires Named(p, id) && |p.links[id].received| >= |p.cfg.message|
    ensures Kept(p, q)
  {
    p.(links := p.links[id := p.links[id].(received := p.links[id].received[|p.cfg.message|..])])
  }

  function EchoStep(p: Pool, id: LinkId, flushed: bool): (q: Pool)
    requires Named(p, id) && |p.links[id].received| >= |p.cfg.message|
    ensures Named(q, id) && q.cfg == p.cfg && |q.links[id].received| == |p.links[id].received| - |p.cfg.message|
    ensures Kept(p, q)
  {
    var taken := Taken(p, id);
    assert Named(taken, id) && taken.cfg == p.cfg;
    OnEcho(taken, id, p.links[id].received[..|p.cfg.message|], flushed)
  }

  /** Matches what the link has received, message by message, for as long as it is in use. */
  function Drain(p: Pool, id: LinkId, flushed: bool): (q: Pool)
    requires Named(p, id) && p.cfg.message != []
    ensures Kept(p, q) && Named(q, id)
    decreases |p.links[id].received|
  {
    if |p.links[id].received| < |p.cfg.message| || !InUse(p.links[id]) then p
    else Drain(EchoStep(p, id, flushed), id, flushed)
  }

  /** The bytes join what the link has received. */
  function Buffered(p: Pool, id: LinkId, bytes: seq<byte>): (q: Pool)
    requires Named(p, id)
    ensures Kept(p, q) && Named(q, id)
  {
    var l := p.links[id];
    p.(links := p.links[id := l.(received := l.received + bytes, returned := l.returned + bytes)])
  }

  function OnData(p: Pool, id: LinkId, bytes: seq<byte>, flushed: bool): (q: Pool)
    requires Named(p, id)
    requires p.cfg.expectEcho ==> p.cfg.message != []
    ensures Kept(p, q) && Named(q, id)
  {
    var l := p.links[id];
    if !p.cfg.expectEcho || !InUse(l) then p
    else Drain(Buffered(p, id, bytes), id, flushed)
  }

  function OnWatermark(p: Pool, id: LinkId, blocked: bool): (q: Pool)
    requires Named(p, id)
    ensures Kept(p, q)
  {
    var l := p.links[id];
    p.(links := p.links[id := l.(writeBlocked := blocked)],
       n := if blocked && !l.writeBlocked then p.n.(writeBlocked := p.n.writeBlocked + 1) else p.n)
  }

  /** The call's message is not sent, and its callback is told so. */
  function Turned(p: Pool, n: Counters): (q: Pool)
    requires |p.slots| > 0
    ensures Kept(p, q)
  {
    p.(nextSlot := (p.nextSlot + 1) % |p.slots|, calls := p.calls + 1, n := n, failed := p.failed + multiset{p.calls})
  }

  /** The call's message is written on a link: it waits for its echo, or is done. */
  function Written(p: Pool, id: LinkId): (q: Pool)
    requires |p.slots| > 0 && Named(p, id)
    ensures Kept(p, q)
  {
    var l := p.links[id];
    var queue := if p.cfg.expectEcho then l.inflight + [Message(p.calls, p.now)] else l.inflight;
    p.(nextSlot := (p.nextSlot + 1) % |p.slots|, calls := p.calls + 1,
       links := p.links[id := l.(inflight := queue, sent := l.sent + 1)],
       n := p.n.(messagesSent := p.n.messagesSent + 1),
       succeeded := if p.cfg.expectEcho then p.succeeded else p.succeeded + multiset{p.calls})
  }

  /** One scheduled message, for the next slot in turn: written, or dropped and counted. */
  function TryStartRequest(p: Pool, outcome: Outcome): (q: Pool)
    requires p.nextSlot < |p.slots|
    requires var a := p.slots[p.nextSlot].active; a.Some? ==> Named(p, a.value)
    ensures Kept(p, q)
  {
    var slot := p.slots[p.nextSlot];
    if slot.active.None? || p.links[slot.active.value].state != Open then
      Turned(p, p.n.(unavailable := p.n.unavailable + 1))
    else
      var l := p.links[slot.active.value];
      if l.writeBlocked || |l.inflight| >= p.cfg.maxInflight then
        Turned(p, p.n.(deferred := p.n.deferred + 1))
      else
        var q := Written(p, slot.active.value);
        if RotationDue(q, q.links[slot.active.value]) && slot.retry.due.None?
        then ConnectNext(q, p.nextSlot, outcome) else q
  }

  /** prepare(): the first connect of every slot, in order. */
  function OpenAll(p: Pool, outcomes: seq<Outcome>): (q: Pool)
    requires |outcomes| <= |p.slots|
    ensures Kept(p, q)
    decreases |outcomes|
  {
    if outcomes == [] then p
    else
      var k := |outcomes| - 1;
      var q := OpenAll(p, outcomes[..k]);
      if k < |q.slots| then OpenLink(q, k, false, true, outcomes[k]) else q
  }

  function OfSlot(slot: Slot): seq<LinkId> {
    (if slot.active.Some? then [slot.active.value] else [])
    + (if slot.standby.Some? then [slot.standby.value] else [])
    + slot.retiring
  }

  /** Every link that has a place, slot by slot. */
  function Links(slots: seq<Slot>): seq<LinkId> {
    if slots == [] then [] else Links(slots[..|slots| - 1]) + OfSlot(slots[|slots| - 1])
  }

  /** Closes those of `ids` that are still connecting, without a flush: connects finish() drops. */
  function DropConnecting(p: Pool, ids: seq<LinkId>): (q: Pool)
    ensures Kept(p, q)
    decreases |ids|
  {
    if ids == [] then p
    else
      var q := DropConnecting(p, ids[..|ids| - 1]);
      var id := ids[|ids| - 1];
      if Named(q, id) && q.links[id].state == Connecting
      then CloseLink(q.(dropped := q.dropped + 1), id, true)
      else q
  }

  function RetriesOff(slots: seq<Slot>): seq<Slot> {
    seq(|slots|, i requires 0 <= i < |slots| => slots[i].(retry := CallOff(slots[i].retry)))
  }

  function OnFinishBegin(p: Pool): Pool {
    if p.finished then p
    else
      var p1 := p.(finished := true, slots := RetriesOff(p.slots));
      DropConnecting(p1, Links(p1.slots))
  }

  /** What the end of finish() does to one link. */
  function ClosedForGood(p: Pool, id: LinkId, flushed: bool): (q: Pool)
    requires Named(p, id)
    ensures Kept(p, q)
  {
    CloseLink(
      if p.links[id].inflight != [] then p.(n := p.n.(drainIncomplete := p.n.drainIncomplete + 1)) else p, id, flushed)
  }

  function CloseEach(p: Pool, ids: seq<LinkId>, flushed: set<LinkId>): (q: Pool)
    ensures Kept(p, q)
    decreases |ids|
  {
    if ids == [] then p
    else
      var q := CloseEach(p, ids[..|ids| - 1], flushed);
      var id := ids[|ids| - 1];
      if Named(q, id) then ClosedForGood(q, id, id in flushed) else q
  }

  function OnFinishEnd(p: Pool, flushed: set<LinkId>): Pool {
    CloseEach(p, Links(p.slots), flushed).(ended := true)
  }

  // ----- The state machine -----

  predicate Enabled(p: Pool, e: Event) {
    match e
    case Prepare(outcomes) => !p.prepared && !p.finished && |outcomes| == |p.slots|
    case Connected(id, _) => Named(p, id)
    case CloseRaised(id) => Named(p, id)
    case LinkTimer(id) => Named(p, id) && p.links[id].timerArmed
    case RetryTimer(s, _) => s < |p.slots| && p.slots[s].retry.due.Some? && p.slots[s].retry.due.value <= p.now
    case Watermark(id, _) => Named(p, id)
    case Data(id, _, _) => Named(p, id)
    case Send(_) => p.nextSlot < |p.slots|
    case Elapse(_) => true
    case SetMeasure(_) => true
    case FinishBegin => true
    case FinishEnd(_) => p.finished && !p.ended
  }

  /** Every slot's active link exists. */
  predicate ActiveNamed(p: Pool) {
    forall s | 0 <= s < |p.slots| :: p.slots[s].active.Some? ==> Named(p, p.slots[s].active.value)
  }

  function Step(p: Pool, e: Event): Pool
    requires Enabled(p, e) && ActiveNamed(p)
    requires p.cfg.expectEcho ==> p.cfg.message != []
  {
    match e
    case Prepare(outcomes) => OpenAll(p.(prepared := true), outcomes)
    case Connected(id, flushed) => OnConnected(p, id, flushed)
    case CloseRaised(id) => OnClosed(p, id)
    case LinkTimer(id) => OnTimer(p, id)
    case RetryTimer(s, outcome) => OnRetryTimer(p, s, outcome)
    case Watermark(id, blocked) => OnWatermark(p, id, blocked)
    case Data(id, bytes, flushed) => OnData(p, id, bytes, flushed)
    case Send(outcome) => TryStartRequest(p, outcome)
    case Elapse(time) => p.(now := p.now + time)
    case SetMeasure(measure) => p.(measure := measure)
    case FinishBegin => OnFinishBegin(p)
    case FinishEnd(flushed) => OnFinishEnd(p, flushed)
  }
}
