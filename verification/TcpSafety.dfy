/** What every event of every run of the TCP client keeps. */
module TcpSafety {
  import opened Tally
  import opened TcpBackoff
  import opened TcpPool
  import Arith

  // ----- The invariant -----

  ghost function Repeat(m: seq<byte>, k: nat): seq<byte> {
    if k == 0 then [] else Repeat(m, k - 1) + m
  }

  /** In how many places of the slot the link is. */
  ghost function Places(slot: Slot, id: LinkId): nat {
    (if slot.active == Some(id) then 1 else 0) + (if slot.standby == Some(id) then 1 else 0)
    + multiset(slot.retiring)[id]
  }

  ghost function PlacesOwed(links: seq<Link>, s: nat, id: LinkId): nat {
    if id < |links| && links[id].slot == s && !links[id].released then 1 else 0
  }

  /** A link that was not let go of is in exactly one place, of its own slot; any other in none. */
  ghost predicate Placed(slots: seq<Slot>, links: seq<Link>) {
    forall s, id: LinkId {:trigger Places(slots[s], id)} | 0 <= s < |slots| ::
      Places(slots[s], id) == PlacesOwed(links, s, id)
  }

  ghost predicate LinkBase(cfg: Config, l: Link) {
    && l.slot < cfg.connections
    && |l.inflight| <= cfg.maxInflight
    && (!cfg.expectEcho ==> l.inflight == [])
    && (l.initialPending ==> l.initial)
    && Repeat(cfg.message, l.echoed) <= l.returned
    && l.echoed <= l.sent
  }

  /** On a link in use, what came back is the echoes matched so far and then what is not matched
      yet, and the messages sent are the ones echoed and the ones outstanding. */
  ghost predicate Matching(cfg: Config, l: Link) {
    cfg.expectEcho ==>
      && l.returned == Repeat(cfg.message, l.echoed) + l.received
      && l.echoed + |l.inflight| == l.sent
  }

  ghost predicate LinkOk(cfg: Config, l: Link) {
    && (l.released ==> l.state == Closed)
    && match l.state
       case Connecting =>
         && l.timerArmed && !l.everOpened && l.inflight == []
         && l.sent == l.echoed == 0 && l.received == l.returned == []
       case Open => !l.initialPending && !l.timerArmed && l.everOpened && Matching(cfg, l)
       case Retiring =>
         !l.initialPending && l.timerArmed && l.everOpened && Matching(cfg, l) && l.inflight != []
       case Closed => !l.initialPending && !l.timerArmed && l.inflight == []
  }

  ghost predicate LinksOk(cfg: Config, links: seq<Link>, ex: Option<LinkId>) {
    && (forall id | 0 <= id < |links| :: LinkBase(cfg, links[id]))
    && (forall id | 0 <= id < |links| && ex != Some(id) :: LinkOk(cfg, links[id]))
    && (forall id | 0 <= id < |links| :: links[id].initial ==> id < cfg.connections)
  }

  /** A slot sends on an active link that is connecting or open, a standby is connecting, and only
      where the active link, if there is one, is open. */
  ghost predicate RolesOk(links: seq<Link>, slot: Slot, finished: bool) {
    && (slot.active.Some? ==>
          && slot.active.value < |links|
          && var a := links[slot.active.value];
             a.state == Connecting || a.state == Open || (a.state == Closed && finished))
    && (slot.standby.Some? ==>
          && slot.standby.value < |links|
          && links[slot.standby.value].state == Connecting
          && !links[slot.standby.value].initial
          && (slot.active.Some? ==> links[slot.active.value].state == Open))
    && (forall id | id in slot.retiring ::
          id < |links| && (links[id].state == Retiring || links[id].state == Closed))
  }

  ghost predicate SlotsOk(slots: seq<Slot>, links: seq<Link>, finished: bool) {
    forall s | 0 <= s < |slots| :: RolesOk(links, slots[s], finished)
  }

  ghost predicate RetriesOk(slots: seq<Slot>, now: int, finished: bool) {
    forall s | 0 <= s < |slots| ::
      Paced(slots[s].retry, now) && (finished ==> slots[s].retry.due.None?)
  }

  ghost function Owes(l: Link): multiset<nat> { Ids(l.inflight) }
  ghost function FirstConnect(l: Link): int { if l.initial && l.everOpened then 1 else 0 }
  ghost function Awaited(l: Link): int { if l.initialPending then 1 else 0 }
  ghost function Attempting(l: Link): int { if l.state == Connecting then 1 else 0 }

  /** Every call's callback was told once or is owed once, and the counters say which. */
  ghost predicate Books(p: Pool) {
    && p.calls == p.n.messagesSent + p.n.deferred + p.n.unavailable
    && Gather(p.links, Owes) + p.succeeded + p.failed == Below(p.calls)
    && |p.succeeded| == (if p.cfg.expectEcho then p.n.messagesReceived else p.n.messagesSent)
    && |p.failed| == p.n.deferred + p.n.unavailable + p.n.inflightLost
    && (!p.cfg.expectEcho ==> p.n.messagesReceived == p.n.inflightLost == 0)
  }

  ghost predicate Connects(p: Pool) {
    && p.n.connectionsOpened == Sum(p.links, FirstConnect) + p.n.reconnects + p.n.rotated
    && |p.connectSamples| == p.n.connectionsOpened
    && p.pendingOpens == Sum(p.links, Awaited)
  }

  /** Every connect begun was completed, failed, was dropped by finish() or is under way. */
  ghost predicate Attempts(p: Pool) {
    p.n.connectionsOpened + p.n.connectFailures + p.dropped + Sum(p.links, Attempting) == p.attempts
  }

  /** The calls go round the slots. */
  ghost predicate InTurn(nextSlot: nat, calls: nat, connections: nat) {
    connections > 0 && nextSlot == calls % connections
  }

  ghost predicate Phases(p: Pool) {
    && |p.slots| == p.cfg.connections > 0
    && InTurn(p.nextSlot, p.calls, p.cfg.connections)
    && (p.cfg.expectEcho ==> p.cfg.message != [])
    && (p.ended ==> p.finished)
    && (!p.prepared ==> p.links == [] && forall s | 0 <= s < |p.slots| :: p.slots[s].retry == NEW_RETRY)
  }

  ghost predicate Sampled(samples: seq<Sample>, links: seq<Link>) {
    forall i | 0 <= i < |samples| ::
      samples[i].link < |links| && 1 <= samples[i].ordinal <= links[samples[i].link].echoed
  }

  /** Everything but what holds between events only: see Inv. The link `ex` is in the middle of a
      change of state. */
  ghost predicate Core(p: Pool, ex: Option<LinkId>) {
    && Placed(p.slots, p.links)
    && LinksOk(p.cfg, p.links, ex)
    && SlotsOk(p.slots, p.links, p.finished)
    && RetriesOk(p.slots, p.now, p.finished)
    && Books(p) && Connects(p) && Phases(p) && Sampled(p.samples, p.links)
  }

  // ----- Small facts -----

  lemma {:induction false} IdsCount(q: seq<Message>)
    ensures |Ids(q)| == |q|
  {
    if q != [] {
      IdsCount(q[1..]);
    }
  }

  lemma {:induction false} IdsAppend(q: seq<Message>, m: Message)
    ensures Ids(q + [m]) == Ids(q) + multiset{m.id}
  {
    if q == [] {
      assert q + [m] == [m];
    } else {
      IdsAppend(q[1..], m);
      assert (q + [m])[1..] == q[1..] + [m];
    }
  }

  lemma {:induction false} WithoutOne(xs: seq<LinkId>, id: LinkId)
    ensures id in xs ==> multiset(Without(xs, id)) == multiset(xs) - multiset{id}
    ensures id !in xs ==> Without(xs, id) == xs
    ensures forall x | x in Without(xs, id) :: x in xs
  {
    if xs != [] {
      WithoutOne(xs[1..], id);
      assert xs == [xs[0]] + xs[1..];
    }
  }

  lemma TakeOutPlaces(slot: Slot, id: LinkId)
    requires Places(slot, id) <= 1
    ensures forall x: LinkId :: Places(TakeOut(slot, id), x) == if x == id then 0 else Places(slot, x)
    ensures HasPlace(slot, id) <==> Places(slot, id) > 0
  {
    WithoutOne(slot.retiring, id);
  }

  /** One link and its slot change: everything else keeps its place. */
  lemma PlacedAfter(slots: seq<Slot>, links: seq<Link>, id: LinkId, l: Link, slot: Slot)
    requires Placed(slots, links)
    requires id < |links| && l.slot == links[id].slot < |slots|
    requires forall x: LinkId :: x != id ==> Places(slot, x) == Places(slots[l.slot], x)
    requires Places(slot, id) == if l.released then 0 else 1
    ensures Placed(slots[l.slot := slot], links[id := l])
  {
    var slots' := slots[l.slot := slot];
    var links' := links[id := l];
    forall s, x: LinkId | 0 <= s < |slots'|
      ensures Places(slots'[s], x) == PlacesOwed(links', s, x)
    {
      assert Places(slots[s], x) == PlacesOwed(links, s, x);
    }
  }

  lemma SlotsAfter(slots: seq<Slot>, links: seq<Link>, id: LinkId, l: Link, slot: Slot, finished: bool)
    requires Placed(slots, links) && SlotsOk(slots, links, finished)
    requires id < |links| && l.slot == links[id].slot < |slots|
    requires RolesOk(links[id := l], slot, finished)
    ensures SlotsOk(slots[l.slot := slot], links[id := l], finished)
  {
    forall s | 0 <= s < |slots| && s != l.slot
      ensures RolesOk(links[id := l], slots[s], finished)
    {
      assert RolesOk(links, slots[s], finished);
      assert Places(slots[s], id) == PlacesOwed(links, s, id) == 0;
    }
  }

  lemma LinksAfter(cfg: Config, links: seq<Link>, id: LinkId, l: Link)
    requires id < |links| && (LinksOk(cfg, links, None) || LinksOk(cfg, links, Some(id)))
    requires LinkBase(cfg, l) && LinkOk(cfg, l) && (l.initial ==> links[id].initial)
    ensures LinksOk(cfg, links[id := l], None)
  {
  }

  lemma RetriesAfter(slots: seq<Slot>, now: int, finished: bool, s: nat, slot: Slot)
    requires s < |slots| && RetriesOk(slots, now, finished)
    requires Paced(slot.retry, now) && (finished ==> slot.retry.due.None?)
    ensures RetriesOk(slots[s := slot], now, finished)
  {
  }

  lemma SampledAfter(samples: seq<Sample>, links: seq<Link>, id: LinkId, l: Link)
    requires id < |links| && Sampled(samples, links) && links[id].echoed <= l.echoed
    ensures Sampled(samples, links[id := l])
  {
  }

  // ----- Closing a link -----

  /** The counters a caller of LetGo may have changed. */
  ghost predicate SameBooks(n: Counters, m: Counters) {
    n.(connectFailures := 0, connectionClosed := 0, echoMismatch := 0, drainIncomplete := 0)
    == m.(connectFailures := 0, connectionClosed := 0, echoMismatch := 0, drainIncomplete := 0)
  }

  lemma LetGoBooks(p: Pool, id: LinkId, n: Counters, release: bool, retry: bool)
    requires Named(p, id) && LinkBase(p.cfg, p.links[id])
    requires Books(p) && Connects(p) && SameBooks(p.n, n)
    ensures Books(LetGo(p, id, n, release, retry))
    ensures Connects(LetGo(p, id, n, release, retry))
    ensures var q := LetGo(p, id, n, release, retry);
            Sum(q.links, Attempting) == Sum(p.links, Attempting) - Attempting(p.links[id])
  {
    var l := p.links[id];
    var q := LetGo(p, id, n, release, retry);
    GatherUpdate(p.links, Owes, id, q.links[id]);
    SumUpdate(p.links, FirstConnect, id, q.links[id]);
    SumUpdate(p.links, Awaited, id, q.links[id]);
    SumUpdate(p.links, Attempting, id, q.links[id]);
    IdsCount(l.inflight);
  }

  /** The slot of a closed link: the link taken out of it or left in it, and its retry as it may be. */
  ghost function Left(slot: Slot, id: LinkId, release: bool, r: Retry): Slot {
    (if release then TakeOut(slot, id) else slot).(retry := r)
  }

  lemma LeftPlaced(slots: seq<Slot>, links: seq<Link>, id: LinkId, release: bool, r: Retry)
    requires Placed(slots, links) && id < |links| && links[id].slot < |slots|
    ensures var t := links[id].slot;
            Placed(slots[t := Left(slots[t], id, release, r)],
                   links[id := Shut(links[id], release && HasPlace(slots[t], id))])
  {
    var t := links[id].slot;
    assert Places(slots[t], id) == PlacesOwed(links, t, id);
    TakeOutPlaces(slots[t], id);
    PlacedAfter(slots, links, id, Shut(links[id], release && HasPlace(slots[t], id)), Left(slots[t], id, release, r));
  }

  lemma LeftRoles(links: seq<Link>, slot: Slot, id: LinkId, release: bool, r: Retry, finished: bool)
    requires id < |links| && RolesOk(links, slot, finished) && Places(slot, id) <= 1
    requires release || (finished && slot.standby.None?) || (slot.active != Some(id) && slot.standby != Some(id))
    requires links[id].state != Connecting || release
    ensures RolesOk(links[id := Shut(links[id], release && HasPlace(slot, id))], Left(slot, id, release, r), finished)
  {
    var after := Left(slot, id, release, r);
    var l := Shut(links[id], release && HasPlace(slot, id));
    if release {
      TakenOutLeft(slot, id);
      hide TakeOut, Places, HasPlace;
    }
  }

  /** Once taken out, a link is in no place of the slot, and the others are where they were. */
  lemma TakenOutLeft(slot: Slot, id: LinkId)
    requires Places(slot, id) <= 1
    ensures var after := TakeOut(slot, id);
            && after.active != Some(id) && after.standby != Some(id) && id !in after.retiring
            && (after.active.Some? ==> after.active == slot.active)
            && (after.standby.Some? ==> after.standby == slot.standby)
            && (after.active.None? && slot.active.Some? ==> slot.active == Some(id))
            && (forall x | x in after.retiring :: x in slot.retiring)
  {
    WithoutOne(slot.retiring, id);
    TakeOutPlaces(slot, id);
    assert Places(TakeOut(slot, id), id) == 0;
  }

  lemma LetGoKeepsCore(p: Pool, id: LinkId, n: Counters, release: bool, retry: bool)
    requires id < |p.links| && (Core(p, None) || Core(p, Some(id)))
    requires SameBooks(p.n, n)
    requires var slot := p.slots[p.links[id].slot];
             release || (p.finished && slot.standby.None?) || (slot.active != Some(id) && slot.standby != Some(id))
    requires p.links[id].state != Connecting || release
    ensures Core(LetGo(p, id, n, release, retry), None)
  {
    var q := LetGo(p, id, n, release, retry);
    var l := p.links[id];
    assert LinkBase(p.cfg, l);
    var slot := p.slots[l.slot];
    assert RolesOk(p.links, slot, p.finished);
    assert Paced(slot.retry, p.now) && (p.finished ==> slot.retry.due.None?);
    hide Paced, RolesOk, Books, Connects, Placed, PlacesOwed, SlotsOk, LinksOk, RetriesOk, Sampled,
         Left, TakeOut, HasPlace;
    LetGoBooks(p, id, n, release, retry);
    ScheduleKeepsPace(slot.retry, p.now);
    var r := q.slots[l.slot].retry;
    LetGoShape(p, id, n, release, retry, r);
    LeftPlaced(p.slots, p.links, id, release, r);
    AtMostOnePlace(p.slots, p.links, l.slot, id);
    LeftRoles(p.links, slot, id, release, r, p.finished);
    SlotsAfter(p.slots, p.links, id, q.links[id], q.slots[l.slot], p.finished);
    LinksAfter(p.cfg, p.links, id, q.links[id]);
    RetriesAfter(p.slots, p.now, p.finished, l.slot, q.slots[l.slot]);
    SampledAfter(p.samples, p.links, id, q.links[id]);
  }

  lemma LetGoShape(p: Pool, id: LinkId, n: Counters, release: bool, retry: bool, r: Retry)
    requires Named(p, id)
    requires r == if retry then Rescheduled(p.slots[p.links[id].slot], p.finished, p.now).retry
                  else p.slots[p.links[id].slot].retry
    ensures LetGo(p, id, n, release, retry).slots
            == p.slots[p.links[id].slot := Left(p.slots[p.links[id].slot], id, release, r)]
  {
  }

  lemma AtMostOnePlace(slots: seq<Slot>, links: seq<Link>, s: nat, id: LinkId)
    requires Placed(slots, links) && s < |slots|
    ensures Places(slots[s], id) <= 1
  {
  }

  // ----- Between events -----

  /** Nothing is under way that would ever connect the slot again. */
  ghost predicate Stranded(slot: Slot) {
    slot.active.None? && slot.standby.None? && slot.retry.due.None?
  }

  /** The first `k` slots are not stranded, the slot `hole` aside. */
  ghost predicate Manned(slots: seq<Slot>, k: int, hole: int) {
    forall s | 0 <= s < k && s != hole && s < |slots| :: !Stranded(slots[s])
  }

  ghost predicate NoneConnecting(links: seq<Link>) {
    forall id | 0 <= id < |links| :: links[id].state != Connecting
  }

  ghost predicate AllClosed(links: seq<Link>) {
    forall id | 0 <= id < |links| :: links[id].state == Closed
  }

  /** What holds besides Core once the first `k` slots have had their first connect. */
  ghost predicate Rest(p: Pool, k: int, hole: int) {
    && Attempts(p)
    && (p.finished ==> NoneConnecting(p.links))
    && (!p.finished ==> Manned(p.slots, k, hole))
    && (p.ended ==> AllClosed(p.links))
  }

  ghost predicate Inv(p: Pool) {
    Core(p, None) && Rest(p, if p.prepared then |p.slots| else 0, -1)
  }

  lemma LetGoKeepsRest(p: Pool, id: LinkId, n: Counters, release: bool, retry: bool, k: int, hole: int)
    requires Named(p, id) && Rest(p, k, hole) && Books(p) && Connects(p) && LinkBase(p.cfg, p.links[id])
    requires SameBooks(p.n, n)
    requires n.connectFailures == p.n.connectFailures + Attempting(p.links[id])
    requires var slot := p.slots[p.links[id].slot];
             retry || !release || p.finished || (slot.active != Some(id) && slot.standby != Some(id))
    ensures Rest(LetGo(p, id, n, release, retry), k, hole)
  {
    LetGoBooks(p, id, n, release, retry);
    assert forall i | 0 <= i < |p.links| && i != id :: LetGo(p, id, n, release, retry).links[i] == p.links[i];
  }

  /** What Core says of one link and its slot. */
  lemma CoreAt(p: Pool, ex: Option<LinkId>, id: LinkId)
    requires Core(p, ex) && id < |p.links|
    ensures Named(p, id) && LinkBase(p.cfg, p.links[id]) && (ex == Some(id) || LinkOk(p.cfg, p.links[id]))
    ensures RolesOk(p.links, p.slots[p.links[id].slot], p.finished)
    ensures Books(p) && Connects(p) && Sampled(p.samples, p.links)
    ensures |p.slots| == p.cfg.connections && InTurn(p.nextSlot, p.calls, p.cfg.connections)
    ensures var slot := p.slots[p.links[id].slot];
            && Places(slot, id) == (if p.links[id].released then 0 else 1)
            && Paced(slot.retry, p.now) && (p.finished ==> slot.retry.due.None?)
  {
  }

  lemma ClosedKeepsInv(p: Pool, id: LinkId, k: int, hole: int)
    requires Named(p, id) && Core(p, None) && Rest(p, k, hole)
    ensures Core(OnClosed(p, id), None) && Rest(OnClosed(p, id), k, hole)
  {
    hide Core, Rest, Books, Connects, Matching, LinkBase, LetGo;
    CoreAt(p, None, id);
    var l := p.links[id];
    var slot := p.slots[l.slot];
    var n := CountClose(p.n, l.state);
    var retry := l.state != Closed && (slot.active == Some(id) || slot.standby == Some(id));
    LetGoKeepsCore(p, id, n, true, retry);
    LetGoKeepsRest(p, id, n, true, retry, k, hole);
  }

  lemma TimerKeepsInv(p: Pool, id: LinkId, k: int, hole: int)
    requires Named(p, id) && p.links[id].timerArmed && Core(p, None) && Rest(p, k, hole)
    ensures Core(OnTimer(p, id), None) && Rest(OnTimer(p, id), k, hole)
  {
    hide Core, Rest, Books, Connects, Matching, LinkBase, LetGo;
    CoreAt(p, None, id);
    var l := p.links[id];
    var slot := p.slots[l.slot];
    var n := if l.state == Connecting then p.n.(connectFailures := p.n.connectFailures + 1) else p.n;
    LetGoKeepsCore(p, id, n, true, l.state == Connecting);
    LetGoKeepsRest(p, id, n, true, l.state == Connecting, k, hole);
  }

  // ----- Connecting -----

  lemma LinkTotals(links: seq<Link>, id: LinkId, l: Link)
    requires id < |links|
    ensures Owes(l) == Owes(links[id]) ==> Gather(links[id := l], Owes) == Gather(links, Owes)
    ensures Sum(links[id := l], FirstConnect) == Sum(links, FirstConnect) - FirstConnect(links[id]) + FirstConnect(l)
    ensures Sum(links[id := l], Awaited) == Sum(links, Awaited) - Awaited(links[id]) + Awaited(l)
    ensures Sum(links[id := l], Attempting) == Sum(links, Attempting) - Attempting(links[id]) + Attempting(l)
  {
    GatherUpdate(links, Owes, id, l);
    SumUpdate(links, FirstConnect, id, l);
    SumUpdate(links, Awaited, id, l);
    SumUpdate(links, Attempting, id, l);
  }

  /** The frame of an event that changes one link and its slot: what is left to show is local. */
  lemma OneLinkCore(p: Pool, q: Pool, ex: Option<LinkId>, id: LinkId)
    requires Core(p, ex) && id < |p.links| && Named(p, id)
    requires q.cfg == p.cfg && q.now == p.now && q.finished == p.finished
    requires q.ended == p.ended && q.prepared == p.prepared && p.prepared
    requires InTurn(q.nextSlot, q.calls, q.cfg.connections)
    requires |q.links| == |p.links| && q.links == p.links[id := q.links[id]]
    requires q.links[id].slot == p.links[id].slot && q.links[id].initial == p.links[id].initial
    requires p.links[id].echoed <= q.links[id].echoed
    requires LinkBase(p.cfg, q.links[id]) && (ex == Some(id) || LinkOk(p.cfg, q.links[id]))
    requires var t := p.links[id].slot;
             && |q.slots| == |p.slots| && q.slots == p.slots[t := q.slots[t]]
             && (forall x: LinkId :: x != id ==> Places(q.slots[t], x) == Places(p.slots[t], x))
             && Places(q.slots[t], id) == (if q.links[id].released then 0 else 1)
             && RolesOk(q.links, q.slots[t], q.finished)
             && Paced(q.slots[t].retry, p.now) && (q.finished ==> q.slots[t].retry.due.None?)
    requires Books(q) && Connects(q) && Sampled(q.samples, p.links[id := q.links[id]])
    ensures Core(q, ex)
  {
    hide Paced, RolesOk, Books, Connects, Places, PlacesOwed, LinkBase, LinkOk, Sampled;
    var t := p.links[id].slot;
    PlacedAfter(p.slots, p.links, id, q.links[id], q.slots[t]);
    SlotsAfter(p.slots, p.links, id, q.links[id], q.slots[t], p.finished);
    RetriesAfter(p.slots, p.now, p.finished, t, q.slots[t]);
  }

  lemma OneLinkRest(p: Pool, q: Pool, id: LinkId, k: int, hole: int)
    requires Rest(p, k, hole) && Named(p, id)
    requires q.finished == p.finished && q.ended == p.ended
    requires |q.links| == |p.links| && q.links == p.links[id := q.links[id]]
    requires var t := p.links[id].slot;
             && |q.slots| == |p.slots| && q.slots == p.slots[t := q.slots[t]]
             && (Stranded(q.slots[t]) ==> Stranded(p.slots[t]))
    requires Attempts(q)
    requires p.links[id].state != Connecting ==> q.links[id].state != Connecting
    requires p.links[id].state == Closed ==> q.links[id].state == Closed
    ensures Rest(q, k, hole)
  {
    hide Attempts;
  }

  /** An event on one link that leaves its state and every slot alone. */
  lemma SameSlotsInv(p: Pool, q: Pool, ex: Option<LinkId>, id: LinkId, k: int, hole: int)
    requires (Core(p, None) || Core(p, ex)) && Rest(p, k, hole) && p.prepared && id < |p.links|
    requires q.cfg == p.cfg && q.now == p.now && q.finished == p.finished && q.slots == p.slots
    requires q.ended == p.ended && q.prepared == p.prepared
    requires InTurn(q.nextSlot, q.calls, q.cfg.connections)
    requires |q.links| == |p.links| && q.links == p.links[id := q.links[id]]
    requires var l, m := p.links[id], q.links[id];
             && m.slot == l.slot && m.initial == l.initial && m.state == l.state && m.released == l.released
             && l.echoed <= m.echoed
             && LinkBase(p.cfg, m) && (ex == Some(id) || LinkOk(p.cfg, m))
    requires Books(q) && Connects(q) && Attempts(q) && Sampled(q.samples, q.links)
    ensures Core(q, ex) && Rest(q, k, hole)
  {
    assert Core(p, ex) by {
      if ex.Some? && Core(p, None) { CoreExempts(p, ex.value); }
    }
    hide Core, Rest, Books, Connects, Attempts, Paced, Sampled, Places, LinkBase, LinkOk;
    CoreAt(p, ex, id);
    var t := p.links[id].slot;
    assert q.slots == p.slots[t := q.slots[t]];
    assert RolesOk(q.links, q.slots[t], q.finished);
    OneLinkCore(p, q, ex, id);
    OneLinkRest(p, q, id, k, hole);
  }

  lemma ArrivedBooks(p: Pool, id: LinkId, n: Counters)
    requires Named(p, id) && Books(p) && Connects(p) && Attempts(p)
    requires LinkOk(p.cfg, p.links[id]) && p.links[id].state == Connecting
    requires n.(reconnects := 0, rotated := 0) == p.n.(reconnects := 0, rotated := 0)
    requires n.reconnects + n.rotated == p.n.reconnects + p.n.rotated + (if p.links[id].initial then 0 else 1)
    ensures var q := Arrived(p, id, n); Books(q) && Connects(q) && Attempts(q)
  {
    LinkTotals(p.links, id, Arrived(p, id, n).links[id]);
  }

  lemma ArrivedKeepsInv(p: Pool, id: LinkId, n: Counters, k: int, hole: int)
    requires id < |p.links| && Core(p, None) && Rest(p, k, hole) && p.prepared
    requires p.links[id].state == Connecting
    requires p.slots[p.links[id].slot].active == Some(id)
    requires n.(reconnects := 0, rotated := 0) == p.n.(reconnects := 0, rotated := 0)
    requires n.reconnects + n.rotated == p.n.reconnects + p.n.rotated + (if p.links[id].initial then 0 else 1)
    ensures Core(Arrived(p, id, n), None) && Rest(Arrived(p, id, n), k, hole)
  {
    assert Attempts(p);
    hide Core, Rest, Books, Connects, Attempts, Matching, Places, Paced, Sampled;
    CoreAt(p, None, id);
    ArrivedBooks(p, id, n);
    var q := Arrived(p, id, n);
    SampledAfter(p.samples, p.links, id, q.links[id]);
    assert q.slots == p.slots[p.links[id].slot := q.slots[p.links[id].slot]];
    OneLinkCore(p, q, None, id);
    OneLinkRest(p, q, id, k, hole);
  }

  lemma RetiredSlot(links: seq<Link>, slot: Slot, l: Link, finished: bool)
    requires slot.active.Some? && slot.standby.Some? && RolesOk(links, slot, finished)
    requires Places(slot, slot.active.value) == 1 && l.state == Retiring
    ensures var worn := slot.active.value;
            var after := slot.(active := None, retiring := slot.retiring + [worn]);
            && RolesOk(links[worn := l], after, finished)
            && (forall x: LinkId :: Places(after, x) == Places(slot, x))
  {
  }

  lemma RetiredKeepsInv(p: Pool, s: nat, k: int, hole: int)
    requires Core(p, None) && Rest(p, k, hole) && p.prepared && s < |p.slots|
    requires p.slots[s].active.Some? && p.slots[s].standby.Some?
    ensures var worn := p.slots[s].active.value;
            && Named(p, worn) && p.links[worn].state == Open && p.links[worn].slot == s
            && Core(Retired(p, s), Some(worn)) && Rest(Retired(p, s), k, hole)
            && (p.links[worn].inflight != [] ==> LinkOk(p.cfg, Retired(p, s).links[worn]))
  {
    assert Attempts(p);
    var slot := p.slots[s];
    var worn := slot.active.value;
    assert RolesOk(p.links, slot, p.finished);
    assert Places(slot, worn) == PlacesOwed(p.links, s, worn) == 1;
    hide Core, Rest, Books, Connects, Attempts, Paced, Sampled, Places;
    CoreAt(p, None, worn);
    var q := Retired(p, s);
    RetiredSlot(p.links, slot, q.links[worn], p.finished);
    SampledAfter(p.samples, p.links, worn, q.links[worn]);
    CoreExempts(p, worn);
    RetiredBooks(p, s);
    OneLinkCore(p, q, Some(worn), worn);
    OneLinkRest(p, q, worn, k, hole);
  }

  lemma CoreExempts(p: Pool, id: LinkId)
    requires Core(p, None)
    ensures Core(p, Some(id))
  {
  }

  lemma RetiredBooks(p: Pool, s: nat)
    requires s < |p.slots| && p.slots[s].active.Some? && Named(p, p.slots[s].active.value)
    requires Books(p) && Connects(p) && Attempts(p) && p.links[p.slots[s].active.value].state == Open
    ensures var q := Retired(p, s); Books(q) && Connects(q) && Attempts(q)
  {
    var worn := p.slots[s].active.value;
    LinkTotals(p.links, worn, Retired(p, s).links[worn]);
  }

  lemma TakenOverKeepsInv(p: Pool, ex: Option<LinkId>, id: LinkId, n: Counters, k: int, hole: int)
    requires id < |p.links| && Core(p, ex) && ex != Some(id) && Rest(p, k, hole) && p.prepared
    requires p.links[id].state == Connecting && p.links[id].slot < |p.slots|
    requires p.slots[p.links[id].slot].standby == Some(id) && p.slots[p.links[id].slot].active == None
    requires n.(reconnects := 0, rotated := 0) == p.n.(reconnects := 0, rotated := 0)
    requires n.reconnects + n.rotated == p.n.reconnects + p.n.rotated + 1
    ensures Core(TakenOver(p, id, n), ex) && Rest(TakenOver(p, id, n), k, hole)
  {
    hide Core, Rest, TakenOver;
    TakenOverKeepsCore(p, ex, id, n, k, hole);
    TakenOverKeepsRest(p, ex, id, n, k, hole);
  }

  lemma TakenOverKeepsCore(p: Pool, ex: Option<LinkId>, id: LinkId, n: Counters, k: int, hole: int)
    requires id < |p.links| && Core(p, ex) && ex != Some(id) && Rest(p, k, hole)
    requires p.links[id].state == Connecting && p.links[id].slot < |p.slots|
    requires p.slots[p.links[id].slot].standby == Some(id) && p.slots[p.links[id].slot].active == None
    requires n.(reconnects := 0, rotated := 0) == p.n.(reconnects := 0, rotated := 0)
    requires n.reconnects + n.rotated == p.n.reconnects + p.n.rotated + 1
    ensures Core(TakenOver(p, id, n), ex) && Attempts(TakenOver(p, id, n))
  {
    assert Attempts(p);
    hide Core, Rest, Books, Connects, Attempts, Matching, Paced, Sampled, RolesOk, Places, LinkBase, LinkOk;
    CoreAt(p, ex, id);
    ArrivedBooks(p, id, n);
    var q := TakenOver(p, id, n);
    TakenOverBooks(p, id, n);
    CallOffKeepsPace(p.slots[p.links[id].slot].retry, p.now);
    SampledAfter(p.samples, p.links, id, q.links[id]);
    TakenOverSlot(p, ex, id, n);
    OneLinkCore(p, q, ex, id);
  }

  /** The link and the slot of a standby that takes over. */
  lemma TakenOverSlot(p: Pool, ex: Option<LinkId>, id: LinkId, n: Counters)
    requires Named(p, id) && LinkBase(p.cfg, p.links[id]) && LinkOk(p.cfg, p.links[id])
    requires p.links[id].state == Connecting && RolesOk(p.links, p.slots[p.links[id].slot], p.finished)
    requires p.slots[p.links[id].slot].standby == Some(id) && p.slots[p.links[id].slot].active == None
    requires Places(p.slots[p.links[id].slot], id) == if p.links[id].released then 0 else 1
    ensures var q := TakenOver(p, id, n);
            var t := p.links[id].slot;
            && LinkBase(p.cfg, q.links[id]) && LinkOk(p.cfg, q.links[id])
            && RolesOk(q.links, q.slots[t], q.finished)
            && (forall x: LinkId :: x != id ==> Places(q.slots[t], x) == Places(p.slots[t], x))
            && Places(q.slots[t], id) == if q.links[id].released then 0 else 1
  {
    hide Paced, Repeat;
  }

  lemma TakenOverKeepsRest(p: Pool, ex: Option<LinkId>, id: LinkId, n: Counters, k: int, hole: int)
    requires id < |p.links| && Core(p, ex) && ex != Some(id) && Rest(p, k, hole) && p.prepared
    requires p.links[id].state == Connecting && p.links[id].slot < |p.slots|
    requires p.slots[p.links[id].slot].standby == Some(id) && p.slots[p.links[id].slot].active == None
    requires Attempts(TakenOver(p, id, n))
    ensures Rest(TakenOver(p, id, n), k, hole)
  {
    hide Core, Rest, Books, Connects, Attempts, Matching, Paced, Sampled;
    CoreAt(p, ex, id);
    OneLinkRest(p, TakenOver(p, id, n), id, k, hole);
  }

  lemma TakenOverBooks(p: Pool, id: LinkId, n: Counters)
    requires Named(p, id)
    requires var q := Arrived(p, id, n); Books(q) && Connects(q) && Attempts(q)
    ensures var q := TakenOver(p, id, n); Books(q) && Connects(q) && Attempts(q)
  {
  }

  /** A replacement takes over from a link that goes on to retire. */
  lemma RotatedKeepsInv(p: Pool, id: LinkId, flushed: bool, k: int, hole: int)
    requires Core(p, None) && Rest(p, k, hole) && p.prepared && Named(p, id)
    requires p.links[id].state == Connecting
    requires var slot := p.slots[p.links[id].slot]; slot.standby == Some(id) && slot.active.Some?
    ensures var slot := p.slots[p.links[id].slot];
            Named(p, slot.active.value) && slot.active.value != id
            && Core(Rotated(p, id, flushed), None) && Rest(Rotated(p, id, flushed), k, hole)
  {
    hide Core, Rest, Books, Connects, Paced, Matching, LinkBase, TakenOver, Retired, LetGo;
    var s := p.links[id].slot;
    var worn := p.slots[s].active.value;
    ReplacedKeepsInv(p, id, k, hole);
    RetiredKeepsInv(p, s, k, hole);
    var q := TakenOver(Retired(p, s), id, p.n.(rotated := p.n.rotated + 1));
    CoreAt(q, Some(worn), worn);
    if p.links[worn].inflight == [] {
      LetGoKeepsCore(q, worn, q.n, flushed, false);
      LetGoKeepsRest(q, worn, q.n, flushed, false, k, hole);
    } else {
      CoreRestored(q, worn);
    }
  }

  /** The moment in between: the replacement is the active link, and the one it replaced is retiring. */
  lemma ReplacedKeepsInv(p: Pool, id: LinkId, k: int, hole: int)
    requires Core(p, None) && Rest(p, k, hole) && p.prepared && Named(p, id)
    requires p.links[id].state == Connecting
    requires var slot := p.slots[p.links[id].slot]; slot.standby == Some(id) && slot.active.Some?
    ensures var s := p.links[id].slot;
            var worn := p.slots[s].active.value;
            && Named(p, worn) && worn != id && p.links[worn].state == Open
            && Named(Retired(p, s), id)
            && var q := TakenOver(Retired(p, s), id, p.n.(rotated := p.n.rotated + 1));
               && Core(q, Some(worn)) && Rest(q, k, hole) && Named(q, worn) && q.prepared
               && q.links[worn] == Retired(p, s).links[worn] && q.links[worn].state == Retiring
               && q.links[worn].inflight == p.links[worn].inflight && q.cfg == p.cfg
               && q.links[worn].slot == p.links[worn].slot && q.slots[s].standby.None? && q.slots[s].active == Some(id)
               && p.links[worn].slot == s
  {
    hide Core, Rest, Books, Connects, Paced, Matching, LinkBase;
    var s := p.links[id].slot;
    var worn := p.slots[s].active.value;
    CoreAt(p, None, id);
    RetiredKeepsInv(p, s, k, hole);
    ReplacedShape(p, id, worn);
    hide Retired, TakenOver, LinkOk, RolesOk;
    TakenOverKeepsInv(Retired(p, s), Some(worn), id, p.n.(rotated := p.n.rotated + 1), k, hole);
  }

  lemma ReplacedShape(p: Pool, id: LinkId, worn: LinkId)
    requires Named(p, id) && Named(p, worn) && worn != id && p.links[worn].state == Open
    requires var slot := p.slots[p.links[id].slot]; slot.standby == Some(id) && slot.active == Some(worn)
    ensures var s := p.links[id].slot;
            var r := Retired(p, s);
            && Named(r, id) && r.links[id] == p.links[id] && r.n == p.n && r.prepared == p.prepared
            && r.slots[s].standby == Some(id) && r.slots[s].active.None?
            && var q := TakenOver(r, id, p.n.(rotated := p.n.rotated + 1));
               && Named(q, worn) && q.prepared == p.prepared && q.cfg == p.cfg
               && q.links[worn] == r.links[worn] && r.links[worn].state == Retiring
               && r.links[worn].inflight == p.links[worn].inflight && r.links[worn].slot == p.links[worn].slot
               && q.slots[s].standby.None? && q.slots[s].active == Some(id)
  {
  }

  lemma CoreRestored(p: Pool, id: LinkId)
    requires Core(p, Some(id)) && id < |p.links| && LinkOk(p.cfg, p.links[id])
    ensures Core(p, None)
  {
  }

  lemma ConnectedKeepsInv(p: Pool, id: LinkId, flushed: bool, k: int, hole: int)
    requires Core(p, None) && Rest(p, k, hole) && p.prepared && id < |p.links|
    ensures Named(p, id) && (var a := p.slots[p.links[id].slot].active; a.Some? ==> Named(p, a.value))
    ensures Core(OnConnected(p, id, flushed), None) && Rest(OnConnected(p, id, flushed), k, hole)
  {
    ActiveIsNamed(p, id);
    hide Core, Rest, Books, Connects, Paced, Matching, LinkBase, LinkOk, Arrived, TakenOver, Rotated;
    CoreAt(p, None, id);
    if p.links[id].state == Connecting {
      var slot := p.slots[p.links[id].slot];
      if slot.standby != Some(id) {
        var n := if p.links[id].initial then p.n else p.n.(reconnects := p.n.reconnects + 1);
        assert OnConnected(p, id, flushed) == Arrived(p, id, n);
        ArrivedKeepsInv(p, id, n, k, hole);
      } else if slot.active.None? {
        TakenOverKeepsInv(p, None, id, p.n.(reconnects := p.n.reconnects + 1), k, hole);
      } else {
        RotatedKeepsInv(p, id, flushed, k, hole);
      }
    }
  }

  lemma ActiveIsNamed(p: Pool, id: LinkId)
    requires Core(p, None) && id < |p.links|
    ensures Named(p, id) && (var a := p.slots[p.links[id].slot].active; a.Some? ==> Named(p, a.value))
  {
  }

  // ----- Opening a link -----

  /** Slot `s` is manned now, whatever it was before. */
  ghost predicate NowManned(s: int, k: int, hole: int, k2: int, hole2: int) {
    && (k2 == k || (k2 == k + 1 && s == k))
    && (hole2 == hole || hole == s)
  }

  lemma PlacedAppend(slots: seq<Slot>, links: seq<Link>, l: Link, slot: Slot)
    requires Placed(slots, links) && l.slot < |slots| && !l.released
    requires forall x: LinkId :: Places(slot, x) == Places(slots[l.slot], x) + if x == |links| then 1 else 0
    ensures Placed(slots[l.slot := slot], links + [l])
  {
    var slots' := slots[l.slot := slot];
    forall s, x: LinkId | 0 <= s < |slots'|
      ensures Places(slots'[s], x) == PlacesOwed(links + [l], s, x)
    {
      assert Places(slots[s], x) == PlacesOwed(links, s, x);
    }
  }

  lemma SlotsAppend(slots: seq<Slot>, links: seq<Link>, l: Link, slot: Slot, finished: bool)
    requires SlotsOk(slots, links, finished) && l.slot < |slots|
    requires RolesOk(links + [l], slot, finished)
    ensures SlotsOk(slots[l.slot := slot], links + [l], finished)
  {
    forall s | 0 <= s < |slots| && s != l.slot
      ensures RolesOk(links + [l], slots[s], finished)
    {
      assert RolesOk(links, slots[s], finished);
    }
  }

  lemma LinksAppend(cfg: Config, links: seq<Link>, l: Link)
    requires LinksOk(cfg, links, None) && LinkBase(cfg, l) && LinkOk(cfg, l)
    requires l.initial ==> |links| < cfg.connections
    ensures LinksOk(cfg, links + [l], None)
  {
  }

  lemma BegunBooks(p: Pool, s: nat, standby: bool, initial: bool)
    requires s < |p.slots| && Books(p) && Connects(p) && Attempts(p)
    ensures var q := Begun(p, s, standby, initial); Books(q) && Connects(q) && Attempts(q)
  {
    var l := NewLink(s, initial, p.now);
    GatherAppend(p.links, Owes, l);
    SumAppend(p.links, FirstConnect, l);
    SumAppend(p.links, Awaited, l);
    SumAppend(p.links, Attempting, l);
  }

  ghost predicate MayOpen(p: Pool, s: nat, standby: bool, initial: bool) {
    && s < |p.slots| && p.prepared && !p.finished && p.slots[s].standby.None?
    && (if standby then p.slots[s].active.Some? && Named(p, p.slots[s].active.value)
                        && p.links[p.slots[s].active.value].state == Open && !initial
        else p.slots[s].active.None?)
    && (initial ==> |p.links| < p.cfg.connections)
  }

  lemma BegunKeepsCore(p: Pool, s: nat, standby: bool, initial: bool)
    requires Core(p, None) && Attempts(p) && MayOpen(p, s, standby, initial)
    ensures Core(Begun(p, s, standby, initial), None) && Attempts(Begun(p, s, standby, initial))
  {
    var q := Begun(p, s, standby, initial);
    var l := NewLink(s, initial, p.now);
    assert RolesOk(p.links, p.slots[s], p.finished);
    assert Places(p.slots[s], |p.links|) == PlacesOwed(p.links, s, |p.links|) == 0;
    hide Books, Connects, Paced, Attempts, PlacesOwed;
    BegunBooks(p, s, standby, initial);
    PlacedAppend(p.slots, p.links, l, q.slots[s]);
    SlotsAppend(p.slots, p.links, l, q.slots[s], p.finished);
    LinksAppend(p.cfg, p.links, l);
  }

  lemma BegunKeepsRest(p: Pool, s: nat, standby: bool, initial: bool, k: int, hole: int, k2: int, hole2: int)
    requires Rest(p, k, hole) && s < |p.slots| && !p.finished && !p.ended && NowManned(s, k, hole, k2, hole2)
    requires Attempts(Begun(p, s, standby, initial))
    ensures Rest(Begun(p, s, standby, initial), k2, hole2)
  {
    hide Attempts;
  }

  lemma NoConnectionKeepsInv(p: Pool, s: nat, k: int, hole: int, k2: int, hole2: int)
    requires Core(p, None) && Rest(p, k, hole) && p.prepared && !p.finished && !p.ended
    requires s < |p.slots| && NowManned(s, k, hole, k2, hole2)
    ensures var q := OpenLink(p, s, false, false, NoConnection); Core(q, None) && Rest(q, k2, hole2)
  {
    var q := OpenLink(p, s, false, false, NoConnection);
    assert Paced(p.slots[s].retry, p.now);
    ScheduleKeepsPace(p.slots[s].retry, p.now);
    assert RolesOk(p.links, p.slots[s], p.finished);
    hide Paced, LinksOk, Sampled, PlacesOwed;
    assert Books(q) && Connects(q) && Attempts(q);
    hide Books, Connects, Attempts;
    forall t, x: LinkId | 0 <= t < |q.slots|
      ensures Places(q.slots[t], x) == PlacesOwed(q.links, t, x)
    {
      assert Places(p.slots[t], x) == PlacesOwed(p.links, t, x);
    }
    forall t | 0 <= t < |q.slots|
      ensures RolesOk(q.links, q.slots[t], q.finished)
    {
      assert RolesOk(p.links, p.slots[t], p.finished);
    }
    RetriesAfter(p.slots, p.now, p.finished, s, q.slots[s]);
  }

  lemma OpenLinkKeepsInv(p: Pool, s: nat, standby: bool, initial: bool, outcome: Outcome,
                         k: int, hole: int, k2: int, hole2: int)
    requires Core(p, None) && Rest(p, k, hole) && !p.ended && MayOpen(p, s, standby, initial)
    requires NowManned(s, k, hole, k2, hole2)
    ensures var q := OpenLink(p, s, standby, initial, outcome); Core(q, None) && Rest(q, k2, hole2)
  {
    assert Attempts(p);
    hide Core, Rest, Attempts;
    if outcome == NoConnection {
      NoConnectionKeepsInv(p, s, k, hole, k2, hole2);
    } else {
      BegunKeepsCore(p, s, standby, initial);
      BegunKeepsRest(p, s, standby, initial, k, hole, k2, hole2);
      var q := Begun(p, s, standby, initial);
      if outcome == FailedNow {
        ClosedKeepsInv(q, |p.links|, k2, hole2);
      } else if outcome.ConnectedNow? {
        ConnectedKeepsInv(q, |p.links|, outcome.flushed, k2, hole2);
      }
    }
  }

  /** Phases that no event after prepare() leaves unless it is finish(). */
  lemma ConnectNextKeepsInv(p: Pool, s: nat, outcome: Outcome, k: int, hole: int)
    requires Core(p, None) && Rest(p, k, hole) && p.prepared && !p.ended && s < |p.slots|
    requires hole == s ==> !p.finished
    ensures p.slots[s].active.Some? ==> Named(p, p.slots[s].active.value)
    ensures Core(ConnectNext(p, s, outcome), None)
    ensures Rest(ConnectNext(p, s, outcome), k, if hole == s then -1 else hole)
  {
    var slot := p.slots[s];
    assert RolesOk(p.links, slot, p.finished);
    assert slot.active.Some? ==> LinkBase(p.cfg, p.links[slot.active.value]);
    var hole2 := if hole == s then -1 else hole;
    var opens := !p.finished && slot.standby.None?
                 && (slot.active.None?
                     || (p.links[slot.active.value].state == Open && RotationDue(p, p.links[slot.active.value])));
    assert !opens ==> Rest(p, k, hole2);
    hide Core, Rest, OpenLink;
    if opens {
      OpenLinkKeepsInv(p, s, slot.active.Some?, false, outcome, k, hole, k, hole2);
    }
  }

  lemma RetryTimerKeepsInv(p: Pool, s: nat, outcome: Outcome, k: int)
    requires Core(p, None) && Rest(p, k, -1) && p.prepared && !p.ended
    requires Enabled(p, RetryTimer(s, outcome))
    ensures p.slots[s].active.Some? ==> Named(p, p.slots[s].active.value)
    ensures Core(OnRetryTimer(p, s, outcome), None) && Rest(OnRetryTimer(p, s, outcome), k, -1)
  {
    var q := p.(slots := p.slots[s := p.slots[s].(retry := Fire(p.slots[s].retry, p.now))]);
    assert !p.finished;
    FireKeepsPace(p.slots[s].retry, p.now);
    RetryChange(p, q, s);
    assert Rest(q, k, s) by { hide Core; }
    hide Core, Rest, ConnectNext;
    ConnectNextKeepsInv(q, s, outcome, k, s);
  }

  /** Only a slot's retry changes. */
  lemma RetryChange(p: Pool, q: Pool, s: nat)
    requires Core(p, None) && s < |p.slots| == |q.slots| && p.prepared
    requires q == p.(slots := p.slots[s := p.slots[s].(retry := q.slots[s].retry)])
    requires Paced(q.slots[s].retry, p.now) && (p.finished ==> q.slots[s].retry.due.None?)
    ensures Core(q, None)
  {
    RetriesAfter(p.slots, p.now, p.finished, s, q.slots[s]);
    hide Paced, LinksOk, Sampled, PlacesOwed, RetriesOk;
    assert Books(q) && Connects(q);
    hide Books, Connects;
    forall t, x: LinkId | 0 <= t < |q.slots|
      ensures Places(q.slots[t], x) == PlacesOwed(q.links, t, x)
    {
      assert Places(p.slots[t], x) == PlacesOwed(p.links, t, x);
    }
    forall t | 0 <= t < |q.slots|
      ensures RolesOk(q.links, q.slots[t], q.finished)
    {
      assert RolesOk(p.links, p.slots[t], p.finished);
    }
  }

  // ----- Sending -----

  lemma TurnedKeepsInv(p: Pool, n: Counters, k: int, hole: int)
    requires Core(p, None) && Rest(p, k, hole)
    requires n == p.n.(unavailable := p.n.unavailable + 1) || n == p.n.(deferred := p.n.deferred + 1)
    ensures |p.slots| > 0 && Core(Turned(p, n), None) && Rest(Turned(p, n), k, hole)
  {
    assert InTurn(p.nextSlot, p.calls, p.cfg.connections);
    Arith.NextInCycle(p.calls, p.cfg.connections);
    hide Placed, LinksOk, SlotsOk, RetriesOk, InTurn;
  }

  lemma WrittenOwes(p: Pool, id: LinkId)
    requires Named(p, id) && |p.slots| > 0
    ensures var q := Written(p, id);
            Gather(q.links, Owes) == Gather(p.links, Owes) + if p.cfg.expectEcho then multiset{p.calls} else multiset{}
  {
    var l := p.links[id];
    GatherUpdate(p.links, Owes, id, Written(p, id).links[id]);
    IdsAppend(l.inflight, Message(p.calls, p.now));
  }

  lemma WrittenBooks(p: Pool, id: LinkId)
    requires Named(p, id) && |p.slots| > 0 && Books(p)
    ensures Books(Written(p, id))
  {
    hide Gather, Ids, Below, Owes;
    WrittenOwes(p, id);
    BelowNext(p.calls);
    OneMore(Gather(p.links, Owes), p.succeeded, p.failed, Below(p.calls), p.calls);
  }

  lemma OneMore(owed: multiset<nat>, succeeded: multiset<nat>, failed: multiset<nat>, all: multiset<nat>, call: nat)
    requires owed + succeeded + failed == all
    ensures (owed + multiset{call}) + succeeded + failed == all + multiset{call}
    ensures (owed + multiset{}) + (succeeded + multiset{call}) + failed == all + multiset{call}
  {
    assert owed + multiset{} == owed;
    assert (owed + multiset{call}) + succeeded + failed == (owed + succeeded + failed) + multiset{call};
    assert owed + (succeeded + multiset{call}) + failed == (owed + succeeded + failed) + multiset{call};
  }

  lemma WrittenConnects(p: Pool, id: LinkId)
    requires Named(p, id) && |p.slots| > 0 && Connects(p) && Attempts(p)
    ensures var q := Written(p, id); Connects(q) && Attempts(q)
  {
    LinkTotals(p.links, id, Written(p, id).links[id]);
  }

  lemma WrittenKeepsInv(p: Pool, id: LinkId, k: int, hole: int)
    requires Core(p, None) && Rest(p, k, hole) && p.prepared && id < |p.links|
    requires p.links[id].state == Open && |p.links[id].inflight| < p.cfg.maxInflight
    ensures |p.slots| > 0 && Named(p, id) && Core(Written(p, id), None) && Rest(Written(p, id), k, hole)
  {
    assert Attempts(p);
    hide Core, Rest, Books, Connects, Attempts, Sampled, Repeat;
    CoreAt(p, None, id);
    Arith.NextInCycle(p.calls, p.cfg.connections);
    WrittenBooks(p, id);
    WrittenConnects(p, id);
    SampledAfter(p.samples, p.links, id, Written(p, id).links[id]);
    SameSlotsInv(p, Written(p, id), None, id, k, hole);
  }

  lemma SentKeepsInv(p: Pool, outcome: Outcome, id: LinkId, k: int)
    requires Core(p, None) && Rest(p, k, -1) && p.prepared && !p.ended && Named(p, id)
    requires p.nextSlot < |p.slots| && p.slots[p.nextSlot].active == Some(id)
    requires p.links[id].state == Open && |p.links[id].inflight| < p.cfg.maxInflight
    ensures var q := Written(p, id); Core(q, None) && Rest(q, k, -1)
    ensures var q := ConnectNext(Written(p, id), p.nextSlot, outcome); Core(q, None) && Rest(q, k, -1)
  {
    hide Core, Rest, ConnectNext;
    WrittenKeepsInv(p, id, k, -1);
    ConnectNextKeepsInv(Written(p, id), p.nextSlot, outcome, k, -1);
  }

  /** What Core and Rest say of the slot whose turn it is. */
  lemma SlotInTurn(p: Pool, k: int)
    requires Core(p, None) && Rest(p, k, -1)
    ensures p.nextSlot < |p.slots|
    ensures var a := p.slots[p.nextSlot].active;
            a.Some? ==> Named(p, a.value) && p.prepared && (p.ended ==> p.links[a.value].state == Closed)
  {
    assert RolesOk(p.links, p.slots[p.nextSlot], p.finished);
  }

  lemma SendKeepsInv(p: Pool, outcome: Outcome, k: int)
    requires Core(p, None) && Rest(p, k, -1)
    ensures p.nextSlot < |p.slots|
    ensures var a := p.slots[p.nextSlot].active; a.Some? ==> Named(p, a.value)
    ensures Core(TryStartRequest(p, outcome), None) && Rest(TryStartRequest(p, outcome), k, -1)
  {
    hide Core, Rest, ConnectNext, Turned, Written;
    SlotInTurn(p, k);
    var a := p.slots[p.nextSlot].active;
    if a.None? || p.links[a.value].state != Open {
      TurnedKeepsInv(p, p.n.(unavailable := p.n.unavailable + 1), k, -1);
    } else if p.links[a.value].writeBlocked || |p.links[a.value].inflight| >= p.cfg.maxInflight {
      TurnedKeepsInv(p, p.n.(deferred := p.n.deferred + 1), k, -1);
    } else {
      SentKeepsInv(p, outcome, a.value, k);
    }
  }

  lemma WatermarkBooks(p: Pool, id: LinkId, blocked: bool)
    requires Named(p, id) && Books(p) && Connects(p) && Attempts(p)
    ensures var q := OnWatermark(p, id, blocked); Books(q) && Connects(q) && Attempts(q)
  {
    LinkTotals(p.links, id, OnWatermark(p, id, blocked).links[id]);
  }

  lemma WatermarkKeepsInv(p: Pool, id: LinkId, blocked: bool, k: int, hole: int)
    requires Core(p, None) && Rest(p, k, hole) && p.prepared && id < |p.links|
    ensures Named(p, id) && Core(OnWatermark(p, id, blocked), None) && Rest(OnWatermark(p, id, blocked), k, hole)
  {
    assert Attempts(p);
    hide Core, Rest, Books, Connects, Attempts, Sampled, Repeat;
    CoreAt(p, None, id);
    WatermarkBooks(p, id, blocked);
    SampledAfter(p.samples, p.links, id, OnWatermark(p, id, blocked).links[id]);
    SameSlotsInv(p, OnWatermark(p, id, blocked), None, id, k, hole);
  }

  // ----- Matching echoes -----

  lemma TakenKeepsInv(p: Pool, id: LinkId, k: int, hole: int)
    requires Core(p, None) && Rest(p, k, hole) && p.prepared && id < |p.links|
    requires |p.links[id].received| >= |p.cfg.message|
    ensures Named(p, id) && Core(Taken(p, id), Some(id)) && Rest(Taken(p, id), k, hole)
  {
    assert Attempts(p);
    hide Core, Rest, Books, Connects, Attempts, Sampled, LinkOk, Repeat;
    CoreAt(p, None, id);
    TakenBooks(p, id);
    SampledAfter(p.samples, p.links, id, Taken(p, id).links[id]);
    SameSlotsInv(p, Taken(p, id), Some(id), id, k, hole);
  }

  lemma TakenBooks(p: Pool, id: LinkId)
    requires Named(p, id) && |p.links[id].received| >= |p.cfg.message|
    requires Books(p) && Connects(p) && Attempts(p)
    ensures var q := Taken(p, id); Books(q) && Connects(q) && Attempts(q)
  {
    LinkTotals(p.links, id, Taken(p, id).links[id]);
  }

  lemma MismatchKeepsInv(p: Pool, id: LinkId, k: int, hole: int)
    requires Core(p, Some(id)) && Rest(p, k, hole) && id < |p.links| && InUse(p.links[id])
    ensures Named(p, id) && Core(OnEchoMismatch(p, id), None) && Rest(OnEchoMismatch(p, id), k, hole)
  {
    hide Core, Rest, Books, Connects, LetGo, Matching, Places, Paced;
    CoreAt(p, Some(id), id);
    var n := p.n.(echoMismatch := p.n.echoMismatch + 1);
    var slot := p.slots[p.links[id].slot];
    LetGoKeepsCore(p, id, n, true, slot.active == Some(id));
    LetGoKeepsRest(p, id, n, true, slot.active == Some(id), k, hole);
  }

  lemma EchoedOwes(p: Pool, id: LinkId)
    requires Named(p, id) && p.links[id].inflight != []
    ensures Gather(Echoed(p, id).links, Owes) + multiset{p.links[id].inflight[0].id} == Gather(p.links, Owes)
  {
    var l := p.links[id];
    assert Owes(l) == multiset{l.inflight[0].id} + Ids(l.inflight[1..]);
    GatherUpdate(p.links, Owes, id, Echoed(p, id).links[id]);
  }

  lemma EchoedBooks(p: Pool, id: LinkId)
    requires Named(p, id) && p.links[id].inflight != [] && p.cfg.expectEcho && Books(p)
    ensures Books(Echoed(p, id))
  {
    EchoedOwes(p, id);
    hide Gather, Ids, Below;
  }

  lemma EchoedConnects(p: Pool, id: LinkId)
    requires Named(p, id) && p.links[id].inflight != [] && Connects(p) && Attempts(p)
    ensures var q := Echoed(p, id); Connects(q) && Attempts(q)
  {
    LinkTotals(p.links, id, Echoed(p, id).links[id]);
  }

  lemma EchoedSamples(p: Pool, id: LinkId)
    requires Named(p, id) && p.links[id].inflight != [] && Sampled(p.samples, p.links)
    ensures var q := Echoed(p, id); Sampled(q.samples, q.links)
  {
  }

  /** One more exact copy of the message at the front of what came back. */
  lemma EchoedMatches(cfg: Config, l: Link, l1: Link)
    requires Matching(cfg, l) && cfg.expectEcho && l.inflight != []
    requires |l.received| >= |cfg.message| && l.received[..|cfg.message|] == cfg.message
    requires l1 == l.(received := l.received[|cfg.message|..], inflight := l.inflight[1..], echoed := l.echoed + 1)
    ensures Matching(cfg, l1) && Repeat(cfg.message, l1.echoed) <= l1.returned && l1.echoed <= l1.sent
  {
    assert l.received == cfg.message + l1.received;
    assert l1.returned == Repeat(cfg.message, l.echoed) + cfg.message + l1.received;
  }

  lemma EchoedKeepsInv(p: Pool, id: LinkId, k: int, hole: int)
    requires Core(p, Some(id)) && Rest(p, k, hole) && p.prepared && id < |p.links|
    requires p.cfg.expectEcho && p.links[id].inflight != [] && InUse(p.links[id])
    requires var l := p.links[id]; LinkBase(p.cfg, l.(inflight := l.inflight[1..], echoed := l.echoed + 1))
    ensures Named(p, id) && Core(Echoed(p, id), Some(id)) && Rest(Echoed(p, id), k, hole)
  {
    assert Attempts(p);
    hide Core, Rest, Books, Connects, Attempts, Sampled, LinkOk, LinkBase;
    CoreAt(p, Some(id), id);
    EchoedBooks(p, id);
    EchoedConnects(p, id);
    EchoedSamples(p, id);
    SameSlotsInv(p, Echoed(p, id), Some(id), id, k, hole);
  }

  lemma EchoStepKeepsInv(p: Pool, id: LinkId, flushed: bool, k: int, hole: int)
    requires Core(p, None) && Rest(p, k, hole) && p.prepared && id < |p.links|
    requires p.cfg.expectEcho && InUse(p.links[id]) && |p.links[id].received| >= |p.cfg.message|
    ensures Named(p, id)
    ensures Core(EchoStep(p, id, flushed), None) && Rest(EchoStep(p, id, flushed), k, hole)
    ensures EchoStep(p, id, flushed).prepared
  {
    hide Core, Rest, Books, Connects, Places, Paced, OnEchoMismatch, Echoed, LetGo;
    CoreAt(p, None, id);
    var l := p.links[id];
    var t := Taken(p, id);
    TakenKeepsInv(p, id, k, hole);
    if l.received[..|p.cfg.message|] != p.cfg.message || l.inflight == [] {
      MismatchKeepsInv(t, id, k, hole);
      MismatchFrame(t, id);
    } else {
      MatchKeepsInv(t, id, l, flushed, k, hole);
    }
  }

  lemma MismatchFrame(p: Pool, id: LinkId)
    requires Named(p, id)
    ensures OnEchoMismatch(p, id).prepared == p.prepared
  {
  }

  /** `t` is the pool with one message's worth of bytes taken off what link `l` had received. */
  lemma MatchKeepsInv(t: Pool, id: LinkId, l: Link, flushed: bool, k: int, hole: int)
    requires Core(t, Some(id)) && Rest(t, k, hole) && t.prepared && Named(t, id)
    requires t.cfg.expectEcho && InUse(l) && |l.received| >= |t.cfg.message|
    requires t.links[id] == l.(received := l.received[|t.cfg.message|..])
    requires LinkOk(t.cfg, l) && LinkBase(t.cfg, l)
    requires l.received[..|t.cfg.message|] == t.cfg.message && l.inflight != []
    ensures var q := Echoed(t, id);
            var r := if q.links[id].state == Retiring && q.links[id].inflight == []
                     then CloseLink(q, id, flushed) else q;
            Core(r, None) && Rest(r, k, hole) && r.prepared
  {
    hide Core, Rest, Books, Connects, Places, Paced, LetGo, Repeat;
    var q := Echoed(t, id);
    EchoedMatches(t.cfg, l, q.links[id]);
    EchoedKeepsInv(t, id, k, hole);
    CoreAt(q, Some(id), id);
    if q.links[id].state == Retiring && q.links[id].inflight == [] {
      CloseKeepsInv(q, id, flushed, k, hole);
    } else {
      CoreRestored(q, id);
    }
  }

  lemma CloseKeepsInv(p: Pool, id: LinkId, raised: bool, k: int, hole: int)
    requires Core(p, Some(id)) && Rest(p, k, hole) && id < |p.links| && p.links[id].state == Retiring
    ensures Named(p, id) && Core(CloseLink(p, id, raised), None) && Rest(CloseLink(p, id, raised), k, hole)
    ensures CloseLink(p, id, raised).prepared == p.prepared
  {
    hide Core, Rest, Books, Connects, Places, Paced;
    CoreAt(p, Some(id), id);
    LetGoKeepsCore(p, id, p.n, raised, false);
    LetGoKeepsRest(p, id, p.n, raised, false, k, hole);
  }

  lemma {:induction false} DrainKeepsInv(p: Pool, id: LinkId, flushed: bool, k: int, hole: int)
    requires Core(p, None) && Rest(p, k, hole) && p.prepared && Named(p, id)
    requires p.cfg.expectEcho && p.cfg.message != []
    ensures Core(Drain(p, id, flushed), None) && Rest(Drain(p, id, flushed), k, hole)
    decreases |p.links[id].received|
  {
    hide Core, Rest, EchoStep;
    if |p.links[id].received| >= |p.cfg.message| && InUse(p.links[id]) {
      EchoStepKeepsInv(p, id, flushed, k, hole);
      DrainKeepsInv(EchoStep(p, id, flushed), id, flushed, k, hole);
    }
  }

  lemma BufferedBooks(p: Pool, id: LinkId, bytes: seq<byte>)
    requires Named(p, id) && Books(p) && Connects(p) && Attempts(p)
    ensures var q := Buffered(p, id, bytes); Books(q) && Connects(q) && Attempts(q)
  {
    LinkTotals(p.links, id, Buffered(p, id, bytes).links[id]);
  }

  lemma BufferedMatches(cfg: Config, l: Link, bytes: seq<byte>)
    requires LinkBase(cfg, l) && LinkOk(cfg, l) && InUse(l)
    ensures var m := l.(received := l.received + bytes, returned := l.returned + bytes);
            LinkBase(cfg, m) && LinkOk(cfg, m)
  {
    assert Repeat(cfg.message, l.echoed) + l.received + bytes == Repeat(cfg.message, l.echoed) + (l.received + bytes);
  }

  lemma BufferedKeepsInv(p: Pool, id: LinkId, bytes: seq<byte>, k: int, hole: int)
    requires Core(p, None) && Rest(p, k, hole) && p.prepared && id < |p.links| && InUse(p.links[id])
    ensures Named(p, id) && Core(Buffered(p, id, bytes), None) && Rest(Buffered(p, id, bytes), k, hole)
  {
    assert Attempts(p);
    hide Core, Rest, Books, Connects, Attempts, Sampled, LinkOk, LinkBase;
    CoreAt(p, None, id);
    var q := Buffered(p, id, bytes);
    BufferedBooks(p, id, bytes);
    BufferedMatches(p.cfg, p.links[id], bytes);
    SampledAfter(p.samples, p.links, id, q.links[id]);
    SameSlotsInv(p, q, None, id, k, hole);
  }

  lemma DataKeepsInv(p: Pool, id: LinkId, bytes: seq<byte>, flushed: bool, k: int, hole: int)
    requires Core(p, None) && Rest(p, k, hole) && p.prepared && id < |p.links|
    ensures Named(p, id) && (p.cfg.expectEcho ==> p.cfg.message != [])
    ensures Core(OnData(p, id, bytes, flushed), None) && Rest(OnData(p, id, bytes, flushed), k, hole)
  {
    assert p.cfg.expectEcho ==> p.cfg.message != [];
    NamedInCore(p, id);
    hide Core, Rest, Drain;
    if p.cfg.expectEcho && InUse(p.links[id]) {
      BufferedKeepsInv(p, id, bytes, k, hole);
      DrainKeepsInv(Buffered(p, id, bytes), id, flushed, k, hole);
    }
  }

  // ----- prepare() and finish() -----

  lemma FirstOpenFrame(p: Pool, s: nat, outcome: Outcome)
    requires s < |p.slots| && p.slots[s].standby.None?
    ensures var q := OpenLink(p, s, false, true, outcome);
            && |q.links| <= |p.links| + 1
            && (forall t | 0 <= t < |p.slots| && t != s :: q.slots[t] == p.slots[t])
  {
  }

  lemma {:induction false} OpenAllKeepsInv(p: Pool, outcomes: seq<Outcome>)
    requires Core(p, None) && Rest(p, 0, -1) && p.prepared && !p.finished && !p.ended && p.links == []
    requires |outcomes| <= |p.slots|
    requires forall s | 0 <= s < |p.slots| :: p.slots[s].active.None? && p.slots[s].standby.None?
    ensures var q := OpenAll(p, outcomes);
            && Core(q, None) && Rest(q, |outcomes|, -1) && |q.links| <= |outcomes|
            && (forall s | |outcomes| <= s < |q.slots| :: q.slots[s] == p.slots[s])
  {
    hide Rest, OpenLink, Placed, LinksOk, SlotsOk, RetriesOk, Books, Connects, Sampled;
    if outcomes != [] {
      var k := |outcomes| - 1;
      OpenAllKeepsInv(p, outcomes[..k]);
      var q := OpenAll(p, outcomes[..k]);
      OpenLinkKeepsInv(q, k, false, true, outcomes[k], k, -1, k + 1, -1);
      FirstOpenFrame(q, k, outcomes[k]);
    }
  }

  /** Before prepare() no slot holds a link. */
  lemma NothingPlaced(p: Pool)
    requires Core(p, None) && p.links == []
    ensures forall s | 0 <= s < |p.slots| :: p.slots[s].active.None? && p.slots[s].standby.None?
  {
    forall s | 0 <= s < |p.slots|
      ensures p.slots[s].active.None? && p.slots[s].standby.None?
    {
      assert RolesOk(p.links, p.slots[s], p.finished);
    }
  }

  lemma PrepareKeepsInv(p: Pool, outcomes: seq<Outcome>)
    requires Inv(p) && !p.prepared && !p.finished && |outcomes| == |p.slots|
    ensures Inv(OpenAll(p.(prepared := true), outcomes))
  {
    NothingPlaced(p);
    OpenAllKeepsInv(p.(prepared := true), outcomes);
  }

  lemma {:induction false} LinksComplete(slots: seq<Slot>, s: nat, id: LinkId)
    requires s < |slots| && Places(slots[s], id) > 0
    ensures id in Links(slots)
  {
    if s == |slots| - 1 {
      assert id in OfSlot(slots[s]);
    } else {
      LinksComplete(slots[..|slots| - 1], s, id);
    }
  }

  /** A link that is not closed is among those that finish() looks at. */
  lemma UnclosedIsListed(p: Pool, id: LinkId)
    requires Core(p, None) && id < |p.links| && p.links[id].state != Closed
    ensures id in Links(p.slots)
  {
    var s := p.links[id].slot;
    assert LinkOk(p.cfg, p.links[id]) && LinkBase(p.cfg, p.links[id]);
    assert Places(p.slots[s], id) == PlacesOwed(p.links, s, id) == 1;
    LinksComplete(p.slots, s, id);
  }

  lemma RetriesOffKeepsCore(p: Pool)
    requires Core(p, None) && !p.finished
    ensures Core(p.(finished := true, slots := RetriesOff(p.slots)), None)
  {
    var q := p.(finished := true, slots := RetriesOff(p.slots));
    assert Books(q) && Connects(q);
    hide Books, Connects, LinksOk, Sampled, PlacesOwed;
    forall s | 0 <= s < |p.slots|
      ensures RolesOk(q.links, q.slots[s], true)
      ensures Paced(q.slots[s].retry, q.now)
    {
      assert RolesOk(p.links, p.slots[s], false);
      CallOffKeepsPace(p.slots[s].retry, p.now);
    }
    hide Paced;
    forall s, id: LinkId | 0 <= s < |q.slots|
      ensures Places(q.slots[s], id) == PlacesOwed(q.links, s, id)
    {
      assert Places(p.slots[s], id) == PlacesOwed(p.links, s, id);
    }
  }

  /** Only history and a counter that nothing else depends on change. */
  lemma CountedCore(p: Pool, dropped: nat, incomplete: nat)
    requires Core(p, None)
    ensures Core(p.(dropped := dropped, n := p.n.(drainIncomplete := incomplete)), None)
  {
    hide Placed, LinksOk, SlotsOk, RetriesOk, Sampled;
  }

  lemma DropKeepsCore(p: Pool, id: LinkId)
    requires Core(p, None) && Attempts(p) && id < |p.links| && p.links[id].state == Connecting
    ensures Named(p, id)
    ensures var q := CloseLink(p.(dropped := p.dropped + 1), id, true);
            && Core(q, None) && Attempts(q) && q.links == p.links[id := q.links[id]] && q.links[id].state == Closed
  {
    hide Core, Books, Connects, Paced, Places, LinkOk, RolesOk, Sampled;
    CoreAt(p, None, id);
    CountedCore(p, p.dropped + 1, p.n.drainIncomplete);
    var p1 := p.(dropped := p.dropped + 1);
    assert p1 == p.(dropped := p.dropped + 1, n := p.n.(drainIncomplete := p.n.drainIncomplete));
    CoreAt(p1, None, id);
    LetGoKeepsCore(p1, id, p1.n, true, false);
    LetGoBooks(p1, id, p1.n, true, false);
  }

  lemma {:induction false} DropConnectingKeepsCore(p: Pool, ids: seq<LinkId>)
    requires Core(p, None) && Attempts(p)
    ensures var q := DropConnecting(p, ids);
            && Core(q, None) && Attempts(q) && |q.links| == |p.links|
            && (forall id | 0 <= id < |q.links| && q.links[id].state == Connecting :: p.links[id].state == Connecting)
            && (forall id | id in ids && id < |q.links| :: q.links[id].state != Connecting)
  {
    hide Core, Attempts, CloseLink;
    if ids != [] {
      var q := DropConnecting(p, ids[..|ids| - 1]);
      var id := ids[|ids| - 1];
      DropConnectingKeepsCore(p, ids[..|ids| - 1]);
      if Named(q, id) && q.links[id].state == Connecting {
        DropKeepsCore(q, id);
      } else if id < |q.links| {
        NamedInCore(q, id);
      }
    }
  }

  lemma NamedInCore(p: Pool, id: LinkId)
    requires Core(p, None) && id < |p.links|
    ensures Named(p, id)
  {
  }

  lemma FinishBeginKeepsInv(p: Pool)
    requires Inv(p)
    ensures Inv(OnFinishBegin(p))
  {
    if !p.finished {
      var p1 := p.(finished := true, slots := RetriesOff(p.slots));
      assert Attempts(p1) && !p1.ended;
      RetriesOffKeepsCore(p);
      hide Core, Attempts, RetriesOff;
      DropConnectingKeepsCore(p1, Links(p1.slots));
      var q := DropConnecting(p1, Links(p1.slots));
      forall id | 0 <= id < |q.links|
        ensures q.links[id].state != Connecting
      {
        if q.links[id].state == Connecting {
          UnclosedIsListed(p1, id);
        }
      }
    }
  }

  ghost predicate Closing(p: Pool) {
    Core(p, None) && Attempts(p) && p.finished && NoneConnecting(p.links)
  }

  lemma CloseOneKeeps(p: Pool, id: LinkId, raised: bool)
    requires Closing(p) && id < |p.links|
    ensures Named(p, id)
    ensures var q := ClosedForGood(p, id, raised);
            && Closing(q) && q.links == p.links[id := q.links[id]] && q.links[id].state == Closed
  {
    hide Core, Books, Connects, Paced, Places, LinkOk, Sampled, CloseLink;
    CoreAt(p, None, id);
    var incomplete := if p.links[id].inflight != [] then p.n.drainIncomplete + 1 else p.n.drainIncomplete;
    CountedCore(p, p.dropped, incomplete);
    var q1 := p.(n := p.n.(drainIncomplete := incomplete));
    assert q1 == p.(dropped := p.dropped, n := p.n.(drainIncomplete := incomplete));
    CloseKeeps(q1, id, raised);
  }

  lemma CloseKeeps(p: Pool, id: LinkId, raised: bool)
    requires Closing(p) && id < |p.links|
    ensures Named(p, id)
    ensures var q := CloseLink(p, id, raised);
            Closing(q) && q.links == p.links[id := q.links[id]] && q.links[id].state == Closed
  {
    hide Core, Books, Connects, Paced, Places, LinkOk, Sampled;
    CoreAt(p, None, id);
    if p.links[id].state != Closed {
      LetGoKeepsCore(p, id, p.n, raised, false);
      LetGoBooks(p, id, p.n, raised, false);
    }
  }

  lemma {:induction false} CloseEachKeeps(p: Pool, ids: seq<LinkId>, flushed: set<LinkId>)
    requires Closing(p)
    ensures var q := CloseEach(p, ids, flushed);
            && Closing(q) && |q.links| == |p.links|
            && (forall id | 0 <= id < |q.links| && q.links[id].state != Closed :: p.links[id].state != Closed)
            && (forall id | id in ids && id < |q.links| :: q.links[id].state == Closed)
  {
    hide Closing, ClosedForGood;
    if ids != [] {
      var q := CloseEach(p, ids[..|ids| - 1], flushed);
      var id := ids[|ids| - 1];
      CloseEachKeeps(p, ids[..|ids| - 1], flushed);
      if id < |q.links| {
        CloseOneKeeps(q, id, id in flushed);
      }
    }
  }

  lemma EndedCore(p: Pool)
    requires Core(p, None) && Attempts(p) && p.finished
    ensures Core(p.(ended := true), None) && Attempts(p.(ended := true))
  {
    hide Placed, LinksOk, SlotsOk, RetriesOk, Sampled;
  }

  lemma FinishEndKeepsInv(p: Pool, flushed: set<LinkId>)
    requires Inv(p) && p.finished && !p.ended
    ensures Inv(OnFinishEnd(p, flushed)) && AllClosed(OnFinishEnd(p, flushed).links)
  {
    var q := CloseEach(p, Links(p.slots), flushed);
    hide Core, Attempts;
    CloseEachKeeps(p, Links(p.slots), flushed);
    forall id | 0 <= id < |q.links|
      ensures q.links[id].state == Closed
    {
      if q.links[id].state != Closed {
        UnclosedIsListed(p, id);
      }
    }
    EndedCore(q);
  }
}
