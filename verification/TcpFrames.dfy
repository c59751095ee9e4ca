/** What the TCP client's events leave alone: only a send, a read and a close touch the traffic of a link. */
module TcpFrames {
  import opened Tally
  import opened TcpBackoff
  import opened TcpPool

  /** A link on which nothing is sent or read; once closed it stays closed. */
  predicate Quiet(l: Link, m: Link) {
    && m.received == l.received && m.returned == l.returned && m.echoed == l.echoed && m.sent == l.sent
    && (m.inflight == l.inflight || (m.state == Closed && m.inflight == []))
    && (l.state == Closed ==> m.state == Closed)
  }

  predicate Fresh(l: Link) {
    l.received == [] && l.returned == [] && l.echoed == 0 && l.sent == 0 && l.inflight == []
  }

  ghost predicate AllQuiet(links: seq<Link>, after: seq<Link>) {
    && |links| <= |after|
    && (forall id | 0 <= id < |links| :: Quiet(links[id], after[id]))
    && (forall id | |links| <= id < |after| :: Fresh(after[id]))
  }

  /** The counters of messages. */
  predicate SameTraffic(n: Counters, m: Counters) {
    && m.messagesSent == n.messagesSent && m.messagesReceived == n.messagesReceived
    && m.deferred == n.deferred && m.unavailable == n.unavailable && m.echoMismatch == n.echoMismatch
  }

  /** No message is sent, turned away or echoed. */
  ghost predicate Still(p: Pool, q: Pool) {
    AllQuiet(p.links, q.links) && q.samples == p.samples && q.succeeded == p.succeeded && SameTraffic(p.n, q.n)
  }

  predicate Alike(p: Pool, q: Pool) {
    q.links == p.links && q.samples == p.samples && q.succeeded == p.succeeded && SameTraffic(p.n, q.n)
  }

  lemma QuietTwice(a: seq<Link>, b: seq<Link>, c: seq<Link>)
    requires AllQuiet(a, b) && AllQuiet(b, c)
    ensures AllQuiet(a, c)
  {
    forall id | |a| <= id < |c|
      ensures Fresh(c[id])
    {
      assert id < |b| ==> Quiet(b[id], c[id]);
    }
  }

  lemma StillTwice(p: Pool, q: Pool, r: Pool)
    requires Still(p, q) && Still(q, r)
    ensures Still(p, r)
  {
    QuietTwice(p.links, q.links, r.links);
    hide AllQuiet;
  }

  lemma StillFrom(p: Pool, like: Pool, q: Pool)
    requires Alike(p, like) && Still(like, q)
    ensures Still(p, q)
  {
    hide AllQuiet;
  }

  lemma StillAlike(p: Pool, q: Pool)
    requires Alike(p, q)
    ensures Still(p, q)
  {
  }

  lemma LetGoStill(p: Pool, id: LinkId, n: Counters, release: bool, retry: bool)
    requires Named(p, id) && SameTraffic(p.n, n)
    ensures Still(p, LetGo(p, id, n, release, retry))
  {
    hide TakeOut, Rescheduled, HasPlace, Ids;
  }

  lemma CloseStill(p: Pool, id: LinkId, raised: bool)
    requires Named(p, id)
    ensures Still(p, CloseLink(p, id, raised))
  {
    hide LetGo, Still;
    StillAlike(p, p);
    LetGoStill(p, id, p.n, raised, false);
  }

  lemma OnClosedStill(p: Pool, id: LinkId)
    requires Named(p, id)
    ensures Still(p, OnClosed(p, id))
  {
    hide LetGo, Still;
    var l := p.links[id];
    var slot := p.slots[l.slot];
    LetGoStill(p, id, CountClose(p.n, l.state), true,
               l.state != Closed && (slot.active == Some(id) || slot.standby == Some(id)));
  }

  lemma ArrivedStill(p: Pool, id: LinkId, n: Counters)
    requires Named(p, id) && p.links[id].state == Connecting && SameTraffic(p.n, n)
    ensures Still(p, Arrived(p, id, n))
  {
  }

  lemma RetiredStill(p: Pool, s: nat)
    requires s < |p.slots| && p.slots[s].active.Some? && Named(p, p.slots[s].active.value)
    ensures Still(p, Retired(p, s))
  {
  }

  lemma RetiredKeeps(p: Pool, s: nat, id: LinkId)
    requires s < |p.slots| && p.slots[s].active.Some? && Named(p, p.slots[s].active.value)
    requires Named(p, id) && p.links[id].state == Connecting
    ensures var r := Retired(p, s);
      && r.n == p.n && Named(r, id) && r.links[id].state == Connecting && |r.links| == |p.links|
      && r.links[id].slot == p.links[id].slot
      && forall i | 0 <= i < |p.links| :: r.links[i].slot == p.links[i].slot
  {
  }

  lemma TakenOverStill(p: Pool, id: LinkId, n: Counters)
    requires Named(p, id) && p.links[id].state == Connecting && SameTraffic(p.n, n)
    ensures Still(p, TakenOver(p, id, n))
  {
    hide Still, Arrived;
    ArrivedStill(p, id, n);
    StillTakenOver(p, Arrived(p, id, n), TakenOver(p, id, n));
  }

  lemma StillTakenOver(p: Pool, q: Pool, r: Pool)
    requires Still(p, q) && Alike(q, r)
    ensures Still(p, r)
  {
    hide AllQuiet;
  }

  lemma TakenOverNamed(p: Pool, id: LinkId, n: Counters, worn: LinkId)
    requires Named(p, id) && Named(p, worn)
    ensures Named(TakenOver(p, id, n), worn)
  {
  }

  lemma RotatedStill(p: Pool, id: LinkId, flushed: bool)
    requires Named(p, id) && p.links[id].state == Connecting
    requires var a := p.slots[p.links[id].slot].active; a.Some? && Named(p, a.value)
    ensures Still(p, Rotated(p, id, flushed))
  {
    hide Still, Retired, TakenOver, CloseLink;
    var s := p.links[id].slot;
    var worn := p.slots[s].active.value;
    var r := Retired(p, s);
    var n := p.n.(rotated := p.n.rotated + 1);
    RetiredStill(p, s);
    RetiredKeeps(p, s, id);
    TakenOverStill(r, id, n);
    TakenOverNamed(r, id, n, worn);
    var q := TakenOver(r, id, n);
    StillTwice(p, r, q);
    CloseStill(q, worn, flushed);
    StillTwice(p, q, CloseLink(q, worn, flushed));
  }

  lemma ConnectedStill(p: Pool, id: LinkId, flushed: bool)
    requires Named(p, id)
    requires var a := p.slots[p.links[id].slot].active; a.Some? ==> Named(p, a.value)
    ensures Still(p, OnConnected(p, id, flushed))
  {
    hide Still, Rotated, Arrived, TakenOver;
    var l := p.links[id];
    StillAlike(p, p);
    if l.state == Connecting {
      ArrivedStill(p, id, if l.initial then p.n else p.n.(reconnects := p.n.reconnects + 1));
      TakenOverStill(p, id, p.n.(reconnects := p.n.reconnects + 1));
      if p.slots[l.slot].active.Some? {
        RotatedStill(p, id, flushed);
      }
    }
  }

  lemma BegunStill(p: Pool, s: nat, standby: bool, initial: bool)
    requires s < |p.slots|
    requires standby && p.slots[s].active.Some? ==> Named(p, p.slots[s].active.value)
    ensures var b, id := Begun(p, s, standby, initial), |p.links|;
      && Still(p, b) && Named(b, id) && b.links[id].slot == s
      && (b.slots[s].active.Some? ==> Named(b, b.slots[s].active.value))
  {
  }

  lemma NoConnectionStill(p: Pool, s: nat)
    requires s < |p.slots|
    ensures Still(p, OpenLink(p, s, false, false, NoConnection))
  {
  }

  lemma OpenStill(p: Pool, s: nat, standby: bool, initial: bool, outcome: Outcome)
    requires s < |p.slots|
    requires standby && p.slots[s].active.Some? ==> Named(p, p.slots[s].active.value)
    ensures Still(p, OpenLink(p, s, standby, initial, outcome))
  {
    hide Still, Begun, OnConnected, OnClosed, ScheduleRetry;
    var b, id := Begun(p, s, standby, initial), |p.links|;
    BegunStill(p, s, standby, initial);
    match outcome
    case NoConnection => NoConnectionStill(p, s);
    case Pending =>
    case FailedNow =>
      OnClosedStill(b, id);
      StillTwice(p, b, OnClosed(b, id));
    case ConnectedNow(flushed) =>
      ConnectedStill(b, id, flushed);
      StillTwice(p, b, OnConnected(b, id, flushed));
  }

  lemma ConnectNextStill(p: Pool, s: nat, outcome: Outcome)
    requires s < |p.slots|
    requires p.slots[s].active.Some? ==> Named(p, p.slots[s].active.value)
    ensures Still(p, ConnectNext(p, s, outcome))
  {
    hide Still, OpenLink;
    StillAlike(p, p);
    OpenStill(p, s, true, false, outcome);
    OpenStill(p, s, false, false, outcome);
  }

  lemma {:induction false} OpenAllStill(p: Pool, outcomes: seq<Outcome>)
    requires |outcomes| <= |p.slots|
    ensures Still(p, OpenAll(p, outcomes))
    decreases |outcomes|
  {
    hide Still, OpenLink;
    StillAlike(p, p);
    if outcomes != [] {
      var k := |outcomes| - 1;
      var q := OpenAll(p, outcomes[..k]);
      OpenAllStill(p, outcomes[..k]);
      OpenStill(q, k, false, true, outcomes[k]);
      StillTwice(p, q, OpenLink(q, k, false, true, outcomes[k]));
    }
  }

  lemma {:induction false} DropStill(p: Pool, ids: seq<LinkId>)
    ensures Still(p, DropConnecting(p, ids))
    decreases |ids|
  {
    hide Still, CloseLink;
    StillAlike(p, p);
    if ids != [] {
      var q := DropConnecting(p, ids[..|ids| - 1]);
      var id := ids[|ids| - 1];
      DropStill(p, ids[..|ids| - 1]);
      if Named(q, id) {
        var q1 := q.(dropped := q.dropped + 1);
        CloseStill(q1, id, true);
        StillFrom(q, q1, CloseLink(q1, id, true));
        StillTwice(p, q, CloseLink(q1, id, true));
      }
    }
  }

  lemma {:induction false} CloseEachStill(p: Pool, ids: seq<LinkId>, flushed: set<LinkId>)
    ensures Still(p, CloseEach(p, ids, flushed))
    decreases |ids|
  {
    hide Still, CloseLink;
    StillAlike(p, p);
    if ids != [] {
      var q := CloseEach(p, ids[..|ids| - 1], flushed);
      var id := ids[|ids| - 1];
      CloseEachStill(p, ids[..|ids| - 1], flushed);
      if Named(q, id) {
        var q1 := if q.links[id].inflight != [] then q.(n := q.n.(drainIncomplete := q.n.drainIncomplete + 1)) else q;
        CloseStill(q1, id, id in flushed);
        StillFrom(q, q1, CloseLink(q1, id, id in flushed));
        StillTwice(p, q, CloseLink(q1, id, id in flushed));
      }
    }
  }

  lemma TimerStill(p: Pool, id: LinkId)
    requires Named(p, id)
    ensures Still(p, OnTimer(p, id))
  {
    var l := p.links[id];
    assert Still(p, p.(links := p.links[id := l.(timerArmed := false)]));
    hide Still, LetGo, CloseLink;
    LetGoStill(p, id, p.n.(connectFailures := p.n.connectFailures + 1), true, true);
    CloseStill(p, id, true);
  }

  lemma WatermarkStill(p: Pool, id: LinkId, blocked: bool)
    requires Named(p, id)
    ensures Still(p, OnWatermark(p, id, blocked))
  {
  }

  lemma RetryStill(p: Pool, s: nat, outcome: Outcome)
    requires s < |p.slots|
    requires p.slots[s].active.Some? ==> Named(p, p.slots[s].active.value)
    ensures Still(p, OnRetryTimer(p, s, outcome))
  {
    hide Still, ConnectNext, Fire;
    var p1 := p.(slots := p.slots[s := p.slots[s].(retry := Fire(p.slots[s].retry, p.now))]);
    ConnectNextStill(p1, s, outcome);
    StillFrom(p, p1, ConnectNext(p1, s, outcome));
  }

  lemma FinishStill(p: Pool, flushed: set<LinkId>)
    ensures Still(p, OnFinishBegin(p)) && Still(p, OnFinishEnd(p, flushed))
  {
    hide Still, DropConnecting, CloseEach, RetriesOff;
    StillAlike(p, p);
    var p1 := p.(finished := true, slots := RetriesOff(p.slots));
    DropStill(p1, Links(p1.slots));
    StillFrom(p, p1, DropConnecting(p1, Links(p1.slots)));
    CloseEachStill(p, Links(p.slots), flushed);
    var q := CloseEach(p, Links(p.slots), flushed);
    StillTakenOver(p, q, q.(ended := true));
  }

  /** Every event but a send and a read. */
  lemma StepStill(p: Pool, e: Event)
    requires Enabled(p, e) && ActiveNamed(p) && (p.cfg.expectEcho ==> p.cfg.message != []) && !e.Data? && !e.Send?
    ensures Still(p, Step(p, e))
  {
    hide Still, OpenAll, OnConnected, OnClosed, OnTimer, OnRetryTimer, OnWatermark, OnFinishBegin, OnFinishEnd;
    match e
    case Prepare(outcomes) =>
      var p1 := p.(prepared := true);
      OpenAllStill(p1, outcomes);
      StillFrom(p, p1, OpenAll(p1, outcomes));
    case Connected(id, flushed) => ConnectedStill(p, id, flushed);
    case CloseRaised(id) => OnClosedStill(p, id);
    case LinkTimer(id) => TimerStill(p, id);
    case RetryTimer(s, outcome) => RetryStill(p, s, outcome);
    case Watermark(id, blocked) => WatermarkStill(p, id, blocked);
    case FinishBegin => FinishStill(p, {});
    case FinishEnd(flushed) => FinishStill(p, flushed);
    case Elapse(_) => StillAlike(p, Step(p, e));
    case SetMeasure(_) => StillAlike(p, Step(p, e));
    case _ =>
  }

  // ----- Sending -----

  /** Whose turn it is: the active link of the next slot, if it is open. */
  function OpenNext(p: Pool): Option<LinkId> {
    if p.nextSlot < |p.slots| && p.slots[p.nextSlot].active.Some?
       && Named(p, p.slots[p.nextSlot].active.value) && p.links[p.slots[p.nextSlot].active.value].state == Open
    then p.slots[p.nextSlot].active else None
  }

  /** The link that the next message is written on, if it is written at all: it takes writes, and waits for
      fewer echoes than it may. */
  function Sender(p: Pool): Option<LinkId> {
    var a := OpenNext(p);
    if a.Some? && Named(p, a.value) && !p.links[a.value].writeBlocked && |p.links[a.value].inflight| < p.cfg.maxInflight
    then a else None
  }

  lemma WrittenIs(p: Pool, id: LinkId)
    requires |p.slots| > 0 && Named(p, id)
    ensures var l, q := p.links[id], Written(p, id);
      && q.links == p.links[id := q.links[id]] && Named(q, id) && q.slots == p.slots
      && q.links[id] == l.(sent := l.sent + 1,
                           inflight := if p.cfg.expectEcho then l.inflight + [Message(p.calls, p.now)] else l.inflight)
      && q.samples == p.samples
      && q.succeeded == (if p.cfg.expectEcho then p.succeeded else p.succeeded + multiset{p.calls})
      && q.n == p.n.(messagesSent := p.n.messagesSent + 1)
  {
  }

  /** A call is written on the sender's link, deferred when its link is open but takes no more, and
      unavailable when there is no open link; nothing else about traffic changes. */
  lemma SendIff(p: Pool, outcome: Outcome)
    requires p.nextSlot < |p.slots| && ActiveNamed(p)
    ensures var q := TryStartRequest(p, outcome);
      && (Sender(p).Some? ==> Named(p, Sender(p).value) && Still(Written(p, Sender(p).value), q))
      && (Sender(p).None? ==> q.links == p.links && q.samples == p.samples && q.succeeded == p.succeeded)
      && q.n.messagesSent == p.n.messagesSent + (if Sender(p).Some? then 1 else 0)
      && q.n.deferred == p.n.deferred + (if OpenNext(p).Some? && Sender(p).None? then 1 else 0)
      && q.n.unavailable == p.n.unavailable + (if OpenNext(p).None? then 1 else 0)
      && q.n.echoMismatch == p.n.echoMismatch
  {
    if Sender(p).Some? {
      var id := Sender(p).value;
      WrittenIs(p, id);
      hide Written, ConnectNext;
      var w := Written(p, id);
      StillAlike(w, w);
      ConnectNextStill(w, p.nextSlot, outcome);
      hide AllQuiet;
    } else {
      hide Written, ConnectNext;
    }
  }
}
