/** The TCP benchmark client as the engine writes it: an object whose callbacks update its slots, links
    and counters in place, step by step. Every method is proved to do exactly what the state machine of
    TcpPool says of its event, so what holds over every run of that machine holds of the object. */
module TcpClient {
  import opened Tally
  import opened TcpBackoff
  import opened TcpPool
  import opened TcpSafety
  import opened TcpRuns

  /** A close event, field by field. */
  lemma ClosedIs(p: Pool, id: LinkId, q: Pool)
    requires Named(p, id)
    requires var l := p.links[id]; var before := p.slots[l.slot];
      && q == p.(links := q.links, slots := q.slots, n := q.n, failed := q.failed, pendingOpens := q.pendingOpens)
      && q.links == p.links[id := Shut(l, HasPlace(before, id))]
      && q.slots == p.slots[l.slot :=
           if l.state != Closed && (before.active == Some(id) || before.standby == Some(id))
           then Rescheduled(TakeOut(before, id), p.finished, p.now) else TakeOut(before, id)]
      && q.n == CountLost(CountClose(p.n, l.state), |l.inflight|)
      && q.failed == p.failed + Ids(l.inflight)
      && q.pendingOpens == p.pendingOpens - (if l.initialPending then 1 else 0)
    ensures q == TcpPool.OnClosed(p, id)
  {
  }

  /** The close event of a link that was marked closed finds nothing more to count or to lose. */
  lemma ShutTwice(p: Pool, id: LinkId, q: Pool)
    requires Named(p, id)
    requires q == p.(links := p.links[id := Shut(p.links[id], false)],
                     n := CountLost(p.n, |p.links[id].inflight|),
                     failed := p.failed + Ids(p.links[id].inflight),
                     pendingOpens := p.pendingOpens - if p.links[id].initialPending then 1 else 0)
    ensures TcpPool.OnClosed(q, id) == LetGo(p, id, p.n, true, false)
  {
    var slot := p.slots[p.links[id].slot];
    Rewritten(p.links, id, Shut(p.links[id], false), Shut(p.links[id], HasPlace(slot, id)));
    hide TakeOut, HasPlace, Ids;
    assert Ids([]) == multiset{} by { ShutOwesNothing(); }
  }

  lemma ShutOwesNothing()
    ensures Ids([]) == multiset{}
  {
  }

  lemma ShutOnce(p: Pool, id: LinkId, q: Pool)
    requires Named(p, id)
    requires q == p.(links := p.links[id := Shut(p.links[id], false)],
                     n := CountLost(p.n, |p.links[id].inflight|),
                     failed := p.failed + Ids(p.links[id].inflight),
                     pendingOpens := p.pendingOpens - if p.links[id].initialPending then 1 else 0)
    ensures LetGo(p, id, p.n, false, false) == q
  {
    Rewritten(p.slots, p.links[id].slot, p.slots[p.links[id].slot], p.slots[p.links[id].slot]);
  }

  /** promote(), in the order the engine takes its steps, up to the close of the link that retires. */
  ghost function Promoted(p: Pool, s: nat): Pool
    requires s < |p.slots| && (p.slots[s].active.Some? ==> Named(p, p.slots[s].active.value))
  {
    var slot := p.slots[s];
    var taken := slot.(active := slot.standby, standby := None, retry := CallOff(slot.retry));
    if slot.active.None? then
      p.(slots := p.slots[s := taken], n := p.n.(reconnects := p.n.reconnects + 1))
    else
      var worn := slot.active.value;
      var l := p.links[worn];
      p.(slots := p.slots[s := taken.(retiring := slot.retiring + [worn])],
         n := p.n.(rotated := p.n.rotated + 1),
         links := if l.state == Open
                  then p.links[worn := l.(state := Retiring, timerArmed := l.inflight != [])] else p.links)
  }

  lemma PromotedKeepsNames(p: Pool, s: nat)
    requires s < |p.slots| && (p.slots[s].active.Some? ==> Named(p, p.slots[s].active.value))
    ensures p.slots[s].active.Some? ==> Named(Promoted(p, s), p.slots[s].active.value)
  {
  }

  lemma ArrivedKeepsPlaces(p: Pool, id: LinkId)
    requires Named(p, id)
    ensures var q := Arrived(p, id, p.n);
      && q.slots == p.slots && Named(q, id) && q.links[id].slot == p.links[id].slot
      && q.links[id].initial == p.links[id].initial
      && (forall i: LinkId | Named(p, i) :: Named(q, i))
      && (forall i: LinkId | i < |p.links| && i != id :: q.links[i] == p.links[i])
  {
  }

  lemma PromotedTakesOver(p: Pool, id: LinkId)
    requires Named(p, id) && p.slots[p.links[id].slot].standby == Some(id)
    requires p.slots[p.links[id].slot].active.None?
    ensures Promoted(Arrived(p, id, p.n), p.links[id].slot)
            == TakenOver(p, id, p.n.(reconnects := p.n.reconnects + 1))
  {
  }

  lemma PromotedRotates(p: Pool, id: LinkId, worn: LinkId)
    requires Named(p, id) && p.slots[p.links[id].slot].standby == Some(id)
    requires p.slots[p.links[id].slot].active == Some(worn) && Named(p, worn) && worn != id
    ensures Promoted(Arrived(p, id, p.n), p.links[id].slot)
            == TakenOver(Retired(p, p.links[id].slot), id, p.n.(rotated := p.n.rotated + 1))
  {
    var s := p.links[id].slot;
    var q := Retired(p, s);
    var a := Arrived(p, id, p.n);
    Rewritten(p.links, worn, p.links[worn], p.links[worn]);
    Swapped(p.links, id, worn, a.links[id], q.links[worn]);
    Rewritten(p.slots, s, q.slots[s], Promoted(a, s).slots[s]);
  }

  /** The active link of a slot, if it is open and waits for nothing. */
  function Idle(slots: seq<Slot>, links: seq<Link>, s: nat): Option<LinkId>
    requires s < |slots| && (slots[s].active.Some? ==> slots[s].active.value < |links|)
  {
    var a := slots[s].active;
    if a.Some? && links[a.value].state == Open && links[a.value].inflight == [] then a else None
  }

  ghost function PromotedFor(p: Pool, s: nat, flushed: bool): Pool
    requires s < |p.slots| && (p.slots[s].active.Some? ==> Named(p, p.slots[s].active.value))
  {
    var idle := Idle(p.slots, p.links, s);
    if idle.Some? then TcpPool.CloseLink(Promoted(p, s), idle.value, flushed) else Promoted(p, s)
  }

  /** A connect of the standby is an arrival and then a promotion. */
  lemma ConnectedIsPromoted(p: Pool, id: LinkId, flushed: bool)
    requires Named(p, id) && p.links[id].state == Connecting
    requires var slot := p.slots[p.links[id].slot];
      && slot.standby == Some(id)
      && (slot.active.Some? ==> Named(p, slot.active.value) && slot.active.value != id)
    ensures TcpPool.OnConnected(p, id, flushed) == PromotedFor(Arrived(p, id, p.n), p.links[id].slot, flushed)
  {
    hide Arrived, Promoted, TakenOver, Retired, TcpPool.CloseLink;
    ArrivedKeepsPlaces(p, id);
    var s := p.links[id].slot;
    if p.slots[s].active.None? {
      PromotedTakesOver(p, id);
    } else {
      PromotedRotates(p, id, p.slots[s].active.value);
    }
  }

  lemma ConnectedIsArrived(p: Pool, id: LinkId, flushed: bool)
    requires Named(p, id) && p.links[id].state == Connecting && p.slots[p.links[id].slot].standby != Some(id)
    requires var a := p.slots[p.links[id].slot].active; a.Some? ==> Named(p, a.value)
    ensures TcpPool.OnConnected(p, id, flushed)
            == var q := Arrived(p, id, p.n);
               if p.links[id].initial then q else q.(n := q.n.(reconnects := q.n.reconnects + 1))
  {
  }

  lemma BegunNames(p: Pool, s: nat, standby: bool, initial: bool)
    requires s < |p.slots| && (standby && p.slots[s].active.Some? ==> Named(p, p.slots[s].active.value))
    requires !standby ==> p.slots[s].standby != Some(|p.links|)
    ensures var q := Begun(p, s, standby, initial);
      && Named(q, |p.links|) && q.links[|p.links|].slot == s
      && (q.slots[s].active.Some? ==> Named(q, q.slots[s].active.value) && q.slots[s].active != q.slots[s].standby)
  {
  }

  lemma WrittenNames(p: Pool, id: LinkId)
    requires |p.slots| > 0 && Named(p, id)
    ensures Named(Written(p, id), id) && Written(p, id).slots == p.slots
  {
  }

  lemma BeforeOpening(p: Pool)
    requires Inv(p) && !p.prepared
    ensures ActiveNamed(p) && (p.cfg.expectEcho ==> p.cfg.message != [])
    ensures forall s | 0 <= s < |p.slots| :: p.slots[s].standby.None?
  {
    NothingPlaced(p);
  }

  lemma EchoedKeepsNames(p: Pool, id: LinkId)
    requires Named(p, id) && p.links[id].inflight != []
    ensures Named(Echoed(p, id), id)
  {
  }

  /** A retry scheduled after a close is one with the close. */
  lemma RetryAfter(p: Pool, id: LinkId, n: Counters)
    requires Named(p, id)
    ensures ScheduleRetry(LetGo(p, id, n, true, false), p.links[id].slot) == LetGo(p, id, n, true, true)
    ensures LetGo(p, id, n, true, false) == LetGo(p.(n := n), id, n, true, false)
  {
    var s := p.links[id].slot;
    Rewritten(p.slots, s, TakeOut(p.slots[s], id), Rescheduled(TakeOut(p.slots[s], id), p.finished, p.now));
  }

  lemma {:induction false} LinksSound(slots: seq<Slot>, id: LinkId)
    requires id in Links(slots)
    ensures exists s | 0 <= s < |slots| :: HasPlace(slots[s], id)
  {
    var k := |slots| - 1;
    if id in Links(slots[..k]) {
      LinksSound(slots[..k], id);
      var s :| 0 <= s < k && HasPlace(slots[..k][s], id);
      assert HasPlace(slots[s], id);
    } else {
      assert HasPlace(slots[k], id);
    }
  }

  ghost predicate AllNamed(p: Pool, ids: seq<LinkId>) {
    forall i | 0 <= i < |ids| :: Named(p, ids[i])
  }

  lemma ListedAreNamed(p: Pool)
    requires Core(p, None)
    ensures AllNamed(p, Links(p.slots))
  {
    var ids := Links(p.slots);
    forall i | 0 <= i < |ids|
      ensures Named(p, ids[i])
    {
      LinksSound(p.slots, ids[i]);
      var s :| 0 <= s < |p.slots| && HasPlace(p.slots[s], ids[i]);
      AtMostOnePlace(p.slots, p.links, s, ids[i]);
      hide RolesOk, LinkOk, Paced, Books, Connects, Sampled, Places;
      assert RolesOk(p.links, p.slots[s], p.finished);
    }
  }

  lemma CloseKeepsNames(p: Pool, id: LinkId, raised: bool, ids: seq<LinkId>)
    requires Named(p, id) && AllNamed(p, ids)
    ensures AllNamed(TcpPool.CloseLink(p, id, raised), ids)
  {
  }

  lemma DropKeepsNames(p: Pool, id: LinkId, ids: seq<LinkId>)
    requires Named(p, id) && AllNamed(p, ids)
    ensures AllNamed(TcpPool.CloseLink(p.(dropped := p.dropped + 1), id, true), ids)
  {
    CloseKeepsNames(p.(dropped := p.dropped + 1), id, true, ids);
  }

  lemma ClosedKeepsNames(p: Pool, id: LinkId, flushed: bool, ids: seq<LinkId>)
    requires Named(p, id) && AllNamed(p, ids)
    ensures AllNamed(ClosedForGood(p, id, flushed), ids)
  {
    CloseKeepsNames(p, id, flushed, ids);
    CloseKeepsNames(p.(n := p.n.(drainIncomplete := p.n.drainIncomplete + 1)), id, flushed, ids);
  }

  lemma OffKeepsCore(p: Pool)
    requires Inv(p) && !p.finished
    ensures Core(p.(finished := true, slots := RetriesOff(p.slots)), None)
  {
    RetriesOffKeepsCore(p);
  }

  lemma RolesApart(p: Pool, s: nat)
    requires Inv(p) && s < |p.slots|
    ensures p.slots[s].active.Some? ==> Named(p, p.slots[s].active.value) && p.slots[s].active != p.slots[s].standby
  {
    assert RolesOk(p.links, p.slots[s], p.finished);
    if p.slots[s].active.Some? {
      NamedInCore(p, p.slots[s].active.value);
    }
  }

  class TcpBenchmarkClient {
    const cfg: Config
    var now: int
    var slots: seq<Slot>
    var links: seq<Link>
    var n: Counters
    var nextSlot: nat
    var pendingOpens: int
    var measure: bool
    var prepared: bool
    var finished: bool
    var ended: bool
    var samples: seq<Sample>
    var connectSamples: seq<int>
    var succeeded: multiset<nat>
    var failed: multiset<nat>
    var calls: nat
    var attempts: nat
    var dropped: nat

    function View(): Pool
      reads this
    {
      Pool(cfg, now, slots, links, n, nextSlot, pendingOpens, measure, prepared, finished, ended,
           samples, connectSamples, succeeded, failed, calls, attempts, dropped)
    }

    constructor (cfg: Config, now: int)
      ensures View() == New(cfg, now)
    {
      this.cfg, this.now := cfg, now;
      slots, links, n := seq(cfg.connections, i => Slot(None, None, [], NEW_RETRY)), [], ZERO;
      nextSlot, pendingOpens, measure, prepared, finished, ended := 0, 0, false, false, false, false;
      samples, connectSamples, succeeded, failed := [], [], multiset{}, multiset{};
      calls, attempts, dropped := 0, 0, 0;
    }

    method InitialAttemptDone(link: Link) returns (after: Link)
      modifies `pendingOpens
      ensures after == link.(initialPending := false)
      ensures pendingOpens == old(pendingOpens) - if link.initialPending then 1 else 0
    {
      after := link;
      if link.initialPending {
        after := link.(initialPending := false);
        pendingOpens := pendingOpens - 1;
      }
    }

    /** Every message the link still owes is lost, oldest first. */
    method CompleteInflight(link: Link) returns (after: Link)
      modifies `n, `failed
      ensures after == link.(inflight := [])
      ensures n == CountLost(old(n), |link.inflight|)
      ensures failed == old(failed) + Ids(link.inflight)
    {
      var queue := link.inflight;
      while queue != []
        invariant |queue| <= |link.inflight|
        invariant n == old(n).(inflightLost := old(n).inflightLost + |link.inflight| - |queue|)
        invariant failed + Ids(queue) == old(failed) + Ids(link.inflight)
        decreases |queue|
      {
        var message := queue[0];
        queue := queue[1..];
        n := n.(inflightLost := n.inflightLost + 1);
        failed := failed + multiset{message.id};
      }
      after := link.(inflight := queue);
    }

    method ScheduleRetry(slot: Slot) returns (after: Slot)
      ensures after == Rescheduled(slot, finished, now)
    {
      after := slot;
      if finished || slot.retry.due.Some? {
        return;
      }
      var backoff := slot.retry.backoff;
      if slot.retry.lastRetry.Some? && now - slot.retry.lastRetry.value >= BACKOFF_STARTS_OVER_AFTER {
        backoff := INITIAL_BACKOFF;
      }
      after := slot.(retry := slot.retry.(due := Some(now + backoff)));
      backoff := if backoff * 2 < MAX_BACKOFF then backoff * 2 else MAX_BACKOFF;
      after := after.(retry := after.retry.(backoff := backoff));
    }

    /** The part of a close that is the same whoever closes: the link is marked closed, its first
        attempt is over, the close is counted as one of a link in state `counted`, and what it owes is
        lost. */
    method MarkClosed(link: Link, counted: LinkState) returns (after: Link)
      modifies `n, `failed, `pendingOpens
      ensures after == Shut(link, false)
      ensures n == CountLost(CountClose(old(n), counted), |link.inflight|)
      ensures failed == old(failed) + Ids(link.inflight)
      ensures pendingOpens == old(pendingOpens) - if link.initialPending then 1 else 0
    {
      hide CountLost, Ids;
      after := link.(state := Closed, timerArmed := false);
      after := InitialAttemptDone(after);
      if counted == Connecting {
        n := n.(connectFailures := n.connectFailures + 1);
      } else if counted == Open || counted == Retiring {
        n := n.(connectionClosed := n.connectionClosed + 1);
      }
      after := CompleteInflight(after);
    }

    /** Takes the link out of the place it has in its slot; a slot that loses a link it used while it was
        not closed before connects again later. */
    method Release(id: LinkId, link: Link, retry: bool)
      requires id < |links| && link.slot < |slots|
      modifies `links, `slots
      ensures var before := old(slots)[link.slot];
        && links == old(links)[id := link.(released := link.released || HasPlace(before, id))]
        && slots == old(slots)[link.slot :=
             if retry && (before.active == Some(id) || before.standby == Some(id))
             then Rescheduled(TakeOut(before, id), finished, now) else TakeOut(before, id)]
    {
      var slot, let, inUse := slots[link.slot], link.(released := true), false;
      WithoutOne(slot.retiring, id);
      if slot.active == Some(id) {
        slot, inUse := slot.(active := None), true;
      } else if slot.standby == Some(id) {
        slot, inUse := slot.(standby := None), true;
      } else if id in slot.retiring {
        slot := slot.(retiring := Without(slot.retiring, id));
      } else {
        let := link;
      }
      hide Rescheduled;
      if retry && inUse {
        slot := ScheduleRetry(slot);
      }
      links := links[id := let];
      slots := slots[link.slot := slot];
    }

    method OnClosed(id: LinkId)
      requires Named(View(), id)
      modifies `links, `slots, `n, `failed, `pendingOpens
      ensures View() == TcpPool.OnClosed(old(View()), id)
    {
      hide TcpPool.OnClosed, TakeOut, HasPlace, Ids, Rescheduled, CountClose, CountLost;
      ghost var p := View();
      var previous := links[id].state;
      var link := MarkClosed(links[id], previous);
      Release(id, link, previous != Closed);
      ClosedIs(p, id, View());
    }

    method CloseLink(id: LinkId, raised: bool)
      requires Named(View(), id)
      modifies `links, `slots, `n, `failed, `pendingOpens
      ensures View() == TcpPool.CloseLink(old(View()), id, raised)
    {
      if links[id].state == Closed {
        return;
      }
      ghost var p := View();
      var link := MarkClosed(links[id], Closed);
      links := links[id := link];
      ShutOnce(p, id, View());
      ShutTwice(p, id, View());
      hide TcpPool.OnClosed, LetGo;
      if raised {
        OnClosed(id);
      }
    }

    method Arrive(id: LinkId)
      requires Named(View(), id)
      modifies `links, `n, `pendingOpens, `connectSamples
      ensures View() == Arrived(old(View()), id, old(n))
    {
      var link := links[id].(state := Open, timerArmed := false, everOpened := true);
      n := n.(connectionsOpened := n.connectionsOpened + 1);
      connectSamples := connectSamples + [now - link.connectStarted];
      link := InitialAttemptDone(link);
      links := links[id := link];
    }

    /** The standby takes over, and the link it replaces, if there is one, retires. */
    method Swap(s: nat) returns (idle: Option<LinkId>)
      requires s < |slots| && (slots[s].active.Some? ==> Named(View(), slots[s].active.value))
      modifies `slots, `links, `n
      ensures View() == Promoted(old(View()), s)
      ensures idle == Idle(old(slots), old(links), s)
    {
      idle := None;
      var slot := slots[s];
      var worn := slot.active;
      slot := slot.(active := slot.standby);
      slot := slot.(standby := None, retry := CallOff(slot.retry));
      if worn.None? {
        n := n.(reconnects := n.reconnects + 1);
      } else {
        n := n.(rotated := n.rotated + 1);
        slot := slot.(retiring := slot.retiring + [worn.value]);
        var link := links[worn.value];
        if link.state == Open {
          links := links[worn.value := link.(state := Retiring, timerArmed := link.inflight != [])];
          if link.inflight == [] {
            idle := worn;
          }
        }
      }
      slots := slots[s := slot];
    }

    method Promote(s: nat, flushed: bool)
      requires s < |slots| && (slots[s].active.Some? ==> Named(View(), slots[s].active.value))
      modifies `links, `slots, `n, `failed, `pendingOpens
      ensures View() == PromotedFor(old(View()), s, flushed)
    {
      hide Promoted, TcpPool.CloseLink;
      PromotedKeepsNames(View(), s);
      var idle := Swap(s);
      if idle.Some? {
        CloseLink(idle.value, flushed);
      }
    }

    method OnConnected(id: LinkId, flushed: bool)
      requires Named(View(), id)
      requires var slot := slots[links[id].slot];
        slot.active.Some? ==> Named(View(), slot.active.value) && slot.active != slot.standby
      modifies `links, `slots, `n, `failed, `pendingOpens, `connectSamples
      ensures View() == TcpPool.OnConnected(old(View()), id, flushed)
    {
      if links[id].state != Connecting {
        return;
      }
      hide Arrived, Promoted, TcpPool.OnConnected, TcpPool.CloseLink;
      ghost var p := View();
      Arrive(id);
      ArrivedKeepsPlaces(p, id);
      var s := links[id].slot;
      if slots[s].standby == Some(id) {
        ConnectedIsPromoted(p, id, flushed);
        Promote(s, flushed);
      } else {
        ConnectedIsArrived(p, id, flushed);
        if !links[id].initial {
          n := n.(reconnects := n.reconnects + 1);
        }
      }
    }

    method RetryLater(s: nat)
      requires s < |slots|
      modifies `slots
      ensures View() == TcpPool.ScheduleRetry(old(View()), s)
    {
      var slot := ScheduleRetry(slots[s]);
      slots := slots[s := slot];
    }

    method OnTimer(id: LinkId)
      requires Named(View(), id)
      modifies `links, `slots, `n, `failed, `pendingOpens
      ensures View() == TcpPool.OnTimer(old(View()), id)
    {
      hide LetGo, TcpPool.ScheduleRetry;
      ghost var p := View();
      var s := links[id].slot;
      if links[id].state == Connecting {
        n := n.(connectFailures := n.connectFailures + 1);
        RetryAfter(p, id, n);
        CloseLink(id, true);
        RetryLater(s);
      } else if links[id].state == Retiring {
        CloseLink(id, true);
      } else {
        links := links[id := links[id].(timerArmed := false)];
      }
    }

    method OnEchoMismatch(id: LinkId)
      requires Named(View(), id)
      modifies `links, `slots, `n, `failed, `pendingOpens
      ensures View() == TcpPool.OnEchoMismatch(old(View()), id)
    {
      hide LetGo, TcpPool.ScheduleRetry;
      ghost var p := View();
      n := n.(echoMismatch := n.echoMismatch + 1);
      RetryAfter(p, id, n);
      var s := links[id].slot;
      var active := slots[s].active == Some(id);
      CloseLink(id, true);
      if active {
        RetryLater(s);
      }
    }

    method TakeEcho(id: LinkId)
      requires Named(View(), id) && links[id].inflight != []
      modifies `links, `n, `samples, `succeeded
      ensures View() == Echoed(old(View()), id)
    {
      var link := links[id];
      var message := link.inflight[0];
      link := link.(inflight := link.inflight[1..], echoed := link.echoed + 1);
      n := n.(messagesReceived := n.messagesReceived + 1);
      if measure {
        samples := samples + [Sample(id, link.echoed, now - message.sentAt)];
      }
      succeeded := succeeded + multiset{message.id};
      links := links[id := link];
    }

    method OnEcho(id: LinkId, bytes: seq<byte>, flushed: bool)
      requires Named(View(), id)
      modifies `links, `slots, `n, `failed, `pendingOpens, `samples, `succeeded
      ensures View() == TcpPool.OnEcho(old(View()), id, bytes, flushed)
    {
      hide Echoed, TcpPool.OnEchoMismatch, TcpPool.CloseLink;
      if bytes != cfg.message || links[id].inflight == [] {
        OnEchoMismatch(id);
        return;
      }
      EchoedKeepsNames(View(), id);
      TakeEcho(id);
      if links[id].state == Retiring && links[id].inflight == [] {
        CloseLink(id, flushed);
      }
    }

    method OnData(id: LinkId, bytes: seq<byte>, flushed: bool)
      requires Named(View(), id) && (cfg.expectEcho ==> cfg.message != [])
      modifies `links, `slots, `n, `failed, `pendingOpens, `samples, `succeeded
      ensures View() == TcpPool.OnData(old(View()), id, bytes, flushed)
    {
      if !cfg.expectEcho || !InUse(links[id]) {
        return;
      }
      links := links[id := links[id].(received := links[id].received + bytes, returned := links[id].returned + bytes)];
      ghost var p := View();
      hide TcpPool.OnEcho;
      while |links[id].received| >= |cfg.message| && InUse(links[id])
        invariant Named(View(), id) && Drain(View(), id, flushed) == Drain(p, id, flushed)
        decreases |links[id].received|
      {
        var echo := links[id].received[..|cfg.message|];
        links := links[id := links[id].(received := links[id].received[|cfg.message|..])];
        OnEcho(id, echo, flushed);
      }
    }

    method OnWriteBlocked(id: LinkId, blocked: bool)
      requires Named(View(), id)
      modifies `links, `n
      ensures View() == OnWatermark(old(View()), id, blocked)
    {
      if blocked && !links[id].writeBlocked {
        n := n.(writeBlocked := n.writeBlocked + 1);
      }
      links := links[id := links[id].(writeBlocked := blocked)];
    }

    method Begin(s: nat, standby: bool, initial: bool) returns (id: LinkId)
      requires s < |slots|
      modifies `links, `slots, `attempts, `pendingOpens
      ensures id == |old(links)| && View() == Begun(old(View()), s, standby, initial)
    {
      id := |links|;
      attempts := attempts + 1;
      links := links + [NewLink(s, initial, now)];
      if initial {
        pendingOpens := pendingOpens + 1;
      }
      var slot := slots[s];
      slots := slots[s := if standby then slot.(standby := Some(id)) else slot.(active := Some(id))];
    }

    method OpenSlot(s: nat, standby: bool, initial: bool, outcome: Outcome)
      requires s < |slots|
      requires standby && slots[s].active.Some? ==> Named(View(), slots[s].active.value)
      requires !standby ==> slots[s].standby != Some(|links|)
      modifies `links, `slots, `n, `failed, `pendingOpens, `connectSamples, `attempts
      ensures View() == OpenLink(old(View()), s, standby, initial, outcome)
    {
      hide TcpPool.OnClosed, TcpPool.OnConnected, TcpPool.ScheduleRetry;
      if outcome.NoConnection? {
        attempts := attempts + 1;
        n := n.(connectFailures := n.connectFailures + 1);
        RetryLater(s);
        return;
      }
      BegunNames(View(), s, standby, initial);
      hide Begun;
      var id := Begin(s, standby, initial);
      match outcome
      case FailedNow => OnClosed(id);
      case ConnectedNow(flushed) => OnConnected(id, flushed);
      case _ =>
    }

    method ConnectNext(s: nat, outcome: Outcome)
      requires s < |slots|
      requires slots[s].active.Some? ==> Named(View(), slots[s].active.value)
      modifies `links, `slots, `n, `failed, `pendingOpens, `connectSamples, `attempts
      ensures View() == TcpPool.ConnectNext(old(View()), s, outcome)
    {
      hide OpenLink;
      if finished {
        return;
      }
      var slot := slots[s];
      if slot.active.None? {
        if slot.standby.None? {
          OpenSlot(s, false, false, outcome);
        }
      } else if slot.standby.None? {
        var active := links[slot.active.value];
        if active.state == Open && RotationDue(View(), active) {
          OpenSlot(s, true, false, outcome);
        }
      }
    }

    method OnRetryTimer(s: nat, outcome: Outcome)
      requires s < |slots|
      requires slots[s].active.Some? ==> Named(View(), slots[s].active.value)
      modifies `links, `slots, `n, `failed, `pendingOpens, `connectSamples, `attempts
      ensures View() == TcpPool.OnRetryTimer(old(View()), s, outcome)
    {
      hide TcpPool.ConnectNext;
      slots := slots[s := slots[s].(retry := Fire(slots[s].retry, now))];
      ConnectNext(s, outcome);
    }

    /** Writes the call's message on the link. */
    method Write(id: LinkId)
      requires |slots| > 0 && Named(View(), id)
      modifies `links, `n, `nextSlot, `calls, `succeeded
      ensures View() == Written(old(View()), id)
    {
      Enqueue(id);
      n := n.(messagesSent := n.messagesSent + 1);
      nextSlot := (nextSlot + 1) % |slots|;
      calls := calls + 1;
    }

    method Enqueue(id: LinkId)
      requires id < |links|
      modifies `links, `succeeded
      ensures var l := old(links)[id];
        links == old(links)[id := l.(sent := l.sent + 1,
          inflight := if cfg.expectEcho then l.inflight + [Message(calls, now)] else l.inflight)]
      ensures succeeded == if cfg.expectEcho then old(succeeded) else old(succeeded) + multiset{calls}
    {
      var link := links[id];
      if cfg.expectEcho {
        link := link.(inflight := link.inflight + [Message(calls, now)]);
      }
      link := link.(sent := link.sent + 1);
      if !cfg.expectEcho {
        succeeded := succeeded + multiset{calls};
      }
      links := links[id := link];
    }

    /** Drops the call's message, which is told at once. */
    method Drop(counters: Counters)
      requires |slots| > 0
      modifies `n, `nextSlot, `calls, `failed
      ensures View() == Turned(old(View()), counters)
    {
      nextSlot := (nextSlot + 1) % |slots|;
      n := counters;
      failed := failed + multiset{calls};
      calls := calls + 1;
    }

    method TryStartRequest(outcome: Outcome) returns (started: bool)
      requires nextSlot < |slots|
      requires slots[nextSlot].active.Some? ==> Named(View(), slots[nextSlot].active.value)
      modifies `links, `slots, `n, `failed, `pendingOpens, `connectSamples, `attempts,
               `nextSlot, `calls, `succeeded
      ensures started && View() == TcpPool.TryStartRequest(old(View()), outcome)
    {
      hide TcpPool.ConnectNext, Turned, Written;
      started := true;
      var s := nextSlot;
      var slot := slots[s];
      if slot.active.None? || links[slot.active.value].state != Open {
        Drop(n.(unavailable := n.unavailable + 1));
        return;
      }
      var id := slot.active.value;
      if links[id].writeBlocked || |links[id].inflight| >= cfg.maxInflight {
        Drop(n.(deferred := n.deferred + 1));
        return;
      }
      WrittenNames(View(), id);
      Write(id);
      if RotationDue(View(), links[id]) && slots[s].retry.due.None? {
        ConnectNext(s, outcome);
      }
    }

    method Prepare(outcomes: seq<Outcome>)
      requires Inv(View()) && !prepared && !finished && |outcomes| == |slots|
      modifies `prepared, `links, `slots, `n, `failed, `pendingOpens, `connectSamples, `attempts
      ensures View() == Step(old(View()), TcpPool.Prepare(outcomes))
    {
      BeforeOpening(View());
      prepared := true;
      ghost var p := View();
      hide Inv, OpenLink;
      for i := 0 to |outcomes|
        invariant View() == OpenAll(p, outcomes[..i]) && |slots| == |p.slots|
        invariant forall s | i <= s < |slots| :: slots[s].standby.None?
      {
        assert outcomes[..i + 1][..i] == outcomes[..i];
        FirstOpenFrame(View(), i, outcomes[i]);
        OpenSlot(i, false, true, outcomes[i]);
      }
      assert outcomes[..|outcomes|] == outcomes;
    }

    /** Every link that has a place, slot by slot. */
    method AllLinks() returns (all: seq<LinkId>)
      ensures all == Links(slots)
    {
      all := [];
      for s := 0 to |slots|
        invariant all == Links(slots[..s])
      {
        var slot := slots[s];
        if slot.active.Some? {
          all := all + [slot.active.value];
        }
        if slot.standby.Some? {
          all := all + [slot.standby.value];
        }
        ghost var before := all;
        for i := 0 to |slot.retiring|
          invariant all == before + slot.retiring[..i]
        {
          all := all + [slot.retiring[i]];
        }
        assert slots[..s + 1][..s] == slots[..s];
        assert all == Links(slots[..s]) + OfSlot(slot);
      }
      assert slots[..|slots|] == slots;
    }

    method DropOne(id: LinkId)
      requires Named(View(), id)
      modifies `links, `slots, `n, `failed, `pendingOpens, `dropped
      ensures View() == var p := old(View());
        if p.links[id].state == Connecting then TcpPool.CloseLink(p.(dropped := p.dropped + 1), id, true) else p
    {
      hide TcpPool.CloseLink;
      if links[id].state == Connecting {
        dropped := dropped + 1;
        CloseLink(id, true);
      }
    }

    /** The connects under way are dropped. */
    method DropAll(all: seq<LinkId>)
      requires AllNamed(View(), all)
      modifies `links, `slots, `n, `failed, `pendingOpens, `dropped
      ensures View() == DropConnecting(old(View()), all)
    {
      hide TcpPool.CloseLink, TcpBenchmarkClient.View;
      ghost var p := View();
      for i := 0 to |all|
        invariant View() == DropConnecting(p, all[..i]) && AllNamed(View(), all)
      {
        assert all[..i + 1][..i] == all[..i];
        DropKeepsNames(View(), all[i], all);
        DropOne(all[i]);
      }
      assert all[..|all|] == all;
    }

    method CallOffRetries()
      modifies `slots
      ensures slots == RetriesOff(old(slots))
    {
      for s := 0 to |slots|
        invariant |slots| == |old(slots)|
        invariant forall t | 0 <= t < |slots| ::
          slots[t] == if t < s then old(slots)[t].(retry := CallOff(old(slots)[t].retry)) else old(slots)[t]
      {
        slots := slots[s := slots[s].(retry := CallOff(slots[s].retry))];
      }
    }

    /** finish() up to its wait: nothing is opened from here on. */
    method FinishBegin()
      requires Inv(View())
      modifies `finished, `links, `slots, `n, `failed, `pendingOpens, `dropped
      ensures View() == OnFinishBegin(old(View()))
    {
      if finished {
        return;
      }
      OffKeepsCore(View());
      hide Inv, Core, RetriesOff, DropConnecting, AllNamed;
      finished := true;
      CallOffRetries();
      var all := AllLinks();
      ListedAreNamed(View());
      DropAll(all);
    }

    method CloseOne(id: LinkId, flushed: bool)
      requires Named(View(), id)
      modifies `links, `slots, `n, `failed, `pendingOpens
      ensures View() == ClosedForGood(old(View()), id, flushed)
    {
      hide TcpPool.CloseLink;
      if links[id].inflight != [] {
        n := n.(drainIncomplete := n.drainIncomplete + 1);
      }
      CloseLink(id, flushed);
    }

    method CloseAll(all: seq<LinkId>, flushed: set<LinkId>)
      requires AllNamed(View(), all)
      modifies `links, `slots, `n, `failed, `pendingOpens
      ensures View() == CloseEach(old(View()), all, flushed)
    {
      hide ClosedForGood, TcpBenchmarkClient.View;
      ghost var p := View();
      for i := 0 to |all|
        invariant View() == CloseEach(p, all[..i], flushed) && AllNamed(View(), all)
      {
        assert all[..i + 1][..i] == all[..i];
        ClosedKeepsNames(View(), all[i], all[i] in flushed, all);
        CloseOne(all[i], all[i] in flushed);
      }
      assert all[..|all|] == all;
    }

    /** The rest of finish(): what the wait did not bring is lost, and every link is closed. */
    method FinishEnd(flushed: set<LinkId>)
      requires Inv(View()) && finished && !ended
      modifies `ended, `links, `slots, `n, `failed, `pendingOpens
      ensures View() == OnFinishEnd(old(View()), flushed)
    {
      var all := AllLinks();
      ListedAreNamed(View());
      hide Inv, CloseEach, AllNamed;
      CloseAll(all, flushed);
      ended := true;
    }

    /** One event that concerns a link, on a client between events. */
    method OnLinkEvent(e: Event)
      requires Inv(View()) && Enabled(View(), e)
      requires e.Connected? || e.CloseRaised? || e.LinkTimer? || e.Watermark? || e.Data?
      modifies this
      ensures View() == Next(old(View()), e)
    {
      NothingIsSkipped(View(), e);
      ghost var p := View();
      if e.Connected? {
        RolesApart(p, p.links[e.link].slot);
      }
      hide Inv;
      hide TcpPool.OnConnected, TcpPool.OnClosed, TcpPool.OnTimer, OnWatermark, TcpPool.OnData;
      match e
      case Connected(id, flushed) => OnConnected(id, flushed);
      case CloseRaised(id) => OnClosed(id);
      case LinkTimer(id) => OnTimer(id);
      case Watermark(id, blocked) => OnWriteBlocked(id, blocked);
      case Data(id, bytes, flushed) => OnData(id, bytes, flushed);
    }

    /** Whatever happens next, the object does what the state machine does and is left between events. */
    method OnEvent(e: Event)
      requires Inv(View()) && Enabled(View(), e)
      modifies this
      ensures View() == Next(old(View()), e) && Inv(View())
    {
      NothingIsSkipped(View(), e);
      StepKeepsInv(View(), e);
      hide Inv, Step, Enabled, TcpBenchmarkClient.View;
      Dispatch(e);
    }

    method Dispatch(e: Event)
      requires Inv(View()) && Enabled(View(), e)
      modifies this
      ensures View() == Next(old(View()), e)
    {
      hide Inv;
      NothingIsSkipped(View(), e);
      if e.Send? {
        assert ActiveNamed(View());
      }
      hide TcpPool.OnRetryTimer, TcpPool.TryStartRequest, OnFinishBegin, OnFinishEnd, OpenAll;
      match e
      case Prepare(outcomes) => Prepare(outcomes);
      case RetryTimer(s, outcome) => OnRetryTimer(s, outcome);
      case Send(outcome) => var _ := TryStartRequest(outcome);
      case Elapse(time) => now := now + time;
      case SetMeasure(on) => measure := on;
      case FinishBegin => FinishBegin();
      case FinishEnd(flushed) => FinishEnd(flushed);
      case _ => OnLinkEvent(e);
    }
  }
}
