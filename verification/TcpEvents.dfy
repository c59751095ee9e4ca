/** The TCP client's counters of connections, from the events alone. */
module TcpEvents {
  import opened Tally
  import opened TcpBackoff
  import opened TcpPool
  import opened TcpSafety
  import opened TcpRuns

  // ----- One connect -----

  lemma CloseLeaves(p: Pool, id: LinkId, raised: bool)
    requires Named(p, id)
    ensures var q := CloseLink(p, id, raised);
      q.n == p.n.(inflightLost := q.n.inflightLost) && q.connectSamples == p.connectSamples
  {
    hide TakeOut, HasPlace, Rescheduled, Ids;
  }

  lemma ArrivedCounts(p: Pool, id: LinkId, n: Counters)
    requires Named(p, id)
    ensures var q := Arrived(p, id, n);
      && q.n == n.(connectionsOpened := n.connectionsOpened + 1)
      && q.connectSamples == p.connectSamples + [p.now - p.links[id].connectStarted]
  {
  }

  lemma TakenOverCounts(p: Pool, id: LinkId, n: Counters)
    requires Named(p, id)
    ensures var q := TakenOver(p, id, n);
      && q.n == n.(connectionsOpened := n.connectionsOpened + 1)
      && q.connectSamples == p.connectSamples + [p.now - p.links[id].connectStarted]
  {
  }

  lemma RotatedCounts(p: Pool, id: LinkId, flushed: bool)
    requires Named(p, id) && p.links[id].state == Connecting
    requires var a := p.slots[p.links[id].slot].active; a.Some? && Named(p, a.value)
    ensures var n, q := p.n, Rotated(p, id, flushed);
      && q.n.connectionsOpened == n.connectionsOpened + 1 && q.n.rotated == n.rotated + 1
      && q.n.reconnects == n.reconnects && q.n.connectFailures == n.connectFailures
      && q.connectSamples == p.connectSamples + [p.now - p.links[id].connectStarted]
  {
    var s := p.links[id].slot;
    var worn := p.slots[s].active.value;
    var r, n := Retired(p, s), p.n.(rotated := p.n.rotated + 1);
    assert Named(r, id) && r.links[id] == p.links[id] && r.connectSamples == p.connectSamples;
    TakenOverCounts(r, id, n);
    var q := TakenOver(r, id, n);
    assert Named(q, worn);
    hide CloseLink, TakenOver, Retired;
    CloseLeaves(q, worn, flushed);
  }

  /** A link that was connecting has opened, and how long it took is one sample. It is a rotation if it was to replace
      a link that is still there, else a reconnect if it is not its slot's first; any other link is
      left alone. */
  lemma ConnectIff(p: Pool, id: LinkId, flushed: bool)
    requires Named(p, id)
    requires var a := p.slots[p.links[id].slot].active; a.Some? ==> Named(p, a.value)
    ensures var l, n, q := p.links[id], p.n, OnConnected(p, id, flushed);
      var standby := p.slots[l.slot].standby == Some(id);
      var rotation := standby && p.slots[l.slot].active.Some?;
      if l.state != Connecting then q == p
      else
        && q.n.connectionsOpened == n.connectionsOpened + 1
        && q.n.rotated == n.rotated + (if rotation then 1 else 0)
        && q.n.reconnects == n.reconnects + (if rotation || (l.initial && !standby) then 0 else 1)
        && q.n.connectFailures == n.connectFailures
        && q.connectSamples == p.connectSamples + [p.now - l.connectStarted]
  {
    hide Rotated, Arrived, TakenOver;
    var l := p.links[id];
    var slot := p.slots[l.slot];
    var again := p.n.(reconnects := p.n.reconnects + 1);
    if l.state == Connecting {
      if slot.standby != Some(id) {
        ArrivedCounts(p, id, if l.initial then p.n else again);
      } else if slot.active.None? {
        TakenOverCounts(p, id, again);
      } else {
        RotatedCounts(p, id, flushed);
      }
    }
  }

  // ----- What else happens to connections -----

  /** The counters of closes, of links with echoes outstanding at the end, and of links whose writes block. */
  function Ends(n: Counters): (nat, nat, nat) {
    (n.connectionClosed, n.drainIncomplete, n.writeBlocked)
  }

  predicate SameEnds(p: Pool, q: Pool) { Ends(q.n) == Ends(p.n) }

  lemma LetGoEnds(p: Pool, id: LinkId, n: Counters, release: bool, retry: bool)
    requires Named(p, id)
    ensures Ends(LetGo(p, id, n, release, retry).n) == Ends(n)
  {
    hide TakeOut, HasPlace, Rescheduled, Ids;
  }

  lemma CloseEnds(p: Pool, id: LinkId, raised: bool)
    requires Named(p, id)
    ensures SameEnds(p, CloseLink(p, id, raised))
  {
    hide LetGo;
    LetGoEnds(p, id, p.n, raised, false);
  }

  /** A close is counted where it finds the link in use. */
  lemma ClosedEnds(p: Pool, id: LinkId)
    requires Named(p, id)
    ensures Ends(OnClosed(p, id).n) ==
      (p.n.connectionClosed + (if InUse(p.links[id]) then 1 else 0), p.n.drainIncomplete, p.n.writeBlocked)
  {
    hide LetGo;
    var l := p.links[id];
    var slot := p.slots[l.slot];
    LetGoEnds(p, id, CountClose(p.n, l.state), true,
              l.state != Closed && (slot.active == Some(id) || slot.standby == Some(id)));
  }

  lemma RotatedEnds(p: Pool, id: LinkId, flushed: bool)
    requires Named(p, id)
    requires var a := p.slots[p.links[id].slot].active; a.Some? && Named(p, a.value)
    ensures SameEnds(p, Rotated(p, id, flushed))
  {
    var s := p.links[id].slot;
    var worn := p.slots[s].active.value;
    var q := TakenOver(Retired(p, s), id, p.n.(rotated := p.n.rotated + 1));
    assert Named(q, worn) && Ends(q.n) == Ends(p.n);
    hide CloseLink, TakenOver, Retired;
    CloseEnds(q, worn, flushed);
  }

  lemma ConnectedEnds(p: Pool, id: LinkId, flushed: bool)
    requires Named(p, id)
    requires var a := p.slots[p.links[id].slot].active; a.Some? ==> Named(p, a.value)
    ensures SameEnds(p, OnConnected(p, id, flushed))
  {
    var slot := p.slots[p.links[id].slot];
    if slot.active.Some? {
      RotatedEnds(p, id, flushed);
    }
    hide Rotated;
  }

  lemma OpenEnds(p: Pool, s: nat, standby: bool, initial: bool, outcome: Outcome)
    requires s < |p.slots|
    requires standby && p.slots[s].active.Some? ==> Named(p, p.slots[s].active.value)
    ensures SameEnds(p, OpenLink(p, s, standby, initial, outcome))
  {
    var b, id := Begun(p, s, standby, initial), |p.links|;
    assert Named(b, id) && b.links[id].slot == s && b.links[id].state == Connecting && b.n == p.n;
    assert b.slots[s].active.Some? ==> Named(b, b.slots[s].active.value);
    hide Begun, OnClosed, OnConnected;
    match outcome
    case NoConnection =>
    case Pending =>
    case FailedNow => ClosedEnds(b, id);
    case ConnectedNow(flushed) => ConnectedEnds(b, id, flushed);
  }

  lemma ConnectNextEnds(p: Pool, s: nat, outcome: Outcome)
    requires s < |p.slots|
    requires p.slots[s].active.Some? ==> Named(p, p.slots[s].active.value)
    ensures SameEnds(p, ConnectNext(p, s, outcome))
  {
    hide OpenLink;
    OpenEnds(p, s, true, false, outcome);
    OpenEnds(p, s, false, false, outcome);
  }

  lemma {:induction false} OpenAllEnds(p: Pool, outcomes: seq<Outcome>)
    requires |outcomes| <= |p.slots|
    ensures SameEnds(p, OpenAll(p, outcomes))
    decreases |outcomes|
  {
    hide OpenLink;
    if outcomes != [] {
      var k := |outcomes| - 1;
      OpenAllEnds(p, outcomes[..k]);
      OpenEnds(OpenAll(p, outcomes[..k]), k, false, true, outcomes[k]);
    }
  }

  lemma RetryEnds(p: Pool, s: nat, outcome: Outcome)
    requires s < |p.slots|
    requires p.slots[s].active.Some? ==> Named(p, p.slots[s].active.value)
    ensures SameEnds(p, OnRetryTimer(p, s, outcome))
  {
    hide ConnectNext, Fire;
    ConnectNextEnds(p.(slots := p.slots[s := p.slots[s].(retry := Fire(p.slots[s].retry, p.now))]), s, outcome);
  }

  lemma WrittenEnds(p: Pool, id: LinkId)
    requires Named(p, id) && |p.slots| > 0
    ensures var q := Written(p, id); Named(q, id) && q.slots == p.slots && SameEnds(p, q)
  {
  }

  lemma SendEnds(p: Pool, outcome: Outcome)
    requires p.nextSlot < |p.slots|
    requires var a := p.slots[p.nextSlot].active; a.Some? ==> Named(p, a.value)
    ensures SameEnds(p, TryStartRequest(p, outcome))
  {
    hide Written, ConnectNext;
    var a := p.slots[p.nextSlot].active;
    if a.Some? {
      WrittenEnds(p, a.value);
      ConnectNextEnds(Written(p, a.value), p.nextSlot, outcome);
    }
  }

  lemma MismatchEnds(p: Pool, id: LinkId)
    requires Named(p, id)
    ensures SameEnds(p, OnEchoMismatch(p, id))
  {
    hide LetGo;
    LetGoEnds(p, id, p.n.(echoMismatch := p.n.echoMismatch + 1), true, p.slots[p.links[id].slot].active == Some(id));
  }

  lemma EchoedEnds(p: Pool, id: LinkId)
    requires Named(p, id) && p.links[id].inflight != []
    ensures Named(Echoed(p, id), id) && SameEnds(p, Echoed(p, id))
  {
  }

  lemma EchoEnds(p: Pool, id: LinkId, echo: seq<byte>, flushed: bool)
    requires Named(p, id)
    ensures SameEnds(p, OnEcho(p, id, echo, flushed))
  {
    hide OnEchoMismatch, Echoed, CloseLink;
    if echo != p.cfg.message || p.links[id].inflight == [] {
      MismatchEnds(p, id);
    } else {
      EchoedEnds(p, id);
      CloseEnds(Echoed(p, id), id, flushed);
    }
  }

  lemma {:induction false} DrainEnds(p: Pool, id: LinkId, flushed: bool)
    requires Named(p, id) && p.cfg.message != []
    ensures SameEnds(p, Drain(p, id, flushed))
    decreases |p.links[id].received|
  {
    if |p.links[id].received| >= |p.cfg.message| && InUse(p.links[id]) {
      var t := Taken(p, id);
      assert Named(t, id) && t.n == p.n && t.cfg == p.cfg;
      EchoEnds(t, id, p.links[id].received[..|p.cfg.message|], flushed);
      hide OnEcho, Taken;
      DrainEnds(EchoStep(p, id, flushed), id, flushed);
    }
  }

  lemma DataEnds(p: Pool, id: LinkId, bytes: seq<byte>, flushed: bool)
    requires Named(p, id) && (p.cfg.expectEcho ==> p.cfg.message != [])
    ensures SameEnds(p, OnData(p, id, bytes, flushed))
  {
    var q := Buffered(p, id, bytes);
    assert Named(q, id) && q.n == p.n && q.cfg == p.cfg;
    hide Drain, Buffered;
    if p.cfg.expectEcho {
      DrainEnds(q, id, flushed);
    }
  }

  lemma TimerEnds(p: Pool, id: LinkId)
    requires Named(p, id)
    ensures SameEnds(p, OnTimer(p, id))
  {
    hide LetGo, CloseLink;
    LetGoEnds(p, id, p.n.(connectFailures := p.n.connectFailures + 1), true, true);
    CloseEnds(p, id, true);
  }

  lemma {:induction false} DropEnds(p: Pool, ids: seq<LinkId>)
    ensures SameEnds(p, DropConnecting(p, ids))
    decreases |ids|
  {
    hide CloseLink;
    if ids != [] {
      var q := DropConnecting(p, ids[..|ids| - 1]);
      DropEnds(p, ids[..|ids| - 1]);
      if Named(q, ids[|ids| - 1]) {
        CloseEnds(q.(dropped := q.dropped + 1), ids[|ids| - 1], true);
      }
    }
  }

  lemma FinishEnds(p: Pool)
    ensures SameEnds(p, OnFinishBegin(p))
  {
    hide DropConnecting, RetriesOff;
    var p1 := p.(finished := true, slots := RetriesOff(p.slots));
    DropEnds(p1, Links(p1.slots));
  }

  // ----- The end of finish() -----

  /** The link waits for echoes. */
  ghost function Owing(l: Link): int { if l.inflight == [] then 0 else 1 }

  lemma CloseOneEnds(p: Pool, id: LinkId, raised: bool)
    requires Closing(p) && id < |p.links|
    ensures Named(p, id)
    ensures var q := ClosedForGood(p, id, raised);
      && q.n.connectionClosed == p.n.connectionClosed && q.n.writeBlocked == p.n.writeBlocked
      && q.n.drainIncomplete + Sum(q.links, Owing) == p.n.drainIncomplete + Sum(p.links, Owing)
  {
    hide Core;
    CoreAt(p, None, id);
    CloseOneKeeps(p, id, raised);
    var q := ClosedForGood(p, id, raised);
    CoreAt(q, None, id);
    SumUpdate(p.links, Owing, id, q.links[id]);
    hide CloseLink, Sum, Closing;
    var owing := p.links[id].inflight != [];
    var p1 := if owing then p.(n := p.n.(drainIncomplete := p.n.drainIncomplete + 1)) else p;
    CloseEnds(p1, id, raised);
  }

  lemma {:induction false} CloseEachEnds(p: Pool, ids: seq<LinkId>, flushed: set<LinkId>)
    requires Closing(p)
    ensures var q := CloseEach(p, ids, flushed);
      && q.n.connectionClosed == p.n.connectionClosed && q.n.writeBlocked == p.n.writeBlocked
      && q.n.drainIncomplete + Sum(q.links, Owing) == p.n.drainIncomplete + Sum(p.links, Owing)
    decreases |ids|
  {
    hide Closing, ClosedForGood, Sum;
    if ids != [] {
      var q := CloseEach(p, ids[..|ids| - 1], flushed);
      CloseEachEnds(p, ids[..|ids| - 1], flushed);
      CloseEachKeeps(p, ids[..|ids| - 1], flushed);
      if ids[|ids| - 1] < |q.links| {
        CloseOneEnds(q, ids[|ids| - 1], ids[|ids| - 1] in flushed);
      }
    }
  }

  lemma {:induction false} NoneOwing(links: seq<Link>)
    requires forall id | 0 <= id < |links| :: links[id].inflight == []
    ensures Sum(links, Owing) == 0
  {
    if links != [] {
      NoneOwing(links[..|links| - 1]);
    }
  }

  /** Every link that still waits for echoes is counted as drained incompletely. */
  lemma FinishEndEnds(p: Pool, flushed: set<LinkId>)
    requires Inv(p) && p.finished && !p.ended
    ensures var n, q := p.n, OnFinishEnd(p, flushed).n;
      && q.connectionClosed == n.connectionClosed && q.writeBlocked == n.writeBlocked
      && q.drainIncomplete == n.drainIncomplete + Sum(p.links, Owing)
  {
    FinishEndKeepsInv(p, flushed);
    var q := OnFinishEnd(p, flushed);
    forall id | 0 <= id < |q.links|
      ensures q.links[id].inflight == []
    {
      CoreAt(q, None, id);
    }
    hide Core, CloseEach, Sum, Attempts;
    NoneOwing(q.links);
    CloseEachEnds(p, Links(p.slots), flushed);
  }

  // ----- Every run -----

  /** What an event adds to the counters: a close, by the link it finds; the end of finish(), by the links that still
      wait for echoes; a write that starts to block. */
  ghost function Adds(p: Pool, e: Event): (int, int, int) {
    if !Enabled(p, e) then (0, 0, 0)
    else if e.CloseRaised? && InUse(p.links[e.link]) then (1, 0, 0)
    else if e.FinishEnd? then (0, Sum(p.links, Owing), 0)
    else if e.Watermark? && e.blocked && !p.links[e.link].writeBlocked then (0, 0, 1)
    else (0, 0, 0)
  }

  ghost predicate Counted(n: Counters, q: Counters, adds: (int, int, int)) {
    && q.connectionClosed == n.connectionClosed + adds.0 && q.drainIncomplete == n.drainIncomplete + adds.1
    && q.writeBlocked == n.writeBlocked + adds.2
  }

  lemma StepEnds(p: Pool, e: Event)
    requires Inv(p) && Enabled(p, e) && ActiveNamed(p) && (p.cfg.expectEcho ==> p.cfg.message != [])
    ensures Counted(p.n, Step(p, e).n, Adds(p, e))
  {
    hide Inv, OpenAll, OnConnected, OnClosed, OnTimer, OnRetryTimer, OnData, TryStartRequest, OnFinishBegin,
         OnFinishEnd, Sum;
    match e
    case Prepare(outcomes) => OpenAllEnds(p.(prepared := true), outcomes);
    case Connected(id, flushed) => ConnectedEnds(p, id, flushed);
    case CloseRaised(id) => ClosedEnds(p, id);
    case LinkTimer(id) => TimerEnds(p, id);
    case RetryTimer(s, outcome) => RetryEnds(p, s, outcome);
    case Data(id, bytes, flushed) => DataEnds(p, id, bytes, flushed);
    case Send(outcome) => SendEnds(p, outcome);
    case FinishBegin => FinishEnds(p);
    case FinishEnd(flushed) => FinishEndEnds(p, flushed);
    case _ =>
  }

  /** The counters of a whole run. */
  ghost function Total(p: Pool, events: seq<Event>): (int, int, int) {
    if events == [] then (0, 0, 0)
    else
      var t := Total(p, events[..|events| - 1]);
      var a := Adds(Run(p, events[..|events| - 1]), events[|events| - 1]);
      (t.0 + a.0, t.1 + a.1, t.2 + a.2)
  }

  /** After every run: the closes counted are the close events that found their link in use, the incomplete drains
      are the links that waited for echoes when finish() ended, and the blocked writes are the watermarks
      that found their link writable. */
  lemma {:induction false} EndsFromEvents(cfg: Config, now: int, events: seq<Event>)
    requires Sound(cfg)
    ensures var n, t := Run(New(cfg, now), events).n, Total(New(cfg, now), events);
      n.connectionClosed == t.0 && n.drainIncomplete == t.1 && n.writeBlocked == t.2
  {
    if events != [] {
      var before, e := events[..|events| - 1], events[|events| - 1];
      var p := Run(New(cfg, now), before);
      EndsFromEvents(cfg, now, before);
      NewInv(cfg, now);
      RunKeepsInv(New(cfg, now), before);
      hide Inv, Step, New, ActiveNamed;
      if Enabled(p, e) {
        NothingIsSkipped(p, e);
        StepEnds(p, e);
      }
    }
  }
}
