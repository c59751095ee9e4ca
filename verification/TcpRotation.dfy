/** Rotating a connection costs no message: while a replacement connects, and when it takes over, its
    slot always has an open connection to send on. */
module TcpRotation {
  import opened Tally
  import opened TcpBackoff
  import opened TcpPool
  import opened TcpSafety
  import opened TcpRuns

  /** The slot has an open connection to send on. */
  ghost predicate Serving(p: Pool, s: nat) {
    s < |p.slots| && p.slots[s].active.Some? && p.slots[s].active.value < |p.links|
    && p.links[p.slots[s].active.value].state == Open
  }

  /** The event takes the slot's open connection from it: the connection closes, what comes back on it
      is not an echo, or the run is over. */
  ghost predicate Takes(p: Pool, e: Event, s: nat)
    requires s < |p.slots| && p.slots[s].active.Some?
  {
    var a := p.slots[s].active.value;
    || e == CloseRaised(a)
    || (e.Data? && e.link == a && Next(p, e).n.echoMismatch != p.n.echoMismatch)
    || e.FinishEnd?
  }

  lemma LetGoServes(p: Pool, id: LinkId, n: Counters, release: bool, retry: bool, s: nat)
    requires Named(p, id) && Serving(p, s) && p.slots[s].active != Some(id)
    ensures Serving(LetGo(p, id, n, release, retry), s)
    ensures LetGo(p, id, n, release, retry).slots[s].active == p.slots[s].active
  {
  }

  lemma ConnectedServes(p: Pool, id: LinkId, flushed: bool, s: nat)
    requires Core(p, None) && Named(p, id) && Serving(p, s)
    requires var a := p.slots[p.links[id].slot].active; a.Some? ==> Named(p, a.value)
    ensures Serving(OnConnected(p, id, flushed), s)
  {
    var t := p.links[id].slot;
    var slot := p.slots[t];
    assert RolesOk(p.links, slot, p.finished);
    hide Core, LetGo;
    if p.links[id].state == Connecting && slot.standby == Some(id) && slot.active.Some? {
      RotatedServes(p, id, flushed, s);
    }
  }

  lemma RotatedServes(p: Pool, id: LinkId, flushed: bool, s: nat)
    requires Core(p, None) && Named(p, id) && Serving(p, s) && p.links[id].state == Connecting
    requires var slot := p.slots[p.links[id].slot];
             slot.standby == Some(id) && slot.active.Some? && Named(p, slot.active.value)
    ensures Serving(Rotated(p, id, flushed), s)
  {
    var t := p.links[id].slot;
    var worn := p.slots[t].active.value;
    var q := TakenOver(Retired(p, t), id, p.n.(rotated := p.n.rotated + 1));
    hide Core, LetGo, TakenOver, Retired;
    TakenOverServes(p, id, s);
    LetGoServes(q, worn, q.n, flushed, false, s);
  }

  lemma TakenOverServes(p: Pool, id: LinkId, s: nat)
    requires Core(p, None) && Named(p, id) && Serving(p, s) && p.links[id].state == Connecting
    requires var slot := p.slots[p.links[id].slot];
             slot.standby == Some(id) && slot.active.Some? && Named(p, slot.active.value)
    ensures var t := p.links[id].slot;
            var q := TakenOver(Retired(p, t), id, p.n.(rotated := p.n.rotated + 1));
            && Serving(q, s) && Named(q, p.slots[t].active.value)
            && q.slots[s].active != Some(p.slots[t].active.value)
  {
    var t := p.links[id].slot;
    var worn := p.slots[t].active.value;
    assert Places(p.slots[t], worn) == PlacesOwed(p.links, t, worn);
    assert Places(p.slots[s], worn) == PlacesOwed(p.links, s, worn);
    assert Places(p.slots[s], p.slots[s].active.value) == PlacesOwed(p.links, s, p.slots[s].active.value);
    hide Placed, LinksOk, SlotsOk, RetriesOk, Books, Connects, Sampled;
  }

  lemma OpenServes(p: Pool, t: nat, standby: bool, outcome: Outcome, s: nat)
    requires Core(p, None) && Attempts(p) && MayOpen(p, t, standby, false) && Serving(p, s)
    ensures Serving(OpenLink(p, t, standby, false, outcome), s)
  {
    hide Core, Attempts, LetGo;
    if outcome != NoConnection {
      BegunKeepsCore(p, t, standby, false);
      var q := Begun(p, t, standby, false);
      var id := |p.links|;
      assert Serving(q, s) && Named(q, id);
      if outcome == FailedNow {
        var n := q.n.(connectFailures := q.n.connectFailures + 1);
        LetGoServes(q, id, n, true, true, s);
      } else if outcome.ConnectedNow? {
        ConnectedServes(q, id, outcome.flushed, s);
      }
    }
  }

  lemma ConnectNextServes(p: Pool, t: nat, outcome: Outcome, s: nat)
    requires Core(p, None) && Attempts(p) && p.prepared && t < |p.slots| && Serving(p, s)
    requires p.slots[t].active.Some? ==> Named(p, p.slots[t].active.value)
    ensures Serving(ConnectNext(p, t, outcome), s)
  {
    var slot := p.slots[t];
    hide Core, Attempts, OpenLink;
    if !p.finished && slot.standby.None? && (slot.active.None? || p.links[slot.active.value].state == Open) {
      OpenServes(p, t, slot.active.Some?, outcome, s);
    }
  }

  lemma RetryServes(p: Pool, t: nat, outcome: Outcome, s: nat)
    requires Core(p, None) && Attempts(p) && p.prepared && Enabled(p, RetryTimer(t, outcome)) && Serving(p, s)
    requires p.slots[t].active.Some? ==> Named(p, p.slots[t].active.value)
    ensures Serving(OnRetryTimer(p, t, outcome), s)
  {
    var q := p.(slots := p.slots[t := p.slots[t].(retry := Fire(p.slots[t].retry, p.now))]);
    FireKeepsPace(p.slots[t].retry, p.now);
    RetryChange(p, q, t);
    hide Core, ConnectNext;
    ConnectNextServes(q, t, outcome, s);
  }

  lemma WrittenServes(p: Pool, id: LinkId, s: nat)
    requires Named(p, id) && |p.slots| > 0 && Serving(p, s)
    ensures var q := Written(p, id);
      Serving(q, s) && q.slots == p.slots && (p.slots[s].active == Some(id) ==> Named(q, id))
  {
  }

  lemma SentServes(p: Pool, outcome: Outcome, id: LinkId, s: nat, k: int)
    requires Core(p, None) && Rest(p, k, -1) && p.prepared && !p.ended && Named(p, id) && Serving(p, s)
    requires p.nextSlot < |p.slots| && p.slots[p.nextSlot].active == Some(id)
    requires p.links[id].state == Open && |p.links[id].inflight| < p.cfg.maxInflight
    ensures Serving(Written(p, id), s) && Named(Written(p, id), id) && Written(p, id).slots == p.slots
    ensures Serving(ConnectNext(Written(p, id), p.nextSlot, outcome), s)
  {
    assert Named(Written(p, id), id) && Written(p, id).slots == p.slots;
    hide Core, Rest, ConnectNext, Written;
    SentKeepsInv(p, outcome, id, k);
    WrittenServes(p, id, s);
    RestAttempts(Written(p, id), k);
    ConnectNextServes(Written(p, id), p.nextSlot, outcome, s);
  }

  lemma SendServes(p: Pool, outcome: Outcome, s: nat, k: int)
    requires Core(p, None) && Rest(p, k, -1) && Serving(p, s)
    ensures p.nextSlot < |p.slots| && (var a := p.slots[p.nextSlot].active; a.Some? ==> Named(p, a.value))
    ensures Serving(TryStartRequest(p, outcome), s)
  {
    hide Core, Rest, ConnectNext, Written;
    SlotInTurn(p, k);
    var a := p.slots[p.nextSlot].active;
    if a.Some? && p.links[a.value].state == Open
       && !p.links[a.value].writeBlocked && |p.links[a.value].inflight| < p.cfg.maxInflight {
      SentServes(p, outcome, a.value, s, k);
    }
  }

  lemma RestAttempts(p: Pool, k: int)
    requires Rest(p, k, -1)
    ensures Attempts(p)
  {
  }

  lemma MismatchServes(p: Pool, id: LinkId, s: nat)
    requires Named(p, id) && Serving(p, s) && InUse(p.links[id])
    ensures var q := OnEchoMismatch(p, id);
            && q.n.echoMismatch == p.n.echoMismatch + 1
            && (p.slots[s].active != Some(id) ==> Serving(q, s) && q.slots[s].active == p.slots[s].active)
  {
    var n := p.n.(echoMismatch := p.n.echoMismatch + 1);
    var active := p.slots[p.links[id].slot].active == Some(id);
    LetGoCounts(p, id, n, true, active);
    hide LetGo;
    if p.slots[s].active != Some(id) {
      LetGoServes(p, id, n, true, active, s);
    }
  }

  lemma EchoedServes(p: Pool, id: LinkId, s: nat)
    requires Named(p, id) && Serving(p, s) && p.links[id].inflight != []
    ensures var q := Echoed(p, id);
            && Serving(q, s) && Named(q, id) && q.links[id].state == p.links[id].state
            && q.slots == p.slots && q.n.echoMismatch == p.n.echoMismatch
  {
  }

  /** An echo that matches leaves an open link open, and only a mismatch is counted as one. */
  lemma EchoServes(p: Pool, id: LinkId, echo: seq<byte>, flushed: bool, s: nat)
    requires Named(p, id) && Serving(p, s) && InUse(p.links[id])
    ensures var q := OnEcho(p, id, echo, flushed);
            && p.n.echoMismatch <= q.n.echoMismatch
            && (p.slots[s].active != Some(id) || q.n.echoMismatch == p.n.echoMismatch ==>
                  Serving(q, s) && q.slots[s].active == p.slots[s].active)
  {
    hide LetGo, Echoed, OnEchoMismatch;
    if echo != p.cfg.message || p.links[id].inflight == [] {
      MismatchServes(p, id, s);
    } else {
      EchoedServes(p, id, s);
      var q := Echoed(p, id);
      if q.links[id].state == Retiring {
        LetGoCounts(q, id, q.n, flushed, false);
        LetGoServes(q, id, q.n, flushed, false, s);
      }
    }
  }

  lemma LetGoCounts(p: Pool, id: LinkId, n: Counters, release: bool, retry: bool)
    requires Named(p, id)
    ensures LetGo(p, id, n, release, retry).n.echoMismatch == n.echoMismatch
  {
  }

  lemma EchoStepServes(p: Pool, id: LinkId, flushed: bool, s: nat)
    requires Named(p, id) && Serving(p, s) && InUse(p.links[id])
    requires |p.links[id].received| >= |p.cfg.message|
    ensures var q := EchoStep(p, id, flushed);
            && p.n.echoMismatch <= q.n.echoMismatch
            && (p.slots[s].active != Some(id) || q.n.echoMismatch == p.n.echoMismatch ==>
                  Serving(q, s) && q.slots[s].active == p.slots[s].active)
  {
    var t := Taken(p, id);
    assert Named(t, id) && InUse(t.links[id]) && Serving(t, s) && t.slots == p.slots && t.n == p.n && t.cfg == p.cfg;
    hide OnEcho, Taken;
    EchoServes(t, id, p.links[id].received[..|p.cfg.message|], flushed, s);
  }

  lemma {:induction false} DrainServes(p: Pool, id: LinkId, flushed: bool, s: nat, k: int)
    requires Core(p, None) && Rest(p, k, -1) && p.prepared && Named(p, id) && Serving(p, s)
    requires p.cfg.expectEcho && p.cfg.message != []
    ensures var q := Drain(p, id, flushed);
            && p.n.echoMismatch <= q.n.echoMismatch
            && (p.slots[s].active != Some(id) || q.n.echoMismatch == p.n.echoMismatch ==> Serving(q, s))
    decreases |p.links[id].received|
  {
    hide Core, Rest, EchoStep;
    if |p.links[id].received| >= |p.cfg.message| && InUse(p.links[id]) {
      EchoStepServes(p, id, flushed, s);
      EchoStepKeepsInv(p, id, flushed, k, -1);
      var q := EchoStep(p, id, flushed);
      if Serving(q, s) {
        DrainServes(q, id, flushed, s, k);
      } else {
        DrainMismatches(q, id, flushed);
      }
    }
  }

  lemma {:induction false} DrainMismatches(p: Pool, id: LinkId, flushed: bool)
    requires Named(p, id) && p.cfg.message != []
    ensures p.n.echoMismatch <= Drain(p, id, flushed).n.echoMismatch
    decreases |p.links[id].received|
  {
    if |p.links[id].received| >= |p.cfg.message| && InUse(p.links[id]) {
      EchoStepCounts(p, id, flushed);
      hide EchoStep;
      DrainMismatches(EchoStep(p, id, flushed), id, flushed);
    }
  }

  lemma EchoStepCounts(p: Pool, id: LinkId, flushed: bool)
    requires Named(p, id) && |p.links[id].received| >= |p.cfg.message|
    ensures p.n.echoMismatch <= EchoStep(p, id, flushed).n.echoMismatch
  {
    var t := Taken(p, id);
    assert Named(t, id) && t.n == p.n && t.cfg == p.cfg;
    hide Taken, Echoed, OnEchoMismatch, CloseLink;
    var bytes := p.links[id].received[..|p.cfg.message|];
    assert EchoStep(p, id, flushed) == OnEcho(t, id, bytes, flushed);
    hide EchoStep;
    if bytes != t.cfg.message || t.links[id].inflight == [] {
      MismatchCounts(t, id);
    } else {
      EchoedCounts(t, id);
      CloseCounts(Echoed(t, id), id, flushed);
    }
  }

  lemma MismatchCounts(p: Pool, id: LinkId)
    requires Named(p, id)
    ensures p.n.echoMismatch <= OnEchoMismatch(p, id).n.echoMismatch
  {
  }

  lemma EchoedCounts(p: Pool, id: LinkId)
    requires Named(p, id) && p.links[id].inflight != []
    ensures Named(Echoed(p, id), id) && p.n.echoMismatch == Echoed(p, id).n.echoMismatch
  {
  }

  lemma CloseCounts(p: Pool, id: LinkId, raised: bool)
    requires Named(p, id)
    ensures p.n.echoMismatch == CloseLink(p, id, raised).n.echoMismatch
  {
  }

  lemma DataServes(p: Pool, id: LinkId, bytes: seq<byte>, flushed: bool, s: nat, k: int)
    requires Core(p, None) && Rest(p, k, -1) && p.prepared && Named(p, id) && Serving(p, s)
    requires p.cfg.expectEcho ==> p.cfg.message != []
    ensures var q := OnData(p, id, bytes, flushed);
            p.slots[s].active != Some(id) || q.n.echoMismatch == p.n.echoMismatch ==> Serving(q, s)
  {
    if p.cfg.expectEcho && InUse(p.links[id]) {
      var q := Buffered(p, id, bytes);
      BufferedKeepsInv(p, id, bytes, k, -1);
      hide Core, Rest, Drain;
      DrainServes(q, id, flushed, s, k);
    }
  }

  lemma {:induction false} DropServes(p: Pool, ids: seq<LinkId>, s: nat)
    requires Core(p, None) && Attempts(p) && Serving(p, s)
    ensures Serving(DropConnecting(p, ids), s)
  {
    if ids != [] {
      var q := DropConnecting(p, ids[..|ids| - 1]);
      var id := ids[|ids| - 1];
      DropServes(p, ids[..|ids| - 1], s);
      hide LetGo;
      if Named(q, id) && q.links[id].state == Connecting {
        var q1 := q.(dropped := q.dropped + 1);
        LetGoServes(q1, id, q1.n, true, false, s);
      }
    }
  }

  lemma FinishBeginServes(p: Pool, s: nat)
    requires Core(p, None) && Attempts(p) && Serving(p, s)
    ensures Serving(OnFinishBegin(p), s)
  {
    if !p.finished {
      var p1 := p.(finished := true, slots := RetriesOff(p.slots));
      assert Attempts(p1) && Serving(p1, s) by { hide Core; }
      hide Core, DropConnecting, RetriesOff, Serving, Attempts;
      RetriesOffKeepsCore(p);
      DropServes(p1, Links(p1.slots), s);
    }
  }

  lemma TimerServes(p: Pool, id: LinkId, s: nat)
    requires Named(p, id) && Serving(p, s)
    ensures Serving(OnTimer(p, id), s)
  {
    hide LetGo;
    var n := p.n.(connectFailures := p.n.connectFailures + 1);
    if p.links[id].state == Connecting {
      LetGoServes(p, id, n, true, true, s);
    } else if p.links[id].state == Retiring {
      LetGoServes(p, id, p.n, true, false, s);
    }
  }

  lemma ClosedServes(p: Pool, id: LinkId, s: nat)
    requires Named(p, id) && Serving(p, s) && p.slots[s].active != Some(id)
    ensures Serving(OnClosed(p, id), s)
  {
    hide LetGo;
    var l := p.links[id];
    var slot := p.slots[l.slot];
    var n := CountClose(p.n, l.state);
    LetGoServes(p, id, n, true, l.state != Closed && (slot.active == Some(id) || slot.standby == Some(id)), s);
  }

  /** A slot with an open connection keeps one through every event but those that take it. */
  lemma StepServes(p: Pool, e: Event, s: nat)
    requires Inv(p) && Serving(p, s) && !Takes(p, e, s)
    ensures Serving(Next(p, e), s)
  {
    if Enabled(p, e) {
      NothingIsSkipped(p, e);
      BeforeAndAfter(p, e);
      var k := if p.prepared then |p.slots| else 0;
      assert Attempts(p) && (!p.prepared ==> p.links == []);
      hide Core, Rest, Attempts;
      match e
      case Connected(id, flushed) => ConnectedServes(p, id, flushed, s);
      case CloseRaised(id) => ClosedServes(p, id, s);
      case LinkTimer(id) => TimerServes(p, id, s);
      case RetryTimer(t, outcome) => RetryServes(p, t, outcome, s);
      case Data(id, bytes, flushed) => DataServes(p, id, bytes, flushed, s, k);
      case Send(outcome) => SendServes(p, outcome, s, k);
      case FinishBegin => FinishBeginServes(p, s);
      case _ =>
    }
  }

  /** A message for a slot with an open connection is never unavailable, whatever its replacement does. */
  lemma ServedIsAvailable(p: Pool, outcome: Outcome)
    requires Inv(p) && Serving(p, p.nextSlot)
    ensures Enabled(p, Send(outcome)) && Next(p, Send(outcome)).n.unavailable == p.n.unavailable
  {
    NothingIsSkipped(p, Send(outcome));
    hide Inv, Core, ConnectNext;
    SendCounts(p, outcome);
  }

  lemma SendCounts(p: Pool, outcome: Outcome)
    requires p.nextSlot < |p.slots| && p.slots[p.nextSlot].active.Some?
    requires Named(p, p.slots[p.nextSlot].active.value) && p.links[p.slots[p.nextSlot].active.value].state == Open
    ensures TryStartRequest(p, outcome).n.unavailable == p.n.unavailable
  {
    var id := p.slots[p.nextSlot].active.value;
    var q := Written(p, id);
    assert Named(q, id) && q.slots == p.slots;
    ConnectNextCounts(q, p.nextSlot, outcome);
    hide ConnectNext;
  }

  lemma ConnectNextCounts(p: Pool, s: nat, outcome: Outcome)
    requires s < |p.slots| && (p.slots[s].active.Some? ==> Named(p, p.slots[s].active.value))
    ensures ConnectNext(p, s, outcome).n.unavailable == p.n.unavailable
  {
    var slot := p.slots[s];
    if !p.finished && slot.standby.None? && (slot.active.None? || p.links[slot.active.value].state == Open) {
      OpenCounts(p, s, slot.active.Some?, outcome);
    }
    hide OpenLink;
  }

  lemma OpenCounts(p: Pool, s: nat, standby: bool, outcome: Outcome)
    requires s < |p.slots| && (standby && p.slots[s].active.Some? ==> Named(p, p.slots[s].active.value))
    ensures OpenLink(p, s, standby, false, outcome).n.unavailable == p.n.unavailable
  {
    var q := Begun(p, s, standby, false);
    assert Named(q, |p.links|) && q.n == p.n && q.links[|p.links|].slot == s;
    assert q.slots[s].active.Some? ==> Named(q, q.slots[s].active.value);
    hide Begun;
    match outcome
    case FailedNow => ClosedCounts(q, |p.links|);
    case ConnectedNow(flushed) => ConnectedCounts(q, |p.links|, flushed);
    case _ =>
  }

  lemma ClosedCounts(p: Pool, id: LinkId)
    requires Named(p, id)
    ensures OnClosed(p, id).n.unavailable == p.n.unavailable
  {
  }

  lemma ConnectedCounts(p: Pool, id: LinkId, flushed: bool)
    requires Named(p, id)
    requires var a := p.slots[p.links[id].slot].active; a.Some? ==> Named(p, a.value)
    ensures OnConnected(p, id, flushed).n.unavailable == p.n.unavailable
  {
    hide Arrived, TakenOver, Rotated;
    var slot := p.slots[p.links[id].slot];
    var again := p.n.(reconnects := p.n.reconnects + 1);
    ArrivedUnavailable(p, id, p.n);
    ArrivedUnavailable(p, id, again);
    if slot.active.Some? {
      RotatedUnavailable(p, id, flushed);
    }
  }

  lemma ArrivedUnavailable(p: Pool, id: LinkId, n: Counters)
    requires Named(p, id)
    ensures Arrived(p, id, n).n.unavailable == TakenOver(p, id, n).n.unavailable == n.unavailable
  {
  }

  lemma RotatedUnavailable(p: Pool, id: LinkId, flushed: bool)
    requires Named(p, id)
    requires var a := p.slots[p.links[id].slot].active; a.Some? && Named(p, a.value)
    ensures Rotated(p, id, flushed).n.unavailable == p.n.unavailable
  {
    hide LetGo;
    var worn := p.slots[p.links[id].slot].active.value;
    var q := TakenOver(Retired(p, p.links[id].slot), id, p.n.(rotated := p.n.rotated + 1));
    LetGoUnavailable(q, worn, q.n, flushed, false);
  }

  lemma LetGoUnavailable(p: Pool, id: LinkId, n: Counters, release: bool, retry: bool)
    requires Named(p, id)
    ensures LetGo(p, id, n, release, retry).n.unavailable == n.unavailable
  {
  }

  /** Along a whole run: from when a slot has an open connection until an event takes it. */
  lemma {:induction false} RunServes(p: Pool, events: seq<Event>, s: nat)
    requires Inv(p) && Serving(p, s)
    requires forall i | 0 <= i < |events| ::
               var q := Run(p, events[..i]); s < |q.slots| && q.slots[s].active.Some? ==> !Takes(q, events[i], s)
    ensures Serving(Run(p, events), s)
  {
    if events != [] {
      var k := |events| - 1;
      forall i | 0 <= i < k
        ensures events[..k][..i] == events[..i]
      {
      }
      hide Inv, Next, Takes, Serving;
      RunServes(p, events[..k], s);
      RunKeepsInv(p, events[..k]);
      StepServes(Run(p, events[..k]), events[k], s);
    }
  }
}
