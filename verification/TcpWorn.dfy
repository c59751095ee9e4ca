/** When a connection is replaced: once it has carried the messages it may, and not before. */
module TcpWorn {
  import opened Tally
  import opened TcpBackoff
  import opened TcpPool
  import opened TcpSafety
  import opened TcpRuns

  /** The link has carried as many messages as a connection may. */
  predicate Worn(cfg: Config, l: Link) {
    0 < cfg.maxMessages <= l.sent
  }

  /** The slot's active link, if it has one, is worn out. */
  predicate WornActive(cfg: Config, links: seq<Link>, slot: Slot) {
    slot.active.Some? && slot.active.value < |links| ==> Worn(cfg, links[slot.active.value])
  }

  predicate WornRetiring(cfg: Config, links: seq<Link>, slot: Slot) {
    forall id | id in slot.retiring && id < |links| :: Worn(cfg, links[id])
  }

  /** An open link that is worn out has its replacement connecting, or a retry to come. */
  predicate Replacing(cfg: Config, links: seq<Link>, slot: Slot) {
    slot.active.Some? && slot.active.value < |links| && links[slot.active.value].state == Open
    && Worn(cfg, links[slot.active.value])
    ==> slot.standby.Some? || slot.retry.due.Some?
  }

  /** A standby is a connecting link of its own slot. */
  predicate StandbyOk(links: seq<Link>, slot: Slot, s: nat) {
    slot.standby.Some? ==>
      slot.standby.value < |links| && links[slot.standby.value].state == Connecting
      && links[slot.standby.value].slot == s
  }

  /** What holds of a slot; in `ex` a send or a retry is about to see to the replacement. */
  predicate SlotWorn(p: Pool, s: nat, ex: int)
    requires s < |p.slots|
  {
    var slot := p.slots[s];
    && (slot.standby.Some? ==> WornActive(p.cfg, p.links, slot))
    && WornRetiring(p.cfg, p.links, slot)
    && (!p.finished ==> StandbyOk(p.links, slot, s))
    && (!p.finished && s != ex ==> Replacing(p.cfg, p.links, slot))
  }

  ghost predicate Unused(links: seq<Link>) {
    forall id | 0 <= id < |links| :: links[id].state == Connecting ==> links[id].sent == 0
  }

  ghost predicate AllWorn(p: Pool, ex: int) {
    Unused(p.links) && forall s | 0 <= s < |p.slots| :: SlotWorn(p, s, ex)
  }

  // ----- What each operation keeps -----

  /** A link that has sent no less, and is open or connecting only if it was. */
  predicate Older(l: Link, m: Link) {
    && m.sent == l.sent && m.slot == l.slot
    && (m.state == l.state || (m.state != Open && m.state != Connecting))
  }

  lemma SameSlot(p: Pool, q: Pool, s: nat, ex: int)
    requires s < |p.slots| == |q.slots| && SlotWorn(p, s, ex)
    requires q.cfg == p.cfg && q.finished == p.finished && |q.links| == |p.links|
    requires forall id | 0 <= id < |p.links| :: Older(p.links[id], q.links[id])
    requires q.slots[s] == p.slots[s]
    requires p.slots[s].standby.Some? && p.slots[s].standby.value < |p.links| && !p.finished ==>
               q.links[p.slots[s].standby.value].state == p.links[p.slots[s].standby.value].state
    ensures SlotWorn(q, s, ex)
  {
    if p.slots[s].active.Some? && p.slots[s].active.value < |p.links| {
      assert Older(p.links[p.slots[s].active.value], q.links[p.slots[s].active.value]);
    }
    if p.slots[s].standby.Some? && p.slots[s].standby.value < |p.links| {
      assert Older(p.links[p.slots[s].standby.value], q.links[p.slots[s].standby.value]);
    }
    forall id | id in q.slots[s].retiring && id < |q.links|
      ensures Worn(q.cfg, q.links[id])
    {
      assert Older(p.links[id], q.links[id]);
    }
  }

  lemma {:induction false} WithoutSubset(xs: seq<LinkId>, id: LinkId, x: LinkId)
    requires x in Without(xs, id)
    ensures x in xs
  {
    if xs != [] && xs[0] != id && x != xs[0] {
      assert x in Without(xs[1..], id);
      WithoutSubset(xs[1..], id, x);
    }
  }

  lemma TakenOutRetiring(slot: Slot, id: LinkId, x: LinkId)
    requires x in TakeOut(slot, id).retiring
    ensures x in slot.retiring
  {
    if slot.active != Some(id) && slot.standby != Some(id) {
      WithoutSubset(slot.retiring, id, x);
    }
  }

  /** The slot of a link that is let go. */
  lemma LetGoSlot(p: Pool, id: LinkId, n: Counters, release: bool, retry: bool, ex: int)
    requires Named(p, id) && SlotWorn(p, p.links[id].slot, ex) && Unused(p.links)
    requires p.finished || (release && retry) || p.slots[p.links[id].slot].standby != Some(id)
    ensures SlotWorn(LetGo(p, id, n, release, retry), p.links[id].slot, ex)
  {
    hide CountLost, Ids, Without, HasPlace;
    var s := p.links[id].slot;
    var q := LetGo(p, id, n, release, retry);
    forall x | x in q.slots[s].retiring && x < |q.links|
      ensures Worn(q.cfg, q.links[x])
    {
      if release {
        TakenOutRetiring(p.slots[s], id, x);
      }
    }
  }

  lemma LetGoWorn(p: Pool, id: LinkId, n: Counters, release: bool, retry: bool, ex: int)
    requires Named(p, id) && AllWorn(p, ex)
    requires p.finished || (release && retry) || p.slots[p.links[id].slot].standby != Some(id)
    ensures AllWorn(LetGo(p, id, n, release, retry), ex)
  {
    var q := LetGo(p, id, n, release, retry);
    LetGoSlot(p, id, n, release, retry, ex);
    forall s | 0 <= s < |q.slots|
      ensures SlotWorn(q, s, ex)
    {
      if s != p.links[id].slot {
        LetGoOther(p, id, n, release, retry, s, ex);
      }
    }
    hide SlotWorn, TakeOut, HasPlace, Rescheduled, Ids;
  }

  lemma LetGoOther(p: Pool, id: LinkId, n: Counters, release: bool, retry: bool, s: nat, ex: int)
    requires Named(p, id) && s < |p.slots| && s != p.links[id].slot && SlotWorn(p, s, ex)
    ensures SlotWorn(LetGo(p, id, n, release, retry), s, ex)
  {
    hide TakeOut, HasPlace, Rescheduled, Ids, CountLost;
    SameSlot(p, LetGo(p, id, n, release, retry), s, ex);
  }

  /** Nothing about slots and the state of links has changed. */
  predicate Same(p: Pool, q: Pool) {
    && q.cfg == p.cfg && q.finished == p.finished && q.slots == p.slots && |q.links| == |p.links|
    && forall id | 0 <= id < |p.links| ::
         q.links[id].sent == p.links[id].sent && q.links[id].slot == p.links[id].slot
         && q.links[id].state == p.links[id].state
  }

  lemma SameWorn(p: Pool, q: Pool, ex: int)
    requires AllWorn(p, ex) && Same(p, q)
    ensures AllWorn(q, ex)
  {
    forall s | 0 <= s < |q.slots|
      ensures SlotWorn(q, s, ex)
    {
      assert SlotWorn(p, s, ex);
      hide SlotWorn;
      SameSlot(p, q, s, ex);
    }
  }

  lemma CloseWorn(p: Pool, id: LinkId, raised: bool, ex: int)
    requires Named(p, id) && AllWorn(p, ex)
    requires p.finished || p.slots[p.links[id].slot].standby != Some(id)
    ensures AllWorn(CloseLink(p, id, raised), ex)
  {
    hide AllWorn, LetGo;
    if p.links[id].state != Closed {
      LetGoWorn(p, id, p.n, raised, false, ex);
    }
  }

  lemma ClosedWorn(p: Pool, id: LinkId, ex: int)
    requires Named(p, id) && AllWorn(p, ex)
    ensures AllWorn(OnClosed(p, id), ex)
  {
    assert SlotWorn(p, p.links[id].slot, ex);
    hide AllWorn, LetGo;
    var l := p.links[id];
    var slot := p.slots[l.slot];
    LetGoWorn(p, id, CountClose(p.n, l.state), true,
              l.state != Closed && (slot.active == Some(id) || slot.standby == Some(id)), ex);
  }

  /** The only link that opens has sent nothing yet. */
  predicate Opens(links: seq<Link>, after: seq<Link>, id: LinkId) {
    && |after| == |links| && id < |links| && links[id].state == Connecting && after[id].state == Open
    && after[id].sent == links[id].sent == 0 && after[id].slot == links[id].slot
    && forall i | 0 <= i < |links| && i != id :: after[i] == links[i]
  }

  lemma OpensSlot(p: Pool, q: Pool, id: LinkId, s: nat, ex: int)
    requires s < |p.slots| == |q.slots| && SlotWorn(p, s, ex)
    requires q.cfg == p.cfg && q.finished == p.finished && Opens(p.links, q.links, id)
    requires q.slots[s] == p.slots[s] && p.slots[s].standby != Some(id)
    ensures SlotWorn(q, s, ex)
  {
  }

  lemma ArrivedWorn(p: Pool, id: LinkId, n: Counters, ex: int)
    requires Named(p, id) && AllWorn(p, ex) && p.links[id].state == Connecting && !p.finished
    requires p.slots[p.links[id].slot].standby != Some(id)
    ensures AllWorn(Arrived(p, id, n), ex)
  {
    var q := Arrived(p, id, n);
    forall s | 0 <= s < |q.slots|
      ensures SlotWorn(q, s, ex)
    {
      assert SlotWorn(p, s, ex);
      OpensSlot(p, q, id, s, ex);
    }
    hide SlotWorn;
  }

  lemma TakenOverSlot(p: Pool, id: LinkId, n: Counters, ex: int)
    requires Named(p, id) && p.links[id].state == Connecting && p.links[id].sent == 0 && !p.finished
    requires var slot := p.slots[p.links[id].slot]; WornRetiring(p.cfg, p.links, slot)
    ensures SlotWorn(TakenOver(p, id, n), p.links[id].slot, ex)
  {
  }

  lemma TakenOverWorn(p: Pool, id: LinkId, n: Counters, ex: int)
    requires Named(p, id) && AllWorn(p, ex) && p.links[id].state == Connecting && !p.finished
    ensures AllWorn(TakenOver(p, id, n), ex)
  {
    var q := TakenOver(p, id, n);
    var t := p.links[id].slot;
    assert SlotWorn(p, t, ex);
    TakenOverSlot(p, id, n, ex);
    forall s | 0 <= s < |q.slots|
      ensures SlotWorn(q, s, ex)
    {
      assert SlotWorn(p, s, ex);
      if s != t {
        OpensSlot(p, q, id, s, ex);
      }
    }
    hide SlotWorn;
  }

  lemma RetiredWorn(p: Pool, s: nat, ex: int)
    requires AllWorn(p, ex) && s < |p.slots| && p.slots[s].active.Some? && Named(p, p.slots[s].active.value)
    requires p.slots[s].standby.Some?
    ensures AllWorn(Retired(p, s), ex)
  {
    var q := Retired(p, s);
    var worn := p.slots[s].active.value;
    assert SlotWorn(p, s, ex);
    forall id | 0 <= id < |p.links|
      ensures Older(p.links[id], q.links[id])
    {
    }
    forall t | 0 <= t < |q.slots|
      ensures SlotWorn(q, t, ex)
    {
      assert SlotWorn(p, t, ex);
      if t != s {
        hide SlotWorn, Retired;
        SameSlot(p, q, t, ex);
      }
    }
  }

  lemma RotatedWorn(p: Pool, id: LinkId, flushed: bool, ex: int)
    requires Named(p, id) && AllWorn(p, ex) && p.links[id].state == Connecting && !p.finished
    requires var slot := p.slots[p.links[id].slot];
      slot.standby == Some(id) && slot.active.Some? && Named(p, slot.active.value)
    ensures AllWorn(Rotated(p, id, flushed), ex)
  {
    var s := p.links[id].slot;
    var worn := p.slots[s].active.value;
    var r := Retired(p, s);
    var n := p.n.(rotated := p.n.rotated + 1);
    var q := TakenOver(r, id, n);
    assert Named(r, id) && r.links[id].state == Connecting && !r.finished;
    assert Named(q, worn) && q.links[worn].slot == p.links[worn].slot;
    RetiredWorn(p, s, ex);
    TakenOverWorn(r, id, n, ex);
    assert SlotWorn(q, q.links[worn].slot, ex);
    if p.links[worn].state == Open && p.links[worn].inflight == [] {
      assert q.links[worn].state == Retiring;
      hide AllWorn, CloseLink, Retired, TakenOver;
      CloseWorn(q, worn, flushed, ex);
    }
  }

  lemma ConnectedWorn(p: Pool, id: LinkId, flushed: bool, ex: int)
    requires Named(p, id) && AllWorn(p, ex) && (p.links[id].state == Connecting ==> !p.finished)
    requires var a := p.slots[p.links[id].slot].active; a.Some? ==> Named(p, a.value)
    ensures AllWorn(OnConnected(p, id, flushed), ex)
  {
    hide AllWorn, Arrived, TakenOver, Rotated;
    var l := p.links[id];
    var slot := p.slots[l.slot];
    if l.state == Connecting {
      if slot.standby != Some(id) {
        ArrivedWorn(p, id, if l.initial then p.n else p.n.(reconnects := p.n.reconnects + 1), ex);
      } else if slot.active.None? {
        TakenOverWorn(p, id, p.n.(reconnects := p.n.reconnects + 1), ex);
      } else {
        RotatedWorn(p, id, flushed, ex);
      }
    }
  }

  // ----- Opening -----

  /** A replacement is begun for a link that is worn out, a first link where there is none. */
  predicate MayBegin(p: Pool, s: nat, standby: bool) {
    && s < |p.slots| && p.slots[s].standby.None? && !p.finished
    && (standby ==> WornActive(p.cfg, p.links, p.slots[s]))
  }

  /** The slot names links that exist. */
  predicate OnlyNamed(p: Pool, s: nat)
    requires s < |p.slots|
  {
    && (p.slots[s].active.Some? ==> p.slots[s].active.value < |p.links|)
    && forall id | id in p.slots[s].retiring :: id < |p.links|
  }

  ghost predicate AllNamed(p: Pool) {
    forall s | 0 <= s < |p.slots| :: OnlyNamed(p, s)
  }

  /** Once a connect has begun the slot has seen to its replacement. */
  function Seen(ex: int, s: nat): int { if ex == s then -1 else ex }

  lemma BegunSlot(p: Pool, s: nat, standby: bool, initial: bool, ex: int)
    requires MayBegin(p, s, standby) && SlotWorn(p, s, ex) && OnlyNamed(p, s)
    ensures SlotWorn(Begun(p, s, standby, initial), s, Seen(ex, s))
  {
  }

  lemma BegunOther(p: Pool, s: nat, standby: bool, initial: bool, t: nat, ex: int)
    requires s < |p.slots| && t < |p.slots| && t != s && SlotWorn(p, t, ex)
    requires OnlyNamed(p, t)
    ensures SlotWorn(Begun(p, s, standby, initial), t, ex)
  {
  }

  lemma BegunWorn(p: Pool, s: nat, standby: bool, initial: bool, ex: int)
    requires AllWorn(p, ex) && AllNamed(p) && MayBegin(p, s, standby)
    ensures AllWorn(Begun(p, s, standby, initial), Seen(ex, s))
  {
    var q := Begun(p, s, standby, initial);
    assert SlotWorn(p, s, ex) && OnlyNamed(p, s);
    BegunSlot(p, s, standby, initial, ex);
    forall t | 0 <= t < |q.slots|
      ensures SlotWorn(q, t, Seen(ex, s))
    {
      if t != s {
        assert SlotWorn(p, t, ex) && OnlyNamed(p, t);
        BegunOther(p, s, standby, initial, t, ex);
      }
    }
    hide SlotWorn;
  }

  lemma ScheduledWorn(p: Pool, s: nat, ex: int)
    requires AllWorn(p, ex) && s < |p.slots| && !p.finished
    ensures AllWorn(OpenLink(p, s, false, false, NoConnection), Seen(ex, s))
  {
    var q := OpenLink(p, s, false, false, NoConnection);
    forall t | 0 <= t < |q.slots|
      ensures SlotWorn(q, t, Seen(ex, s))
    {
      assert SlotWorn(p, t, ex);
      if t != s {
        SameSlot(p, q, t, ex);
      }
    }
  }

  lemma OpenWorn(p: Pool, s: nat, standby: bool, initial: bool, outcome: Outcome, ex: int)
    requires AllWorn(p, ex) && AllNamed(p) && MayBegin(p, s, standby)
    requires standby && p.slots[s].active.Some? ==> Named(p, p.slots[s].active.value)
    ensures AllWorn(OpenLink(p, s, standby, initial, outcome), Seen(ex, s))
  {
    var b, id := Begun(p, s, standby, initial), |p.links|;
    assert Named(b, id) && b.links[id].slot == s && !b.finished;
    assert b.slots[s].active.Some? ==> Named(b, b.slots[s].active.value);
    BegunWorn(p, s, standby, initial, ex);
    hide AllWorn, AllNamed, Begun, OnClosed, OnConnected;
    match outcome
    case NoConnection => ScheduledWorn(p, s, ex);
    case Pending =>
    case FailedNow => ClosedWorn(b, id, Seen(ex, s));
    case ConnectedNow(flushed) => ConnectedWorn(b, id, flushed, Seen(ex, s));
  }

  lemma SeenTo(p: Pool, s: nat)
    requires AllWorn(p, s) && s < |p.slots|
    requires p.finished || p.slots[s].standby.Some? || p.slots[s].retry.due.Some?
             || Replacing(p.cfg, p.links, p.slots[s])
    ensures AllWorn(p, -1)
  {
    forall t | 0 <= t < |p.slots|
      ensures SlotWorn(p, t, -1)
    {
      assert SlotWorn(p, t, s);
    }
  }

  lemma ConnectNextWorn(p: Pool, s: nat, outcome: Outcome)
    requires AllWorn(p, s) && AllNamed(p) && s < |p.slots|
    requires p.slots[s].active.Some? ==> Named(p, p.slots[s].active.value)
    ensures AllWorn(ConnectNext(p, s, outcome), -1)
  {
    hide AllWorn, AllNamed, OpenLink;
    var slot := p.slots[s];
    if p.finished || slot.standby.Some? {
      SeenTo(p, s);
    } else if slot.active.None? {
      OpenWorn(p, s, false, false, outcome, s);
    } else if p.links[slot.active.value].state == Open && RotationDue(p, p.links[slot.active.value]) {
      OpenWorn(p, s, true, false, outcome, s);
    } else {
      SeenTo(p, s);
    }
  }

  /** Every slot's links exist. */
  lemma CoreNamed(p: Pool)
    requires Core(p, None)
    ensures AllNamed(p)
  {
    forall s | 0 <= s < |p.slots|
      ensures OnlyNamed(p, s)
    {
      assert RolesOk(p.links, p.slots[s], p.finished);
    }
  }

  lemma FiredWorn(p: Pool, s: nat)
    requires AllWorn(p, -1) && s < |p.slots|
    ensures AllWorn(p.(slots := p.slots[s := p.slots[s].(retry := Fire(p.slots[s].retry, p.now))]), s)
  {
    var q := p.(slots := p.slots[s := p.slots[s].(retry := Fire(p.slots[s].retry, p.now))]);
    forall t | 0 <= t < |q.slots|
      ensures SlotWorn(q, t, s)
    {
      assert SlotWorn(p, t, -1);
    }
  }

  lemma RetryWorn(p: Pool, s: nat, outcome: Outcome)
    requires AllWorn(p, -1) && AllNamed(p) && s < |p.slots|
    requires p.slots[s].active.Some? ==> Named(p, p.slots[s].active.value)
    ensures AllWorn(OnRetryTimer(p, s, outcome), -1)
  {
    var q := p.(slots := p.slots[s := p.slots[s].(retry := Fire(p.slots[s].retry, p.now))]);
    forall t | 0 <= t < |q.slots|
      ensures OnlyNamed(q, t)
    {
      assert OnlyNamed(p, t);
    }
    FiredWorn(p, s);
    hide AllWorn, ConnectNext, Fire, OnlyNamed;
    ConnectNextWorn(q, s, outcome);
  }

  // ----- Sending and receiving -----

  lemma WrittenSlot(p: Pool, id: LinkId, s: nat)
    requires |p.slots| > 0 && Named(p, id) && p.links[id].state == Open && s < |p.slots| && SlotWorn(p, s, -1)
    requires p.slots[s].active == Some(id) ==> s == p.nextSlot
    ensures SlotWorn(Written(p, id), s, p.nextSlot)
  {
  }

  lemma WrittenWorn(p: Pool, id: LinkId)
    requires AllWorn(p, -1) && p.nextSlot < |p.slots| && Named(p, id) && p.links[id].state == Open
    requires p.links[id].slot == p.nextSlot && Owned(p)
    ensures AllWorn(Written(p, id), p.nextSlot)
  {
    var q := Written(p, id);
    forall s | 0 <= s < |q.slots|
      ensures SlotWorn(q, s, p.nextSlot)
    {
      assert SlotWorn(p, s, -1);
      WrittenSlot(p, id, s);
    }
    hide SlotWorn;
  }

  /** A slot's active link is its own. */
  ghost predicate Owned(p: Pool) {
    forall s | 0 <= s < |p.slots| ::
      p.slots[s].active.Some? && p.slots[s].active.value < |p.links| ==> p.links[p.slots[s].active.value].slot == s
  }

  lemma CoreOwned(p: Pool)
    requires Core(p, None)
    ensures Owned(p)
  {
    forall s | 0 <= s < |p.slots| && p.slots[s].active.Some? && p.slots[s].active.value < |p.links|
      ensures p.links[p.slots[s].active.value].slot == s
    {
      assert Places(p.slots[s], p.slots[s].active.value) == PlacesOwed(p.links, s, p.slots[s].active.value);
    }
  }

  lemma TurnedWorn(p: Pool, n: Counters)
    requires AllWorn(p, -1) && |p.slots| > 0
    ensures AllWorn(Turned(p, n), -1)
  {
    SameWorn(p, Turned(p, n), -1);
  }

  lemma SentWorn(p: Pool, outcome: Outcome, id: LinkId)
    requires AllWorn(p, -1) && AllNamed(p) && Owned(p) && p.nextSlot < |p.slots|
    requires p.slots[p.nextSlot].active == Some(id) && Named(p, id) && p.links[id].state == Open
    ensures var q := Written(p, id);
      && Named(q, id) && q.slots == p.slots
      && AllWorn(if RotationDue(q, q.links[id]) && p.slots[p.nextSlot].retry.due.None?
                 then ConnectNext(q, p.nextSlot, outcome) else q, -1)
  {
    var q, s := Written(p, id), p.nextSlot;
    assert Named(q, id) && q.slots == p.slots && q.cfg == p.cfg && |q.links| == |p.links|;
    forall t | 0 <= t < |q.slots|
      ensures OnlyNamed(q, t)
    {
      assert OnlyNamed(p, t);
    }
    WrittenWorn(p, id);
    hide AllWorn, ConnectNext, Written, OnlyNamed, Owned;
    if RotationDue(q, q.links[id]) && p.slots[s].retry.due.None? {
      ConnectNextWorn(q, s, outcome);
    } else {
      SeenTo(q, s);
    }
  }

  lemma SendWorn(p: Pool, outcome: Outcome)
    requires AllWorn(p, -1) && AllNamed(p) && Owned(p) && p.nextSlot < |p.slots|
    requires var a := p.slots[p.nextSlot].active; a.Some? ==> Named(p, a.value)
    ensures AllWorn(TryStartRequest(p, outcome), -1)
  {
    hide AllWorn, AllNamed, Owned, ConnectNext, Written, Turned;
    TurnedWorn(p, p.n.(unavailable := p.n.unavailable + 1));
    TurnedWorn(p, p.n.(deferred := p.n.deferred + 1));
    var a := p.slots[p.nextSlot].active;
    if a.Some? && p.links[a.value].state == Open {
      SentWorn(p, outcome, a.value);
    }
  }

  /** A link in use is no standby. */
  lemma InUseNoStandby(p: Pool, id: LinkId, ex: int)
    requires AllWorn(p, ex) && Named(p, id) && InUse(p.links[id])
    ensures p.finished || p.slots[p.links[id].slot].standby != Some(id)
  {
    assert SlotWorn(p, p.links[id].slot, ex);
  }

  lemma MismatchWorn(p: Pool, id: LinkId)
    requires AllWorn(p, -1) && Named(p, id) && InUse(p.links[id])
    ensures AllWorn(OnEchoMismatch(p, id), -1)
  {
    InUseNoStandby(p, id, -1);
    hide AllWorn, LetGo;
    LetGoWorn(p, id, p.n.(echoMismatch := p.n.echoMismatch + 1), true,
              p.slots[p.links[id].slot].active == Some(id), -1);
  }

  lemma EchoedSame(p: Pool, id: LinkId)
    requires Named(p, id) && InUse(p.links[id]) && p.links[id].inflight != []
    ensures var q := Echoed(p, id); Named(q, id) && InUse(q.links[id]) && Same(p, q)
  {
  }

  lemma EchoWorn(p: Pool, id: LinkId, echo: seq<byte>, flushed: bool)
    requires AllWorn(p, -1) && Named(p, id) && InUse(p.links[id])
    ensures AllWorn(OnEcho(p, id, echo, flushed), -1)
  {
    hide AllWorn, OnEchoMismatch, Echoed, CloseLink, Same;
    if echo != p.cfg.message || p.links[id].inflight == [] {
      MismatchWorn(p, id);
    } else {
      var q := Echoed(p, id);
      EchoedSame(p, id);
      SameWorn(p, q, -1);
      InUseNoStandby(q, id, -1);
      CloseWorn(q, id, flushed, -1);
    }
  }

  lemma EchoStepWorn(p: Pool, id: LinkId, flushed: bool)
    requires AllWorn(p, -1) && Named(p, id) && InUse(p.links[id]) && |p.links[id].received| >= |p.cfg.message|
    ensures AllWorn(EchoStep(p, id, flushed), -1)
  {
    var t := Taken(p, id);
    assert Named(t, id) && InUse(t.links[id]) && Same(p, t);
    hide AllWorn, OnEcho, Taken, Same;
    SameWorn(p, t, -1);
    EchoWorn(t, id, p.links[id].received[..|p.cfg.message|], flushed);
  }

  lemma {:induction false} DrainWorn(p: Pool, id: LinkId, flushed: bool)
    requires AllWorn(p, -1) && Named(p, id) && p.cfg.message != []
    ensures AllWorn(Drain(p, id, flushed), -1)
    decreases |p.links[id].received|
  {
    hide AllWorn, EchoStep;
    if |p.links[id].received| >= |p.cfg.message| && InUse(p.links[id]) {
      EchoStepWorn(p, id, flushed);
      DrainWorn(EchoStep(p, id, flushed), id, flushed);
    }
  }

  lemma DataWorn(p: Pool, id: LinkId, bytes: seq<byte>, flushed: bool)
    requires AllWorn(p, -1) && Named(p, id) && (p.cfg.expectEcho ==> p.cfg.message != [])
    ensures AllWorn(OnData(p, id, bytes, flushed), -1)
  {
    var q := Buffered(p, id, bytes);
    assert Named(q, id) && Same(p, q);
    hide AllWorn, Drain, Buffered, Same;
    if p.cfg.expectEcho && InUse(p.links[id]) {
      SameWorn(p, q, -1);
      DrainWorn(q, id, flushed);
    }
  }

  lemma TimerWorn(p: Pool, id: LinkId)
    requires AllWorn(p, -1) && Named(p, id)
    ensures AllWorn(OnTimer(p, id), -1)
  {
    var l := p.links[id];
    var q := p.(links := p.links[id := l.(timerArmed := false)]);
    assert Same(p, q);
    hide AllWorn, LetGo, CloseLink, Same;
    SameWorn(p, q, -1);
    if l.state == Connecting {
      LetGoWorn(p, id, p.n.(connectFailures := p.n.connectFailures + 1), true, true, -1);
    } else if l.state == Retiring {
      InUseNoStandby(p, id, -1);
      CloseWorn(p, id, true, -1);
    }
  }

  // ----- The beginning and the end -----

  ghost predicate NoStandby(p: Pool) {
    forall s | 0 <= s < |p.slots| :: p.slots[s].standby.None?
  }

  lemma OpenNamed(p: Pool, s: nat, outcome: Outcome)
    requires s < |p.slots| && NoStandby(p) && AllNamed(p)
    ensures NoStandby(OpenLink(p, s, false, true, outcome)) && AllNamed(OpenLink(p, s, false, true, outcome))
  {
    var b, id := Begun(p, s, false, true), |p.links|;
    assert NoStandby(b) && Named(b, id) && b.links[id].slot == s && b.links[id].state == Connecting;
    forall t | 0 <= t < |b.slots|
      ensures OnlyNamed(b, t)
    {
      assert OnlyNamed(p, t);
    }
    hide Begun;
    if outcome.NoConnection? {
      forall t | 0 <= t < |p.slots|
        ensures OnlyNamed(OpenLink(p, s, false, true, outcome), t)
      {
        assert OnlyNamed(p, t);
      }
    } else if outcome.FailedNow? {
      FailedNamed(b, id);
    } else if outcome.ConnectedNow? {
      ArrivedNamed(b, id, b.n);
    }
  }

  lemma FailedNamed(p: Pool, id: LinkId)
    requires Named(p, id) && NoStandby(p) && AllNamed(p)
    ensures NoStandby(OnClosed(p, id)) && AllNamed(OnClosed(p, id))
  {
    var q := OnClosed(p, id);
    forall t | 0 <= t < |q.slots|
      ensures OnlyNamed(q, t)
    {
      assert OnlyNamed(p, t);
      forall x | x in q.slots[t].retiring
        ensures x < |q.links|
      {
        if t == p.links[id].slot {
          TakenOutRetiring(p.slots[t], id, x);
        }
      }
    }
  }

  lemma ArrivedNamed(p: Pool, id: LinkId, n: Counters)
    requires Named(p, id) && NoStandby(p) && AllNamed(p)
    ensures NoStandby(Arrived(p, id, n)) && AllNamed(Arrived(p, id, n))
  {
    forall t | 0 <= t < |p.slots|
      ensures OnlyNamed(Arrived(p, id, n), t)
    {
      assert OnlyNamed(p, t);
    }
  }

  lemma {:induction false} OpenAllWorn(p: Pool, outcomes: seq<Outcome>)
    requires |outcomes| <= |p.slots| && AllWorn(p, -1) && AllNamed(p) && NoStandby(p) && !p.finished
    ensures var q := OpenAll(p, outcomes); AllWorn(q, -1) && AllNamed(q) && NoStandby(q)
    decreases |outcomes|
  {
    if outcomes != [] {
      var k := |outcomes| - 1;
      OpenAllWorn(p, outcomes[..k]);
      var q := OpenAll(p, outcomes[..k]);
      assert q.slots[k].standby.None?;
      hide AllWorn, AllNamed, NoStandby, OpenLink;
      OpenWorn(q, k, false, true, outcomes[k], -1);
      OpenNamed(q, k, outcomes[k]);
    }
  }

  lemma {:induction false} DropWorn(p: Pool, ids: seq<LinkId>)
    requires AllWorn(p, -1) && p.finished
    ensures AllWorn(DropConnecting(p, ids), -1)
    decreases |ids|
  {
    hide AllWorn, CloseLink;
    if ids != [] {
      var q := DropConnecting(p, ids[..|ids| - 1]);
      var id := ids[|ids| - 1];
      DropWorn(p, ids[..|ids| - 1]);
      if Named(q, id) {
        var q1 := q.(dropped := q.dropped + 1);
        SameWorn(q, q1, -1);
        CloseWorn(q1, id, true, -1);
      }
    }
  }

  lemma {:induction false} CloseEachWorn(p: Pool, ids: seq<LinkId>, flushed: set<LinkId>)
    requires AllWorn(p, -1) && p.finished
    ensures AllWorn(CloseEach(p, ids, flushed), -1)
    decreases |ids|
  {
    hide AllWorn, CloseLink;
    if ids != [] {
      var q := CloseEach(p, ids[..|ids| - 1], flushed);
      var id := ids[|ids| - 1];
      CloseEachWorn(p, ids[..|ids| - 1], flushed);
      if Named(q, id) {
        var q1 := if q.links[id].inflight != [] then q.(n := q.n.(drainIncomplete := q.n.drainIncomplete + 1)) else q;
        SameWorn(q, q1, -1);
        CloseWorn(q1, id, id in flushed, -1);
      }
    }
  }

  lemma FinishWorn(p: Pool)
    requires AllWorn(p, -1)
    ensures AllWorn(OnFinishBegin(p), -1)
  {
    if !p.finished {
      var p1 := p.(finished := true, slots := RetriesOff(p.slots));
      forall s | 0 <= s < |p1.slots|
        ensures SlotWorn(p1, s, -1)
      {
        assert SlotWorn(p, s, -1);
      }
      hide SlotWorn, RetriesOff, DropConnecting;
      DropWorn(p1, Links(p1.slots));
    }
  }

  lemma EndWorn(p: Pool, flushed: set<LinkId>)
    requires AllWorn(p, -1) && p.finished
    ensures AllWorn(OnFinishEnd(p, flushed), -1)
  {
    hide AllWorn, CloseEach;
    var q := CloseEach(p, Links(p.slots), flushed);
    CloseEachWorn(p, Links(p.slots), flushed);
    SameWorn(q, q.(ended := true), -1);
  }

  // ----- Every run -----

  /** Nothing connects after finish(), nothing is there before prepare(), and the clock changes no slot. */
  lemma Around(p: Pool, e: Event)
    requires Inv(p) && Enabled(p, e)
    ensures e.Connected? && p.links[e.link].state == Connecting ==> !p.finished
    ensures e.Prepare? ==> NoStandby(p.(prepared := true))
    ensures AllNamed(p) && Owned(p)
  {
    CoreNamed(p);
    CoreOwned(p);
    if e.Prepare? {
      forall s | 0 <= s < |p.slots|
        ensures p.slots[s].standby.None?
      {
        assert RolesOk(p.links, p.slots[s], p.finished);
      }
    }
  }

  lemma PrepareWorn(p: Pool, outcomes: seq<Outcome>)
    requires AllWorn(p, -1) && AllNamed(p) && NoStandby(p.(prepared := true)) && !p.finished
    requires |outcomes| == |p.slots|
    ensures AllWorn(OpenAll(p.(prepared := true), outcomes), -1)
  {
    var p1 := p.(prepared := true);
    SameWorn(p, p1, -1);
    assert AllNamed(p1) by {
      forall s | 0 <= s < |p1.slots|
        ensures OnlyNamed(p1, s)
      {
        assert OnlyNamed(p, s);
      }
    }
    hide AllWorn, AllNamed, OpenAll, NoStandby;
    OpenAllWorn(p1, outcomes);
  }

  lemma QuietWorn(p: Pool, e: Event)
    requires AllWorn(p, -1) && Enabled(p, e) && ActiveNamed(p) && (p.cfg.expectEcho ==> p.cfg.message != [])
    requires e.Watermark? || e.Elapse? || e.SetMeasure?
    ensures AllWorn(Step(p, e), -1)
  {
    SameWorn(p, Step(p, e), -1);
  }

  lemma StepWorn(p: Pool, e: Event)
    requires Inv(p) && AllWorn(p, -1) && Enabled(p, e) && ActiveNamed(p)
    requires p.cfg.expectEcho ==> p.cfg.message != []
    ensures AllWorn(Step(p, e), -1)
  {
    Around(p, e);
    hide Inv, AllWorn, AllNamed, Owned, NoStandby, OpenAll, OnConnected, OnClosed, OnTimer, OnRetryTimer, OnData,
         OnWatermark, TryStartRequest, OnFinishBegin, OnFinishEnd;
    match e
    case Prepare(outcomes) => PrepareWorn(p, outcomes);
    case Connected(id, flushed) => ConnectedWorn(p, id, flushed, -1);
    case CloseRaised(id) => ClosedWorn(p, id, -1);
    case LinkTimer(id) => TimerWorn(p, id);
    case RetryTimer(s, outcome) => RetryWorn(p, s, outcome);
    case Watermark(_, _) => QuietWorn(p, e);
    case Data(id, bytes, flushed) => DataWorn(p, id, bytes, flushed);
    case Send(outcome) => SendWorn(p, outcome);
    case Elapse(_) => QuietWorn(p, e);
    case SetMeasure(_) => QuietWorn(p, e);
    case FinishBegin => FinishWorn(p);
    case FinishEnd(flushed) => EndWorn(p, flushed);
  }

  lemma {:induction false} RunWorn(cfg: Config, now: int, events: seq<Event>)
    requires Sound(cfg)
    ensures AllWorn(Run(New(cfg, now), events), -1)
  {
    if events != [] {
      var before, e := events[..|events| - 1], events[|events| - 1];
      var p := Run(New(cfg, now), before);
      RunWorn(cfg, now, before);
      NewInv(cfg, now);
      RunKeepsInv(New(cfg, now), before);
      hide Inv, AllWorn, Step, Enabled, New, ActiveNamed;
      if Enabled(p, e) && ActiveNamed(p) && (p.cfg.expectEcho ==> p.cfg.message != []) {
        StepWorn(p, e);
      }
    }
  }

  /** A slot replaces its open link if that is worn out, and no other. */
  ghost predicate ReplacedWhenWorn(p: Pool, s: nat)
    requires s < |p.slots| && OnlyNamed(p, s)
  {
    var slot := p.slots[s];
    && (slot.active.Some? && slot.standby.Some? ==> Worn(p.cfg, p.links[slot.active.value]))
    && (forall id | id in slot.retiring :: Worn(p.cfg, p.links[id]))
    && (!p.finished && slot.active.Some? && p.links[slot.active.value].state == Open
        && Worn(p.cfg, p.links[slot.active.value])
        ==> slot.standby.Some? || slot.retry.due.Some?)
  }

  lemma WornReplaced(p: Pool, s: nat)
    requires AllWorn(p, -1) && AllNamed(p) && s < |p.slots|
    ensures OnlyNamed(p, s) && ReplacedWhenWorn(p, s)
  {
    assert SlotWorn(p, s, -1) && OnlyNamed(p, s);
  }

  /** After every run: a replacement connects behind an active link, or has taken over from a link that retires, only
      where that link has carried the messages it may; and until finish() an open link that has is being
      replaced, or a retry is armed that will see to it. Where there is no limit nothing is ever replaced. */
  lemma RotatesWhenWorn(cfg: Config, now: int, events: seq<Event>)
    requires Sound(cfg)
    ensures var p := Run(New(cfg, now), events);
      && (forall s | 0 <= s < |p.slots| :: OnlyNamed(p, s) && ReplacedWhenWorn(p, s))
  {
    var p := Run(New(cfg, now), events);
    RunWorn(cfg, now, events);
    NewInv(cfg, now);
    RunKeepsInv(New(cfg, now), events);
    CoreNamed(p);
    hide Inv, AllWorn, Run, New, OnlyNamed, ReplacedWhenWorn;
    forall s | 0 <= s < |p.slots|
      ensures OnlyNamed(p, s) && ReplacedWhenWorn(p, s)
    {
      WornReplaced(p, s);
    }
  }
}
