/** Which echoes a link has matched is decided by what was sent on it and what came back, over every run:
    not by how the bytes were split, or by what else happened between them. */
module TcpMatching {
  import opened Tally
  import opened TcpFrames
  import opened TcpPool
  import opened TcpSafety
  import opened TcpRuns

  /** No whole message's worth of bytes is left unmatched, and a link matches every exact copy that came
      back, up to as many as were sent. */
  ghost predicate Whole(cfg: Config, l: Link) {
    cfg.expectEcho ==>
      && (l.state != Closed ==> |l.received| < |cfg.message|)
      && (l.echoed < l.sent ==> !(Repeat(cfg.message, l.echoed + 1) <= l.returned))
  }

  ghost predicate AllWhole(cfg: Config, links: seq<Link>) {
    forall id | 0 <= id < |links| :: Whole(cfg, links[id])
  }

  // ----- Bytes -----

  lemma NotYet(cfg: Config, l: Link)
    requires cfg.expectEcho && l.returned == Repeat(cfg.message, l.echoed) + l.received && |l.received| < |cfg.message|
    ensures !(Repeat(cfg.message, l.echoed + 1) <= l.returned)
  {
    assert Repeat(cfg.message, l.echoed + 1) == Repeat(cfg.message, l.echoed) + cfg.message;
  }

  lemma NotACopy(cfg: Config, l: Link)
    requires l.returned == Repeat(cfg.message, l.echoed) + l.received
    requires |l.received| >= |cfg.message| && l.received[..|cfg.message|] != cfg.message
    ensures !(Repeat(cfg.message, l.echoed + 1) <= l.returned)
  {
    var k, m := |Repeat(cfg.message, l.echoed)|, |cfg.message|;
    assert Repeat(cfg.message, l.echoed + 1) == Repeat(cfg.message, l.echoed) + cfg.message;
    assert l.returned[k..k + m] == l.received[..m];
    assert Repeat(cfg.message, l.echoed + 1)[k..k + m] == cfg.message;
  }

  /** What was whole stays so when nothing is sent or read. */
  lemma StillKeepsWhole(p: Pool, q: Pool)
    requires AllWhole(p.cfg, p.links) && Still(p, q) && (p.cfg.expectEcho ==> p.cfg.message != [])
    ensures AllWhole(p.cfg, q.links)
  {
    forall id | 0 <= id < |q.links|
      ensures Whole(p.cfg, q.links[id])
    {
      if id < |p.links| {
        assert Whole(p.cfg, p.links[id]) && Quiet(p.links[id], q.links[id]);
      } else {
        FreshIsWhole(p.cfg, q.links[id]);
      }
    }
  }

  lemma WrittenKeepsWhole(p: Pool, id: LinkId)
    requires |p.slots| > 0 && Named(p, id) && LinkOk(p.cfg, p.links[id]) && p.links[id].state == Open
    requires AllWhole(p.cfg, p.links)
    ensures AllWhole(p.cfg, Written(p, id).links)
  {
    WrittenIs(p, id);
    if p.cfg.expectEcho {
      NotYet(p.cfg, p.links[id]);
    }
    hide Written;
  }

  lemma SendKeepsWhole(p: Pool, outcome: Outcome)
    requires Inv(p) && AllWhole(p.cfg, p.links) && p.nextSlot < |p.slots| && ActiveNamed(p)
    requires p.cfg.expectEcho ==> p.cfg.message != []
    ensures AllWhole(p.cfg, TryStartRequest(p, outcome).links)
  {
    SendIff(p, outcome);
    hide AllWhole, TryStartRequest, Still;
    if Sender(p).Some? {
      LinkOkAt(p, Sender(p).value);
      hide Inv, LinkOk;
      WrittenKeepsWhole(p, Sender(p).value);
      StillKeepsWhole(Written(p, Sender(p).value), TryStartRequest(p, outcome));
    }
  }

  lemma FreshIsWhole(cfg: Config, l: Link)
    requires Fresh(l) && (cfg.expectEcho ==> cfg.message != [])
    ensures Whole(cfg, l)
  {
    if cfg.expectEcho {
      assert Repeat(cfg.message, 0) == [];
      NotYet(cfg, l);
    }
  }

  /** Only the link changes, and of what is matched on it nothing but the count given. */
  ghost predicate OnlyLink(p: Pool, q: Pool, id: LinkId, echoed: nat)
    requires id < |p.links|
  {
    && id < |q.links| && q.links == p.links[id := q.links[id]]
    && q.links[id].returned == p.links[id].returned && q.links[id].sent == p.links[id].sent
    && q.links[id].echoed == echoed
  }

  lemma LetGoOnly(p: Pool, id: LinkId, n: Counters, release: bool, retry: bool)
    requires Named(p, id)
    ensures var q := LetGo(p, id, n, release, retry);
      && OnlyLink(p, q, id, p.links[id].echoed) && q.links[id].state == Closed && q.links[id].inflight == []
      && q.n.echoMismatch == n.echoMismatch
  {
  }

  lemma MismatchOnly(p: Pool, id: LinkId)
    requires Named(p, id) && InUse(p.links[id])
    ensures var q := OnEchoMismatch(p, id);
      && OnlyLink(p, q, id, p.links[id].echoed) && q.links[id].state == Closed
      && q.n.echoMismatch == p.n.echoMismatch + 1
  {
    hide LetGo, OnlyLink;
    LetGoOnly(p, id, p.n.(echoMismatch := p.n.echoMismatch + 1), true, p.slots[p.links[id].slot].active == Some(id));
  }

  lemma EchoedOnly(p: Pool, id: LinkId)
    requires Named(p, id) && p.links[id].inflight != []
    ensures var l, q := p.links[id], Echoed(p, id);
      && OnlyLink(p, q, id, l.echoed + 1) && Named(q, id)
      && q.links[id] == l.(inflight := l.inflight[1..], echoed := l.echoed + 1)
      && q.n.echoMismatch == p.n.echoMismatch
  {
  }

  /** An echo that matches; a retiring link that waits for nothing more is closed. */
  lemma OnEchoOnly(p: Pool, id: LinkId, flushed: bool)
    requires Named(p, id) && InUse(p.links[id]) && p.links[id].inflight != []
    ensures var l, q := p.links[id], OnEcho(p, id, p.cfg.message, flushed);
      && OnlyLink(p, q, id, l.echoed + 1) && q.n.echoMismatch == p.n.echoMismatch
      && if InUse(q.links[id]) then
           && q.links[id].received == l.received && |q.links[id].inflight| == |l.inflight| - 1
           && q.links[id].state == l.state && (l.state == Retiring ==> q.links[id].inflight != [])
         else q.links[id].state == Closed && |l.inflight| == 1 && l.state == Retiring
  {
    var l, q := p.links[id], Echoed(p, id);
    EchoedOnly(p, id);
    hide LetGo, Echoed;
    LetGoOnly(q, id, q.n, flushed, false);
  }

  lemma TakenOnly(p: Pool, id: LinkId)
    requires Named(p, id) && |p.links[id].received| >= |p.cfg.message|
    ensures var q := Taken(p, id);
      && OnlyLink(p, q, id, p.links[id].echoed) && Named(q, id)
      && q.links[id] == p.links[id].(received := p.links[id].received[|p.cfg.message|..])
      && q.n == p.n
  {
  }

  lemma OnlyTwice(p: Pool, q: Pool, r: Pool, id: LinkId, j: nat, k: nat)
    requires id < |p.links| && OnlyLink(p, q, id, j) && OnlyLink(q, r, id, k)
    ensures OnlyLink(p, r, id, k)
  {
  }

  /** One message's worth of bytes: the link goes on matching, or is closed with all matched that can be. */
  lemma EchoStepMatches(p: Pool, id: LinkId, flushed: bool)
    requires Named(p, id) && InUse(p.links[id]) && p.cfg.expectEcho && Matching(p.cfg, p.links[id])
    requires |p.links[id].received| >= |p.cfg.message|
    ensures var q := EchoStep(p, id, flushed);
      && q.links == p.links[id := q.links[id]]
      && (if InUse(q.links[id]) then Matching(p.cfg, q.links[id]) else Whole(p.cfg, q.links[id]))
  {
    var l := p.links[id];
    var m := |p.cfg.message|;
    var taken := Taken(p, id);
    TakenOnly(p, id);
    var q := EchoStep(p, id, flushed);
    hide Taken;
    assert q == OnEcho(taken, id, l.received[..m], flushed);
    if l.received[..m] != p.cfg.message || l.inflight == [] {
      assert q == OnEchoMismatch(taken, id);
      hide EchoStep, OnEcho, OnEchoMismatch;
      MismatchOnly(taken, id);
      OnlyTwice(p, taken, q, id, l.echoed, l.echoed);
      if l.received[..m] != p.cfg.message {
        NotACopy(p.cfg, l);
      }
    } else {
      hide EchoStep, OnEcho;
      OnEchoOnly(taken, id, flushed);
      OnlyTwice(p, taken, q, id, l.echoed, l.echoed + 1);
      NextCopy(p.cfg.message, l.echoed, l.received);
    }
  }

  lemma NextCopy(message: seq<byte>, k: nat, received: seq<byte>)
    requires message <= received
    ensures Repeat(message, k) + received == Repeat(message, k + 1) + received[|message|..]
  {
    assert received == message + received[|message|..];
  }

  lemma {:induction false} DrainMatches(p: Pool, id: LinkId, flushed: bool)
    requires Named(p, id) && p.cfg.expectEcho && p.cfg.message != []
    requires if InUse(p.links[id]) then Matching(p.cfg, p.links[id]) else Whole(p.cfg, p.links[id])
    ensures var q := Drain(p, id, flushed); q.links == p.links[id := q.links[id]] && Whole(p.cfg, q.links[id])
    decreases |p.links[id].received|
  {
    hide EchoStep;
    var l := p.links[id];
    if |l.received| >= |p.cfg.message| && InUse(l) {
      EchoStepMatches(p, id, flushed);
      hide Whole, Matching;
      DrainMatches(EchoStep(p, id, flushed), id, flushed);
    } else if InUse(l) {
      NotYet(p.cfg, l);
    }
  }

  lemma DataWhole(p: Pool, id: LinkId, bytes: seq<byte>, flushed: bool)
    requires Named(p, id) && (p.cfg.expectEcho ==> p.cfg.message != [])
    requires LinkOk(p.cfg, p.links[id]) && AllWhole(p.cfg, p.links)
    ensures AllWhole(p.cfg, OnData(p, id, bytes, flushed).links)
  {
    var l := p.links[id];
    if p.cfg.expectEcho && InUse(l) {
      var m := l.(received := l.received + bytes, returned := l.returned + bytes);
      assert Repeat(p.cfg.message, l.echoed) + l.received + bytes
             == Repeat(p.cfg.message, l.echoed) + (l.received + bytes);
      assert Matching(p.cfg, m);
      hide Drain, Matching, Whole, LinkOk;
      DrainMatches(p.(links := p.links[id := m]), id, flushed);
    }
  }

  // ----- Every run -----

  lemma LinkOkAt(p: Pool, id: LinkId)
    requires Inv(p) && id < |p.links|
    ensures LinkOk(p.cfg, p.links[id]) && LinkBase(p.cfg, p.links[id])
  {
  }

  lemma NextWhole(p: Pool, e: Event)
    requires Inv(p) && AllWhole(p.cfg, p.links)
    ensures AllWhole(p.cfg, Next(p, e).links)
  {
    hide Inv, Whole, AllWhole, LinkOk, LinkBase, Still, Step, OnData, TryStartRequest;
    if Enabled(p, e) && ActiveNamed(p) && (p.cfg.expectEcho ==> p.cfg.message != []) {
      StepIs(p, e);
      if e.Data? {
        LinkOkAt(p, e.link);
        DataWhole(p, e.link, e.bytes, e.flushed);
      } else if e.Send? {
        SendKeepsWhole(p, e.outcome);
      } else {
        StepStill(p, e);
        StillKeepsWhole(p, Step(p, e));
      }
    }
  }

  lemma StepIs(p: Pool, e: Event)
    requires Enabled(p, e) && ActiveNamed(p) && (p.cfg.expectEcho ==> p.cfg.message != [])
    ensures e.Data? ==> Step(p, e) == OnData(p, e.link, e.bytes, e.flushed)
    ensures e.Send? ==> Step(p, e) == TryStartRequest(p, e.outcome)
  {
    hide OnData, TryStartRequest;
  }

  lemma {:induction false} RunWhole(cfg: Config, now: int, events: seq<Event>)
    requires Sound(cfg)
    ensures var p := Run(New(cfg, now), events); p.cfg == cfg && Inv(p) && AllWhole(cfg, p.links)
  {
    NewInv(cfg, now);
    RunKeepsInv(New(cfg, now), events);
    RunKeepsConfig(New(cfg, now), events);
    if events != [] {
      var k := |events| - 1;
      RunWhole(cfg, now, events[..k]);
      hide Inv, Next, AllWhole, New;
      NextWhole(Run(New(cfg, now), events[..k]), events[k]);
    }
  }

  /** So many exact copies of the message came back, and no more, or no more were sent. */
  ghost predicate Copies(message: seq<byte>, returned: seq<byte>, sent: nat, k: nat) {
    && k <= sent && Repeat(message, k) <= returned
    && (k < sent ==> !(Repeat(message, k + 1) <= returned))
  }

  /** After every run, on every link ever opened: the echoes matched are the exact copies that came back in
      a row, as many of them as were sent; and a link in use has every whole one matched. */
  lemma EchoesAreCopies(cfg: Config, now: int, events: seq<Event>, id: LinkId)
    requires Sound(cfg) && cfg.expectEcho && id < |Run(New(cfg, now), events).links|
    ensures var l := Run(New(cfg, now), events).links[id];
      && Copies(cfg.message, l.returned, l.sent, l.echoed)
      && (InUse(l) ==> l.returned == Repeat(cfg.message, l.echoed) + l.received && |l.received| < |cfg.message|)
  {
    RunWhole(cfg, now, events);
    hide Inv, New, Run;
    LinkOkAt(Run(New(cfg, now), events), id);
  }

  lemma OneCount(message: seq<byte>, returned: seq<byte>, sent: nat, j: nat, k: nat)
    requires Copies(message, returned, sent, j) && Copies(message, returned, sent, k)
    ensures j == k
  {
    if j < k {
      RepeatPrefix(message, j + 1, k);
    } else if k < j {
      RepeatPrefix(message, k + 1, j);
    }
  }

  /** Two links, of whatever runs, on which as much was sent and the same bytes came back have matched as
      many echoes, however the bytes were split and whatever came between them. */
  lemma SameBytesSameEchoes(cfg: Config, a: int, events: seq<Event>, i: LinkId, b: int, others: seq<Event>, j: LinkId)
    requires Sound(cfg) && cfg.expectEcho
    requires i < |Run(New(cfg, a), events).links| && j < |Run(New(cfg, b), others).links|
    requires var l, m := Run(New(cfg, a), events).links[i], Run(New(cfg, b), others).links[j];
      l.sent == m.sent && l.returned == m.returned
    ensures Run(New(cfg, a), events).links[i].echoed == Run(New(cfg, b), others).links[j].echoed
  {
    hide Run, New, Copies;
    EchoesAreCopies(cfg, a, events, i);
    EchoesAreCopies(cfg, b, others, j);
    var l, m := Run(New(cfg, a), events).links[i], Run(New(cfg, b), others).links[j];
    OneCount(cfg.message, l.returned, l.sent, l.echoed, m.echoed);
  }

  // ----- Mismatches -----

  /** How many exact copies of the message came back in a row, up to as many as were sent. */
  ghost function CopiesIn(message: seq<byte>, returned: seq<byte>, sent: nat): nat {
    if sent == 0 || Repeat(message, sent) <= returned then sent else CopiesIn(message, returned, sent - 1)
  }

  lemma {:induction false} CopiesInIs(message: seq<byte>, returned: seq<byte>, sent: nat)
    ensures Copies(message, returned, sent, CopiesIn(message, returned, sent))
  {
    if sent == 0 {
      assert Repeat(message, 0) == [];
    } else if !(Repeat(message, sent) <= returned) {
      CopiesInIs(message, returned, sent - 1);
    }
  }

  /** Behind the copies there is a whole message's worth of bytes more, and the link was not done with its
      last echo: one that retires closes there, and reads no further. */
  ghost predicate GoesOn(cfg: Config, l: Link) {
    var k := CopiesIn(cfg.message, l.returned, l.sent);
    |Repeat(cfg.message, k + 1)| <= |l.returned| && !(k == l.sent && l.state == Retiring)
  }

  lemma GoesOnIs(cfg: Config, l: Link, k: nat)
    requires Copies(cfg.message, l.returned, l.sent, k)
    ensures GoesOn(cfg, l) <==> |Repeat(cfg.message, k + 1)| <= |l.returned| && !(k == l.sent && l.state == Retiring)
  {
    CopiesInIs(cfg.message, l.returned, l.sent);
    hide Copies, CopiesIn;
    OneCount(cfg.message, l.returned, l.sent, CopiesIn(cfg.message, l.returned, l.sent), k);
  }

  lemma OneMoreCopy(message: seq<byte>, k: nat)
    ensures |Repeat(message, k + 1)| == |Repeat(message, k)| + |message|
  {
  }

  /** What a link in use has when it is about to be drained. */
  ghost predicate Draining(cfg: Config, l: Link) {
    && cfg.expectEcho && InUse(l) && Matching(cfg, l) && (l.state == Retiring ==> l.inflight != [])
  }

  lemma NothingWhole(cfg: Config, l: Link)
    requires Draining(cfg, l) && |l.received| < |cfg.message|
    ensures !GoesOn(cfg, l)
  {
    NotYet(cfg, l);
    OneMoreCopy(cfg.message, l.echoed);
    assert Copies(cfg.message, l.returned, l.sent, l.echoed);
    hide Copies, GoesOn;
    GoesOnIs(cfg, l, l.echoed);
  }

  lemma NoCopyGoesOn(cfg: Config, l: Link)
    requires Draining(cfg, l) && |l.received| >= |cfg.message|
    requires l.received[..|cfg.message|] != cfg.message || l.inflight == []
    ensures GoesOn(cfg, l)
  {
    if l.received[..|cfg.message|] != cfg.message {
      NotACopy(cfg, l);
    }
    OneMoreCopy(cfg.message, l.echoed);
    assert Copies(cfg.message, l.returned, l.sent, l.echoed);
    hide Copies, GoesOn;
    GoesOnIs(cfg, l, l.echoed);
  }

  lemma LastCopyStops(cfg: Config, l: Link)
    requires Draining(cfg, l) && cfg.message <= l.received && |l.inflight| == 1 && l.state == Retiring
    ensures !GoesOn(cfg, l)
  {
    NextCopy(cfg.message, l.echoed, l.received);
    assert Copies(cfg.message, l.returned, l.sent, l.echoed + 1);
    hide Copies, GoesOn;
    GoesOnIs(cfg, l, l.echoed + 1);
  }

  lemma EchoStepCounts(p: Pool, id: LinkId, flushed: bool)
    requires Named(p, id) && Draining(p.cfg, p.links[id]) && |p.links[id].received| >= |p.cfg.message|
    ensures var l, q := p.links[id], EchoStep(p, id, flushed);
      if InUse(q.links[id]) then
        Draining(p.cfg, q.links[id]) && q.n.echoMismatch == p.n.echoMismatch
        && (GoesOn(p.cfg, q.links[id]) <==> GoesOn(p.cfg, l))
      else q.n.echoMismatch == p.n.echoMismatch + if GoesOn(p.cfg, l) then 1 else 0
  {
    var l := p.links[id];
    var m := |p.cfg.message|;
    var taken := Taken(p, id);
    TakenOnly(p, id);
    EchoStepMatches(p, id, flushed);
    var q := EchoStep(p, id, flushed);
    hide Taken, GoesOn, Whole;
    assert q == OnEcho(taken, id, l.received[..m], flushed);
    if l.received[..m] != p.cfg.message || l.inflight == [] {
      assert q == OnEchoMismatch(taken, id);
      hide EchoStep, OnEcho, OnEchoMismatch;
      MismatchOnly(taken, id);
      NoCopyGoesOn(p.cfg, l);
    } else {
      hide EchoStep, OnEcho;
      OnEchoOnly(taken, id, flushed);
      if InUse(q.links[id]) {
        SameGoesOn(p.cfg, l, q.links[id]);
      } else {
        LastCopyStops(p.cfg, l);
      }
    }
  }

  lemma SameGoesOn(cfg: Config, l: Link, m: Link)
    requires m.returned == l.returned && m.sent == l.sent && m.state == l.state
    ensures GoesOn(cfg, m) <==> GoesOn(cfg, l)
  {
  }

  lemma {:induction false} DrainCounts(p: Pool, id: LinkId, flushed: bool)
    requires Named(p, id) && p.cfg.message != [] && Draining(p.cfg, p.links[id])
    ensures Drain(p, id, flushed).n.echoMismatch == p.n.echoMismatch + if GoesOn(p.cfg, p.links[id]) then 1 else 0
    decreases |p.links[id].received|
  {
    hide EchoStep, GoesOn;
    var l := p.links[id];
    if |l.received| < |p.cfg.message| {
      NothingWhole(p.cfg, l);
    } else {
      EchoStepCounts(p, id, flushed);
      var q := EchoStep(p, id, flushed);
      hide Draining;
      if InUse(q.links[id]) {
        DrainCounts(q, id, flushed);
      }
    }
  }

  /** A read of the link finds that the peer did not echo: decided by what was sent on the link, by the
      bytes that came back on it, these included, and by whether it is to close with its last echo. */
  ghost predicate MismatchRead(p: Pool, e: Event) {
    && e.Data? && Named(p, e.link) && p.cfg.expectEcho && InUse(p.links[e.link])
    && var l := p.links[e.link]; GoesOn(p.cfg, l.(returned := l.returned + e.bytes))
  }

  lemma BufferedDrains(cfg: Config, l: Link, bytes: seq<byte>)
    requires LinkOk(cfg, l) && cfg.expectEcho && InUse(l)
    ensures Draining(cfg, l.(received := l.received + bytes, returned := l.returned + bytes))
  {
    assert Repeat(cfg.message, l.echoed) + l.received + bytes == Repeat(cfg.message, l.echoed) + (l.received + bytes);
  }

  lemma DataCounts(p: Pool, e: Event)
    requires e.Data? && Named(p, e.link) && (p.cfg.expectEcho ==> p.cfg.message != [])
    requires LinkOk(p.cfg, p.links[e.link])
    ensures OnData(p, e.link, e.bytes, e.flushed).n.echoMismatch
            == p.n.echoMismatch + if MismatchRead(p, e) then 1 else 0
  {
    hide Drain, GoesOn, LinkOk, Draining;
    var l := p.links[e.link];
    if p.cfg.expectEcho && InUse(l) {
      BufferedDrains(p.cfg, l, e.bytes);
      DrainCounts(Buffered(p, e.link, e.bytes), e.link, e.flushed);
      SameGoesOn(p.cfg, l.(returned := l.returned + e.bytes),
                 l.(received := l.received + e.bytes, returned := l.returned + e.bytes));
    }
  }

  lemma NextCounts(p: Pool, e: Event)
    requires Inv(p)
    ensures Next(p, e).n.echoMismatch == p.n.echoMismatch + if MismatchRead(p, e) then 1 else 0
  {
    if Enabled(p, e) {
      NothingIsSkipped(p, e);
      StepIs(p, e);
      hide Step, OnData, TryStartRequest, GoesOn, AllQuiet;
      if e.Data? {
        LinkOkAt(p, e.link);
        DataCounts(p, e);
      } else if e.Send? {
        SendIff(p, e.outcome);
      } else {
        StepStill(p, e);
      }
    }
    hide Inv, ActiveNamed;
  }

  /** How many reads of a run found a mismatch. */
  ghost function MismatchReads(p: Pool, events: seq<Event>): nat {
    if events == [] then 0
    else
      var k := |events| - 1;
      MismatchReads(p, events[..k]) + if MismatchRead(Run(p, events[..k]), events[k]) then 1 else 0
  }

  /** The mismatches counted are exactly those reads, over every run. */
  lemma {:induction false} MismatchesCounted(cfg: Config, now: int, events: seq<Event>)
    requires Sound(cfg)
    ensures Run(New(cfg, now), events).n.echoMismatch == MismatchReads(New(cfg, now), events)
  {
    if events != [] {
      var k := |events| - 1;
      MismatchesCounted(cfg, now, events[..k]);
      RunWhole(cfg, now, events[..k]);
      hide Inv, Next, MismatchRead, New, AllWhole;
      NextCounts(Run(New(cfg, now), events[..k]), events[k]);
    }
  }
}
