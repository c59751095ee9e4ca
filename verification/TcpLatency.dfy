/** What a TCP latency is, over every run: from the send of a message to the read that brought its echo. The
    messages of a link and the bytes it returned are taken from the events alone. */
module TcpLatency {
  import opened Tally
  import opened TcpFrames
  import opened TcpMatching
  import opened TcpPool
  import opened TcpRuns
  import opened TcpSafety

  // ----- The story of a link, from the events -----

  /** The messages written on a link, in order: the call and the time of each send. */
  ghost function Sends(p: Pool, events: seq<Event>, id: LinkId): seq<Message> {
    if events == [] then []
    else
      var k := |events| - 1;
      var q := Run(p, events[..k]);
      Sends(p, events[..k], id)
      + if events[k].Send? && Sender(q) == Some(id) then [Message(q.calls, q.now)] else []
  }

  /** A read of a link that is matched against what was sent. */
  predicate Reads(p: Pool, e: Event) {
    e.Data? && Named(p, e.link) && p.cfg.expectEcho && InUse(p.links[e.link])
  }

  /** The bytes a link returned while it was in use. */
  ghost function Bytes(p: Pool, events: seq<Event>, id: LinkId): seq<byte> {
    if events == [] then []
    else
      var k := |events| - 1;
      var e := events[k];
      Bytes(p, events[..k], id) + if Reads(Run(p, events[..k]), e) && e.link == id then e.bytes else []
  }

  // ----- What the echoes are worth -----

  /** The echoes that come next, one for each of these messages, all at one time. */
  ghost function Timed(id: LinkId, ordinal: nat, messages: seq<Message>, now: int): seq<Sample>
    decreases |messages|
  {
    if messages == [] then []
    else [Sample(id, ordinal + 1, now - messages[0].sentAt)] + Timed(id, ordinal + 1, messages[1..], now)
  }

  ghost function Between(messages: seq<Message>, j: nat, k: nat): seq<Message> {
    if j <= k <= |messages| then messages[j..k] else []
  }

  /** The messages whose copies a read brings. */
  ghost function Answered(p: Pool, before: seq<Event>, e: Event): seq<Message>
    requires e.Data?
  {
    var sends, bytes := Sends(p, before, e.link), Bytes(p, before, e.link);
    Between(sends, CopiesIn(p.cfg.message, bytes, |sends|), CopiesIn(p.cfg.message, bytes + e.bytes, |sends|))
  }

  ghost function SamplesAt(p: Pool, before: seq<Event>, e: Event): seq<Sample> {
    var q := Run(p, before);
    if Reads(q, e) && q.measure then
      var echoed := CopiesIn(p.cfg.message, Bytes(p, before, e.link), |Sends(p, before, e.link)|);
      Timed(e.link, echoed, Answered(p, before, e), q.now)
    else []
  }

  ghost function AllSamples(p: Pool, events: seq<Event>): seq<Sample> {
    if events == [] then []
    else AllSamples(p, events[..|events| - 1]) + SamplesAt(p, events[..|events| - 1], events[|events| - 1])
  }

  /** The calls that a read, or a send that expects no echo, tells of their success. */
  ghost function ToldAt(p: Pool, before: seq<Event>, e: Event): multiset<nat> {
    var q := Run(p, before);
    if Reads(q, e) then Ids(Answered(p, before, e))
    else if e.Send? && !q.cfg.expectEcho && Sender(q).Some? then multiset{q.calls}
    else multiset{}
  }

  ghost function AllTold(p: Pool, events: seq<Event>): multiset<nat> {
    if events == [] then multiset{}
    else AllTold(p, events[..|events| - 1]) + ToldAt(p, events[..|events| - 1], events[|events| - 1])
  }

  // ----- A read -----

  /** The first `m` messages outstanding on the link have been echoed. */
  ghost predicate EchoedFirst(p: Pool, q: Pool, id: LinkId, m: nat)
    requires id < |p.links| && m <= |p.links[id].inflight|
  {
    var l := p.links[id];
    && id < |q.links| && q.links == p.links[id := q.links[id]]
    && q.links[id].returned == l.returned && q.links[id].sent == l.sent && q.links[id].echoed == l.echoed + m
    && (q.links[id].state != Closed ==> q.links[id].inflight == l.inflight[m..])
    && q.samples == p.samples + (if p.measure then Timed(id, l.echoed, l.inflight[..m], p.now) else [])
    && q.succeeded == p.succeeded + Ids(l.inflight[..m])
    && q.now == p.now && q.measure == p.measure && q.cfg == p.cfg
  }

  lemma TimedOne(id: LinkId, ordinal: nat, m: Message, now: int)
    ensures Timed(id, ordinal, [m], now) == [Sample(id, ordinal + 1, now - m.sentAt)] && Ids([m]) == multiset{m.id}
  {
    assert [m][1..] == [];
  }

  lemma TimedMore(id: LinkId, ordinal: nat, m: Message, rest: seq<Message>, now: int)
    ensures Timed(id, ordinal, [m] + rest, now)
            == [Sample(id, ordinal + 1, now - m.sentAt)] + Timed(id, ordinal + 1, rest, now)
    ensures Ids([m] + rest) == multiset{m.id} + Ids(rest)
  {
    assert ([m] + rest)[1..] == rest;
  }

  lemma NoneEchoed(p: Pool, id: LinkId)
    requires id < |p.links|
    ensures EchoedFirst(p, p, id, 0)
  {
    var l := p.links[id];
    assert l.inflight[..0] == [] && l.inflight[0..] == l.inflight;
  }

  lemma CloseTold(p: Pool, id: LinkId, n: Counters, release: bool, retry: bool)
    requires Named(p, id)
    ensures var q := LetGo(p, id, n, release, retry);
      && q.samples == p.samples && q.succeeded == p.succeeded && q.now == p.now && q.measure == p.measure
      && q.cfg == p.cfg && q.links == p.links[id := q.links[id]] && q.links[id].state == Closed
      && q.links[id].returned == p.links[id].returned && q.links[id].sent == p.links[id].sent
      && q.links[id].echoed == p.links[id].echoed
  {
  }

  lemma MismatchTold(p: Pool, id: LinkId)
    requires Named(p, id) && InUse(p.links[id])
    ensures EchoedFirst(p, OnEchoMismatch(p, id), id, 0)
  {
    var l := p.links[id];
    assert l.inflight[..0] == [];
    hide LetGo;
    CloseTold(p, id, p.n.(echoMismatch := p.n.echoMismatch + 1), true, p.slots[l.slot].active == Some(id));
  }

  lemma EchoedTold(p: Pool, id: LinkId)
    requires Named(p, id) && p.links[id].inflight != []
    ensures EchoedFirst(p, Echoed(p, id), id, 1) && Named(Echoed(p, id), id)
  {
    var l := p.links[id];
    assert l.inflight[..1] == [l.inflight[0]];
    TimedOne(id, l.echoed, l.inflight[0], p.now);
    hide Timed, Ids;
  }

  lemma ThenClosed(p: Pool, q: Pool, r: Pool, id: LinkId, m: nat)
    requires id < |p.links| && m <= |p.links[id].inflight| && EchoedFirst(p, q, id, m)
    requires r.samples == q.samples && r.succeeded == q.succeeded && r.now == q.now && r.measure == q.measure
    requires r.cfg == q.cfg && |r.links| == |q.links| && r.links == q.links[id := r.links[id]]
    requires r.links[id].state == Closed && r.links[id].returned == q.links[id].returned
    requires r.links[id].sent == q.links[id].sent && r.links[id].echoed == q.links[id].echoed
    ensures EchoedFirst(p, r, id, m)
  {
    hide Timed, Ids;
  }

  lemma OnEchoTold(p: Pool, id: LinkId, flushed: bool)
    requires Named(p, id) && InUse(p.links[id]) && p.links[id].inflight != []
    ensures EchoedFirst(p, OnEcho(p, id, p.cfg.message, flushed), id, 1)
  {
    var q := Echoed(p, id);
    EchoedTold(p, id);
    hide Echoed, LetGo, EchoedFirst;
    CloseTold(q, id, q.n, flushed, false);
    ThenClosed(p, q, LetGo(q, id, q.n, flushed, false), id, 1);
  }

  /** Bytes that are taken off the front make no difference to what is told. */
  lemma TakenTold(p: Pool, q: Pool, id: LinkId, m: nat)
    requires Named(p, id) && |p.links[id].received| >= |p.cfg.message| && m <= |p.links[id].inflight|
    requires EchoedFirst(Taken(p, id), q, id, m)
    ensures EchoedFirst(p, q, id, m)
  {
    hide Timed, Ids;
  }

  lemma EchoStepTold(p: Pool, id: LinkId, flushed: bool) returns (m: nat)
    requires Named(p, id) && Draining(p.cfg, p.links[id]) && |p.links[id].received| >= |p.cfg.message|
    ensures var l, q := p.links[id], EchoStep(p, id, flushed);
      m <= |l.inflight| && EchoedFirst(p, q, id, m) && (InUse(q.links[id]) ==> m == 1)
  {
    var l := p.links[id];
    var taken := Taken(p, id);
    var chunk := l.received[..|p.cfg.message|];
    TakenOnly(p, id);
    var q := EchoStep(p, id, flushed);
    assert q == OnEcho(taken, id, chunk, flushed);
    if chunk != p.cfg.message || l.inflight == [] {
      m := 0;
      assert q == OnEchoMismatch(taken, id);
      MismatchOnly(taken, id);
      hide EchoStep, OnEcho, OnEchoMismatch, Taken, EchoedFirst;
      MismatchTold(taken, id);
      TakenTold(p, q, id, 0);
    } else {
      m := 1;
      hide EchoStep, OnEcho, OnEchoMismatch, Taken, EchoedFirst;
      OnEchoTold(taken, id, flushed);
      TakenTold(p, q, id, 1);
    }
  }

  lemma Lists(inflight: seq<Message>, rest: seq<Message>, m: nat)
    requires inflight != [] && rest == inflight[1..] && m <= |rest|
    ensures inflight[..1] == [inflight[0]] && inflight[..1 + m] == [inflight[0]] + rest[..m]
    ensures rest[m..] == inflight[1 + m..]
  {
  }

  lemma EchoedMore(p: Pool, q: Pool, r: Pool, id: LinkId, m: nat)
    requires id < |p.links| && |p.links[id].inflight| > 0 && EchoedFirst(p, q, id, 1)
    requires q.links[id].state != Closed && m <= |q.links[id].inflight| && EchoedFirst(q, r, id, m)
    ensures 1 + m <= |p.links[id].inflight| && EchoedFirst(p, r, id, 1 + m)
  {
    var l := p.links[id];
    var first, rest := l.inflight[0], q.links[id].inflight;
    Lists(l.inflight, rest, m);
    TimedMore(id, l.echoed, first, rest[..m], p.now);
    TimedOne(id, l.echoed, first, p.now);
    hide Timed, Ids;
    EchoedMoreTold(p, q, r, id, m);
    assert r.links == p.links[id := r.links[id]];
  }

  lemma AddedUp(s0: seq<Sample>, s1: seq<Sample>, s2: seq<Sample>, x: seq<Sample>, y: seq<Sample>, measure: bool)
    requires s1 == s0 + (if measure then x else []) && s2 == s1 + (if measure then y else [])
    ensures s2 == s0 + (if measure then x + y else [])
  {
  }

  lemma EchoedMoreTold(p: Pool, q: Pool, r: Pool, id: LinkId, m: nat)
    requires id < |p.links| && |p.links[id].inflight| > 0 && EchoedFirst(p, q, id, 1)
    requires q.links[id].state != Closed && m <= |q.links[id].inflight| && EchoedFirst(q, r, id, m)
    ensures var l := p.links[id];
      && 1 + m <= |l.inflight|
      && r.samples == p.samples + (if p.measure then Timed(id, l.echoed, l.inflight[..1 + m], p.now) else [])
      && r.succeeded == p.succeeded + Ids(l.inflight[..1 + m])
  {
    hide Timed, Ids;
    var l := p.links[id];
    var first, rest := l.inflight[0], q.links[id].inflight;
    Lists(l.inflight, rest, m);
    TimedMore(id, l.echoed, first, rest[..m], p.now);
    TimedOne(id, l.echoed, first, p.now);
    AddedUp(p.samples, q.samples, r.samples, Timed(id, l.echoed, [first], p.now),
            Timed(id, l.echoed + 1, rest[..m], p.now), p.measure);
  }

  lemma {:induction false} DrainTold(p: Pool, id: LinkId, flushed: bool) returns (m: nat)
    requires Named(p, id) && p.cfg.message != [] && Draining(p.cfg, p.links[id])
    ensures m <= |p.links[id].inflight| && EchoedFirst(p, Drain(p, id, flushed), id, m)
    decreases |p.links[id].received|
  {
    hide EchoStep, EchoedFirst, GoesOn;
    var l := p.links[id];
    if |l.received| < |p.cfg.message| {
      m := 0;
      NoneEchoed(p, id);
    } else {
      var q := EchoStep(p, id, flushed);
      EchoStepCounts(p, id, flushed);
      m := EchoStepTold(p, id, flushed);
      if InUse(q.links[id]) {
        hide Draining;
        FirstHas(p, q, id);
        var more := DrainTold(q, id, flushed);
        EchoedMore(p, q, Drain(q, id, flushed), id, more);
        m := 1 + more;
      }
    }
  }

  lemma FirstHas(p: Pool, q: Pool, id: LinkId)
    requires id < |p.links| && |p.links[id].inflight| >= 1 && EchoedFirst(p, q, id, 1) && InUse(q.links[id])
    ensures q.cfg == p.cfg && q.links[id].state != Closed
  {
  }

  // ----- The story is the link's -----

  /** What is kept of a link agrees with the events. */
  ghost predicate Told(cfg: Config, l: Link, sends: seq<Message>, bytes: seq<byte>) {
    && l.sent == |sends| && l.returned == bytes && l.echoed <= l.sent
    && (cfg.expectEcho && l.state != Closed ==> l.inflight == sends[l.echoed..])
    && (cfg.expectEcho ==> l.echoed == CopiesIn(cfg.message, bytes, |sends|))
  }

  ghost predicate StoryIs(cfg: Config, links: seq<Link>, id: LinkId, sends: seq<Message>, bytes: seq<byte>) {
    if id < |links| then Told(cfg, links[id], sends, bytes) else sends == [] && bytes == []
  }

  ghost predicate StoryOk(p: Pool, events: seq<Event>, q: Pool, id: LinkId) {
    StoryIs(q.cfg, q.links, id, Sends(p, events, id), Bytes(p, events, id))
  }

  ghost predicate AllOk(p: Pool, events: seq<Event>, q: Pool) {
    && (forall id: LinkId :: StoryOk(p, events, q, id))
    && q.samples == AllSamples(p, events) && q.succeeded == AllTold(p, events)
  }

  lemma LastSends(p: Pool, events: seq<Event>, id: LinkId)
    requires events != []
    ensures var k := |events| - 1;
      var q, e := Run(p, events[..k]), events[k];
      && Sends(p, events, id) == Sends(p, events[..k], id)
         + (if e.Send? && Sender(q) == Some(id) then [Message(q.calls, q.now)] else [])
      && Bytes(p, events, id) == Bytes(p, events[..k], id) + (if Reads(q, e) && e.link == id then e.bytes else [])
  {
  }

  lemma LastTold(p: Pool, events: seq<Event>)
    requires events != []
    ensures var k := |events| - 1;
      && AllSamples(p, events) == AllSamples(p, events[..k]) + SamplesAt(p, events[..k], events[k])
      && AllTold(p, events) == AllTold(p, events[..k]) + ToldAt(p, events[..k], events[k])
  {
  }

  lemma QuietTold(cfg: Config, l: Link, m: Link, sends: seq<Message>, bytes: seq<byte>)
    requires Told(cfg, l, sends, bytes) && Quiet(l, m)
    ensures Told(cfg, m, sends, bytes)
  {
    hide CopiesIn;
  }

  lemma FreshTold(cfg: Config, l: Link)
    requires Fresh(l)
    ensures Told(cfg, l, [], [])
  {
  }

  /** Nothing is sent or read, and nobody told. */
  ghost predicate Silent(v: Pool, q: Pool) {
    AllQuiet(v.links, q.links) && q.samples == v.samples && q.succeeded == v.succeeded && q.cfg == v.cfg
  }

  lemma OkAt(p: Pool, events: seq<Event>, q: Pool, id: LinkId)
    requires AllOk(p, events, q)
    ensures StoryOk(p, events, q, id)
    ensures q.samples == AllSamples(p, events) && q.succeeded == AllTold(p, events)
  {
  }

  lemma OkFrom(p: Pool, events: seq<Event>, q: Pool)
    requires forall id: LinkId :: StoryOk(p, events, q, id)
    requires q.samples == AllSamples(p, events) && q.succeeded == AllTold(p, events)
    ensures AllOk(p, events, q)
  {
    hide StoryOk, AllSamples, AllTold;
  }

  /** The last event neither sends on a link nor reads one. */
  ghost predicate Idle(v: Pool, e: Event) {
    !Reads(v, e) && !(e.Send? && Sender(v).Some?)
  }

  lemma QuietStory(cfg: Config, links: seq<Link>, after: seq<Link>, id: LinkId, sends: seq<Message>, bytes: seq<byte>)
    requires StoryIs(cfg, links, id, sends, bytes) && AllQuiet(links, after)
    ensures StoryIs(cfg, after, id, sends, bytes)
  {
    hide Told, Quiet, Fresh;
    if id < |links| {
      QuietTold(cfg, links[id], after[id], sends, bytes);
    } else if id < |after| {
      FreshTold(cfg, after[id]);
    }
  }

  lemma IdleSends(p: Pool, events: seq<Event>, id: LinkId)
    requires events != [] && Idle(Run(p, events[..|events| - 1]), events[|events| - 1])
    ensures Sends(p, events, id) == Sends(p, events[..|events| - 1], id)
    ensures Bytes(p, events, id) == Bytes(p, events[..|events| - 1], id)
  {
    LastSends(p, events, id);
    hide Sends, Bytes, Run, Reads, Sender;
  }

  lemma IdleLink(p: Pool, events: seq<Event>, v: Pool, q: Pool, id: LinkId)
    requires events != [] && v == Run(p, events[..|events| - 1]) && Idle(v, events[|events| - 1]) && Silent(v, q)
    requires StoryOk(p, events[..|events| - 1], v, id)
    ensures StoryOk(p, events, q, id)
  {
    IdleSends(p, events, id);
    hide Sends, Bytes, Run, Idle, AllQuiet, StoryIs;
    QuietStory(v.cfg, v.links, q.links, id, Sends(p, events, id), Bytes(p, events, id));
  }

  lemma IdleTells(p: Pool, before: seq<Event>, e: Event)
    requires Idle(Run(p, before), e)
    ensures SamplesAt(p, before, e) == [] && ToldAt(p, before, e) == multiset{}
  {
    hide Run, Reads, Sender;
  }

  /** An event that sends and reads nothing. */
  lemma StillStory(p: Pool, events: seq<Event>, v: Pool, q: Pool)
    requires events != [] && v == Run(p, events[..|events| - 1]) && Idle(v, events[|events| - 1]) && Silent(v, q)
    requires AllOk(p, events[..|events| - 1], v)
    ensures AllOk(p, events, q)
  {
    var k := |events| - 1;
    LastTold(p, events);
    IdleTells(p, events[..k], events[k]);
    SilentTells(v, q);
    hide *;
    OkAt(p, events[..k], v, 0);
    forall id: LinkId
      ensures StoryOk(p, events, q, id)
    {
      OkAt(p, events[..k], v, id);
      IdleLink(p, events, v, q, id);
    }
    OkFrom(p, events, q);
  }

  lemma SilentTells(v: Pool, q: Pool)
    requires Silent(v, q)
    ensures q.samples == v.samples && q.succeeded == v.succeeded
  {
  }

  lemma WrittenTold(cfg: Config, l: Link, m: Link, sends: seq<Message>, bytes: seq<byte>, message: Message)
    requires Told(cfg, l, sends, bytes) && l.state == Open && LinkOk(cfg, l) && Whole(cfg, l)
    requires m == l.(sent := l.sent + 1, inflight := if cfg.expectEcho then l.inflight + [message] else l.inflight)
    ensures Told(cfg, m, sends + [message], bytes)
  {
    if cfg.expectEcho {
      assert (sends + [message])[l.echoed..] == sends[l.echoed..] + [message];
      NotYet(cfg, l);
      assert Copies(cfg.message, bytes, |sends| + 1, l.echoed);
      CopiesInIs(cfg.message, bytes, |sends| + 1);
      hide Copies, CopiesIn;
      OneCount(cfg.message, bytes, |sends| + 1, l.echoed, CopiesIn(cfg.message, bytes, |sends| + 1));
    }
  }

  /** A message is written on the sender's link, and then nothing more. */
  ghost predicate Wrote(v: Pool, q: Pool) {
    && Sender(v).Some? && |v.slots| > 0 && Named(v, Sender(v).value)
    && Silent(Written(v, Sender(v).value), q)
  }

  lemma SendsOne(p: Pool, events: seq<Event>, id: LinkId)
    requires events != [] && events[|events| - 1].Send? && Sender(Run(p, events[..|events| - 1])).Some?
    ensures var before := events[..|events| - 1];
      var v := Run(p, before);
      && Sends(p, events, id)
         == (if Sender(v) == Some(id) then Sends(p, before, id) + [Message(v.calls, v.now)] else Sends(p, before, id))
      && Bytes(p, events, id) == Bytes(p, before, id)
  {
    LastSends(p, events, id);
    hide Sends, Bytes, Run, Sender;
  }

  lemma SentLink(p: Pool, events: seq<Event>, v: Pool, q: Pool, id: LinkId)
    requires events != [] && v == Run(p, events[..|events| - 1]) && events[|events| - 1].Send? && Wrote(v, q)
    requires StoryOk(p, events[..|events| - 1], v, id) && q.cfg == v.cfg
    requires var s := Sender(v).value;
      s < |v.links| && v.links[s].state == Open && LinkOk(v.cfg, v.links[s]) && Whole(v.cfg, v.links[s])
    ensures StoryOk(p, events, q, id)
  {
    var before := events[..|events| - 1];
    var s := Sender(v).value;
    SendsOne(p, events, id);
    WrittenIs(v, s);
    var w := Written(v, s);
    hide Sends, Bytes, Run, Told, Sender, Written, LinkOk, Whole, AllQuiet;
    assert StoryIs(v.cfg, w.links, id, Sends(p, events, id), Bytes(p, events, id)) by {
      if id == s {
        WrittenTold(v.cfg, v.links[s], w.links[s], Sends(p, before, s), Bytes(p, before, s), Message(v.calls, v.now));
      }
    }
    hide StoryIs;
    QuietStory(v.cfg, w.links, q.links, id, Sends(p, events, id), Bytes(p, events, id));
  }

  lemma SentTells(p: Pool, before: seq<Event>, e: Event, q: Pool)
    requires var v := Run(p, before); e.Send? && Wrote(v, q)
    ensures var v := Run(p, before);
      && q.samples == v.samples + SamplesAt(p, before, e) && q.succeeded == v.succeeded + ToldAt(p, before, e)
      && q.cfg == v.cfg
  {
    WrittenIs(Run(p, before), Sender(Run(p, before)).value);
    hide Run, Written, Sender, AllQuiet;
  }

  lemma SentStory(p: Pool, events: seq<Event>, v: Pool, q: Pool)
    requires events != [] && v == Run(p, events[..|events| - 1]) && events[|events| - 1].Send? && Wrote(v, q)
    requires AllOk(p, events[..|events| - 1], v)
    requires var s := Sender(v).value;
      s < |v.links| && v.links[s].state == Open && LinkOk(v.cfg, v.links[s]) && Whole(v.cfg, v.links[s])
    ensures AllOk(p, events, q)
  {
    var k := |events| - 1;
    LastTold(p, events);
    SentTells(p, events[..k], events[k], q);
    hide *;
    OkAt(p, events[..k], v, 0);
    forall id: LinkId
      ensures StoryOk(p, events, q, id)
    {
      OkAt(p, events[..k], v, id);
      SentLink(p, events, v, q, id);
    }
    OkFrom(p, events, q);
  }

  lemma ReadTold(cfg: Config, l: Link, m: Link, sends: seq<Message>, bytes: seq<byte>, more: seq<byte>, n: nat)
    requires cfg.expectEcho && Told(cfg, l, sends, bytes) && l.state != Closed && LinkOk(cfg, l) && n <= |l.inflight|
    requires m.returned == bytes + more && m.sent == l.sent && m.echoed == l.echoed + n
    requires m.state != Closed ==> m.inflight == l.inflight[n..]
    requires LinkBase(cfg, m) && Whole(cfg, m)
    ensures Told(cfg, m, sends, bytes + more)
    ensures Between(sends, CopiesIn(cfg.message, bytes, |sends|), CopiesIn(cfg.message, bytes + more, |sends|))
            == l.inflight[..n]
  {
    WholeCopies(cfg, m);
    Slices(sends, l.echoed, n);
    hide CopiesIn, LinkBase, Whole, LinkOk;
  }

  lemma Slices(sends: seq<Message>, j: nat, n: nat)
    requires j + n <= |sends|
    ensures sends[j..][n..] == sends[j + n..] && sends[j..][..n] == sends[j..j + n]
  {
  }

  lemma WholeCopies(cfg: Config, m: Link)
    requires cfg.expectEcho && LinkBase(cfg, m) && Whole(cfg, m)
    ensures m.echoed == CopiesIn(cfg.message, m.returned, m.sent)
  {
    CopiesInIs(cfg.message, m.returned, m.sent);
    assert Copies(cfg.message, m.returned, m.sent, m.echoed);
    hide Copies, CopiesIn, LinkBase, Whole;
    OneCount(cfg.message, m.returned, m.sent, m.echoed, CopiesIn(cfg.message, m.returned, m.sent));
  }

  /** A read of a link, of which `n` messages are echoed. */
  ghost predicate Read(v: Pool, e: Event, q: Pool, n: nat) {
    && Reads(v, e) && n <= |v.links[e.link].inflight|
    && EchoedFirst(Buffered(v, e.link, e.bytes), q, e.link, n)
  }

  lemma ReadIs(v: Pool, e: Event, q: Pool, n: nat)
    requires Read(v, e, q, n)
    ensures var l := v.links[e.link];
      && e.link < |q.links| && q.links == v.links[e.link := q.links[e.link]] && InUse(l) && v.cfg.expectEcho
      && q.links[e.link].returned == l.returned + e.bytes && q.links[e.link].sent == l.sent
      && q.links[e.link].echoed == l.echoed + n
      && (q.links[e.link].state != Closed ==> q.links[e.link].inflight == l.inflight[n..])
      && q.samples == v.samples + (if v.measure then Timed(e.link, l.echoed, l.inflight[..n], v.now) else [])
      && q.succeeded == v.succeeded + Ids(l.inflight[..n]) && q.cfg == v.cfg
  {
    hide Timed, Ids;
  }

  /** The link that is read, with its messages taken from the story. */
  lemma ReadTells(p: Pool, before: seq<Event>, v: Pool, e: Event, q: Pool, n: nat)
    requires v == Run(p, before) && v.cfg == p.cfg && Read(v, e, q, n) && StoryOk(p, before, v, e.link)
    requires LinkOk(v.cfg, v.links[e.link]) && e.link < |q.links|
    requires LinkBase(v.cfg, q.links[e.link]) && Whole(v.cfg, q.links[e.link])
    ensures Told(v.cfg, q.links[e.link], Sends(p, before, e.link), Bytes(p, before, e.link) + e.bytes)
    ensures q.samples == v.samples + SamplesAt(p, before, e) && q.succeeded == v.succeeded + ToldAt(p, before, e)
    ensures q.cfg == v.cfg
  {
    var l := v.links[e.link];
    var sends, bytes := Sends(p, before, e.link), Bytes(p, before, e.link);
    ReadIs(v, e, q, n);
    ReadTold(v.cfg, l, q.links[e.link], sends, bytes, e.bytes, n);
    assert Reads(v, e) && l.echoed == CopiesIn(p.cfg.message, bytes, |sends|);
    assert Answered(p, before, e) == l.inflight[..n];
    hide Sends, Bytes, Run, CopiesIn, Read, EchoedFirst, LinkOk, LinkBase, Whole, Timed, Ids, Answered, Reads;
  }

  lemma BytesMore(p: Pool, events: seq<Event>, id: LinkId)
    requires events != [] && Reads(Run(p, events[..|events| - 1]), events[|events| - 1])
    ensures var before, e := events[..|events| - 1], events[|events| - 1];
      && Sends(p, events, id) == Sends(p, before, id)
      && Bytes(p, events, id) == (if e.link == id then Bytes(p, before, id) + e.bytes else Bytes(p, before, id))
  {
    LastSends(p, events, id);
    hide Sends, Bytes, Run, Sender;
  }

  lemma ReadLink(p: Pool, events: seq<Event>, v: Pool, q: Pool, n: nat, id: LinkId)
    requires events != [] && v == Run(p, events[..|events| - 1]) && Read(v, events[|events| - 1], q, n)
    requires StoryOk(p, events[..|events| - 1], v, id)
    requires var e := events[|events| - 1];
      e.link < |q.links|
      && Told(v.cfg, q.links[e.link], Sends(p, events[..|events| - 1], e.link),
              Bytes(p, events[..|events| - 1], e.link) + e.bytes)
    ensures StoryOk(p, events, q, id)
  {
    var e := events[|events| - 1];
    assert Reads(v, e);
    BytesMore(p, events, id);
    ReadIs(v, e, q, n);
    hide *;
    StoryFrom(p, events[..|events| - 1], v, id);
    OnlyRead(v.cfg, v.links, q.links, e.link, id, Sends(p, events, id), Bytes(p, events, id),
             Bytes(p, events[..|events| - 1], id));
    StoryFrom(p, events, q, id);
  }

  lemma StoryFrom(p: Pool, events: seq<Event>, q: Pool, id: LinkId)
    ensures StoryOk(p, events, q, id) <==> StoryIs(q.cfg, q.links, id, Sends(p, events, id), Bytes(p, events, id))
  {
    hide StoryIs, Sends, Bytes;
  }

  lemma OnlyRead(cfg: Config, links: seq<Link>, after: seq<Link>, link: LinkId, id: LinkId,
                 sends: seq<Message>, bytes: seq<byte>, was: seq<byte>)
    requires link < |after| && link < |links| && after == links[link := after[link]]
    requires id != link ==> StoryIs(cfg, links, id, sends, was) && bytes == was
    requires id == link ==> Told(cfg, after[link], sends, bytes)
    ensures StoryIs(cfg, after, id, sends, bytes)
  {
    hide Told;
  }

  lemma ReadStory(p: Pool, events: seq<Event>, v: Pool, q: Pool, n: nat)
    requires events != [] && v == Run(p, events[..|events| - 1]) && v.cfg == p.cfg
    requires Read(v, events[|events| - 1], q, n) && AllOk(p, events[..|events| - 1], v)
    requires var e := events[|events| - 1];
      && LinkOk(v.cfg, v.links[e.link]) && e.link < |q.links|
      && LinkBase(v.cfg, q.links[e.link]) && Whole(v.cfg, q.links[e.link])
    ensures AllOk(p, events, q)
  {
    var k := |events| - 1;
    LastTold(p, events);
    hide *;
    OkAt(p, events[..k], v, events[k].link);
    ReadTells(p, events[..k], v, events[k], q, n);
    forall id: LinkId
      ensures StoryOk(p, events, q, id)
    {
      OkAt(p, events[..k], v, id);
      ReadLink(p, events, v, q, n, id);
    }
    OkFrom(p, events, q);
  }

  lemma ReadDrains(v: Pool, e: Event) returns (n: nat)
    requires Inv(v) && Reads(v, e)
    ensures v.cfg.expectEcho ==> v.cfg.message != []
    ensures Read(v, e, OnData(v, e.link, e.bytes, e.flushed), n)
  {
    LinkOkAt(v, e.link);
    NothingIsSkipped(v, e);
    BufferedDrains(v.cfg, v.links[e.link], e.bytes);
    hide Inv, LinkOk, LinkBase, Draining, EchoedFirst;
    n := DrainTold(Buffered(v, e.link, e.bytes), e.link, e.flushed);
  }

  /** What an event comes to: a read, a send, or neither. */
  lemma EventIs(v: Pool, e: Event) returns (n: nat)
    requires Inv(v)
    ensures var q := Next(v, e);
      || (Idle(v, e) && Silent(v, q))
      || (e.Send? && Wrote(v, q) && q.cfg == v.cfg)
      || Read(v, e, q, n)
  {
    n := 0;
    NextConfig(v, e);
    if !Enabled(v, e) {
      NotEnabled(v, e);
      StillAlike(v, v);
    } else {
      NothingIsSkipped(v, e);
      StepIs(v, e);
      hide Step, Inv, Read, TryStartRequest;
      if Reads(v, e) {
        n := ReadDrains(v, e);
      } else if e.Data? {
        StillAlike(v, v);
      } else if e.Send? {
        SendIff(v, e.outcome);
        SameLinks(v);
      } else {
        StepStill(v, e);
      }
    }
  }

  lemma SameLinks(v: Pool)
    ensures AllQuiet(v.links, v.links)
  {
  }

  lemma NextConfig(v: Pool, e: Event)
    ensures Next(v, e).cfg == v.cfg
  {
  }

  lemma NotEnabled(v: Pool, e: Event)
    requires !Enabled(v, e)
    ensures Idle(v, e)
  {
  }

  lemma NextStory(p: Pool, events: seq<Event>, v: Pool)
    requires events != [] && v == Run(p, events[..|events| - 1]) && v.cfg == p.cfg
    requires AllOk(p, events[..|events| - 1], v) && Inv(v) && AllWhole(v.cfg, v.links)
    requires Inv(Run(p, events)) && AllWhole(p.cfg, Run(p, events).links) && Run(p, events).cfg == p.cfg
    ensures AllOk(p, events, Run(p, events))
  {
    var e, q := events[|events| - 1], Run(p, events);
    assert q == Next(v, e);
    hide *;
    var n := EventIs(v, e);
    if Read(v, e, q, n) {
      ReadHas(v, e, q, n);
      ReadStory(p, events, v, q, n);
    } else if Idle(v, e) && Silent(v, q) {
      StillStory(p, events, v, q);
    } else {
      SenderHas(v, q);
      SentStory(p, events, v, q);
    }
  }

  lemma ReadHas(v: Pool, e: Event, q: Pool, n: nat)
    requires Read(v, e, q, n) && Inv(v) && Inv(q) && AllWhole(q.cfg, q.links) && q.cfg == v.cfg
    ensures e.Data? && e.link < |v.links| && e.link < |q.links| && LinkOk(v.cfg, v.links[e.link])
    ensures LinkBase(v.cfg, q.links[e.link]) && Whole(v.cfg, q.links[e.link])
  {
    ReadIs(v, e, q, n);
    LinkOkAt(v, e.link);
    LinkOkAt(q, e.link);
    hide Inv, Read, LinkOk, LinkBase, Whole, Timed, Ids;
  }

  lemma SenderHas(v: Pool, q: Pool)
    requires Wrote(v, q) && Inv(v) && AllWhole(v.cfg, v.links)
    ensures var s := Sender(v).value;
      s < |v.links| && v.links[s].state == Open && LinkOk(v.cfg, v.links[s]) && Whole(v.cfg, v.links[s])
  {
    LinkOkAt(v, Sender(v).value);
    hide Inv, LinkOk, LinkBase, Whole, Written;
  }

  /** After every run: the latencies recorded are those of the echoes that reads brought while measuring was
      on, in order, the k-th echo of a link timed from the k-th message sent on it; and each echo told the
      callback of its own message, as each send did where no echo is expected. */
  lemma {:induction false} EchoesTimed(cfg: Config, now: int, events: seq<Event>)
    requires Sound(cfg)
    ensures AllOk(New(cfg, now), events, Run(New(cfg, now), events))
  {
    RunWhole(cfg, now, events);
    if events == [] {
      NoStory(cfg, now);
    } else {
      var k := |events| - 1;
      RunWhole(cfg, now, events[..k]);
      EchoesTimed(cfg, now, events[..k]);
      NewIs(cfg, now);
      hide Run, New, AllOk, Inv, AllWhole;
      NextStory(New(cfg, now), events, Run(New(cfg, now), events[..k]));
    }
  }

  lemma NewIs(cfg: Config, now: int)
    ensures New(cfg, now).cfg == cfg
  {
  }

  lemma NoStory(cfg: Config, now: int)
    ensures AllOk(New(cfg, now), [], New(cfg, now))
  {
  }
}
