/** The UDP client's datagrams and counters, from the events alone. */
module UdpEvents {
  import opened Tally
  import opened Udp
  import opened UdpRuns

  // ----- Sending -----

  /** A call is sent, or meets a send error, exactly when there is a socket, the client is not draining and the
      cap is not reached; without a socket or draining it is unavailable, at the cap deferred. Whatever it is, it
      is that and nothing else. */
  lemma SendIff(v: Client, written: bool)
    ensures var n, m := v.n, TryStartRequest(v, written).n;
      var open, room := v.socket && !v.draining, |v.inflight| < v.cfg.maxInflight;
      && m.sent == n.sent + (if open && room && written then 1 else 0)
      && m.sendErrors == n.sendErrors + (if open && room && !written then 1 else 0)
      && m.deferred == n.deferred + (if open && !room then 1 else 0)
      && m.unavailable == n.unavailable + (if !open then 1 else 0)
      && m.received == n.received && m.lost == n.lost && m.unexpected == n.unexpected
  {
    hide Insert;
  }

  /** The datagram that an event sends, if it sends one: the next number, the time and the call. */
  function SentBy(v: Client, e: Event): Option<Datagram> {
    if e.Send? && e.written && v.socket && !v.draining && |v.inflight| < v.cfg.maxInflight
    then Some(Datagram(v.next, v.now, v.calls)) else None
  }

  /** The datagram was sent by an event of the run. */
  ghost predicate WasSent(v: Client, events: seq<Event>, d: Datagram) {
    exists k | 0 <= k < |events| :: SentBy(Run(v, events[..k]), events[k]) == Some(d)
  }

  lemma SentBefore(v: Client, events: seq<Event>, d: Datagram)
    requires events != [] && WasSent(v, events[..|events| - 1], d)
    ensures WasSent(v, events, d)
  {
    hide Run, SentBy;
    var before := events[..|events| - 1];
    var k :| 0 <= k < |before| && SentBy(Run(v, before[..k]), before[k]) == Some(d);
    assert before[..k] == events[..k] && before[k] == events[k];
  }

  lemma SentLast(v: Client, events: seq<Event>, d: Datagram)
    requires events != [] && SentBy(Run(v, events[..|events| - 1]), events[|events| - 1]) == Some(d)
    ensures WasSent(v, events, d)
  {
    hide Run, SentBy;
  }

  lemma {:induction false} InsertHas(q: seq<Datagram>, d: Datagram, x: Datagram)
    requires x in Insert(q, d)
    ensures x in q || x == d
  {
    if q != [] && d.number > q[0].number {
      if x != q[0] {
        assert x in Insert(q[1..], d);
        InsertHas(q[1..], d, x);
      }
    }
  }

  /** A datagram outstanding after an event was outstanding before, or is the one the event sent. */
  lemma NextOutstanding(v: Client, e: Event, d: Datagram)
    requires d in Next(v, e).inflight
    ensures d in v.inflight || SentBy(v, e) == Some(d)
  {
    hide Insert, LateRun, IndexOf, Answers, Calls, OnDatagram, OnSweep;
    if e.Send? && SentBy(v, e).Some? {
      assert Next(v, e).inflight == Insert(v.inflight, SentBy(v, e).value);
      InsertHas(v.inflight, SentBy(v, e).value, d);
    } else if Enabled(v, e) {
      match e
      case Arrives(bytes) => KeptByArrival(v, bytes, d);
      case SweepTimer => KeptBySweep(v, d);
      case _ =>
    }
  }

  lemma KeptByArrival(v: Client, bytes: string, d: Datagram)
    requires d in OnDatagram(v, bytes).inflight
    ensures d in v.inflight
  {
    hide Answers, IndexOf;
    var number := Answers(v.cfg, bytes);
    var i := if number.None? then |v.inflight| else IndexOf(v.inflight, number.value);
    if i < |v.inflight| {
      assert OnDatagram(v, bytes).inflight == v.inflight[..i] + v.inflight[i + 1..];
    }
  }

  lemma KeptBySweep(v: Client, d: Datagram)
    requires d in OnSweep(v).inflight
    ensures d in v.inflight
  {
    hide LateRun, Calls;
    assert OnSweep(v).inflight == v.inflight[LateRun(v, v.inflight)..];
  }

  /** Every datagram outstanding carries the number, the time and the call of the event that sent it. */
  lemma {:induction false} OutstandingWereSent(cfg: Config, now: int, events: seq<Event>, d: Datagram)
    requires d in Run(New(cfg, now), events).inflight
    ensures WasSent(New(cfg, now), events, d)
  {
    if events != [] {
      var before := events[..|events| - 1];
      NextOutstanding(Run(New(cfg, now), before), events[|events| - 1], d);
      hide Next, WasSent, SentBy, New;
      if d in Run(New(cfg, now), before).inflight {
        OutstandingWereSent(cfg, now, before, d);
        SentBefore(New(cfg, now), events, d);
      } else {
        SentLast(New(cfg, now), events, d);
      }
    }
  }

  // ----- Receiving -----

  /** A datagram that arrives is the echo of one outstanding, which is then received, or unexpected. */
  lemma ArrivalIff(v: Client, bytes: string)
    ensures var n, q := v.n, OnDatagram(v, bytes);
      var echo := exists i | 0 <= i < |v.inflight| :: Answers(v.cfg, bytes) == Some(v.inflight[i].number);
      && q.n == n.(received := n.received + (if echo then 1 else 0),
                   unexpected := n.unexpected + (if echo then 0 else 1))
      && |q.inflight| == |v.inflight| - (if echo then 1 else 0)
  {
    var number := Answers(v.cfg, bytes);
    if number.Some? {
      OutstandingIff(v.inflight, number.value);
    }
    hide Answers, IndexOf;
  }
}
