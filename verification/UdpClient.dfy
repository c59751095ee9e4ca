/** The UDP client as the engine writes it. Every method is proved to do what the state machine of Udp
    says of its event. */
module UdpClient {
  import opened Tally
  import opened Udp
  import opened UdpRuns

  class UdpBenchmarkClient {
    const cfg: Config
    var now: int
    var socket: bool
    var inflight: seq<Datagram>
    var n: Counters
    var next: nat
    var draining: bool
    var waiting: bool
    var exitAsked: bool
    var ended: bool
    var calls: nat
    var succeeded: multiset<nat>
    var failed: multiset<nat>
    var prepared: bool
    var noSocket: bool

    function View(): Client
      reads this
    {
      Client(cfg, now, socket, inflight, n, next, draining, waiting, exitAsked, ended,
             calls, succeeded, failed, prepared, noSocket)
    }

    constructor (cfg: Config, now: int)
      ensures View() == New(cfg, now)
    {
      this.cfg, this.now := cfg, now;
      socket, inflight, n, next := false, [], Counters(0, 0, 0, 0, 0, 0, 0), 0;
      draining, waiting, exitAsked, ended := false, false, false, false;
      calls, succeeded, failed, prepared, noSocket := 0, multiset{}, multiset{}, false, false;
    }

    /** The call is told at once that nothing was sent. */
    method Drop(counters: Counters)
      modifies `n, `calls, `failed
      ensures View() == Dropped(old(View()), counters)
    {
      n := counters;
      failed := failed + multiset{calls};
      calls := calls + 1;
    }

    method TryStartRequest(written: bool) returns (started: bool)
      modifies `n, `calls, `failed, `next, `inflight
      ensures started && View() == Udp.TryStartRequest(old(View()), written)
    {
      started := true;
      hide Insert;
      if !socket || draining {
        Drop(n.(unavailable := n.unavailable + 1));
        return;
      }
      if |inflight| >= cfg.maxInflight {
        Drop(n.(deferred := n.deferred + 1));
        return;
      }
      var number := next;
      next := (next + 1) % NUMBERS;
      if !written {
        Drop(n.(sendErrors := n.sendErrors + 1));
        return;
      }
      n := n.(sent := n.sent + 1);
      inflight := Insert(inflight, Datagram(number, now, calls));
      calls := calls + 1;
    }

    method ExitIfDrained()
      modifies `exitAsked
      ensures View() == MaybeExit(old(View()))
    {
      if draining && inflight == [] {
        exitAsked := true;
      }
    }

    /** The place of the outstanding datagram that `bytes` answers, or the end if there is none. */
    method Match(bytes: string) returns (i: nat)
      ensures var number := Answers(cfg, bytes);
        i == if number.None? then |inflight| else IndexOf(inflight, number.value)
    {
      hide ParsePrefix, IndexOf;
      if |bytes| < 16 {
        return |inflight|;
      }
      var number := ParsePrefix(bytes[..16], cfg.lenient);
      if number.None? || bytes[16..] != cfg.message {
        return |inflight|;
      }
      i := IndexOf(inflight, number.value);
    }

    method OnDatagram(bytes: string)
      modifies `n, `inflight, `succeeded, `exitAsked
      ensures View() == Udp.OnDatagram(old(View()), bytes)
    {
      hide Answers, IndexOf, MaybeExit;
      var i := Match(bytes);
      if i == |inflight| {
        n := n.(unexpected := n.unexpected + 1);
        return;
      }
      var datagram := inflight[i];
      inflight := inflight[..i] + inflight[i + 1..];
      n := n.(received := n.received + 1);
      succeeded := succeeded + multiset{datagram.call};
      ExitIfDrained();
    }

    /** One datagram, the oldest, is given up on. */
    method GiveUpOldest()
      requires inflight != []
      modifies `n, `inflight, `failed
      ensures View() == GivenUp(old(View()), 1)
    {
      var datagram := inflight[0];
      inflight := inflight[1..];
      n := n.(lost := n.lost + 1);
      failed := failed + multiset{datagram.call};
      OneCall(datagram);
      assert old(inflight)[..1] == [datagram];
    }

    /** From the oldest on, stopping at the first one still in time. */
    method Sweep()
      modifies `n, `inflight, `failed, `exitAsked
      ensures View() == OnSweep(old(View()))
    {
      ghost var v := View();
      ghost var k := 0;
      hide GivenUp, MaybeExit, Late, UdpBenchmarkClient.View;
      GivenUpNone(v);
      Shown();
      while inflight != [] && now - inflight[0].sentAt >= cfg.timeout
        invariant k <= |v.inflight| && View() == GivenUp(v, k) && Same(v) && inflight == v.inflight[k..]
        invariant LateRun(v, v.inflight) == k + LateRun(v, v.inflight[k..])
        decreases |inflight|
      {
        GiveUpOldest();
        GivenUpNext(v, k);
        LateIs(v, v.inflight[k]);
        assert v.inflight[k..][1..] == v.inflight[k + 1..];
        k := k + 1;
        Shown();
      }
      if inflight != [] {
        LateIs(v, inflight[0]);
      }
      ExitIfDrained();
    }

    ghost predicate Same(v: Client)
      reads this
    {
      v.now == now && v.cfg == cfg
    }

    lemma Shown()
      ensures View().inflight == inflight && View().now == now && View().cfg == cfg
    {
    }

    method CompleteAll()
      modifies `n, `inflight, `failed
      ensures View() == GivenUp(old(View()), |old(inflight)|)
    {
      ghost var v := View();
      ghost var k := 0;
      hide GivenUp, UdpBenchmarkClient.View;
      GivenUpNone(v);
      Shown();
      while inflight != []
        invariant k <= |v.inflight| && View() == GivenUp(v, k) && inflight == v.inflight[k..]
        decreases |inflight|
      {
        GiveUpOldest();
        GivenUpNext(v, k);
        assert v.inflight[k..][1..] == v.inflight[k + 1..];
        k := k + 1;
        Shown();
      }
    }

    method Close()
      modifies `n, `inflight, `failed, `waiting, `ended
      ensures View() == Closed(old(View()))
    {
      hide GivenUp;
      CompleteAll();
      waiting, ended := false, true;
    }

    /** finish() up to its wait, or all of it when there is nothing to wait for. */
    method Finish()
      modifies `n, `inflight, `failed, `waiting, `ended, `draining
      ensures View() == OnFinish(old(View()))
    {
      hide Closed;
      if draining {
        return;
      }
      draining := true;
      if inflight != [] && socket {
        waiting := true;
      } else {
        Close();
      }
    }

    /** prepare(): a socket, or a target that there is none for. */
    method Prepare(connected: bool)
      requires Enabled(View(), Udp.Prepare(connected))
      modifies `prepared, `socket, `noSocket, `n
      ensures View() == Next(old(View()), Udp.Prepare(connected))
    {
      prepared, socket, noSocket := true, connected, !connected;
      if !connected {
        n := n.(unavailable := n.unavailable + 1);
      }
    }

    /** What is sent, comes back or is given up on. */
    method OnTraffic(e: Event)
      requires Enabled(View(), e) && (e.Send? || e.Arrives? || e.SweepTimer?)
      modifies this
      ensures View() == Next(old(View()), e)
    {
      hide Udp.TryStartRequest, Udp.OnDatagram, OnSweep;
      match e {
        case Send(written) => var _ := TryStartRequest(written);
        case Arrives(bytes) => OnDatagram(bytes);
        case SweepTimer => Sweep();
      }
    }

    /** finish(), and what ends its wait. */
    method OnFinishing(e: Event)
      requires Enabled(View(), e) && (e.DrainTimer? || e.Finish? || e.FinishReturns?)
      modifies this
      ensures View() == Next(old(View()), e)
    {
      hide OnFinish, Closed;
      match e {
        case DrainTimer => exitAsked := true;
        case Finish => Finish();
        case FinishReturns =>
          exitAsked := false;
          Close();
      }
    }

    /** Whatever happens next, the object does what the state machine does; `gone` are the calls whose
        datagram collided. */
    method OnEvent(e: Event, ghost gone: multiset<nat>)
      requires Inv(View(), gone) && Enabled(View(), e)
      modifies this
      ensures View() == Next(old(View()), e) && Inv(View(), gone + CollidedAt(old(View()), e))
    {
      NextKeeps(View(), e, gone);
      hide Inv, CollidedAt;
      if e.Elapse? {
        now := now + e.time;
      } else {
        hide Next, UdpBenchmarkClient.View;
        if e.Prepare? {
          Prepare(e.connected);
        } else if e.Send? || e.Arrives? || e.SweepTimer? {
          OnTraffic(e);
        } else {
          OnFinishing(e);
        }
      }
    }
  }

  lemma LateIs(v: Client, d: Datagram)
    ensures Late(v, d) <==> v.now - d.sentAt >= v.cfg.timeout
  {
  }

  lemma GivenUpNone(v: Client)
    ensures GivenUp(v, 0) == v
  {
    assert v.inflight[0..] == v.inflight;
  }

  lemma GivenUpNext(v: Client, k: nat)
    requires k < |v.inflight|
    ensures |GivenUp(v, k).inflight| > 0 && GivenUp(GivenUp(v, k), 1) == GivenUp(v, k + 1)
    ensures GivenUp(v, k + 1).inflight == v.inflight[k + 1..]
  {
    hide Calls;
    var q := v.inflight;
    assert q[..k + 1] == q[..k] + [q[k]] && q[k..][..1] == [q[k]] && q[k..][1..] == q[k + 1..];
    CallsAppend(q[..k], [q[k]]);
    assert v.failed + Calls(q[..k]) + Calls([q[k]]) == v.failed + Calls(q[..k + 1]);
  }
}
