/** TCP may split and coalesce the echoes as it likes: what is matched, what is timed and where a
    mismatch is found depend on the bytes alone. */
module TcpEcho {
  import opened Tally
  import opened TcpPool

  /** The pool without the bytes held by a link that is not in use: nothing reads them. */
  ghost function Settled(p: Pool, id: LinkId): Pool
    requires Named(p, id)
  {
    if InUse(p.links[id]) then p
    else p.(links := p.links[id := p.links[id].(received := [], returned := [])])
  }

  /** The link's data as it comes, chunk after chunk. */
  ghost function InChunks(p: Pool, id: LinkId, chunks: seq<seq<byte>>, flushed: bool): (q: Pool)
    requires Named(p, id) && (p.cfg.expectEcho ==> p.cfg.message != [])
    ensures Named(q, id) && q.cfg == p.cfg
  {
    if chunks == [] then p
    else
      var q := InChunks(p, id, chunks[..|chunks| - 1], flushed);
      OnData(q, id, chunks[|chunks| - 1], flushed)
  }

  ghost function Joined(chunks: seq<seq<byte>>): seq<byte> {
    if chunks == [] then [] else Joined(chunks[..|chunks| - 1]) + chunks[|chunks| - 1]
  }

  lemma LetGoBuffered(p: Pool, id: LinkId, bytes: seq<byte>, n: Counters, release: bool, retry: bool)
    requires Named(p, id)
    ensures LetGo(Buffered(p, id, bytes), id, n, release, retry) == Buffered(LetGo(p, id, n, release, retry), id, bytes)
  {
  }

  lemma EchoedBuffered(p: Pool, id: LinkId, bytes: seq<byte>)
    requires Named(p, id) && p.links[id].inflight != []
    ensures Echoed(Buffered(p, id, bytes), id) == Buffered(Echoed(p, id), id, bytes)
  {
  }

  lemma MismatchBuffered(p: Pool, id: LinkId, bytes: seq<byte>)
    requires Named(p, id) && InUse(p.links[id])
    ensures OnEchoMismatch(Buffered(p, id, bytes), id) == Buffered(OnEchoMismatch(p, id), id, bytes)
  {
    var n := p.n.(echoMismatch := p.n.echoMismatch + 1);
    hide LetGo;
    LetGoBuffered(p, id, bytes, n, true, p.slots[p.links[id].slot].active == Some(id));
  }

  lemma OnEchoBuffered(p: Pool, id: LinkId, bytes: seq<byte>, echo: seq<byte>, flushed: bool)
    requires Named(p, id) && InUse(p.links[id])
    ensures OnEcho(Buffered(p, id, bytes), id, echo, flushed) == Buffered(OnEcho(p, id, echo, flushed), id, bytes)
  {
    hide LetGo, Echoed, OnEchoMismatch;
    if echo != p.cfg.message || p.links[id].inflight == [] {
      MismatchBuffered(p, id, bytes);
    } else {
      EchoedBuffered(p, id, bytes);
      EchoedNamed(p, id);
      var q := Echoed(p, id);
      LetGoBuffered(q, id, bytes, q.n, flushed, false);
    }
  }

  lemma EchoedNamed(p: Pool, id: LinkId)
    requires Named(p, id) && p.links[id].inflight != []
    ensures Named(Echoed(p, id), id) && Echoed(p, id).links[id].state == p.links[id].state
  {
  }

  lemma EchoStepBuffered(p: Pool, id: LinkId, bytes: seq<byte>, flushed: bool)
    requires Named(p, id) && InUse(p.links[id]) && |p.links[id].received| >= |p.cfg.message|
    ensures EchoStep(Buffered(p, id, bytes), id, flushed) == Buffered(EchoStep(p, id, flushed), id, bytes)
  {
    var l := p.links[id];
    var m := |p.cfg.message|;
    assert (l.received + bytes)[..m] == l.received[..m];
    assert (l.received + bytes)[m..] == l.received[m..] + bytes;
    assert Taken(Buffered(p, id, bytes), id) == Buffered(Taken(p, id), id, bytes);
    OnEchoBuffered(Taken(p, id), id, bytes, l.received[..m], flushed);
    hide OnEcho;
  }

  /** More bytes change nothing about how the ones before them are matched. */
  lemma {:induction false} DrainBuffered(p: Pool, id: LinkId, bytes: seq<byte>, flushed: bool)
    requires Named(p, id) && p.cfg.message != [] && p.cfg.expectEcho
    ensures Settled(Drain(Buffered(p, id, bytes), id, flushed), id)
            == Settled(OnData(Drain(p, id, flushed), id, bytes, flushed), id)
    decreases |p.links[id].received|
  {
    hide EchoStep, Settled;
    if |p.links[id].received| >= |p.cfg.message| && InUse(p.links[id]) {
      var q := EchoStep(p, id, flushed);
      EchoStepBuffered(p, id, bytes, flushed);
      DrainBuffered(q, id, bytes, flushed);
    } else if !InUse(p.links[id]) {
      SettledBuffered(p, id, bytes);
    }
  }

  lemma SettledBuffered(p: Pool, id: LinkId, bytes: seq<byte>)
    requires Named(p, id)
    ensures !InUse(p.links[id]) ==> Settled(Buffered(p, id, bytes), id) == Settled(p, id)
  {
  }

  /** Two chunks or the two as one. */
  lemma TwoChunks(p: Pool, id: LinkId, a: seq<byte>, b: seq<byte>, flushed: bool)
    requires Named(p, id) && (p.cfg.expectEcho ==> p.cfg.message != [])
    ensures Settled(OnData(OnData(p, id, a, flushed), id, b, flushed), id)
            == Settled(OnData(p, id, a + b, flushed), id)
  {
    if p.cfg.expectEcho && InUse(p.links[id]) {
      var l := p.links[id];
      assert l.received + a + b == l.received + (a + b);
      assert l.returned + a + b == l.returned + (a + b);
      assert Buffered(Buffered(p, id, a), id, b) == Buffered(p, id, a + b);
      DrainBuffered(Buffered(p, id, a), id, b, flushed);
      hide Drain;
    }
  }

  lemma SettledOnData(p: Pool, q: Pool, id: LinkId, bytes: seq<byte>, flushed: bool)
    requires Named(p, id) && Named(q, id) && Settled(p, id) == Settled(q, id)
    requires p.cfg == q.cfg && (p.cfg.expectEcho ==> p.cfg.message != [])
    ensures Settled(OnData(p, id, bytes, flushed), id) == Settled(OnData(q, id, bytes, flushed), id)
  {
    assert Settled(p, id).links[id].state == p.links[id].state;
    assert Settled(q, id).links[id].state == q.links[id].state;
  }

  /** However a link's bytes come in between two sends, its messages are matched, timed and lost as if
      they had come at once. */
  lemma {:induction false} ChunksDoNotMatter(p: Pool, id: LinkId, chunks: seq<seq<byte>>, flushed: bool)
    requires Named(p, id) && (p.cfg.expectEcho ==> p.cfg.message != [])
    requires chunks != []
    ensures Settled(InChunks(p, id, chunks, flushed), id) == Settled(OnData(p, id, Joined(chunks), flushed), id)
  {
    hide OnData, Settled;
    var k := |chunks| - 1;
    if k == 0 {
      assert chunks[..0] == [] && Joined(chunks) == chunks[0];
      assert InChunks(p, id, [], flushed) == p;
    } else {
      ChunksDoNotMatter(p, id, chunks[..k], flushed);
      SettledOnData(InChunks(p, id, chunks[..k], flushed), OnData(p, id, Joined(chunks[..k]), flushed),
                    id, chunks[k], flushed);
      TwoChunks(p, id, Joined(chunks[..k]), chunks[k], flushed);
    }
  }
}
