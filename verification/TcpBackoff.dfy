/** The retry timer of one TCP slot: a backoff of 10 ms that doubles to 1 s with every retry that
    is scheduled, and starts over once the slot has gone 2 s since a retry ran.

    Times are nanoseconds, as in the engine's monotonic clock. The timer never fires early, and a
    pending retry may be called off; nothing else is assumed about when retries are asked for. */
module TcpBackoff {
  import opened Tally

  const MS := 1_000_000
  const INITIAL_BACKOFF := 10 * MS
  const MAX_BACKOFF := 1000 * MS
  const BACKOFF_STARTS_OVER_AFTER := 2 * MAX_BACKOFF

  /** `due` is when the armed timer fires, None while it is not armed. `log` is the history of the
      retries that ran, the last of them being `lastRetry`. */
  datatype Retry = Retry(due: Option<int>, backoff: int, lastRetry: Option<int>, log: seq<int>)

  const NEW_RETRY := Retry(None, INITIAL_BACKOFF, None, [])

  function Schedule(r: Retry, now: int): Retry {
    if r.due.Some? then r
    else
      var backoff := if r.lastRetry.Some? && now - r.lastRetry.value >= BACKOFF_STARTS_OVER_AFTER
                     then INITIAL_BACKOFF else r.backoff;
      r.(due := Some(now + backoff),
         backoff := if backoff * 2 < MAX_BACKOFF then backoff * 2 else MAX_BACKOFF)
  }

  function CallOff(r: Retry): Retry {
    r.(due := None)
  }

  function Fire(r: Retry, now: int): Retry {
    r.(due := None, lastRetry := Some(now), log := r.log + [now])
  }

  /** What a slot at this backoff may still fall short of one retry every 438 ms before the
      doubling catches up: the potential that pays for the quick retries. */
  ghost function Credit(backoff: int): int {
    if backoff < 20 * MS then -1998 * MS
    else if backoff < 40 * MS then -1570 * MS
    else if backoff < 80 * MS then -1152 * MS
    else if backoff < 160 * MS then -754 * MS
    else if backoff < 320 * MS then -396 * MS
    else if backoff < 640 * MS then -118 * MS
    else 0
  }

  /** How far the retries from the `i`th to the last are ahead of one every 438 ms. */
  ghost function Ahead(r: Retry, i: nat): int
    requires i < |r.log|
  {
    r.log[|r.log| - 1] - r.log[i] - 438 * MS * (|r.log| - 1 - i)
  }

  ghost predicate OnLadder(backoff: int) {
    backoff in {10 * MS, 20 * MS, 40 * MS, 80 * MS, 160 * MS, 320 * MS, 640 * MS, 1000 * MS}
  }

  ghost predicate Spread(log: seq<int>) {
    forall i, j | 0 <= i <= j < |log| :: log[j] - log[i] >= 438 * MS * (j - i) - 1570 * MS
  }

  ghost predicate Paced(r: Retry, now: int) {
    && OnLadder(r.backoff)
    && (r.due.Some? ==> r.backoff >= 20 * MS)
    && (r.log == [] <==> r.lastRetry.None?)
    && (r.log != [] ==> r.lastRetry == Some(r.log[|r.log| - 1]) && r.log[|r.log| - 1] <= now)
    && Spread(r.log)
    && (forall i | 0 <= i < |r.log| ::
          && Ahead(r, i) >= -1570 * MS
          && (Ahead(r, i) + Credit(r.backoff) >= -1570 * MS
              || now - r.lastRetry.value >= BACKOFF_STARTS_OVER_AFTER)
          && (r.due.Some? ==>
                r.due.value - r.lastRetry.value - 438 * MS + Ahead(r, i) + Credit(r.backoff) >= -1570 * MS))
  }

  lemma ScheduleKeepsPace(r: Retry, now: int)
    requires Paced(r, now)
    ensures Paced(Schedule(r, now), now)
    ensures Schedule(r, now).due.Some?
    ensures 10 * MS <= r.backoff <= 1000 * MS
    ensures r.due.None? ==> 10 * MS <= Schedule(r, now).due.value - now <= 1000 * MS
  {
    var q := Schedule(r, now);
    forall i | 0 <= i < |q.log|
      ensures Ahead(q, i) == Ahead(r, i)
    {
    }
  }

  lemma CallOffKeepsPace(r: Retry, now: int)
    requires Paced(r, now)
    ensures Paced(CallOff(r), now)
  {
    forall i | 0 <= i < |r.log|
      ensures Ahead(CallOff(r), i) == Ahead(r, i)
    {
    }
  }

  lemma FireKeepsPace(r: Retry, now: int)
    requires Paced(r, now)
    requires r.due.Some? && r.due.value <= now
    ensures Paced(Fire(r, now), now)
  {
    var q := Fire(r, now);
    var m := |r.log|;
    forall i | 0 <= i < |q.log|
      ensures i < m ==> Ahead(q, i) == Ahead(r, i) + (now - r.lastRetry.value) - 438 * MS
      ensures i == m ==> Ahead(q, i) == 0
    {
    }
    forall i, j | 0 <= i <= j < |q.log|
      ensures q.log[j] - q.log[i] >= 438 * MS * (j - i) - 1570 * MS
    {
      if j == m && i < m {
        assert Ahead(q, i) == q.log[m] - q.log[i] - 438 * MS * (m - i);
      }
    }
  }

  lemma LaterKeepsPace(r: Retry, now: int, later: int)
    requires Paced(r, now) && now <= later
    ensures Paced(r, later)
  {
  }

  // ----- The delays -----

  /** What a slot asks of its timer, and when. */
  datatype Op = Asked(at: int) | Fired(at: int) | CalledOff

  function After(ops: seq<Op>): Retry {
    if ops == [] then NEW_RETRY
    else
      var r := After(ops[..|ops| - 1]);
      match ops[|ops| - 1]
      case Asked(at) => Schedule(r, at)
      case Fired(at) => Fire(r, at)
      case CalledOff => CallOff(r)
  }

  /** The last retry that ran. */
  function LastFired(ops: seq<Op>): Option<int> {
    if ops == [] then None
    else if ops[|ops| - 1].Fired? then Some(ops[|ops| - 1].at)
    else LastFired(ops[..|ops| - 1])
  }

  /** When the retry that is pending was asked for. */
  function PendingSince(ops: seq<Op>): Option<int> {
    if ops == [] || !ops[|ops| - 1].Asked? then None
    else if PendingSince(ops[..|ops| - 1]).Some? then PendingSince(ops[..|ops| - 1])
    else Some(ops[|ops| - 1].at)
  }

  /** How many retries were scheduled since the last one that came 2 s or more after a retry had run. */
  function InARow(ops: seq<Op>): nat {
    if ops == [] then 0
    else
      var before := ops[..|ops| - 1];
      if !ops[|ops| - 1].Asked? || PendingSince(before).Some? then InARow(before)
      else if LastFired(before).Some? && ops[|ops| - 1].at - LastFired(before).value >= 2000 * MS then 1
      else InARow(before) + 1
  }

  function Power(k: nat): nat { if k == 0 then 1 else 2 * Power(k - 1) }

  /** The delay after `k` retries in a row: 10 ms doubled `k` times, and at most 1 s. */
  function Delay(k: nat): int {
    if k < 7 then 10 * Power(k) * MS else 1000 * MS
  }

  lemma DelayDoubles(k: nat)
    ensures Delay(k + 1) == if Delay(k) * 2 < MAX_BACKOFF then Delay(k) * 2 else MAX_BACKOFF
  {
    assert Power(1) == 2 && Power(2) == 4 && Power(3) == 8 && Power(4) == 16 && Power(5) == 32 && Power(6) == 64;
  }

  /** However retries are asked for, run and called off: the pending one is due when it was asked for and 10 ms doubled
      for every one in a row before it, or 1 s, whichever is less. */
  lemma {:induction false} DelaysDouble(ops: seq<Op>)
    ensures var r := After(ops);
      && r.lastRetry == LastFired(ops) && r.backoff == Delay(InARow(ops))
      && (PendingSince(ops).Some? ==> InARow(ops) > 0)
      && r.due == (if PendingSince(ops).None? then None
                   else Some(PendingSince(ops).value + Delay(InARow(ops) - 1)))
  {
    if ops != [] {
      DelaysDouble(ops[..|ops| - 1]);
      DelayDoubles(InARow(ops[..|ops| - 1]));
      DelayDoubles(0);
    }
  }
}
