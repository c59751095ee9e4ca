/** The UDP benchmark client: datagrams that carry a sequence number, matched to their echoes by it, and
    given up on by a sweep once they are past the timeout. */
module Udp {
  import opened Tally

  const NUMBERS: nat := 0x1_0000_0000_0000_0000

  // ----- The sequence prefix -----

  const DIGITS: string := "0123456789abcdef"

  /** The `width` low hexadecimal digits of a number. */
  function Hex(number: nat, width: nat): (s: string)
    ensures |s| == width
  {
    if width == 0 then "" else Hex(number / 16, width - 1) + [DIGITS[number % 16]]
  }

  function SequencePrefix(number: nat): string {
    Hex(number, 16)
  }

  function DigitValue(c: char): Option<nat> {
    if '0' <= c <= '9' then Some((c - '0') as nat)
    else if 'a' <= c <= 'f' then Some((c - 'a') as nat + 10)
    else if 'A' <= c <= 'F' then Some((c - 'A') as nat + 10)
    else None
  }

  function HexValue(s: string): Option<nat> {
    if s == "" then Some(0)
    else
      var high := HexValue(s[..|s| - 1]);
      var low := DigitValue(s[|s| - 1]);
      if high.None? || low.None? then None else Some(16 * high.value + low.value)
  }

  /** The number a prefix gives. `lenient` is what the library makes of one that is not all hexadecimal
      digits: it strips blanks and takes a leading 0x. */
  function ParsePrefix(prefix: string, lenient: string -> Option<nat>): Option<nat> {
    if HexValue(prefix).Some? then HexValue(prefix) else lenient(prefix)
  }

  // ----- The client -----

  datatype Datagram = Datagram(number: nat, sentAt: int, call: nat)

  datatype Counters = Counters(
    sent: nat, received: nat, deferred: nat, unavailable: nat, sendErrors: nat, unexpected: nat, lost: nat)

  datatype Config = Config(maxInflight: nat, timeout: int, message: string, lenient: string -> Option<nat>)

  /** `inflight` is in the order of its numbers, as the engine's map keeps it. `noSocket` is history:
      whether prepare() found no target. */
  datatype Client = Client(
    cfg: Config, now: int, socket: bool, inflight: seq<Datagram>, n: Counters, next: nat,
    draining: bool, waiting: bool, exitAsked: bool, ended: bool,
    calls: nat, succeeded: multiset<nat>, failed: multiset<nat>, prepared: bool, noSocket: bool)

  datatype Event =
    | Prepare(connected: bool) | Send(written: bool) | Arrives(bytes: string) | SweepTimer
    | Elapse(time: nat) | DrainTimer | Finish | FinishReturns

  function New(cfg: Config, now: int): Client {
    Client(cfg, now, false, [], Counters(0, 0, 0, 0, 0, 0, 0), 0, false, false, false, false,
           0, multiset{}, multiset{}, false, false)
  }

  function Calls(q: seq<Datagram>): multiset<nat> {
    if q == [] then multiset{} else multiset{q[0].call} + Calls(q[1..])
  }

  /** A datagram put in its place by number; the map keeps the one it has. */
  function Insert(q: seq<Datagram>, d: Datagram): seq<Datagram> {
    if q == [] then [d]
    else if d.number < q[0].number then [d] + q
    else if d.number == q[0].number then q
    else [q[0]] + Insert(q[1..], d)
  }

  /** Where a number is, or the length if it is not there. */
  function IndexOf(q: seq<Datagram>, number: nat): (i: nat)
    ensures i <= |q| && (i < |q| ==> q[i].number == number)
  {
    if q == [] || q[0].number == number then 0 else 1 + IndexOf(q[1..], number)
  }

  /** The call is told at once that nothing was sent. */
  function Dropped(v: Client, n: Counters): (q: Client)
    ensures q.cfg == v.cfg
  {
    v.(n := n, calls := v.calls + 1, failed := v.failed + multiset{v.calls})
  }

  function TryStartRequest(v: Client, written: bool): (q: Client)
    ensures q.cfg == v.cfg
  {
    if !v.socket || v.draining then Dropped(v, v.n.(unavailable := v.n.unavailable + 1))
    else if |v.inflight| >= v.cfg.maxInflight then Dropped(v, v.n.(deferred := v.n.deferred + 1))
    else
      var q := v.(next := (v.next + 1) % NUMBERS);
      if !written then Dropped(q, v.n.(sendErrors := v.n.sendErrors + 1))
      else q.(n := v.n.(sent := v.n.sent + 1), calls := v.calls + 1,
              inflight := Insert(v.inflight, Datagram(v.next, v.now, v.calls)))
  }

  /** The number a datagram answers, if it is an echo at all. */
  function Answers(cfg: Config, bytes: string): Option<nat> {
    if |bytes| < 16 then None
    else
      var number := ParsePrefix(bytes[..16], cfg.lenient);
      if number.None? || bytes[16..] != cfg.message then None else number
  }

  function MaybeExit(v: Client): (q: Client)
    ensures q.cfg == v.cfg
  {
    v.(exitAsked := v.exitAsked || (v.draining && v.inflight == []))
  }

  function OnDatagram(v: Client, bytes: string): (q: Client)
    ensures q.cfg == v.cfg
  {
    var number := Answers(v.cfg, bytes);
    var i := if number.None? then |v.inflight| else IndexOf(v.inflight, number.value);
    if i == |v.inflight| then v.(n := v.n.(unexpected := v.n.unexpected + 1))
    else
      MaybeExit(v.(inflight := v.inflight[..i] + v.inflight[i + 1..],
                   n := v.n.(received := v.n.received + 1),
                   succeeded := v.succeeded + multiset{v.inflight[i].call}))
  }

  predicate Late(v: Client, d: Datagram) {
    v.now - d.sentAt >= v.cfg.timeout
  }

  /** How many datagrams the sweep takes from the front. */
  function LateRun(v: Client, q: seq<Datagram>): (k: nat)
    ensures k <= |q|
  {
    if q == [] || !Late(v, q[0]) then 0 else 1 + LateRun(v, q[1..])
  }

  /** The first `k` datagrams are given up on. */
  function GivenUp(v: Client, k: nat): (q: Client)
    requires k <= |v.inflight|
    ensures q.cfg == v.cfg
  {
    v.(inflight := v.inflight[k..], n := v.n.(lost := v.n.lost + k), failed := v.failed + Calls(v.inflight[..k]))
  }

  function OnSweep(v: Client): (q: Client)
    ensures q.cfg == v.cfg
  {
    MaybeExit(GivenUp(v, LateRun(v, v.inflight)))
  }

  function Closed(v: Client): (q: Client)
    ensures q.cfg == v.cfg
  {
    GivenUp(v, |v.inflight|).(waiting := false, ended := true)
  }

  function OnFinish(v: Client): (q: Client)
    ensures q.cfg == v.cfg
  {
    if v.draining then v
    else if v.inflight != [] && v.socket then v.(draining := true, waiting := true)
    else Closed(v.(draining := true))
  }

  predicate Enabled(v: Client, e: Event) {
    match e
    case Prepare(_) => !v.prepared && !v.draining
    case Arrives(_) => v.socket
    case SweepTimer => v.socket && !v.ended
    case DrainTimer => v.waiting
    case FinishReturns => v.waiting && v.exitAsked
    case _ => true
  }

  function Next(v: Client, e: Event): Client {
    if !Enabled(v, e) then v
    else match e
      case Prepare(connected) =>
        v.(prepared := true, socket := connected, noSocket := !connected,
           n := if connected then v.n else v.n.(unavailable := v.n.unavailable + 1))
      case Send(written) => TryStartRequest(v, written)
      case Arrives(bytes) => OnDatagram(v, bytes)
      case SweepTimer => OnSweep(v)
      case Elapse(time) => v.(now := v.now + time)
      case DrainTimer => v.(exitAsked := true)
      case Finish => OnFinish(v)
      case FinishReturns => Closed(v.(exitAsked := false))
  }

  function Run(v: Client, events: seq<Event>): Client {
    if events == [] then v else Next(Run(v, events[..|events| - 1]), events[|events| - 1])
  }
}
