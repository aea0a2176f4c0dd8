/** The bounded, overwriting channel between the WS subscription and the consumer, and the
    receiver that the live stream unfolds (nodes-common/src/web3/event_stream.rs). */
module Broadcast {
  import opened Wrappers
  import opened ChainLogs
  import opened Backfill

  /** `window` holds the last min(sent, cap) of the `sent` values; `next` numbers the value the
      receiver wants next. */
  datatype Ring = Ring(cap: nat, window: seq<Log>, sent: nat, next: nat, closed: bool) {

    predicate Valid() {
      && cap > 0
      && |window| == Min(sent, cap)
      && next <= sent
    }

    /** The number of the oldest value that has not been overwritten. */
    function Oldest(): int {
      sent - |window|
    }

    function Backlog(): int {
      sent - next
    }

    /** The receiver asks and there is something to say. */
    predicate Ready() {
      next < sent || closed
    }
  }

  function NewRing(cap: nat): Ring {
    Ring(cap, [], 0, 0, false)
  }

  function Push(ring: Ring, log: Log): Ring
    requires ring.Valid() && !ring.closed
  {
    var kept := if |ring.window| < ring.cap then ring.window else ring.window[1..];
    ring.(window := kept + [log], sent := ring.sent + 1)
  }

  datatype Received = Value(log: Log) | Lagged | Closed

  function Recv(ring: Ring): (Received, Ring)
    requires ring.Valid() && ring.Ready()
  {
    if ring.next < ring.Oldest() then (Lagged, ring.(next := ring.Oldest()))
    else if ring.next < ring.sent then
      (Value(ring.window[ring.next - ring.Oldest()]), ring.(next := ring.next + 1))
    else (Closed, ring)
  }

  /** `history` is everything ever pushed: the unbounded channel the ring stands for. */
  ghost predicate Represents(ring: Ring, history: seq<Log>) {
    && ring.Valid()
    && |history| == ring.sent
    && ring.window == history[ring.Oldest()..]
  }

  lemma PushRepresents(ring: Ring, history: seq<Log>, log: Log)
    requires Represents(ring, history) && !ring.closed
    ensures Represents(Push(ring, log), history + [log])
    ensures Push(ring, log).next == ring.next && Push(ring, log).cap == ring.cap
  {
    var r := Push(ring, log);
    assert r.window == (history + [log])[r.Oldest()..];
  }

  /** Receiving from the ring is receiving from the history, except that a receiver more than
      `cap` values behind is told so and continues `cap` values behind. */
  lemma RecvRepresents(ring: Ring, history: seq<Log>)
    requires Represents(ring, history) && ring.Ready()
    ensures var (got, r) := Recv(ring);
      && Represents(r, history) && r.closed == ring.closed
      && (got == Lagged <==> ring.Backlog() > ring.cap)
      && (got == Lagged ==> ring.next < r.next && r.Backlog() == ring.cap)
      && (got == Closed <==> ring.closed && ring.next == ring.sent)
      && (got == Closed ==> r == ring)
      && (got.Value? <==> 0 < ring.Backlog() <= ring.cap)
      && (got.Value? ==> got.log == history[ring.next] && r.next == ring.next + 1)
  {
  }

  /** What the WS endpoint may push for a log: the log, possibly without its block number. */
  predicate IsCopy(pushed: Log, log: Log) {
    pushed == log || pushed.blockNumber.None?
  }

  /** The window holds copies of the chain's logs from `base` on. */
  ghost predicate Carries(ring: Ring, chain: seq<Log>, base: nat) {
    && ring.Valid()
    && base + ring.sent <= |chain|
    && forall k :: 0 <= k < |ring.window| ==> IsCopy(ring.window[k], chain[base + ring.Oldest() + k])
  }

  lemma PushCarries(ring: Ring, chain: seq<Log>, base: nat, log: Log)
    requires Carries(ring, chain, base) && !ring.closed
    requires base + ring.sent < |chain| && IsCopy(log, chain[base + ring.sent])
    ensures Carries(Push(ring, log), chain, base)
  {
    var r, shift := Push(ring, log), if |ring.window| < ring.cap then 0 else 1;
    forall k | 0 <= k < |r.window| ensures IsCopy(r.window[k], chain[base + r.Oldest() + k]) {
      if k + 1 < |r.window| {
        assert r.window[k] == ring.window[k + shift];
      }
    }
  }

  /** The value received next is a copy of the next log of the chain. */
  lemma NextIsCopy(ring: Ring, chain: seq<Log>, base: nat) returns (log: Log)
    requires Carries(ring, chain, base) && 0 < ring.Backlog() <= ring.cap
    ensures Recv(ring).0 == Value(log) && base + ring.next < |chain| && IsCopy(log, chain[base + ring.next])
  {
    var k := ring.next - ring.Oldest();
    log := ring.window[k];
    assert IsCopy(log, chain[base + ring.Oldest() + k]);
  }

  lemma CarriesGrows(ring: Ring, chain: seq<Log>, more: seq<Log>, base: nat)
    requires Carries(ring, chain, base)
    ensures Carries(ring, chain + more, base)
  {
  }

  /** What one receive turns into: loss is an error; a log of a block that the backfill has
      covered is dropped; a log without a block number cannot be judged. */
  function LiveItems(upTo: Option<u64>, got: Received): seq<Item> {
    match got
    case Closed => []
    case Lagged => [Err(Lagging)]
    case Value(log) =>
      if upTo.None? then [Ok(log)]
      else
        match log.blockNumber
        case None => [Err(BlockNumberMissing)]
        case Some(n) => if n <= upTo.value then [] else [Ok(log)]
  }

  /** The receiver as the stream holds it: one object, advanced in place by every poll. */
  class Receiver {
    const cap: nat
    var window: seq<Log>
    var sent: nat
    var next: nat
    var closed: bool

    ghost predicate Valid()
      reads this
    {
      View().Valid()
    }

    function View(): Ring
      reads this
    {
      Ring(cap, window, sent, next, closed)
    }

    constructor (cap: nat)
      requires cap > 0
      ensures Valid() && View() == NewRing(cap)
    {
      this.cap := cap;
      window, sent, next, closed := [], 0, 0, false;
    }

    /** The subscription pushes a log; a full channel drops its oldest value. */
    method Send(log: Log)
      requires Valid() && !closed
      modifies this
      ensures Valid() && View() == Push(old(View()), log)
    {
      if |window| == cap {
        window := window[1..];
      }
      window := window + [log];
      sent := sent + 1;
    }

    /** One poll of the receiver. */
    method Receive() returns (got: Received)
      requires Valid() && View().Ready()
      modifies this
      ensures Valid() && (got, View()) == Recv(old(View()))
    {
      var oldest := sent - |window|;
      if next < oldest {
        next := oldest;
        got := Lagged;
      } else if next < sent {
        got := Value(window[next - oldest]);
        next := next + 1;
      } else {
        got := Closed;
      }
    }
  }
}
