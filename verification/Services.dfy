/** The bookkeeping behind the health route (nodes-common/src/lib.rs, `StartedServices`): the list of
    flags itself, and what a scan of it tells while other threads go on registering services and
    setting flags. */
module Services {
  import opened Wrappers

  /** The shared flag a service sets when it is ready. */
  class Flag {
    var started: bool

    constructor ()
      ensures !started
    {
      started := false;
    }
  }

  /** The flags under concurrent use. `scan` is the position of a scan that holds the lock, and `answer`
      what the last scan returned. */
  datatype Board = Board(flags: seq<bool>, scan: Option<nat>, answer: Option<bool>) {
    predicate AllStarted() {
      forall k :: 0 <= k < |flags| ==> flags[k]
    }
  }

  /** `Store` needs no lock. A relaxed load may be stale: it may then still see the initial false. */
  datatype Event =
    | Register
    | Store(flag: nat, value: bool)
    | Lock
    | Load(stale: bool)
    | Return

  predicate Enabled(b: Board, e: Event) {
    match e
    case Register => b.scan.None?
    case Store(k, _) => k < |b.flags|
    case Lock => b.scan.None?
    case Load(_) => b.scan.Some? && b.scan.value < |b.flags|
    case Return => b.scan.Some? && b.scan.value == |b.flags|
  }

  function Next(b: Board, e: Event): Board
    requires Enabled(b, e)
  {
    match e
    case Register => b.(flags := b.flags + [false])
    case Store(k, v) => b.(flags := b.flags[k := v])
    case Lock => b.(scan := Some(0), answer := None)
    case Load(stale) =>
      if b.flags[b.scan.value] && !stale then b.(scan := Some(b.scan.value + 1))
      else b.(scan := None, answer := Some(false))
    case Return => b.(scan := None, answer := Some(true))
  }

  /** The list of flags as the source keeps it; one method call runs without interference here. */
  class StartedServices {
    var services: seq<Flag>

    ghost function View(): Board
      reads this, services
    {
      Board(seq(|services|, i requires 0 <= i < |services| reads this, services => services[i].started), None, None)
    }

    constructor ()
      ensures View() == Board([], None, None)
    {
      services := [];
    }

    method NewService() returns (service: Flag)
      modifies this`services
      ensures fresh(service) && !service.started
      ensures services == old(services) + [service]
      ensures View() == Next(old(View()), Register)
    {
      service := new Flag();
      services := services + [service];
    }

    /** The scan stops at the first flag that is not set. */
    method AllStarted() returns (all: bool)
      ensures all == View().AllStarted()
    {
      for k := 0 to |services|
        invariant forall j :: 0 <= j < k ==> services[j].started
      {
        if !services[k].started {
          assert !View().flags[k];
          return false;
        }
      }
      return true;
    }
  }

  predicate Legal(b: Board, events: seq<Event>)
    decreases |events|
  {
    events == [] || (Enabled(b, events[0]) && Legal(Next(b, events[0]), events[1..]))
  }

  function Run(b: Board, events: seq<Event>): Board
    requires Legal(b, events)
    decreases |events|
  {
    if events == [] then b else Run(Next(b, events[0]), events[1..])
  }

  /** A new service counts as not started until its flag is set, and a set flag counts at once. */
  lemma NewServiceHoldsBack(b: Board)
    requires b.scan.None?
    ensures !Next(b, Register).AllStarted()
    ensures b.AllStarted() ==> Next(Next(b, Register), Store(|b.flags|, true)).AllStarted()
  {
    assert !Next(b, Register).flags[|b.flags|];
  }

  /** No flag is taken back. */
  predicate Monotone(events: seq<Event>) {
    forall i :: 0 <= i < |events| ==> !(events[i].Store? && !events[i].value)
  }

  predicate Fresh(events: seq<Event>) {
    forall i :: 0 <= i < |events| ==> !(events[i].Load? && events[i].stale)
  }

  /** At some instant of the run from `b`, all registered services have started, or not, as `answer`
      says. */
  ghost predicate TrueAtSomeInstant(b: Board, events: seq<Event>, answer: bool)
    requires Legal(b, events)
    decreases |events|
  {
    b.AllStarted() == answer ||
    (events != [] && TrueAtSomeInstant(Next(b, events[0]), events[1..], answer))
  }

  /** One scan: from an instant at which it holds the lock to the step that gives its answer. */
  ghost predicate Scanning(b: Board, events: seq<Event>)
    requires Legal(b, events)
    decreases |events|
  {
    && b.scan.Some? && b.answer.None? && events != []
    && var b' := Next(b, events[0]);
       if b'.answer.Some? then |events| == 1 else Scanning(b', events[1..])
  }

  /** Everything the scan has passed is still set. */
  ghost predicate Passed(b: Board) {
    b.scan.Some? ==> b.scan.value <= |b.flags| && forall k :: 0 <= k < b.scan.value ==> b.flags[k]
  }

  /** A scan that answers yes is right at the instant it returns, however stale its loads are. */
  lemma {:induction false} YesIsTrueOnReturn(b: Board, events: seq<Event>)
    requires Legal(b, events) && Scanning(b, events) && Monotone(events) && Passed(b)
    requires Run(b, events).answer == Some(true)
    ensures Run(b, events).AllStarted()
    decreases |events|
  {
    var b' := Next(b, events[0]);
    assert Monotone(events[1..]);
    assert !(events[0].Store? && !events[0].value);
    if b'.answer.Some? {
      assert events[1..] == [];
    } else {
      YesIsTrueOnReturn(b', events[1..]);
    }
  }

  /** A scan that answers no, on loads that are not stale, was right at the instant of its last load,
      whether or not flags are taken back. */
  lemma {:induction false} NoWasTrueOnce(b: Board, events: seq<Event>)
    requires Legal(b, events) && Scanning(b, events) && Fresh(events)
    requires Run(b, events).answer == Some(false)
    ensures TrueAtSomeInstant(b, events, false)
    decreases |events|
  {
    var b' := Next(b, events[0]);
    assert Fresh(events[1..]);
    assert !(events[0].Load? && events[0].stale);
    if b'.answer.Some? {
      assert events[1..] == [];
      assert !b.flags[b.scan.value];
    } else {
      NoWasTrueOnce(b', events[1..]);
    }
  }

  lemma {:induction false} FinalInstantCounts(b: Board, events: seq<Event>)
    requires Legal(b, events)
    ensures TrueAtSomeInstant(b, events, Run(b, events).AllStarted())
    decreases |events|
  {
    if events != [] {
      FinalInstantCounts(Next(b, events[0]), events[1..]);
    }
  }

  /** The scan is linearizable although it loads the flags one by one: whatever other threads do
      between its loads, its answer is the truth at some instant while it holds the lock. */
  lemma ScanIsLinearizable(b: Board, events: seq<Event>)
    requires Enabled(b, Lock)
    requires var locked := Next(b, Lock); Legal(locked, events) && Scanning(locked, events)
    requires Monotone(events) && Fresh(events)
    ensures var locked := Next(b, Lock);
            && Run(locked, events).answer.Some?
            && TrueAtSomeInstant(locked, events, Run(locked, events).answer.value)
  {
    var locked := Next(b, Lock);
    ScanAnswers(locked, events);
    if Run(locked, events).answer.value {
      YesIsTrueOnReturn(locked, events);
      FinalInstantCounts(locked, events);
    } else {
      NoWasTrueOnce(locked, events);
    }
  }

  lemma {:induction false} ScanAnswers(b: Board, events: seq<Event>)
    requires Legal(b, events) && Scanning(b, events)
    ensures Run(b, events).answer.Some?
    decreases |events|
  {
    var b' := Next(b, events[0]);
    if b'.answer.Some? {
      assert events[1..] == [];
    } else {
      ScanAnswers(b', events[1..]);
    }
  }

  lemma {:induction false} StaysStarted(b: Board, events: seq<Event>)
    requires Legal(b, events) && Scanning(b, events) && Monotone(events) && b.AllStarted()
    ensures !TrueAtSomeInstant(b, events, false)
    ensures Run(b, events).answer == Some(true) <==> Fresh(events)
    decreases |events|
  {
    var b' := Next(b, events[0]);
    assert Monotone(events[1..]);
    assert !(events[0].Store? && !events[0].value);
    assert b'.AllStarted();
    if b'.answer.Some? {
      assert events[1..] == [];
    } else {
      StaysStarted(b', events[1..]);
      FreshTail(events);
    }
  }

  lemma FreshTail(events: seq<Event>)
    requires events != []
    ensures Fresh(events) <==> Fresh(events[1..]) && !(events[0].Load? && events[0].stale)
  {
    assert forall i :: 0 < i < |events| ==> events[i] == events[1..][i - 1];
  }

  /** Exactly when a scan is right at some instant, with relaxed loads that may be stale: when none of
      its loads was, or when some service had not started when it got the lock. */
  lemma ScanIsRightIff(b: Board, events: seq<Event>)
    requires Enabled(b, Lock)
    requires var locked := Next(b, Lock); Legal(locked, events) && Scanning(locked, events)
    requires Monotone(events)
    ensures var locked := Next(b, Lock);
      && Run(locked, events).answer.Some?
      && (TrueAtSomeInstant(locked, events, Run(locked, events).answer.value)
          <==> Fresh(events) || !b.AllStarted())
  {
    var locked := Next(b, Lock);
    ScanAnswers(locked, events);
    if b.AllStarted() {
      assert locked.AllStarted();
      StaysStarted(locked, events);
    } else if Run(locked, events).answer.value {
      YesIsTrueOnReturn(locked, events);
      FinalInstantCounts(locked, events);
    }
  }

  /** Both conditions matter. When a flag is taken back during the scan, the scan can say yes although
      at no instant all services were started; when a load is stale, it can say no although at every
      instant they were. */
  lemma TakenBackOrStale()
    ensures var b := Board([true, false], Some(0), None);
            var events := [Load(false), Store(0, false), Store(1, true), Load(false), Return];
            && Legal(b, events) && Scanning(b, events) && Run(b, events).answer == Some(true)
            && !TrueAtSomeInstant(b, events, true)
    ensures var b := Board([true], Some(0), None);
            var events := [Load(true)];
            && Legal(b, events) && Scanning(b, events) && Run(b, events).answer == Some(false)
            && !TrueAtSomeInstant(b, events, false)
  {
    var b0 := Board([true, false], Some(0), None);
    var events := [Load(false), Store(0, false), Store(1, true), Load(false), Return];
    var b1 := Next(b0, events[0]);
    var b2 := Next(b1, events[1]);
    var b3 := Next(b2, events[2]);
    var b4 := Next(b3, events[3]);
    var b5 := Next(b4, events[4]);
    assert b1 == Board([true, false], Some(1), None);
    assert b2 == Board([false, false], Some(1), None);
    assert b3 == Board([false, true], Some(1), None);
    assert b4 == Board([false, true], Some(2), None);
    assert events[1..] == [Store(0, false), Store(1, true), Load(false), Return];
    assert events[1..][1..] == [Store(1, true), Load(false), Return];
    assert events[1..][1..][1..] == [Load(false), Return];
    assert events[1..][1..][1..][1..] == [Return];
    assert events[1..][1..][1..][1..][1..] == [];
    assert !b0.flags[1] && !b1.flags[1] && !b2.flags[1] && !b3.flags[0] && !b4.flags[0] && !b5.flags[0];
  }
}
