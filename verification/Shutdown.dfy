/** The watcher that `spawn_shutdown_task` starts (nodes-common/src/lib.rs): it waits for the shutdown
    signal or for somebody else to cancel the shared token, and its drop guard cancels the token
    whichever way it ends. */
module Shutdown {

  datatype Phase = Waiting | Graceful | Leaving | Ended

  /** `fired`: the signal future is ready. `outside`: some other holder has cancelled the token.
      `dropped`: the runtime has dropped the watcher before its end. */
  datatype State = State(fired: bool, outside: bool, dropped: bool, cancelled: bool, graceful: bool, phase: Phase)

  datatype Event =
    | SignalFires
    | OthersCancel
    | TakeSignal
    | TakeCancelled
    | OwnCancel
    | DropGuard
    | WatcherDropped

  function Spawned(): State {
    State(false, false, false, false, false, Waiting)
  }

  /** `select!` picks freely when both branches are ready. */
  predicate Enabled(s: State, e: Event) {
    match e
    case SignalFires => true
    case OthersCancel => true
    case TakeSignal => s.phase.Waiting? && s.fired
    case TakeCancelled => s.phase.Waiting? && s.cancelled
    case OwnCancel => s.phase.Graceful?
    case DropGuard => s.phase.Leaving?
    case WatcherDropped => !s.phase.Ended?
  }

  /** Storing the flag and cancelling are two steps, seen by other threads one after the other. */
  function Next(s: State, e: Event): State {
    match e
    case SignalFires => s.(fired := true)
    case OthersCancel => s.(outside := true, cancelled := true)
    case TakeSignal => s.(graceful := true, phase := Graceful)
    case TakeCancelled => s.(phase := Leaving)
    case OwnCancel => s.(cancelled := true, phase := Leaving)
    case DropGuard => s.(cancelled := true, phase := Ended)
    case WatcherDropped => s.(dropped := true, cancelled := true, phase := Ended)
  }

  predicate Legal(s: State, events: seq<Event>)
    decreases |events|
  {
    events == [] || (Enabled(s, events[0]) && Legal(Next(s, events[0]), events[1..]))
  }

  function Run(s: State, events: seq<Event>): State
    decreases |events|
  {
    if events == [] then s else Run(Next(s, events[0]), events[1..])
  }

  predicate Inv(s: State) {
    && (s.graceful ==> s.fired)
    && (s.phase.Graceful? ==> s.graceful)
    && (s.phase.Leaving? || s.phase.Ended? ==> s.cancelled)
    && (s.outside ==> s.cancelled)
    && (s.cancelled ==> s.graceful || s.outside || s.dropped)
    && (s.graceful ==> !s.phase.Waiting?)
  }

  lemma {:induction false} InvRun(s: State, events: seq<Event>)
    requires Inv(s) && Legal(s, events)
    ensures Inv(Run(s, events))
    decreases |events|
  {
    if events != [] {
      InvRun(Next(s, events[0]), events[1..]);
    }
  }

  /** The token tells the truth about the watcher in every reachable state: once it has ended the
      token is cancelled; a cancelled token that nobody else cancelled, of a watcher that was not dropped,
      means that the graceful flag is already set; and the flag is never set without the signal. */
  lemma TokenAndFlagAgree(events: seq<Event>)
    requires Legal(Spawned(), events)
    ensures var s := Run(Spawned(), events);
            && (s.phase.Ended? ==> s.cancelled)
            && (s.cancelled && !s.outside && !s.dropped ==> s.graceful)
            && (s.graceful ==> s.fired)
  {
    InvRun(Spawned(), events);
  }

  /** The watcher's own next step, if it has one. */
  predicate CanMove(s: State) {
    || Enabled(s, TakeSignal)
    || Enabled(s, TakeCancelled)
    || Enabled(s, OwnCancel)
    || Enabled(s, DropGuard)
  }

  function StepsLeft(s: State): nat {
    match s.phase
    case Waiting => 3
    case Graceful => 2
    case Leaving => 1
    case Ended => 0
  }

  predicate Own(e: Event) {
    !e.SignalFires? && !e.OthersCancel?
  }

  /** The watcher waits exactly as long as neither the signal nor a cancellation has arrived, and then ends
      within three steps of its own. */
  lemma EndsOnceWoken(s: State)
    ensures CanMove(s) <==> !s.phase.Ended? && !(s.phase.Waiting? && !s.fired && !s.cancelled)
    ensures forall e :: Enabled(s, e) ==>
              StepsLeft(Next(s, e)) <= StepsLeft(s) - (if Own(e) then 1 else 0)
    ensures StepsLeft(s) == 0 <==> s.phase.Ended?
  {
  }

  /** The select is not biased to the signal: a watcher that finds both the signal and a cancellation may
      end without the graceful flag. */
  lemma SignalMayLose()
    ensures var events := [SignalFires, OthersCancel, TakeCancelled, DropGuard];
            Legal(Spawned(), events) && Run(Spawned(), events) == State(true, true, false, true, false, Ended)
  {
    var events := [SignalFires, OthersCancel, TakeCancelled, DropGuard];
    assert events[1..] == [OthersCancel, TakeCancelled, DropGuard];
    assert events[1..][1..] == [TakeCancelled, DropGuard];
    assert events[1..][1..][1..] == [DropGuard];
    assert events[1..][1..][1..][1..] == [];
  }
}
