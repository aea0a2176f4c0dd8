/** What the transaction sender guarantees in every run. */
module TxSenderTheorems {
  import opened Wrappers
  import opened TxSender
  import opened TxSenderInvariant

  /** Serial and first in, first out: the broadcasts are always a prefix of the jobs in the order
      the queue accepted them, no job is broadcast twice, and the queue keeps to its size. */
  lemma SerialFifo(s: State)
    requires Reachable(s)
    ensures s.sent <= s.accepted
    ensures DistinctIds(s.sent)
    ensures |s.queue| <= s.capacity
    ensures |s.sent| == |s.replied| + (if s.inFlight.Some? then 1 else 0)
  {
    ReachableInv(s);
    assert s.accepted == s.sent + (s.queue + s.dropped);
    assert forall i :: 0 <= i < |s.sent| ==> s.sent[i] == s.accepted[i];
  }

  /** Conservation: accepted jobs are replied, in flight, queued, or dropped when the worker
      stopped; each is in exactly one of these places. */
  lemma Conservation(s: State)
    requires Reachable(s)
    ensures s.accepted == Jobs(s.replied) + InFlight(s) + s.queue + s.dropped
    ensures DistinctIds(s.accepted)
  {
    ReachableInv(s);
  }

  /** Everything the caller of submit `id` can be told. */
  ghost predicate ToldTo(s: State, id: nat, answer: Answer) {
    || (exists i :: 0 <= i < |s.replied| && s.replied[i].job.id == id && s.replied[i].answer == answer)
    || (answer == Err(TaskStopped) && exists job :: job in s.dropped && job.id == id)
    || (answer == Err(TaskStopped) && exists job :: job in s.rejected && job.id == id)
  }

  lemma SameIndex(s: State, i: nat, j: nat)
    requires Inv(s) && i < |s.accepted| && j < |s.accepted| && s.accepted[i].id == s.accepted[j].id
    ensures i == j
  {
  }

  lemma RepliedIsAccepted(s: State, i: nat)
    requires Inv(s) && i < |s.replied|
    ensures i < |s.sent| && s.accepted[i] == s.sent[i] == s.replied[i].job
  {
    assert Jobs(s.replied)[i] == s.replied[i].job;
  }

  lemma DroppedIsAccepted(s: State, job: Job) returns (k: nat)
    requires Inv(s) && job in s.dropped
    ensures |s.sent| <= k < |s.accepted| && s.accepted[k] == job
  {
    var d :| 0 <= d < |s.dropped| && s.dropped[d] == job;
    k := |s.sent| + |s.queue| + d;
  }

  /** A submit that was told `TaskStopped` is not among the broadcasts. */
  lemma StoppedNotSent(s: State, id: nat, i: nat)
    requires Inv(s) && ToldTo(s, id, Err(TaskStopped)) && i < |s.sent|
    ensures s.sent[i].id != id
  {
    assert s.accepted[i] == s.sent[i];
    if other :| other in s.dropped && other.id == id {
      var k := DroppedIsAccepted(s, other);
      if s.sent[i].id == id {
        SameIndex(s, i, k);
        assert false;
      }
    } else {
      var other :| other in s.rejected && other.id == id;
      assert s.accepted[i] in s.accepted;
    }
  }

  /** An answer other than `TaskStopped` comes from a reply. */
  lemma FromReply(s: State, id: nat, answer: Answer) returns (i: nat)
    requires Inv(s) && ToldTo(s, id, answer) && answer != Err(TaskStopped)
    ensures i < |s.replied| && s.replied[i].answer == answer
    ensures i < |s.sent| && s.accepted[i] == s.sent[i] && s.sent[i].id == id
  {
    i :| 0 <= i < |s.replied| && s.replied[i].job.id == id && s.replied[i].answer == answer;
    RepliedIsAccepted(s, i);
  }

  /** No submit is ever told two different things. */
  lemma AtMostOneAnswer(s: State, id: nat, a: Answer, b: Answer)
    requires Reachable(s) && ToldTo(s, id, a) && ToldTo(s, id, b)
    ensures a == b
  {
    ReachableInv(s);
    if a != Err(TaskStopped) && b != Err(TaskStopped) {
      var i := FromReply(s, id, a);
      var j := FromReply(s, id, b);
      SameIndex(s, i, j);
    } else if a != b {
      var i := FromReply(s, id, if a == Err(TaskStopped) then b else a);
      StoppedNotSent(s, id, i);
      assert false;
    }
  }

  /** A submit that ends in `TaskStopped` was never broadcast. */
  lemma TaskStoppedNeverBroadcast(s: State, id: nat)
    requires Reachable(s) && ToldTo(s, id, Err(TaskStopped))
    ensures forall job :: job in s.sent ==> job.id != id
  {
    ReachableInv(s);
    forall i | 0 <= i < |s.sent|
      ensures s.sent[i].id != id
    {
      StoppedNotSent(s, id, i);
    }
  }

  /** A job that the queue of a stopped worker accepted was answered or dropped. */
  lemma AcceptedResolved(s: State, k: nat)
    requires Inv(s) && !s.running && k < |s.accepted|
    ensures exists answer :: ToldTo(s, s.accepted[k].id, answer)
  {
    if k < |s.sent| {
      assert s.sent[k] == Jobs(s.replied)[k] == s.replied[k].job;
      assert ToldTo(s, s.accepted[k].id, s.replied[k].answer);
    } else {
      assert s.dropped[k - |s.sent|] == s.accepted[k];
      assert ToldTo(s, s.accepted[k].id, Err(TaskStopped));
    }
  }

  /** Once the worker has stopped, every submit whose caller still waits has been told something,
      or will be: it is waiting at a closed queue, where rejection is the only thing left. */
  lemma EveryAwaitedSubmitResolves(s: State, id: nat)
    requires Reachable(s) && !s.running && id in s.submitted && id !in s.abandoned
    ensures (exists answer :: ToldTo(s, id, answer))
         || (exists job :: job in s.waiting && job.id == id && Enabled(s, Reject(job)) && !Enabled(s, Accept(job))
               && ToldTo(Next(s, Reject(job)), id, Err(TaskStopped)))
  {
    ReachableInv(s);
    assert Known(s, id);
    if job :| job in s.accepted && job.id == id {
      var k :| 0 <= k < |s.accepted| && s.accepted[k] == job;
      AcceptedResolved(s, k);
    } else {
      var job :| job in s.waiting + s.rejected && job.id == id;
      if job in s.rejected {
        assert ToldTo(s, id, Err(TaskStopped));
      } else {
        assert job in Next(s, Reject(job)).rejected;
      }
    }
  }

  /** What a caller has been told is never taken back. */
  lemma AnswersStay(s: State, e: Event, id: nat, answer: Answer)
    requires Enabled(s, e) && Inv(s) && ToldTo(s, id, answer)
    ensures ToldTo(Next(s, e), id, answer)
  {
    var s' := Next(s, e);
    if i :| 0 <= i < |s.replied| && s.replied[i].job.id == id && s.replied[i].answer == answer {
      assert s'.replied[i] == s.replied[i];
    }
  }

  function Clones(events: seq<Event>): nat {
    if events == [] then 0 else (if events[0].CloneHandle? then 1 else 0) + Clones(events[1..])
  }

  function Drops(events: seq<Event>): nat {
    if events == [] then 0 else (if events[0].DropHandle? then 1 else 0) + Drops(events[1..])
  }

  /** The channel closes when the last clone of the handle is gone, not before. */
  lemma {:induction false} HandlesCounted(s: State, events: seq<Event>)
    requires Legal(s, events)
    ensures Run(s, events).handles == s.handles + Clones(events) - Drops(events)
    decreases |events|
  {
    if events != [] {
      HandlesCounted(Next(s, events[0]), events[1..]);
    }
  }

  predicate NobodyCancels(events: seq<Event>) {
    forall i :: 0 <= i < |events| ==> !events[i].Cancel?
  }

  /** The sender is open, or it has run dry after its last handle. */
  predicate Untroubled(s: State) {
    && s.dropped == [] && s.rejected == {}
    && (if s.running then !s.cancelled else s.handles == 0 && s.waiting == {})
  }

  lemma {:induction false} UntroubledRun(s: State, events: seq<Event>)
    requires Inv(s) && Untroubled(s) && Legal(s, events) && NobodyCancels(events)
    ensures Untroubled(Run(s, events))
    decreases |events|
  {
    if events != [] {
      assert !events[0].Cancel?;
      InvStep(s, events[0]);
      assert forall i :: 0 <= i < |events[1..]| ==> events[1..][i] == events[i + 1];
      UntroubledRun(Next(s, events[0]), events[1..]);
    }
  }

  /** Nothing is lost unless somebody cancels: the worker runs until the last handle is gone and the queue
      is empty, and no caller is ever told `TaskStopped`. */
  lemma OnlyCancellationLoses(capacity: nat, sendTimeout: nat, events: seq<Event>, id: nat)
    requires capacity > 0 && Legal(Spawn(capacity, sendTimeout), events) && NobodyCancels(events)
    ensures var s := Run(Spawn(capacity, sendTimeout), events);
      && (s.running || (s.handles == 0 && s.sent == s.accepted && s.inFlight == None))
      && s.dropped == []
      && !ToldTo(s, id, Err(TaskStopped))
  {
    var s0 := Spawn(capacity, sendTimeout);
    UntroubledRun(s0, events);
    InvRun(s0, events);
  }

  lemma {:induction false} AbandonedStaysOut(s: State, id: nat, events: seq<Event>)
    requires Legal(s, events) && id in s.submitted
    requires forall job :: job in s.waiting ==> job.id != id
    ensures var t := Run(s, events);
      && |s.accepted| <= |t.accepted| && t.accepted[..|s.accepted|] == s.accepted
      && forall i :: |s.accepted| <= i < |t.accepted| ==> t.accepted[i].id != id
    decreases |events|
  {
    if events != [] {
      var s' := Next(s, events[0]);
      assert s'.accepted[..|s.accepted|] == s.accepted;
      AbandonedStaysOut(s', id, events[1..]);
      var t := Run(s, events);
      assert t.accepted[..|s.accepted|] == t.accepted[..|s'.accepted|][..|s.accepted|];
      forall i | |s.accepted| <= i < |t.accepted|
        ensures t.accepted[i].id != id
      {
        if i < |s'.accepted| {
          assert t.accepted[i] == t.accepted[..|s'.accepted|][i];
        }
      }
    }
  }

  /** A caller that gives up takes its request with it, unless the queue has already accepted it: it is
      not accepted later, and so it is broadcast only if it had been accepted before. */
  lemma AbandonedNeverAccepted(s: State, id: nat, events: seq<Event>)
    requires Reachable(s) && Enabled(s, Abandon(id)) && Legal(Next(s, Abandon(id)), events)
    ensures var t := Run(Next(s, Abandon(id)), events);
      && (forall i :: |s.accepted| <= i < |t.accepted| ==> t.accepted[i].id != id)
      && (forall job :: job in t.sent && job.id == id ==> job in s.accepted)
  {
    var s' := Next(s, Abandon(id));
    ReachableInv(s);
    InvStep(s, Abandon(id));
    AbandonedStaysOut(s', id, events);
    InvRun(s', events);
    var t := Run(s', events);
    forall job | job in t.sent && job.id == id
      ensures job in s.accepted
    {
      var i :| 0 <= i < |t.sent| && t.sent[i] == job;
      assert t.accepted[i] == job;
      assert t.accepted[..|s.accepted|][i] == job;
    }
  }

  // Termination

  /** Turns of the worker's loop: it takes a job or it leaves. */
  function Turns(events: seq<Event>): nat {
    if events == [] then 0
    else (if events[0].Take? || events[0].StopCancelled? || events[0].StopClosed? then 1 else 0) + Turns(events[1..])
  }

  function SendingTime(events: seq<Event>): nat {
    if events == [] then 0
    else (if events[0].Finish? then events[0].elapsed else 0) + SendingTime(events[1..])
  }

  function TurnsLeft(s: State): nat {
    if s.running then |s.queue| + 1 else 0
  }

  function TimeLeft(s: State): nat {
    (|s.queue| + |InFlight(s)|) * s.sendTimeout
  }

  lemma TerminationStep(s: State, e: Event)
    requires Inv(s) && Enabled(s, e) && s.handles == 0
    ensures var s' := Next(s, e);
      && s'.handles == 0 && s'.sendTimeout == s.sendTimeout
      && Turns([e]) + TurnsLeft(s') <= TurnsLeft(s)
      && SendingTime([e]) + TimeLeft(s') <= TimeLeft(s)
  {
    var n, n' := |s.queue| + |InFlight(s)|, |Next(s, e).queue| + |InFlight(Next(s, e))|;
    assert Turns([e]) == if e.Take? || e.StopCancelled? || e.StopClosed? then 1 else 0;
    assert SendingTime([e]) == if e.Finish? then e.elapsed else 0;
    assert n' <= n;
    if e.Finish? {
      assert n' == n - 1;
      assert n' * s.sendTimeout == n * s.sendTimeout - s.sendTimeout;
    } else {
      TimesMonotone(n', n, s.sendTimeout);
    }
  }

  lemma TimesMonotone(a: nat, b: nat, t: nat)
    requires a <= b
    ensures a * t <= b * t
  {
  }

  /** Without handles the worker is done after at most one turn per queued job and one more,
      whatever branch it picks, and after at most one send timeout per job that is queued or in
      flight; when it is done, the shared token is cancelled. */
  lemma {:induction false} TerminatesWithoutHandles(s: State, events: seq<Event>)
    requires Inv(s) && Legal(s, events) && s.handles == 0
    ensures Turns(events) + TurnsLeft(Run(s, events)) <= TurnsLeft(s)
    ensures SendingTime(events) + TimeLeft(Run(s, events)) <= TimeLeft(s)
    ensures Turns(events) > |s.queue| ==> !Run(s, events).running
    ensures !Run(s, events).running ==> Run(s, events).cancelled
    decreases |events|
  {
    if events != [] {
      InvStep(s, events[0]);
      TerminationStep(s, events[0]);
      TerminatesWithoutHandles(Next(s, events[0]), events[1..]);
    }
  }

  /** It is never stuck on the way: some step of the worker is always possible, at the latest
      when the send timeout fires. */
  lemma WorkerNeverStuck(s: State)
    requires s.running && s.handles == 0
    ensures Enabled(s, Take) || Enabled(s, StopClosed) || Enabled(s, Finish(Hangs, s.sendTimeout))
  {
  }

  // Cancellation

  lemma {:induction false} FreshId(ids: set<nat>) returns (id: nat)
    ensures id !in ids
    ensures forall other :: other in ids ==> other < id
  {
    if ids == {} {
      id := 0;
    } else {
      var some :| some in ids;
      var above := FreshId(ids - {some});
      assert forall other :: other in ids ==> other == some || other in ids - {some};
      id := if above <= some then some + 1 else above;
    }
  }

  /** Nothing will be broadcast any more. */
  ghost predicate NoMoreSends(s: State) {
    forall events :: Legal(s, events) ==> Run(s, events).sent == s.sent
  }

  lemma {:induction false} QuietStays(s: State, events: seq<Event>)
    requires Inv(s) && Legal(s, events) && (!s.running || (s.queue == [] && s.handles == 0))
    ensures Run(s, events).sent == s.sent
    decreases |events|
  {
    if events != [] {
      InvStep(s, events[0]);
      QuietStays(Next(s, events[0]), events[1..]);
    }
  }

  /** From any running state with a job to come, some continuation broadcasts. */
  lemma SendsAgain(s: State) returns (events: seq<Event>)
    requires Inv(s) && s.running && (s.queue != [] || s.handles > 0)
    ensures Legal(s, events) && Run(s, events).sent != s.sent
    decreases |InFlight(s)|, s.queue == []
  {
    if s.inFlight.Some? {
      var e := Finish(Hangs, s.sendTimeout);
      InvStep(s, e);
      var rest := SendsAgain(Next(s, e));
      events := [e] + rest;
      assert events[1..] == rest;
    } else if s.queue != [] {
      events := [Take];
      assert events[1..] == [];
      assert |Next(s, Take).sent| == |s.sent| + 1;
    } else {
      var id := FreshId(s.submitted);
      var job := Job(id, 0);
      var s1 := Next(s, Submit(job));
      InvStep(s, Submit(job));
      InvStep(s1, Accept(job));
      var rest := SendsAgain(Next(s1, Accept(job)));
      events := [Submit(job)] + ([Accept(job)] + rest);
      assert events[1..] == [Accept(job)] + rest;
      assert ([Accept(job)] + rest)[1..] == rest;
    }
  }

  lemma ContinueWith(s: State, e: Event, rest: seq<Event>)
    requires Enabled(s, e) && Legal(Next(s, e), rest)
    ensures Legal(s, [e] + rest) && Run(s, [e] + rest) == Run(Next(s, e), rest)
  {
    assert ([e] + rest)[1..] == rest;
  }

  /** A continuation that broadcasts the queue up to its `k`-th job. */
  lemma {:induction false} SendsQueued(s: State, k: nat) returns (events: seq<Event>)
    requires Inv(s) && k < |s.queue|
    ensures Legal(s, events) && s.queue[k] in Run(s, events).sent
    decreases k, |InFlight(s)|
  {
    var e := if s.inFlight.Some? then Finish(Hangs, s.sendTimeout) else Take;
    var s' := Next(s, e);
    InvStep(s, e);
    if e.Take? && k == 0 {
      events := [e];
      ContinueWith(s, e, []);
      assert s'.sent[|s.sent|] == s.queue[0];
    } else {
      var rest := SendsQueued(s', if e.Take? then k - 1 else k);
      events := [e] + rest;
      ContinueWith(s, e, rest);
    }
  }

  /** A continuation that drops the queue, for a token that is cancelled. */
  lemma DropsQueued(s: State, k: nat) returns (events: seq<Event>)
    requires Inv(s) && k < |s.queue| && s.cancelled
    ensures Legal(s, events) && s.queue[k] in Run(s, events).dropped
  {
    if s.inFlight.Some? {
      var e := Finish(Hangs, s.sendTimeout);
      events := [e] + [StopCancelled];
      ContinueWith(Next(s, e), StopCancelled, []);
      ContinueWith(s, e, [StopCancelled]);
    } else {
      events := [StopCancelled];
      ContinueWith(s, StopCancelled, []);
    }
    assert Run(s, events).dropped == s.queue;
  }

  /** The fate of a queued request is open: in every reachable state, whether or not the token is
      cancelled, each queued job may yet be broadcast, and once the token is cancelled it may also be
      dropped unsent. */
  lemma QueuedMayGoEitherWay(s: State, k: nat)
    requires Reachable(s) && k < |s.queue|
    ensures exists events :: Legal(s, events) && s.queue[k] in Run(s, events).sent
    ensures s.cancelled ==> exists events :: Legal(s, events) && s.queue[k] in Run(s, events).dropped
  {
    ReachableInv(s);
    var sends := SendsQueued(s, k);
    assert Legal(s, sends);
    if s.cancelled {
      var drops := DropsQueued(s, k);
      assert Legal(s, drops);
    }
  }

  /** It does happen: a request that is queued when the token is cancelled is broadcast after that. */
  lemma SendsAfterCancellation(capacity: nat, sendTimeout: nat, job: Job) returns (cancelled: State, sending: State)
    requires capacity > 0
    ensures Reachable(cancelled) && cancelled.running && cancelled.cancelled && cancelled.queue == [job]
    ensures cancelled.sent == [] && Enabled(cancelled, Take)
    ensures sending == Next(cancelled, Take) && sending.sent == [job]
  {
    var s0 := Spawn(capacity, sendTimeout);
    var s1 := Next(s0, Submit(job));
    var s2 := Next(s1, Accept(job));
    cancelled := Next(s2, Cancel);
    ContinueWith(s2, Cancel, []);
    ContinueWith(s1, Accept(job), [Cancel]);
    ContinueWith(s0, Submit(job), [Accept(job)] + [Cancel]);
    assert ReachedBy(cancelled, capacity, sendTimeout, [Submit(job)] + ([Accept(job)] + [Cancel]));
    sending := Next(cancelled, Take);
  }

  /** Exactly when nothing will be broadcast any more: the worker has stopped, or there is neither
      a queued job nor a handle. Whether the token is cancelled makes no difference: a worker that
      has not noticed may still pick a queued job. */
  lemma NoMoreSendsIff(s: State)
    requires Reachable(s)
    ensures NoMoreSends(s) <==> !s.running || (s.queue == [] && s.handles == 0)
  {
    ReachableInv(s);
    if !s.running || (s.queue == [] && s.handles == 0) {
      forall events | Legal(s, events) ensures Run(s, events).sent == s.sent {
        QuietStays(s, events);
      }
    } else {
      var events := SendsAgain(s);
      assert Legal(s, events);
    }
  }
}
