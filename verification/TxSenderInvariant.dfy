/** Every step of the transaction sender keeps its invariant. */
module TxSenderInvariant {
  import opened TxSender

  lemma AcceptKeepsQueue(s: State, job: Job)
    requires Queued(s) && Enabled(s, Accept(job))
    ensures Queued(Next(s, Accept(job)))
  {
    assert s.accepted == s.sent + s.queue;
    assert s.accepted + [job] == s.sent + (s.queue + [job]) + [];
  }

  lemma TakeKeepsQueue(s: State)
    requires Queued(s) && Enabled(s, Take)
    ensures Queued(Next(s, Take))
  {
    assert s.queue == [s.queue[0]] + s.queue[1..];
    assert s.sent + s.queue == (s.sent + [s.queue[0]]) + s.queue[1..];
  }

  lemma FinishKeepsQueue(s: State, e: Event)
    requires Queued(s) && Enabled(s, e) && e.Finish?
    ensures Queued(Next(s, e))
  {
    assert Jobs(Next(s, e).replied) == Jobs(s.replied) + [s.inFlight.value];
  }

  lemma StopKeepsQueue(s: State, e: Event)
    requires Queued(s) && Enabled(s, e) && (e.StopCancelled? || e.StopClosed?)
    ensures Queued(Next(s, e))
  {
    assert s.sent + s.queue + [] == s.sent + [] + s.queue;
  }

  lemma QueuedStep(s: State, e: Event)
    requires Inv(s) && Enabled(s, e)
    ensures Queued(Next(s, e))
  {
    match e {
      case Accept(job) => AcceptKeepsQueue(s, job);
      case Take => TakeKeepsQueue(s);
      case Finish(_, _) => FinishKeepsQueue(s, e);
      case StopCancelled => StopKeepsQueue(s, e);
      case StopClosed => StopKeepsQueue(s, e);
      case _ =>
    }
  }

  lemma AcceptKeepsSubmits(s: State, job: Job)
    requires Inv(s) && Enabled(s, Accept(job))
    ensures SubmitsOk(Next(s, Accept(job)))
  {
    var s' := Next(s, Accept(job));
    assert s'.waiting + s'.rejected == s.waiting + s.rejected - {job};
    forall id | id in s'.submitted && id !in s'.abandoned ensures Known(s', id) {
      assert Known(s, id);
      assert job in s'.accepted;
    }
  }

  lemma RejectKeepsSubmits(s: State, job: Job)
    requires Inv(s) && Enabled(s, Reject(job))
    ensures SubmitsOk(Next(s, Reject(job)))
  {
    var s' := Next(s, Reject(job));
    assert s'.waiting + s'.rejected == s.waiting + s.rejected;
  }

  lemma AbandonKeepsSubmits(s: State, id: nat)
    requires Inv(s) && Enabled(s, Abandon(id))
    ensures SubmitsOk(Next(s, Abandon(id)))
  {
  }

  lemma WorkerKeepsSubmits(s: State, e: Event)
    requires Inv(s) && Enabled(s, e) && (e.Take? || e.Finish? || e.StopCancelled? || e.StopClosed?)
    ensures SubmitsOk(Next(s, e))
  {
    var s' := Next(s, e);
    forall id | id in s'.submitted && id !in s'.abandoned ensures Known(s', id) {
      assert Known(s, id);
    }
  }

  lemma SubmitKeepsSubmits(s: State, e: Event)
    requires Inv(s) && Enabled(s, e) && (e.Submit? || e.CloneHandle? || e.DropHandle? || e.Cancel?)
    ensures SubmitsOk(Next(s, e))
  {
    var s' := Next(s, e);
    forall id | id in s'.submitted && id !in s'.abandoned ensures Known(s', id) {
      if id in s.submitted {
        assert Known(s, id);
      } else {
        assert e.job in s'.waiting + s'.rejected;
      }
    }
  }

  lemma SubmitsStep(s: State, e: Event)
    requires Inv(s) && Enabled(s, e)
    ensures SubmitsOk(Next(s, e))
  {
    match e {
      case Accept(job) => AcceptKeepsSubmits(s, job);
      case Reject(job) => RejectKeepsSubmits(s, job);
      case Abandon(id) => AbandonKeepsSubmits(s, id);
      case Submit(_) => SubmitKeepsSubmits(s, e);
      case CloneHandle => SubmitKeepsSubmits(s, e);
      case DropHandle => SubmitKeepsSubmits(s, e);
      case Cancel => SubmitKeepsSubmits(s, e);
      case _ => WorkerKeepsSubmits(s, e);
    }
  }

  lemma InvStep(s: State, e: Event)
    requires Inv(s) && Enabled(s, e)
    ensures Inv(Next(s, e))
  {
    QueuedStep(s, e);
    SubmitsStep(s, e);
  }

  lemma {:induction false} InvRun(s: State, events: seq<Event>)
    requires Inv(s) && Legal(s, events)
    ensures Inv(Run(s, events))
    decreases |events|
  {
    if events != [] {
      InvStep(s, events[0]);
      InvRun(Next(s, events[0]), events[1..]);
    }
  }

  lemma {:induction false} RunAppend(s: State, events: seq<Event>, e: Event)
    requires Legal(s, events) && Enabled(Run(s, events), e)
    ensures Legal(s, events + [e]) && Run(s, events + [e]) == Next(Run(s, events), e)
    decreases |events|
  {
    if events == [] {
      assert [e][1..] == [];
    } else {
      RunAppend(Next(s, events[0]), events[1..], e);
      assert (events + [e])[1..] == events[1..] + [e];
    }
  }

  lemma ReachableInv(s: State)
    requires Reachable(s)
    ensures Inv(s)
  {
    var capacity, sendTimeout, events :| ReachedBy(s, capacity, sendTimeout, events);
    InvRun(Spawn(capacity, sendTimeout), events);
  }
}
