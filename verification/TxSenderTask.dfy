/** The sender as the program holds it: one shared queue and token, changed in place by the
    callers and by the worker's loop (nodes-common/src/web3/tx_sender.rs). Every method is one
    step of the transition system, and the loop is a run of it. */
module TxSenderTask {
  import opened Wrappers
  import TxSender
  import opened TxSenderInvariant

  type Job = TxSender.Job
  type Event = TxSender.Event

  /** What the scheduler lets happen next: one turn of the worker's `select!` with the branch it
      prefers, the return of the pending RPC call, or a step of somebody else. */
  datatype Tick =
    | Turn(preferQueue: bool)
    | RpcReturns(result: TxSender.SendResult, elapsed: nat)
    | Elsewhere(event: Event)

  /** What a tick does; one that is not possible now does nothing. A polled submit is accepted or turned
      away as the queue dictates, whichever of the two the tick names. */
  function EventsOf(s: TxSender.State, tick: Tick): (events: seq<Event>)
    ensures |events| <= 1 && (events != [] ==> TxSender.Enabled(s, events[0]))
  {
    match tick
    case Turn(preferQueue) =>
      if !s.running || s.inFlight.Some? || (s.queue == [] && s.handles > 0 && !s.cancelled) then []
      else if s.cancelled && (!preferQueue || (s.queue == [] && s.handles > 0)) then [TxSender.StopCancelled]
      else if s.queue == [] then [TxSender.StopClosed]
      else [TxSender.Take]
    case RpcReturns(result, elapsed) =>
      if TxSender.Enabled(s, TxSender.Finish(result, elapsed)) then [TxSender.Finish(result, elapsed)] else []
    case Elsewhere(event) =>
      if event.Accept? || event.Reject? then
        if event.job !in s.waiting || (s.running && |s.queue| >= s.capacity) then []
        else [if s.running then TxSender.Accept(event.job) else TxSender.Reject(event.job)]
      else if FromCaller(event) && TxSender.Enabled(s, event) then [event]
      else []
  }

  predicate FromCaller(event: Event) {
    event.Submit? || event.Abandon? || event.CloneHandle? || event.DropHandle? || event.Cancel?
  }

  function Apply(s: TxSender.State, events: seq<Event>): TxSender.State
    requires |events| <= 1 && (events != [] ==> TxSender.Enabled(s, events[0]))
  {
    if events == [] then s else TxSender.Next(s, events[0])
  }

  /** What all the ticks do one after the other, until the worker has left its loop. */
  function Scheduled(s: TxSender.State, ticks: seq<Tick>): seq<Event>
    decreases |ticks|
  {
    if ticks == [] || !s.running then []
    else EventsOf(s, ticks[0]) + Scheduled(Apply(s, EventsOf(s, ticks[0])), ticks[1..])
  }

  /** The tick that makes an event happen. */
  function TickFor(event: Event): Tick {
    match event
    case Take => Turn(true)
    case StopClosed => Turn(true)
    case StopCancelled => Turn(false)
    case Finish(result, elapsed) => RpcReturns(result, elapsed)
    case _ => Elsewhere(event)
  }

  /** The worker has not left its loop before the last event. */
  ghost predicate UntilStop(s: TxSender.State, events: seq<Event>)
    requires TxSender.Legal(s, events)
    decreases |events|
  {
    events == [] || (s.running && UntilStop(TxSender.Next(s, events[0]), events[1..]))
  }

  /** The schedules leave nothing out: every run of the transition system up to the worker's end is what
      some schedule makes of the loop. */
  lemma {:induction false} EveryRunIsScheduled(s: TxSender.State, events: seq<Event>) returns (ticks: seq<Tick>)
    requires TxSender.Inv(s) && TxSender.Legal(s, events) && UntilStop(s, events)
    ensures Scheduled(s, ticks) == events
    decreases |events|
  {
    ticks := [];
    if events != [] {
      var tick := TickFor(events[0]);
      assert EventsOf(s, tick) == [events[0]];
      InvStep(s, events[0]);
      var rest := EveryRunIsScheduled(TxSender.Next(s, events[0]), events[1..]);
      ticks := [tick] + rest;
      assert ticks[1..] == rest;
    }
  }

  class Sender {
    const queueSize: nat
    const sendTimeout: nat
    var handles: nat
    var waiting: set<Job>
    var queue: seq<Job>
    var inFlight: Option<Job>
    var running: bool
    var cancelled: bool
    var submitted: set<nat>
    var abandoned: set<nat>
    ghost var accepted: seq<Job>
    ghost var sent: seq<Job>
    ghost var replied: seq<TxSender.Replied>
    ghost var dropped: seq<Job>
    ghost var rejected: set<Job>

    ghost function View(): TxSender.State
      reads this
    {
      TxSender.State(queueSize, sendTimeout, handles, waiting, queue, inFlight, running, cancelled,
        submitted, abandoned, accepted, sent, replied, dropped, rejected)
    }

    ghost predicate Valid()
      reads this
    {
      TxSender.Inv(View())
    }

    constructor Spawn(queueSize: nat, sendTimeout: nat)
      requires queueSize > 0
      ensures Valid() && View() == TxSender.Spawn(queueSize, sendTimeout)
    {
      this.queueSize, this.sendTimeout := queueSize, sendTimeout;
      handles, waiting, queue, inFlight, running, cancelled := 1, {}, [], None, true, false;
      submitted, abandoned, accepted, sent, replied, dropped, rejected := {}, {}, [], [], [], [], {};
    }

    /** A caller starts to submit. */
    method Submit(job: Job)
      requires Valid() && TxSender.Enabled(View(), TxSender.Submit(job))
      modifies this
      ensures Valid() && View() == TxSender.Next(old(View()), TxSender.Submit(job))
    {
      InvStep(View(), TxSender.Submit(job));
      waiting := waiting + {job};
      submitted := submitted + {job.id};
    }

    /** A waiting caller is polled: a closed queue turns it away, a free slot takes the job, and
        otherwise it goes on waiting. */
    method Admit(job: Job) returns (answer: Option<TxSender.Answer>)
      requires Valid() && job in waiting
      modifies this
      ensures Valid()
      ensures !old(running) ==>
                answer == Some(Err(TxSender.TaskStopped)) && View() == TxSender.Next(old(View()), TxSender.Reject(job))
      ensures old(running) && |old(queue)| < queueSize ==>
                answer == None && View() == TxSender.Next(old(View()), TxSender.Accept(job))
      ensures old(running) && |old(queue)| == queueSize ==> answer == None && View() == old(View())
    {
      answer := None;
      if !running {
        InvStep(View(), TxSender.Reject(job));
        waiting := waiting - {job};
        rejected := rejected + {job};
        answer := Some(Err(TxSender.TaskStopped));
      } else if |queue| < queueSize {
        InvStep(View(), TxSender.Accept(job));
        waiting := waiting - {job};
        queue := queue + [job];
        accepted := accepted + [job];
      }
    }

    /** A caller drops its future; a job it has queued stays queued. */
    method Abandon(id: nat)
      requires Valid() && id in submitted
      modifies this
      ensures Valid() && View() == TxSender.Next(old(View()), TxSender.Abandon(id))
    {
      InvStep(View(), TxSender.Abandon(id));
      abandoned := abandoned + {id};
      waiting := set job | job in waiting && job.id != id;
    }

    method CloneHandle()
      requires Valid() && handles > 0
      modifies this
      ensures Valid() && View() == TxSender.Next(old(View()), TxSender.CloneHandle)
    {
      InvStep(View(), TxSender.CloneHandle);
      handles := handles + 1;
    }

    method DropHandle()
      requires Valid() && TxSender.Enabled(View(), TxSender.DropHandle)
      modifies this
      ensures Valid() && View() == TxSender.Next(old(View()), TxSender.DropHandle)
    {
      InvStep(View(), TxSender.DropHandle);
      handles := handles - 1;
    }

    method Cancel()
      requires Valid()
      modifies this
      ensures Valid() && View() == TxSender.Next(old(View()), TxSender.Cancel)
    {
      cancelled := true;
    }

    /** The worker's `select!`: the queue branch is ready when there is a job or no handle left,
        the token branch when the token is cancelled; with both ready either may run. */
    method Select(preferQueue: bool) returns (event: Event)
      requires Valid() && running && inFlight.None?
      requires queue != [] || handles == 0 || cancelled
      modifies this
      ensures Valid() && TxSender.Enabled(old(View()), event) && View() == TxSender.Next(old(View()), event)
      ensures event == if old(cancelled) && (!preferQueue || (old(queue) == [] && handles > 0))
                       then TxSender.StopCancelled
                       else if old(queue) == [] then TxSender.StopClosed
                       else TxSender.Take
    {
      var queueReady := queue != [] || handles == 0;
      if queueReady && (preferQueue || !cancelled) {
        event := if queue == [] then TxSender.StopClosed else TxSender.Take;
      } else {
        event := TxSender.StopCancelled;
      }
      InvStep(View(), event);
      if event.Take? {
        inFlight := Some(queue[0]);
        sent := sent + [queue[0]];
        queue := queue[1..];
      } else {
        running, cancelled := false, true;
        dropped := queue;
        queue := [];
      }
    }

    /** The RPC call returns or its timeout fires, and the oneshot gets the result. */
    method Reply(result: TxSender.SendResult, elapsed: nat) returns (answer: TxSender.Answer)
      requires Valid() && TxSender.Enabled(View(), TxSender.Finish(result, elapsed))
      modifies this
      ensures Valid() && View() == TxSender.Next(old(View()), TxSender.Finish(result, elapsed))
      ensures answer == if result.Broadcast? then Ok(result.hash)
                        else if result.Refused? then Err(TxSender.Contract(result.code))
                        else Err(TxSender.Timeout)
    {
      InvStep(View(), TxSender.Finish(result, elapsed));
      answer := TxSender.AnswerOf(result);
      replied := replied + [TxSender.Replied(inFlight.value, answer)];
      inFlight := None;
    }

    /** A submit that waits at the queue is polled, if there is one for this job. */
    method Poll(job: Job) returns (trace: seq<Event>)
      requires Valid()
      modifies this
      ensures Valid() && trace == EventsOf(old(View()), Elsewhere(TxSender.Accept(job)))
      ensures View() == Apply(old(View()), trace)
    {
      trace := [];
      if job in waiting && (!running || |queue| < queueSize) {
        trace := [if running then TxSender.Accept(job) else TxSender.Reject(job)];
        var _ := Admit(job);
      }
    }

    /** A handle goes; the last one only when no caller waits for an answer any more. */
    method Drop() returns (trace: seq<Event>)
      requires Valid()
      modifies this
      ensures Valid() && trace == EventsOf(old(View()), Elsewhere(TxSender.DropHandle))
      ensures View() == Apply(old(View()), trace)
    {
      trace := [];
      var idle := waiting == {} && (forall job :: job in queue ==> job.id in abandoned)
        && (inFlight.Some? ==> inFlight.value.id in abandoned);
      if handles > 1 || (handles == 1 && idle) {
        DropHandle();
        trace := [TxSender.DropHandle];
      }
    }

    /** A step of somebody else, if it is possible now. */
    method Caller(event: Event) returns (trace: seq<Event>)
      requires Valid()
      modifies this
      ensures Valid() && trace == EventsOf(old(View()), Elsewhere(event))
      ensures View() == Apply(old(View()), trace)
    {
      trace := [event];
      match event {
        case Submit(job) =>
          if handles > 0 && job.id !in submitted { Submit(job); } else { trace := []; }
        case Abandon(id) =>
          if id in submitted { Abandon(id); } else { trace := []; }
        case CloneHandle =>
          if handles > 0 { CloneHandle(); } else { trace := []; }
        case DropHandle =>
          trace := Drop();
        case Cancel =>
          Cancel();
        case Accept(job) =>
          trace := Poll(job);
        case Reject(job) =>
          trace := Poll(job);
        case _ =>
          trace := [];
      }
    }

    /** One thing the scheduler lets happen. */
    method Step(tick: Tick) returns (trace: seq<Event>)
      requires Valid()
      modifies this
      ensures Valid() && trace == EventsOf(old(View()), tick)
      ensures View() == Apply(old(View()), trace)
    {
      trace := [];
      match tick {
        case Turn(preferQueue) =>
          if running && inFlight.None? && (queue != [] || handles == 0 || cancelled) {
            var event := Select(preferQueue);
            trace := [event];
          }
        case RpcReturns(result, elapsed) =>
          if inFlight.Some? && (if result.Hangs? then elapsed == sendTimeout else elapsed <= sendTimeout) {
            var _ := Reply(result, elapsed);
            trace := [TxSender.Finish(result, elapsed)];
          }
        case Elsewhere(event) =>
          trace := Caller(event);
      }
    }

    /** The worker's loop under a scheduler that interleaves it with everybody else: exactly what the
        ticks make possible happens, and it is a run of the transition system. */
    method Work(ticks: seq<Tick>) returns (trace: seq<Event>)
      requires Valid()
      modifies this
      ensures Valid() && trace == Scheduled(old(View()), ticks)
      ensures TxSender.Legal(old(View()), trace) && View() == TxSender.Run(old(View()), trace)
    {
      trace := [];
      assert ticks[0..] == ticks;
      for i := 0 to |ticks|
        invariant Valid() && TxSender.Legal(old(View()), trace) && View() == TxSender.Run(old(View()), trace)
        invariant trace + Scheduled(View(), ticks[i..]) == Scheduled(old(View()), ticks)
      {
        if !running {
          assert trace + [] == trace;
          return;
        }
        ghost var before := View();
        var step := Step(ticks[i]);
        assert ticks[i..][1..] == ticks[i + 1..];
        ConcatAssociative(trace, step, Scheduled(View(), ticks[i + 1..]));
        if step == [] {
          assert trace + step == trace;
        } else {
          assert step == [step[0]];
          RunAppend(old(View()), trace, step[0]);
        }
        trace := trace + step;
      }
      assert trace + [] == trace;
    }
  }
}
