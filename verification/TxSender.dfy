/** The transaction sender (nodes-common/src/web3/tx_sender.rs): callers that submit, wait and may
    give up, a bounded queue, and one worker whose `select!` may pick any branch that is ready. */
module TxSender {
  import opened Wrappers

  /** One call of `submit`; `id` tells calls apart. */
  datatype Job = Job(id: nat, request: nat)

  datatype TxSenderError = Contract(code: nat) | Timeout | TaskStopped

  /** What a caller gets: the pending transaction or an error. */
  type Answer = Result<nat, TxSenderError>

  /** How the RPC reacts to `send_transaction`. */
  datatype SendResult = Broadcast(hash: nat) | Refused(code: nat) | Hangs

  datatype Replied = Replied(job: Job, answer: Answer)

  datatype State = State(
    capacity: nat,
    sendTimeout: nat,
    handles: nat,             // live sender handles
    waiting: set<Job>,        // submits waiting for room in the queue
    queue: seq<Job>,
    inFlight: Option<Job>,    // the job whose broadcast the worker awaits
    running: bool,            // the worker task
    cancelled: bool,          // the shared token
    // history
    submitted: set<nat>,      // ids of all submits
    abandoned: set<nat>,      // ids of submits whose caller gave up
    accepted: seq<Job>,       // jobs in the order the queue accepted them
    sent: seq<Job>,           // `send_transaction` calls
    replied: seq<Replied>,    // results the worker handed to the oneshot
    dropped: seq<Job>,        // jobs still queued when the worker stopped
    rejected: set<Job>)       // jobs that found the queue closed

  function Spawn(capacity: nat, sendTimeout: nat): State {
    State(capacity, sendTimeout, 1, {}, [], None, true, false, {}, {}, [], [], [], [], {})
  }

  datatype Event =
    // callers
    | Submit(job: Job)
    | Accept(job: Job)
    | Reject(job: Job)
    | Abandon(id: nat)
    | CloneHandle
    | DropHandle
    // whoever holds the token
    | Cancel
    // worker
    | Take
    | Finish(result: SendResult, elapsed: nat)
    | StopCancelled
    | StopClosed

  /** Nobody is waiting for an answer any more. */
  predicate NobodyWaits(s: State) {
    && s.waiting == {}
    && (forall job :: job in s.queue ==> job.id in s.abandoned)
    && (s.inFlight.Some? ==> s.inFlight.value.id in s.abandoned)
  }

  predicate Enabled(s: State, e: Event) {
    match e
    case Submit(job) => s.handles > 0 && job.id !in s.submitted
    case Accept(job) => job in s.waiting && s.running && |s.queue| < s.capacity
    case Reject(job) => job in s.waiting && !s.running
    case Abandon(id) => id in s.submitted
    case CloneHandle => s.handles > 0
    // a submit borrows its handle, so the last handle outlives every caller that waits
    case DropHandle => s.handles > 0 && (s.handles == 1 ==> NobodyWaits(s))
    case Cancel => true
    case Take => s.running && s.inFlight.None? && s.queue != []
    case Finish(result, elapsed) =>
      s.inFlight.Some? && (if result.Hangs? then elapsed == s.sendTimeout else elapsed <= s.sendTimeout)
    case StopCancelled => s.running && s.inFlight.None? && s.cancelled
    case StopClosed => s.running && s.inFlight.None? && s.queue == [] && s.handles == 0
  }

  function AnswerOf(result: SendResult): Answer {
    match result
    case Broadcast(hash) => Ok(hash)
    case Refused(code) => Err(Contract(code))
    case Hangs => Err(Timeout)
  }

  /** The worker leaves its loop: the queue goes with it, and the drop guard cancels the token. */
  function Stopped(s: State): State {
    s.(running := false, cancelled := true, dropped := s.queue, queue := [])
  }

  function Next(s: State, e: Event): State
    requires e.Take? ==> s.queue != []
    requires e.Finish? ==> s.inFlight.Some?
    requires e.DropHandle? ==> s.handles > 0
  {
    match e
    case Submit(job) => s.(waiting := s.waiting + {job}, submitted := s.submitted + {job.id})
    case Accept(job) => s.(waiting := s.waiting - {job}, queue := s.queue + [job], accepted := s.accepted + [job])
    case Reject(job) => s.(waiting := s.waiting - {job}, rejected := s.rejected + {job})
    case Abandon(id) =>
      s.(abandoned := s.abandoned + {id}, waiting := set job | job in s.waiting && job.id != id)
    case CloneHandle => s.(handles := s.handles + 1)
    case DropHandle => s.(handles := s.handles - 1)
    case Cancel => s.(cancelled := true)
    case Take => s.(queue := s.queue[1..], inFlight := Some(s.queue[0]), sent := s.sent + [s.queue[0]])
    case Finish(result, _) =>
      s.(inFlight := None, replied := s.replied + [Replied(s.inFlight.value, AnswerOf(result))])
    case StopCancelled => Stopped(s)
    case StopClosed => Stopped(s)
  }

  // Runs

  ghost predicate Legal(s: State, events: seq<Event>)
    decreases |events|
  {
    events == [] || (Enabled(s, events[0]) && Legal(Next(s, events[0]), events[1..]))
  }

  ghost function Run(s: State, events: seq<Event>): State
    requires Legal(s, events)
    decreases |events|
  {
    if events == [] then s else Run(Next(s, events[0]), events[1..])
  }

  ghost predicate ReachedBy(s: State, capacity: nat, sendTimeout: nat, events: seq<Event>) {
    capacity > 0 && Legal(Spawn(capacity, sendTimeout), events) && s == Run(Spawn(capacity, sendTimeout), events)
  }

  ghost predicate Reachable(s: State) {
    exists capacity, sendTimeout, events :: ReachedBy(s, capacity, sendTimeout, events)
  }

  // The invariant

  function Jobs(replied: seq<Replied>): seq<Job> {
    seq(|replied|, i requires 0 <= i < |replied| => replied[i].job)
  }

  function InFlight(s: State): seq<Job> {
    if s.inFlight.Some? then [s.inFlight.value] else []
  }

  ghost predicate DistinctIds(jobs: seq<Job>) {
    forall i, j :: 0 <= i < j < |jobs| ==> jobs[i].id != jobs[j].id
  }

  /** Every accepted job is in exactly one place, in the order of acceptance. */
  ghost predicate Queued(s: State) {
    && s.accepted == s.sent + s.queue + s.dropped
    && s.sent == Jobs(s.replied) + InFlight(s)
    && |s.queue| <= s.capacity && s.capacity > 0
    && (s.running ==> s.dropped == [] && s.rejected == {})
    && (!s.running ==> s.queue == [] && s.inFlight == None && s.cancelled)
  }

  /** Every submit is one job in one place. */
  ghost predicate SubmitsOk(s: State) {
    && DistinctIds(s.accepted)
    && (forall job :: job in s.accepted ==> job.id in s.submitted)
    && (forall job :: job in s.waiting + s.rejected ==> job.id in s.submitted)
    && (forall job, other :: job in s.waiting + s.rejected && other in s.accepted ==> job.id != other.id)
    && (forall job, other :: job in s.waiting + s.rejected && other in s.waiting + s.rejected ==>
          job.id == other.id ==> job == other)
    && s.waiting !! s.rejected
    && (forall id :: id in s.submitted && id !in s.abandoned ==> Known(s, id))
    && (forall i :: 0 <= i < |s.replied| ==> s.replied[i].answer != Err(TaskStopped))
    && (s.handles == 0 ==> NobodyWaits(s))
  }

  ghost predicate Known(s: State, id: nat) {
    (exists job :: job in s.accepted && job.id == id) || (exists job :: job in s.waiting + s.rejected && job.id == id)
  }

  ghost predicate Inv(s: State) {
    Queued(s) && SubmitsOk(s)
  }
}
