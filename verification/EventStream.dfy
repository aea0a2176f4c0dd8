/** The backfill-then-live event stream as a transition system: the chain, the WS and the HTTP
    endpoint, the builder and a consumer that polls whenever it likes, interleaved in any order
    (nodes-common/src/web3/event_stream.rs). */
module EventStream {
  import opened Wrappers
  import opened ChainLogs
  import opened Chunks
  import opened Backfill
  import opened Broadcast
  import opened BuildProtocol
  import opened Tracking

  /** The outside: the matching logs mined so far, the chain's head, and how far the WS and the
      HTTP endpoint have followed. `announcesHead`: a new newHeads subscription begins with the
      header of the current head; otherwise it only reports blocks imported later. */
  datatype Env = Env(
    chainId: u64,
    chain: seq<Log>,
    head: u64,
    wsHead: u64,
    httpHead: u64,
    announcesHead: bool)

  ghost predicate EnvOk(env: Env) {
    && Sorted(env.chain)
    && (forall i :: 0 <= i < |env.chain| ==> At(env.chain[i]).block <= env.head)
    && env.wsHead <= env.head
    && env.httpHead <= env.head
  }

  /** Where `build` stands, and after it what the stream still has to do: the ranges that have
      not been requested and the fetched logs that have not been yielded. Without a cutoff the
      stream is the live subscription alone. */
  datatype Stage =
    | AskingChainId
    | SubscribingLogs
    | SubscribingHeads
    | CollectingHeads
    | Unsubscribing
    | Synchronizing(cutoff: u64)
    | Streaming(upTo: Option<u64>, ranges: seq<BlockRange>, buffer: seq<Log>)
    | Failed(error: StreamError)

  /** One call of `build` and its stream. `logsFrom` and `headsFrom` are the WS heads at which the
      two subscriptions were opened; `answers` are the replies to the chunk requests sent so far
      and `out` is what the consumer has received. */
  datatype Client = Client(
    cfg: Config,
    cursor: ChainCursor,
    stage: Stage,
    schedule: Schedule,
    ring: Ring,
    logsFrom: u64,
    headsFrom: u64,
    answers: seq<Reply<seq<Log>>>,
    out: seq<Item>)

  datatype State = State(env: Env, client: Client)

  const NOTHING_HEARD := Schedule(Err(0), Err(0), Err(0), [], false, Err(0), [])

  function Fresh(cfg: Config, cursor: ChainCursor): Client
    requires cfg.Valid()
  {
    Client(cfg, cursor, AskingChainId, NOTHING_HEARD, NewRing(cfg.channelSize), 0, 0, [], [])
  }

  datatype Event =
    // environment
    | NewBlock(logs: seq<Log>)
    | WsImport(wsHead: u64)
    | HttpAdvance(httpHead: u64)
    | WsPush(pushed: Log)
    | WsClose
    // builder
    | ChainIdReply(chainId: Reply<u64>)
    | LogSubscriptionReply(capacity: Reply<nat>)
    | HeadSubscriptionReply(subscribed: Reply<()>)
    | Header(number: u64)
    | HeadersEnd
    | HeadersTimeout
    | UnsubscribeReply(unsubscribed: Reply<()>)
    | PollReply(block: Reply<u64>)
    | SyncTimeout
    // consumer
    | Fetch(logs': Reply<seq<Log>>)
    | Yield
    | Receive

  /** The first block whose header a newHeads subscription opened at `head` can deliver. */
  function EarliestHeader(env: Env, head: u64): nat {
    if env.announcesHead then head else head + 1
  }

  predicate Subscribed(stage: Stage) {
    !stage.AskingChainId? && !stage.SubscribingLogs? && !stage.Failed?
  }

  /** The position in the chain of the first log the live subscription carries. */
  ghost function FirstLive(s: State): nat
    requires EnvOk(s.env)
  {
    Below(s.env.chain, s.client.logsFrom + 1)
  }

  ghost predicate Enabled(s: State, e: Event) {
    var env, c := s.env, s.client;
    && EnvOk(env)
    && c.ring.Valid()
    && c.cfg.Valid()
    && match e
       case NewBlock(logs) =>
         env.head < U64_MAX && Sorted(logs) && forall i :: 0 <= i < |logs| ==> At(logs[i]).block == env.head + 1
       case WsImport(to) => env.wsHead <= to <= env.head
       case HttpAdvance(to) => env.httpHead <= to <= env.head
       case WsPush(pushed) =>
         && Subscribed(c.stage) && !c.ring.closed
         && FirstLive(s) + c.ring.sent < Below(env.chain, env.wsHead + 1)
         && IsCopy(pushed, env.chain[FirstLive(s) + c.ring.sent])
       case WsClose => Subscribed(c.stage)
       case ChainIdReply(r) => c.stage.AskingChainId? && (r.Ok? ==> r.value == env.chainId)
       case LogSubscriptionReply(r) => c.stage.SubscribingLogs? && (r.Ok? ==> r.value >= c.cfg.channelSize)
       case HeadSubscriptionReply(_) => c.stage.SubscribingHeads?
       case Header(n) => c.stage.CollectingHeads? && EarliestHeader(env, c.headsFrom) <= n <= env.wsHead
       case HeadersEnd => c.stage.CollectingHeads?
       case HeadersTimeout => c.stage.CollectingHeads?
       case UnsubscribeReply(_) => c.stage.Unsubscribing?
       case PollReply(r) => c.stage.Synchronizing? && (r.Ok? ==> r.value <= env.httpHead)
       case SyncTimeout => c.stage.Synchronizing?
       case Fetch(reply) =>
         && c.stage.Streaming? && c.stage.buffer == [] && c.stage.ranges != []
         && (c.stage.ranges[0].lo <= c.stage.ranges[0].hi <= env.httpHead ==>
               Complete(reply, c.stage.ranges[0], env.chain))
       case Yield => c.stage.Streaming? && c.stage.buffer != []
       case Receive => c.stage.Streaming? && c.stage.buffer == [] && c.stage.ranges == [] && c.ring.Ready()
  }

  function NextEnv(env: Env, e: Event): Env
    requires e.NewBlock? ==> env.head < U64_MAX
  {
    match e
    case NewBlock(logs) => env.(chain := env.chain + logs, head := env.head + 1)
    case WsImport(to) => env.(wsHead := to)
    case HttpAdvance(to) => env.(httpHead := to)
    case _ => env
  }

  function NextClient(c: Client, env: Env, e: Event): Client
    requires c.ring.Valid() && c.cfg.Valid()
    requires e.WsPush? ==> !c.ring.closed
    requires e.PollReply? ==> c.stage.Synchronizing?
    requires e.Fetch? ==> c.stage.Streaming? && c.stage.ranges != []
    requires e.Yield? ==> c.stage.Streaming? && c.stage.buffer != []
    requires e.Receive? ==> c.stage.Streaming? && c.ring.Ready()
    requires e.LogSubscriptionReply? ==> c.stage.SubscribingLogs? && (e.capacity.Ok? ==> e.capacity.value > 0)
  {
    match e
    case WsPush(pushed) => c.(ring := Push(c.ring, pushed))
    case WsClose => c.(ring := c.ring.(closed := true))
    case ChainIdReply(r) =>
      c.(schedule := c.schedule.(chainId := r),
         stage := if r.Ok? then SubscribingLogs else Failed(TransportError(r.error)))
    case LogSubscriptionReply(r) =>
      var heard := c.schedule.(logSubscription := r);
      if r.Err? then c.(schedule := heard, stage := Failed(TransportError(r.error)))
      else
        var stage :=
          if StartsLive(c.cfg, c.cursor, env.chainId) then Streaming(None, [], []) else SubscribingHeads;
        c.(schedule := heard, stage := stage, ring := NewRing(r.value), logsFrom := env.wsHead)
    case HeadSubscriptionReply(r) =>
      c.(schedule := c.schedule.(headSubscription := r), headsFrom := env.wsHead,
         stage := if r.Ok? then CollectingHeads else Failed(TransportError(r.error)))
    case Header(n) =>
      var headers := c.schedule.headers + [n];
      c.(schedule := c.schedule.(headers := headers),
         stage := if |headers| == c.cfg.confirmations + 1 then Unsubscribing else c.stage)
    case HeadersEnd => c.(schedule := c.schedule.(headersEnd := true), stage := Unsubscribing)
    case HeadersTimeout => c.(stage := Unsubscribing)
    case UnsubscribeReply(r) =>
      var cutoff := Cutoff(c.schedule.headers, c.schedule.headersEnd, c.cfg.confirmations);
      c.(schedule := c.schedule.(unsubscribe := r),
         stage := if r.Err? then Failed(TransportError(r.error))
                  else if cutoff.Err? then Failed(cutoff.error)
                  else Synchronizing(cutoff.value))
    case PollReply(r) =>
      var cutoff := c.stage.cutoff;
      c.(schedule := c.schedule.(polls := c.schedule.polls + [r]),
         stage := if r.Err? then Failed(TransportError(r.error))
                  else if r.value >= cutoff then
                    Streaming(Some(cutoff), BlockRanges(c.cursor.block, cutoff, c.cfg.chunkSize), [])
                  else c.stage)
    case SyncTimeout => c.(stage := Failed(SynchronizingHttpWsTimeout))
    case Fetch(reply) =>
      var asked := c.(answers := c.answers + [reply]);
      (match FetchLogs(reply, c.cursor)
       case Ok(logs) => asked.(stage := Streaming(c.stage.upTo, c.stage.ranges[1..], logs))
       case Err(error) =>
         asked.(stage := Streaming(c.stage.upTo, c.stage.ranges[1..], []), out := c.out + [Err(error)]))
    case Yield =>
      c.(stage := Streaming(c.stage.upTo, c.stage.ranges, c.stage.buffer[1..]), out := c.out + [Ok(c.stage.buffer[0])])
    case Receive =>
      var (got, ring) := Recv(c.ring);
      c.(ring := ring, out := c.out + LiveItems(c.stage.upTo, got))
    case _ => c
  }

  ghost function Next(s: State, e: Event): State
    requires Enabled(s, e)
  {
    State(NextEnv(s.env, e), NextClient(s.client, s.env, e))
  }

  // Runs

  ghost predicate Legal(s: State, events: seq<Event>)
    decreases |events|
  {
    events == [] || (Enabled(s, events[0]) && Legal(Next(s, events[0]), events[1..]))
  }

  ghost function Run(s: State, events: seq<Event>): State
    requires Legal(s, events)
    decreases |events|
  {
    if events == [] then s else Run(Next(s, events[0]), events[1..])
  }

  ghost predicate ReachedBy(s: State, env: Env, cfg: Config, cursor: ChainCursor, events: seq<Event>) {
    && EnvOk(env) && cfg.Valid()
    && Legal(State(env, Fresh(cfg, cursor)), events)
    && s == Run(State(env, Fresh(cfg, cursor)), events)
  }

  /** Some interleaving of the actors leads from a fresh call of `build` to `s`. */
  ghost predicate Reachable(s: State) {
    exists env, cfg, cursor, events :: ReachedBy(s, env, cfg, cursor, events)
  }

  // The invariant

  /** What `build` has heard so far leads to the stage it is in; once it is done, it is what
      `BuildResult` says for the whole schedule. */
  ghost predicate Heard(c: Client, chainId: u64) {
    var h := c.schedule;
    match c.stage
    case AskingChainId => NoHeaders(h)
    case SubscribingLogs => NoHeaders(h) && h.chainId == Ok(chainId)
    case SubscribingHeads => NoHeaders(h) && Committed(c, chainId)
    case CollectingHeads =>
      && Committed(c, chainId) && h.headSubscription.Ok?
      && |h.headers| <= c.cfg.confirmations && !h.headersEnd && h.polls == []
    case Unsubscribing => Committed(c, chainId) && h.headSubscription.Ok? && h.polls == []
    case Synchronizing(cutoff) =>
      && Committed(c, chainId) && h.headSubscription.Ok? && h.unsubscribe.Ok?
      && Cutoff(h.headers, h.headersEnd, c.cfg.confirmations) == Ok(cutoff)
      && Deciding(h.polls, cutoff) == None
    case Streaming(upTo, _, _) =>
      && h.chainId == Ok(chainId)
      && BuildResult(c.cfg, c.cursor, h).0 == Ok(if upTo.None? then LiveOnly else BackfillTo(upTo.value))
    case Failed(error) => BuildResult(c.cfg, c.cursor, h).0 == Err(error)
  }

  predicate NoHeaders(h: Schedule) {
    h.headers == [] && !h.headersEnd && h.polls == []
  }

  ghost predicate Committed(c: Client, chainId: u64) {
    && c.schedule.chainId == Ok(chainId)
    && c.schedule.logSubscription.Ok?
    && !StartsLive(c.cfg, c.cursor, chainId)
  }

  /** The heads are ordered as the subscriptions were opened, and so are the headers. */
  ghost predicate HeadsOk(s: State) {
    var c := s.client;
    && (Subscribed(c.stage) ==> c.logsFrom <= s.env.wsHead)
    && (c.stage.CollectingHeads? || c.stage.Unsubscribing? ==>
          && c.logsFrom <= c.headsFrom
          && forall i :: 0 <= i < |c.schedule.headers| ==> c.headsFrom <= c.schedule.headers[i] <= s.env.wsHead)
    && (c.stage.Synchronizing? ==> c.logsFrom <= c.stage.cutoff <= s.env.wsHead)
    && (c.stage.Streaming? && c.stage.upTo.Some? ==>
          c.logsFrom <= c.stage.upTo.value <= s.env.wsHead && c.stage.upTo.value <= s.env.httpHead)
  }

  /** The ring holds copies of the chain's logs from the subscription on. */
  ghost predicate RingOk(s: State)
    requires EnvOk(s.env)
  {
    var r := s.client.ring;
    && r.Valid()
    && (Subscribed(s.client.stage) ==>
          FirstLive(s) + r.sent <= Below(s.env.chain, s.env.wsHead + 1) && Carries(r, s.env.chain, FirstLive(s)))
  }

  ghost function ProgressOf(s: State): Progress
    requires EnvOk(s.env) && s.client.stage.Streaming?
  {
    var c := s.client;
    Progress(c.cursor, c.stage.upTo, c.stage.ranges, c.stage.buffer, FirstLive(s), c.ring.next, c.out)
  }

  ghost predicate StreamOk(s: State)
    requires EnvOk(s.env)
  {
    if s.client.stage.Streaming? then Tracks(s.env.chain, ProgressOf(s))
    else s.client.out == [] && s.client.answers == [] && s.client.ring.next == 0
  }

  ghost predicate Inv(s: State) {
    && EnvOk(s.env)
    && s.client.cfg.Valid()
    && Heard(s.client, s.env.chainId)
    && HeadsOk(s)
    && RingOk(s)
    && StreamOk(s)
  }
}
