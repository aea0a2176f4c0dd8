/** The ordered subscribe, wait, unsubscribe, synchronize steps of `EventStreamBuilder::build`
    and the polling loop `block_until_cutoff` (nodes-common/src/web3/event_stream.rs). */
module BuildProtocol {
  import opened Wrappers
  import opened ChainLogs
  import opened Backfill

  /** The parts of `EventStreamConfig` that do not denote durations. */
  datatype Config = Config(skipBackfill: bool, channelSize: nat, chunkSize: u64, confirmations: nat) {
    predicate Valid() {
      channelSize > 0 && chunkSize > 0 && confirmations > 0
    }
  }

  const ANVIL_CHAIN_ID: u64 := 31_337

  /** How the two endpoints answer one call of `build`. `headers` are the block headers that
      arrive before the newHeads timeout and `headersEnd` says that the header stream ended
      before it too; `polls` are the block number replies that arrive before the sync timeout. */
  datatype Schedule = Schedule(
    chainId: Reply<u64>,
    logSubscription: Reply<nat>,
    headSubscription: Reply<()>,
    headers: seq<u64>,
    headersEnd: bool,
    unsubscribe: Reply<()>,
    polls: seq<Reply<u64>>)

  datatype Request = GetChainId | SubscribeLogs | SubscribeHeads | UnsubscribeHeads | GetBlockNumber

  /** The two kinds of stream `build` returns. */
  datatype Mode = LiveOnly | BackfillTo(cutoff: u64)

  type Outcome = Result<Mode, StreamError>

  /** Genesis starts at the current block, except on Anvil; so does a skipped backfill. */
  predicate StartsLive(cfg: Config, cursor: ChainCursor, chainId: u64) {
    (cursor.IsGenesis() && chainId != ANVIL_CHAIN_ID) || cfg.skipBackfill
  }

  /** Waiting for `confirmations + 1` headers or the end of the header stream. */
  function Cutoff(headers: seq<u64>, headersEnd: bool, confirmations: nat): Result<u64, StreamError> {
    if |headers| < confirmations + 1 && !headersEnd then Err(CannotFetchHead)
    else if headers == [] then Err(CannotFetchHead)
    else Ok(headers[0])
  }

  /** The first poll that decides the synchronization, if one arrives in time. */
  function Deciding(polls: seq<Reply<u64>>, cutoff: u64): Option<nat> {
    if polls == [] then None
    else if polls[0].Err? || polls[0].value >= cutoff then Some(0)
    else
      match Deciding(polls[1..], cutoff)
      case None => None
      case Some(k) => Some(k + 1)
  }

  function SyncResult(polls: seq<Reply<u64>>, cutoff: u64): (Result<(), StreamError>, nat) {
    match Deciding(polls, cutoff)
    case None => (Err(SynchronizingHttpWsTimeout), |polls|)
    case Some(k) =>
      if k < |polls| && polls[k].Err? then (Err(TransportError(polls[k].error)), k + 1) else (Ok(()), k + 1)
  }

  function Repeat(request: Request, times: nat): seq<Request> {
    seq(times, _ => request)
  }

  /** What `build` returns and which requests it has sent by then. */
  function BuildResult(cfg: Config, cursor: ChainCursor, s: Schedule): (Outcome, seq<Request>) {
    if s.chainId.Err? then (Err(TransportError(s.chainId.error)), [GetChainId])
    else if s.logSubscription.Err? then
      (Err(TransportError(s.logSubscription.error)), [GetChainId, SubscribeLogs])
    else if StartsLive(cfg, cursor, s.chainId.value) then (Ok(LiveOnly), [GetChainId, SubscribeLogs])
    else if s.headSubscription.Err? then
      (Err(TransportError(s.headSubscription.error)), [GetChainId, SubscribeLogs, SubscribeHeads])
    else
      var sent := [GetChainId, SubscribeLogs, SubscribeHeads, UnsubscribeHeads];
      if s.unsubscribe.Err? then (Err(TransportError(s.unsubscribe.error)), sent)
      else
        match Cutoff(s.headers, s.headersEnd, cfg.confirmations)
        case Err(e) => (Err(e), sent)
        case Ok(cutoff) =>
          var (synced, asked) := SyncResult(s.polls, cutoff);
          (if synced.Ok? then Ok(BackfillTo(cutoff)) else Err(synced.error), sent + Repeat(GetBlockNumber, asked))
  }

  lemma {:induction false} DecidingIsFirst(polls: seq<Reply<u64>>, cutoff: u64)
    ensures match Deciding(polls, cutoff)
      case None => forall i :: 0 <= i < |polls| ==> polls[i].Ok? && polls[i].value < cutoff
      case Some(k) =>
        && k < |polls| && (polls[k].Err? || polls[k].value >= cutoff)
        && forall i :: 0 <= i < k ==> polls[i].Ok? && polls[i].value < cutoff
  {
    if polls != [] && polls[0].Ok? && polls[0].value < cutoff {
      DecidingIsFirst(polls[1..], cutoff);
      assert forall i :: 0 < i < |polls| ==> polls[i] == polls[1..][i - 1];
    }
  }

  lemma DecidingIs(polls: seq<Reply<u64>>, k: nat, cutoff: u64)
    requires k < |polls| && (polls[k].Err? || polls[k].value >= cutoff)
    requires forall i :: 0 <= i < k ==> polls[i].Ok? && polls[i].value < cutoff
    ensures Deciding(polls, cutoff) == Some(k)
  {
    DecidingIsFirst(polls, cutoff);
  }

  /** Polls the HTTP endpoint until it has reached the cutoff, an error, or the timeout. */
  method BlockUntilCutoff(polls: seq<Reply<u64>>, cutoff: u64) returns (r: Result<(), StreamError>, asked: nat)
    ensures (r, asked) == SyncResult(polls, cutoff)
    ensures r.Ok? ==> 0 < asked <= |polls| && polls[asked - 1].Ok? && polls[asked - 1].value >= cutoff
  {
    asked := 0;
    while asked < |polls|
      invariant asked <= |polls|
      invariant forall i :: 0 <= i < asked ==> polls[i].Ok? && polls[i].value < cutoff
    {
      var reply := polls[asked];
      asked := asked + 1;
      if reply.Err? || reply.value >= cutoff {
        DecidingIs(polls, asked - 1, cutoff);
        return if reply.Err? then Err(TransportError(reply.error)) else Ok(()), asked;
      }
    }
    DecidingIsFirst(polls, cutoff);
    r := Err(SynchronizingHttpWsTimeout);
  }

  /** Collects headers until enough have arrived, the stream ends, or the timeout fires. */
  method FirstHeader(headers: seq<u64>, headersEnd: bool, confirmations: nat) returns (r: Result<u64, StreamError>)
    ensures r == Cutoff(headers, headersEnd, confirmations)
  {
    var collected := [];
    while |collected| < confirmations + 1 && |collected| < |headers|
      invariant |collected| <= |headers| && collected == headers[..|collected|]
      invariant |collected| <= confirmations + 1
    {
      collected := collected + [headers[|collected|]];
    }
    if |collected| < confirmations + 1 && !headersEnd {
      return Err(CannotFetchHead);
    }
    r := if collected == [] then Err(CannotFetchHead) else Ok(collected[0]);
  }

  method Build(cfg: Config, cursor: ChainCursor, s: Schedule) returns (outcome: Outcome, requests: seq<Request>)
    ensures outcome == BuildResult(cfg, cursor, s).0
    ensures requests == BuildResult(cfg, cursor, s).1
  {
    requests := [GetChainId];
    if s.chainId.Err? {
      return Err(TransportError(s.chainId.error)), requests;
    }
    requests := requests + [SubscribeLogs];
    if s.logSubscription.Err? {
      return Err(TransportError(s.logSubscription.error)), requests;
    }
    if cursor.IsGenesis() && s.chainId.value != ANVIL_CHAIN_ID {
      return Ok(LiveOnly), requests;
    } else if cfg.skipBackfill {
      return Ok(LiveOnly), requests;
    }
    requests := requests + [SubscribeHeads];
    if s.headSubscription.Err? {
      return Err(TransportError(s.headSubscription.error)), requests;
    }
    var cutoff := FirstHeader(s.headers, s.headersEnd, cfg.confirmations);
    requests := requests + [UnsubscribeHeads];
    if s.unsubscribe.Err? {
      return Err(TransportError(s.unsubscribe.error)), requests;
    }
    if cutoff.Err? {
      return Err(cutoff.error), requests;
    }
    var synced, asked := BlockUntilCutoff(s.polls, cutoff.value);
    requests := requests + Repeat(GetBlockNumber, asked);
    outcome := if synced.Ok? then Ok(BackfillTo(cutoff.value)) else Err(synced.error);
  }

  /** A backfilling stream is returned exactly when everything up to the cutoff went well: the
      cutoff is the first header, and HTTP has reported a head at or above it. */
  lemma BackfillIffSynchronized(cfg: Config, cursor: ChainCursor, s: Schedule, cutoff: u64)
    ensures BuildResult(cfg, cursor, s).0 == Ok(BackfillTo(cutoff))
      <==>
        && s.chainId.Ok? && s.logSubscription.Ok? && !StartsLive(cfg, cursor, s.chainId.value)
        && s.headSubscription.Ok? && s.unsubscribe.Ok?
        && s.headers != [] && s.headers[0] == cutoff
        && (|s.headers| > cfg.confirmations || s.headersEnd)
        && exists k :: 0 <= k < |s.polls| && s.polls[k].Ok? && s.polls[k].value >= cutoff
             && forall i :: 0 <= i < k ==> s.polls[i].Ok? && s.polls[i].value < cutoff
  {
    DecidingIsFirst(s.polls, cutoff);
    forall k | 0 <= k < |s.polls| && s.polls[k].Ok? && s.polls[k].value >= cutoff
      && (forall i :: 0 <= i < k ==> s.polls[i].Ok? && s.polls[i].value < cutoff)
      ensures Deciding(s.polls, cutoff) == Some(k)
    {
      DecidingIs(s.polls, k, cutoff);
    }
  }

  /** Both subscriptions were opened and newHeads was closed again, for a call that asks for history. */
  predicate HeadsClosed(cfg: Config, cursor: ChainCursor, s: Schedule) {
    && s.chainId.Ok? && s.logSubscription.Ok? && !StartsLive(cfg, cursor, s.chainId.value)
    && s.headSubscription.Ok? && s.unsubscribe.Ok?
  }

  predicate EnoughHeaders(cfg: Config, s: Schedule) {
    s.headers != [] && (|s.headers| > cfg.confirmations || s.headersEnd)
  }

  /** The `k`-th poll fails with `code`, and no earlier poll decided. */
  predicate PollFails(s: Schedule, k: nat, code: nat)
    requires s.headers != []
  {
    k < |s.polls| && s.polls[k] == Err(code)
    && forall i :: 0 <= i < k ==> s.polls[i].Ok? && s.polls[i].value < s.headers[0]
  }

  /** When `build` gives up waiting: for headers, or for HTTP to reach the first of them. */
  lemma TimeoutsIff(cfg: Config, cursor: ChainCursor, s: Schedule)
    ensures BuildResult(cfg, cursor, s).0 == Err(CannotFetchHead)
       <==> HeadsClosed(cfg, cursor, s) && (s.headers == [] || (|s.headers| <= cfg.confirmations && !s.headersEnd))
    ensures BuildResult(cfg, cursor, s).0 == Err(SynchronizingHttpWsTimeout)
       <==> HeadsClosed(cfg, cursor, s) && EnoughHeaders(cfg, s)
            && forall i :: 0 <= i < |s.polls| ==> s.polls[i].Ok? && s.polls[i].value < s.headers[0]
  {
    if s.headers != [] {
      DecidingIsFirst(s.polls, s.headers[0]);
    }
  }

  /** A transport error carries the code of the first reply that failed, in the order of the requests;
      a failed unsubscribe comes before missing headers. */
  lemma TransportErrorIff(cfg: Config, cursor: ChainCursor, s: Schedule, code: nat)
    ensures BuildResult(cfg, cursor, s).0 == Err(TransportError(code)) <==>
      || s.chainId == Err(code)
      || (s.chainId.Ok? && s.logSubscription == Err(code))
      || (s.chainId.Ok? && s.logSubscription.Ok? && !StartsLive(cfg, cursor, s.chainId.value)
          && (s.headSubscription == Err(code) || (s.headSubscription.Ok? && s.unsubscribe == Err(code))))
      || (HeadsClosed(cfg, cursor, s) && EnoughHeaders(cfg, s) && exists k :: PollFails(s, k, code))
  {
    if s.headers != [] {
      DecidingIsFirst(s.polls, s.headers[0]);
      forall k: nat | PollFails(s, k, code)
        ensures Deciding(s.polls, s.headers[0]) == Some(k)
      {
        DecidingIs(s.polls, k, s.headers[0]);
      }
      if Deciding(s.polls, s.headers[0]).Some? {
        var k := Deciding(s.polls, s.headers[0]).value;
        assert s.polls[k] == Err(code) ==> PollFails(s, k, code);
      }
    }
  }

  ghost predicate AtMostOnce(requests: seq<Request>, a: Request) {
    forall i, j :: 0 <= i < j < |requests| ==> requests[i] != a || requests[j] != a
  }

  /** Each subscription is requested exactly when everything before it has succeeded and history is wanted. */
  lemma RequestedIff(cfg: Config, cursor: ChainCursor, s: Schedule)
    ensures var requests := BuildResult(cfg, cursor, s).1;
      && [GetChainId] <= requests && AtMostOnce(requests, GetChainId) && AtMostOnce(requests, SubscribeLogs)
      && (SubscribeLogs in requests <==> s.chainId.Ok?)
      && (SubscribeHeads in requests <==>
            s.chainId.Ok? && s.logSubscription.Ok? && !StartsLive(cfg, cursor, s.chainId.value))
  {
  }

  /** HTTP is asked for its head only after newHeads is closed and the cutoff is known, once for every
      poll up to the deciding one, or for all of them when none decides. */
  lemma PollsSent(cfg: Config, cursor: ChainCursor, s: Schedule)
    ensures var requests := BuildResult(cfg, cursor, s).1;
      && (GetBlockNumber in requests ==> HeadsClosed(cfg, cursor, s) && EnoughHeaders(cfg, s))
      && (HeadsClosed(cfg, cursor, s) && EnoughHeaders(cfg, s) ==>
            var n := |requests| - 4;
            && (forall i :: 4 <= i < |requests| ==> requests[i] == GetBlockNumber)
            && 0 <= n <= |s.polls|
            && (forall i :: 0 <= i < n - 1 ==> s.polls[i].Ok? && s.polls[i].value < s.headers[0])
            && (n < |s.polls| ==> n > 0 && (s.polls[n - 1].Err? || s.polls[n - 1].value >= s.headers[0])))
  {
    if s.headers != [] {
      DecidingIsFirst(s.polls, s.headers[0]);
    }
  }

  lemma LiveOnlyIff(cfg: Config, cursor: ChainCursor, s: Schedule)
    ensures BuildResult(cfg, cursor, s).0 == Ok(LiveOnly)
      <==> s.chainId.Ok? && s.logSubscription.Ok?
             && (cfg.skipBackfill || (cursor == ChainCursor(0, 0) && s.chainId.value != 31337))
    ensures BuildResult(cfg, cursor, s).0 == Ok(LiveOnly) ==> SubscribeHeads !in BuildResult(cfg, cursor, s).1
  {
  }

  /** Every `a` in `requests` has its `b` directly behind it. */
  ghost predicate DirectlyBefore(requests: seq<Request>, a: Request, b: Request) {
    forall i :: 0 <= i < |requests| && requests[i] == a ==> i + 1 < |requests| && requests[i + 1] == b
  }

  /** Whatever happens, timeouts included: an open newHeads subscription is closed by exactly one
      request, sent right after it and before HTTP is polled; without one nothing is closed. The
      log subscription comes before the newHeads subscription. */
  lemma UnsubscribesExactlyOnce(cfg: Config, cursor: ChainCursor, s: Schedule)
    ensures var requests := BuildResult(cfg, cursor, s).1;
      && (UnsubscribeHeads in requests <==> SubscribeHeads in requests && s.headSubscription.Ok?)
      && (s.headSubscription.Ok? ==> DirectlyBefore(requests, SubscribeHeads, UnsubscribeHeads))
      && AtMostOnce(requests, SubscribeHeads)
      && AtMostOnce(requests, UnsubscribeHeads)
      && (SubscribeHeads in requests ==> [GetChainId, SubscribeLogs, SubscribeHeads] <= requests)
  {
    var requests := BuildResult(cfg, cursor, s).1;
    assert forall i :: 4 <= i < |requests| ==> requests[i] == GetBlockNumber;
    assert |requests| > 3 ==> requests[3] == UnsubscribeHeads;
    assert |requests| > 2 ==> requests[2] == SubscribeHeads;
  }
}
