/** nodes-common/src/web3.rs: one HTTP transport with its retry loop, and the receipt re-polling that
    uses the same combinator.

    The inner service is an arbitrary stream of replies: reply number `i` is whatever the endpoint
    gives to its `i`-th request. The delays are the ones the backoff builder yields for this call;
    they carry jitter, so they are arbitrary too, and only their number is fixed by the configuration. */
module Transport {
  import opened Wrappers

  datatype ErrorPayload = ErrorPayload(code: int, message: string)

  datatype Payload = Success(body: string) | Failure(error: ErrorPayload)

  datatype ResponsePacket = Single(payload: Payload) | Batch(payloads: seq<Payload>) {
    /** The first error payload of the packet, if it has one. */
    function AsError(): (e: Option<ErrorPayload>) {
      match this
      case Single(p) => FirstFailure([p])
      case Batch(ps) => FirstFailure(ps)
    }

    predicate Carries(p: Payload) {
      match this
      case Single(q) => p == q
      case Batch(ps) => p in ps
    }
  }

  function FirstFailure(ps: seq<Payload>): (e: Option<ErrorPayload>)
    ensures e == None <==> forall p :: p in ps ==> p.Success?
    ensures e.Some? ==> Failure(e.value) in ps
  {
    if ps == [] then None
    else if ps[0].Failure? then assert ps[0] in ps; Some(ps[0].error)
    else
      var e := FirstFailure(ps[1..]);
      assert forall p :: p in ps ==> p == ps[0] || p in ps[1..];
      e
  }

  /** A batch is judged by its first error payload. */
  lemma {:induction false} FirstFailureIsFirst(ps: seq<Payload>, k: nat)
    requires k < |ps| && ps[k].Failure? && forall i :: 0 <= i < k ==> ps[i].Success?
    ensures Batch(ps).AsError() == Some(ps[k].error)
    ensures Single(ps[k]).AsError() == Some(ps[k].error)
  {
    if k > 0 {
      FirstFailureIsFirst(ps[1..], k - 1);
    }
  }

  /** `Custom` holds a foreign error: `timeout` says that it is a `reqwest` error and a timeout. */
  datatype TransportError =
    | HttpError(status: nat)
    | Custom(timeout: bool)
    | OtherTransport(kind: string)
    | ErrorResp(payload: ErrorPayload)
    | OtherRpc(reason: string)

  type Reply = Result<ResponsePacket, TransportError>

  datatype Policy = Policy(shouldRetry: TransportError -> bool, backoffHint: TransportError -> Option<nat>)

  predicate TransientHttp(e: TransportError) {
    match e
    case HttpError(status) => status == 403 || status == 408 || status == 502 || status == 504
    case Custom(timeout) => timeout
    case _ => false
  }

  /** The library's rate-limit policy is a parameter; `or` widens when it retries and keeps its hints. */
  function HttpRetryPolicy(rateLimit: Policy): Policy {
    rateLimit.(shouldRetry := e => rateLimit.shouldRetry(e) || TransientHttp(e))
  }

  /** A packet that carries an error payload becomes an error before anybody sees it. */
  function ParseError(reply: Reply): (r: Reply)
    ensures r.Ok? <==> reply.Ok? && forall p :: reply.value.Carries(p) ==> p.Success?
    ensures r.Ok? ==> r == reply
    ensures reply.Err? ==> r == reply
    ensures reply.Ok? && r.Err? ==> r.error.ErrorResp? && reply.value.Carries(Failure(r.error.payload))
  {
    if reply.Ok? && reply.value.AsError().Some? then
      Err(ErrorResp(reply.value.AsError().value))
    else
      assert reply.Ok? && reply.value.Single? ==> reply.value.payload in [reply.value.payload];
      reply
  }

  /** What a retry loop did: its result, how many calls it made, and how long it slept between them. */
  datatype Trace<T, E> = Trace(result: Result<T, E>, attempts: nat, sleeps: seq<nat>)

  /** A call that fails with a retryable error takes the next delay; the loop ends when there is none.
      A hint replaces the delay but is asked only when there is a delay to replace. */
  function Retry<T, E>(tries: nat -> Result<T, E>, again: E -> bool, hint: E -> Option<nat>,
                       delays: seq<nat>, made: nat := 0): (t: Trace<T, E>)
    requires made <= |delays|
    decreases |delays| - made
  {
    var outcome := tries(made);
    if outcome.Err? && again(outcome.error) && made < |delays| then
      var rest := Retry(tries, again, hint, delays, made + 1);
      rest.(sleeps := [Slept(hint, outcome.error, delays[made])] + rest.sleeps)
    else
      Trace(outcome, made + 1, [])
  }

  function Slept<E>(hint: E -> Option<nat>, e: E, delay: nat): nat {
    match hint(e)
    case Some(d) => d
    case None => delay
  }

  /** Attempt `i` ends a loop with `n` delays. */
  predicate Stops<T, E>(tries: nat -> Result<T, E>, again: E -> bool, n: nat, i: nat) {
    i >= n || tries(i).Ok? || !again(tries(i).error)
  }

  lemma {:induction false} RetryStopsFirst<T, E>(tries: nat -> Result<T, E>, again: E -> bool,
                                                 hint: E -> Option<nat>, delays: seq<nat>, made: nat)
    requires made <= |delays|
    ensures var t := Retry(tries, again, hint, delays, made);
            && made < t.attempts <= |delays| + 1
            && t.result == tries(t.attempts - 1)
            && Stops(tries, again, |delays|, t.attempts - 1)
            && forall i | made <= i < t.attempts - 1 :: !Stops(tries, again, |delays|, i)
    decreases |delays| - made
  {
    if !Stops(tries, again, |delays|, made) {
      RetryStopsFirst(tries, again, hint, delays, made + 1);
    }
  }

  /** The result is the outcome of the first attempt that is Ok, is not retryable or has used up the
      budget, and the loop makes exactly the calls up to that one. */
  lemma RetryReturnsFirstStop<T, E>(tries: nat -> Result<T, E>, again: E -> bool, hint: E -> Option<nat>,
                                    delays: seq<nat>, k: nat)
    requires k <= |delays|
    requires Stops(tries, again, |delays|, k)
    requires forall i | 0 <= i < k :: !Stops(tries, again, |delays|, i)
    ensures Retry(tries, again, hint, delays).result == tries(k)
    ensures Retry(tries, again, hint, delays).attempts == k + 1
  {
    RetryStopsFirst(tries, again, hint, delays, 0);
    var last := Retry(tries, again, hint, delays).attempts - 1;
    assert !(last < k) && !(k < last);
  }

  /** Neither the hints nor the lengths of the delays change how often the loop calls or what it
      returns; only the number of delays does. */
  lemma HintsNeverChangeAttempts<T, E>(tries: nat -> Result<T, E>, again: E -> bool,
                                       hint: E -> Option<nat>, hint': E -> Option<nat>,
                                       delays: seq<nat>, delays': seq<nat>)
    requires |delays| == |delays'|
    ensures Retry(tries, again, hint, delays).attempts == Retry(tries, again, hint', delays').attempts
    ensures Retry(tries, again, hint, delays).result == Retry(tries, again, hint', delays').result
  {
    RetryStopsFirst(tries, again, hint', delays', 0);
    var k := Retry(tries, again, hint', delays').attempts - 1;
    RetryReturnsFirstStop(tries, again, hint, delays, k);
  }

  /** One sleep between two calls: the hint of the failed call when there is one, else the delay whose
      turn it is. */
  lemma {:induction false} SleepsFollowHints<T, E>(tries: nat -> Result<T, E>, again: E -> bool,
                                                   hint: E -> Option<nat>, delays: seq<nat>, made: nat)
    requires made <= |delays|
    ensures var t := Retry(tries, again, hint, delays, made);
            && made < t.attempts <= |delays| + 1
            && |t.sleeps| == t.attempts - 1 - made
            && forall i | made <= i < t.attempts - 1 ::
                 && tries(i).Err?
                 && t.sleeps[i - made] == (if hint(tries(i).error).Some? then hint(tries(i).error).value else delays[i])
    decreases |delays| - made
  {
    if !Stops(tries, again, |delays|, made) {
      SleepsFollowHints(tries, again, hint, delays, made + 1);
      var t := Retry(tries, again, hint, delays, made);
      var rest := Retry(tries, again, hint, delays, made + 1);
      assert t.sleeps == [Slept(hint, tries(made).error, delays[made])] + rest.sleeps;
    }
  }

  function Tries(replies: nat -> Reply, from: nat): nat -> Reply {
    (i: nat) => ParseError(replies(from + i))
  }

  function CallTrace(replies: nat -> Reply, from: nat, policy: Policy, delays: seq<nat>)
    : Trace<ResponsePacket, TransportError>
  {
    Retry(Tries(replies, from), policy.shouldRetry, policy.backoffHint, delays)
  }

  /** The loop that starts at attempt `made`, after sleeping `slept`, is the rest of the whole call. */
  ghost predicate Continues(replies: nat -> Reply, from: nat, policy: Policy, delays: seq<nat>,
                            made: nat, slept: seq<nat>)
    requires made <= |delays|
  {
    var t := CallTrace(replies, from, policy, delays);
    var rest := Retry(Tries(replies, from), policy.shouldRetry, policy.backoffHint, delays, made);
    t.result == rest.result && t.attempts == rest.attempts && t.sleeps == slept + rest.sleeps
  }

  lemma ContinuesNext(replies: nat -> Reply, from: nat, policy: Policy, delays: seq<nat>,
                      made: nat, slept: seq<nat>)
    requires made < |delays| && Continues(replies, from, policy, delays, made, slept)
    requires !Stops(Tries(replies, from), policy.shouldRetry, |delays|, made)
    ensures var e := Tries(replies, from)(made).error;
            Continues(replies, from, policy, delays, made + 1, slept + [Slept(policy.backoffHint, e, delays[made])])
  {
    var rest := Retry(Tries(replies, from), policy.shouldRetry, policy.backoffHint, delays, made + 1);
    var d := Slept(policy.backoffHint, Tries(replies, from)(made).error, delays[made]);
    ConcatAssociative(slept, [d], rest.sleeps);
  }

  /** The service behind the layer. Every attempt clones the service, but all clones talk to the same
      endpoint, so the request count is shared. */
  class RetryService {
    const replies: nat -> Reply
    const policy: Policy
    var requests: nat

    constructor (replies: nat -> Reply, policy: Policy)
      ensures this.replies == replies && this.policy == policy && requests == 0
    {
      this.replies, this.policy, requests := replies, policy, 0;
    }

    method CallAndParseError() returns (r: Reply)
      modifies this`requests
      ensures requests == old(requests) + 1
      ensures r == ParseError(replies(old(requests)))
    {
      var resp := replies(requests);
      requests := requests + 1;
      match resp
      case Err(e) => r := Err(e);
      case Ok(packet) =>
        match packet.AsError()
        case Some(e) => r := Err(ErrorResp(e));
        case None => r := Ok(packet);
    }

    method Call(delays: seq<nat>) returns (r: Reply, slept: seq<nat>)
      modifies this`requests
      ensures var t := CallTrace(replies, old(requests), policy, delays);
              r == t.result && slept == t.sleeps && requests == old(requests) + t.attempts
    {
      var start := requests;
      var made := 0;
      slept := [];
      r := CallAndParseError();
      while made < |delays| && r.Err? && policy.shouldRetry(r.error)
        invariant 0 <= made <= |delays|
        invariant requests == start + made + 1
        invariant r == Tries(replies, start)(made)
        invariant Continues(replies, start, policy, delays, made, slept)
      {
        ContinuesNext(replies, start, policy, delays, made, slept);
        slept := slept + [Slept(policy.backoffHint, r.error, delays[made])];
        r := CallAndParseError();
        made := made + 1;
      }
      assert slept + [] == slept;
    }
  }

  /** However fast an endpoint answers, what a retrying transport hands on as a success carries no
      error payload, and it is a reply the endpoint gave to this call. */
  lemma NoErrorBodyEscapes(replies: nat -> Reply, from: nat, policy: Policy, delays: seq<nat>, p: Payload)
    ensures var t := CallTrace(replies, from, policy, delays);
            && 1 <= t.attempts <= |delays| + 1
            && (t.result.Ok? ==> t.result == replies(from + t.attempts - 1))
            && (t.result.Ok? && t.result.value.Carries(p) ==> p.Success?)
  {
    RetryStopsFirst(Tries(replies, from), policy.shouldRetry, policy.backoffHint, delays, 0);
    var last: nat := CallTrace(replies, from, policy, delays).attempts - 1;
    assert Tries(replies, from)(last) == ParseError(replies(from + last));
  }

  /** Reply `i` of the call is a failure that the rate-limit policy retries, or a 403, 408, 502 or 504
      reply, or a client timeout. */
  predicate RetriedReply(replies: nat -> Reply, from: nat, rateLimit: Policy, i: nat) {
    var r := ParseError(replies(from + i));
    r.Err? && (rateLimit.shouldRetry(r.error) || TransientHttp(r.error))
  }

  /** The call is repeated exactly after such failures; it ends with one only when the whole budget is
      spent. */
  lemma RetriesExactlyTransientFailures(replies: nat -> Reply, from: nat, rateLimit: Policy, delays: seq<nat>)
    ensures var t := CallTrace(replies, from, HttpRetryPolicy(rateLimit), delays);
            && t.attempts > 0
            && (forall i: nat | i < t.attempts - 1 :: RetriedReply(replies, from, rateLimit, i))
            && (RetriedReply(replies, from, rateLimit, t.attempts - 1) ==> t.attempts == |delays| + 1)
  {
    var policy := HttpRetryPolicy(rateLimit);
    var tries := Tries(replies, from);
    RetryStopsFirst(tries, policy.shouldRetry, policy.backoffHint, delays, 0);
    var last: nat := CallTrace(replies, from, policy, delays).attempts - 1;
    assert tries(last) == ParseError(replies(from + last));
    forall i: nat | i < last
      ensures RetriedReply(replies, from, rateLimit, i)
    {
      assert tries(i) == ParseError(replies(from + i)) && !Stops(tries, policy.shouldRetry, |delays|, i);
    }
  }

  /** The transient failures, one by one: of the replies that the rate-limit policy does not retry, the
      call is repeated exactly after a 403, 408, 502 or 504 and after a client's timeout. */
  lemma RetriedStatuses(replies: nat -> Reply, from: nat, rateLimit: Policy, delays: seq<nat>, e: TransportError)
    requires replies(from) == Err(e) && delays != [] && !rateLimit.shouldRetry(e)
    ensures CallTrace(replies, from, HttpRetryPolicy(rateLimit), delays).attempts > 1
       <==> (e.HttpError? && e.status in {403, 408, 502, 504}) || e == Custom(true)
  {
    var policy := HttpRetryPolicy(rateLimit);
    RetryStopsFirst(Tries(replies, from), policy.shouldRetry, policy.backoffHint, delays, 0);
    assert ParseError(replies(from)) == Err(e);
    assert Tries(replies, from)(0) == ParseError(replies(from));
  }

  /** What the rate-limit policy retries is retried, error bodies included. */
  lemma RateLimitsAreRetried(replies: nat -> Reply, from: nat, rateLimit: Policy, delays: seq<nat>)
    requires ParseError(replies(from)).Err? && rateLimit.shouldRetry(ParseError(replies(from)).error) && delays != []
    ensures CallTrace(replies, from, HttpRetryPolicy(rateLimit), delays).attempts > 1
  {
    var policy := HttpRetryPolicy(rateLimit);
    RetryStopsFirst(Tries(replies, from), policy.shouldRetry, policy.backoffHint, delays, 0);
    assert Tries(replies, from)(0) == ParseError(replies(from));
  }

  /** Widening the policy keeps the hints of the rate-limit policy. */
  lemma SleepsFollowRateLimitHints(replies: nat -> Reply, from: nat, rateLimit: Policy, delays: seq<nat>, i: nat)
    ensures var t := CallTrace(replies, from, HttpRetryPolicy(rateLimit), delays);
            && t.attempts <= |delays| + 1 && |t.sleeps| == t.attempts - 1
            && (i < |t.sleeps| ==>
                  var outcome := Tries(replies, from)(i);
                  && outcome.Err?
                  && (rateLimit.backoffHint(outcome.error) == None ==> t.sleeps[i] == delays[i])
                  && forall d :: rateLimit.backoffHint(outcome.error) == Some(d) ==> t.sleeps[i] == d)
  {
    var policy := HttpRetryPolicy(rateLimit);
    SleepsFollowHints(Tries(replies, from), policy.shouldRetry, policy.backoffHint, delays, 0);
  }

  const DEFAULT_RECEIPT_POLLS := 10

  /** One direct try, then a retry loop without a policy on a fresh builder. `delays` are the ones the
      given builder yields. */
  function GetReceiptWithRetry<T, E>(tries: nat -> Result<T, E>, delays: seq<nat>): Result<T, E> {
    match tries(0)
    case Ok(receipt) => Ok(receipt)
    case Err(_) => Retry(i => tries(i + 1), e => true, e => None, delays).result
  }

  /** The receipt is the first one among the first |delays| + 2 tries; when they all fail, the error
      is the last one. */
  lemma ReceiptIsFirstOk<T, E>(tries: nat -> Result<T, E>, delays: seq<nat>, k: nat)
    requires k <= |delays| + 1
    requires forall i | 0 <= i < k :: tries(i).Err?
    requires tries(k).Ok? || k == |delays| + 1
    ensures GetReceiptWithRetry(tries, delays) == tries(k)
  {
    if k > 0 {
      var later := (i: nat) => tries(i + 1);
      var always := (e: E) => true;
      forall i | 0 <= i < k - 1
        ensures !Stops(later, always, |delays|, i)
      {
        assert tries(i + 1).Err?;
      }
      RetryReturnsFirstStop(later, always, (e: E) => None, delays, k - 1);
    }
  }

  /** Success is exactly success of one of those tries; with the default builder there are twelve. */
  lemma ReceiptIffSomeTrySucceeds<T, E>(tries: nat -> Result<T, E>, delays: seq<nat>)
    ensures GetReceiptWithRetry(tries, delays).Ok? <==>
            exists i :: 0 <= i < |delays| + 2 && tries(i).Ok?
    ensures |delays| == DEFAULT_RECEIPT_POLLS && GetReceiptWithRetry(tries, delays).Err? ==>
            GetReceiptWithRetry(tries, delays) == tries(11)
  {
    var k := FirstReceipt(tries, |delays| + 1, 0);
    ReceiptIsFirstOk(tries, delays, k);
  }

  function FirstReceipt<T, E>(tries: nat -> Result<T, E>, last: nat, i: nat): (k: nat)
    requires i <= last
    ensures i <= k <= last
    ensures tries(k).Ok? || k == last
    ensures forall j | i <= j < k :: tries(j).Err?
    decreases last - i
  {
    if i == last || tries(i).Ok? then i else FirstReceipt(tries, last, i + 1)
  }
}
