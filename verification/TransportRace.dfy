/** nodes-common/src/web3.rs: the stack of retrying transports that the fallback layer races. All
    transports are active at once; the first success answers the request, and the last error answers
    it when every transport has failed. A step of the race is one call of one transport, so the runs
    below are all the ways in which the calls of the transports can interleave. */
module TransportRace {
  import opened Wrappers
  import opened Transport

  /** One request to the stack: every endpoint's replies to it, and the backoff delays its retry loop
      would take. The stack is never empty: the source panics when it is built over no transport. */
  datatype Stack = Stack(endpoints: seq<nat -> Reply>, policy: Policy, delays: seq<seq<nat>>, maxTimes: nat) {
    ghost predicate Valid() {
      && |endpoints| > 0
      && |delays| == |endpoints|
      && forall k :: 0 <= k < |delays| ==> |delays[k]| == maxTimes
    }

    predicate Has(k: nat) {
      k < |endpoints|
    }

    ghost function Attempt(k: nat, i: nat): Reply
      requires Has(k)
    {
      Tries(endpoints[k], 0)(i)
    }

    ghost predicate Last(k: nat, i: nat)
      requires Has(k)
    {
      Stops(Tries(endpoints[k], 0), policy.shouldRetry, maxTimes, i)
    }

    /** What transport `k` ends with when nobody drops its future. */
    ghost function Outcome(k: nat): Reply
      requires Valid() && Has(k)
    {
      CallTrace(endpoints[k], 0, policy, delays[k]).result
    }
  }

  /** `calls[k]` counts the calls of transport `k`; `finished` lists the transports whose loop has
      ended, in order; the race is over once there is an `answer`. */
  datatype Race = Race(calls: seq<nat>, finished: seq<nat>, answer: Option<Reply>)

  ghost function Begin(stack: Stack): Race {
    Race(seq(|stack.endpoints|, _ => 0), [], None)
  }

  ghost predicate Enabled(stack: Stack, r: Race, k: nat) {
    r.answer.None? && k < |r.calls| && k !in r.finished
  }

  /** The next call of transport `k` comes back. */
  ghost function Next(stack: Stack, r: Race, k: nat): Race
    requires Enabled(stack, r, k) && |r.calls| == |stack.endpoints|
  {
    var outcome := stack.Attempt(k, r.calls[k]);
    var called := r.(calls := r.calls[k := r.calls[k] + 1]);
    if !stack.Last(k, r.calls[k]) then called
    else called.(finished := r.finished + [k],
                 answer := if outcome.Ok? || |r.finished| + 1 == |r.calls| then Some(outcome) else None)
  }

  ghost predicate Legal(stack: Stack, r: Race, turns: seq<nat>)
    requires |r.calls| == |stack.endpoints|
    decreases |turns|
  {
    turns == [] || (Enabled(stack, r, turns[0]) && Legal(stack, Next(stack, r, turns[0]), turns[1..]))
  }

  ghost function Run(stack: Stack, r: Race, turns: seq<nat>): Race
    requires |r.calls| == |stack.endpoints| && Legal(stack, r, turns)
    decreases |turns|
  {
    if turns == [] then r else Run(stack, Next(stack, r, turns[0]), turns[1..])
  }

  /** The order of completion decides: the first success in it, or else its last error. */
  ghost function Fallback(stack: Stack, order: seq<nat>): (r: Reply)
    requires stack.Valid() && order != [] && forall i :: 0 <= i < |order| ==> stack.Has(order[i])
    decreases |order|
  {
    if |order| == 1 || stack.Outcome(order[0]).Ok? then stack.Outcome(order[0])
    else Fallback(stack, order[1..])
  }

  /** Transport `k` has made `calls` calls and its loop goes on, or has ended with its outcome. */
  ghost predicate LoopInv(stack: Stack, k: nat, calls: nat, done: bool)
    requires stack.Has(k)
  {
    && (forall i :: 0 <= i < (if done then calls - 1 else calls) ==> !stack.Last(k, i))
    && (done ==> calls > 0 && stack.Last(k, calls - 1))
  }

  ghost predicate Distinct(order: seq<nat>, n: nat) {
    && (forall i :: 0 <= i < |order| ==> order[i] < n)
    && (forall i, j :: 0 <= i < j < |order| ==> order[i] != order[j])
  }

  ghost predicate Inv(stack: Stack, r: Race) {
    && stack.Valid()
    && |r.calls| == |stack.endpoints|
    && Distinct(r.finished, |r.calls|)
    && (forall k :: 0 <= k < |r.calls| ==> LoopInv(stack, k, r.calls[k], k in r.finished))
    && (forall i :: 0 <= i < |r.finished| - (if r.answer.Some? then 1 else 0) ==> stack.Outcome(r.finished[i]).Err?)
    && (r.answer.None? ==> |r.finished| < |r.calls|)
    && (r.answer.Some? ==> Answered(stack, r))
  }

  ghost predicate Answered(stack: Stack, r: Race)
    requires stack.Valid() && |r.calls| == |stack.endpoints| && Distinct(r.finished, |r.calls|) && r.answer.Some?
  {
    && r.finished != []
    && r.answer.value == stack.Outcome(r.finished[|r.finished| - 1])
    && (r.answer.value.Err? ==> |r.finished| == |r.calls|)
  }

  /** The attempt that ends the loop of transport `k` is its outcome, and stays within the budget. */
  lemma LastAttemptIsOutcome(stack: Stack, k: nat, i: nat)
    requires stack.Valid() && stack.Has(k)
    requires forall j :: 0 <= j < i ==> !stack.Last(k, j)
    ensures i <= stack.maxTimes
    ensures stack.Last(k, i) ==> stack.Outcome(k) == stack.Attempt(k, i)
  {
    if i > stack.maxTimes {
      assert stack.Last(k, stack.maxTimes);
      assert false;
    }
    if stack.Last(k, i) {
      forall j: nat | j < i
        ensures !Stops(Tries(stack.endpoints[k], 0), stack.policy.shouldRetry, stack.maxTimes, j)
      {
        assert !stack.Last(k, j);
      }
      RetryReturnsFirstStop(Tries(stack.endpoints[k], 0), stack.policy.shouldRetry, stack.policy.backoffHint,
                            stack.delays[k], i);
    }
  }

  lemma InvBegin(stack: Stack)
    requires stack.Valid()
    ensures Inv(stack, Begin(stack))
  {
  }

  lemma InvStep(stack: Stack, r: Race, k: nat)
    requires Inv(stack, r) && Enabled(stack, r, k)
    ensures Inv(stack, Next(stack, r, k))
  {
    LastAttemptIsOutcome(stack, k, r.calls[k]);
    var r' := Next(stack, r, k);
    DistinctBounds(r'.finished, |r.calls|);
  }

  /** No more distinct numbers below `n` than there are. */
  lemma {:induction false} DistinctBounds(order: seq<nat>, n: nat)
    requires Distinct(order, n)
    ensures |order| <= n
    ensures |order| == n ==> forall k :: 0 <= k < n ==> k in order
  {
    if order != [] {
      assert order[0] < n;
      if n - 1 in order {
        var p :| 0 <= p < |order| && order[p] == n - 1;
        var rest := order[..p] + order[p + 1..];
        DistinctBounds(rest, n - 1);
        assert forall k :: k in rest ==> k in order;
      } else {
        assert forall i :: 0 <= i < |order| ==> order[i] in order;
        DistinctBounds(order, n - 1);
      }
    }
  }

  lemma {:induction false} InvRun(stack: Stack, r: Race, turns: seq<nat>)
    requires Inv(stack, r) && Legal(stack, r, turns)
    ensures Inv(stack, Run(stack, r, turns))
    decreases |turns|
  {
    if turns != [] {
      InvStep(stack, r, turns[0]);
      InvRun(stack, Next(stack, r, turns[0]), turns[1..]);
    }
  }

  /** Transport `k`'s share of the calls that can still be made. */
  function Left(maxTimes: nat, calls: seq<nat>): int {
    if calls == [] then 0 else maxTimes + 1 - calls[0] + Left(maxTimes, calls[1..])
  }

  lemma {:induction false} LeftAfterCall(maxTimes: nat, calls: seq<nat>, k: nat)
    requires k < |calls|
    ensures Left(maxTimes, calls[k := calls[k] + 1]) == Left(maxTimes, calls) - 1
  {
    var calls' := calls[k := calls[k] + 1];
    if k > 0 {
      LeftAfterCall(maxTimes, calls[1..], k - 1);
      assert calls'[1..] == calls[1..][k - 1 := calls[1..][k - 1] + 1];
    } else {
      assert calls'[1..] == calls[1..];
    }
  }

  lemma {:induction false} LeftBounds(maxTimes: nat, calls: seq<nat>)
    ensures (forall k :: 0 <= k < |calls| ==> calls[k] <= maxTimes + 1) ==> Left(maxTimes, calls) >= 0
    ensures (forall k :: 0 <= k < |calls| ==> calls[k] == 0) ==> Left(maxTimes, calls) == |calls| * (maxTimes + 1)
  {
    if calls != [] {
      LeftBounds(maxTimes, calls[1..]);
      assert |calls| * (maxTimes + 1) == (|calls| - 1) * (maxTimes + 1) + (maxTimes + 1);
    }
  }

  lemma {:induction false} RunSpends(stack: Stack, r: Race, turns: seq<nat>)
    requires Inv(stack, r) && Legal(stack, r, turns)
    ensures Left(stack.maxTimes, Run(stack, r, turns).calls) == Left(stack.maxTimes, r.calls) - |turns|
    decreases |turns|
  {
    if turns != [] {
      InvStep(stack, r, turns[0]);
      LeftAfterCall(stack.maxTimes, r.calls, turns[0]);
      RunSpends(stack, Next(stack, r, turns[0]), turns[1..]);
    }
  }

  lemma CallsWithinBudget(stack: Stack, r: Race, k: nat)
    requires Inv(stack, r) && k < |r.calls|
    ensures r.calls[k] <= stack.maxTimes + 1
  {
    assert LoopInv(stack, k, r.calls[k], k in r.finished);
    if r.calls[k] > 0 {
      LastAttemptIsOutcome(stack, k, r.calls[k] - 1);
    }
  }

  /** Every race ends: until it has an answer, every transport that has not finished can go on and there
      is one, and it makes at most `maxTimes + 1` calls per transport. */
  lemma RaceEnds(stack: Stack, turns: seq<nat>)
    requires stack.Valid() && Legal(stack, Begin(stack), turns)
    ensures |turns| <= |stack.endpoints| * (stack.maxTimes + 1)
    ensures var r := Run(stack, Begin(stack), turns);
            && |r.calls| == |stack.endpoints|
            && (forall k :: 0 <= k < |r.calls| ==> r.calls[k] <= stack.maxTimes + 1)
            && (r.answer.None? ==> exists k: nat :: Enabled(stack, r, k))
            && (r.answer.None? ==> forall k: nat :: stack.Has(k) && k !in r.finished ==> Enabled(stack, r, k))
  {
    InvBegin(stack);
    InvRun(stack, Begin(stack), turns);
    RunSpends(stack, Begin(stack), turns);
    var r := Run(stack, Begin(stack), turns);
    forall k | 0 <= k < |r.calls|
      ensures r.calls[k] <= stack.maxTimes + 1
    {
      CallsWithinBudget(stack, r, k);
    }
    LeftBounds(stack.maxTimes, r.calls);
    LeftBounds(stack.maxTimes, Begin(stack).calls);
    if r.answer.None? {
      var k := Unfinished(r.finished, |r.calls|);
      assert Enabled(stack, r, k);
    }
  }

  lemma {:induction false} Unfinished(order: seq<nat>, n: nat) returns (k: nat)
    requires Distinct(order, n) && |order| < n
    ensures k < n && k !in order
  {
    if forall j :: 0 <= j < n ==> j in order {
      Covers(order, n);
      assert false;
    }
    k :| 0 <= k < n && k !in order;
  }

  /** A list that holds every number below `n` is at least that long. */
  lemma {:induction false} Covers(order: seq<nat>, n: nat)
    requires forall j: nat :: j < n ==> j in order
    ensures |order| >= n
  {
    if n > 0 {
      var top: nat := n - 1;
      assert top in order;
      var p :| 0 <= p < |order| && order[p] == top;
      var rest := order[..p] + order[p + 1..];
      forall j: nat | j < top
        ensures j in rest
      {
        assert j in order;
        var q :| 0 <= q < |order| && order[q] == j;
        assert q < p ==> rest[q] == j;
        assert q > p ==> rest[q - 1] == j;
      }
      Covers(rest, n - 1);
    }
  }

  lemma {:induction false} FallbackSkipsFailures(stack: Stack, order: seq<nat>)
    requires stack.Valid() && order != [] && forall i :: 0 <= i < |order| ==> stack.Has(order[i])
    requires forall i :: 0 <= i < |order| - 1 ==> stack.Outcome(order[i]).Err?
    ensures Fallback(stack, order) == stack.Outcome(order[|order| - 1])
  {
    if |order| > 1 {
      assert stack.Outcome(order[0]).Err?;
      FallbackSkipsFailures(stack, order[1..]);
    }
  }

  /** The interleaved race refines the plain rule: whatever the interleaving of the calls, its answer
      is the first success in the order in which the retry loops end, or the last error of all. */
  lemma RaceRefinesFallback(stack: Stack, turns: seq<nat>)
    requires stack.Valid() && Legal(stack, Begin(stack), turns)
    ensures var r := Run(stack, Begin(stack), turns);
            r.answer.Some? ==>
              && Distinct(r.finished, |stack.endpoints|)
              && r.finished != []
              && r.answer.value == Fallback(stack, r.finished)
              && (r.answer.value.Err? ==> |r.finished| == |stack.endpoints|)
  {
    InvBegin(stack);
    InvRun(stack, Begin(stack), turns);
    var r := Run(stack, Begin(stack), turns);
    if r.answer.Some? {
      assert Answered(stack, r);
      FallbackSkipsFailures(stack, r.finished);
    }
  }

  /** The stack answers with a success exactly when the retry loop of some transport would: no slow
      transport is lost to a fast failing one. */
  lemma StackSucceedsIffSomeTransportDoes(stack: Stack, turns: seq<nat>)
    requires stack.Valid() && Legal(stack, Begin(stack), turns)
    ensures var r := Run(stack, Begin(stack), turns);
            r.answer.Some? ==>
              (r.answer.value.Ok? <==> exists k: nat :: stack.Has(k) && stack.Outcome(k).Ok?)
  {
    InvBegin(stack);
    InvRun(stack, Begin(stack), turns);
    var r := Run(stack, Begin(stack), turns);
    if r.answer.Some? {
      var n := |r.finished|;
      assert Answered(stack, r) && stack.Has(r.finished[n - 1]);
      if r.answer.value.Err? {
        DistinctBounds(r.finished, n);
        forall k: nat | stack.Has(k)
          ensures stack.Outcome(k).Err?
        {
          assert k in r.finished;
          var i :| 0 <= i < n && r.finished[i] == k;
        }
      }
    }
  }

  /** An answer that is a success carries no error payload, and some endpoint gave it. */
  lemma ErrorBodyNeverWins(stack: Stack, turns: seq<nat>, p: Payload)
    requires stack.Valid() && Legal(stack, Begin(stack), turns)
    ensures var r := Run(stack, Begin(stack), turns);
            r.answer.Some? && r.answer.value.Ok? ==>
              && (r.answer.value.value.Carries(p) ==> p.Success?)
              && exists k: nat, i: nat :: stack.Has(k) && r.answer.value == stack.endpoints[k](i)
  {
    InvBegin(stack);
    InvRun(stack, Begin(stack), turns);
    var r := Run(stack, Begin(stack), turns);
    if r.answer.Some? && r.answer.value.Ok? {
      assert Answered(stack, r);
      var k := r.finished[|r.finished| - 1];
      assert stack.Has(k);
      NoErrorBodyEscapes(stack.endpoints[k], 0, stack.policy, stack.delays[k], p);
      var i: nat := CallTrace(stack.endpoints[k], 0, stack.policy, stack.delays[k]).attempts - 1;
      assert r.answer.value == stack.endpoints[k](i);
    }
  }
}
