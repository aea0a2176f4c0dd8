/** What the event stream guarantees in every run, whatever the interleaving. */
module EventStreamTheorems {
  import opened Wrappers
  import opened ChainLogs
  import opened Chunks
  import opened Backfill
  import opened Broadcast
  import opened BuildProtocol
  import opened Tracking
  import opened EventStream
  import opened EventStreamInvariant

  /** What a consumer gets that stops at the first error. */
  function BeforeFirstError(items: seq<Item>): seq<Log> {
    if items == [] || items[0].Err? then [] else [items[0].value] + BeforeFirstError(items[1..])
  }

  predicate NoErrors(items: seq<Item>) {
    forall j :: 0 <= j < |items| ==> items[j].Ok?
  }

  ghost predicate Numbered(items: seq<Item>) {
    forall j :: 0 <= j < |items| && items[j].Ok? ==> items[j].value.blockNumber.Some?
  }

  lemma {:induction false} MarkedPrefix(out: seq<Item>, marks: seq<nat>, chain: seq<Log>, lo: nat, hi: nat)
    requires Marked(out, marks, chain, lo, hi) && Numbered(out)
    ensures lo + |BeforeFirstError(out)| <= hi
    ensures BeforeFirstError(out) == chain[lo..lo + |BeforeFirstError(out)|]
    ensures NoErrors(out) ==> lo + |BeforeFirstError(out)| == hi
    decreases |out|
  {
    MarksRise(out, marks, chain, lo, hi, 0);
    if out != [] && out[0].Ok? {
      assert ItemStep(out[0], marks[0], marks[1], chain);
      assert Marked(out[1..], marks[1..], chain, lo + 1, hi) by {
        assert forall j {:trigger out[1..][j]} :: 0 <= j < |out[1..]| ==> out[1..][j] == out[j + 1];
      }
      MarkedPrefix(out[1..], marks[1..], chain, lo + 1, hi);
    }
  }

  lemma {:induction false} MarksRise(out: seq<Item>, marks: seq<nat>, chain: seq<Log>, lo: nat, hi: nat, j: nat)
    requires Marked(out, marks, chain, lo, hi) && j <= |out|
    ensures marks[j] <= hi
    decreases |out| - j
  {
    if j < |out| {
      assert ItemStep(out[j], marks[j], marks[j + 1], chain);
      MarksRise(out, marks, chain, lo, hi, j + 1);
    }
  }

  lemma AccountsPrefix(out: seq<Item>, chain: seq<Log>, lo: nat, hi: nat)
    requires Accounts(out, chain, lo, hi) && Numbered(out)
    ensures lo + |BeforeFirstError(out)| <= hi <= |chain|
    ensures BeforeFirstError(out) == chain[lo..lo + |BeforeFirstError(out)|]
    ensures NoErrors(out) ==> lo + |BeforeFirstError(out)| == hi
  {
    var marks :| Marked(out, marks, chain, lo, hi);
    MarkedPrefix(out, marks, chain, lo, hi);
  }

  /** The part of the chain a backfilling stream has delivered by the first error. */
  lemma DeliveredSlice(s: State)
    requires Inv(s) && s.client.stage.Streaming? && s.client.stage.upTo.Some?
    ensures var p := ProgressOf(s); var n := |BeforeFirstError(s.client.out)|;
      && Start(s.env.chain, p) + n <= Frontier(s.env.chain, p) <= |s.env.chain|
      && BeforeFirstError(s.client.out) == s.env.chain[Start(s.env.chain, p)..Start(s.env.chain, p) + n]
      && (NoErrors(s.client.out) ==> Start(s.env.chain, p) + n == Frontier(s.env.chain, p))
  {
    AccountsPrefix(s.client.out, s.env.chain, Start(s.env.chain, ProgressOf(s)), Frontier(s.env.chain, ProgressOf(s)));
  }

  /** The stream has a backfill and the cursor is not beyond its cutoff. */
  ghost predicate BackfillsFromCursor(s: State) {
    s.client.stage.Streaming? && s.client.stage.upTo.Some? && s.client.cursor.block <= s.client.stage.upTo.value
  }

  /** Exactly once, in order, nothing left out: for every interleaving, what is delivered before
      the first error is a prefix of the chain's logs strictly after the cursor. */
  lemma ExactlyOnceHandover(s: State)
    requires Reachable(s) && BackfillsFromCursor(s)
    ensures Sorted(s.env.chain)
    ensures BeforeFirstError(s.client.out) <= After(s.env.chain, s.client.cursor)
  {
    ReachableInv(s);
    DeliveredSlice(s);
    BelowRank(s.env.chain, s.client.cursor, s.client.stage.upTo.value + 1);
    AfterIsSuffix(s.env.chain, s.client.cursor);
  }

  /** Whatever errors a backfilling stream has yielded and gone on after: logs never repeat or go
      back, and between two logs with no error between them there is no other matching log. */
  lemma NoSilentLoss(s: State)
    requires Reachable(s) && s.client.stage.Streaming? && s.client.stage.upTo.Some?
    ensures var out, chain := s.client.out, s.env.chain;
      && (forall i, j :: 0 <= i < j < |out| && out[i].Ok? && out[j].Ok? ==>
            Mined(out[i].value) && Mined(out[j].value) && At(out[i].value).IsBefore(At(out[j].value)))
      && (forall i, j :: 0 <= i < j < |out| && j == i + 1 && out[i].Ok? && out[j].Ok? ==>
            exists k, l :: 0 <= k < l < |chain| && l == k + 1 && out[i].value == chain[k] && out[j].value == chain[l])
  {
    ReachableInv(s);
    var out, chain := s.client.out, s.env.chain;
    var lo, hi := Start(chain, ProgressOf(s)), Frontier(chain, ProgressOf(s));
    var marks :| Marked(out, marks, chain, lo, hi);
    forall i, j | 0 <= i < j < |out| && out[i].Ok? && out[j].Ok?
      ensures marks[i] < marks[j] < |chain| && out[i].value == chain[marks[i]] && out[j].value == chain[marks[j]]
      ensures Mined(out[i].value) && Mined(out[j].value) && At(out[i].value).IsBefore(At(out[j].value))
      ensures j == i + 1 ==> marks[j] == marks[i] + 1
    {
      assert ItemStep(out[i], marks[i], marks[i + 1], chain);
      assert ItemStep(out[j], marks[j], marks[j + 1], chain);
      MarksBetween(out, marks, chain, lo, hi, i + 1, j);
      assert InOrder(chain, marks[i], marks[j]);
    }
  }

  lemma {:induction false} MarksBetween(
    out: seq<Item>, marks: seq<nat>, chain: seq<Log>, lo: nat, hi: nat, i: nat, j: nat)
    requires Marked(out, marks, chain, lo, hi) && i <= j <= |out|
    ensures marks[i] <= marks[j]
    decreases j - i
  {
    if i < j {
      assert ItemStep(out[i], marks[i], marks[i + 1], chain);
      MarksBetween(out, marks, chain, lo, hi, i + 1, j);
    }
  }

  lemma CaughtUpFrontier(s: State)
    requires Inv(s) && BackfillsFromCursor(s)
    requires s.client.stage.ranges == [] && s.client.stage.buffer == [] && s.client.ring.Backlog() == 0
    requires FirstLive(s) + s.client.ring.sent == Below(s.env.chain, s.env.wsHead + 1)
    ensures var chain, end := s.env.chain, Below(s.env.chain, s.env.wsHead + 1);
      && Rank(chain, s.client.cursor) <= end && Frontier(chain, ProgressOf(s)) == end
      && Start(chain, ProgressOf(s)) == Rank(chain, s.client.cursor)
  {
    var chain, past: nat := s.env.chain, s.client.stage.upTo.value + 1;
    BelowOrdered(chain, past, s.env.wsHead + 1);
    BelowRank(chain, s.client.cursor, past);
  }

  /** Nothing is held back: once the backfill is through, the WS endpoint has pushed what it has
      imported and the receiver has caught up, an error-free stream has delivered every log after
      the cursor up to the WS head. */
  lemma CompleteWhenCaughtUp(s: State)
    requires Reachable(s) && BackfillsFromCursor(s)
    requires NoErrors(s.client.out)
    requires s.client.stage.ranges == [] && s.client.stage.buffer == [] && s.client.ring.Backlog() == 0
    requires Sorted(s.env.chain) && EnvOk(s.env)
    requires FirstLive(s) + s.client.ring.sent == Below(s.env.chain, s.env.wsHead + 1)
    ensures AllMined(s.env.chain[..Below(s.env.chain, s.env.wsHead + 1)])
    ensures BeforeFirstError(s.client.out)
         == After(s.env.chain[..Below(s.env.chain, s.env.wsHead + 1)], s.client.cursor)
  {
    ReachableInv(s);
    var chain, end := s.env.chain, Below(s.env.chain, s.env.wsHead + 1);
    DeliveredSlice(s);
    CaughtUpFrontier(s);
    AfterPrefix(chain, end, s.client.cursor);
  }

  /** A stream without backfill is the subscription: copies of every log since it was opened. */
  lemma LiveOnlyFromSubscription(s: State)
    requires Reachable(s) && EnvOk(s.env) && s.client.stage.Streaming? && s.client.stage.upTo.None?
    ensures Accounts(s.client.out, s.env.chain, FirstLive(s), FirstLive(s) + s.client.ring.next)
    ensures s.client.cfg.skipBackfill || (s.client.cursor.IsGenesis() && s.env.chainId != ANVIL_CHAIN_ID)
  {
    ReachableInv(s);
    LiveOnlyIff(s.client.cfg, s.client.cursor, s.client.schedule);
  }

  /** The builder in the interleaved system returns what `BuildResult` says, so a backfilling
      stream exists only after HTTP has reported a head at or above the first header. */
  lemma StreamsOnlyWhenSynchronized(s: State)
    requires Reachable(s) && s.client.stage.Streaming? && s.client.stage.upTo.Some?
    ensures var h, cutoff := s.client.schedule, s.client.stage.upTo.value;
      && h.headers != [] && h.headers[0] == cutoff && h.unsubscribe.Ok?
      && (exists k :: 0 <= k < |h.polls| && h.polls[k].Ok? && h.polls[k].value >= cutoff)
      && s.client.logsFrom <= cutoff <= s.env.wsHead && cutoff <= s.env.httpHead
  {
    ReachableInv(s);
    BackfillIffSynchronized(s.client.cfg, s.client.cursor, s.client.schedule, s.client.stage.upTo.value);
  }

  predicate FailingReply(e: Event) {
    match e
    case ChainIdReply(r) => r.Err?
    case LogSubscriptionReply(r) => r.Err?
    case HeadSubscriptionReply(r) => r.Err?
    case UnsubscribeReply(r) => r.Err?
    case PollReply(r) => r.Err?
    case _ => false
  }

  /** The builder stays where it is exactly while it still needs headers or HTTP is below the cutoff, and
      it fails exactly on a failing reply, the sync timeout, or when it is left without a cutoff. */
  lemma BuilderAdvances(s: State, e: Event)
    requires Reachable(s) && Enabled(s, e) && FromBuilder(e)
    ensures var c, t := s.client, Next(s, e).client.stage;
      && (t == c.stage <==>
            || (e.Header? && |c.schedule.headers| < c.cfg.confirmations)
            || (e.PollReply? && e.block.Ok? && e.block.value < c.stage.cutoff))
      && (t.Failed? <==>
            || FailingReply(e) || e.SyncTimeout?
            || (e.UnsubscribeReply? && (c.schedule.headers == [] ||
                  (|c.schedule.headers| <= c.cfg.confirmations && !c.schedule.headersEnd))))
  {
    ReachableInv(s);
  }

  /** When the builder ends, in the interleaved system as in `Build`, the outcome is that of `BuildResult`
      for what it has heard. */
  lemma OutcomeIsBuildResult(s: State)
    requires Reachable(s)
    ensures s.client.stage.Failed? ==>
              BuildResult(s.client.cfg, s.client.cursor, s.client.schedule).0 == Err(s.client.stage.error)
    ensures s.client.stage.Streaming? ==>
              var mode := if s.client.stage.upTo.None? then LiveOnly else BackfillTo(s.client.stage.upTo.value);
              BuildResult(s.client.cfg, s.client.cursor, s.client.schedule).0 == Ok(mode)
  {
    ReachableInv(s);
  }

  lemma {:induction false} ClosedStaysClosed(s: State, events: seq<Event>)
    requires Legal(s, events) && s.client.ring.closed && Subscribed(s.client.stage)
    ensures var r := Run(s, events).client.ring;
      r.closed && r.sent == s.client.ring.sent
    decreases |events|
  {
    if events != [] && Subscribed(Next(s, events[0]).client.stage) {
      ClosedStaysClosed(Next(s, events[0]), events[1..]);
    } else if events != [] {
      FailedStaysFailed(Next(s, events[0]), events[1..]);
    }
  }

  lemma {:induction false} FailedStaysFailed(s: State, events: seq<Event>)
    requires Legal(s, events) && s.client.stage.Failed?
    ensures Run(s, events).client == s.client
    decreases |events|
  {
    if events != [] {
      FailedStaysFailed(Next(s, events[0]), events[1..]);
    }
  }

  /** The end of the subscription is final: nothing more is pushed, so the stream ends once the receiver
      has read what is in the ring. */
  lemma CloseIsFinal(s: State, events: seq<Event>)
    requires Reachable(s) && Enabled(s, WsClose) && Legal(Next(s, WsClose), events)
    ensures var r := Run(Next(s, WsClose), events).client.ring;
      r.closed && r.sent == s.client.ring.sent
  {
    ClosedStaysClosed(Next(s, WsClose), events);
  }

  // What a receive yields

  /** The log of the chain that the next receive is about. */
  ghost function NextLive(s: State): nat
    requires EnvOk(s.env)
  {
    FirstLive(s) + s.client.ring.next
  }

  /** What becomes of the copy `log` of the chain's next live log: it is passed on, unless the backfill has
      covered its block, or a backfilling stream cannot tell. */
  ghost predicate PassedOn(s: State, log: Log)
    requires EnvOk(s.env) && NextLive(s) < |s.env.chain| && Enabled(s, Receive)
  {
    var out, out' := s.client.out, Next(s, Receive).client.out;
    && IsCopy(log, s.env.chain[NextLive(s)])
    && (match s.client.stage.upTo
        case None => out' == out + [Ok(log)]
        case Some(cutoff) =>
          if log.blockNumber.None? then out' == out + [Err(BlockNumberMissing)]
          else if log.blockNumber.value <= cutoff then out' == out
          else out' == out + [Ok(log)])
  }

  /** One receive, in every reachable state: a receiver that has fallen behind is told so; otherwise the
      next log of the subscription is passed on; and the end of the subscription yields nothing. */
  lemma ReceiveYields(s: State)
    requires Reachable(s) && EnvOk(s.env) && Enabled(s, Receive)
    ensures s.client.ring.Backlog() > s.client.ring.cap ==>
              Next(s, Receive).client.out == s.client.out + [Err(Lagging)]
    ensures 0 < s.client.ring.Backlog() <= s.client.ring.cap ==>
              NextLive(s) < |s.env.chain| && exists log :: PassedOn(s, log)
    ensures s.client.ring.Backlog() == 0 ==> Next(s, Receive).client.out == s.client.out
  {
    ReachableInv(s);
    var r := s.client.ring;
    if 0 < r.Backlog() <= r.cap {
      var log := NextIsCopy(r, s.env.chain, FirstLive(s));
      assert PassedOn(s, log);
    }
  }

  /** A poll of the stream is never stuck: a fetched log can be yielded; with none, the next chunk can be
      requested, and a failing as well as a complete answer can come back; and after the backfill the
      receiver can be polled whenever the ring has something to say. */
  lemma ConsumerNeverStuck(s: State, code: nat)
    requires Reachable(s) && s.client.stage.Streaming?
    ensures s.client.stage.buffer != [] ==> Enabled(s, Yield)
    ensures s.client.stage.buffer == [] && s.client.stage.ranges != [] ==>
              Enabled(s, Fetch(Err(code))) && exists logs :: AllMined(logs) && Enabled(s, Fetch(Ok(logs)))
    ensures s.client.stage.buffer == [] && s.client.stage.ranges == [] && s.client.ring.Ready() ==> Enabled(s, Receive)
  {
    ReachableInv(s);
    if s.client.stage.buffer == [] && s.client.stage.ranges != [] {
      var p := ProgressOf(s);
      AdjacentHead(p.ranges, p.NextBlock(), p.upTo.value);
      var logs := InRange(s.env.chain, p.ranges[0]);
      assert Enabled(s, Fetch(Ok(logs)));
    }
  }

  /** Nothing goes wrong: the consumer keeps up, every chunk arrives well-formed, and the logs that are
      pushed carry their block number, at least where a cutoff has to be compared with it. */
  ghost predicate Undisturbed(s: State, events: seq<Event>)
    requires Legal(s, events)
    decreases |events|
  {
    && s.client.ring.Backlog() <= s.client.ring.cap
    && (events == [] ||
        (Harmless(s, events[0]) && Undisturbed(Next(s, events[0]), events[1..])))
  }

  predicate IsLiveOnly(stage: Stage) {
    stage.Streaming? && stage.upTo.None?
  }

  predicate Harmless(s: State, e: Event) {
    match e
    case WsPush(pushed) => pushed.blockNumber.Some? || IsLiveOnly(s.client.stage)
    case Fetch(reply) => reply.Ok? && AllMined(reply.value)
    case _ => true
  }

  ghost predicate WindowNumbered(c: Client) {
    !IsLiveOnly(c.stage) ==> forall k :: 0 <= k < |c.ring.window| ==> c.ring.window[k].blockNumber.Some?
  }

  lemma HarmlessKeepsWindow(s: State, e: Event)
    requires Inv(s) && Enabled(s, e) && Harmless(s, e) && WindowNumbered(s.client)
    ensures WindowNumbered(Next(s, e).client)
  {
    if !FromBuilder(e) {
      OthersKeepBuilder(s, e);
    }
  }

  lemma HarmlessReceive(c: Client)
    requires c.ring.Valid() && c.ring.Ready() && c.ring.Backlog() <= c.ring.cap && c.stage.Streaming?
    requires WindowNumbered(c)
    ensures NoErrors(LiveItems(c.stage.upTo, Recv(c.ring).0))
  {
  }

  lemma HarmlessStep(s: State, e: Event)
    requires Inv(s) && Enabled(s, e) && Harmless(s, e) && WindowNumbered(s.client)
    requires s.client.ring.Backlog() <= s.client.ring.cap && NoErrors(s.client.out)
    ensures NoErrors(Next(s, e).client.out)
  {
    if e.Fetch? {
      CollectAfterKeeps(e.logs'.value, s.client.cursor);
    } else if e.Receive? {
      HarmlessReceive(s.client);
    }
  }

  lemma {:induction false} UndisturbedRun(s: State, events: seq<Event>)
    requires Inv(s) && Legal(s, events) && Undisturbed(s, events)
    requires WindowNumbered(s.client) && NoErrors(s.client.out)
    ensures NoErrors(Run(s, events).client.out)
    decreases |events|
  {
    if events != [] {
      InvStep(s, events[0]);
      HarmlessKeepsWindow(s, events[0]);
      HarmlessStep(s, events[0]);
      UndisturbedRun(Next(s, events[0]), events[1..]);
    }
  }

  /** Errors have causes: a run in which nothing goes wrong yields none, and its stream without backfill
      has passed on every log that was received, one by one. */
  lemma UndisturbedHasNoErrors(env: Env, cfg: Config, cursor: ChainCursor, events: seq<Event>)
    requires EnvOk(env) && cfg.Valid() && Legal(State(env, Fresh(cfg, cursor)), events)
    requires Undisturbed(State(env, Fresh(cfg, cursor)), events)
    ensures var s := Run(State(env, Fresh(cfg, cursor)), events);
      && NoErrors(s.client.out)
      && (IsLiveOnly(s.client.stage) ==> |s.client.out| == s.client.ring.next)
  {
    var s0 := State(env, Fresh(cfg, cursor));
    InvInit(env, cfg, cursor);
    UndisturbedRun(s0, events);
    InvRun(s0, events);
    var s := Run(s0, events);
    if IsLiveOnly(s.client.stage) {
      var from, to := FirstLive(s), FirstLive(s) + s.client.ring.next;
      var marks :| Marked(s.client.out, marks, s.env.chain, from, to);
      OneMarkEach(s.client.out, marks, s.env.chain, from, to);
    }
  }

  lemma {:induction false} OneMarkEach(out: seq<Item>, marks: seq<nat>, chain: seq<Log>, lo: nat, hi: nat)
    requires Marked(out, marks, chain, lo, hi) && NoErrors(out)
    ensures hi == lo + |out|
  {
    if out != [] {
      var last := |out| - 1;
      assert ItemStep(out[last], marks[last], marks[last + 1], chain);
      assert Marked(out[..last], marks[..last + 1], chain, lo, marks[last]) by {
        assert forall j {:trigger out[..last][j]} :: 0 <= j < last ==> out[..last][j] == out[j];
      }
      OneMarkEach(out[..last], marks[..last + 1], chain, lo, marks[last]);
    }
  }

  // Lagging

  /** A receive reports lagging exactly when more logs are unread than the ring can hold. */
  lemma LaggingIffBehind(s: State)
    requires Reachable(s) && Enabled(s, Receive)
    ensures Err(Lagging) in LiveItems(s.client.stage.upTo, Recv(s.client.ring).0)
       <==> s.client.ring.Backlog() > s.client.ring.cap
    ensures Next(s, Receive).client.out
         == s.client.out + LiveItems(s.client.stage.upTo, Recv(s.client.ring).0)
  {
    ReachableInv(s);
  }

  /** The consumer never leaves more unread than fits. */
  ghost predicate KeepsUp(s: State, events: seq<Event>)
    requires Legal(s, events)
    decreases |events|
  {
    s.client.ring.Backlog() <= s.client.ring.cap && (events == [] || KeepsUp(Next(s, events[0]), events[1..]))
  }

  /** A consumer that keeps up never sees the lagging error, however long the run. */
  lemma {:induction false} KeepingUpNeverLags(s: State, events: seq<Event>)
    requires Inv(s) && Legal(s, events) && KeepsUp(s, events)
    requires Err(Lagging) !in s.client.out
    ensures Err(Lagging) !in Run(s, events).client.out
    decreases |events|
  {
    if events != [] {
      InvStep(s, events[0]);
      NoLaggingStep(s, events[0]);
      KeepingUpNeverLags(Next(s, events[0]), events[1..]);
    }
  }

  lemma NoLaggingStep(s: State, e: Event)
    requires Inv(s) && Enabled(s, e) && s.client.ring.Backlog() <= s.client.ring.cap
    requires Err(Lagging) !in s.client.out
    ensures Err(Lagging) !in Next(s, e).client.out
  {
    if e.Fetch? {
      FetchErrors(e.logs', s.client.cursor);
    }
  }

  lemma FetchErrors(reply: Reply<seq<Log>>, cursor: ChainCursor)
    ensures FetchLogs(reply, cursor) != Err(Lagging)
  {
    if reply.Ok? {
      CollectErrors(reply.value, cursor);
    }
  }

  lemma {:induction false} CollectErrors(logs: seq<Log>, cursor: ChainCursor)
    ensures CollectAfter(logs, cursor) != Err(Lagging)
  {
    if logs != [] {
      CollectErrors(logs[1..], cursor);
    }
  }
}
