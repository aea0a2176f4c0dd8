/** Every step of the event stream keeps its invariant. */
module EventStreamInvariant {
  import opened Wrappers
  import opened ChainLogs
  import opened Chunks
  import opened Backfill
  import opened Broadcast
  import opened BuildProtocol
  import opened Tracking
  import opened EventStream

  lemma EnvStep(s: State, e: Event)
    requires Inv(s) && Enabled(s, e)
    ensures EnvOk(Next(s, e).env)
  {
    if e.NewBlock? {
      SortedConcat(s.env.chain, e.logs, s.env.head);
      var all := s.env.chain + e.logs;
      assert forall i :: |s.env.chain| <= i < |all| ==> all[i] == e.logs[i - |s.env.chain|];
    }
  }

  lemma PollHeard(s: State, e: Event)
    requires Inv(s) && Enabled(s, e) && e.PollReply?
    ensures Heard(Next(s, e).client, s.env.chainId)
  {
    var h, cutoff := s.client.schedule, s.client.stage.cutoff;
    var polls := h.polls + [e.block];
    DecidingIsFirst(h.polls, cutoff);
    if e.block.Err? || e.block.value >= cutoff {
      DecidingIs(polls, |h.polls|, cutoff);
    } else {
      DecidingIsFirst(polls, cutoff);
    }
  }

  predicate FromBuilder(e: Event) {
    e.ChainIdReply? || e.LogSubscriptionReply? || e.HeadSubscriptionReply? || e.Header? || e.HeadersEnd?
    || e.HeadersTimeout? || e.UnsubscribeReply? || e.PollReply? || e.SyncTimeout?
  }

  /** Only the builder's own steps change what `build` has heard and what it waits for. */
  lemma OthersKeepBuilder(s: State, e: Event)
    requires Inv(s) && Enabled(s, e) && !FromBuilder(e)
    ensures var c, c' := s.client, Next(s, e).client;
      && c'.schedule == c.schedule && c'.logsFrom == c.logsFrom && c'.headsFrom == c.headsFrom
      && c'.cfg == c.cfg && c'.cursor == c.cursor
      && (if c.stage.Streaming? then c'.stage.Streaming? && c'.stage.upTo == c.stage.upTo else c'.stage == c.stage)
    ensures var env, env' := s.env, Next(s, e).env;
      env'.chainId == env.chainId && env.wsHead <= env'.wsHead && env.httpHead <= env'.httpHead
  {
  }

  lemma HeardStep(s: State, e: Event)
    requires Inv(s) && Enabled(s, e)
    ensures Heard(Next(s, e).client, s.env.chainId)
  {
    if e.PollReply? {
      PollHeard(s, e);
    } else if !FromBuilder(e) {
      OthersKeepBuilder(s, e);
    }
  }

  lemma HeadsStep(s: State, e: Event)
    requires Inv(s) && Enabled(s, e)
    ensures HeadsOk(Next(s, e))
  {
    if !FromBuilder(e) {
      OthersKeepBuilder(s, e);
    } else {
      BuilderKeepsHeads(s, e);
    }
  }

  lemma BuilderKeepsHeads(s: State, e: Event)
    requires Inv(s) && Enabled(s, e) && FromBuilder(e)
    ensures HeadsOk(Next(s, e))
  {
    assert Next(s, e).env == s.env;
  }

  // The ring

  lemma NewBlockKeepsBelow(s: State, e: Event, block: nat)
    requires Inv(s) && Enabled(s, e) && e.NewBlock? && block <= s.env.head + 1
    ensures EnvOk(Next(s, e).env)
    ensures Below(Next(s, e).env.chain, block) == Below(s.env.chain, block)
  {
    EnvStep(s, e);
    BelowAppend(s.env.chain, e.logs, s.env.head, block);
  }

  lemma NewBlockKeepsRing(s: State, e: Event)
    requires Inv(s) && Enabled(s, e) && e.NewBlock?
    ensures EnvOk(Next(s, e).env) && RingOk(Next(s, e))
    ensures Subscribed(s.client.stage) ==> FirstLive(Next(s, e)) == FirstLive(s)
  {
    EnvStep(s, e);
    if Subscribed(s.client.stage) {
      NewBlockKeepsBelow(s, e, s.client.logsFrom + 1);
      NewBlockKeepsBelow(s, e, s.env.wsHead + 1);
      CarriesGrows(s.client.ring, s.env.chain, e.logs, FirstLive(s));
    }
  }

  lemma PushKeepsRing(s: State, e: Event)
    requires Inv(s) && Enabled(s, e) && e.WsPush?
    ensures EnvOk(Next(s, e).env) && RingOk(Next(s, e))
  {
    PushCarries(s.client.ring, s.env.chain, FirstLive(s), e.pushed);
  }

  /** Builder steps keep the ring or replace it by an empty one; receiving moves only `next`. */
  lemma ClientKeepsRing(s: State, e: Event)
    requires Inv(s) && Enabled(s, e) && !e.NewBlock? && !e.WsImport? && !e.WsPush?
    ensures Next(s, e).env.chain == s.env.chain && Next(s, e).env.wsHead == s.env.wsHead
    ensures e.LogSubscriptionReply? && e.capacity.Ok? ==>
              Next(s, e).client.ring.window == [] && Next(s, e).client.ring.sent == 0
              && Next(s, e).client.logsFrom == s.env.wsHead && Next(s, e).client.ring.Valid()
    ensures !(e.LogSubscriptionReply? && e.capacity.Ok?) ==>
              && (Subscribed(Next(s, e).client.stage) ==> Subscribed(s.client.stage))
              && Next(s, e).client.ring.window == s.client.ring.window
              && Next(s, e).client.ring.sent == s.client.ring.sent
              && Next(s, e).client.logsFrom == s.client.logsFrom
              && Next(s, e).client.ring.Valid()
  {
  }

  lemma SameRingOk(s: State, t: State)
    requires EnvOk(s.env) && RingOk(s) && EnvOk(t.env)
    requires t.env.chain == s.env.chain && s.env.wsHead <= t.env.wsHead && t.client.logsFrom == s.client.logsFrom
    requires t.client.ring.Valid() && t.client.ring.window == s.client.ring.window
    requires t.client.ring.sent == s.client.ring.sent
    requires Subscribed(t.client.stage) ==> Subscribed(s.client.stage)
    ensures RingOk(t)
  {
    BelowOrdered(s.env.chain, s.env.wsHead + 1, t.env.wsHead + 1);
  }

  lemma EmptyRingOk(t: State)
    requires EnvOk(t.env) && t.client.ring.Valid() && t.client.ring.window == [] && t.client.ring.sent == 0
    requires t.client.logsFrom == t.env.wsHead
    ensures RingOk(t)
  {
  }

  lemma ClientStepKeepsRing(s: State, e: Event)
    requires Inv(s) && Enabled(s, e) && !e.NewBlock? && !e.WsImport? && !e.WsPush?
    ensures EnvOk(Next(s, e).env) && RingOk(Next(s, e))
  {
    EnvStep(s, e);
    ClientKeepsRing(s, e);
    if e.LogSubscriptionReply? && e.capacity.Ok? {
      EmptyRingOk(Next(s, e));
    } else {
      SameRingOk(s, Next(s, e));
    }
  }

  lemma WsImportKeepsRing(s: State, e: Event)
    requires Inv(s) && Enabled(s, e) && e.WsImport?
    ensures EnvOk(Next(s, e).env) && RingOk(Next(s, e))
  {
    EnvStep(s, e);
    SameRingOk(s, Next(s, e));
  }

  lemma RingStep(s: State, e: Event)
    requires Inv(s) && Enabled(s, e)
    ensures EnvOk(Next(s, e).env) && RingOk(Next(s, e))
  {
    if e.NewBlock? {
      NewBlockKeepsRing(s, e);
    } else if e.WsPush? {
      PushKeepsRing(s, e);
    } else if e.WsImport? {
      WsImportKeepsRing(s, e);
    } else {
      ClientStepKeepsRing(s, e);
    }
  }

  // The stream

  lemma IsTracked(s: State, p: Progress)
    requires EnvOk(s.env) && s.client.stage.Streaming? && ProgressOf(s) == p && Tracks(s.env.chain, p)
    ensures StreamOk(s)
  {
  }

  lemma NewBlockKeepsStream(s: State, e: Event)
    requires Inv(s) && Enabled(s, e) && e.NewBlock?
    ensures EnvOk(Next(s, e).env) && StreamOk(Next(s, e))
  {
    EnvStep(s, e);
    if s.client.stage.Streaming? {
      NewBlockKeepsRing(s, e);
      TracksGrows(s.env.chain, e.logs, s.env.head, ProgressOf(s));
      IsTracked(Next(s, e), ProgressOf(s));
    }
  }

  lemma ReceiveKeepsStream(s: State, e: Event)
    requires Inv(s) && Enabled(s, e) && e.Receive?
    ensures EnvOk(Next(s, e).env) && StreamOk(Next(s, e))
  {
    var (got, ring) := Recv(s.client.ring);
    var p := ProgressOf(s);
    assert LivePoll(s.env.chain, p, got, ring.next);
    TracksLivePoll(s.env.chain, p, got, ring.next);
    IsTracked(Next(s, e), p.(next := ring.next, out := p.out + LiveItems(p.upTo, got)));
  }

  /** What a chunk request does to the state, in terms of the fetched chunk alone. */
  lemma FetchEffect(s: State, e: Event, fetched: Result<seq<Log>, StreamError>)
    requires Enabled(s, e) && e.Fetch? && fetched == FetchLogs(e.logs', s.client.cursor)
    ensures Next(s, e).env == s.env && Next(s, e).client.stage.Streaming?
    ensures ProgressOf(Next(s, e))
         == if fetched.Ok? then WithoutRange(ProgressOf(s)).(buffer := fetched.value)
            else WithoutRange(ProgressOf(s)).(buffer := [], out := s.client.out + [Err(fetched.error)])
  {
  }

  lemma FetchKeepsStream(s: State, e: Event)
    requires Inv(s) && Enabled(s, e) && e.Fetch?
    ensures EnvOk(Next(s, e).env) && StreamOk(Next(s, e))
  {
    var p, fetched := ProgressOf(s), FetchLogs(e.logs', s.client.cursor);
    FetchEffect(s, e, fetched);
    FetchTracked(s.env.chain, p, e.logs', s.env.httpHead);
    IsTracked(Next(s, e), ProgressOf(Next(s, e)));
  }

  lemma FetchTracked(chain: seq<Log>, p: Progress, reply: Reply<seq<Log>>, httpHead: nat)
    requires Sorted(chain) && Tracks(chain, p) && p.upTo.Some? && p.upTo.value <= httpHead
    requires p.buffer == [] && p.ranges != []
    requires p.ranges[0].lo <= p.ranges[0].hi <= httpHead ==> Complete(reply, p.ranges[0], chain)
    ensures match FetchLogs(reply, p.cursor)
      case Ok(logs) => Tracks(chain, WithoutRange(p).(buffer := logs))
      case Err(error) => Tracks(chain, WithoutRange(p).(buffer := [], out := p.out + [Err(error)]))
  {
    WithoutRangePlan(p);
    match FetchLogs(reply, p.cursor) {
      case Ok(_) => TracksFetched(chain, p, reply);
      case Err(error) => TracksFetchFailed(chain, p, error);
    }
  }

  lemma YieldEffect(s: State, e: Event)
    requires Enabled(s, e) && e.Yield?
    ensures Next(s, e).env == s.env && Next(s, e).client.stage.Streaming?
    ensures var p := ProgressOf(s);
      p.buffer != [] && ProgressOf(Next(s, e)) == p.(buffer := p.buffer[1..], out := p.out + [Ok(p.buffer[0])])
  {
  }

  lemma YieldKeepsStream(s: State, e: Event)
    requires Inv(s) && Enabled(s, e) && e.Yield?
    ensures EnvOk(Next(s, e).env) && StreamOk(Next(s, e))
  {
    YieldEffect(s, e);
    TracksYield(s.env.chain, ProgressOf(s));
    IsTracked(Next(s, e), ProgressOf(Next(s, e)));
  }

  lemma LiveOnlyOpens(s: State, e: Event)
    requires Inv(s) && Enabled(s, e) && e.LogSubscriptionReply? && Next(s, e).client.stage.Streaming?
    ensures EnvOk(Next(s, e).env) && StreamOk(Next(s, e))
  {
    TracksLiveOnly(s.env.chain, s.client.cursor, FirstLive(Next(s, e)));
    IsTracked(Next(s, e), Progress(s.client.cursor, None, [], [], FirstLive(Next(s, e)), 0, []));
  }

  lemma BackfillOpensEffect(s: State, e: Event)
    requires Inv(s) && Enabled(s, e) && e.PollReply? && Next(s, e).client.stage.Streaming?
    ensures var c := s.client;
      && Next(s, e).env == s.env && c.logsFrom <= c.stage.cutoff
      && ProgressOf(Next(s, e)) == Progress(c.cursor, Some(c.stage.cutoff),
           BlockRanges(c.cursor.block, c.stage.cutoff, c.cfg.chunkSize), [], Below(s.env.chain, c.logsFrom + 1), 0, [])
  {
  }

  lemma BackfillOpens(s: State, e: Event)
    requires Inv(s) && Enabled(s, e) && e.PollReply? && Next(s, e).client.stage.Streaming?
    ensures EnvOk(Next(s, e).env) && StreamOk(Next(s, e))
  {
    var c := s.client;
    BackfillOpensEffect(s, e);
    BlockRangesAdjacent(c.cursor.block, c.stage.cutoff, c.cfg.chunkSize);
    var p := ProgressOf(Next(s, e));
    UnstartedTracks(s.env.chain, p, c.stage.cutoff, c.logsFrom);
    IsTracked(Next(s, e), p);
  }

  lemma OpeningKeepsStream(s: State, e: Event)
    requires Inv(s) && Enabled(s, e) && !s.client.stage.Streaming? && !e.NewBlock?
    ensures EnvOk(Next(s, e).env) && StreamOk(Next(s, e))
  {
    if Next(s, e).client.stage.Streaming? {
      if e.LogSubscriptionReply? {
        LiveOnlyOpens(s, e);
      } else {
        BackfillOpens(s, e);
      }
    }
  }

  lemma StreamStep(s: State, e: Event)
    requires Inv(s) && Enabled(s, e)
    ensures EnvOk(Next(s, e).env) && StreamOk(Next(s, e))
  {
    EnvStep(s, e);
    if e.NewBlock? {
      NewBlockKeepsStream(s, e);
    } else if !s.client.stage.Streaming? {
      OpeningKeepsStream(s, e);
    } else if e.Fetch? {
      FetchKeepsStream(s, e);
    } else if e.Yield? {
      YieldKeepsStream(s, e);
    } else if e.Receive? {
      ReceiveKeepsStream(s, e);
    } else {
      IsTracked(Next(s, e), ProgressOf(s));
    }
  }

  /** Every step of every actor keeps the invariant. */
  lemma InvStep(s: State, e: Event)
    requires Inv(s) && Enabled(s, e)
    ensures Inv(Next(s, e))
  {
    EnvStep(s, e);
    HeardStep(s, e);
    HeadsStep(s, e);
    RingStep(s, e);
    StreamStep(s, e);
    assert Next(s, e).client.cfg == s.client.cfg && Next(s, e).env.chainId == s.env.chainId;
  }

  lemma InvInit(env: Env, cfg: Config, cursor: ChainCursor)
    requires EnvOk(env) && cfg.Valid()
    ensures Inv(State(env, Fresh(cfg, cursor)))
  {
  }

  lemma {:induction false} InvRun(s: State, events: seq<Event>)
    requires Inv(s) && Legal(s, events)
    ensures Inv(Run(s, events))
    decreases |events|
  {
    if events != [] {
      InvStep(s, events[0]);
      InvRun(Next(s, events[0]), events[1..]);
    }
  }

  lemma ReachableInv(s: State)
    requires Reachable(s)
    ensures Inv(s)
  {
    var env, cfg, cursor, events :| ReachedBy(s, env, cfg, cursor, events);
    InvInit(env, cfg, cursor);
    InvRun(State(env, Fresh(cfg, cursor)), events);
  }
}
