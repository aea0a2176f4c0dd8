/** The live half of the stream compares with the cutoff only, never with the cursor. So a call keeps
    to the logs after its cursor if and only if no cutoff it can get leaves a log at or before the
    cursor to the live half. */
module CursorAhead {
  import opened Wrappers
  import opened ChainLogs
  import opened Broadcast
  import opened BuildProtocol
  import opened EventStream
  import opened EventStreamTheorems
  import opened CallRuns

  /** Both subscriptions open. */
  lemma Subscribes(from: State, env: Env, cfg: Config, cursor: ChainCursor) returns (s: State)
    requires EnvOk(env) && cfg.Valid() && !StartsLive(cfg, cursor, env.chainId)
    requires Reaches(from, State(env, Fresh(cfg, cursor)))
    ensures Reaches(from, s) && s.env == env && s.client.cfg == cfg && s.client.cursor == cursor
    ensures s.client.stage.CollectingHeads? && s.client.schedule.headers == [] && s.client.out == []
    ensures s.client.logsFrom == s.client.headsFrom == env.wsHead && s.client.ring == NewRing(cfg.channelSize)
  {
    s := State(env, Fresh(cfg, cursor));
    ReachesStep(from, s, ChainIdReply(Ok(env.chainId)));
    s := Next(s, ChainIdReply(Ok(env.chainId)));
    ReachesStep(from, s, LogSubscriptionReply(Ok(cfg.channelSize)));
    s := Next(s, LogSubscriptionReply(Ok(cfg.channelSize)));
    ReachesStep(from, s, HeadSubscriptionReply(Ok(())));
    s := Next(s, HeadSubscriptionReply(Ok(())));
  }

  /** The first header is the least one possible, and no other follows. */
  lemma HearsLeastHeader(from: State, env: Env, cfg: Config, cursor: ChainCursor, cutoff: u64) returns (s: State)
    requires EnvOk(env) && cfg.Valid() && !StartsLive(cfg, cursor, env.chainId)
    requires Reaches(from, State(env, Fresh(cfg, cursor))) && cutoff == LeastCutoff(env) <= env.head
    ensures Reaches(from, s) && s.env == env.(wsHead := cutoff) && s.client.cfg == cfg && s.client.cursor == cursor
    ensures s.client.stage == Synchronizing(cutoff) && s.client.out == []
    ensures s.client.logsFrom == env.wsHead && s.client.ring == NewRing(cfg.channelSize)
  {
    s := Subscribes(from, env, cfg, cursor);
    ReachesStep(from, s, WsImport(cutoff));
    s := Next(s, WsImport(cutoff));
    ReachesStep(from, s, Header(cutoff));
    s := Next(s, Header(cutoff));
    ReachesStep(from, s, HeadersEnd);
    s := Next(s, HeadersEnd);
    ReachesStep(from, s, UnsubscribeReply(Ok(())));
    s := Next(s, UnsubscribeReply(Ok(())));
  }

  /** The stream is live with the cutoff `cutoff`, and every log of the ring has been received. */
  ghost predicate CaughtUp(s: State, cutoff: u64, chain: seq<Log>, cursor: ChainCursor) {
    && EnvOk(s.env) && s.env.wsHead == s.env.head && s.env.chain == chain
    && s.client.stage == Streaming(Some(cutoff), [], [])
    && s.client.cfg.Valid() && s.client.cursor == cursor
    && s.client.ring.Valid() && !s.client.ring.closed && s.client.ring.next == s.client.ring.sent
  }

  /** HTTP reports the cutoff, there is no block to backfill, and the WS endpoint imports the chain. */
  lemma StartsStreaming(from: State, env: Env, cfg: Config, cursor: ChainCursor, cutoff: u64) returns (s: State)
    requires EnvOk(env) && cfg.Valid() && !StartsLive(cfg, cursor, env.chainId)
    requires Reaches(from, State(env, Fresh(cfg, cursor)))
    requires cutoff == LeastCutoff(env) <= env.head && cutoff < cursor.block
    ensures Reaches(from, s) && CaughtUp(s, cutoff, env.chain, cursor)
    ensures s.client.out == [] && s.client.logsFrom == env.wsHead && s.client.ring.sent == 0
  {
    s := HearsLeastHeader(from, env, cfg, cursor, cutoff);
    var http := if s.env.httpHead < cutoff then cutoff else s.env.httpHead;
    ReachesStep(from, s, HttpAdvance(http));
    s := Next(s, HttpAdvance(http));
    ReachesStep(from, s, PollReply(Ok(cutoff)));
    s := Next(s, PollReply(Ok(cutoff)));
    ReachesStep(from, s, WsImport(env.head));
    s := Next(s, WsImport(env.head));
  }

  lemma PushedIsReceived(ring: Ring, log: Log)
    requires ring.Valid() && !ring.closed && ring.next == ring.sent
    ensures Push(ring, log).Valid() && Push(ring, log).Ready()
    ensures Recv(Push(ring, log)).0 == Value(log)
    ensures var r := Recv(Push(ring, log)).1;
      r.Valid() && !r.closed && r.next == r.sent == ring.sent + 1
  {
  }

  /** The next log of the subscription is pushed and received. */
  lemma PushesNext(from: State, s: State, cutoff: u64, chain: seq<Log>, cursor: ChainCursor) returns (t: State)
    requires Reaches(from, s) && CaughtUp(s, cutoff, chain, cursor)
    requires FirstLive(s) + s.client.ring.sent < |chain|
    ensures Reaches(from, t) && CaughtUp(t, cutoff, chain, cursor) && FirstLive(t) == FirstLive(s)
    ensures t.client.ring.sent == s.client.ring.sent + 1 && t.client.logsFrom == s.client.logsFrom
    ensures var log := chain[FirstLive(s) + s.client.ring.sent];
      t.client.out == s.client.out + LiveItems(Some(cutoff), Value(log))
  {
    var log := chain[FirstLive(s) + s.client.ring.sent];
    BelowIs(chain, s.env.wsHead + 1, |chain|);
    PushedIsReceived(s.client.ring, log);
    ReachesStep(from, s, WsPush(log));
    t := Next(s, WsPush(log));
    ReachesStep(from, t, Receive);
    t := Next(t, Receive);
  }

  /** The logs up to the cutoff are dropped one by one. */
  lemma {:induction false} DropsUpToCutoff(from: State, s: State, cutoff: u64, chain: seq<Log>, cursor: ChainCursor)
    returns (t: State)
    requires Reaches(from, s) && CaughtUp(s, cutoff, chain, cursor) && s.client.out == []
    requires FirstLive(s) + s.client.ring.sent <= Below(chain, cutoff + 1)
    ensures Reaches(from, t) && CaughtUp(t, cutoff, chain, cursor) && t.client.out == []
    ensures FirstLive(t) + t.client.ring.sent == Below(chain, cutoff + 1)
    decreases Below(chain, cutoff + 1) - s.client.ring.sent
  {
    t := s;
    if FirstLive(s) + s.client.ring.sent < Below(chain, cutoff + 1) {
      var next := PushesNext(from, s, cutoff, chain, cursor);
      t := DropsUpToCutoff(from, next, cutoff, chain, cursor);
    }
  }

  /** A log at or before the cursor is not where the logs after it begin. */
  lemma NotAfter(chain: seq<Log>, cursor: ChainCursor, i: nat)
    requires Sorted(chain) && i < Rank(chain, cursor)
    ensures !([chain[i]] <= After(chain, cursor))
  {
    var r := Rank(chain, cursor);
    AfterIsSuffix(chain, cursor);
    if r < |chain| {
      assert InOrder(chain, i, r);
    }
  }

  /** The first log beyond the least cutoff is delivered first. */
  lemma DeliversFirstBeyond(from: State, env: Env, cfg: Config, cursor: ChainCursor, cutoff: u64) returns (s: State)
    requires EnvOk(env) && cfg.Valid() && !StartsLive(cfg, cursor, env.chainId)
    requires Reaches(from, State(env, Fresh(cfg, cursor)))
    requires cutoff == LeastCutoff(env) <= env.head && cutoff < cursor.block
    requires Below(env.chain, cutoff + 1) < |env.chain|
    ensures Reaches(from, s) && s.env.chain == env.chain && EnvOk(s.env)
    ensures s.client.out == [Ok(env.chain[Below(env.chain, cutoff + 1)])]
  {
    BelowOrdered(env.chain, env.wsHead + 1, cutoff + 1);
    s := StartsStreaming(from, env, cfg, cursor, cutoff);
    s := DropsUpToCutoff(from, s, cutoff, env.chain, cursor);
    s := PushesNext(from, s, cutoff, env.chain, cursor);
  }

  ghost predicate Astray(s: State, cursor: ChainCursor) {
    EnvOk(s.env) && !(BeforeFirstError(s.client.out) <= After(s.env.chain, cursor))
  }

  /** When there is a log beyond the least cutoff that the cursor says has been processed, the call
      can deliver it. */
  lemma DeliversProcessed(from: State, env: Env, cfg: Config, cursor: ChainCursor) returns (s: State)
    requires EnvOk(env) && cfg.Valid() && !StartsLive(cfg, cursor, env.chainId)
    requires Reaches(from, State(env, Fresh(cfg, cursor)))
    requires LeastCutoff(env) <= env.head && Below(env.chain, LeastCutoff(env) + 1) < Rank(env.chain, cursor)
    ensures Reaches(from, s) && Astray(s, cursor)
    ensures s.env.chain == env.chain && s.client.out == [Ok(env.chain[Below(env.chain, LeastCutoff(env) + 1)])]
  {
    var i := Below(env.chain, LeastCutoff(env) + 1);
    BelowRank(env.chain, cursor, LeastCutoff(env) + 1);
    s := DeliversFirstBeyond(from, env, cfg, cursor, LeastCutoff(env));
    NotAfter(env.chain, cursor, i);
    assert BeforeFirstError([Ok(env.chain[i])]) == [env.chain[i]];
  }

  /** One more block is mined before the call starts. */
  lemma MinesBlock(from: State, env: Env, cfg: Config, cursor: ChainCursor, logs: seq<Log>)
    returns (env': Env)
    requires EnvOk(env) && cfg.Valid() && Reaches(from, State(env, Fresh(cfg, cursor)))
    requires env.head < U64_MAX && Sorted(logs) && forall i :: 0 <= i < |logs| ==> At(logs[i]).block == env.head + 1
    ensures env' == env.(chain := env.chain + logs, head := env.head + 1)
    ensures EnvOk(env') && Reaches(from, State(env', Fresh(cfg, cursor)))
  {
    var s := State(env, Fresh(cfg, cursor));
    ReachesStep(from, s, NewBlock(logs));
    env' := Next(s, NewBlock(logs)).env;
    SortedConcat(env.chain, logs, env.head);
    assert forall i :: |env.chain| <= i < |env'.chain| ==> env'.chain[i] == logs[i - |env.chain|];
  }

  /** A cursor beyond the chain's head gets a log before it, in a block beyond the least cutoff. */
  lemma MinesBeforeCursor(from: State, env: Env, cfg: Config, cursor: ChainCursor) returns (env': Env)
    requires EnvOk(env) && cfg.Valid() && Reaches(from, State(env, Fresh(cfg, cursor)))
    requires env.head < cursor.block && LeastCutoff(env) <= env.head
    ensures env'.chainId == env.chainId && LeastCutoff(env') == LeastCutoff(env) <= env'.head
    ensures EnvOk(env') && Reaches(from, State(env', Fresh(cfg, cursor)))
    ensures Below(env'.chain, LeastCutoff(env) + 1) < Rank(env'.chain, cursor)
  {
    var log := Log(Some(env.head + 1), Some(0), 0);
    env' := MinesBlock(from, env, cfg, cursor, [log]);
    var all, n := env'.chain, |env.chain|;
    assert all[n] == log;
    assert IsRank(all, cursor, n + 1) by {
      assert forall i :: 0 <= i < n ==> all[i] == env.chain[i];
    }
    RankIs(all, cursor, n + 1);
  }

  /** The bad half: a cursor that is not covered makes some run of the call go astray. */
  lemma UncoveredCallGoesAstray(env: Env, cfg: Config, cursor: ChainCursor) returns (s: State)
    requires EnvOk(env) && cfg.Valid() && !StartsLive(cfg, cursor, env.chainId)
    requires !Covered(env, cursor, LeastCutoff(env))
    ensures Reaches(State(env, Fresh(cfg, cursor)), s) && Astray(s, cursor)
  {
    var from, env1 := State(env, Fresh(cfg, cursor)), env;
    ReachesItself(from);
    if env.head < LeastCutoff(env) {
      env1 := MinesBlock(from, env, cfg, cursor, []);
      assert env.chain + [] == env.chain;
    }
    if env1.head < cursor.block {
      env1 := MinesBeforeCursor(from, env1, cfg, cursor);
    }
    s := DeliversProcessed(from, env1, cfg, cursor);
  }

  /** In every run of the call, what is delivered before the first error continues the cursor. */
  ghost predicate AlwaysAfterCursor(env: Env, cfg: Config, cursor: ChainCursor)
    requires cfg.Valid()
  {
    forall s: State :: Reaches(State(env, Fresh(cfg, cursor)), s) ==> !Astray(s, cursor)
  }

  /** The exact condition, for every chain, every state of the endpoints, every configuration and
      every cursor that asks for history: the cursor's block is not above the least cutoff the call
      can get, or the chain has passed it and has no log at or before it above that cutoff. */
  lemma AlwaysAfterCursorIff(env: Env, cfg: Config, cursor: ChainCursor)
    requires EnvOk(env) && cfg.Valid() && !StartsLive(cfg, cursor, env.chainId)
    ensures AlwaysAfterCursor(env, cfg, cursor) <==> Covered(env, cursor, LeastCutoff(env))
  {
    if Covered(env, cursor, LeastCutoff(env)) {
      forall s: State | Reaches(State(env, Fresh(cfg, cursor)), s)
        ensures !Astray(s, cursor)
      {
        CoveredCallDeliversAfter(env, cfg, cursor, s);
      }
    } else {
      var s := UncoveredCallGoesAstray(env, cfg, cursor);
      assert Reaches(State(env, Fresh(cfg, cursor)), s);
    }
  }

  /** For the cursor of a log that has been mined, what a resumed consumer has, the condition is a
      comparison of two block numbers. */
  lemma MinedCursorIff(env: Env, cfg: Config, cursor: ChainCursor, i: nat)
    requires EnvOk(env) && cfg.Valid() && !StartsLive(cfg, cursor, env.chainId)
    requires i < |env.chain| && At(env.chain[i]) == cursor
    ensures AlwaysAfterCursor(env, cfg, cursor) <==> cursor.block <= LeastCutoff(env)
  {
    AlwaysAfterCursorIff(env, cfg, cursor);
    assert Mined(env.chain[i]) && i < Rank(env.chain, cursor);
  }
}
