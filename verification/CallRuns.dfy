/** One call of `build` on a given cursor, in a given state of the chain and its endpoints: what all
    the runs of it have in common (nodes-common/src/web3/event_stream.rs). */
module CallRuns {
  import opened ChainLogs
  import opened BuildProtocol
  import opened EventStream
  import opened EventStreamInvariant
  import opened EventStreamTheorems

  ghost predicate Leads(from: State, events: seq<Event>, to: State) {
    Legal(from, events) && to == Run(from, events)
  }

  ghost predicate Reaches(from: State, to: State) {
    exists events :: Leads(from, events, to)
  }

  lemma {:induction false} RunAppend(s: State, events: seq<Event>, e: Event)
    requires Legal(s, events) && Enabled(Run(s, events), e)
    ensures Legal(s, events + [e]) && Run(s, events + [e]) == Next(Run(s, events), e)
    decreases |events|
  {
    if events == [] {
      assert [e][1..] == [];
    } else {
      RunAppend(Next(s, events[0]), events[1..], e);
      assert (events + [e])[1..] == events[1..] + [e];
    }
  }

  lemma ReachesStep(from: State, s: State, e: Event)
    requires Reaches(from, s) && Enabled(s, e)
    ensures Reaches(from, Next(s, e))
  {
    var events :| Leads(from, events, s);
    RunAppend(from, events, e);
    assert Leads(from, events + [e], Next(s, e));
  }

  lemma ReachesItself(s: State)
    ensures Reaches(s, s)
  {
    assert Leads(s, [], s);
  }

  /** The least cutoff the call can get: the newHeads subscription is opened at this head or later. */
  function LeastCutoff(env: Env): nat {
    EarliestHeader(env, env.wsHead)
  }

  /** Every matching log at or before the cursor is in a block up to `least`, now and forever: later
      blocks are beyond the cursor, or beyond the head that is already past the cursor. */
  ghost predicate Covered(env: Env, cursor: ChainCursor, least: nat)
    requires EnvOk(env)
  {
    || cursor.block <= least
    || (cursor.block <= env.head && Rank(env.chain, cursor) <= Below(env.chain, least + 1))
  }

  lemma CoveredRank(env: Env, cursor: ChainCursor, least: nat, cutoff: nat)
    requires EnvOk(env) && Covered(env, cursor, least) && least <= cutoff
    ensures Rank(env.chain, cursor) <= Below(env.chain, cutoff + 1)
  {
    BelowRank(env.chain, cursor, least + 1);
    BelowOrdered(env.chain, least + 1, cutoff + 1);
  }

  lemma CoveredStays(s: State, e: Event, cursor: ChainCursor, least: nat)
    requires Inv(s) && Enabled(s, e) && Covered(s.env, cursor, least)
    ensures EnvOk(Next(s, e).env) && Covered(Next(s, e).env, cursor, least)
  {
    EnvStep(s, e);
    if e.NewBlock? && cursor.block > least {
      RankAppend(s.env.chain, e.logs, s.env.head, cursor);
      BelowAppend(s.env.chain, e.logs, s.env.head, least + 1);
    }
  }

  /** What the builder has settled on does not lie below `least`. */
  predicate AtLeast(c: Client, least: nat) {
    match c.stage
    case CollectingHeads => forall i :: 0 <= i < |c.schedule.headers| ==> least <= c.schedule.headers[i]
    case Unsubscribing => forall i :: 0 <= i < |c.schedule.headers| ==> least <= c.schedule.headers[i]
    case Synchronizing(cutoff) => least <= cutoff
    case Streaming(upTo, _, _) => upTo.Some? && least <= upTo.value
    case _ => true
  }

  /** The call is the one on `cursor` in `env`, and it cannot get a cutoff below the least one. */
  ghost predicate CallInv(env: Env, cfg: Config, cursor: ChainCursor, s: State) {
    && s.client.cfg == cfg && s.client.cursor == cursor
    && s.env.chainId == env.chainId && s.env.announcesHead == env.announcesHead
    && env.wsHead <= s.env.wsHead
    && (s.client.stage.CollectingHeads? ==> env.wsHead <= s.client.headsFrom)
    && AtLeast(s.client, LeastCutoff(env))
  }

  lemma BuilderKeepsCall(env: Env, cfg: Config, cursor: ChainCursor, s: State, e: Event)
    requires Inv(s) && Enabled(s, e) && FromBuilder(e) && CallInv(env, cfg, cursor, s)
    requires !StartsLive(cfg, cursor, env.chainId)
    ensures CallInv(env, cfg, cursor, Next(s, e))
  {
  }

  lemma StepKeepsCall(env: Env, cfg: Config, cursor: ChainCursor, s: State, e: Event)
    requires Inv(s) && Enabled(s, e) && CallInv(env, cfg, cursor, s)
    requires !StartsLive(cfg, cursor, env.chainId)
    ensures CallInv(env, cfg, cursor, Next(s, e))
  {
    if FromBuilder(e) {
      BuilderKeepsCall(env, cfg, cursor, s, e);
    } else {
      OthersKeepBuilder(s, e);
    }
  }

  lemma {:induction false} RunKeepsCall(env: Env, cfg: Config, cursor: ChainCursor, s: State, events: seq<Event>)
    requires Inv(s) && Legal(s, events) && CallInv(env, cfg, cursor, s)
    requires !StartsLive(cfg, cursor, env.chainId) && Covered(s.env, cursor, LeastCutoff(env))
    ensures var t := Run(s, events);
      Inv(t) && CallInv(env, cfg, cursor, t) && Covered(t.env, cursor, LeastCutoff(env))
    decreases |events|
  {
    if events != [] {
      InvStep(s, events[0]);
      StepKeepsCall(env, cfg, cursor, s, events[0]);
      CoveredStays(s, events[0], cursor, LeastCutoff(env));
      RunKeepsCall(env, cfg, cursor, Next(s, events[0]), events[1..]);
    }
  }

  /** A stream whose cutoff covers the cursor delivers a prefix of the logs after it. */
  lemma DeliversAfter(s: State)
    requires Inv(s) && s.client.stage.Streaming? && s.client.stage.upTo.Some?
    requires Rank(s.env.chain, s.client.cursor) <= Below(s.env.chain, s.client.stage.upTo.value + 1)
    ensures BeforeFirstError(s.client.out) <= After(s.env.chain, s.client.cursor)
  {
    DeliveredSlice(s);
    AfterIsSuffix(s.env.chain, s.client.cursor);
  }

  /** The good half: a covered cursor keeps every run of the call to the logs after it. */
  lemma CoveredCallDeliversAfter(env: Env, cfg: Config, cursor: ChainCursor, s: State)
    requires EnvOk(env) && cfg.Valid() && !StartsLive(cfg, cursor, env.chainId)
    requires Covered(env, cursor, LeastCutoff(env))
    requires Reaches(State(env, Fresh(cfg, cursor)), s)
    ensures EnvOk(s.env)
    ensures BeforeFirstError(s.client.out) <= After(s.env.chain, cursor)
  {
    var s0 := State(env, Fresh(cfg, cursor));
    var events :| Leads(s0, events, s);
    InvInit(env, cfg, cursor);
    RunKeepsCall(env, cfg, cursor, s0, events);
    if s.client.stage.Streaming? {
      CoveredRank(s.env, cursor, LeastCutoff(env), s.client.stage.upTo.value);
      DeliversAfter(s);
    } else {
      assert BeforeFirstError(s.client.out) == [];
    }
  }
}
