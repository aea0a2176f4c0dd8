/** Many runs of the event stream, one after the other: each ends at its first error or by a crash
    after any delivered log, and the next one is built with the last delivered position as its
    cursor (nodes-common/src/web3/event_stream.rs). */
module Restart {
  import opened Wrappers
  import opened ChainLogs
  import opened BuildProtocol
  import opened Tracking
  import opened EventStream
  import opened EventStreamInvariant
  import opened EventStreamTheorems
  import opened CallRuns
  import opened CursorAhead

  /** The current run, the outside at the time it was built, the logs processed in earlier runs, and
      the cursor of the first run. */
  datatype World = World(state: State, built: Env, processed: seq<Log>, first: ChainCursor)

  function Opened(env: Env, cfg: Config, first: ChainCursor): World
    requires cfg.Valid()
  {
    World(State(env, Fresh(cfg, first)), env, [], first)
  }

  datatype WorldEvent = Within(event: Event) | Rebuild(cfg: Config)

  /** The position of the last log processed. */
  function CursorAfter(cursor: ChainCursor, logs: seq<Log>): ChainCursor {
    if logs == [] || !Mined(logs[|logs| - 1]) then cursor else At(logs[|logs| - 1])
  }

  ghost predicate WorldEnabled(w: World, e: WorldEvent) {
    match e
    case Within(event) => Enabled(w.state, event)
    case Rebuild(cfg) => cfg.Valid() && !cfg.skipBackfill
  }

  ghost function WorldNext(w: World, e: WorldEvent): World
    requires WorldEnabled(w, e)
  {
    match e
    case Within(event) => w.(state := Next(w.state, event))
    case Rebuild(cfg) =>
      var got := BeforeFirstError(w.state.client.out);
      var cursor := CursorAfter(w.state.client.cursor, got);
      World(State(w.state.env, Fresh(cfg, cursor)), w.state.env, w.processed + got, w.first)
  }

  ghost predicate WorldLegal(w: World, events: seq<WorldEvent>)
    decreases |events|
  {
    events == [] || (WorldEnabled(w, events[0]) && WorldLegal(WorldNext(w, events[0]), events[1..]))
  }

  ghost function WorldRun(w: World, events: seq<WorldEvent>): World
    requires WorldLegal(w, events)
    decreases |events|
  {
    if events == [] then w else WorldRun(WorldNext(w, events[0]), events[1..])
  }

  /** The current call keeps to the logs after its cursor, and the logs processed lie between the first
      cursor and the current one. */
  ghost predicate WorldInv(w: World) {
    var env, c := w.state.env, w.state.client;
    && Inv(w.state)
    && !StartsLive(c.cfg, c.cursor, env.chainId)
    && CallInv(w.built, c.cfg, c.cursor, w.state)
    && Covered(env, c.cursor, LeastCutoff(w.built))
    && Between(env, w.first, c.cursor, w.processed)
  }

  /** Nothing has been processed yet, or the chain has passed both cursors. */
  ghost predicate Between(env: Env, first: ChainCursor, cursor: ChainCursor, processed: seq<Log>)
    requires EnvOk(env)
  {
    if cursor == first then processed == []
    else
      && first.IsBefore(cursor) && cursor.block <= env.head
      && Rank(env.chain, first) <= Rank(env.chain, cursor)
      && processed == env.chain[Rank(env.chain, first)..Rank(env.chain, cursor)]
  }

  lemma BetweenIsSlice(env: Env, first: ChainCursor, cursor: ChainCursor, processed: seq<Log>)
    requires EnvOk(env) && Between(env, first, cursor, processed)
    ensures Rank(env.chain, first) <= Rank(env.chain, cursor)
    ensures processed == env.chain[Rank(env.chain, first)..Rank(env.chain, cursor)]
  {
  }

  lemma BetweenStays(s: State, e: Event, first: ChainCursor, cursor: ChainCursor, processed: seq<Log>)
    requires Inv(s) && Enabled(s, e) && Between(s.env, first, cursor, processed)
    ensures EnvOk(Next(s, e).env) && Between(Next(s, e).env, first, cursor, processed)
  {
    EnvStep(s, e);
    if e.NewBlock? && cursor != first {
      RankAppend(s.env.chain, e.logs, s.env.head, first);
      RankAppend(s.env.chain, e.logs, s.env.head, cursor);
    }
  }

  lemma StepKeepsWorld(w: World, event: Event)
    requires WorldInv(w) && Enabled(w.state, event)
    ensures WorldInv(WorldNext(w, Within(event)))
  {
    var c := w.state.client;
    InvStep(w.state, event);
    StepKeepsCall(w.built, c.cfg, c.cursor, w.state, event);
    CoveredStays(w.state, event, c.cursor, LeastCutoff(w.built));
    BetweenStays(w.state, event, w.first, c.cursor, w.processed);
  }

  lemma DeliveredFromCursor(s: State)
    requires Inv(s) && s.client.stage.Streaming? && s.client.stage.upTo.Some?
    requires Rank(s.env.chain, s.client.cursor) <= Below(s.env.chain, s.client.stage.upTo.value + 1)
    ensures var got, chain := BeforeFirstError(s.client.out), s.env.chain;
      var from := Rank(chain, s.client.cursor);
      && from + |got| <= |chain| && got == chain[from..from + |got|]
      && (got != [] ==> from + |got| <= Below(chain, s.env.wsHead + 1))
  {
    DeliveredSlice(s);
    FrontierBelow(s.env.chain, ProgressOf(s), s.env.wsHead);
  }

  /** What the run has delivered continues what was processed before. */
  lemma DeliveredContinues(w: World)
    requires WorldInv(w)
    ensures var got, chain := BeforeFirstError(w.state.client.out), w.state.env.chain;
      var from := Rank(chain, w.state.client.cursor);
      && from + |got| <= |chain| && got == chain[from..from + |got|]
      && (got != [] ==> from + |got| <= Below(chain, w.state.env.wsHead + 1))
  {
    var s := w.state;
    if s.client.stage.Streaming? {
      CoveredRank(s.env, s.client.cursor, LeastCutoff(w.built), s.client.stage.upTo.value);
      DeliveredFromCursor(s);
    } else {
      assert BeforeFirstError(s.client.out) == [];
    }
  }

  /** The last delivered position is where the next run has to go on. */
  lemma CursorMoves(chain: seq<Log>, cursor: ChainCursor, got: seq<Log>)
    requires Sorted(chain) && got != [] && Rank(chain, cursor) + |got| <= |chain|
    requires got == chain[Rank(chain, cursor)..Rank(chain, cursor) + |got|]
    ensures var cursor' := CursorAfter(cursor, got);
      && cursor.IsBefore(cursor')
      && Rank(chain, cursor') == Rank(chain, cursor) + |got|
      && cursor' == At(chain[Rank(chain, cursor) + |got| - 1])
  {
    var last := Rank(chain, cursor) + |got| - 1;
    assert got[|got| - 1] == chain[last];
    forall i | 0 <= i < last ensures At(chain[i]).IsBefore(At(chain[last])) {
      assert InOrder(chain, i, last);
    }
    forall i | last < i < |chain| ensures At(chain[last]).IsBefore(At(chain[i])) {
      assert InOrder(chain, last, i);
    }
    RankIs(chain, At(chain[last]), last + 1);
  }

  /** The next cursor, and everything processed up to it. */
  lemma NextCursor(env: Env, first: ChainCursor, cursor: ChainCursor, processed: seq<Log>, got: seq<Log>)
    requires EnvOk(env) && Between(env, first, cursor, processed) && got != []
    requires Rank(env.chain, cursor) + |got| <= Below(env.chain, env.wsHead + 1)
    requires got == env.chain[Rank(env.chain, cursor)..Rank(env.chain, cursor) + |got|]
    ensures var cursor' := CursorAfter(cursor, got);
      && Between(env, first, cursor', processed + got)
      && !cursor'.IsGenesis() && cursor'.block <= env.wsHead
  {
    var chain, from := env.chain, Rank(env.chain, cursor);
    BetweenIsSlice(env, first, cursor, processed);
    PiecesArePrefix(chain, Rank(chain, first), from, from + |got|);
    CursorMoves(chain, cursor, got);
  }

  lemma LeastCutoffRises(built: Env, env: Env, cursor: ChainCursor)
    requires EnvOk(env) && built.wsHead <= env.wsHead && built.announcesHead == env.announcesHead
    requires Covered(env, cursor, LeastCutoff(built))
    ensures Covered(env, cursor, LeastCutoff(env))
  {
    BelowOrdered(env.chain, LeastCutoff(built) + 1, LeastCutoff(env) + 1);
  }

  lemma RebuiltInv(env: Env, cfg: Config, first: ChainCursor, cursor: ChainCursor, processed: seq<Log>)
    requires EnvOk(env) && cfg.Valid() && !StartsLive(cfg, cursor, env.chainId)
    requires Covered(env, cursor, LeastCutoff(env)) && Between(env, first, cursor, processed)
    ensures WorldInv(World(State(env, Fresh(cfg, cursor)), env, processed, first))
  {
    InvInit(env, cfg, cursor);
  }

  /** What the next call finds. */
  lemma NextCall(w: World)
    requires WorldInv(w)
    ensures var env, got := w.state.env, BeforeFirstError(w.state.client.out);
      var cursor' := CursorAfter(w.state.client.cursor, got);
      && Covered(env, cursor', LeastCutoff(env)) && Between(env, w.first, cursor', w.processed + got)
      && (cursor'.IsGenesis() ==> env.chainId == ANVIL_CHAIN_ID)
  {
    var env, cursor, got := w.state.env, w.state.client.cursor, BeforeFirstError(w.state.client.out);
    DeliveredContinues(w);
    if got == [] {
      assert w.processed + got == w.processed;
      LeastCutoffRises(w.built, env, cursor);
    } else {
      NextCursor(env, w.first, cursor, w.processed, got);
    }
  }

  lemma RebuildKeepsWorld(w: World, cfg: Config)
    requires WorldInv(w) && cfg.Valid() && !cfg.skipBackfill
    ensures WorldInv(WorldNext(w, Rebuild(cfg)))
  {
    var got := BeforeFirstError(w.state.client.out);
    NextCall(w);
    RebuiltInv(w.state.env, cfg, w.first, CursorAfter(w.state.client.cursor, got), w.processed + got);
  }

  lemma {:induction false} WorldInvRun(w: World, events: seq<WorldEvent>)
    requires WorldInv(w) && WorldLegal(w, events)
    ensures WorldInv(WorldRun(w, events))
    decreases |events|
  {
    if events != [] {
      match events[0] {
        case Within(event) => StepKeepsWorld(w, event);
        case Rebuild(cfg) => RebuildKeepsWorld(w, cfg);
      }
      WorldInvRun(WorldNext(w, events[0]), events[1..]);
    }
  }

  lemma ContinuesAfter(chain: seq<Log>, first: ChainCursor, from: nat, processed: seq<Log>, got: seq<Log>)
    requires Sorted(chain) && Rank(chain, first) <= from <= from + |got| <= |chain|
    requires processed == chain[Rank(chain, first)..from] && got == chain[from..from + |got|]
    ensures processed + got <= After(chain, first)
  {
    AfterIsSuffix(chain, first);
    PiecesArePrefix(chain, Rank(chain, first), from, from + |got|);
  }

  /** Everything processed so far is a gap-free, duplicate-free prefix of the logs after the first
      cursor. */
  ghost predicate GapFree(w: World) {
    var env := w.state.env;
    EnvOk(env) && w.processed + BeforeFirstError(w.state.client.out) <= After(env.chain, w.first)
  }

  lemma ProcessedIsPrefix(w: World)
    requires WorldInv(w)
    ensures GapFree(w)
  {
    var env, cursor, got := w.state.env, w.state.client.cursor, BeforeFirstError(w.state.client.out);
    DeliveredContinues(w);
    BetweenIsSlice(env, w.first, cursor, w.processed);
    ContinuesAfter(env.chain, w.first, Rank(env.chain, cursor), w.processed, got);
  }

  /** Restart composition: over any number of runs, interleaved with the chain and the endpoints
      in any way, rebuilt with any configuration that backfills, everything processed is a
      gap-free and duplicate-free prefix of the logs after the first cursor. */
  lemma RestartComposition(env: Env, cfg: Config, first: ChainCursor, events: seq<WorldEvent>)
    requires EnvOk(env) && cfg.Valid() && !StartsLive(cfg, first, env.chainId)
    requires Covered(env, first, LeastCutoff(env))
    requires WorldLegal(Opened(env, cfg, first), events)
    ensures var w := WorldRun(Opened(env, cfg, first), events);
      GapFree(w) && w.first == first
  {
    var w0 := Opened(env, cfg, first);
    InvInit(env, cfg, first);
    WorldInvRun(w0, events);
    FirstStays(w0, events);
    ProcessedIsPrefix(WorldRun(w0, events));
  }

  lemma {:induction false} FirstStays(w: World, events: seq<WorldEvent>)
    requires WorldLegal(w, events)
    ensures WorldRun(w, events).first == w.first
    decreases |events|
  {
    if events != [] {
      FirstStays(WorldNext(w, events[0]), events[1..]);
    }
  }

  function Lift(events: seq<Event>): seq<WorldEvent> {
    if events == [] then [] else [Within(events[0])] + Lift(events[1..])
  }

  lemma {:induction false} RunInWorld(w: World, events: seq<Event>)
    requires Legal(w.state, events)
    ensures WorldLegal(w, Lift(events))
    ensures WorldRun(w, Lift(events)) == w.(state := Run(w.state, events))
    decreases |events|
  {
    if events != [] {
      RunInWorld(WorldNext(w, Within(events[0])), events[1..]);
      assert Lift(events)[1..] == Lift(events[1..]);
    }
  }

  ghost predicate AlwaysGapFree(w: World) {
    forall events :: WorldLegal(w, events) ==> GapFree(WorldRun(w, events))
  }

  /** The condition on the first cursor is exact: nothing weaker makes all runs compose. */
  lemma RestartsComposeIff(env: Env, cfg: Config, first: ChainCursor)
    requires EnvOk(env) && cfg.Valid() && !StartsLive(cfg, first, env.chainId)
    ensures AlwaysGapFree(Opened(env, cfg, first)) <==> Covered(env, first, LeastCutoff(env))
  {
    var w0 := Opened(env, cfg, first);
    if Covered(env, first, LeastCutoff(env)) {
      forall events | WorldLegal(w0, events)
        ensures GapFree(WorldRun(w0, events))
      {
        RestartComposition(env, cfg, first, events);
      }
    } else {
      var s := UncoveredCallGoesAstray(env, cfg, first);
      var events :| Leads(w0.state, events, s);
      RunInWorld(w0, events);
      assert [] + BeforeFirstError(s.client.out) == BeforeFirstError(s.client.out);
      assert WorldLegal(w0, Lift(events)) && !GapFree(WorldRun(w0, Lift(events)));
    }
  }
}
