/** The chunks are requested one by one, whenever the consumer asks for more. What it gets this way
    is the eager `BackfillItems` of the same answers, in every interleaving. */
module LazyBackfill {
  import opened Wrappers
  import opened ChainLogs
  import opened Chunks
  import opened Backfill
  import opened Tracking
  import opened EventStream
  import opened EventStreamInvariant

  /** `p` has requested the first `|answers|` ranges of `plan`; what it has yielded, together with
      the logs still in its buffer, is what these answers make of the backfill. */
  ghost predicate Fetched(chain: seq<Log>, plan: seq<BlockRange>, answers: seq<Reply<seq<Log>>>, p: Progress)
    requires Sorted(chain)
  {
    && |answers| <= |plan|
    && p.ranges == plan[|answers|..]
    && Answers(answers, plan[..|answers|], chain)
    && (if p.Backfilling() then p.out + OkItems(p.buffer) == BackfillItems(answers, p.cursor)
        else BackfillItems(answers, p.cursor) <= p.out)
  }

  lemma {:induction false} TryFlattenAppend(
    chunks: seq<Result<seq<Log>, StreamError>>, last: Result<seq<Log>, StreamError>)
    ensures TryFlatten(chunks + [last])
         == TryFlatten(chunks) + (match last case Ok(logs) => OkItems(logs) case Err(e) => [Err(e)])
  {
    if chunks == [] {
      assert [last][1..] == [];
    } else {
      TryFlattenAppend(chunks[1..], last);
      assert (chunks + [last])[1..] == chunks[1..] + [last];
      var first: seq<Item> := match chunks[0] case Ok(logs) => OkItems(logs) case Err(e) => [Err(e)];
      var end: seq<Item> := match last case Ok(logs) => OkItems(logs) case Err(e) => [Err(e)];
      ConcatAssociative(first, TryFlatten(chunks[1..]), end);
    }
  }

  lemma BackfillItemsAppend(answers: seq<Reply<seq<Log>>>, reply: Reply<seq<Log>>, cursor: ChainCursor)
    ensures BackfillItems(answers + [reply], cursor)
         == BackfillItems(answers, cursor)
            + (match FetchLogs(reply, cursor) case Ok(logs) => OkItems(logs) case Err(e) => [Err(e)])
  {
    var all := answers + [reply];
    var chunks := seq(|answers|, i requires 0 <= i < |answers| => FetchLogs(answers[i], cursor));
    assert seq(|all|, i requires 0 <= i < |all| => FetchLogs(all[i], cursor)) == chunks + [FetchLogs(reply, cursor)];
    TryFlattenAppend(chunks, FetchLogs(reply, cursor));
  }

  lemma AnswersAppend(answers: seq<Reply<seq<Log>>>, plan: seq<BlockRange>, chain: seq<Log>, reply: Reply<seq<Log>>)
    requires Sorted(chain) && |answers| < |plan| && Answers(answers, plan[..|answers|], chain)
    requires plan[|answers|].lo <= plan[|answers|].hi && Complete(reply, plan[|answers|], chain)
    ensures Answers(answers + [reply], plan[..|answers| + 1], chain)
  {
  }

  lemma AnswersGrow(answers: seq<Reply<seq<Log>>>, ranges: seq<BlockRange>, chain: seq<Log>, more: seq<Log>, head: nat)
    requires Sorted(chain) && Sorted(chain + more)
    requires forall i :: 0 <= i < |more| ==> Mined(more[i]) && At(more[i]).block > head
    requires Answers(answers, ranges, chain)
    requires forall i :: 0 <= i < |ranges| ==> ranges[i].hi <= head
    ensures Answers(answers, ranges, chain + more)
  {
    forall i | 0 <= i < |ranges| ensures Complete(answers[i], ranges[i], chain + more) {
      InRangeGrows(chain, more, head, ranges[i]);
    }
  }

  lemma InRangeGrows(chain: seq<Log>, more: seq<Log>, head: nat, range: BlockRange)
    requires Sorted(chain) && Sorted(chain + more) && range.lo <= range.hi <= head
    requires forall i :: 0 <= i < |more| ==> Mined(more[i]) && At(more[i]).block > head
    ensures InRange(chain + more, range) == InRange(chain, range)
  {
    BelowAppend(chain, more, head, range.lo);
    BelowAppend(chain, more, head, range.hi + 1);
  }

  // Steps

  lemma FetchedFetch(
    chain: seq<Log>, plan: seq<BlockRange>, answers: seq<Reply<seq<Log>>>, p: Progress, reply: Reply<seq<Log>>)
    requires Sorted(chain) && Fetched(chain, plan, answers, p) && p.ranges != [] && p.buffer == []
    requires p.ranges[0].lo <= p.ranges[0].hi && Complete(reply, p.ranges[0], chain)
    ensures match FetchLogs(reply, p.cursor)
      case Ok(logs) => Fetched(chain, plan, answers + [reply], WithoutRange(p).(buffer := logs))
      case Err(error) =>
        Fetched(chain, plan, answers + [reply], WithoutRange(p).(buffer := [], out := p.out + [Err(error)]))
  {
    BackfillItemsAppend(answers, reply, p.cursor);
    AnswersAppend(answers, plan, chain, reply);
    assert p.out + OkItems([]) == p.out;
    assert p.out + [] == p.out;
    assert plan[|answers|..][1..] == plan[|answers| + 1..];
    match FetchLogs(reply, p.cursor) {
      case Ok(_) =>
      case Err(error) => assert p.out + [Err(error)] + OkItems([]) == p.out + [Err(error)];
    }
  }

  lemma FetchedYield(chain: seq<Log>, plan: seq<BlockRange>, answers: seq<Reply<seq<Log>>>, p: Progress)
    requires Sorted(chain) && Fetched(chain, plan, answers, p) && p.buffer != []
    ensures Fetched(chain, plan, answers, p.(buffer := p.buffer[1..], out := p.out + [Ok(p.buffer[0])]))
  {
    assert OkItems(p.buffer) == [Ok(p.buffer[0])] + OkItems(p.buffer[1..]);
    assert p.out + OkItems(p.buffer) == (p.out + [Ok(p.buffer[0])]) + OkItems(p.buffer[1..]);
  }

  ghost predicate Backfills(s: State) {
    s.client.stage.Streaming? && s.client.stage.upTo.Some?
  }

  /** All the ranges of the backfill, requested or not. */
  function Plan(c: Client): seq<BlockRange>
    requires c.stage.Streaming? && c.stage.upTo.Some? && c.cfg.Valid()
  {
    BlockRanges(c.cursor.block, c.stage.upTo.value, c.cfg.chunkSize)
  }

  ghost predicate FetchedOk(s: State) {
    EnvOk(s.env) && s.client.cfg.Valid()
    && (Backfills(s) ==> Fetched(s.env.chain, Plan(s.client), s.client.answers, ProgressOf(s)))
  }

  lemma NewBlockKeepsFetched(s: State, e: Event)
    requires Inv(s) && FetchedOk(s) && Enabled(s, e) && e.NewBlock? && Backfills(s)
    ensures FetchedOk(Next(s, e))
  {
    var c := s.client;
    var done := Plan(c)[..|c.answers|];
    EnvStep(s, e);
    NewBlockKeepsRing(s, e);
    BlockRangesAdjacent(c.cursor.block, c.stage.upTo.value, c.cfg.chunkSize);
    AdjacentBounds(Plan(c), c.cursor.block, c.stage.upTo.value);
    AnswersGrow(c.answers, done, s.env.chain, e.logs, s.env.head);
    assert ProgressOf(Next(s, e)) == ProgressOf(s);
  }

  lemma FetchKeepsFetched(s: State, e: Event)
    requires Inv(s) && FetchedOk(s) && Enabled(s, e) && e.Fetch?
    ensures FetchedOk(Next(s, e))
  {
    var p, fetched := ProgressOf(s), FetchLogs(e.logs', s.client.cursor);
    FetchEffect(s, e, fetched);
    WithoutRangePlan(p);
    FetchedFetch(s.env.chain, Plan(s.client), s.client.answers, p, e.logs');
    assert Next(s, e).client.answers == s.client.answers + [e.logs'];
  }

  lemma YieldKeepsFetched(s: State, e: Event)
    requires Inv(s) && FetchedOk(s) && Enabled(s, e) && e.Yield?
    ensures FetchedOk(Next(s, e))
  {
    YieldEffect(s, e);
    FetchedYield(s.env.chain, Plan(s.client), s.client.answers, ProgressOf(s));
  }

  lemma OpensFetched(s: State, e: Event)
    requires Inv(s) && Enabled(s, e) && !Backfills(s) && Backfills(Next(s, e))
    ensures FetchedOk(Next(s, e))
  {
    BackfillOpensEffect(s, e);
    var p := ProgressOf(Next(s, e));
    assert BackfillItems([], p.cursor) == [];
    assert p.out + OkItems(p.buffer) == [];
  }

  lemma FetchedStep(s: State, e: Event)
    requires Inv(s) && FetchedOk(s) && Enabled(s, e)
    ensures FetchedOk(Next(s, e))
  {
    EnvStep(s, e);
    if !Backfills(s) {
      if Backfills(Next(s, e)) {
        OpensFetched(s, e);
      }
    } else if e.NewBlock? {
      NewBlockKeepsFetched(s, e);
    } else if e.Fetch? {
      FetchKeepsFetched(s, e);
    } else if e.Yield? {
      YieldKeepsFetched(s, e);
    }
  }

  lemma {:induction false} FetchedRun(s: State, events: seq<Event>)
    requires Inv(s) && FetchedOk(s) && Legal(s, events)
    ensures FetchedOk(Run(s, events))
    decreases |events|
  {
    if events != [] {
      InvStep(s, events[0]);
      FetchedStep(s, events[0]);
      FetchedRun(Next(s, events[0]), events[1..]);
    }
  }

  /** Lazy is eager: in every interleaving, the requests sent so far are the first ranges of the
      partition, every answer is complete for its range, and the stream has put out what
      `BackfillItems` makes of the answers, up to the logs still in the buffer. */
  lemma LazyIsEager(s: State)
    requires Reachable(s) && Backfills(s)
    ensures EnvOk(s.env) && s.client.cfg.Valid()
    ensures Fetched(s.env.chain, Plan(s.client), s.client.answers, ProgressOf(s))
  {
    var env, cfg, cursor, events :| ReachedBy(s, env, cfg, cursor, events);
    InvInit(env, cfg, cursor);
    FetchedRun(State(env, Fresh(cfg, cursor)), events);
  }

  /** Once the backfill is through: what has come out begins with exactly one error for every
      chunk that failed and, in order, the logs after the cursor of every chunk that did not. */
  lemma BackfillErrorAccounting(s: State) returns (backfill: seq<Item>)
    requires Reachable(s) && Backfills(s) && s.client.stage.ranges == [] && s.client.stage.buffer == []
    ensures EnvOk(s.env) && s.client.cfg.Valid()
    ensures Answers(s.client.answers, Plan(s.client), s.env.chain)
    ensures backfill <= s.client.out
    ensures ErrorCount(backfill) == FailedChunks(s.client.answers)
    ensures Errors(backfill) == Reasons(s.client.answers)
    ensures Delivered(backfill) == Surviving(s.client.answers, Plan(s.client), s.env.chain, s.client.cursor)
  {
    LazyIsEager(s);
    var plan := Plan(s.client);
    assert |s.client.answers| == |plan| && plan[..|plan|] == plan;
    BackfillAccounting(s.client.answers, plan, s.env.chain, s.client.cursor);
    backfill := BackfillItems(s.client.answers, s.client.cursor);
    BackfillErrors(s.client.answers, s.client.cursor);
  }
}
