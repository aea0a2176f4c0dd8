/** How far a stream has come in the chain, and why what it has put out accounts for exactly
    that part of the chain. */
module Tracking {
  import opened Wrappers
  import opened ChainLogs
  import opened Chunks
  import opened Backfill
  import opened Broadcast

  /** `out` accounts for the logs `lo` to `hi` of the chain: an Ok is the next log, an Err may
      stand for any number of logs, and nothing else is passed over. */
  ghost predicate Accounts(out: seq<Item>, chain: seq<Log>, lo: nat, hi: nat) {
    exists marks :: Marked(out, marks, chain, lo, hi)
  }

  ghost predicate Marked(out: seq<Item>, marks: seq<nat>, chain: seq<Log>, lo: nat, hi: nat) {
    && |marks| == |out| + 1
    && marks[0] == lo
    && marks[|out|] == hi <= |chain|
    && forall j {:trigger out[j]} :: 0 <= j < |out| ==> ItemStep(out[j], marks[j], marks[j + 1], chain)
  }

  ghost predicate ItemStep(item: Item, from: nat, to: nat, chain: seq<Log>) {
    && from <= to <= |chain|
    && (item.Ok? ==> to == from + 1 && IsCopy(item.value, chain[from]))
  }

  lemma AccountsNothing(chain: seq<Log>, at: nat)
    requires at <= |chain|
    ensures Accounts([], chain, at, at)
  {
    assert Marked([], [at], chain, at, at);
  }

  lemma AccountsItem(out: seq<Item>, chain: seq<Log>, lo: nat, hi: nat, item: Item, hi': nat)
    requires Accounts(out, chain, lo, hi) && ItemStep(item, hi, hi', chain)
    ensures Accounts(out + [item], chain, lo, hi')
  {
    var marks :| Marked(out, marks, chain, lo, hi);
    assert Marked(out + [item], marks + [hi'], chain, lo, hi');
  }

  lemma AccountsGrows(out: seq<Item>, chain: seq<Log>, more: seq<Log>, lo: nat, hi: nat)
    requires Accounts(out, chain, lo, hi)
    ensures Accounts(out, chain + more, lo, hi)
  {
    var marks :| Marked(out, marks, chain, lo, hi);
    assert Marked(out, marks, chain + more, lo, hi);
  }

  /** A stream with what it still has to do: the ranges to request, the fetched logs to yield,
      the number `next` of the subscription's logs that comes next, the first of which is the
      log `firstLive` of the chain. */
  datatype Progress = Progress(
    cursor: ChainCursor,
    upTo: Option<u64>,
    ranges: seq<BlockRange>,
    buffer: seq<Log>,
    firstLive: nat,
    next: nat,
    out: seq<Item>)
  {
    predicate Backfilling() {
      ranges != [] || buffer != []
    }

    /** The first block that has not been requested. */
    function NextBlock(): nat
      requires upTo.Some?
    {
      if ranges == [] then upTo.value + 1 else ranges[0].lo
    }
  }

  /** Where in the chain the stream starts: after the cursor, but never beyond the cutoff. */
  ghost function Start(chain: seq<Log>, p: Progress): nat
    requires Sorted(chain)
  {
    if p.upTo.None? then p.firstLive else Min(Rank(chain, p.cursor), Below(chain, p.upTo.value + 1))
  }

  /** Where in the chain the fetched part of the backfill ends. */
  ghost function Reach(chain: seq<Log>, p: Progress): nat
    requires Sorted(chain) && p.upTo.Some?
  {
    Max(Start(chain, p), Below(chain, p.NextBlock()))
  }

  /** The first log of the chain that the consumer has neither received nor been told is lost. */
  ghost function Frontier(chain: seq<Log>, p: Progress): int
    requires Sorted(chain)
  {
    if p.upTo.None? then p.firstLive + p.next
    else if p.Backfilling() then Reach(chain, p) - |p.buffer|
    else Max(Below(chain, p.upTo.value + 1), p.firstLive + p.next)
  }

  /** The open part of the backfill. */
  ghost predicate PlanOk(chain: seq<Log>, p: Progress)
    requires Sorted(chain) && p.upTo.Some?
  {
    && p.firstLive <= Below(chain, p.upTo.value + 1)
    && (p.ranges != [] ==> p.cursor.block <= p.ranges[0].lo)
    && Adjacent(p.ranges, p.NextBlock(), p.upTo.value)
    && |p.buffer| <= Reach(chain, p) <= |chain|
    && p.buffer == chain[Reach(chain, p) - |p.buffer|..Reach(chain, p)]
    && (p.Backfilling() ==> p.next == 0)
  }

  ghost predicate Tracks(chain: seq<Log>, p: Progress)
    requires Sorted(chain)
  {
    && p.firstLive + p.next <= |chain|
    && (if p.upTo.Some? then PlanOk(chain, p) else !p.Backfilling())
    && 0 <= Frontier(chain, p)
    && Accounts(p.out, chain, Start(chain, p), Frontier(chain, p))
    && (p.upTo.Some? ==> forall j :: 0 <= j < |p.out| && p.out[j].Ok? ==> p.out[j].value.blockNumber.Some?)
  }

  // What keeps it

  lemma StartGrows(chain: seq<Log>, more: seq<Log>, head: nat, p: Progress)
    requires Sorted(chain) && Sorted(chain + more)
    requires forall i :: 0 <= i < |more| ==> Mined(more[i]) && At(more[i]).block > head
    requires p.upTo.Some? ==> p.upTo.value <= head
    ensures Start(chain + more, p) == Start(chain, p)
  {
    if p.upTo.Some? {
      var past: nat := p.upTo.value + 1;
      BelowAppend(chain, more, head, past);
      if p.cursor.block <= head {
        RankAppend(chain, more, head, p.cursor);
      } else {
        BelowRank(chain, p.cursor, past);
        BelowRank(chain + more, p.cursor, past);
      }
    }
  }

  lemma SliceOfPrefix<T>(a: seq<T>, b: seq<T>, lo: nat, hi: nat)
    requires lo <= hi <= |a|
    ensures (a + b)[lo..hi] == a[lo..hi]
  {
  }

  lemma PlanGrows(chain: seq<Log>, more: seq<Log>, head: nat, p: Progress)
    requires Sorted(chain) && Sorted(chain + more)
    requires forall i :: 0 <= i < |more| ==> Mined(more[i]) && At(more[i]).block > head
    requires p.upTo.Some? && p.upTo.value <= head && PlanOk(chain, p)
    ensures PlanOk(chain + more, p) && Frontier(chain + more, p) == Frontier(chain, p)
  {
    var next, past: nat := p.NextBlock(), p.upTo.value + 1;
    AdjacentHead(p.ranges, next, p.upTo.value);
    assert Reach(chain + more, p) == Reach(chain, p) by {
      StartGrows(chain, more, head, p);
      BelowAppend(chain, more, head, next);
    }
    BelowAppend(chain, more, head, past);
    SliceOfPrefix(chain, more, Reach(chain, p) - |p.buffer|, Reach(chain, p));
  }

  /** Later blocks do not touch it. */
  lemma TracksGrows(chain: seq<Log>, more: seq<Log>, head: nat, p: Progress)
    requires Sorted(chain) && Sorted(chain + more)
    requires forall i :: 0 <= i < |more| ==> Mined(more[i]) && At(more[i]).block > head
    requires p.upTo.Some? ==> p.upTo.value <= head
    requires Tracks(chain, p)
    ensures Tracks(chain + more, p)
  {
    if p.upTo.Some? {
      PlanGrows(chain, more, head, p);
    }
    StartGrows(chain, more, head, p);
    AccountsGrows(p.out, chain, more, Start(chain, p), Frontier(chain, p));
  }

  lemma TracksLiveOnly(chain: seq<Log>, cursor: ChainCursor, firstLive: nat)
    requires Sorted(chain) && firstLive <= |chain|
    ensures Tracks(chain, Progress(cursor, None, [], [], firstLive, 0, []))
  {
    AccountsNothing(chain, firstLive);
  }

  /** A stream whose backfill has not begun. */
  ghost predicate Unstarted(chain: seq<Log>, p: Progress, cutoff: u64, logsFrom: u64)
    requires Sorted(chain)
  {
    && p.upTo == Some(cutoff) && logsFrom <= cutoff
    && p.buffer == [] && p.next == 0 && p.out == []
    && p.firstLive == Below(chain, logsFrom + 1)
    && Adjacent(p.ranges, p.cursor.block, cutoff)
  }

  lemma UnstartedReach(chain: seq<Log>, p: Progress, cutoff: u64, logsFrom: u64)
    requires Sorted(chain) && Unstarted(chain, p, cutoff, logsFrom)
    ensures Reach(chain, p) == Start(chain, p)
    ensures !p.Backfilling() ==> Start(chain, p) == Below(chain, cutoff + 1)
  {
    AdjacentHead(p.ranges, p.cursor.block, cutoff);
    BelowRank(chain, p.cursor, cutoff + 1);
    BelowRank(chain, p.cursor, p.cursor.block);
    BelowOrdered(chain, Min(p.cursor.block, cutoff + 1), cutoff + 1);
  }

  lemma UnstartedTracks(chain: seq<Log>, p: Progress, cutoff: u64, logsFrom: u64)
    requires Sorted(chain) && Unstarted(chain, p, cutoff, logsFrom)
    ensures Tracks(chain, p)
  {
    AdjacentHead(p.ranges, p.cursor.block, cutoff);
    BelowOrdered(chain, logsFrom + 1, cutoff + 1);
    UnstartedReach(chain, p, cutoff, logsFrom);
    AccountsNothing(chain, Start(chain, p));
  }

  /** The part of a range after the cursor is a slice of the chain. */
  lemma InRangeAfter(chain: seq<Log>, range: BlockRange, cursor: ChainCursor)
    requires Sorted(chain) && range.lo <= range.hi
    ensures var r, a, b := Rank(chain, cursor), Below(chain, range.lo), Below(chain, range.hi + 1);
      Max(r, a) <= Max(r, b) <= |chain| && After(InRange(chain, range), cursor) == chain[Max(r, a)..Max(r, b)]
  {
    var r, a, b := Rank(chain, cursor), Below(chain, range.lo), Below(chain, range.hi + 1);
    BelowOrdered(chain, range.lo, range.hi + 1);
    AfterSlice(chain, a, b, cursor);
    assert r > b ==> chain[b..b] == chain[r..r];
  }

  /** A chunk that arrives is the piece of the chain between the two ends of its range, as far as
      it lies after the cursor. */
  lemma ChunkIsSlice(reply: Reply<seq<Log>>, range: BlockRange, chain: seq<Log>, cursor: ChainCursor)
    requires Sorted(chain) && range.lo <= range.hi && Complete(reply, range, chain)
    requires FetchLogs(reply, cursor).Ok?
    ensures var r, a, b := Rank(chain, cursor), Below(chain, range.lo), Below(chain, range.hi + 1);
      Max(r, a) <= Max(r, b) <= |chain| && FetchLogs(reply, cursor).value == chain[Max(r, a)..Max(r, b)]
  {
    FetchLogsExact(reply, range, chain, cursor);
    InRangeAfter(chain, range, cursor);
  }

  /** Taking the first range off the plan. */
  function WithoutRange(p: Progress): Progress
    requires p.ranges != []
  {
    p.(ranges := p.ranges[1..])
  }

  lemma WithoutRangePlan(p: Progress)
    requires p.upTo.Some? && Adjacent(p.ranges, p.NextBlock(), p.upTo.value) && p.ranges != []
    ensures var p' := WithoutRange(p);
      && p.ranges[0].lo <= p.ranges[0].hi <= p.upTo.value
      && Adjacent(p'.ranges, p'.NextBlock(), p'.upTo.value)
      && p'.NextBlock() == p.ranges[0].hi + 1
  {
    AdjacentHead(p.ranges, p.NextBlock(), p.upTo.value);
    AdjacentHead(p.ranges[1..], p.ranges[0].hi + 1, p.upTo.value);
  }

  lemma WithoutRangeMoves(chain: seq<Log>, p: Progress)
    requires Sorted(chain) && p.upTo.Some? && PlanOk(chain, p) && p.ranges != []
    ensures var p' := WithoutRange(p);
      && Start(chain, p') == Start(chain, p) == Rank(chain, p.cursor)
      && Reach(chain, p) <= Reach(chain, p') <= Below(chain, p.upTo.value + 1)
  {
    WithoutRangePlan(p);
    BelowOrdered(chain, p.ranges[0].lo, p.ranges[0].hi + 1);
    BelowOrdered(chain, p.ranges[0].hi + 1, p.upTo.value + 1);
    BelowRank(chain, p.cursor, p.upTo.value + 1);
  }

  lemma FetchedReach(chain: seq<Log>, p: Progress, reply: Reply<seq<Log>>)
    requires Sorted(chain) && p.upTo.Some? && PlanOk(chain, p) && p.ranges != []
    requires p.ranges[0].lo <= p.ranges[0].hi && Complete(reply, p.ranges[0], chain)
    requires FetchLogs(reply, p.cursor).Ok?
    ensures Reach(chain, p) <= Reach(chain, WithoutRange(p)) <= |chain|
    ensures FetchLogs(reply, p.cursor).value == chain[Reach(chain, p)..Reach(chain, WithoutRange(p))]
  {
    WithoutRangePlan(p);
    WithoutRangeMoves(chain, p);
    ChunkIsSlice(reply, p.ranges[0], chain, p.cursor);
  }

  /** A chunk arrives: it becomes the buffer. */
  lemma TracksFetched(chain: seq<Log>, p: Progress, reply: Reply<seq<Log>>)
    requires Sorted(chain) && Tracks(chain, p) && p.upTo.Some? && p.ranges != [] && p.buffer == []
    requires p.ranges[0].lo <= p.ranges[0].hi && Complete(reply, p.ranges[0], chain)
    requires FetchLogs(reply, p.cursor).Ok?
    ensures Tracks(chain, WithoutRange(p).(buffer := FetchLogs(reply, p.cursor).value))
  {
    var logs := FetchLogs(reply, p.cursor).value;
    FetchedReach(chain, p, reply);
    BufferFilled(chain, p, logs);
  }

  lemma BufferFilled(chain: seq<Log>, p: Progress, logs: seq<Log>)
    requires Sorted(chain) && Tracks(chain, p) && p.upTo.Some? && p.ranges != [] && p.buffer == []
    requires Reach(chain, p) <= Reach(chain, WithoutRange(p)) <= |chain|
    requires logs == chain[Reach(chain, p)..Reach(chain, WithoutRange(p))]
    ensures Tracks(chain, WithoutRange(p).(buffer := logs))
  {
    WithoutRangePlan(p);
    WithoutRangeMoves(chain, p);
    var p' := WithoutRange(p).(buffer := logs);
    assert Reach(chain, p') == Reach(chain, WithoutRange(p)) && Start(chain, p') == Start(chain, p);
    assert Frontier(chain, p') == Frontier(chain, p);
  }

  /** One more item, and the stream is at `hi'`. */
  lemma AccountsNext(chain: seq<Log>, p: Progress, p': Progress, item: Item)
    requires Sorted(chain) && Tracks(chain, p)
    requires p'.out == p.out + [item] && p'.upTo == p.upTo && Start(chain, p') == Start(chain, p)
    requires 0 <= Frontier(chain, p') && ItemStep(item, Frontier(chain, p), Frontier(chain, p'), chain)
    requires p.upTo.Some? && item.Ok? ==> item.value.blockNumber.Some?
    ensures Accounts(p'.out, chain, Start(chain, p'), Frontier(chain, p'))
    ensures p.upTo.Some? ==> forall j :: 0 <= j < |p'.out| && p'.out[j].Ok? ==> p'.out[j].value.blockNumber.Some?
  {
    AccountsItem(p.out, chain, Start(chain, p), Frontier(chain, p), item, Frontier(chain, p'));
  }

  /** A chunk fails: one error stands for all its logs. */
  lemma TracksFetchFailed(chain: seq<Log>, p: Progress, error: StreamError)
    requires Sorted(chain) && Tracks(chain, p) && p.upTo.Some? && p.ranges != [] && p.buffer == []
    ensures Tracks(chain, WithoutRange(p).(buffer := [], out := p.out + [Err(error)]))
  {
    WithoutRangePlan(p);
    WithoutRangeMoves(chain, p);
    AccountsNext(chain, p, WithoutRange(p).(buffer := [], out := p.out + [Err(error)]), Err(error));
  }

  /** A buffered log is yielded. */
  lemma TracksYield(chain: seq<Log>, p: Progress)
    requires Sorted(chain) && Tracks(chain, p) && p.upTo.Some? && p.buffer != []
    ensures Tracks(chain, p.(buffer := p.buffer[1..], out := p.out + [Ok(p.buffer[0])]))
  {
    var f := Frontier(chain, p);
    var p' := p.(buffer := p.buffer[1..], out := p.out + [Ok(p.buffer[0])]);
    assert p.buffer[0] == chain[f];
    assert Mined(chain[f]);
    assert Frontier(chain, p') == f + 1;
    AccountsNext(chain, p, p', Ok(p.buffer[0]));
  }

  /** A poll of the live subscription. `got` is what the ring answers, `next` where it stands
      afterwards. */
  ghost predicate LivePoll(chain: seq<Log>, p: Progress, got: Received, next: nat) {
    && !p.Backfilling()
    && p.firstLive + next <= |chain|
    && match got
       case Closed => next == p.next
       case Lagged => next > p.next
       case Value(log) => next == p.next + 1 && IsCopy(log, chain[p.firstLive + p.next])
  }

  lemma TracksLivePoll(chain: seq<Log>, p: Progress, got: Received, next: nat)
    requires Sorted(chain) && Tracks(chain, p) && LivePoll(chain, p, got, next)
    ensures Tracks(chain, p.(next := next, out := p.out + LiveItems(p.upTo, got)))
  {
    var items := LiveItems(p.upTo, got);
    var p' := p.(next := next, out := p.out + items);
    if items == [] {
      assert p'.out == p.out;
      if got.Value? {
        assert Mined(chain[p.firstLive + p.next]);
      }
      assert Frontier(chain, p') == Frontier(chain, p);
    } else {
      assert items == [items[0]];
      AccountsNext(chain, p, p', items[0]);
    }
  }

  /** A stream is never ahead of the WS head `head`. */
  lemma FrontierBelow(chain: seq<Log>, p: Progress, head: nat)
    requires Sorted(chain) && Tracks(chain, p) && p.upTo.Some? && p.upTo.value <= head
    requires p.firstLive + p.next <= Below(chain, head + 1)
    ensures Frontier(chain, p) <= Below(chain, head + 1)
  {
    var past: nat := p.upTo.value + 1;
    AdjacentHead(p.ranges, p.NextBlock(), p.upTo.value);
    BelowOrdered(chain, p.NextBlock(), past);
    BelowOrdered(chain, past, head + 1);
  }
}
