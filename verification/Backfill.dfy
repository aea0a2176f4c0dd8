/** Fetching history chunk by chunk: `fetch_logs`, `filter_block_index` and the flattened stream
    of chunks (nodes-common/src/web3/event_stream.rs). */
module Backfill {
  import opened Wrappers
  import opened ChainLogs
  import opened Chunks

  datatype StreamError =
    | Lagging
    | CannotFetchHead
    | SynchronizingHttpWsTimeout
    | BlockNumberMissing
    | IndexNumberMissing
    | TransportError(code: nat)

  /** What an RPC endpoint answers: a value or a transport error. */
  type Reply<+T> = Result<T, nat>

  /** One element of the event stream. */
  type Item = Result<Log, StreamError>

  function FilterBlockIndex(log: Log, cursor: ChainCursor): Result<bool, StreamError> {
    if log.blockNumber.None? then Err(BlockNumberMissing)
    else if log.logIndex.None? then Err(IndexNumberMissing)
    else Ok(cursor.IsBefore(ChainCursor(log.blockNumber.value, log.logIndex.value)))
  }

  /** Filter and collect; the first malformed log fails the whole chunk. */
  function CollectAfter(logs: seq<Log>, cursor: ChainCursor): Result<seq<Log>, StreamError> {
    if logs == [] then Ok([])
    else
      match FilterBlockIndex(logs[0], cursor)
      case Err(e) => Err(e)
      case Ok(keep) =>
        match CollectAfter(logs[1..], cursor)
        case Err(e) => Err(e)
        case Ok(rest) => Ok(if keep then [logs[0]] + rest else rest)
  }

  function FetchLogs(reply: Reply<seq<Log>>, cursor: ChainCursor): Result<seq<Log>, StreamError> {
    match reply
    case Err(code) => Err(TransportError(code))
    case Ok(logs) => CollectAfter(logs, cursor)
  }

  lemma {:induction false} AfterCons(first: Log, rest: seq<Log>, cursor: ChainCursor)
    requires Mined(first) && AllMined(rest)
    ensures After([first] + rest, cursor)
         == (if cursor.IsBefore(At(first)) then [first] else []) + After(rest, cursor)
  {
    var all := [first] + rest;
    if rest == [] {
      assert all[..0] == [];
    } else {
      var last := |rest| - 1;
      assert all[..|all| - 1] == [first] + rest[..last];
      AfterCons(first, rest[..last], cursor);
    }
  }

  /** Well-formed logs are filtered by the cursor. */
  lemma {:induction false} CollectAfterKeeps(logs: seq<Log>, cursor: ChainCursor)
    requires AllMined(logs)
    ensures CollectAfter(logs, cursor) == Ok(After(logs, cursor))
  {
    if logs != [] {
      var first, rest := logs[0], logs[1..];
      assert logs == [first] + rest;
      CollectAfterKeeps(rest, cursor);
      AfterCons(first, rest, cursor);
      assert [] + After(rest, cursor) == After(rest, cursor);
    }
  }

  /** The first malformed log decides the error, a missing block number before a missing index. */
  lemma {:induction false} CollectAfterFails(logs: seq<Log>, k: nat, cursor: ChainCursor)
    requires k < |logs| && AllMined(logs[..k]) && !Mined(logs[k])
    ensures CollectAfter(logs, cursor)
         == Err(if logs[k].blockNumber.None? then BlockNumberMissing else IndexNumberMissing)
  {
    if k > 0 {
      assert Mined(logs[..k][0]);
      assert logs[1..][..k - 1] == logs[..k][1..];
      CollectAfterFails(logs[1..], k - 1, cursor);
    }
  }

  lemma {:induction false} FirstMalformed(logs: seq<Log>) returns (k: nat)
    requires !AllMined(logs)
    ensures k < |logs| && AllMined(logs[..k]) && !Mined(logs[k])
  {
    if Mined(logs[0]) {
      assert logs == [logs[0]] + logs[1..];
      k := FirstMalformed(logs[1..]);
      assert logs[..k + 1] == [logs[0]] + logs[1..][..k];
      k := k + 1;
    } else {
      k := 0;
    }
  }

  /** The matching logs of the blocks in `range`. */
  ghost function InRange(chain: seq<Log>, range: BlockRange): (logs: seq<Log>)
    requires Sorted(chain) && range.lo <= range.hi
    ensures AllMined(logs)
  {
    BelowOrdered(chain, range.lo, range.hi + 1);
    var from := Below(chain, range.lo);
    var logs := chain[from..Below(chain, range.hi + 1)];
    assert forall i :: 0 <= i < |logs| ==> logs[i] == chain[from + i];
    logs
  }

  /** A complete, sorted `eth_getLogs` answer, in which single logs may be malformed. */
  ghost predicate Serves(served: seq<Log>, logs: seq<Log>) {
    |served| == |logs| && forall i :: 0 <= i < |logs| ==> served[i] == logs[i] || !Mined(served[i])
  }

  ghost predicate Complete(reply: Reply<seq<Log>>, range: BlockRange, chain: seq<Log>)
    requires Sorted(chain) && range.lo <= range.hi
  {
    reply.Ok? ==> Serves(reply.value, InRange(chain, range))
  }

  /** A chunk that arrives is exactly the chain's logs of its range after the cursor. */
  lemma FetchLogsExact(reply: Reply<seq<Log>>, range: BlockRange, chain: seq<Log>, cursor: ChainCursor)
    requires Sorted(chain) && range.lo <= range.hi && Complete(reply, range, chain)
    ensures FetchLogs(reply, cursor).Ok? <==> reply.Ok? && AllMined(reply.value)
    ensures reply.Err? ==> FetchLogs(reply, cursor) == Err(TransportError(reply.error))
    ensures reply.Ok? && FetchLogs(reply, cursor).Err? ==>
              FetchLogs(reply, cursor).error in {BlockNumberMissing, IndexNumberMissing}
    ensures FetchLogs(reply, cursor).Ok? ==>
              FetchLogs(reply, cursor).value == After(InRange(chain, range), cursor)
  {
    if reply.Ok? {
      if AllMined(reply.value) {
        assert reply.value == InRange(chain, range);
        CollectAfterKeeps(reply.value, cursor);
      } else {
        var k := FirstMalformed(reply.value);
        CollectAfterFails(reply.value, k, cursor);
      }
    }
  }

  // The flattened stream

  function OkItems(logs: seq<Log>): seq<Item> {
    seq(|logs|, i requires 0 <= i < |logs| => Ok(logs[i]))
  }

  /** Concatenates the chunks; a failed chunk is one error and the next chunk follows. */
  function TryFlatten(chunks: seq<Result<seq<Log>, StreamError>>): seq<Item> {
    if chunks == [] then []
    else (match chunks[0] case Ok(logs) => OkItems(logs) case Err(e) => [Err(e)]) + TryFlatten(chunks[1..])
  }

  /** The backfill half of the stream, for the answers the ranges get one after the other. */
  function BackfillItems(replies: seq<Reply<seq<Log>>>, cursor: ChainCursor): seq<Item> {
    TryFlatten(seq(|replies|, i requires 0 <= i < |replies| => FetchLogs(replies[i], cursor)))
  }

  function LogOf(item: Item): seq<Log> {
    if item.Ok? then [item.value] else []
  }

  /** The logs a stream delivers. */
  function Delivered(items: seq<Item>): seq<Log> {
    if items == [] then [] else LogOf(items[0]) + Delivered(items[1..])
  }

  function ErrorCount(items: seq<Item>): nat {
    if items == [] then 0 else (if items[0].Err? then 1 else 0) + ErrorCount(items[1..])
  }

  /** The errors a stream yields, in order. */
  function Errors(items: seq<Item>): seq<StreamError> {
    if items == [] then [] else (if items[0].Err? then [items[0].error] else []) + Errors(items[1..])
  }

  /** Why a chunk fails: the request, or else the first log that is malformed. */
  ghost function Reason(reply: Reply<seq<Log>>): seq<StreamError> {
    match reply
    case Err(code) => [TransportError(code)]
    case Ok(logs) => FirstReason(logs)
  }

  ghost function FirstReason(logs: seq<Log>): seq<StreamError> {
    if logs == [] then []
    else if logs[0].blockNumber == None then [BlockNumberMissing]
    else if logs[0].logIndex == None then [IndexNumberMissing]
    else FirstReason(logs[1..])
  }

  ghost function Reasons(replies: seq<Reply<seq<Log>>>): seq<StreamError> {
    if replies == [] then [] else Reason(replies[0]) + Reasons(replies[1..])
  }

  lemma {:induction false} ErrorsConcat(a: seq<Item>, b: seq<Item>)
    ensures Errors(a + b) == Errors(a) + Errors(b)
  {
    if a == [] {
      assert a + b == b;
    } else {
      ErrorsConcat(a[1..], b);
      assert (a + b)[0] == a[0] && (a + b)[1..] == a[1..] + b;
      ConcatAssociative(if a[0].Err? then [a[0].error] else [], Errors(a[1..]), Errors(b));
    }
  }

  lemma {:induction false} ErrorsOfOkItems(logs: seq<Log>)
    ensures Errors(OkItems(logs)) == []
  {
    if logs != [] {
      ErrorsOfOkItems(logs[1..]);
      assert OkItems(logs)[1..] == OkItems(logs[1..]);
    }
  }

  lemma {:induction false} CollectReason(logs: seq<Log>, cursor: ChainCursor)
    ensures var r := CollectAfter(logs, cursor);
      FirstReason(logs) == if r.Ok? then [] else [r.error]
  {
    if logs != [] {
      CollectReason(logs[1..], cursor);
    }
  }

  /** The errors of the backfill are the reasons of the failed chunks, in order: the code of the request
      that failed, or what the first malformed log lacks. */
  lemma {:induction false} BackfillErrors(replies: seq<Reply<seq<Log>>>, cursor: ChainCursor)
    ensures Errors(BackfillItems(replies, cursor)) == Reasons(replies)
    decreases |replies|
  {
    if replies != [] {
      var fetched := FetchLogs(replies[0], cursor);
      var first: seq<Item> := match fetched case Ok(logs) => OkItems(logs) case Err(e) => [Err(e)];
      BackfillItemsUnfold(replies, cursor);
      BackfillErrors(replies[1..], cursor);
      ErrorsConcat(first, BackfillItems(replies[1..], cursor));
      if replies[0].Ok? {
        CollectReason(replies[0].value, cursor);
      }
      if fetched.Ok? {
        ErrorsOfOkItems(fetched.value);
      }
    }
  }

  lemma {:induction false} DeliveredConcat(a: seq<Item>, b: seq<Item>)
    ensures Delivered(a + b) == Delivered(a) + Delivered(b)
  {
    if a == [] {
      assert a + b == b;
    } else {
      DeliveredConcat(a[1..], b);
      assert (a + b)[0] == a[0] && (a + b)[1..] == a[1..] + b;
      ConcatAssociative(LogOf(a[0]), Delivered(a[1..]), Delivered(b));
    }
  }

  lemma {:induction false} ErrorCountConcat(a: seq<Item>, b: seq<Item>)
    ensures ErrorCount(a + b) == ErrorCount(a) + ErrorCount(b)
  {
    if a == [] {
      assert a + b == b;
    } else {
      ErrorCountConcat(a[1..], b);
      assert (a + b)[1..] == a[1..] + b;
    }
  }

  lemma {:induction false} DeliveredOkItems(logs: seq<Log>)
    ensures Delivered(OkItems(logs)) == logs && ErrorCount(OkItems(logs)) == 0
  {
    if logs != [] {
      DeliveredOkItems(logs[1..]);
      assert OkItems(logs)[1..] == OkItems(logs[1..]);
    }
  }

  ghost predicate Answers(replies: seq<Reply<seq<Log>>>, ranges: seq<BlockRange>, chain: seq<Log>)
    requires Sorted(chain)
  {
    |replies| == |ranges|
    && forall i :: 0 <= i < |ranges| ==> ranges[i].lo <= ranges[i].hi && Complete(replies[i], ranges[i], chain)
  }

  /** How many chunks fail: by a transport error or by a malformed log. */
  ghost function FailedChunks(replies: seq<Reply<seq<Log>>>): nat {
    if replies == [] then 0
    else (if replies[0].Ok? && AllMined(replies[0].value) then 0 else 1) + FailedChunks(replies[1..])
  }

  /** The chain without the chunks that fail, after the cursor. */
  ghost function Surviving(
    replies: seq<Reply<seq<Log>>>, ranges: seq<BlockRange>, chain: seq<Log>, cursor: ChainCursor): seq<Log>
    requires Sorted(chain) && Answers(replies, ranges, chain)
    decreases |replies|
  {
    if replies == [] then []
    else
      (if replies[0].Ok? && AllMined(replies[0].value) then After(InRange(chain, ranges[0]), cursor) else [])
      + Surviving(replies[1..], ranges[1..], chain, cursor)
  }

  lemma BackfillItemsUnfold(replies: seq<Reply<seq<Log>>>, cursor: ChainCursor)
    requires replies != []
    ensures BackfillItems(replies, cursor)
         == (match FetchLogs(replies[0], cursor) case Ok(logs) => OkItems(logs) case Err(e) => [Err(e)])
            + BackfillItems(replies[1..], cursor)
  {
    var chunks := seq(|replies|, i requires 0 <= i < |replies| => FetchLogs(replies[i], cursor));
    assert chunks[1..]
        == seq(|replies[1..]|, i requires 0 <= i < |replies[1..]| => FetchLogs(replies[1..][i], cursor));
  }

  /** Error accounting: each failed chunk is exactly one error and none of its logs; what is
      delivered is the canonical backfill minus the failed chunks, in order. */
  lemma {:induction false} BackfillAccounting(
    replies: seq<Reply<seq<Log>>>, ranges: seq<BlockRange>, chain: seq<Log>, cursor: ChainCursor)
    requires Sorted(chain) && Answers(replies, ranges, chain)
    ensures Delivered(BackfillItems(replies, cursor)) == Surviving(replies, ranges, chain, cursor)
    ensures ErrorCount(BackfillItems(replies, cursor)) == FailedChunks(replies)
    decreases |replies|
  {
    if replies != [] {
      BackfillItemsUnfold(replies, cursor);
      FetchLogsExact(replies[0], ranges[0], chain, cursor);
      BackfillAccounting(replies[1..], ranges[1..], chain, cursor);
      var first: seq<Item> :=
        match FetchLogs(replies[0], cursor) case Ok(logs) => OkItems(logs) case Err(e) => [Err(e)];
      DeliveredConcat(first, BackfillItems(replies[1..], cursor));
      ErrorCountConcat(first, BackfillItems(replies[1..], cursor));
      if FetchLogs(replies[0], cursor).Ok? {
        DeliveredOkItems(FetchLogs(replies[0], cursor).value);
      }
    }
  }

  lemma {:induction false} AfterAppend(a: seq<Log>, b: seq<Log>, cursor: ChainCursor)
    requires AllMined(a) && AllMined(b)
    ensures AllMined(a + b) && After(a + b, cursor) == After(a, cursor) + After(b, cursor)
  {
    assert AllMined(a + b);
    if b == [] {
      assert a + b == a;
    } else {
      var last := |b| - 1;
      AfterAppend(a, b[..last], cursor);
      assert (a + b)[..|a + b| - 1] == a + b[..last];
    }
  }

  lemma InRangeSplit(chain: seq<Log>, range: BlockRange, end: u64)
    requires Sorted(chain) && range.lo <= range.hi < end
    ensures InRange(chain, BlockRange(range.lo, end))
         == InRange(chain, range) + InRange(chain, BlockRange(range.hi + 1, end))
  {
    BelowOrdered(chain, range.lo, range.hi + 1);
    BelowOrdered(chain, range.hi + 1, end + 1);
  }

  lemma AnswersTail(replies: seq<Reply<seq<Log>>>, ranges: seq<BlockRange>, chain: seq<Log>)
    requires Sorted(chain) && Answers(replies, ranges, chain) && replies != []
    ensures Answers(replies[1..], ranges[1..], chain)
  {
    assert forall i :: 0 <= i < |ranges[1..]| ==> ranges[1..][i] == ranges[i + 1] && replies[1..][i] == replies[i + 1];
  }

  lemma SurvivingUnfold(
    replies: seq<Reply<seq<Log>>>, ranges: seq<BlockRange>, chain: seq<Log>, cursor: ChainCursor)
    requires Sorted(chain) && Answers(replies, ranges, chain) && replies != []
    requires FailedChunks(replies) == 0
    ensures Answers(replies[1..], ranges[1..], chain) && FailedChunks(replies[1..]) == 0
    ensures Surviving(replies, ranges, chain, cursor)
         == After(InRange(chain, ranges[0]), cursor) + Surviving(replies[1..], ranges[1..], chain, cursor)
  {
    AnswersTail(replies, ranges, chain);
  }

  /** The canonical backfill of an interval: one `eth_getLogs` for all its blocks, filtered. */
  ghost function WholeBackfill(chain: seq<Log>, start: nat, end: u64, cursor: ChainCursor): seq<Log>
    requires Sorted(chain)
  {
    if start > end then [] else After(InRange(chain, BlockRange(start, end)), cursor)
  }

  lemma WholeBackfillSplit(chain: seq<Log>, range: BlockRange, end: u64, cursor: ChainCursor)
    requires Sorted(chain) && range.lo <= range.hi <= end
    ensures WholeBackfill(chain, range.lo, end, cursor)
         == After(InRange(chain, range), cursor) + WholeBackfill(chain, range.hi + 1, end, cursor)
  {
    if range.hi < end {
      InRangeSplit(chain, range, end);
      AfterAppend(InRange(chain, range), InRange(chain, BlockRange(range.hi + 1, end)), cursor);
    }
  }

  lemma SurvivingStep(
    replies: seq<Reply<seq<Log>>>, ranges: seq<BlockRange>, end: u64, chain: seq<Log>, cursor: ChainCursor)
    requires Sorted(chain) && ranges != [] && ranges[0].lo <= ranges[0].hi <= end
    requires Answers(replies, ranges, chain) && FailedChunks(replies) == 0
    requires Answers(replies[1..], ranges[1..], chain)
    requires Surviving(replies[1..], ranges[1..], chain, cursor) == WholeBackfill(chain, ranges[0].hi + 1, end, cursor)
    ensures Surviving(replies, ranges, chain, cursor) == WholeBackfill(chain, ranges[0].lo, end, cursor)
  {
    SurvivingUnfold(replies, ranges, chain, cursor);
    WholeBackfillSplit(chain, ranges[0], end, cursor);
  }

  /** Without failures what survives is what one request for the whole interval returns. */
  lemma {:induction false} SurvivingWhole(
    replies: seq<Reply<seq<Log>>>, ranges: seq<BlockRange>, start: nat, end: u64,
    chain: seq<Log>, cursor: ChainCursor)
    requires Sorted(chain) && Adjacent(ranges, start, end)
    requires Answers(replies, ranges, chain) && FailedChunks(replies) == 0
    ensures Surviving(replies, ranges, chain, cursor) == WholeBackfill(chain, start, end, cursor)
    decreases |ranges|
  {
    if ranges != [] {
      AdjacentHead(ranges, start, end);
      SurvivingUnfold(replies, ranges, chain, cursor);
      SurvivingWhole(replies[1..], ranges[1..], ranges[0].hi + 1, end, chain, cursor);
      SurvivingStep(replies, ranges, end, chain, cursor);
    }
  }

  lemma {:induction false} NoErrorsAllDelivered(items: seq<Item>)
    requires ErrorCount(items) == 0
    ensures items == OkItems(Delivered(items))
  {
    if items != [] {
      NoErrorsAllDelivered(items[1..]);
    }
  }

  /** Without failures the chunks add up to one `eth_getLogs` over the whole interval. */
  lemma ChunksAddUp(
    replies: seq<Reply<seq<Log>>>, end: u64, chunkSize: u64, chain: seq<Log>, cursor: ChainCursor)
    requires Sorted(chain) && chunkSize > 0
    requires Answers(replies, BlockRanges(cursor.block, end, chunkSize), chain)
    requires FailedChunks(replies) == 0
    ensures BackfillItems(replies, cursor) == OkItems(WholeBackfill(chain, cursor.block, end, cursor))
  {
    var ranges := BlockRanges(cursor.block, end, chunkSize);
    BackfillAccounting(replies, ranges, chain, cursor);
    BlockRangesAdjacent(cursor.block, end, chunkSize);
    SurvivingWhole(replies, ranges, cursor.block, end, chain, cursor);
    NoErrorsAllDelivered(BackfillItems(replies, cursor));
  }

  /** Chunk independence: any two chunk sizes give the same stream of logs. */
  lemma ChunkIndependence(
    replies1: seq<Reply<seq<Log>>>, chunkSize1: u64, replies2: seq<Reply<seq<Log>>>, chunkSize2: u64,
    end: u64, chain: seq<Log>, cursor: ChainCursor)
    requires Sorted(chain) && chunkSize1 > 0 && chunkSize2 > 0
    requires Answers(replies1, BlockRanges(cursor.block, end, chunkSize1), chain) && FailedChunks(replies1) == 0
    requires Answers(replies2, BlockRanges(cursor.block, end, chunkSize2), chain) && FailedChunks(replies2) == 0
    ensures BackfillItems(replies1, cursor) == BackfillItems(replies2, cursor)
  {
    ChunksAddUp(replies1, end, chunkSize1, chain, cursor);
    ChunksAddUp(replies2, end, chunkSize2, chain, cursor);
  }
}
