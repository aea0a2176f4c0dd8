/** Splitting the backfill interval into chunks (`block_ranges` in
    nodes-common/src/web3/event_stream.rs), in 64-bit arithmetic. */
module Chunks {
  import opened Wrappers
  import opened ChainLogs

  /** An inclusive range of block numbers. */
  datatype BlockRange = BlockRange(lo: u64, hi: u64)

  function SaturatingAdd(a: u64, b: u64): u64 {
    if a + b <= U64_MAX then a + b else U64_MAX
  }

  function ChunkFrom(from: u64, end: u64, chunkSize: u64): BlockRange
    requires chunkSize > 0
  {
    BlockRange(from, Min(SaturatingAdd(from, chunkSize - 1), end))
  }

  /** Steps through start..=end and maps every step to its chunk. Like the iterator it models,
      it never computes the step that would leave the interval. */
  function BlockRanges(start: u64, end: u64, chunkSize: u64): seq<BlockRange>
    requires chunkSize > 0
    decreases if start <= end then end - start + 1 else 0
  {
    if start > end then []
    else if end - start < chunkSize then [ChunkFrom(start, end, chunkSize)]
    else [ChunkFrom(start, end, chunkSize)] + BlockRanges(start + chunkSize, end, chunkSize)
  }

  /** `ranges` cuts start..=end into non-empty adjacent pieces of `chunkSize` blocks, of which
      only the last may be shorter. */
  ghost predicate Partition(ranges: seq<BlockRange>, start: u64, end: u64, chunkSize: u64) {
    && (ranges == [] <==> start > end)
    && (ranges != [] ==> ranges[0].lo == start && ranges[|ranges| - 1].hi == end)
    && (forall i :: 0 <= i < |ranges| ==> ranges[i].lo <= ranges[i].hi)
    && (forall i, j :: 0 <= i < j < |ranges| && j == i + 1 ==>
          ranges[j].lo == ranges[i].hi + 1 && ranges[i].hi - ranges[i].lo + 1 == chunkSize)
    && (ranges != [] ==> ranges[|ranges| - 1].hi - ranges[|ranges| - 1].lo + 1 <= chunkSize)
  }

  /** The same without the chunk size, range by range: `ranges` covers start..=end. */
  ghost predicate Adjacent(ranges: seq<BlockRange>, start: nat, end: nat) {
    if ranges == [] then start > end
    else
      && ranges[0].lo == start <= ranges[0].hi <= end
      && Adjacent(ranges[1..], ranges[0].hi + 1, end)
  }

  lemma AdjacentHead(ranges: seq<BlockRange>, start: nat, end: nat)
    requires Adjacent(ranges, start, end)
    ensures ranges != [] ==> ranges[0].lo == start <= ranges[0].hi <= end
    ensures ranges != [] ==> Adjacent(ranges[1..], ranges[0].hi + 1, end)
    ensures ranges == [] ==> start > end
  {
  }

  lemma {:induction false} AdjacentBounds(ranges: seq<BlockRange>, start: nat, end: nat)
    requires Adjacent(ranges, start, end)
    ensures forall i :: 0 <= i < |ranges| ==> ranges[i].lo <= ranges[i].hi <= end
  {
    if ranges != [] {
      AdjacentBounds(ranges[1..], ranges[0].hi + 1, end);
      assert forall i :: 0 < i < |ranges| ==> ranges[i] == ranges[1..][i - 1];
    }
  }

  /** The block numbers from `lo` to `hi`, in order. */
  ghost function Blocks(lo: int, hi: int): seq<int> {
    seq(Max(0, hi - lo + 1), i => lo + i)
  }

  ghost function AllBlocks(ranges: seq<BlockRange>): seq<int> {
    if ranges == [] then [] else Blocks(ranges[0].lo, ranges[0].hi) + AllBlocks(ranges[1..])
  }

  lemma PartitionCons(first: BlockRange, rest: seq<BlockRange>, end: u64, chunkSize: u64)
    requires first.lo <= first.hi < end && first.hi - first.lo + 1 == chunkSize
    requires Partition(rest, first.hi + 1, end, chunkSize)
    ensures Partition([first] + rest, first.lo, end, chunkSize)
  {
    var all := [first] + rest;
    forall i, j | 0 <= i < j < |all| && j == i + 1
      ensures all[j].lo == all[i].hi + 1 && all[i].hi - all[i].lo + 1 == chunkSize
    {
      assert all[j] == rest[j - 1];
      if i > 0 { assert all[i] == rest[i - 1]; }
    }
  }

  /** For every interval and chunk size, u64::MAX included: an exact partition. */
  lemma {:induction false} BlockRangesPartition(start: u64, end: u64, chunkSize: u64)
    requires chunkSize > 0
    ensures Partition(BlockRanges(start, end, chunkSize), start, end, chunkSize)
    decreases if start <= end then end - start + 1 else 0
  {
    if start <= end && end - start >= chunkSize {
      BlockRangesPartition(start + chunkSize, end, chunkSize);
      PartitionCons(ChunkFrom(start, end, chunkSize), BlockRanges(start + chunkSize, end, chunkSize), end, chunkSize);
    }
  }

  lemma {:induction false} BlockRangesAdjacent(start: u64, end: u64, chunkSize: u64)
    requires chunkSize > 0
    ensures Adjacent(BlockRanges(start, end, chunkSize), start, end)
    decreases if start <= end then end - start + 1 else 0
  {
    if start <= end && end - start >= chunkSize {
      BlockRangesAdjacent(start + chunkSize, end, chunkSize);
    }
  }

  /** Read one after the other, the ranges enumerate start..=end: no block twice, none left out. */
  lemma {:induction false} BlockRangesEnumerate(start: u64, end: u64, chunkSize: u64)
    requires chunkSize > 0
    ensures AllBlocks(BlockRanges(start, end, chunkSize)) == Blocks(start, end)
    decreases if start <= end then end - start + 1 else 0
  {
    if start <= end && end - start >= chunkSize {
      BlockRangesEnumerate(start + chunkSize, end, chunkSize);
      assert Blocks(start, start + chunkSize - 1) + Blocks(start + chunkSize, end) == Blocks(start, end);
    }
  }

  /** The number of requests is the number of blocks divided by the chunk size, rounded up. */
  lemma {:induction false} BlockRangesCount(start: u64, end: u64, chunkSize: u64)
    requires chunkSize > 0
    ensures var n := |BlockRanges(start, end, chunkSize)|;
      if start > end then n == 0 else (n - 1) * chunkSize < end - start + 1 <= n * chunkSize
    decreases if start <= end then end - start + 1 else 0
  {
    if start <= end && end - start >= chunkSize {
      BlockRangesCount(start + chunkSize, end, chunkSize);
      var m := |BlockRanges(start + chunkSize, end, chunkSize)|;
      assert (m + 1) * chunkSize == m * chunkSize + chunkSize;
      assert (m - 1) * chunkSize == m * chunkSize - chunkSize;
    }
  }
}
