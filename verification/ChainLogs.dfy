/** Logs, cursors and the chain of matching logs
    (nodes-common/src/web3/event_stream.rs). */
module ChainLogs {
  import opened Wrappers

  const U64_MAX: nat := 0xFFFF_FFFF_FFFF_FFFF

  type u64 = n: nat | n <= U64_MAX

  /** The last processed position. The source derives its order field by field: the block
      first, then the index. */
  datatype ChainCursor = ChainCursor(block: u64, index: u64) {

    predicate IsGenesis() {
      block == 0 && index == 0
    }

    predicate IsBefore(other: ChainCursor) {
      block < other.block || (block == other.block && index < other.index)
    }
  }

  /** A log as an RPC endpoint serves it: block number and index may be missing. */
  datatype Log = Log(blockNumber: Option<u64>, logIndex: Option<u64>, data: nat)

  predicate Mined(log: Log) {
    log.blockNumber.Some? && log.logIndex.Some?
  }

  function At(log: Log): ChainCursor
    requires Mined(log)
  {
    ChainCursor(log.blockNumber.value, log.logIndex.value)
  }

  predicate AllMined(logs: seq<Log>) {
    forall i :: 0 <= i < |logs| ==> Mined(logs[i])
  }

  ghost predicate InOrder(chain: seq<Log>, i: nat, j: nat)
    requires AllMined(chain) && i < |chain| && j < |chain|
  {
    At(chain[i]).IsBefore(At(chain[j]))
  }

  /** What a chain without reorganisations looks like: positions are known and strictly increase. */
  ghost predicate Sorted(chain: seq<Log>) {
    AllMined(chain) && forall i, j :: 0 <= i < j < |chain| ==> InOrder(chain, i, j)
  }

  /** Appending logs of later blocks keeps a chain sorted. */
  lemma SortedConcat(chain: seq<Log>, more: seq<Log>, head: nat)
    requires Sorted(chain) && Sorted(more)
    requires forall i :: 0 <= i < |chain| ==> At(chain[i]).block <= head
    requires forall i :: 0 <= i < |more| ==> At(more[i]).block > head
    ensures Sorted(chain + more)
  {
    var all := chain + more;
    assert AllMined(all);
    forall i, j | 0 <= i < j < |all| ensures InOrder(all, i, j) {
      if j < |chain| {
        assert InOrder(chain, i, j);
      } else if i >= |chain| {
        assert InOrder(more, i - |chain|, j - |chain|);
      } else {
        assert At(chain[i]).block <= head < At(more[j - |chain|]).block;
      }
    }
  }

  /** The order on cursors is the order of one number: nothing but genesis is without a
      predecessor, and two different positions always compare one way. */
  lemma CursorOrderIsNumeric(a: ChainCursor, b: ChainCursor)
    ensures a.IsBefore(b) <==> a.block * (U64_MAX + 1) + a.index < b.block * (U64_MAX + 1) + b.index
    ensures a == b || a.IsBefore(b) || b.IsBefore(a)
    ensures a.IsGenesis() <==> forall c: ChainCursor :: !c.IsBefore(a)
  {
    if !a.IsGenesis() {
      assert ChainCursor(0, 0).IsBefore(a);
    }
  }

  /** All logs of `chain` strictly after `cursor`, in chain order: what a consumer that has
      processed everything up to `cursor` still has to see. */
  ghost function After(chain: seq<Log>, cursor: ChainCursor): seq<Log>
    requires AllMined(chain)
  {
    if chain == [] then []
    else
      var last := |chain| - 1;
      After(chain[..last], cursor) + if cursor.IsBefore(At(chain[last])) then [chain[last]] else []
  }

  ghost predicate IsRank(chain: seq<Log>, cursor: ChainCursor, r: nat)
    requires AllMined(chain)
  {
    && r <= |chain|
    && (forall i :: 0 <= i < r ==> !cursor.IsBefore(At(chain[i])))
    && (forall i :: r <= i < |chain| ==> cursor.IsBefore(At(chain[i])))
  }

  /** The first log from `i` on that is strictly after `cursor`. */
  ghost function FirstAfter(chain: seq<Log>, cursor: ChainCursor, i: nat): (r: nat)
    requires AllMined(chain) && i <= |chain|
    ensures i <= r <= |chain|
    ensures forall k :: i <= k < r ==> !cursor.IsBefore(At(chain[k]))
    ensures r < |chain| ==> cursor.IsBefore(At(chain[r]))
    decreases |chain| - i
  {
    if i == |chain| || cursor.IsBefore(At(chain[i])) then i else FirstAfter(chain, cursor, i + 1)
  }

  lemma FirstAfterSplits(chain: seq<Log>, cursor: ChainCursor)
    requires Sorted(chain)
    ensures IsRank(chain, cursor, FirstAfter(chain, cursor, 0))
  {
    var r := FirstAfter(chain, cursor, 0);
    forall i | r <= i < |chain| ensures cursor.IsBefore(At(chain[i])) {
      if r < i { assert InOrder(chain, r, i); }
    }
  }

  /** How many logs of `chain` are at or before `cursor`. */
  ghost function Rank(chain: seq<Log>, cursor: ChainCursor): (r: nat)
    requires Sorted(chain)
    ensures IsRank(chain, cursor, r)
  {
    FirstAfterSplits(chain, cursor);
    FirstAfter(chain, cursor, 0)
  }

  ghost predicate IsBelow(chain: seq<Log>, block: nat, r: nat)
    requires AllMined(chain)
  {
    && r <= |chain|
    && (forall i :: 0 <= i < r ==> At(chain[i]).block < block)
    && (forall i :: r <= i < |chain| ==> At(chain[i]).block >= block)
  }

  /** The first log from `i` on in block `block` or later. */
  ghost function FirstFrom(chain: seq<Log>, block: nat, i: nat): (r: nat)
    requires AllMined(chain) && i <= |chain|
    ensures i <= r <= |chain|
    ensures forall k :: i <= k < r ==> At(chain[k]).block < block
    ensures r < |chain| ==> At(chain[r]).block >= block
    decreases |chain| - i
  {
    if i == |chain| || At(chain[i]).block >= block then i else FirstFrom(chain, block, i + 1)
  }

  lemma FirstFromSplits(chain: seq<Log>, block: nat)
    requires Sorted(chain)
    ensures IsBelow(chain, block, FirstFrom(chain, block, 0))
  {
    var r := FirstFrom(chain, block, 0);
    forall i | r <= i < |chain| ensures At(chain[i]).block >= block {
      if r < i { assert InOrder(chain, r, i); }
    }
  }

  /** How many logs of `chain` are in blocks below `block`. */
  ghost function Below(chain: seq<Log>, block: nat): (r: nat)
    requires Sorted(chain)
    ensures IsBelow(chain, block, r)
  {
    FirstFromSplits(chain, block);
    FirstFrom(chain, block, 0)
  }

  /** There is only one split point between the logs at or before `cursor` and the rest. */
  lemma RankIs(chain: seq<Log>, cursor: ChainCursor, r: nat)
    requires Sorted(chain) && IsRank(chain, cursor, r)
    ensures Rank(chain, cursor) == r
  {
    var r' := Rank(chain, cursor);
    assert r < |chain| ==> Mined(chain[r]);
    assert r' < |chain| ==> Mined(chain[r']);
  }

  lemma BelowIs(chain: seq<Log>, block: nat, r: nat)
    requires Sorted(chain) && IsBelow(chain, block, r)
    ensures Below(chain, block) == r
  {
    var r' := Below(chain, block);
    assert r < |chain| ==> Mined(chain[r]);
    assert r' < |chain| ==> Mined(chain[r']);
  }

  lemma {:induction false} AfterNone(chain: seq<Log>, cursor: ChainCursor)
    requires AllMined(chain) && forall i :: 0 <= i < |chain| ==> !cursor.IsBefore(At(chain[i]))
    ensures After(chain, cursor) == []
  {
    if chain != [] {
      AfterNone(chain[..|chain| - 1], cursor);
    }
  }

  lemma {:induction false} AfterIs(chain: seq<Log>, cursor: ChainCursor, r: nat)
    requires AllMined(chain) && IsRank(chain, cursor, r)
    ensures After(chain, cursor) == chain[r..]
  {
    var last := |chain| - 1;
    if r == |chain| {
      AfterNone(chain, cursor);
    } else {
      AfterIs(chain[..last], cursor, r);
      assert chain[..last][r..] + [chain[last]] == chain[r..];
    }
  }

  /** On a sorted chain the logs after the cursor are a suffix. */
  lemma AfterIsSuffix(chain: seq<Log>, cursor: ChainCursor)
    requires Sorted(chain)
    ensures After(chain, cursor) == chain[Rank(chain, cursor)..]
  {
    AfterIs(chain, cursor, Rank(chain, cursor));
  }

  /** Filtering a contiguous part of the chain by the cursor leaves a contiguous part. */
  lemma AfterSlice(chain: seq<Log>, lo: nat, hi: nat, cursor: ChainCursor)
    requires Sorted(chain) && lo <= hi <= |chain|
    ensures AllMined(chain[lo..hi])
    ensures After(chain[lo..hi], cursor) == chain[Max(lo, Min(hi, Rank(chain, cursor)))..hi]
  {
    var part, from := chain[lo..hi], Max(lo, Min(hi, Rank(chain, cursor)));
    assert forall i :: 0 <= i < |part| ==> part[i] == chain[lo + i];
    AfterIs(part, cursor, from - lo);
    assert part[from - lo..] == chain[from..hi];
  }

  /** The logs after the cursor in the part of the chain before `end`. */
  lemma AfterPrefix(chain: seq<Log>, end: nat, cursor: ChainCursor)
    requires Sorted(chain) && Rank(chain, cursor) <= end <= |chain|
    ensures AllMined(chain[..end])
    ensures After(chain[..end], cursor) == chain[Rank(chain, cursor)..end]
  {
    AfterSlice(chain, 0, end, cursor);
    assert chain[0..end] == chain[..end];
  }

  /** Below and Rank do not move when later blocks are appended. */
  lemma BelowAppend(chain: seq<Log>, more: seq<Log>, head: nat, block: nat)
    requires Sorted(chain) && Sorted(chain + more)
    requires forall i :: 0 <= i < |more| ==> Mined(more[i]) && At(more[i]).block > head
    requires block <= head + 1
    ensures Below(chain + more, block) == Below(chain, block)
  {
    var all := chain + more;
    assert forall i :: |chain| <= i < |all| ==> all[i] == more[i - |chain|];
    BelowIs(all, block, Below(chain, block));
  }

  lemma RankAppend(chain: seq<Log>, more: seq<Log>, head: nat, cursor: ChainCursor)
    requires Sorted(chain) && Sorted(chain + more)
    requires forall i :: 0 <= i < |more| ==> Mined(more[i]) && At(more[i]).block > head
    requires cursor.block <= head
    ensures Rank(chain + more, cursor) == Rank(chain, cursor)
  {
    var all := chain + more;
    assert forall i :: |chain| <= i < |all| ==> all[i] == more[i - |chain|];
    RankIs(all, cursor, Rank(chain, cursor));
  }

  // The counts are ordered like the positions they count

  lemma BelowOrdered(chain: seq<Log>, a: nat, b: nat)
    requires Sorted(chain) && a <= b
    ensures Below(chain, a) <= Below(chain, b)
  {
    var y := Below(chain, b);
    assert y < |chain| ==> Mined(chain[y]);
  }

  lemma BelowRank(chain: seq<Log>, cursor: ChainCursor, block: nat)
    requires Sorted(chain)
    ensures block <= cursor.block ==> Below(chain, block) <= Rank(chain, cursor)
    ensures cursor.block < block ==> Rank(chain, cursor) <= Below(chain, block)
  {
    var x, r := Below(chain, block), Rank(chain, cursor);
    assert x < |chain| ==> Mined(chain[x]);
    assert r < |chain| ==> Mined(chain[r]);
  }
}
