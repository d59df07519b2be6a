/**
 * `findBlockByTimestamp` (cron-job/job.js): a binary search over block numbers
 * `[1, latestBlock]` for the last block whose timestamp is at or before a target.
 *
 * The node is the oracle `ts`: `ts(b)` is the timestamp of block `b`, or `None`
 * when `getBlock(b)` returns null or throws; the search treats both as "too late".
 */
module BlockSearch {
  import opened Wrappers

  type Timestamps = int -> Option<int>

  function Max(a: int, b: int): int {
    if a < b then b else a
  }

  /** Block `b` was read and its timestamp is at or before `target`. */
  predicate Qualifies(ts: Timestamps, target: int, b: int) {
    ts(b).Some? && ts(b).value <= target
  }

  /** The search from the state `left`, `right`, `closestBlock` on, as the loop runs it. */
  function SearchFrom(ts: Timestamps, target: int, left: int, right: int, closest: int): int
    decreases right - left
  {
    if left > right then Max(closest, 1)
    else
      var mid := (left + right) / 2;
      if Qualifies(ts, target, mid) then SearchFrom(ts, target, mid + 1, right, mid)
      else SearchFrom(ts, target, left, mid - 1, closest)
  }

  /** The block `findBlockByTimestamp(provider, target, latestBlock)` resolves to. */
  function ResolveBlock(ts: Timestamps, target: int, latestBlock: int): int {
    SearchFrom(ts, target, 1, latestBlock, latestBlock)
  }

  /** Reference definition by a downward linear scan: the greatest qualifying block in `[1, hi]`, or 0. */
  function LastQualifying(ts: Timestamps, target: int, hi: int): (r: int)
    decreases hi
    ensures 0 <= r <= Max(hi, 0)
    ensures r == 0 || (1 <= r && Qualifies(ts, target, r))
    ensures forall k :: Max(r, 0) < k <= hi ==> !Qualifies(ts, target, k)
  {
    if hi < 1 then 0
    else if Qualifies(ts, target, hi) then hi
    else LastQualifying(ts, target, hi - 1)
  }

  /** Some block in `[1, latestBlock]` is at or before `target`. */
  ghost predicate SomeBlockQualifies(ts: Timestamps, target: int, latestBlock: int) {
    exists k :: 1 <= k <= latestBlock && Qualifies(ts, target, k)
  }

  lemma SomeBlockQualifiesLater(ts: Timestamps, t1: int, t2: int, latestBlock: int)
    requires t1 <= t2 && SomeBlockQualifies(ts, t1, latestBlock)
    ensures SomeBlockQualifies(ts, t2, latestBlock)
  {
    var k :| 1 <= k <= latestBlock && Qualifies(ts, t1, k);
    assert Qualifies(ts, t2, k);
  }

  /** Whether block `b` qualifies does not get switched on again by moving to a later block. */
  ghost predicate DownClosed(ts: Timestamps, target: int, latestBlock: int) {
    forall a, b :: 1 <= a <= b <= latestBlock && Qualifies(ts, target, b) ==> Qualifies(ts, target, a)
  }

  /** Every block up to `latestBlock` can be read and timestamps never decrease. */
  ghost predicate Sorted(ts: Timestamps, latestBlock: int) {
    (forall b :: 1 <= b <= latestBlock ==> ts(b).Some?) &&
    (forall a, b :: 1 <= a <= b <= latestBlock && ts(a).Some? && ts(b).Some? ==> ts(a).value <= ts(b).value)
  }

  /** The block the search is meant to find when the qualifying blocks form a prefix. */
  function Intended(ts: Timestamps, target: int, latestBlock: int): int {
    var last := LastQualifying(ts, target, latestBlock);
    if last == 0 then Max(latestBlock, 1) else last
  }

  /** What the search promises for every oracle, and for a well-behaved one. */
  ghost predicate Resolved(ts: Timestamps, target: int, latestBlock: int, b: int) {
    1 <= b <= Max(latestBlock, 1) &&
    (b == Max(latestBlock, 1) || Qualifies(ts, target, b)) &&
    (DownClosed(ts, target, latestBlock) ==> b == Intended(ts, target, latestBlock))
  }

  /** The loop invariant of the search. */
  ghost predicate SearchInv(ts: Timestamps, target: int, latestBlock: int, left: int, right: int, closest: int) {
    1 <= left && right <= latestBlock &&
    (left <= right + 1 || (left == 1 && right < 0)) &&
    ((left == 1 && closest == latestBlock) ||
     (2 <= left && closest == left - 1 && Qualifies(ts, target, closest))) &&
    (DownClosed(ts, target, latestBlock) ==>
      (forall k :: 1 <= k < left ==> Qualifies(ts, target, k)) &&
      (forall k :: right < k <= latestBlock ==> !Qualifies(ts, target, k)))
  }

  lemma {:induction false} SearchFromCorrect(ts: Timestamps, target: int, latestBlock: int,
                                             left: int, right: int, closest: int)
    requires SearchInv(ts, target, latestBlock, left, right, closest)
    ensures Resolved(ts, target, latestBlock, SearchFrom(ts, target, left, right, closest))
    decreases right - left
  {
    if left > right {
      SearchDoneCorrect(ts, target, latestBlock, left, right, closest);
    } else {
      var mid := (left + right) / 2;
      if Qualifies(ts, target, mid) {
        SearchFromCorrect(ts, target, latestBlock, mid + 1, right, mid);
      } else {
        SearchFromCorrect(ts, target, latestBlock, left, mid - 1, closest);
      }
    }
  }

  /** When the loop exits, `max(closestBlock, 1)` is resolved. */
  lemma SearchDoneCorrect(ts: Timestamps, target: int, latestBlock: int, left: int, right: int, closest: int)
    requires SearchInv(ts, target, latestBlock, left, right, closest) && left > right
    ensures Resolved(ts, target, latestBlock, Max(closest, 1))
  {
    if DownClosed(ts, target, latestBlock) && left >= 2 {
      assert Qualifies(ts, target, right);
      assert LastQualifying(ts, target, latestBlock) == right;
    }
  }

  /**
   * The search always returns a block in `[1, max(latestBlock, 1)]`; any result other
   * than the initial `latestBlock` was read and is at or before the target; and when
   * the qualifying blocks form a prefix of `[1, latestBlock]`, the result is the last
   * qualifying block, or `latestBlock` when none qualifies.
   */
  lemma ResolveBlockCorrect(ts: Timestamps, target: int, latestBlock: int)
    ensures Resolved(ts, target, latestBlock, ResolveBlock(ts, target, latestBlock))
  {
    SearchFromCorrect(ts, target, latestBlock, 1, latestBlock, latestBlock);
  }

  /** Sorted, readable timestamps make the qualifying blocks a prefix, for every target. */
  lemma SortedDownClosed(ts: Timestamps, target: int, latestBlock: int)
    requires Sorted(ts, latestBlock)
    ensures DownClosed(ts, target, latestBlock)
  {
    forall a, b | 1 <= a <= b <= latestBlock && Qualifies(ts, target, b)
      ensures Qualifies(ts, target, a)
    {
      assert ts(a).Some? && ts(b).Some?;
    }
  }

  /**
   * On a sorted chain the resolved block `b` brackets the target:
   * `ts(b) <= target < ts(b + 1)` when some block qualifies, and `b` is
   * `latestBlock` (not block 1) when none does.
   */
  lemma ResolveBlockOnSortedChain(ts: Timestamps, target: int, latestBlock: int)
    requires Sorted(ts, latestBlock)
    ensures var b := ResolveBlock(ts, target, latestBlock);
      (SomeBlockQualifies(ts, target, latestBlock) ==>
         Qualifies(ts, target, b) && (b < latestBlock ==> ts(b + 1).Some? && target < ts(b + 1).value)) &&
      ((forall k :: 1 <= k <= latestBlock ==> !Qualifies(ts, target, k)) ==> b == Max(latestBlock, 1))
  {
    SortedDownClosed(ts, target, latestBlock);
    ResolveBlockCorrect(ts, target, latestBlock);
    var b := ResolveBlock(ts, target, latestBlock);
    var last := LastQualifying(ts, target, latestBlock);
    if last != 0 && b < latestBlock {
      assert !Qualifies(ts, target, b + 1) && ts(b + 1).Some?;
    }
  }

  /**
   * On a sorted chain a later target never resolves to an earlier block, as long as
   * the earlier target has a qualifying block.
   */
  lemma ResolveBlockMonotone(ts: Timestamps, t1: int, t2: int, latestBlock: int)
    requires Sorted(ts, latestBlock)
    requires t1 <= t2
    requires SomeBlockQualifies(ts, t1, latestBlock)
    ensures ResolveBlock(ts, t1, latestBlock) <= ResolveBlock(ts, t2, latestBlock)
  {
    SortedDownClosed(ts, t1, latestBlock);
    SortedDownClosed(ts, t2, latestBlock);
    ResolveBlockCorrect(ts, t1, latestBlock);
    ResolveBlockCorrect(ts, t2, latestBlock);
    var b1 := LastQualifying(ts, t1, latestBlock);
    var b2 := LastQualifying(ts, t2, latestBlock);
    assert b1 != 0;
    assert Qualifies(ts, t2, b1);
  }

  /**
   * The fallback when no block qualifies: on a ten-block chain with timestamps
   * 1001..1010, target 1005 resolves to block 5, but a target before block 1
   * resolves to block 10, the head, and not to block 1.
   */
  lemma NoQualifyingBlockResolvesToHead()
    ensures ResolveBlock(b => Some(1000 + b), 1005, 10) == 5
    ensures ResolveBlock(b => Some(1000 + b), 500, 10) == 10
  {
    var ts: Timestamps := b => Some(1000 + b);
    assert Sorted(ts, 10);
    ResolveBlockOnSortedChain(ts, 1005, 10);
    assert Qualifies(ts, 1005, 5);
    ResolveBlockOnSortedChain(ts, 500, 10);
  }

  /**
   * The search loop; `blockReads` counts its `getBlock` calls. Failed or null fetches
   * move `right` below `mid`. The `retryWithBackoff` wrapper around the search
   * calls it once and returns its value (`Retry.RetryTransparent`), because the
   * search catches every fetch error itself.
   */
  method FindBlockByTimestamp(ts: Timestamps, targetTimestamp: int, latestBlock: int)
    returns (b: int, ghost blockReads: nat)
    ensures b == ResolveBlock(ts, targetTimestamp, latestBlock)
    ensures Resolved(ts, targetTimestamp, latestBlock, b)
    ensures blockReads == 0 <==> latestBlock < 1
  {
    var left, right, closestBlock := 1, latestBlock, latestBlock;
    blockReads := 0;
    while left <= right
      invariant SearchFrom(ts, targetTimestamp, left, right, closestBlock) == ResolveBlock(ts, targetTimestamp, latestBlock)
      invariant 1 <= left && right <= latestBlock
      invariant blockReads == 0 ==> left == 1 && right == latestBlock
      invariant blockReads > 0 ==> latestBlock >= 1
      decreases right - left
    {
      var mid := (left + right) / 2;
      var block := ts(mid);
      blockReads := blockReads + 1;
      match block {
        case Some(timestamp) =>
          if timestamp <= targetTimestamp {
            closestBlock := mid;
            left := mid + 1;
          } else {
            right := mid - 1;
          }
        case None =>
          right := mid - 1;
      }
    }
    b := Max(closestBlock, 1);
    ResolveBlockCorrect(ts, targetTimestamp, latestBlock);
  }
}
