/**
 * `calculateBurnData` (cron-job/job.js): for one token, read the chain head and
 * the token's decimals, resolve a start block for each of the eight trailing
 * windows, sum the burned amount from there to the head, and assemble the record.
 * Any failure yields `None` (the source's `null`).
 */
module BurnCalc {
  import opened Wrappers
  import opened Strings
  import opened Config
  import opened Retry
  import opened BlockSearch
  import opened BurnLogs

  /**
   * A provider as the job uses it. The retried calls are attempt-indexed: `blockNumber(k)`
   * is what the k-th `getBlockNumber()` gives, `decimals(token, k)` the k-th `decimals()`
   * of a token contract, `headBlock(n, k)` the k-th `getBlock(n)` as a timestamp, or
   * `None` for a null block. `blockTime` answers `getBlock` inside the search and
   * `getLogs` the log queries.
   */
  datatype Node = Node(
    blockNumber: nat -> Outcome<int>,
    decimals: (string, nat) -> Outcome<nat>,
    headBlock: (int, nat) -> Outcome<Option<int>>,
    blockTime: Timestamps,
    getLogs: LogOracle)

  /** The windows of `intervals`, in declaration order, with their lengths in seconds. */
  const INTERVALS: seq<(string, nat)> := [
    ("fiveMin", 5 * 60),
    ("fifteenMin", 15 * 60),
    ("thirtyMin", 30 * 60),
    ("oneHour", 60 * 60),
    ("threeHours", 3 * 60 * 60),
    ("sixHours", 6 * 60 * 60),
    ("twelveHours", 12 * 60 * 60),
    ("twentyFourHours", 24 * 60 * 60)
  ]

  /** The `.replace(pattern, replacement)` chain of the record keys, in call order. */
  const RENAMES: seq<(string, string)> := [
    ("fiveMin", "burn5min"),
    ("fifteenMin", "burn15min"),
    ("thirtyMin", "burn30min"),
    ("oneHour", "burn1h"),
    ("threeHours", "burn3h"),
    ("sixHours", "burn6h"),
    ("twelveHours", "burn12h"),
    ("twentyFourHours", "burn24h")
  ]

  /** `nextUpdate` is five minutes after `lastUpdated`, in milliseconds. */
  const NEXT_UPDATE_MS: int := 5 * 60 * 1000

  /** `s.replace(p0, r0).replace(p1, r1)...` over the pairs of `rs`, left to right. */
  function ApplyRenames(s: string, rs: seq<(string, string)>): string
    decreases |rs|
  {
    if rs == [] then s else ApplyRenames(ReplaceFirst(s, rs[0].0, rs[0].1), rs[1..])
  }

  /** The record key of a window: the chain of eight `.replace` calls applied to its name. */
  function BurnKey(key: string): string {
    ApplyRenames(key, RENAMES)
  }

  /** A string holding none of the patterns passes through the chain unchanged. */
  lemma {:induction false} ApplyRenamesSkip(s: string, rs: seq<(string, string)>)
    requires forall j :: 0 <= j < |rs| ==> IndexOf(s, rs[j].0).None?
    ensures ApplyRenames(s, rs) == s
    decreases |rs|
  {
    if rs != [] {
      ApplyRenamesSkip(s, rs[1..]);
    }
  }

  /**
   * Pattern `i` itself comes out of the chain as replacement `i` when no earlier
   * pattern occurs in it and no later pattern occurs in its replacement.
   */
  lemma {:induction false} ApplyRenamesHit(rs: seq<(string, string)>, i: nat)
    requires i < |rs|
    requires forall j :: 0 <= j < i ==> IndexOf(rs[i].0, rs[j].0).None?
    requires forall j :: i < j < |rs| ==> IndexOf(rs[i].1, rs[j].0).None?
    ensures ApplyRenames(rs[i].0, rs) == rs[i].1
    decreases i
  {
    if i == 0 {
      ReplaceWhole(rs[0].0, rs[0].1);
      ApplyRenamesSkip(rs[0].1, rs[1..]);
    } else {
      ApplyRenamesHit(rs[1..], i - 1);
    }
  }

  /** The one pattern pair not told apart by a single missing character: "ne" never occurs in the key. */
  lemma OneHourNotInTwentyFourHours()
    ensures IndexOf("twentyFourHours", "oneHour").None?
  {
    MissingPairNotFound("twentyFourHours", "oneHour", 1);
  }

  /**
   * The keys hold no capital letter, and every later pattern holds one
   * (`M` in the first three, `H` in the others).
   */
  lemma KeyPassesLaterPatterns(i: nat)
    requires i < |RENAMES|
    ensures forall j :: i < j < |RENAMES| ==> IndexOf(RENAMES[i].1, RENAMES[j].0).None?
  {
    forall j | i < j < |RENAMES|
      ensures IndexOf(RENAMES[i].1, RENAMES[j].0).None?
    {
      MissingCharNotFound(RENAMES[i].1, RENAMES[j].0, if j < 3 then 'M' else 'H');
    }
  }

  lemma RenameFiveMin()
    ensures BurnKey(RENAMES[0].0) == RENAMES[0].1
  {
    KeyPassesLaterPatterns(0);
    ApplyRenamesHit(RENAMES, 0);
  }

  lemma RenameFifteenMin()
    ensures BurnKey(RENAMES[1].0) == RENAMES[1].1
  {
    var missing := "v";
    forall j | 0 <= j < 1
      ensures IndexOf(RENAMES[1].0, RENAMES[j].0).None?
    {
      MissingCharNotFound(RENAMES[1].0, RENAMES[j].0, missing[j]);
    }
    KeyPassesLaterPatterns(1);
    ApplyRenamesHit(RENAMES, 1);
  }

  lemma RenameThirtyMin()
    ensures BurnKey(RENAMES[2].0) == RENAMES[2].1
  {
    var missing := "ff";
    forall j | 0 <= j < 2
      ensures IndexOf(RENAMES[2].0, RENAMES[j].0).None?
    {
      MissingCharNotFound(RENAMES[2].0, RENAMES[j].0, missing[j]);
    }
    KeyPassesLaterPatterns(2);
    ApplyRenamesHit(RENAMES, 2);
  }

  lemma RenameOneHour()
    ensures BurnKey(RENAMES[3].0) == RENAMES[3].1
  {
    var missing := "MMM";
    forall j | 0 <= j < 3
      ensures IndexOf(RENAMES[3].0, RENAMES[j].0).None?
    {
      MissingCharNotFound(RENAMES[3].0, RENAMES[j].0, missing[j]);
    }
    KeyPassesLaterPatterns(3);
    ApplyRenamesHit(RENAMES, 3);
  }

  lemma RenameThreeHours()
    ensures BurnKey(RENAMES[4].0) == RENAMES[4].1
  {
    var missing := "MMMn";
    forall j | 0 <= j < 4
      ensures IndexOf(RENAMES[4].0, RENAMES[j].0).None?
    {
      MissingCharNotFound(RENAMES[4].0, RENAMES[j].0, missing[j]);
    }
    KeyPassesLaterPatterns(4);
    ApplyRenamesHit(RENAMES, 4);
  }

  lemma RenameSixHours()
    ensures BurnKey(RENAMES[5].0) == RENAMES[5].1
  {
    var missing := "MMMnt";
    forall j | 0 <= j < 5
      ensures IndexOf(RENAMES[5].0, RENAMES[j].0).None?
    {
      MissingCharNotFound(RENAMES[5].0, RENAMES[j].0, missing[j]);
    }
    KeyPassesLaterPatterns(5);
    ApplyRenamesHit(RENAMES, 5);
  }

  lemma RenameTwelveHours()
    ensures BurnKey(RENAMES[6].0) == RENAMES[6].1
  {
    var missing := "MMMnhi";
    forall j | 0 <= j < 6
      ensures IndexOf(RENAMES[6].0, RENAMES[j].0).None?
    {
      MissingCharNotFound(RENAMES[6].0, RENAMES[j].0, missing[j]);
    }
    KeyPassesLaterPatterns(6);
    ApplyRenamesHit(RENAMES, 6);
  }

  lemma RenameTwentyFourHours()
    ensures BurnKey(RENAMES[7].0) == RENAMES[7].1
  {
    var missing := "MMM?hil";
    forall j | 0 <= j < 7
      ensures IndexOf(RENAMES[7].0, RENAMES[j].0).None?
    {
      if j == 3 {
        OneHourNotInTwentyFourHours();
      } else {
        MissingCharNotFound(RENAMES[7].0, RENAMES[j].0, missing[j]);
      }
    }
    ApplyRenamesHit(RENAMES, 7);
  }

  /** The chain maps the eight patterns, in order, to the eight record keys. */
  lemma BurnKeyRenamesPatterns()
    ensures forall i :: 0 <= i < |RENAMES| ==> BurnKey(RENAMES[i].0) == RENAMES[i].1
  {
    forall i | 0 <= i < |RENAMES|
      ensures BurnKey(RENAMES[i].0) == RENAMES[i].1
    {
      if i == 0 { RenameFiveMin(); }
      else if i == 1 { RenameFifteenMin(); }
      else if i == 2 { RenameThirtyMin(); }
      else if i == 3 { RenameOneHour(); }
      else if i == 4 { RenameThreeHours(); }
      else if i == 5 { RenameSixHours(); }
      else if i == 6 { RenameTwelveHours(); }
      else { RenameTwentyFourHours(); }
    }
  }

  /** No two windows share a record key, so no window's amount overwrites another's. */
  lemma BurnKeysDistinct()
    ensures forall i, j :: 0 <= i < j < |RENAMES| ==> RENAMES[i].1 != RENAMES[j].1
  {
  }

  /**
   * Every window name goes through the chain to its own record key: the names of
   * `intervals` are the patterns of the chain, in the same order.
   */
  lemma BurnKeyRenamesWindows()
    ensures |INTERVALS| == |RENAMES| == 8
    ensures forall i :: 0 <= i < 8 ==> BurnKey(INTERVALS[i].0) == RENAMES[i].1
  {
    assert forall i :: 0 <= i < 8 ==> INTERVALS[i].0 == RENAMES[i].0;
    BurnKeyRenamesPatterns();
  }

  function Pow10(n: nat): (r: nat)
    ensures r >= 1
  {
    if n == 0 then 1 else 10 * Pow10(n - 1)
  }

  /**
   * `Number(raw) / Number(10n ** decimals)`, as an exact quotient: the amount in
   * whole tokens, which multiplied back by the divisor gives the raw amount.
   */
  function Scale(raw: nat, decimals: nat): (r: real)
    ensures r >= 0.0
    ensures r * Pow10(decimals) as real == raw as real
  {
    raw as real / Pow10(decimals) as real
  }

  /** Five whole tokens of an 18-decimal token, and nothing burned. */
  lemma ScaleExamples()
    ensures Scale(5_000_000_000_000_000_000, 18) == 5.0
    ensures forall d: nat :: Scale(0, d) == 0.0
  {
    assert Pow10(9) == 1_000_000_000;
  }

  /** The record `calculateBurnData` returns; the two dates are milliseconds since the epoch. */
  datatype BurnRecord = BurnRecord(
    address: string,
    burn5min: real,
    burn15min: real,
    burn30min: real,
    burn1h: real,
    burn3h: real,
    burn6h: real,
    burn12h: real,
    burn24h: real,
    lastUpdated: int,
    nextUpdate: int)
  {
    /** The eight amounts, in the order of `INTERVALS`. */
    function Amounts(): (a: seq<real>)
      ensures |a| == 8
    {
      [burn5min, burn15min, burn30min, burn1h, burn3h, burn6h, burn12h, burn24h]
    }
  }

  /** `burnData.<key> || 0`: a key that was never set reads as 0. */
  function Get(burnData: map<string, real>, key: string): real {
    if key in burnData then burnData[key] else 0.0
  }

  /** The object literal at the end of `calculateBurnData`. */
  function AssembleRecord(address: string, burnData: map<string, real>, now: int): BurnRecord {
    BurnRecord(address,
      Get(burnData, "burn5min"), Get(burnData, "burn15min"), Get(burnData, "burn30min"),
      Get(burnData, "burn1h"), Get(burnData, "burn3h"), Get(burnData, "burn6h"),
      Get(burnData, "burn12h"), Get(burnData, "burn24h"),
      now, now + NEXT_UPDATE_MS)
  }

  /**
   * The record reads window `i`'s amount from that window's record key and falls
   * back to 0 when the key is missing; its next update is five minutes after this one.
   */
  lemma AssembleRecordReadsKeys(address: string, burnData: map<string, real>, now: int)
    ensures var rec := AssembleRecord(address, burnData, now);
      rec.address == address &&
      (forall i :: 0 <= i < 8 ==> rec.Amounts()[i] == Get(burnData, RENAMES[i].1)) &&
      rec.lastUpdated == now && rec.nextUpdate == now + 300_000
  {
    var rec := AssembleRecord(address, burnData, now);
    assert rec.Amounts() == seq(8, i requires 0 <= i < 8 => Get(burnData, RENAMES[i].1));
  }

  /** What the node told the job about one token before the windows are computed. */
  datatype Chain = Chain(address: string, latestBlock: int, latestTimestamp: int, decimals: nat)

  /**
   * The address lookup, the retried `getBlockNumber()` and `decimals()` (issued together),
   * then the retried `getBlock(latestBlock)`; `None` when the token is unknown, when a
   * retried call throws, or when the head block is null.
   */
  function Prepare(tokenMap: TokenMap, tokenName: string, node: Node): Option<Chain> {
    match TokenAddress(tokenMap, tokenName)
    case None => None
    case Some(address) =>
      var latest := Retry.Retry(node.blockNumber, MAX_RETRIES).result;
      var decimals := Retry.Retry(k => node.decimals(address, k), MAX_RETRIES).result;
      if latest.Err? || decimals.Err? then None
      else
        var head := Retry.Retry(k => node.headBlock(latest.value, k), MAX_RETRIES).result;
        if head.Err? || head.value.None? then None
        else Some(Chain(address, latest.value, head.value.value, decimals.value))
  }

  /**
   * How many remote calls the lookup and the three retried reads make: none for an
   * unknown symbol, both first reads (issued together), and the head read only
   * when both succeeded.
   */
  function ReadCalls(tokenMap: TokenMap, tokenName: string, node: Node): nat {
    match TokenAddress(tokenMap, tokenName)
    case None => 0
    case Some(address) =>
      var latest := Retry.Retry(node.blockNumber, MAX_RETRIES);
      var decimals := Retry.Retry(k => node.decimals(address, k), MAX_RETRIES);
      if latest.result.Err? || decimals.result.Err? then latest.calls + decimals.calls
      else latest.calls + decimals.calls + Retry.Retry(k => node.headBlock(latest.result.value, k), MAX_RETRIES).calls
  }

  /**
   * An unknown symbol is turned away before any remote call; a known one costs
   * at least the two first reads and at most four attempts of each of the three.
   */
  lemma ReadCallsSpec(tokenMap: TokenMap, tokenName: string, node: Node)
    ensures ReadCalls(tokenMap, tokenName, node) == 0 <==> TokenAddress(tokenMap, tokenName).None?
    ensures TokenAddress(tokenMap, tokenName).Some? ==> ReadCalls(tokenMap, tokenName, node) >= 2
    ensures ReadCalls(tokenMap, tokenName, node) <= 3 * (MAX_RETRIES + 1)
  {
    match TokenAddress(tokenMap, tokenName)
    case None =>
    case Some(address) =>
      RetrySound(node.blockNumber, MAX_RETRIES);
      RetrySound(k => node.decimals(address, k), MAX_RETRIES);
      var latest := Retry.Retry(node.blockNumber, MAX_RETRIES);
      if latest.result.Ok? {
        RetrySound(k => node.headBlock(latest.result.value, k), MAX_RETRIES);
      }
  }

  /** The block a window of `seconds` starts at. */
  function WindowStart(node: Node, c: Chain, seconds: int): int {
    ResolveBlock(node.blockTime, c.latestTimestamp - seconds, c.latestBlock)
  }

  /** The amount burned in a window of `seconds`, in whole tokens. */
  function WindowAmount(node: Node, c: Chain, seconds: int): real {
    Scale(BurnTotal(node.getLogs, c.address, WindowStart(node, c, seconds), c.latestBlock), c.decimals)
  }

  /** The amounts of the eight windows, in the order of `INTERVALS`. */
  function WindowAmounts(node: Node, c: Chain): (a: seq<real>)
    ensures |a| == |INTERVALS|
  {
    seq(|INTERVALS|, i requires 0 <= i < |INTERVALS| => WindowAmount(node, c, INTERVALS[i].1))
  }

  /** The record with the eight window amounts `amounts`, written at `now`. */
  function RecordOf(address: string, amounts: seq<real>, now: int): (rec: BurnRecord)
    requires |amounts| == 8
    ensures rec.address == address && rec.Amounts() == amounts
    ensures rec.lastUpdated == now && rec.nextUpdate == now + 300_000
  {
    BurnRecord(address, amounts[0], amounts[1], amounts[2], amounts[3],
      amounts[4], amounts[5], amounts[6], amounts[7], now, now + NEXT_UPDATE_MS)
  }

  /** The record of a token, or `None` (the source's `null`). */
  function BurnData(tokenMap: TokenMap, tokenName: string, node: Node, now: int): Option<BurnRecord> {
    match Prepare(tokenMap, tokenName, node)
    case None => None
    case Some(c) => Some(RecordOf(c.address, WindowAmounts(node, c), now))
  }

  /**
   * A record exists exactly when the token is known and the three retried calls
   * succeed with a non-null head block; it carries the token's address, and window
   * `i`'s amount is what was burned from its start block to the head.
   */
  lemma BurnDataSpec(tokenMap: TokenMap, tokenName: string, node: Node, now: int)
    ensures TokenAddress(tokenMap, tokenName).None? ==> BurnData(tokenMap, tokenName, node, now).None?
    ensures BurnData(tokenMap, tokenName, node, now).Some? <==> Prepare(tokenMap, tokenName, node).Some?
    ensures BurnData(tokenMap, tokenName, node, now).Some? ==>
      var rec := BurnData(tokenMap, tokenName, node, now).value;
      var c := Prepare(tokenMap, tokenName, node).value;
      Some(rec.address) == TokenAddress(tokenMap, tokenName) &&
      rec.lastUpdated == now && rec.nextUpdate == now + 300_000 &&
      forall i :: 0 <= i < 8 ==>
        rec.Amounts()[i] == Scale(BurnTotal(node.getLogs, c.address,
          ResolveBlock(node.blockTime, c.latestTimestamp - INTERVALS[i].1, c.latestBlock), c.latestBlock), c.decimals)
  {
  }

  /** The windows are listed shortest first. */
  lemma IntervalsIncrease()
    ensures forall i, j :: 0 <= i < j < |INTERVALS| ==> INTERVALS[i].1 < INTERVALS[j].1
  {
  }

  /**
   * On a sorted chain a longer window starts at or before a shorter one, as long
   * as some block is at or before the longer window's target.
   */
  lemma WindowStartsNest(node: Node, c: Chain, i: nat, j: nat)
    requires i < j < |INTERVALS|
    requires Sorted(node.blockTime, c.latestBlock)
    requires SomeBlockQualifies(node.blockTime, c.latestTimestamp - INTERVALS[j].1, c.latestBlock)
    ensures WindowStart(node, c, INTERVALS[j].1) <= WindowStart(node, c, INTERVALS[i].1)
  {
    IntervalsIncrease();
    ResolveBlockMonotone(node.blockTime, c.latestTimestamp - INTERVALS[j].1,
                         c.latestTimestamp - INTERVALS[i].1, c.latestBlock);
  }

  /**
   * On a sorted chain whose logs come from one ledger, a longer window reports at
   * least as much burned as a shorter one (under the same proviso).
   */
  lemma LongerWindowsBurnMore(ledger: seq<Transfer>, node: Node, c: Chain, i: nat, j: nat)
    requires i < j < |INTERVALS|
    requires node.getLogs == LedgerNode(ledger)
    requires Sorted(node.blockTime, c.latestBlock)
    requires SomeBlockQualifies(node.blockTime, c.latestTimestamp - INTERVALS[j].1, c.latestBlock)
    ensures WindowAmount(node, c, INTERVALS[j].1) >= WindowAmount(node, c, INTERVALS[i].1)
  {
    WindowStartsNest(node, c, i, j);
    var from1, from2 := WindowStart(node, c, INTERVALS[j].1), WindowStart(node, c, INTERVALS[i].1);
    WiderRangeBurnsMore(ledger, c.address, from1, from2, c.latestBlock);
    ScaleMonotone(BurnTotal(node.getLogs, c.address, from1, c.latestBlock),
                  BurnTotal(node.getLogs, c.address, from2, c.latestBlock), c.decimals);
  }

  /**
   * On a sorted chain whose logs come from one ledger, the eight amounts of a record
   * never decrease from the shortest window to the longest, provided some block is
   * at least 24 hours older than the head.
   */
  lemma WindowAmountsNest(ledger: seq<Transfer>, node: Node, c: Chain)
    requires node.getLogs == LedgerNode(ledger)
    requires Sorted(node.blockTime, c.latestBlock)
    requires SomeBlockQualifies(node.blockTime, c.latestTimestamp - INTERVALS[7].1, c.latestBlock)
    ensures var a := WindowAmounts(node, c);
      forall i, j :: 0 <= i < j < 8 ==> a[i] <= a[j]
  {
    var a := WindowAmounts(node, c);
    forall i, j | 0 <= i < j < 8
      ensures a[i] <= a[j]
    {
      IntervalsIncrease();
      SomeBlockQualifiesLater(node.blockTime, c.latestTimestamp - INTERVALS[7].1,
                              c.latestTimestamp - INTERVALS[j].1, c.latestBlock);
      LongerWindowsBurnMore(ledger, node, c, i, j);
    }
  }

  lemma ScaleMonotone(a: nat, b: nat, decimals: nat)
    requires a >= b
    ensures Scale(a, decimals) >= Scale(b, decimals)
  {
    var d := Pow10(decimals) as real;
    assert Scale(a, decimals) - Scale(b, decimals) == (a - b) as real / d;
  }

  /** The lookup and the three retried reads at the top of `calculateBurnData`; `calls` counts the remote calls. */
  method ReadChain(tokenMap: TokenMap, tokenName: string, node: Node) returns (c: Option<Chain>, ghost calls: nat)
    ensures c == Prepare(tokenMap, tokenName, node)
    ensures calls == ReadCalls(tokenMap, tokenName, node)
  {
    calls := 0;
    var tokenAddress := TokenAddress(tokenMap, tokenName);
    if tokenAddress.None? {
      return None, calls;
    }
    var address := tokenAddress.value;
    ghost var latestCalls, decimalsCalls, headCalls, delays;
    var latestOutcome, decimalsOutcome;
    latestOutcome, latestCalls, delays := RetryWithBackoff(node.blockNumber, MAX_RETRIES);
    decimalsOutcome, decimalsCalls, delays := RetryWithBackoff(k => node.decimals(address, k), MAX_RETRIES);
    calls := latestCalls + decimalsCalls;
    if latestOutcome.Err? || decimalsOutcome.Err? {
      return None, calls;
    }
    var latestBlock, decimals := latestOutcome.value, decimalsOutcome.value;
    var headOutcome;
    headOutcome, headCalls, delays := RetryWithBackoff(k => node.headBlock(latestBlock, k), MAX_RETRIES);
    calls := calls + headCalls;
    if headOutcome.Err? || headOutcome.value.None? {
      return None, calls;
    }
    c := Some(Chain(address, latestBlock, headOutcome.value.value, decimals));
  }

  /**
   * The first loop: the start block of every window, keyed by the window's name;
   * `blockReads` counts the searches' `getBlock` calls.
   */
  method EstimateBlocks(node: Node, c: Chain) returns (blockEstimates: seq<(string, int)>, ghost blockReads: nat)
    ensures |blockEstimates| == |INTERVALS|
    ensures forall k :: 0 <= k < |INTERVALS| ==>
      blockEstimates[k] == (INTERVALS[k].0, WindowStart(node, c, INTERVALS[k].1))
    ensures blockReads == 0 <==> c.latestBlock < 1
  {
    blockEstimates, blockReads := [], 0;
    for i := 0 to |INTERVALS|
      invariant |blockEstimates| == i
      invariant forall k :: 0 <= k < i ==> blockEstimates[k] == (INTERVALS[k].0, WindowStart(node, c, INTERVALS[k].1))
      invariant blockReads == 0 <==> i == 0 || c.latestBlock < 1
    {
      var targetTimestamp := c.latestTimestamp - INTERVALS[i].1;
      var fromBlock;
      ghost var searchReads;
      fromBlock, searchReads := FindBlockByTimestamp(node.blockTime, targetTimestamp, c.latestBlock);
      blockEstimates := blockEstimates + [(INTERVALS[i].0, fromBlock)];
      blockReads := blockReads + searchReads;
    }
  }

  /**
   * The second loop: the raw amount burned from each start block to the head;
   * `queries` counts the `getLogs` calls, one per burn address and window.
   */
  method FetchWindows(node: Node, c: Chain, blockEstimates: seq<(string, int)>)
    returns (results: seq<(string, nat)>, ghost queries: nat)
    ensures |results| == |blockEstimates|
    ensures forall k :: 0 <= k < |blockEstimates| ==>
      results[k] == (blockEstimates[k].0, BurnTotal(node.getLogs, c.address, blockEstimates[k].1, c.latestBlock))
    ensures queries == |BURN_ADDRESSES| * |blockEstimates|
  {
    results, queries := [], 0;
    for i := 0 to |blockEstimates|
      invariant |results| == i
      invariant forall k :: 0 <= k < i ==>
        results[k] == (blockEstimates[k].0, BurnTotal(node.getLogs, c.address, blockEstimates[k].1, c.latestBlock))
      invariant queries == |BURN_ADDRESSES| * i
    {
      var total;
      ghost var fetchQueries;
      total, fetchQueries := FetchBurnLogs(node.getLogs, c.address, blockEstimates[i].1, c.latestBlock);
      results := results + [(blockEstimates[i].0, total)];
      queries := queries + fetchQueries;
    }
  }

  /** The `.replace` chain applied to a window name gives that window's record key. */
  method RenameKey(key: string) returns (burnKey: string)
    ensures forall i :: 0 <= i < |INTERVALS| && key == INTERVALS[i].0 ==> burnKey == RENAMES[i].1
  {
    burnKey := BurnKey(key);
    BurnKeyRenamesWindows();
  }

  /**
   * The `forEach` over the results: every window's scaled amount lands under its
   * own record key, and no later window overwrites it.
   */
  method KeyAmounts(results: seq<(string, nat)>, decimals: nat) returns (burnData: map<string, real>)
    requires |results| == |INTERVALS|
    requires forall k :: 0 <= k < |results| ==> results[k].0 == INTERVALS[k].0
    ensures forall k :: 0 <= k < |results| ==>
      RENAMES[k].1 in burnData && burnData[RENAMES[k].1] == Scale(results[k].1, decimals)
  {
    burnData := map[];
    BurnKeyRenamesWindows();
    BurnKeysDistinct();
    for i := 0 to |results|
      invariant forall k :: 0 <= k < i ==>
        RENAMES[k].1 in burnData && burnData[RENAMES[k].1] == Scale(results[k].1, decimals)
    {
      var burnKey := RenameKey(results[i].0);
      burnData := burnData[burnKey := Scale(results[i].1, decimals)];
    }
  }

  /**
   * `calculateBurnData(tokenName, provider)`. `now` is the clock reading the record
   * is stamped with; `calls` counts every remote call: the reads, the searches'
   * block reads and the log queries.
   */
  method CalculateBurnData(tokenMap: TokenMap, tokenName: string, node: Node, now: int)
    returns (r: Option<BurnRecord>, ghost calls: nat)
    ensures r == BurnData(tokenMap, tokenName, node, now)
    ensures calls == 0 <==> TokenAddress(tokenMap, tokenName).None?
    ensures r.Some? ==> calls >= ReadCalls(tokenMap, tokenName, node) + |INTERVALS| * |BURN_ADDRESSES|
  {
    var chain;
    chain, calls := ReadChain(tokenMap, tokenName, node);
    ReadCallsSpec(tokenMap, tokenName, node);
    if chain.None? {
      return None, calls;
    }
    var c := chain.value;
    var blockEstimates, results;
    ghost var blockReads, queries;
    blockEstimates, blockReads := EstimateBlocks(node, c);
    results, queries := FetchWindows(node, c, blockEstimates);
    calls := calls + blockReads + queries;
    var burnData := KeyAmounts(results, c.decimals);
    var rec := AssembleRecord(c.address, burnData, now);
    AssembleRecordReadsKeys(c.address, burnData, now);
    assert rec.Amounts() == WindowAmounts(node, c);
    r := Some(rec);
  }
}
