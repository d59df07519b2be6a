/**
 * `fetchBurnLogs` (cron-job/job.js): for every burn address, query the token's
 * Transfer logs to that address over a block range and add up their values
 * in an unbounded integer.
 *
 * `getLogs` is an oracle: for a query it gives `None` when the call throws, or
 * the matched logs, each `Some(value)` when it parses and `None` when it does not.
 */
module BurnLogs {
  import opened Wrappers
  import opened Config

  /**
   * The filter of one `getLogs` call: token contract, burn address, block range. The
   * Transfer topic and the zero-padded, lower-cased address topic are the node's business.
   */
  datatype LogQuery = LogQuery(token: string, burnAddress: string, fromBlock: int, toBlock: int)

  /** One `getLogs` answer: `None` if the call threw, else the parsed value of each log. */
  type LogBatch = Option<seq<Option<nat>>>

  type LogOracle = LogQuery -> LogBatch

  /** The sum of `f` over `s`, adding from the front. */
  function SumOf<T>(s: seq<T>, f: T -> nat): nat {
    if s == [] then 0 else SumOf(s[..|s| - 1], f) + f(s[|s| - 1])
  }

  lemma {:induction false} SumOfAppend<T>(s: seq<T>, t: seq<T>, f: T -> nat)
    ensures SumOf(s + t, f) == SumOf(s, f) + SumOf(t, f)
    decreases |t|
  {
    if t != [] {
      assert (s + t)[..|s + t| - 1] == s + t[..|t| - 1];
      SumOfAppend(s, t[..|t| - 1], f);
    } else {
      assert s + t == s;
    }
  }

  lemma SumOfPrefix<T>(s: seq<T>, i: nat, f: T -> nat)
    requires i < |s|
    ensures SumOf(s[..i + 1], f) == SumOf(s[..i], f) + f(s[i])
  {
    assert s[..i + 1][..i] == s[..i];
  }

  /** Taking element `i` out of a sequence takes its term out of the sum. */
  lemma SumOfRemove<T>(t: seq<T>, i: nat, f: T -> nat)
    requires i < |t|
    ensures SumOf(t, f) == SumOf(t[..i] + t[i + 1..], f) + f(t[i])
  {
    var t1, x, t2 := t[..i], t[i], t[i + 1..];
    assert t == (t1 + [x]) + t2;
    SumOfAppend(t1 + [x], t2, f);
    assert SumOf(t1 + [x], f) == SumOf(t1, f) + f(x) by {
      assert (t1 + [x])[..|t1|] == t1;
    }
    SumOfAppend(t1, t2, f);
  }

  /** Removing the last element of `s` and a matching element of a permutation `t` leaves permutations. */
  lemma RemoveMatching<T>(s: seq<T>, t: seq<T>, i: nat)
    requires multiset(s) == multiset(t) && s != []
    requires i < |t| && t[i] == s[|s| - 1]
    ensures multiset(s[..|s| - 1]) == multiset(t[..i] + t[i + 1..])
  {
    var x, s', t1, t2 := s[|s| - 1], s[..|s| - 1], t[..i], t[i + 1..];
    assert s == s' + [x];
    assert t == t1 + [x] + t2;
    calc {
      multiset(s');
      multiset(s) - multiset{x};
      multiset(t) - multiset{x};
      { assert multiset(t) == multiset(t1) + multiset{x} + multiset(t2); }
      multiset(t1) + multiset(t2);
      multiset(t1 + t2);
    }
  }

  /** A sum does not depend on the order of its terms. */
  lemma {:induction false} SumOfPermutation<T>(s: seq<T>, t: seq<T>, f: T -> nat)
    requires multiset(s) == multiset(t)
    ensures SumOf(s, f) == SumOf(t, f)
    decreases |s|
  {
    if s == [] {
      assert |t| == |multiset(t)| == 0;
    } else {
      var x := s[|s| - 1];
      assert x in multiset(s);
      var i :| 0 <= i < |t| && t[i] == x;
      RemoveMatching(s, t, i);
      SumOfPermutation(s[..|s| - 1], t[..i] + t[i + 1..], f);
      SumOfRemove(t, i, f);
    }
  }

  /** What one log adds to the total: its value, or 0 when it does not parse. */
  function LogValue(entry: Option<nat>): nat {
    entry.GetOr(0)
  }

  /** What one `getLogs` call adds to the total: 0 when it threw. */
  function BatchTotal(batch: LogBatch): nat {
    match batch
    case None => 0
    case Some(logs) => SumOf(logs, LogValue)
  }

  /** The `getLogs` answer for each burn address, in the order of `BURN_ADDRESSES`. */
  function Batches(getLogs: LogOracle, token: string, fromBlock: int, toBlock: int): (b: seq<LogBatch>)
    ensures |b| == |BURN_ADDRESSES|
  {
    seq(|BURN_ADDRESSES|, i requires 0 <= i < |BURN_ADDRESSES| =>
      getLogs(LogQuery(token, BURN_ADDRESSES[i], fromBlock, toBlock)))
  }

  /** The amount burned: the sum over all burn addresses of all parsed log values. */
  function BurnTotal(getLogs: LogOracle, token: string, fromBlock: int, toBlock: int): nat {
    SumOf(Batches(getLogs, token, fromBlock, toBlock), BatchTotal)
  }

  /** The order in which a node lists the logs of one query does not change what it adds. */
  lemma BatchTotalIgnoresLogOrder(logs1: seq<Option<nat>>, logs2: seq<Option<nat>>)
    requires multiset(logs1) == multiset(logs2)
    ensures BatchTotal(Some(logs1)) == BatchTotal(Some(logs2))
  {
    SumOfPermutation(logs1, logs2, LogValue);
  }

  /** Nor does the order in which the burn addresses are queried. */
  lemma TotalIgnoresAddressOrder(batches1: seq<LogBatch>, batches2: seq<LogBatch>)
    requires multiset(batches1) == multiset(batches2)
    ensures SumOf(batches1, BatchTotal) == SumOf(batches2, BatchTotal)
  {
    SumOfPermutation(batches1, batches2, BatchTotal);
  }

  /**
   * An unparseable log adds nothing: dropping every unparseable log from one
   * `getLogs` answer leaves its total unchanged. (A failed query adds 0 by
   * `BatchTotal`.)
   */
  lemma {:induction false} FailuresAddNothing(logs: seq<Option<nat>>)
    ensures SumOf(logs, LogValue) == SumOf(Parsed(logs), LogValue)
    ensures forall e :: e in Parsed(logs) ==> e.Some?
    decreases |logs|
  {
    if logs != [] {
      var init, last := logs[..|logs| - 1], logs[|logs| - 1];
      FailuresAddNothing(init);
      assert SumOf(logs, LogValue) == SumOf(init, LogValue) + LogValue(last);
      if last.Some? {
        assert Parsed(logs) == Parsed(init) + [last];
        SumOfAppend(Parsed(init), [last], LogValue);
        assert SumOf([last], LogValue) == LogValue(last) by {
          assert [last][..0] == [];
        }
      } else {
        assert Parsed(logs) == Parsed(init);
      }
    }
  }

  /** The logs of an answer that parsed, in order. */
  function Parsed(logs: seq<Option<nat>>): seq<Option<nat>> {
    if logs == [] then []
    else Parsed(logs[..|logs| - 1]) + (if logs[|logs| - 1].Some? then [logs[|logs| - 1]] else [])
  }

  /**
   * The nested loops of `fetchBurnLogs`; `queries` counts the `getLogs` calls. A
   * failed `getLogs` for one address and an unparseable log are skipped. The
   * `retryWithBackoff` wrapper around the loops calls them once and returns their
   * value (`Retry.RetryTransparent`), because the body catches every error itself.
   */
  method FetchBurnLogs(getLogs: LogOracle, tokenAddress: string, fromBlock: int, toBlock: int)
    returns (total: nat, ghost queries: nat)
    ensures total == BurnTotal(getLogs, tokenAddress, fromBlock, toBlock)
    ensures queries == |BURN_ADDRESSES|
  {
    ghost var batches := Batches(getLogs, tokenAddress, fromBlock, toBlock);
    var sum: nat := 0;
    queries := 0;
    for i := 0 to |BURN_ADDRESSES|
      invariant sum == SumOf(batches[..i], BatchTotal)
      invariant queries == i
    {
      var burnAddress := BURN_ADDRESSES[i];
      var logs := getLogs(LogQuery(tokenAddress, burnAddress, fromBlock, toBlock));
      queries := queries + 1;
      SumOfPrefix(batches, i, BatchTotal);
      match logs {
        case None =>
        case Some(entries) =>
          for j := 0 to |entries|
            invariant sum == SumOf(batches[..i], BatchTotal) + SumOf(entries[..j], LogValue)
          {
            SumOfPrefix(entries, j, LogValue);
            match entries[j] {
              case Some(value) => sum := sum + value;
              case None =>
            }
          }
          assert entries[..|entries|] == entries;
      }
    }
    assert batches[..|BURN_ADDRESSES|] == batches;
    total := sum;
  }

  /** A sum of terms each at least the matching term of another sum is at least that sum. */
  lemma {:induction false} SumOfDominated<T>(s: seq<T>, t: seq<T>, f: T -> nat)
    requires |s| == |t|
    requires forall i :: 0 <= i < |s| ==> f(s[i]) >= f(t[i])
    ensures SumOf(s, f) >= SumOf(t, f)
    decreases |s|
  {
    if s != [] {
      SumOfDominated(s[..|s| - 1], t[..|t| - 1], f);
    }
  }

  /** A transfer recorded on chain: token contract, recipient, block and value. */
  datatype Transfer = Transfer(token: string, to: string, block: int, value: nat)

  /** The transfer is one the query asks for. */
  predicate Selects(q: LogQuery, t: Transfer) {
    t.token == q.token && t.to == q.burnAddress && q.fromBlock <= t.block <= q.toBlock
  }

  /** The logs a consistent node returns for a query: the selected transfers, in ledger order. */
  function LedgerLogs(ledger: seq<Transfer>, q: LogQuery): seq<Option<nat>> {
    if ledger == [] then []
    else
      var last := ledger[|ledger| - 1];
      LedgerLogs(ledger[..|ledger| - 1], q) + (if Selects(q, last) then [Some(last.value)] else [])
  }

  /** A node that answers every query from one ledger and never fails. */
  function LedgerNode(ledger: seq<Transfer>): LogOracle {
    q => Some(LedgerLogs(ledger, q))
  }

  /** Moving the start of a query's range earlier never lowers what it adds up to. */
  lemma {:induction false} LedgerSumWidens(ledger: seq<Transfer>, q1: LogQuery, q2: LogQuery)
    requires q1.token == q2.token && q1.burnAddress == q2.burnAddress && q1.toBlock == q2.toBlock
    requires q1.fromBlock <= q2.fromBlock
    ensures SumOf(LedgerLogs(ledger, q1), LogValue) >= SumOf(LedgerLogs(ledger, q2), LogValue)
    decreases |ledger|
  {
    if ledger != [] {
      var init, last := ledger[..|ledger| - 1], ledger[|ledger| - 1];
      LedgerSumWidens(init, q1, q2);
      var tail1: seq<Option<nat>> := if Selects(q1, last) then [Some(last.value)] else [];
      var tail2: seq<Option<nat>> := if Selects(q2, last) then [Some(last.value)] else [];
      SumOfAppend(LedgerLogs(init, q1), tail1, LogValue);
      SumOfAppend(LedgerLogs(init, q2), tail2, LogValue);
      assert SumOf([Some(last.value)], LogValue) == last.value by {
        assert [Some(last.value)][..0] == [];
      }
    }
  }

  /**
   * On a consistent node the amount burned from `fromBlock1` to `toBlock` is at least
   * the amount burned from a later `fromBlock2`.
   */
  lemma WiderRangeBurnsMore(ledger: seq<Transfer>, token: string, fromBlock1: int, fromBlock2: int, toBlock: int)
    requires fromBlock1 <= fromBlock2
    ensures BurnTotal(LedgerNode(ledger), token, fromBlock1, toBlock) >=
            BurnTotal(LedgerNode(ledger), token, fromBlock2, toBlock)
  {
    var b1 := Batches(LedgerNode(ledger), token, fromBlock1, toBlock);
    var b2 := Batches(LedgerNode(ledger), token, fromBlock2, toBlock);
    forall i | 0 <= i < |b1|
      ensures BatchTotal(b1[i]) >= BatchTotal(b2[i])
    {
      LedgerSumWidens(ledger, LogQuery(token, BURN_ADDRESSES[i], fromBlock1, toBlock),
                      LogQuery(token, BURN_ADDRESSES[i], fromBlock2, toBlock));
    }
    SumOfDominated(b1, b2, BatchTotal);
  }
}
