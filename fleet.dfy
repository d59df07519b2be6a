/**
 * `processAllTokens` (cron-job/job.js): split the token symbols across the
 * providers round-robin, let one worker per provider compute and save the
 * record of each of its tokens in turn, and collect one result per token.
 *
 * The providers are the `nodes` parameter; the document store is the oracle
 * `saveOk`, which says whether `setDoc` of a record under a key succeeds.
 */
module Fleet {
  import opened Wrappers
  import opened Strings
  import opened Config
  import opened BurnCalc

  lemma MulAtLeast(d: int, n: int)
    requires d >= 1 && n > 0
    ensures d * n >= n
  {
    assert d * n == (d - 1) * n + n;
    assert (d - 1) * n >= 0;
  }

  /** The quotient and remainder of `x` by `n` are the only pair that rebuilds `x`. */
  lemma DivModUnique(x: int, n: int, q: int, r: int)
    requires n > 0 && 0 <= r < n && x == q * n + r
    ensures x / n == q && x % n == r
  {
    var q0, r0 := x / n, x % n;
    assert x == q0 * n + r0;
    assert (q - q0) * n == r0 - r;
    if q > q0 {
      MulAtLeast(q - q0, n);
    } else if q < q0 {
      MulAtLeast(q0 - q, n);
    }
  }

  lemma DivModNext(m: nat, n: nat)
    requires n > 0
    ensures (m + 1) % n == (if m % n == n - 1 then 0 else m % n + 1)
    ensures (m + 1) / n == (if m % n == n - 1 then m / n + 1 else m / n)
  {
    if m % n == n - 1 {
      DivModUnique(m + 1, n, m / n + 1, 0);
    } else {
      DivModUnique(m + 1, n, m / n, m % n + 1);
    }
  }

  /** `s.filter((_, index) => index % n === i)`: the elements at the positions `i`, `i + n`, ... */
  function Chunk<T>(s: seq<T>, n: nat, i: nat): seq<T> {
    if s == [] then []
    else Chunk(s[..|s| - 1], n, i) + (if n > 0 && (|s| - 1) % n == i then [s[|s| - 1]] else [])
  }

  /** One chunk per provider. */
  function Chunks<T>(s: seq<T>, n: nat): (c: seq<seq<T>>)
    ensures |c| == n
  {
    seq(n, i requires 0 <= i < n => Chunk(s, n, i))
  }

  /** Chunk `i` holds one element for each position below `|s|` that is `i` modulo `n`. */
  lemma {:induction false} ChunkSize<T>(s: seq<T>, n: nat, i: nat)
    requires i < n
    ensures |Chunk(s, n, i)| == |s| / n + (if i < |s| % n then 1 else 0)
    decreases |s|
  {
    if s != [] {
      ChunkSize(s[..|s| - 1], n, i);
      DivModNext(|s| - 1, n);
    }
  }

  /** The last position below `len` that is `i` modulo `n` is `i + m * n` for the `m` below it. */
  lemma LastPosition(len: nat, n: nat, i: nat)
    requires n > 0 && len > 0 && (len - 1) % n == i
    ensures i + ((len - 1) / n) * n == len - 1
  {
  }

  /** Element `k` of chunk `i` is element `i + k * n` of `s`. */
  lemma {:induction false} ChunkElements<T>(s: seq<T>, n: nat, i: nat)
    requires i < n
    ensures forall k :: 0 <= k < |Chunk(s, n, i)| ==> i + k * n < |s| && Chunk(s, n, i)[k] == s[i + k * n]
    decreases |s|
  {
    if s != [] {
      var init, x := s[..|s| - 1], s[|s| - 1];
      var before, after := Chunk(init, n, i), Chunk(s, n, i);
      ChunkElements(init, n, i);
      if (|s| - 1) % n == i {
        ChunkSize(init, n, i);
        LastPosition(|s|, n, i);
        var m := |before|;
        assert m == (|s| - 1) / n;
        assert after == before + [x];
        forall k | 0 <= k < |after|
          ensures i + k * n < |s| && after[k] == s[i + k * n]
        {
          if k < m {
            assert after[k] == before[k];
          }
        }
      } else {
        assert after == before;
      }
    }
  }

  /** The chunks are balanced: no two differ in size by more than one. */
  lemma ChunksBalanced<T>(s: seq<T>, n: nat)
    ensures forall i, j :: 0 <= i < n && 0 <= j < n ==> |Chunks(s, n)[i]| <= |Chunks(s, n)[j]| + 1
  {
    forall i, j | 0 <= i < n && 0 <= j < n
      ensures |Chunks(s, n)[i]| <= |Chunks(s, n)[j]| + 1
    {
      ChunkSize(s, n, i);
      ChunkSize(s, n, j);
    }
  }

  /** The chunks one after the other. */
  function Flatten<T>(ss: seq<seq<T>>): seq<T> {
    if ss == [] then [] else Flatten(ss[..|ss| - 1]) + ss[|ss| - 1]
  }

  lemma {:induction false} FlattenAppendTo<T>(ss: seq<seq<T>>, c: nat, x: T)
    requires c < |ss|
    ensures multiset(Flatten(ss[c := ss[c] + [x]])) == multiset(Flatten(ss)) + multiset{x}
    decreases |ss|
  {
    var ss' := ss[c := ss[c] + [x]];
    var last := |ss| - 1;
    var init := ss[..last];
    assert Flatten(ss) == Flatten(init) + ss[last];
    if c == last {
      assert ss'[..last] == init;
      assert Flatten(ss') == Flatten(init) + (ss[last] + [x]);
    } else {
      assert ss'[..last] == init[c := init[c] + [x]];
      assert Flatten(ss') == Flatten(init[c := init[c] + [x]]) + ss[last];
      FlattenAppendTo(init, c, x);
    }
  }

  /** Every element lands in exactly one chunk: together the chunks are a permutation of `s`. */
  lemma {:induction false} ChunksPartition<T>(s: seq<T>, n: nat)
    requires n > 0
    ensures multiset(Flatten(Chunks(s, n))) == multiset(s)
    decreases |s|
  {
    if s == [] {
      var empty := Chunks(s, n);
      assert forall i :: 0 <= i < n ==> empty[i] == [];
      FlattenOfEmpties(empty);
    } else {
      var init, x := s[..|s| - 1], s[|s| - 1];
      ChunksPartition(init, n);
      assert multiset(Flatten(Chunks(s, n))) == multiset(Flatten(Chunks(init, n))) + multiset{x} by {
        ChunksAppend(s, n);
        FlattenAppendTo(Chunks(init, n), (|s| - 1) % n, x);
      }
      assert s == init + [x];
    }
  }

  /** Adding an element at position `m` appends it to chunk `m % n` and leaves the others. */
  lemma ChunksAppend<T>(s: seq<T>, n: nat)
    requires n > 0 && s != []
    ensures var c := (|s| - 1) % n;
      Chunks(s, n) == Chunks(s[..|s| - 1], n)[c := Chunks(s[..|s| - 1], n)[c] + [s[|s| - 1]]]
  {
    var c := (|s| - 1) % n;
    var before, after := Chunks(s[..|s| - 1], n), Chunks(s, n);
    forall j | 0 <= j < n
      ensures after[j] == before[c := before[c] + [s[|s| - 1]]][j]
    {
      assert after[j] == Chunk(s, n, j);
    }
  }

  lemma {:induction false} FlattenOfEmpties<T>(ss: seq<seq<T>>)
    requires forall i :: 0 <= i < |ss| ==> ss[i] == []
    ensures Flatten(ss) == []
    decreases |ss|
  {
    if ss != [] {
      FlattenOfEmpties(ss[..|ss| - 1]);
    }
  }

  /** The message of a token whose record could not be computed. */
  const CALC_FAILED: string := "Failed to calculate burn data"

  /** One entry of `results`: `{ tokenName, success }`, with `error` when the calculation failed. */
  datatype JobResult = JobResult(tokenName: string, success: bool, error: Option<string>)

  /** A `setDoc` of a record under a key in the `burnData` collection. */
  datatype Write = Write(key: string, record: BurnRecord)

  /** Whether the store accepts a record under a key. */
  type SaveOracle = (string, BurnRecord) -> bool

  /** The result one token gets from the worker of `node`. */
  function TokenResult(tokenMap: TokenMap, tokenName: string, node: Node, saveOk: SaveOracle, now: int): JobResult {
    match BurnData(tokenMap, tokenName, node, now)
    case None => JobResult(tokenName, false, Some(CALC_FAILED))
    case Some(rec) => JobResult(tokenName, saveOk(ToLower(tokenName), rec), None)
  }

  /** The write one token gets: its record under its lower-cased symbol, if the store took it. */
  function TokenWrites(tokenMap: TokenMap, tokenName: string, node: Node, saveOk: SaveOracle, now: int): seq<Write> {
    match BurnData(tokenMap, tokenName, node, now)
    case None => []
    case Some(rec) => if saveOk(ToLower(tokenName), rec) then [Write(ToLower(tokenName), rec)] else []
  }

  /**
   * A token succeeds exactly when its record was computed and saved; the save goes
   * under the lower-cased symbol; a failed calculation carries the fixed message and
   * a failed save carries none; nothing is written for a token that did not succeed.
   */
  lemma TokenResultSpec(tokenMap: TokenMap, tokenName: string, node: Node, saveOk: SaveOracle, now: int)
    ensures var r := TokenResult(tokenMap, tokenName, node, saveOk, now);
      var w := TokenWrites(tokenMap, tokenName, node, saveOk, now);
      var data := BurnData(tokenMap, tokenName, node, now);
      r.tokenName == tokenName &&
      (r.success <==> data.Some? && saveOk(ToLower(tokenName), data.value)) &&
      (r.error == Some(CALC_FAILED) <==> data.None?) &&
      (r.success ==> r.error.None?) &&
      (r.success ==> w == [Write(ToLower(tokenName), data.value)]) &&
      (!r.success ==> w == [])
  {
  }

  /** The symbols of a list of results, in order. */
  function Names(results: seq<JobResult>): (names: seq<string>)
    ensures |names| == |results|
    ensures forall i :: 0 <= i < |results| ==> names[i] == results[i].tokenName
  {
    seq(|results|, i requires 0 <= i < |results| => results[i].tokenName)
  }

  /** The results of one worker over its chunk, in order. */
  function WorkerResults(tokenMap: TokenMap, tokens: seq<string>, node: Node, saveOk: SaveOracle, now: int): seq<JobResult> {
    if tokens == [] then []
    else WorkerResults(tokenMap, tokens[..|tokens| - 1], node, saveOk, now) + [TokenResult(tokenMap, tokens[|tokens| - 1], node, saveOk, now)]
  }

  function WorkerWrites(tokenMap: TokenMap, tokens: seq<string>, node: Node, saveOk: SaveOracle, now: int): seq<Write> {
    if tokens == [] then []
    else WorkerWrites(tokenMap, tokens[..|tokens| - 1], node, saveOk, now) + TokenWrites(tokenMap, tokens[|tokens| - 1], node, saveOk, now)
  }

  /** The results of the first `k` workers, worker by worker. */
  function RunResults(tokenMap: TokenMap, tokens: seq<string>, nodes: seq<Node>, k: nat, saveOk: SaveOracle, now: int): seq<JobResult>
    requires k <= |nodes|
  {
    if k == 0 then []
    else
      RunResults(tokenMap, tokens, nodes, k - 1, saveOk, now) +
      WorkerResults(tokenMap, Chunks(tokens, |nodes|)[k - 1], nodes[k - 1], saveOk, now)
  }

  function RunWrites(tokenMap: TokenMap, tokens: seq<string>, nodes: seq<Node>, k: nat, saveOk: SaveOracle, now: int): seq<Write>
    requires k <= |nodes|
  {
    if k == 0 then []
    else
      RunWrites(tokenMap, tokens, nodes, k - 1, saveOk, now) +
      WorkerWrites(tokenMap, Chunks(tokens, |nodes|)[k - 1], nodes[k - 1], saveOk, now)
  }

  /** A worker reports on each token of its chunk once, in chunk order. */
  lemma {:induction false} WorkerCoversChunk(tokenMap: TokenMap, tokens: seq<string>, node: Node, saveOk: SaveOracle, now: int)
    ensures Names(WorkerResults(tokenMap, tokens, node, saveOk, now)) == tokens
    decreases |tokens|
  {
    if tokens != [] {
      WorkerCoversChunk(tokenMap, tokens[..|tokens| - 1], node, saveOk, now);
    }
  }

  lemma {:induction false} RunCoversChunks(tokenMap: TokenMap, tokens: seq<string>, nodes: seq<Node>, k: nat, saveOk: SaveOracle, now: int)
    requires k <= |nodes|
    ensures Names(RunResults(tokenMap, tokens, nodes, k, saveOk, now)) == Flatten(Chunks(tokens, |nodes|)[..k])
    decreases k
  {
    var chunks := Chunks(tokens, |nodes|);
    if k > 0 {
      RunCoversChunks(tokenMap, tokens, nodes, k - 1, saveOk, now);
      WorkerCoversChunk(tokenMap, chunks[k - 1], nodes[k - 1], saveOk, now);
      assert chunks[..k][..k - 1] == chunks[..k - 1];
      var prev := RunResults(tokenMap, tokens, nodes, k - 1, saveOk, now);
      var more := WorkerResults(tokenMap, chunks[k - 1], nodes[k - 1], saveOk, now);
      assert Names(prev + more) == Names(prev) + Names(more);
    }
  }

  /** With at least one provider, the run reports on every token exactly once (in some order). */
  lemma RunCoversTokens(tokenMap: TokenMap, tokens: seq<string>, nodes: seq<Node>, saveOk: SaveOracle, now: int)
    requires |nodes| > 0
    ensures multiset(Names(RunResults(tokenMap, tokens, nodes, |nodes|, saveOk, now))) == multiset(tokens)
  {
    var chunks := Chunks(tokens, |nodes|);
    RunCoversChunks(tokenMap, tokens, nodes, |nodes|, saveOk, now);
    assert chunks[..|nodes|] == chunks;
    ChunksPartition(tokens, |nodes|);
  }

  /** The run over `TOKEN_MAP` reports on each of its 23 symbols exactly once. */
  lemma OneResultPerToken(nodes: seq<Node>, saveOk: SaveOracle, now: int)
    requires |nodes| > 0
    ensures multiset(Names(RunResults(TOKEN_TABLE, TOKEN_NAMES, nodes, |nodes|, saveOk, now))) == multiset(TOKEN_NAMES)
  {
    RunCoversTokens(TOKEN_TABLE, TOKEN_NAMES, nodes, saveOk, now);
  }

  /** The worker of one provider: its chunk, token by token. */
  method RunWorker(tokenMap: TokenMap, tokens: seq<string>, node: Node, saveOk: SaveOracle, now: int)
    returns (results: seq<JobResult>, writes: seq<Write>)
    ensures results == WorkerResults(tokenMap, tokens, node, saveOk, now)
    ensures writes == WorkerWrites(tokenMap, tokens, node, saveOk, now)
  {
    results, writes := [], [];
    for t := 0 to |tokens|
      invariant results == WorkerResults(tokenMap, tokens[..t], node, saveOk, now)
      invariant writes == WorkerWrites(tokenMap, tokens[..t], node, saveOk, now)
    {
      var tokenName := tokens[t];
      assert tokens[..t + 1][..t] == tokens[..t];
      var burnData;
      ghost var calls;
      burnData, calls := CalculateBurnData(tokenMap, tokenName, node, now);
      match burnData {
        case Some(rec) =>
          var key := ToLower(tokenName);
          if saveOk(key, rec) {
            writes := writes + [Write(key, rec)];
            results := results + [JobResult(tokenName, true, None)];
          } else {
            results := results + [JobResult(tokenName, false, None)];
          }
        case None =>
          results := results + [JobResult(tokenName, false, Some(CALC_FAILED))];
      }
    }
    assert tokens[..|tokens|] == tokens;
  }

  /**
   * The body of `processAllTokens()` over a token table and the providers `nodes`.
   * The workers run one after the other here; `results` is the concatenation of
   * their reports.
   */
  method ProcessTokens(tokenMap: TokenMap, nodes: seq<Node>, saveOk: SaveOracle, now: int)
    returns (results: seq<JobResult>, writes: seq<Write>)
    ensures results == RunResults(tokenMap, Keys(tokenMap), nodes, |nodes|, saveOk, now)
    ensures writes == RunWrites(tokenMap, Keys(tokenMap), nodes, |nodes|, saveOk, now)
  {
    var tokenNames := Keys(tokenMap);
    var tokenChunks := Chunks(tokenNames, |nodes|);
    results, writes := [], [];
    for idx := 0 to |tokenChunks|
      invariant results == RunResults(tokenMap, tokenNames, nodes, idx, saveOk, now)
      invariant writes == RunWrites(tokenMap, tokenNames, nodes, idx, saveOk, now)
    {
      var workerResults, workerWrites := RunWorker(tokenMap, tokenChunks[idx], nodes[idx], saveOk, now);
      results := results + workerResults;
      writes := writes + workerWrites;
    }
  }

  /** `processAllTokens()`: the run over `TOKEN_MAP`. */
  method ProcessAllTokens(nodes: seq<Node>, saveOk: SaveOracle, now: int)
    returns (results: seq<JobResult>, writes: seq<Write>)
    ensures results == RunResults(TOKEN_TABLE, TOKEN_NAMES, nodes, |nodes|, saveOk, now)
    ensures writes == RunWrites(TOKEN_TABLE, TOKEN_NAMES, nodes, |nodes|, saveOk, now)
  {
    results, writes := ProcessTokens(TOKEN_TABLE, nodes, saveOk, now);
  }
}
