# Burn tracker job, modelled in Dafny

This project models the job in `cron-job/job.js`. For every token symbol in `TOKEN_MAP`, the job works out how much of that token was sent to the two burn addresses over eight trailing windows: 5, 15 and 30 minutes, and 1, 3, 6, 12 and 24 hours. It then stores one record per token. The model covers five pieces:

- **`retryWithBackoff`** (module `Retry`, `retry.dfy`): the bounded retry loop. Only rate-limit errors are retried, with waits of 2000·2^k ms.
- **`findBlockByTimestamp`** (module `BlockSearch`, `block_search.dfy`): the binary search for the last block at or before a target time.
- **`fetchBurnLogs`** (module `BurnLogs`, `burn_logs.dfy`): the sum of all Transfer values sent to the burn addresses over a block range.
- **`calculateBurnData`** (module `BurnCalc`, `burn_calc.dfy`): the per-token pipeline. It looks up the address, makes three retried reads, runs the window loop and the log loop, renames the keys with the `.replace` chain, scales the amounts and assembles the record.
- **`processAllTokens`** (module `Fleet`, `fleet.dfy`): the round-robin split of the symbols across the providers, and the per-worker loop that computes, saves and reports each token.

Supporting modules:

- `Strings` (`strings.dfy`): ASCII `toLowerCase`, `includes` and first-occurrence `replace`.
- `Config` (`config.dfy`): the token table and the burn addresses.
- `Wrappers` (`wrappers.dfy`): `Option`.

The remote node is the datatype `BurnCalc.Node`, a bundle of oracles:

- the retried calls (`getBlockNumber`, `decimals`, `getBlock` of the head) are indexed by attempt number, so a retry may see a different answer;
- `blockTime` answers the block reads inside the search;
- `getLogs` answers log queries, each log already parsed or marked as unparseable.

The document store is the oracle `Fleet.SaveOracle`, and the clock is the parameter `now`. `TOKEN_MAP` is the constant `Config.TOKEN_TABLE`. The per-token functions take the table as a parameter (`tokenMap`), and `Fleet.ProcessAllTokens` passes `TOKEN_TABLE`.

Every loop of the source is a `method` with a loop. Each method is proved equal to a reference function:

- `RetryWithBackoff` to `Retry`;
- `FindBlockByTimestamp` to `ResolveBlock`;
- `FetchBurnLogs` to `BurnTotal`;
- `CalculateBurnData` to `BurnData`;
- `RunWorker` and `ProcessAllTokens` to `WorkerResults` and `RunResults`.

The methods that talk to the node also return a ghost count of their remote calls. With it, `CalculateBurnData` states that an unknown symbol gets `null` before any remote call.

The properties the job relies on are lemmas about those functions. Three of them need extra assumptions:

- the search finds the last qualifying block when timestamps are sorted;
- longer windows never report less on a consistent node;
- every token gets exactly one result.

## Model

| member | source | states |
|---|---|---|
| Strings.ToLower | cron-job/job.js:157 | `toLowerCase` over ASCII letters: keeps the length, lowers each ASCII capital and leaves every other character alone (non-ASCII case mapping is not modelled, see below) |
| Strings.IndexFrom | cron-job/job.js:69-71 | finds the first occurrence of the pattern at or after a start index; no earlier match exists; `None` exactly when there is no match from there on |
| Strings.Contains | cron-job/job.js:69-71 | `includes`: the first occurrence of the pattern exists |
| Strings.ContainsIff | cron-job/job.js:69-71 | `includes` holds exactly when the pattern occurs at some index |
| Strings.ContainsSelf | cron-job/job.js:69-71 | every string includes itself |
| Strings.ReplaceFirst | cron-job/job.js:207-215 | `replace` with a string pattern leaves an absent pattern's string unchanged; otherwise it swaps only the first occurrence and keeps the text before and after it |
| Strings.MissingCharNotFound | cron-job/job.js:207-215 | a pattern with a character the string lacks does not occur in it |
| Strings.MissingPairNotFound | cron-job/job.js:207-215 | a pattern holding two adjacent characters that never stand side by side in the string does not occur in it |
| Strings.ReplaceWhole | cron-job/job.js:207-215 | replacing a whole string by a replacement gives the replacement |
| Config.Keys | cron-job/job.js:263 | `Object.keys` of the table gives one key per entry, in declaration order |
| Config.Lookup | cron-job/job.js:157-161 | the lookup succeeds exactly when some entry has the key, and what it returns is that entry's address |
| Config.TokenAddress | cron-job/job.js:157-161 | `TOKEN_MAP[tokenName.toLowerCase()]` succeeds exactly when some entry has the lower-cased symbol as its key, and then gives that entry's address |
| Retry.IsRateLimit | cron-job/job.js:69-72 | an error is retried when its message includes "rate limit" or "too many requests", or its code is 429 |
| Retry.NotRateLimit | cron-job/job.js:69-72 | an error without code 429 whose message lacks some character of each lower-case pattern is not retried (the test is case-sensitive) |
| Retry.LowerCaseMessageRateLimit | cron-job/job.js:69-72 | the message "too many requests" counts as a rate limit |
| Retry.BackoffDelay | cron-job/job.js:76 | the wait after failed attempt `k` is `RETRY_DELAY * 2^k` ms |
| Retry.BackoffDoubles | cron-job/job.js:76 | the first wait is 2000 ms and each later wait is twice the one before |
| Retry.Schedule | cron-job/job.js:76-78 | the first `k` waits are 2000·2^j ms for j = 0..k-1 |
| Retry.Retry | cron-job/job.js:63-82 | reference for the retry loop: the outcome, the number of calls of `fn` and the waits, attempt by attempt |
| Retry.RetryWithBackoff | cron-job/job.js:63-82 | the loop returns or throws the same outcome as the reference `Retry`, after the same number of calls and the same waits |
| Retry.RetrySound | cron-job/job.js:63-82 | `fn` is called at most `maxRetries + 1` times; the result is the last call's outcome; every earlier call was rate-limited; the last call was decisive or the final one allowed; the waits are 2000, 4000, ...; with `maxRetries < 0`, `fn` is never called and "Max retries exceeded" is thrown |
| Retry.RetryFromSound | cron-job/job.js:64-79 | the same facts for the loop from any attempt on |
| Retry.RetryFromStops | cron-job/job.js:64-74 | the loop ends with a call that succeeds, throws a non-rate-limit error, or is the last allowed; its outcome is returned or rethrown |
| Retry.RetryFromRetriesRateLimits | cron-job/job.js:69-74 | only rate-limited calls are followed by another call |
| Retry.RetryFromWaits | cron-job/job.js:76-78 | one wait follows each call but the last, doubling each time |
| Retry.RetryStopsAtFirstDecisive | cron-job/job.js:63-82 | if the first `k` calls are rate-limited and call `k` is decisive or last, there are exactly `k + 1` calls and `k` waits of 2000·2^j ms, and call `k`'s outcome is returned or thrown |
| Retry.DefaultSchedule | cron-job/job.js:57-59 | with `MAX_RETRIES = 3` and `RETRY_DELAY = 2000`, the waits are 2000, 4000 and 8000 ms |
| Retry.RetryTransparent | cron-job/job.js:85-112 | an operation that never throws is called once and its value returned, so the wrappers around the search and the log fetch change nothing |
| BlockSearch.LastQualifying | cron-job/job.js:84-113 | reference for the search: the greatest block in `[1, hi]` at or before the target, or 0, with no qualifying block above it |
| BlockSearch.SomeBlockQualifiesLater | cron-job/job.js:97 | a block at or before a target is also at or before any later target |
| BlockSearch.SearchFromCorrect | cron-job/job.js:90-111 | from any state satisfying the loop invariant, the search resolves as `Resolved` describes |
| BlockSearch.SearchDoneCorrect | cron-job/job.js:90-111 | when the loop exits with the invariant holding, `max(closestBlock, 1)` is resolved as `Resolved` describes |
| BlockSearch.ResolveBlockCorrect | cron-job/job.js:86-111 | the result lies in `[1, max(latestBlock, 1)]`; it is either `latestBlock` or a block read at or before the target; when qualifying blocks form a prefix, it is the last of them, or `latestBlock` if none |
| BlockSearch.SortedDownClosed | cron-job/job.js:96-105 | readable blocks with non-decreasing timestamps make the qualifying blocks a prefix, for every target |
| BlockSearch.ResolveBlockOnSortedChain | cron-job/job.js:86-111 | on a sorted chain the result `b` satisfies `ts(b) <= target < ts(b + 1)` when some block qualifies, and is `latestBlock` when none does |
| BlockSearch.ResolveBlockMonotone | cron-job/job.js:84-113 | on a sorted chain, a later target never resolves to an earlier block, as long as the earlier target has a qualifying block |
| BlockSearch.NoQualifyingBlockResolvesToHead | cron-job/job.js:88-111 | worked example: with timestamps 1001..1010, target 1005 resolves to block 5, but a target before block 1 resolves to block 10, not 1 |
| BlockSearch.ResolveBlock | cron-job/job.js:84-113 | reference for the search: the loop from `left = 1`, `right = closestBlock = latestBlock`, returning `max(closestBlock, 1)`; its properties are `ResolveBlockCorrect` and the lemmas after it |
| BlockSearch.FindBlockByTimestamp | cron-job/job.js:84-113 | the while loop returns exactly `ResolveBlock` and so has every property of `Resolved`; fetch failures never escape; it reads a block exactly when `latestBlock >= 1` |
| BurnLogs.Batches | cron-job/job.js:119-130 | one `getLogs` answer per burn address |
| BurnLogs.BurnTotal | cron-job/job.js:115-153 | reference for the log fetch: the sum over the burn addresses of the parsed values of each answer, a failed query adding 0 |
| BurnLogs.SumOfPermutation | cron-job/job.js:117-151 | a sum is independent of the order of its terms |
| BurnLogs.BatchTotalIgnoresLogOrder | cron-job/job.js:133-145 | the order in which a node lists the logs of one query does not change the total |
| BurnLogs.TotalIgnoresAddressOrder | cron-job/job.js:119-149 | the order in which the burn addresses are queried does not change the total |
| BurnLogs.FailuresAddNothing | cron-job/job.js:133-145 | dropping every unparseable log from one answer leaves its sum unchanged |
| BurnLogs.FetchBurnLogs | cron-job/job.js:115-153 | the nested loops return the sum of all parsed values over both burn addresses; a failed query adds 0; one `getLogs` call per burn address |
| BurnLogs.LedgerSumWidens | cron-job/job.js:121-130 | on a node answering from one ledger, an earlier `fromBlock` never gives a smaller sum for one address |
| BurnLogs.WiderRangeBurnsMore | cron-job/job.js:115-153 | on such a node, the total over a range that starts earlier is at least the total over one that starts later |
| BurnCalc.ApplyRenames | cron-job/job.js:207-215 | a chain of `.replace` calls, applied left to right; what it does to the keys is `ApplyRenamesSkip`, `ApplyRenamesHit` and the Rename lemmas |
| BurnCalc.BurnKey | cron-job/job.js:206-215 | the record key of a window: the eight-step chain applied to its name (`BurnKeyRenamesWindows`) |
| BurnCalc.ApplyRenamesSkip | cron-job/job.js:207-215 | a key holding none of the patterns passes through the `.replace` chain unchanged |
| BurnCalc.ApplyRenamesHit | cron-job/job.js:207-215 | pattern `i` comes out of the chain as replacement `i` when no earlier pattern occurs in it and no later pattern occurs in its replacement |
| BurnCalc.OneHourNotInTwentyFourHours | cron-job/job.js:211-215 | "oneHour" does not occur in "twentyFourHours" |
| BurnCalc.KeyPassesLaterPatterns | cron-job/job.js:207-215 | no later pattern occurs in any record key |
| BurnCalc.RenameFiveMin | cron-job/job.js:208 | "fiveMin" becomes "burn5min" |
| BurnCalc.RenameFifteenMin | cron-job/job.js:209 | "fifteenMin" becomes "burn15min" |
| BurnCalc.RenameThirtyMin | cron-job/job.js:210 | "thirtyMin" becomes "burn30min" |
| BurnCalc.RenameOneHour | cron-job/job.js:211 | "oneHour" becomes "burn1h" |
| BurnCalc.RenameThreeHours | cron-job/job.js:212 | "threeHours" becomes "burn3h" |
| BurnCalc.RenameSixHours | cron-job/job.js:213 | "sixHours" becomes "burn6h" |
| BurnCalc.RenameTwelveHours | cron-job/job.js:214 | "twelveHours" becomes "burn12h" |
| BurnCalc.RenameTwentyFourHours | cron-job/job.js:215 | "twentyFourHours" becomes "burn24h" |
| BurnCalc.BurnKeyRenamesPatterns | cron-job/job.js:207-215 | the whole chain maps each of the eight patterns to its own key |
| BurnCalc.BurnKeysDistinct | cron-job/job.js:207-216 | the eight record keys are distinct, so no window overwrites another |
| BurnCalc.BurnKeyRenamesWindows | cron-job/job.js:178-215 | every window name in `intervals` goes to its record key, in declaration order |
| BurnCalc.Scale | cron-job/job.js:203-216 | the scaled amount is non-negative and times 10^decimals gives back the raw sum |
| BurnCalc.ScaleExamples | cron-job/job.js:203-216 | 5·10^18 raw units of an 18-decimal token scale to 5.0; nothing burned scales to 0 |
| BurnCalc.ScaleMonotone | cron-job/job.js:216 | a larger raw sum never scales to a smaller amount |
| BurnCalc.Get | cron-job/job.js:224-231 | the `or 0` fallback of `burnData.<key>`: a missing key reads as 0 |
| BurnCalc.AssembleRecord | cron-job/job.js:222-234 | the object literal: the address, the eight reads with their 0 fallback, `now` and `now + 300000` (`AssembleRecordReadsKeys`) |
| BurnCalc.AssembleRecordReadsKeys | cron-job/job.js:219-234 | record field `i` reads window `i`'s key and defaults to 0 when the key is missing; `nextUpdate` is `now` plus 300000 ms |
| BurnCalc.RecordOf | cron-job/job.js:222-234 | the record carries the address, the eight amounts in window order, `now` and `now + 300000` |
| BurnCalc.Prepare | cron-job/job.js:156-176 | the lookup and the three retried reads: `None` for an unknown symbol, a thrown read or a null head block, otherwise the address, head block, head timestamp and decimals |
| BurnCalc.ReadCalls | cron-job/job.js:156-174 | the number of remote calls the lookup and the three retried reads make |
| BurnCalc.ReadCallsSpec | cron-job/job.js:156-174 | an unknown symbol gives `null` before any remote call; a known one costs at least two calls and at most four attempts of each of the three reads |
| BurnCalc.BurnData | cron-job/job.js:155-239 | reference for `calculateBurnData`: `None` when `Prepare` fails, else the record of the eight window amounts (`BurnDataSpec`) |
| BurnCalc.BurnDataSpec | cron-job/job.js:155-239 | an unknown symbol gives `null`; a record exists exactly when the lookup and the three retried reads succeed with a non-null head; it carries the token's address, and window `i` holds the scaled sum from the block resolved for `latestTimestamp - seconds_i` up to `latestBlock` |
| BurnCalc.IntervalsIncrease | cron-job/job.js:178-187 | the windows are listed shortest first |
| BurnCalc.WindowStartsNest | cron-job/job.js:189-194 | on a sorted chain a longer window starts at or before a shorter one |
| BurnCalc.LongerWindowsBurnMore | cron-job/job.js:189-201 | on a sorted chain answering logs from one ledger, a longer window reports at least as much as a shorter one |
| BurnCalc.WindowAmountsNest | cron-job/job.js:178-231 | under those conditions, and if some block is 24 h older than the head, the eight amounts never decrease from `burn5min` to `burn24h` |
| BurnCalc.ReadChain | cron-job/job.js:156-176 | the lookup and the three retried reads give exactly `Prepare`: `None` for an unknown symbol, a thrown read or a null head block; the calls they make are `ReadCalls` |
| BurnCalc.EstimateBlocks | cron-job/job.js:189-194 | the first loop maps each window name to the block resolved for `latestTimestamp - seconds`; it reads blocks exactly when `latestBlock >= 1` |
| BurnCalc.FetchWindows | cron-job/job.js:196-201 | the second loop pairs each window name with the burn total from its start block to `latestBlock`, with two `getLogs` calls per window |
| BurnCalc.RenameKey | cron-job/job.js:207-215 | the chain turns window name `i` into record key `i` |
| BurnCalc.KeyAmounts | cron-job/job.js:206-217 | after the `forEach`, every window's record key holds that window's scaled amount |
| BurnCalc.CalculateBurnData | cron-job/job.js:155-239 | the method returns exactly `BurnData`, and so has every property stated of it; it makes no remote call exactly when the symbol is unknown; a record costs the reads plus 16 `getLogs` calls at least |
| Fleet.Chunk | cron-job/job.js:268 | `filter((_, index) => index % n === i)`: the tokens at positions `i`, `i + n`, ... in order (`ChunkElements`, `ChunkSize`) |
| Fleet.Chunks | cron-job/job.js:267-269 | one chunk per provider |
| Fleet.ChunkSize | cron-job/job.js:267-269 | with `m` tokens and `n` providers, chunk `i` holds `m / n` tokens, plus one when `i < m % n` |
| Fleet.ChunkElements | cron-job/job.js:268 | element `k` of chunk `i` is token `i + k·n`, so chunks keep the original order |
| Fleet.ChunksBalanced | cron-job/job.js:267-269 | no two chunks differ in size by more than one |
| Fleet.ChunksPartition | cron-job/job.js:267-269 | together the chunks are a permutation of the tokens: disjoint, and covering every one |
| Fleet.TokenResult | cron-job/job.js:277-291 | the report of one token: computed, then saved under the lower-cased symbol (`TokenResultSpec`) |
| Fleet.TokenResultSpec | cron-job/job.js:276-292 | a token succeeds exactly when its record was computed and saved; the save uses the lower-cased symbol; a failed calculation carries "Failed to calculate burn data"; a failed save carries no message; a token that did not succeed writes nothing |
| Fleet.WorkerResults | cron-job/job.js:276-293 | reference for one worker: the reports of its chunk's tokens, in chunk order |
| Fleet.RunResults | cron-job/job.js:263-297 | reference for the run: the reports of the first `k` workers, worker after worker |
| Fleet.WorkerCoversChunk | cron-job/job.js:276-293 | a worker reports once on each token of its chunk, in chunk order |
| Fleet.RunCoversChunks | cron-job/job.js:272-295 | the first `k` workers report on the first `k` chunks, chunk after chunk |
| Fleet.RunCoversTokens | cron-job/job.js:263-297 | with at least one provider, every token gets exactly one result |
| Fleet.OneResultPerToken | cron-job/job.js:263-297 | the run over the 23 symbols of `TOKEN_MAP` reports on each of them exactly once |
| Fleet.RunWorker | cron-job/job.js:276-293 | the worker loop returns the results and writes of `WorkerResults` and `WorkerWrites` |
| Fleet.ProcessTokens | cron-job/job.js:263-297 | over any token table, the chunking of `Object.keys` and the worker loops give `RunResults` and `RunWrites` |
| Fleet.ProcessAllTokens | cron-job/job.js:261-300 | the run over `TOKEN_MAP` gives `RunResults` and `RunWrites` over its 23 symbols |

## Left out

- Firebase (`saveBurnData`, `saveBurnDataToFirebase`, `getCachedBurnData`, cron-job/job.js:8-12, 241-259). The store is the oracle `Fleet.SaveOracle`. A successful save is a `Fleet.Write` of the record under the lower-cased symbol. A thrown save is a `false` answer, which the worker reports as `success: false` with no message. Reading the cache is not modelled.
- ethers internals: `getBlock`, `getBlockNumber`, `getLogs`, `decimals()` and `parseLog` are oracles in `BurnCalc.Node`. The event topic (`ethers.id`, keccak-256) and the zero-padded, lower-cased address topic are not modelled; a query is described by token, burn address and block range.
- Timers: `delay`/`setTimeout` are not modelled. The retry waits are recorded as the ghost `delays` sequence. The fixed 200 ms and 400 ms pauses between calls are not recorded.
- Dates: `new Date()` becomes the parameter `now` in milliseconds, and `toISOString` is not modelled. The source reads the clock once per token; the model uses one `now` per run.
- Floating point: `Number(result) / Number(divisor)` is the exact real quotient (`BurnCalc.Scale`). Rounding and the loss of precision above 2^53 are not modelled.
- `Promise.all` concurrency. The two concurrent reads in `calculateBurnData` are made one after the other. The workers of `processAllTokens` run one after the other, so `results` is their concatenation. The interleaving the source allows is not captured.
- `Fleet.ProcessAllTokens` returns its results and writes. The source only logs them and returns nothing.
- `Fleet.ProcessAllTokens` takes the providers as a list of any length. The source's list is a fixed one of three endpoints.
- JavaScript objects: lookups in `TOKEN_MAP` by inherited property names (such as "constructor") are not modelled. Lookups in `burnData` are covered by `BurnCalc.Get`.
- `BurnCalc.KeyAmounts` states that each of the eight record keys holds its window's amount. It does not state that the map has no other keys. The record reads only those eight keys, so nothing depends on it.
- Properties of the concrete token table (its keys are distinct and lower-case, so every symbol of the run resolves) are not proved. `Fleet.OneResultPerToken` counts results whether or not a lookup succeeds.
- `Strings.ToLower` lowers ASCII capitals only. JavaScript's `toLowerCase` also maps other characters, and some change length (U+212A KELVIN SIGN becomes "k"; "İ" becomes two code units). So a symbol written with such characters is unknown in the model but may be found by the source. The symbols the job looks up are the ASCII keys of `TOKEN_MAP`.
- `Strings.ReplaceFirst` inserts the replacement literally. JavaScript's `replace` also expands the `$&`, `$$`, `` $` `` and `$'` patterns in a replacement string. None of the eight replacements of the key chain holds a `$`.
- `BurnCalc.Node`: a provider's answers do not change during a run. The worker uses one `Node` for all of its tokens, so `getBlockNumber()` and `getBlock(latestBlock)` answer each token the same way. On the live chain the head moves on between tokens.
- `Config.TokenMap` is a sequence of entries and does not exclude duplicate keys, which a JavaScript object cannot hold. For such a table `Config.Keys` lists the key twice and `Config.Lookup` takes the first entry. `TOKEN_TABLE` has 23 distinct keys; that is not proved (see below).
- Logging: the `console.log` and `console.error` calls (cron-job/job.js:77, 143, 147, 159, 163, 236, 262, 278, 290, 299; those of the Firebase helpers are left out with them) have no effect on any result and are not modelled.
- `server.js` and `worker.js` (the HTTP routes, the schedule and the reschedule loop) are not part of this model.
- The code has no provider health checks, provider tiers, per-token failover, or fallback to `latestBlock - 1` for an unreadable head block, so none is modelled. A null head block gives `null`.
- When no block is at or before the target, the search returns `latestBlock` (`closestBlock` starts there, cron-job/job.js:88), not block 1. The model follows the code (`BlockSearch.NoQualifyingBlockResolvesToHead`).
- A failing block fetch inside the search is caught and treated as "too late"; it never aborts the search. The model follows the code. The bodies wrapped by `retryWithBackoff` in `findBlockByTimestamp` and `fetchBurnLogs` catch every error, so the wrapper calls them once and returns their value (`Retry.RetryTransparent`); the two methods model the bodies without the wrapper.
