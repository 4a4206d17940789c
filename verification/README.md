# S3 latency benchmark — a Dafny model

The program is a small Deno script that measures four object-storage calls
against an S3-compatible endpoint. Each iteration issues one ListObjects call
and one PutObject call. When the Put succeeds, it then issues a GetObject and a
DeleteObject of the uploaded key. After the loop, the script prints per-operation
latency statistics and a list of failures, and then sweeps the created keys
with a second round of deletes.

This project models the sequential core of that script as pure functions over
sequences. The storage client is replaced by an oracle: for iteration `i` it
says how each call turns out (a latency and either success or an error
message), and it supplies the clock-and-random part of the Put's key.

- `wrappers.dfy` — `Option` and `Result`.
- `benchmark.dfy` — module `Benchmark`: the `BenchmarkResult` record, the four
  measuring wrappers (outcome → result), the generated object key, and counts
  over a log.
- `config.dfy` — module `Config`: the configuration record and the check that
  rejects a missing bucket or missing credentials.
- `runner.dfy` — module `Runner`: one iteration, the run loop, the cleanup
  sweep, the imperative `RunBenchmark` method, and a grammar (`Shaped`) that
  the log is proved to follow.
- `statistics.dfy` — module `Statistics`: sorting, order statistics, the
  percentile positions, the per-kind sections and the failure list.
- `report.dfy` — module `Report`: what the summary of a run reports, and the
  expected scenarios.

Facts about the code that a reader might not expect:

- Each created key is deleted twice: once in its own iteration
  (src/main.ts:180) and again by the sweep (src/main.ts:194-196).
  `Runner.EveryCreatedKeyDeletedTwice` proves it.
- The percentile positions are not clamped to the last index.
  `Statistics.IndicesInBounds` proves that no clamp is needed.
- The loop is `for (i = 0; i < iterations; i++)`, so a count of zero or
  below runs no iteration. The model takes an `int` and does the same.
- The Put wrapper allocates and fills its random payload before its `try`
  (src/main.ts:67-68). A negative object size, or one above the 65536-byte
  quota of `getRandomValues`, makes the wrapper throw. The whole run then
  rejects after logging the first List: there is no summary and no sweep,
  and the process exits with status 1 (src/main.ts:333-340). `Runner.RunWith`
  and `Runner.RunBenchmark` model this ending.

## Model

| member | source | states |
|---|---|---|
| `Benchmark.ListObjectsResult` | src/main.ts:41-64 | The result is a ListObjects entry carrying the call's latency. It succeeds exactly when the call resolved. A failure records the error message. The entry is well formed: it has an error iff it failed, and never an object key. |
| `Benchmark.PutObjectResult` | src/main.ts:66-95 | The result is a PutObject entry carrying the call's latency. It succeeds exactly when the call resolved, and a failure records the error message. It carries an object key only on success, and that key is the generated one, which is never empty. |
| `Benchmark.GetObjectResult` | src/main.ts:97-121 | The result is a GetObject entry carrying the call's latency. It succeeds exactly when the call resolved, and a failure records the error message. It is well formed. |
| `Benchmark.DeleteObjectResult` | src/main.ts:123-146 | The result is a DeleteObject entry carrying the call's latency. It succeeds exactly when the call resolved, and a failure records the error message. It is well formed. |
| `Benchmark.PreparePayload` | src/main.ts:67-68 | Preparing the payload succeeds exactly when the size is between 0 and 65536 and yields that many bytes. A negative size is refused as an invalid length. A size over 65536 is refused by the random-fill quota. |
| `Benchmark.BenchmarkPutObject` | src/main.ts:66-95 | The Put wrapper throws exactly when its payload could not be prepared, with that error. Otherwise it yields the measured Put result. |
| `Benchmark.Chunks` | src/main.ts:67-68 | Splitting `n` bytes into random-fill calls gives non-empty pieces, each within the 65536-byte quota, that add up to exactly `n`. There are ⌈`n`/65536⌉ pieces. |
| `Benchmark.PreparePayloadChunked` | src/main.ts:67-68 | The corrected preparation succeeds exactly for every non-negative size, with that many bytes. A negative size is the only failure. |
| `Benchmark.LargePayloadRefused` | src/main.ts:67-68 | For 65537 bytes the preparation as written is refused by the quota. The chunked preparation fills all 65537 bytes in two calls of 65536 and 1 bytes. |
| `Benchmark.ObjectKey` | src/main.ts:69 | Every generated key starts with `benchmark-` and is therefore non-empty. |
| `Benchmark.CountSucceeded` | src/main.ts:212 | For each kind, a log never holds more successful entries than entries. |
| `Runner.ChainsOffIffPutSucceeded` | src/main.ts:171 | The loop's test `putResult.success && putResult.objectKey` holds exactly when the Put call resolved. A successful Put always carries a truthy key, so the key test never skips one. |
| `Runner.IterationShaped` | src/main.ts:162-183 | One iteration appends exactly one block to a log of `n` blocks, giving `n + 1` blocks. |
| `Runner.LoopShaped` | src/main.ts:158-183 | After `k` iterations, the log and the issued calls parse as exactly `k` blocks. Each block is List then Put. A successful Put of key `K` is followed by a Get of `K` and a Delete of `K`, whatever the Get's outcome. A failed Put carries no key and is followed by nothing. No other entries appear. |
| `Runner.IterationAccounted` | src/main.ts:162-183 | One iteration adds one List and one Put. It adds one Get, one Delete and one created key exactly when the Put succeeded. |
| `Runner.LoopAccounted` | src/main.ts:155-183 | After `k` iterations the log holds `k` Lists and `k` Puts. Get count = Delete count = number of created keys = number of successful Puts ≤ `k`. `createdKeys` is exactly the successful Puts' keys in log order. It also equals the Get targets and the in-loop Delete targets. Every entry is well formed. |
| `Runner.LoopAllPutsFail` | src/main.ts:171-172 | If every Put fails, no key is created. |
| `Runner.RunFacts` | src/main.ts:155-201 | For a whole run of `n = max(0, iterations)` iterations, the log follows the block grammar. It holds `n` Lists and `n` Puts. Get = Delete = successful Puts = created keys ≤ `n`. The sweep targets exactly the created keys. |
| `Runner.EveryCreatedKeyDeletedTwice` | src/main.ts:171-200 | Over the in-loop deletes plus the sweep, each key is deleted exactly twice as often as it was created. So every created key is deleted at least twice, and no key that was never created is deleted. |
| `Runner.SweepSkippedIffNothingCreated` | src/main.ts:192-200 | The sweep issues no delete exactly when no Put succeeded. |
| `Runner.BenchmarkIteration` | src/main.ts:160-183 | The loop body as written pushes each result as it arrives. It throws exactly when the payload cannot be prepared, after logging only the List. Otherwise it computes `Iteration`: 2 entries, plus 2 more exactly when the Put succeeded. In that case, and only then, it records exactly one created key. |
| `Runner.CleanupSweep` | src/main.ts:192-200 | The sweep loop issues one delete per created key, in order, and none when there are no created keys. |
| `Runner.RunLoop` | src/main.ts:155-187 | The counted loop throws exactly when it runs at least one iteration and the payload cannot be prepared. It then leaves after the first List, with nothing created. Otherwise it computes the trace of `max(0, iterations)` iterations. Either way it creates at most one key per iteration. |
| `Runner.RunBenchmark` | src/main.ts:148-202 | The payload is prepared at src/main.ts:67-68, and the rejection is handled at src/main.ts:333-340. A run aborts exactly when it has an iteration and the object size is outside 0..65536. An aborted run has issued one List call and logged one List result, with no Put, no summary and no sweep. Its error is the quota error exactly when the size is over 65536. A completed run has the block shape and holds `n` Lists and `n` Puts. Its Get, Delete, successful-Put and created-key counts are equal. `createdKeys` is the successful Puts' keys. The multiset of all delete targets is the created keys taken twice. |
| `Runner.ChunkedRunAbortsOnlyOnNegativeSize` | src/main.ts:66-68 | With the chunked payload, a run aborts exactly when it has an iteration and the size is negative. For any size over 65536, the run as written aborts whenever it has an iteration. The corrected run completes with the same output as a run whose payload is always ready. |
| `Statistics.SortAscending` | src/main.ts:215 | The sorted latencies are ascending and a permutation of the input. |
| `Statistics.SortedUnique` | src/main.ts:215 | Two ascending permutations of the same values are equal, so any correct sort gives the same array. |
| `Statistics.IndicesInBounds` | src/main.ts:219-221 | For `n ≥ 1` the positions `n/2`, `9n/10` and `99n/100` satisfy 0 ≤ median ≤ p90 ≤ p99 < `n`. |
| `Statistics.Min` | src/main.ts:217 | The minimum is one of the values and is ≤ every value. |
| `Statistics.Max` | src/main.ts:218 | The maximum is one of the values and is ≥ every value. |
| `Statistics.Latencies` | src/main.ts:212-215 | There is one latency per successful result of the kind. |
| `Statistics.LatenciesFromLog` | src/main.ts:212-215 | A value is among a kind's latencies exactly when some successful entry of that kind in the log has that latency. Failed entries and other kinds contribute nothing. |
| `Statistics.LatenciesOfEntry` | src/main.ts:212-215 | A single entry contributes exactly one latency, its own, when it is a success of the kind, and nothing otherwise. |
| `Statistics.LatenciesAppend` | src/main.ts:212-215 | The latencies of a concatenated log are the latencies of the first part followed by those of the second. Together with `LatenciesOfEntry`, this fixes the sample entry by entry: one value per successful entry of the kind, in log order, repeats included. So the percentiles are taken over exactly the program's `map(r => r.latencyMs)`. |
| `Statistics.OrderStatistics` | src/main.ts:215-221 | Position `k` of the sorted latencies holds the value of rank `k` among the unsorted ones. The rank is defined by counting smaller values, not by sorting. |
| `Statistics.StatsOf` | src/main.ts:213-221 | An empty sample yields no statistics. Otherwise the count is the sample size and min ≤ median ≤ p90 ≤ p99 ≤ max. |
| `Statistics.StatsAreOrderStatistics` | src/main.ts:215-221 | Each reported value has its rank in the unsorted sample: min rank 0, max the last rank, and median, p90 and p99 ranks `n/2`, `9n/10` and `99n/100`. |
| `Statistics.Sections` | src/main.ts:209-213 | A kind gets a section exactly when it has a successful result. That section's statistics are those of the kind's successful latencies. |
| `Statistics.SectionsInReportOrder` | src/main.ts:209-211 | Sections appear in the order ListObjects, PutObject, GetObject, DeleteObject. |
| `Statistics.Failures` | src/main.ts:233 | The failure list holds only unsuccessful results. Each unsuccessful result occurs in it as often as in the log. Per kind, the failures are that kind's entries minus its successes. |
| `Statistics.FailuresAppend` | src/main.ts:233 | Failure filtering commutes with concatenation, so the failures stay in log order. |
| `Statistics.NoFailuresIffAllSucceeded` | src/main.ts:233-234 | The failure list is empty exactly when every call succeeded. |
| `Statistics.Summarize` | src/main.ts:204-238 | Sections are exactly the kinds with a success, in report order, each with its own statistics. The failures section is omitted exactly when nothing failed; otherwise it is the failure list. |
| `Config.LoadConfig` | src/main.ts:262-280 | A missing or empty bucket is rejected first. Otherwise a missing or empty access key id or secret is rejected. Otherwise the configuration is accepted with every field taken from the arguments. |
| `Config.LoadConfigRoundTrip` | src/main.ts:262-280 | Every configuration with a bucket and both credentials is accepted when given back as arguments, and it is the configuration produced. |
| `Report.SectionCountsBounded` | src/main.ts:158-183 | No reported section counts more successes than `n`. Get and Delete sections count no more than the successful Puts. |
| `Report.NoPutSuccessNoGetOrDeleteSection` | src/main.ts:171-183 | A run with no successful Put reports no Get and no Delete section. |
| `Report.AllPutsFail` | src/main.ts:166-183 | If every Put fails, the log is `n` Lists and `n` failed Puts, nothing is created or swept, the failures hold exactly `n` Put errors, and there is no Get or Delete section. |
| `Report.SingleIteration` | src/main.ts:158-200 | One iteration whose Put succeeds logs List, Put, Get, Delete in that order. The Get and Delete target the uploaded key, and that key is deleted twice overall. |

## Left out

- The storage client and its command objects are an external library. Each call is replaced by its outcome, supplied by the oracle.
- `performance.now()` timing is nondeterministic. Latencies are integers supplied with each outcome.
- The `Date.now()` and `Math.random()` part of the key is nondeterministic. It is the oracle-supplied `stamp` after the fixed `benchmark-` prefix.
- The payload's bytes are random and only uploaded, so the model keeps only the payload's size and whether it could be prepared.
- `Statistics.Min`, `Statistics.Max`: the program calls `Math.min(...latencies)` and `Math.max(...latencies)`, which pass every latency as a call argument. For a very large sample the engine throws a `RangeError`, so the summary and the sweep would not run. The limit depends on the engine, so the model has no bound on the sample size.
- `Benchmark.PreparePayload`: a size too large to allocate makes the `Uint8Array` constructor throw a `RangeError` before the quota check. The model reports every size over 65536 as the quota error. Either way the wrapper throws, and the run ends the same way. The model also does not carry the error's message text, which the program prints before exiting.
- The Get body download (`transformToByteArray`) is only part of what the Get latency measures.
- The outcomes of the sweep's deletes are left out because the program discards them. The sweep is modelled as its list of targets.
- The sweep's `try/catch` is dead code, because the delete wrapper never throws.
- `StatsOf`: the average latency is not computed, because it is a floating-point mean used only for display.
- `Statistics.IndicesInBounds`: the positions are `n/2`, `(9n)/10` and `(99n)/100` in exact integer arithmetic. The program computes `Math.floor(n * 0.9)` and `Math.floor(n * 0.99)` in floating point. The nearest doubles to 0.9 and 0.99 are close enough that these floors equal the exact positions for any realistic sample size, so the model does not represent floating point.
- `Runner.RunFacts`: the iteration count is an integer. A fractional count (which `i < iterations` would round up) is not modelled.
- `Config.LoadConfig`: the object size is an integer. A fractional `--object-size`, such as 1.5, is truncated to 1 by `new Uint8Array` (src/main.ts:67) and is not modelled separately.
- `toFixed` formatting, all console output, the 100 ms pause between iterations, `.env` loading, `parseArgs` and the environment-variable fallbacks and defaults, `printUsage`, and `Deno.exit` are I/O and process plumbing. `Config.Args` stands for the already-merged arguments.
- `Summarize` is a function, so summarising the same log twice gives the same summary. No lemma states it.

## Findings

| source | as written | input that shows it | evidently intended | confidence | as-written member | corrected member |
|---|---|---|---|---|---|---|
| src/main.ts:67-68 | The whole Put payload is filled by one `crypto.getRandomValues` call, outside the wrapper's `try`. | `--object-size 65537`: the quota of 65536 bytes per call is exceeded. The first Put throws and the run exits with status 1 after one List, with no summary and no sweep. | Any non-negative object size is benchmarked, with the payload filled in chunks of at most 65536 bytes. | medium; not executed | `Benchmark.PreparePayload`, `Benchmark.LargePayloadRefused` | `Benchmark.PreparePayloadChunked`, `Runner.ChunkedRunAbortsOnlyOnNegativeSize` |
