/**
  The run loop of the benchmark and its end-of-run cleanup sweep.

  The storage client is replaced by an oracle that, for iteration `i`, says
  how each call of that iteration turns out (`Round`). Timing and key
  generation are part of the oracle's answer. The loop is then a pure
  function from the iteration count and the oracle to the result log, the
  calls issued (with the keys they target), the list of created keys and the
  targets of the final sweep.
*/
module Runner {
  import opened Wrappers
  import opened Benchmark
  import opened Config

  /** How the storage client answers the calls of one iteration. `stamp` is
      the time-and-random part of the key the Put draws. The Get and Delete
      answers are only consulted when the Put succeeded. */
  datatype Round = Round(list: Outcome, stamp: string, put: Outcome, get: Outcome, delete: Outcome)

  /** A call issued to the storage client, with the object key it targets. */
  datatype Request =
    | ListRequest
    | PutRequest(key: string)
    | GetRequest(key: string)
    | DeleteRequest(key: string)

  /** State of the run loop: the result log, the calls issued (one per log
      entry, same order) and the keys recorded as created. */
  datatype Trace = Trace(results: seq<BenchmarkResult>, requests: seq<Request>, createdKeys: seq<string>)

  /** Everything a run produces: the loop's trace plus the cleanup sweep's
      delete targets. The sweep's own results are not logged. */
  datatype RunOutput = RunOutput(
    results: seq<BenchmarkResult>,
    requests: seq<Request>,
    createdKeys: seq<string>,
    sweep: seq<string>
  )

  /** The loop's test for chaining Get and Delete off a Put: the Put
      succeeded and carries a key that is truthy, that is, non-empty. */
  predicate ChainsOff(putResult: BenchmarkResult) {
    putResult.success && putResult.objectKey.Some? && putResult.objectKey.value != ""
  }

  /** One iteration: List, then Put, then, if the Put succeeded with a key,
      record the key, Get it and Delete it. Each result is pushed in call
      order. */
  function Iteration(t: Trace, round: Round): Trace {
    var listResult := ListObjectsResult(round.list);
    var putResult := PutObjectResult(round.stamp, round.put);
    var results := t.results + [listResult] + [putResult];
    var requests := t.requests + [ListRequest] + [PutRequest(ObjectKey(round.stamp))];
    if ChainsOff(putResult) then
      var key := putResult.objectKey.value;
      Trace(results + [GetObjectResult(round.get)] + [DeleteObjectResult(round.delete)],
            requests + [GetRequest(key)] + [DeleteRequest(key)],
            t.createdKeys + [key])
    else
      Trace(results, requests, t.createdKeys)
  }

  /** How many times `for (let i = 0; i < iterations; i++)` runs its body. */
  function IterationCount(iterations: int): nat
  {
    if iterations <= 0 then 0 else iterations
  }

  /** The trace after the first `k` iterations. */
  function Loop(k: nat, oracle: nat -> Round): Trace
  {
    if k == 0 then Trace([], [], []) else Iteration(Loop(k - 1, oracle), oracle(k - 1))
  }

  /** The cleanup sweep visits every created key, in order, and is skipped
      when there is none. It does not look at which keys were already
      deleted in their own iteration. */
  function Sweep(createdKeys: seq<string>): seq<string> {
    if |createdKeys| > 0 then createdKeys else []
  }

  /** A whole run whose Put payload is prepared without error: the loop,
      then the sweep. */
  function Run(iterations: int, oracle: nat -> Round): RunOutput {
    var t := Loop(IterationCount(iterations), oracle);
    RunOutput(t.results, t.requests, t.createdKeys, Sweep(t.createdKeys))
  }

  /** How a run ends. An aborted run has logged and issued only what came
      before the throw; it prints no summary and runs no sweep, and the
      process exits with status 1. */
  datatype Ending =
    | Completed(out: RunOutput)
    | Aborted(results: seq<BenchmarkResult>, requests: seq<Request>, error: PayloadError)

  /** A whole run, given how preparing the Put payload turns out. The
      payload depends only on the configured size, so it fails in every
      iteration or in none: when it fails, the first iteration logs its
      List and then the Put wrapper throws, which rejects the run. */
  function RunWith(iterations: int, payload: Result<nat, PayloadError>, oracle: nat -> Round): Ending {
    if IterationCount(iterations) > 0 && payload.Failure? then
      Aborted([ListObjectsResult(oracle(0).list)], [ListRequest], payload.error)
    else
      Completed(Run(iterations, oracle))
  }

  // ---------------------------------------------------------------------
  // Reference definitions the loop is proved against
  // ---------------------------------------------------------------------

  /** The layout of a log of `n` iterations, read from the front: each
      iteration is a List then a Put; a successful Put carrying key `k` is
      followed by a Get of `k` and a Delete of `k`; a failed Put by nothing. */
  predicate Shaped(log: seq<BenchmarkResult>, reqs: seq<Request>, n: nat)
    decreases n
  {
    if n == 0 then log == [] && reqs == []
    else
      && HeadBlock(log, reqs)
      && Shaped(log[BlockLength(log)..], reqs[BlockLength(log)..], n - 1)
  }

  /** The log and the calls start with one iteration's block. */
  predicate HeadBlock(log: seq<BenchmarkResult>, reqs: seq<Request>) {
    && |log| >= 2 && |reqs| >= 2
    && log[0].operation == ListObjects && reqs[0] == ListRequest
    && log[1].operation == PutObject && reqs[1].PutRequest?
    && if log[1].success then
         && log[1].objectKey == Some(reqs[1].key)
         && |log| >= 4 && |reqs| >= 4
         && log[2].operation == GetObject && reqs[2] == GetRequest(reqs[1].key)
         && log[3].operation == DeleteObject && reqs[3] == DeleteRequest(reqs[1].key)
       else
         log[1].objectKey.None?
  }

  /** Length of the block a log starts with: 4 after a successful Put, else 2. */
  function BlockLength(log: seq<BenchmarkResult>): nat
    requires |log| >= 2
  {
    if log[1].success then 4 else 2
  }

  /** Keys of the successful Puts of a log, in log order. */
  function PutKeys(log: seq<BenchmarkResult>): seq<string>
  {
    if log == [] then []
    else
      var last := log[|log| - 1];
      PutKeys(log[..|log| - 1])
      + (if last.operation == PutObject && last.success && last.objectKey.Some? then [last.objectKey.value] else [])
  }

  /** Keys targeted by the Get requests, in call order. */
  function GetTargets(reqs: seq<Request>): seq<string>
  {
    if reqs == [] then []
    else GetTargets(reqs[..|reqs| - 1]) + (if reqs[|reqs| - 1].GetRequest? then [reqs[|reqs| - 1].key] else [])
  }

  /** Keys targeted by the Delete requests, in call order. */
  function DeleteTargets(reqs: seq<Request>): seq<string>
  {
    if reqs == [] then []
    else DeleteTargets(reqs[..|reqs| - 1]) + (if reqs[|reqs| - 1].DeleteRequest? then [reqs[|reqs| - 1].key] else [])
  }

  // ---------------------------------------------------------------------
  // Lemmas
  // ---------------------------------------------------------------------

  /** The wrapper never hands the loop a successful Put without a usable
      key, so the truthiness test on the key never skips a successful Put. */
  lemma ChainsOffIffPutSucceeded(stamp: string, o: Outcome)
    ensures ChainsOff(PutObjectResult(stamp, o)) <==> o.Succeeded?
  {
  }

  /** A block at the front stays at the front when more is appended. */
  lemma HeadBlockAppend(a: seq<BenchmarkResult>, ra: seq<Request>, b: seq<BenchmarkResult>, rb: seq<Request>)
    requires HeadBlock(a, ra) && |ra| >= BlockLength(a)
    ensures HeadBlock(a + b, ra + rb)
    ensures BlockLength(a + b) == BlockLength(a)
    ensures (a + b)[BlockLength(a)..] == a[BlockLength(a)..] + b
    ensures (ra + rb)[BlockLength(a)..] == ra[BlockLength(a)..] + rb
  {
  }

  /** Appending one iteration's block to a log of `n` iterations gives a
      log of `n + 1` iterations. */
  lemma {:induction false} ShapedAppend(a: seq<BenchmarkResult>, ra: seq<Request>, n: nat,
                                        b: seq<BenchmarkResult>, rb: seq<Request>)
    requires Shaped(a, ra, n) && Shaped(b, rb, 1)
    ensures Shaped(a + b, ra + rb, n + 1)
    decreases n
  {
    if n == 0 {
      assert a + b == b && ra + rb == rb;
    } else {
      var m := BlockLength(a);
      ShapedLength(a[m..], ra[m..], n - 1);
      HeadBlockAppend(a, ra, b, rb);
      ShapedAppend(a[m..], ra[m..], n - 1, b, rb);
    }
  }

  /** A shaped log and its calls have the same length. */
  lemma {:induction false} ShapedLength(log: seq<BenchmarkResult>, reqs: seq<Request>, n: nat)
    requires Shaped(log, reqs, n)
    ensures |log| == |reqs|
    decreases n
  {
    if n > 0 {
      ShapedLength(log[BlockLength(log)..], reqs[BlockLength(log)..], n - 1);
    }
  }

  /** One iteration appends exactly one well-shaped block. */
  lemma IterationShaped(t: Trace, round: Round, n: nat)
    requires Shaped(t.results, t.requests, n)
    ensures Shaped(Iteration(t, round).results, Iteration(t, round).requests, n + 1)
  {
    var l := ListObjectsResult(round.list);
    var p := PutObjectResult(round.stamp, round.put);
    var pr := PutRequest(ObjectKey(round.stamp));
    var t' := Iteration(t, round);
    if ChainsOff(p) {
      var key := p.objectKey.value;
      var b := [l, p, GetObjectResult(round.get), DeleteObjectResult(round.delete)];
      var rb := [ListRequest, pr, GetRequest(key), DeleteRequest(key)];
      assert b[4..] == [] && rb[4..] == [];
      assert Shaped(b, rb, 1);
      assert t'.results == t.results + b && t'.requests == t.requests + rb;
      ShapedAppend(t.results, t.requests, n, b, rb);
    } else {
      var b := [l, p];
      var rb := [ListRequest, pr];
      assert b[2..] == [] && rb[2..] == [];
      assert Shaped(b, rb, 1);
      assert t'.results == t.results + b && t'.requests == t.requests + rb;
      ShapedAppend(t.results, t.requests, n, b, rb);
    }
  }

  /** After `k` iterations the log consists of exactly `k` blocks laid out as
      `Shaped` describes: nothing else is ever appended. */
  lemma {:induction false} LoopShaped(k: nat, oracle: nat -> Round)
    ensures Shaped(Loop(k, oracle).results, Loop(k, oracle).requests, k)
  {
    if k > 0 {
      LoopShaped(k - 1, oracle);
      IterationShaped(Loop(k - 1, oracle), oracle(k - 1), k - 1);
    }
  }

  /** The bookkeeping of a trace after `k` iterations: `k` Lists and `k`
      Puts; one Get and one Delete per successful Put; the created keys are
      exactly the successful Puts' keys, and they are exactly the Get targets
      and exactly the in-loop Delete targets, in order. */
  ghost predicate Accounted(t: Trace, k: nat) {
    && CountsAccounted(t, k)
    && KeysAccounted(t)
    && (forall i :: 0 <= i < |t.results| ==> WellFormed(t.results[i]))
  }

  ghost predicate CountsAccounted(t: Trace, k: nat) {
    && |t.results| == |t.requests|
    && Count(t.results, ListObjects) == k
    && Count(t.results, PutObject) == k
    && Count(t.results, GetObject) == |t.createdKeys|
    && Count(t.results, DeleteObject) == |t.createdKeys|
    && CountSucceeded(t.results, PutObject) == |t.createdKeys|
    && |t.createdKeys| <= k
  }

  ghost predicate KeysAccounted(t: Trace) {
    && t.createdKeys == PutKeys(t.results)
    && t.createdKeys == GetTargets(t.requests)
    && t.createdKeys == DeleteTargets(t.requests)
  }

  /** Pushing one result extends every count by that entry's contribution. */
  lemma PushCounts(a: seq<BenchmarkResult>, x: BenchmarkResult)
    ensures forall op :: Count(a + [x], op) == Count(a, op) + (if x.operation == op then 1 else 0)
    ensures CountSucceeded(a + [x], PutObject)
            == CountSucceeded(a, PutObject) + (if x.operation == PutObject && x.success then 1 else 0)
  {
  }

  /** Pushing one result and its request extends every key list by that
      entry's contribution. */
  lemma PushKeys(a: seq<BenchmarkResult>, ra: seq<Request>, x: BenchmarkResult, rx: Request)
    ensures PutKeys(a + [x])
            == PutKeys(a) + (if x.operation == PutObject && x.success && x.objectKey.Some? then [x.objectKey.value] else [])
    ensures GetTargets(ra + [rx]) == GetTargets(ra) + (if rx.GetRequest? then [rx.key] else [])
    ensures DeleteTargets(ra + [rx]) == DeleteTargets(ra) + (if rx.DeleteRequest? then [rx.key] else [])
  {
  }

  /** One iteration keeps the bookkeeping, with one more iteration counted. */
  lemma IterationAccounted(t: Trace, round: Round, k: nat)
    requires Accounted(t, k)
    ensures Accounted(Iteration(t, round), k + 1)
  {
    var l := ListObjectsResult(round.list);
    var p := PutObjectResult(round.stamp, round.put);
    var pr := PutRequest(ObjectKey(round.stamp));
    if ChainsOff(p) {
      var key := p.objectKey.value;
      var g, d := GetObjectResult(round.get), DeleteObjectResult(round.delete);
      var t' := Trace(t.results + [l] + [p] + [g] + [d],
                      t.requests + [ListRequest] + [pr] + [GetRequest(key)] + [DeleteRequest(key)],
                      t.createdKeys + [key]);
      ChainedCounts(t, k, l, p, pr, key, g, d);
      ChainedKeys(t, l, p, pr, key, g, d);
      AllWellFormed(t.results, [l, p, g, d]);
      assert t.results + [l, p, g, d] == t'.results;
    } else {
      UnchainedAccounted(t, k, l, p, pr);
    }
  }

  /** A List and a failed Put: two Lists-and-Puts more, nothing else. */
  lemma UnchainedAccounted(t: Trace, k: nat, l: BenchmarkResult, p: BenchmarkResult, pr: Request)
    requires Accounted(t, k)
    requires l.operation == ListObjects && WellFormed(l)
    requires p.operation == PutObject && !p.success && WellFormed(p)
    requires pr.PutRequest?
    ensures Accounted(Trace(t.results + [l] + [p], t.requests + [ListRequest] + [pr], t.createdKeys), k + 1)
  {
  }

  /** A List, a successful Put of `key`, a Get and a Delete: one more
      iteration and one more created key. */
  lemma ChainedCounts(t: Trace, k: nat, l: BenchmarkResult, p: BenchmarkResult, pr: Request,
                      key: string, g: BenchmarkResult, d: BenchmarkResult)
    requires CountsAccounted(t, k)
    requires l.operation == ListObjects
    requires p.operation == PutObject && p.success
    requires g.operation == GetObject
    requires d.operation == DeleteObject
    ensures CountsAccounted(Trace(t.results + [l] + [p] + [g] + [d],
                                  t.requests + [ListRequest] + [pr] + [GetRequest(key)] + [DeleteRequest(key)],
                                  t.createdKeys + [key]), k + 1)
  {
    var a1 := t.results + [l];
    var a2 := a1 + [p];
    var a3 := a2 + [g];
    PushCounts(t.results, l);
    PushCounts(a1, p);
    PushCounts(a2, g);
    PushCounts(a3, d);
  }

  /** The same block adds `key` to the created keys, the Get targets and
      the Delete targets. */
  lemma ChainedKeys(t: Trace, l: BenchmarkResult, p: BenchmarkResult, pr: Request,
                    key: string, g: BenchmarkResult, d: BenchmarkResult)
    requires KeysAccounted(t)
    requires l.operation == ListObjects
    requires p.operation == PutObject && p.success && p.objectKey == Some(key)
    requires pr.PutRequest?
    requires g.operation == GetObject
    requires d.operation == DeleteObject
    ensures KeysAccounted(Trace(t.results + [l] + [p] + [g] + [d],
                                t.requests + [ListRequest] + [pr] + [GetRequest(key)] + [DeleteRequest(key)],
                                t.createdKeys + [key]))
  {
    var a1, r1 := t.results + [l], t.requests + [ListRequest];
    var a2, r2 := a1 + [p], r1 + [pr];
    var a3, r3 := a2 + [g], r2 + [GetRequest(key)];
    PushKeys(t.results, t.requests, l, ListRequest);
    PushKeys(a1, r1, p, pr);
    PushKeys(a2, r2, g, GetRequest(key));
    PushKeys(a3, r3, d, DeleteRequest(key));
  }

  /** Well-formedness of every entry survives concatenation. */
  lemma AllWellFormed(a: seq<BenchmarkResult>, b: seq<BenchmarkResult>)
    requires forall i :: 0 <= i < |a| ==> WellFormed(a[i])
    requires forall i :: 0 <= i < |b| ==> WellFormed(b[i])
    ensures forall i :: 0 <= i < |a + b| ==> WellFormed((a + b)[i])
  {
  }

  /** After `k` iterations the bookkeeping holds with `k` iterations counted. */
  lemma {:induction false} LoopAccounted(k: nat, oracle: nat -> Round)
    ensures Accounted(Loop(k, oracle), k)
  {
    if k > 0 {
      LoopAccounted(k - 1, oracle);
      IterationAccounted(Loop(k - 1, oracle), oracle(k - 1), k - 1);
    }
  }

  // ---------------------------------------------------------------------
  // Whole-run properties
  // ---------------------------------------------------------------------

  /** Every delete issued by a run: the in-loop ones, then the sweep's. */
  function AllDeleteTargets(out: RunOutput): seq<string> {
    DeleteTargets(out.requests) + out.sweep
  }

  /** The shape and counts of a run's log, and what the sweep targets. */
  lemma {:induction false} RunFacts(iterations: int, oracle: nat -> Round)
    ensures var out := Run(iterations, oracle); var n := IterationCount(iterations);
      && Shaped(out.results, out.requests, n)
      && Count(out.results, ListObjects) == n
      && Count(out.results, PutObject) == n
      && Count(out.results, GetObject) == |out.createdKeys|
      && Count(out.results, DeleteObject) == |out.createdKeys|
      && CountSucceeded(out.results, PutObject) == |out.createdKeys| <= n
      && out.createdKeys == PutKeys(out.results)
      && out.createdKeys == GetTargets(out.requests)
      && out.sweep == out.createdKeys
      && (forall i :: 0 <= i < |out.results| ==> WellFormed(out.results[i]))
  {
    LoopShaped(IterationCount(iterations), oracle);
    LoopAccounted(IterationCount(iterations), oracle);
  }

  /** The sweep deletes every created key a second time: a key is targeted
      by exactly twice as many deletes as it was created, and nothing that
      was not created is ever deleted. */
  lemma {:induction false} EveryCreatedKeyDeletedTwice(iterations: int, oracle: nat -> Round)
    ensures var out := Run(iterations, oracle);
      && multiset(AllDeleteTargets(out)) == multiset(out.createdKeys) + multiset(out.createdKeys)
      && (forall key :: key in out.createdKeys ==> multiset(AllDeleteTargets(out))[key] >= 2)
      && (forall key :: key in AllDeleteTargets(out) ==> key in out.createdKeys)
  {
    LoopAccounted(IterationCount(iterations), oracle);
    var out := Run(iterations, oracle);
    assert AllDeleteTargets(out) == out.createdKeys + out.createdKeys;
    forall key | key in AllDeleteTargets(out)
      ensures key in out.createdKeys
    {
      assert key in multiset(AllDeleteTargets(out));
    }
  }

  /** When every Put of the first `k` iterations fails, no key is created. */
  lemma {:induction false} LoopAllPutsFail(k: nat, oracle: nat -> Round)
    requires forall i :: 0 <= i < k ==> oracle(i).put.Failed?
    ensures Loop(k, oracle).createdKeys == []
  {
    if k > 0 {
      LoopAllPutsFail(k - 1, oracle);
      ChainsOffIffPutSucceeded(oracle(k - 1).stamp, oracle(k - 1).put);
    }
  }

  /** The sweep issues nothing exactly when no Put succeeded. */
  lemma SweepSkippedIffNothingCreated(iterations: int, oracle: nat -> Round)
    ensures var out := Run(iterations, oracle);
      out.sweep == [] <==> CountSucceeded(out.results, PutObject) == 0
  {
    RunFacts(iterations, oracle);
  }

  /** The body of one loop iteration as the program writes it: each result
      is pushed as soon as its call resolves. When the Put wrapper throws,
      the iteration stops after the List with the error. */
  method BenchmarkIteration(t: Trace, round: Round, payload: Result<nat, PayloadError>)
    returns (t': Trace, thrown: Option<PayloadError>)
    ensures thrown.Some? <==> payload.Failure?
    ensures thrown.Some? ==> thrown.value == payload.error
    ensures thrown.Some? ==> t' == Trace(t.results + [ListObjectsResult(round.list)],
                                         t.requests + [ListRequest], t.createdKeys)
    ensures thrown.None? ==> t' == Iteration(t, round)
    ensures thrown.None? ==>
      |t'.results| - |t.results| == |t'.requests| - |t.requests| == 2 + 2 * (|t'.createdKeys| - |t.createdKeys|)
    ensures thrown.None? ==> (round.put.Succeeded? <==> |t'.createdKeys| == |t.createdKeys| + 1)
    ensures thrown.None? ==> (round.put.Failed? <==> t'.createdKeys == t.createdKeys)
  {
    var results, requests, createdKeys := t.results, t.requests, t.createdKeys;
    var listResult := ListObjectsResult(round.list);
    results := results + [listResult];
    requests := requests + [ListRequest];
    var put := BenchmarkPutObject(payload, round.stamp, round.put);
    if put.Failure? {
      t', thrown := Trace(results, requests, createdKeys), Some(put.error);
      return;
    }
    var putResult := put.value;
    results := results + [putResult];
    requests := requests + [PutRequest(ObjectKey(round.stamp))];
    if putResult.success && putResult.objectKey.Some? && putResult.objectKey.value != "" {
      var key := putResult.objectKey.value;
      createdKeys := createdKeys + [key];
      var getResult := GetObjectResult(round.get);
      results := results + [getResult];
      requests := requests + [GetRequest(key)];
      var deleteResult := DeleteObjectResult(round.delete);
      results := results + [deleteResult];
      requests := requests + [DeleteRequest(key)];
    }
    t', thrown := Trace(results, requests, createdKeys), None;
  }

  /** The cleanup sweep as the program writes it: one delete per created
      key, in order, skipped when there is none. */
  method CleanupSweep(createdKeys: seq<string>) returns (sweep: seq<string>)
    ensures sweep == createdKeys
  {
    sweep := [];
    if |createdKeys| > 0 {
      for j := 0 to |createdKeys|
        invariant sweep == createdKeys[..j]
      {
        sweep := sweep + [createdKeys[j]];
      }
    }
  }

  /** The counted loop as the program writes it; a throw from an iteration
      leaves the loop at once. */
  method RunLoop(iterations: int, payload: Result<nat, PayloadError>, oracle: nat -> Round)
    returns (t: Trace, thrown: Option<PayloadError>)
    ensures thrown.Some? <==> IterationCount(iterations) > 0 && payload.Failure?
    ensures thrown.Some? ==> thrown.value == payload.error
    ensures thrown.Some? ==> t == Trace([ListObjectsResult(oracle(0).list)], [ListRequest], [])
    ensures thrown.None? ==> t == Loop(IterationCount(iterations), oracle)
    ensures |t.createdKeys| <= IterationCount(iterations)
  {
    t, thrown := Trace([], [], []), None;
    var i := 0;
    while i < iterations
      invariant 0 <= i <= IterationCount(iterations)
      invariant thrown.None?
      invariant payload.Failure? ==> i == 0
      invariant t == Loop(i, oracle)
      invariant |t.createdKeys| <= i
    {
      t, thrown := BenchmarkIteration(t, oracle(i), payload);
      if thrown.Some? {
        return;
      }
      i := i + 1;
    }
  }

  /** A whole run as the program writes it: the loop, whose Put prepares a
      payload of the configured size, then the summary and the sweep over
      the created keys. A run whose payload cannot be prepared stops after
      the first List, with no Put issued, no summary and no sweep. */
  method RunBenchmark(config: BenchmarkConfig, oracle: nat -> Round) returns (ending: Ending)
    ensures ending == RunWith(config.iterations, PreparePayload(config.objectSize), oracle)
    ensures ending.Aborted? <==>
      IterationCount(config.iterations) > 0 && !(0 <= config.objectSize <= MaxRandomBytes)
    ensures ending.Aborted? ==>
      && ending.requests == [ListRequest]
      && |ending.results| == 1 && ending.results[0].operation == ListObjects
      && (ending.error == QuotaExceeded <==> config.objectSize > MaxRandomBytes)
    ensures ending.Completed? ==> var out := ending.out;
      && Shaped(out.results, out.requests, IterationCount(config.iterations))
      && Count(out.results, ListObjects) == IterationCount(config.iterations)
      && Count(out.results, PutObject) == IterationCount(config.iterations)
      && Count(out.results, GetObject) == Count(out.results, DeleteObject)
         == CountSucceeded(out.results, PutObject) == |out.createdKeys|
      && out.createdKeys == PutKeys(out.results)
      && multiset(AllDeleteTargets(out)) == multiset(out.createdKeys) + multiset(out.createdKeys)
  {
    var payload := PreparePayload(config.objectSize);
    var t, thrown := RunLoop(config.iterations, payload, oracle);
    if thrown.Some? {
      ending := Aborted(t.results, t.requests, thrown.value);
      return;
    }
    var sweep := CleanupSweep(t.createdKeys);
    ending := Completed(RunOutput(t.results, t.requests, t.createdKeys, sweep));
    RunFacts(config.iterations, oracle);
    EveryCreatedKeyDeletedTwice(config.iterations, oracle);
  }

  /** With the payload filled chunk by chunk, only a negative size stops a
      run; an object of any size the quota refuses completes. */
  lemma ChunkedRunAbortsOnlyOnNegativeSize(iterations: int, objectSize: int, oracle: nat -> Round)
    ensures RunWith(iterations, PreparePayloadChunked(objectSize), oracle).Aborted?
            <==> IterationCount(iterations) > 0 && objectSize < 0
    ensures objectSize > MaxRandomBytes ==>
      && RunWith(iterations, PreparePayload(objectSize), oracle).Aborted? == (IterationCount(iterations) > 0)
      && RunWith(iterations, PreparePayloadChunked(objectSize), oracle)
         == Completed(Run(iterations, oracle))
  {
  }
}
