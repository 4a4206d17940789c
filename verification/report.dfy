/**
  What the summary of a run reports, given how the run loop fills the log,
  and the scenarios a run is expected to go through.
*/
module Report {
  import opened Wrappers
  import opened Benchmark
  import opened Runner
  import opened Statistics

  /** The summary of a run. */
  function RunSummary(iterations: int, oracle: nat -> Round): Summary {
    Summarize(Run(iterations, oracle).results)
  }

  /** No section counts more successes than the calls of its kind the loop
      made: at most `n` for List and Put, at most the successful Puts for
      Get and Delete. */
  lemma SectionCountsBounded(iterations: int, oracle: nat -> Round)
    ensures var out := Run(iterations, oracle); var s := RunSummary(iterations, oracle);
      forall i :: 0 <= i < |s.sections| ==>
        && s.sections[i].stats.count <= IterationCount(iterations)
        && (s.sections[i].operation in {GetObject, DeleteObject} ==>
              s.sections[i].stats.count <= CountSucceeded(out.results, PutObject))
  {
    RunFacts(iterations, oracle);
  }

  /** A run in which no Put succeeds reports no Get and no Delete section. */
  lemma NoPutSuccessNoGetOrDeleteSection(iterations: int, oracle: nat -> Round)
    requires CountSucceeded(Run(iterations, oracle).results, PutObject) == 0
    ensures GetObject !in OpsOf(RunSummary(iterations, oracle).sections)
    ensures DeleteObject !in OpsOf(RunSummary(iterations, oracle).sections)
  {
    RunFacts(iterations, oracle);
  }

  /** When every Put fails: the log is `n` Lists and `n` failed Puts, nothing
      is created or swept, and the failures hold exactly `n` Put errors. */
  lemma AllPutsFail(iterations: int, oracle: nat -> Round)
    requires forall i :: 0 <= i < IterationCount(iterations) ==> oracle(i).put.Failed?
    ensures var out := Run(iterations, oracle); var n := IterationCount(iterations);
      && |out.results| == 2 * n
      && Count(out.results, ListObjects) == n
      && Count(out.results, PutObject) == n
      && out.createdKeys == [] && out.sweep == []
      && Count(Failures(out.results), PutObject) == n
      && GetObject !in OpsOf(RunSummary(iterations, oracle).sections)
      && DeleteObject !in OpsOf(RunSummary(iterations, oracle).sections)
      && (n > 0 ==> RunSummary(iterations, oracle).failures.Some?)
  {
    var out := Run(iterations, oracle);
    var n := IterationCount(iterations);
    LoopAllPutsFail(n, oracle);
    RunFacts(iterations, oracle);
    CountsCoverLog(out.results);
    if n > 0 {
      assert Count(Failures(out.results), PutObject) > 0;
    }
  }

  /** One iteration whose Put succeeds: List, Put, Get, Delete in that
      order, the Get and Delete of the uploaded key, and the sweep deleting
      that key once more. */
  lemma SingleIteration(oracle: nat -> Round)
    requires oracle(0).put.Succeeded?
    ensures var out := Run(1, oracle); var key := ObjectKey(oracle(0).stamp);
      && |out.results| == 4
      && out.results[0].operation == ListObjects
      && out.results[1].operation == PutObject && out.results[1].success
      && out.results[2].operation == GetObject
      && out.results[3].operation == DeleteObject
      && out.requests == [ListRequest, PutRequest(key), GetRequest(key), DeleteRequest(key)]
      && out.createdKeys == [key]
      && AllDeleteTargets(out) == [key, key]
  {
    var round := oracle(0);
    ChainsOffIffPutSucceeded(round.stamp, round.put);
    assert Loop(1, oracle) == Iteration(Trace([], [], []), round);
    LoopAccounted(1, oracle);
  }
}
