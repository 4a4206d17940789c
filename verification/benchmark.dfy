/**
  The shape of one measured storage call and the four measuring wrappers.

  The storage client itself is not modelled: each wrapper receives the
  `Outcome` of its call (how long it took, and whether it resolved or threw)
  and turns it into a `BenchmarkResult`. A failed call becomes a result with
  `success = false` and the error's message. The Put wrapper is the one
  exception: it prepares its random payload before its `try`, so a payload
  that cannot be prepared makes the wrapper itself throw.
*/
module Benchmark {
  import opened Wrappers

  /** The four operation kinds, named as the result log names them. */
  datatype Operation = ListObjects | PutObject | GetObject | DeleteObject

  /** What the storage client did with one call: it resolved, or it threw
      an error with a message. The latency is the measured elapsed time in
      milliseconds, supplied from outside since the clock is not modelled. */
  datatype Outcome =
    | Succeeded(latencyMs: int)
    | Failed(latencyMs: int, message: string)

  /** One entry of the result log. */
  datatype BenchmarkResult = BenchmarkResult(
    operation: Operation,
    latencyMs: int,
    success: bool,
    error: Option<string>,
    objectKey: Option<string>
  )

  /** The invariant every wrapper establishes: an error is recorded exactly
      when the call failed, and an object key is recorded exactly for a
      successful Put. */
  predicate WellFormed(r: BenchmarkResult) {
    && (r.success <==> r.error.None?)
    && (r.objectKey.Some? <==> (r.operation == PutObject && r.success))
  }

  /** Fixed prefix of every generated object key. */
  const KeyPrefix: string := "benchmark-"

  /** The key a Put uploads under. `stamp` stands for the time-and-random
      part that the program draws from the clock and the random generator. */
  function ObjectKey(stamp: string): (key: string)
    ensures key != "" && |key| >= |KeyPrefix| && key[..|KeyPrefix|] == KeyPrefix
  {
    KeyPrefix + stamp
  }

  /** Shared by the four wrappers: a result without an object key. */
  function Measured(operation: Operation, o: Outcome): BenchmarkResult {
    match o
    case Succeeded(latency) => BenchmarkResult(operation, latency, true, None, None)
    case Failed(latency, message) => BenchmarkResult(operation, latency, false, Some(message), None)
  }

  function ListObjectsResult(o: Outcome): (r: BenchmarkResult)
    ensures WellFormed(r)
    ensures r.operation == ListObjects && r.latencyMs == o.latencyMs
    ensures r.success <==> o.Succeeded?
    ensures o.Failed? ==> r.error == Some(o.message)
  {
    Measured(ListObjects, o)
  }

  /** The Put wrapper draws its own key (here from `stamp`) before the call.
      On success the result carries that key; on failure it carries none, so
      nothing can be chained off it. */
  function PutObjectResult(stamp: string, o: Outcome): (r: BenchmarkResult)
    ensures WellFormed(r)
    ensures r.operation == PutObject && r.latencyMs == o.latencyMs
    ensures r.success <==> o.Succeeded?
    ensures o.Failed? ==> r.error == Some(o.message)
    ensures r.objectKey.Some? ==> r.objectKey.value == ObjectKey(stamp)
  {
    var key := ObjectKey(stamp);
    match o
    case Succeeded(latency) => BenchmarkResult(PutObject, latency, true, None, Some(key))
    case Failed(latency, message) => BenchmarkResult(PutObject, latency, false, Some(message), None)
  }

  function GetObjectResult(o: Outcome): (r: BenchmarkResult)
    ensures WellFormed(r)
    ensures r.operation == GetObject && r.latencyMs == o.latencyMs
    ensures r.success <==> o.Succeeded?
    ensures o.Failed? ==> r.error == Some(o.message)
  {
    Measured(GetObject, o)
  }

  function DeleteObjectResult(o: Outcome): (r: BenchmarkResult)
    ensures WellFormed(r)
    ensures r.operation == DeleteObject && r.latencyMs == o.latencyMs
    ensures r.success <==> o.Succeeded?
    ensures o.Failed? ==> r.error == Some(o.message)
  {
    Measured(DeleteObject, o)
  }

  /** Why preparing the Put payload throws: the `Uint8Array` constructor
      refuses a negative length with a `RangeError`, and Web Crypto's
      `getRandomValues` refuses to fill more than `MaxRandomBytes` bytes with
      a `QuotaExceededError`. */
  datatype PayloadError = InvalidLength | QuotaExceeded

  /** The most bytes one call of the Web Cryptography API's
      `getRandomValues` fills. */
  const MaxRandomBytes: nat := 65536

  /** The payload as the Put wrapper prepares it: one buffer of `objectSize`
      bytes, filled by a single `getRandomValues` call. The result is the
      number of random bytes prepared. */
  function PreparePayload(objectSize: int): (r: Result<nat, PayloadError>)
    ensures r.Success? <==> 0 <= objectSize <= MaxRandomBytes
    ensures r.Success? ==> r.value == objectSize
    ensures r == Failure(InvalidLength) <==> objectSize < 0
    ensures r == Failure(QuotaExceeded) <==> objectSize > MaxRandomBytes
  {
    if objectSize < 0 then Failure(InvalidLength)
    else if objectSize > MaxRandomBytes then Failure(QuotaExceeded)
    else Success(objectSize)
  }

  /** Sum of a list of chunk sizes. */
  function Total(chunks: seq<nat>): nat {
    if chunks == [] then 0 else chunks[0] + Total(chunks[1..])
  }

  /** Splits `n` bytes into the pieces successive `getRandomValues` calls
      fill: every piece is non-empty and within the quota, and together they
      cover exactly `n` bytes. */
  function Chunks(n: nat): (c: seq<nat>)
    ensures Total(c) == n
    ensures forall i :: 0 <= i < |c| ==> 0 < c[i] <= MaxRandomBytes
    ensures |c| == (n + MaxRandomBytes - 1) / MaxRandomBytes
    decreases n
  {
    if n == 0 then []
    else if n <= MaxRandomBytes then [n]
    else
      var rest := Chunks(n - MaxRandomBytes);
      assert ([MaxRandomBytes] + rest)[1..] == rest;
      [MaxRandomBytes] + rest
  }

  /** The payload prepared as evidently intended: the buffer filled chunk by
      chunk, so any non-negative size works. */
  function PreparePayloadChunked(objectSize: int): (r: Result<nat, PayloadError>)
    ensures r.Success? <==> 0 <= objectSize
    ensures r.Success? ==> r.value == objectSize
    ensures r.Failure? ==> r.error == InvalidLength
  {
    if objectSize < 0 then Failure(InvalidLength)
    else Success(Total(Chunks(objectSize)))
  }

  /** A size just over the quota: the payload as written cannot be
      prepared, and the chunked one can. */
  lemma LargePayloadRefused()
    ensures PreparePayload(MaxRandomBytes + 1) == Failure(QuotaExceeded)
    ensures PreparePayloadChunked(MaxRandomBytes + 1) == Success(MaxRandomBytes + 1)
    ensures Chunks(MaxRandomBytes + 1) == [MaxRandomBytes, 1]
  {
  }

  /** The Put wrapper as written: the payload is prepared outside the
      `try`, so failing to prepare it throws out of the wrapper instead of
      producing a result; otherwise the call is measured like the others. */
  function BenchmarkPutObject(payload: Result<nat, PayloadError>, stamp: string, o: Outcome)
    : (r: Result<BenchmarkResult, PayloadError>)
    ensures r.Failure? <==> payload.Failure?
    ensures r.Failure? ==> r.error == payload.error
    ensures r.Success? ==> r.value == PutObjectResult(stamp, o) && r.value.success == o.Succeeded?
  {
    match payload
    case Failure(e) => Failure(e)
    case Success(_) => Success(PutObjectResult(stamp, o))
  }

  /** Number of entries of kind `op` in a log. */
  function Count(log: seq<BenchmarkResult>, op: Operation): nat
  {
    if log == [] then 0
    else Count(log[..|log| - 1], op) + (if log[|log| - 1].operation == op then 1 else 0)
  }

  /** Number of successful entries of kind `op` in a log. */
  function CountSucceeded(log: seq<BenchmarkResult>, op: Operation): (c: nat)
    ensures c <= Count(log, op)
  {
    if log == [] then 0
    else CountSucceeded(log[..|log| - 1], op)
         + (if log[|log| - 1].operation == op && log[|log| - 1].success then 1 else 0)
  }

  /** Every entry is of one of the four kinds. */
  lemma {:induction false} CountsCoverLog(log: seq<BenchmarkResult>)
    ensures |log| == Count(log, ListObjects) + Count(log, PutObject)
                     + Count(log, GetObject) + Count(log, DeleteObject)
  {
    if log != [] {
      CountsCoverLog(log[..|log| - 1]);
    }
  }
}
