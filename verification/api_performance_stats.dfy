/**
 * The per-API latency record (ApiPerformanceStats): four counters and a running
 * total that the tracker updates in place, and the average derived from them.
 * Milliseconds are exact reals here.
 */
module ApiStats {

  /** The three latency buckets a single call falls into. */
  datatype Bucket = Fast | Average | Slow

  /** The bucket of one elapsed time, by the tracker's branches: under 100 ms
      is fast, 100 to 200 ms inclusive is average, above 200 ms is slow. */
  function BucketOf(elapsedMs: real): (b: Bucket)
    ensures b == Fast <==> elapsedMs < 100.0
    ensures b == Average <==> 100.0 <= elapsedMs <= 200.0
    ensures b == Slow <==> 200.0 < elapsedMs
  {
    if elapsedMs < 100.0 then Fast
    else if elapsedMs <= 200.0 then Average
    else Slow
  }

  /** The value of one stats entry at one moment. */
  datatype Stats = Stats(totalRequests: nat, totalResponseTimeMs: real,
                         fastCount: nat, averageCount: nat, slowCount: nat)
  {
    /** Every request lands in exactly one bucket. */
    predicate Balanced()
    {
      fastCount + averageCount + slowCount == totalRequests
    }

    /** No counter of `this` exceeds the corresponding counter of `later`. */
    predicate CountersAtMost(later: Stats)
    {
      && totalRequests <= later.totalRequests
      && fastCount <= later.fastCount
      && averageCount <= later.averageCount
      && slowCount <= later.slowCount
    }
  }

  /** A freshly created entry. */
  const Zero: Stats := Stats(0, 0.0, 0, 0, 0)

  /** The effect of recording one call of `elapsedMs` on an entry. */
  function Step(s: Stats, elapsedMs: real): (t: Stats)
    ensures t.totalRequests == s.totalRequests + 1
    ensures t.totalResponseTimeMs == s.totalResponseTimeMs + elapsedMs
    ensures s.CountersAtMost(t)
    ensures t.fastCount + t.averageCount + t.slowCount == s.fastCount + s.averageCount + s.slowCount + 1
    ensures t.fastCount != s.fastCount <==> BucketOf(elapsedMs) == Fast
    ensures t.averageCount != s.averageCount <==> BucketOf(elapsedMs) == Average
    ensures t.slowCount != s.slowCount <==> BucketOf(elapsedMs) == Slow
  {
    var b := BucketOf(elapsedMs);
    Stats(s.totalRequests + 1, s.totalResponseTimeMs + elapsedMs,
          if b == Fast then s.fastCount + 1 else s.fastCount,
          if b == Average then s.averageCount + 1 else s.averageCount,
          if b == Slow then s.slowCount + 1 else s.slowCount)
  }

  /** One mutable stats entry, shared by reference between the tracker's table
      and every dictionary that GetStats hands out. */
  class ApiPerformanceStats {
    var totalRequests: nat
    var totalResponseTimeMs: real
    var fastCount: nat
    var averageCount: nat
    var slowCount: nat

    constructor ()
      ensures View() == Zero
    {
      totalRequests := 0;
      totalResponseTimeMs := 0.0;
      fastCount := 0;
      averageCount := 0;
      slowCount := 0;
    }

    /** The entry's current value. */
    function View(): Stats
      reads this
    {
      Stats(totalRequests, totalResponseTimeMs, fastCount, averageCount, slowCount)
    }

    /** The mean latency: zero before the first request, otherwise the total
        time shared out evenly over the requests. */
    function AverageResponseTimeMs(): (r: real)
      reads this
      ensures totalRequests == 0 ==> r == 0.0
      ensures totalRequests > 0 ==> r * totalRequests as real == totalResponseTimeMs
    {
      if totalRequests == 0 then 0.0 else totalResponseTimeMs / totalRequests as real
    }
  }
}
