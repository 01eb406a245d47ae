/**
 * The latency recorder (PerformanceTracker): a table from API name to its
 * stats entry. Record looks the entry up, creating a zeroed one on first use,
 * and updates it in place; GetStats copies the table.
 *
 * Besides the table the model keeps, as ghost state, the list of every call
 * recorded so far. The table's value always equals Replay(history), the
 * step-by-step effect of those calls; ReplayIsTally shows that this is the
 * same as tallying each name's elapsed times on their own.
 */
module Tracker {
  import opened ApiStats

  /** One recorded call: the API name and its elapsed milliseconds. */
  type Call = (string, real)

  /** The names that occur in a call history. */
  function Names(h: seq<Call>): set<string>
  {
    set i | 0 <= i < |h| :: h[i].0
  }

  /** The elapsed times recorded under `apiName`, in call order. */
  function Elapsed(h: seq<Call>, apiName: string): seq<real>
  {
    if h == [] then []
    else Elapsed(h[..|h| - 1], apiName) + (if h[|h| - 1].0 == apiName then [h[|h| - 1].1] else [])
  }

  /** The sum of a list of elapsed times. */
  function Sum(es: seq<real>): real
  {
    if es == [] then 0.0 else Sum(es[..|es| - 1]) + es[|es| - 1]
  }

  /** How many of the elapsed times fall into bucket `b`. */
  function Count(es: seq<real>, b: Bucket): nat
  {
    if es == [] then 0 else Count(es[..|es| - 1], b) + (if BucketOf(es[|es| - 1]) == b then 1 else 0)
  }

  /** The entry that recording the calls `es` must produce, computed from the
      calls directly: their number, their total time and their bucket counts. */
  function Tally(es: seq<real>): Stats
  {
    Stats(|es|, Sum(es), Count(es, Fast), Count(es, Average), Count(es, Slow))
  }

  /** Every call lands in exactly one bucket, so the bucket counts of a
      tallied entry add up to its request count. */
  lemma {:induction false} TallyBalanced(es: seq<real>)
    ensures Tally(es).Balanced()
  {
    if es != [] {
      TallyBalanced(es[..|es| - 1]);
    }
  }

  /** Recording one more call moves the tally exactly as Step does. */
  lemma TallySnoc(es: seq<real>, elapsedMs: real)
    ensures Tally(es + [elapsedMs]) == Step(Tally(es), elapsedMs)
  {
    assert (es + [elapsedMs])[..|es|] == es;
  }

  /** A name never recorded has no elapsed times. */
  lemma {:induction false} ElapsedOfAbsent(h: seq<Call>, apiName: string)
    requires apiName !in Names(h)
    ensures Elapsed(h, apiName) == []
  {
    if h != [] {
      assert Names(h[..|h| - 1]) <= Names(h) by {
        forall n | n in Names(h[..|h| - 1]) ensures n in Names(h) {
          var i :| 0 <= i < |h| - 1 && h[..|h| - 1][i].0 == n;
          assert h[i].0 == n;
        }
      }
      assert h[|h| - 1].0 in Names(h);
      ElapsedOfAbsent(h[..|h| - 1], apiName);
    }
  }

  /** A name that was recorded has at least one elapsed time. */
  lemma {:induction false} ElapsedOfPresent(h: seq<Call>, apiName: string)
    requires apiName in Names(h)
    ensures Elapsed(h, apiName) != []
  {
    var h0 := h[..|h| - 1];
    if h[|h| - 1].0 != apiName {
      var i :| 0 <= i < |h| && h[i].0 == apiName;
      assert h0[i].0 == apiName;
      ElapsedOfPresent(h0, apiName);
    }
  }

  /** One more call adds its name to the names recorded. */
  lemma NamesSnoc(h: seq<Call>, c: Call)
    ensures Names(h + [c]) == Names(h) + {c.0}
  {
    var h' := h + [c];
    forall n | n in Names(h') ensures n in Names(h) + {c.0} {
      var i :| 0 <= i < |h'| && h'[i].0 == n;
      if i < |h| { assert h[i].0 == n; }
    }
    forall n | n in Names(h) ensures n in Names(h') {
      var i :| 0 <= i < |h| && h[i].0 == n;
      assert h'[i].0 == n;
    }
    assert h'[|h|].0 == c.0;
  }

  /** The entry of `apiName` in `m`, or a zeroed one if it has none. */
  function Entry(m: map<string, Stats>, apiName: string): Stats
  {
    if apiName in m then m[apiName] else Zero
  }

  /** The table's value after the calls `h`, applied one Step at a time the
      way Record applies them. */
  function Replay(h: seq<Call>): map<string, Stats>
  {
    if h == [] then map[]
    else
      var m := Replay(h[..|h| - 1]);
      var (n, e) := h[|h| - 1];
      m[n := Step(Entry(m, n), e)]
  }

  lemma ReplaySnoc(h: seq<Call>, c: Call)
    ensures Replay(h + [c]) == Replay(h)[c.0 := Step(Entry(Replay(h), c.0), c.1)]
  {
    assert (h + [c])[..|h|] == h;
  }

  /** Replaying the calls gives one entry per name ever recorded, and each
      entry is the tally of that name's elapsed times, whatever the calls
      to other names in between. */
  lemma {:induction false} ReplayIsTally(h: seq<Call>)
    ensures Replay(h).Keys == Names(h)
    ensures forall n :: n in Replay(h) ==> Replay(h)[n] == Tally(Elapsed(h, n))
  {
    if h != [] {
      var h0, c := h[..|h| - 1], h[|h| - 1];
      assert h == h0 + [c];
      ReplayIsTally(h0);
      ReplaySnoc(h0, c);
      NamesSnoc(h0, c);
      forall n | n in Replay(h)
        ensures Replay(h)[n] == Tally(Elapsed(h, n))
      {
        TallyAfter(h0, c.0, c.1, n);
        if n == c.0 && n !in Names(h0) {
          ElapsedOfAbsent(h0, n);
        }
      }
    }
  }

  /** One more call never lowers a counter: every entry keeps its name, the
      entries of other names keep their value, and no count of the called
      name's entry goes down. */
  lemma ReplayNeverDecreases(h: seq<Call>, c: Call)
    ensures Replay(h).Keys <= Replay(h + [c]).Keys
    ensures forall n :: n in Replay(h) && n != c.0 ==> Replay(h + [c])[n] == Replay(h)[n]
    ensures forall n :: n in Replay(h) ==> Replay(h)[n].CountersAtMost(Replay(h + [c])[n])
  {
    ReplaySnoc(h, c);
  }

  /** Every entry the calls produce is balanced. */
  lemma ReplayBalanced(h: seq<Call>)
    ensures forall n :: n in Replay(h) ==> Replay(h)[n].Balanced()
  {
    ReplayIsTally(h);
    forall n | n in Replay(h) ensures Replay(h)[n].Balanced() {
      TallyBalanced(Elapsed(h, n));
    }
  }

  /** One more call changes the entry of its own name by one Step and leaves
      the entry of every other name as it was. */
  lemma TallyAfter(h: seq<Call>, apiName: string, elapsedMs: real, n: string)
    ensures Tally(Elapsed(h + [(apiName, elapsedMs)], n)) ==
            if n == apiName then Step(Tally(Elapsed(h, n)), elapsedMs) else Tally(Elapsed(h, n))
  {
    assert (h + [(apiName, elapsedMs)])[..|h|] == h;
    if n == apiName {
      TallySnoc(Elapsed(h, n), elapsedMs);
    } else {
      assert Elapsed(h, n) + [] == Elapsed(h, n);
    }
  }

  /** `after` keeps every name of `before`, each with the same entry object:
      GetOrAdd never removes or replaces an entry, so a dictionary GetStats
      handed out stays a view of the recorder's own entries. */
  predicate KeepsEntries(before: map<string, ApiPerformanceStats>, after: map<string, ApiPerformanceStats>)
  {
    before.Keys <= after.Keys && forall n :: n in before ==> after[n] == before[n]
  }

  /** Keeping every entry across two steps keeps it across both. */
  lemma KeepsEntriesTransitive(a: map<string, ApiPerformanceStats>, b: map<string, ApiPerformanceStats>,
                               c: map<string, ApiPerformanceStats>)
    requires KeepsEntries(a, b) && KeepsEntries(b, c)
    ensures KeepsEntries(a, c)
  {
  }

  /** The recorder. The source keeps one process-wide table; here it is one
      object that callers share by reference. */
  class PerformanceTracker {
    var table: map<string, ApiPerformanceStats>
    /** The value of every entry, by name. */
    ghost var values: map<string, Stats>
    ghost var history: seq<Call>
    /** The entries this recorder may update. */
    ghost var Repr: set<ApiPerformanceStats>

    /** Every entry is one of the recorder's own objects. */
    ghost predicate Owns()
      reads `table, `Repr
    {
      forall n :: n in table ==> table[n] in Repr
    }

    /** Distinct names have distinct entries. */
    ghost predicate Distinct()
      reads `table
    {
      forall a, b :: a in table && b in table && a != b ==> table[a] != table[b]
    }

    /** `values` holds exactly the value of every entry. */
    ghost predicate Mirrors()
      reads `table, `values, `Repr, Repr
    {
      && Owns()
      && table.Keys == values.Keys
      && (forall n :: n in table ==> table[n].View() == values[n])
    }

    /** Entries are not shared between names, `values` is what they hold,
        and that is what the calls recorded so far produce. */
    ghost predicate Valid()
      reads this, Repr
    {
      Distinct() && Mirrors() && values == Replay(history)
    }

    constructor ()
      ensures Valid()
      ensures table == map[] && history == [] && Repr == {}
    {
      table := map[];
      values := map[];
      history := [];
      Repr := {};
    }

    /** The entry of `apiName`, created zeroed if the name is new
        (ConcurrentDictionary.GetOrAdd). */
    method GetOrAdd(apiName: string) returns (stats: ApiPerformanceStats)
      requires Distinct() && Mirrors()
      modifies `table, `values, `Repr
      ensures Distinct() && Mirrors()
      ensures Repr == old(Repr) + {stats}
      ensures table == old(table)[apiName := stats]
      ensures values == old(values)[apiName := Entry(old(values), apiName)]
      ensures apiName in old(table) ==> stats == old(table[apiName])
      ensures apiName !in old(table) ==> fresh(stats)
    {
      if apiName in table {
        stats := table[apiName];
        assert values == values[apiName := values[apiName]];
      } else {
        stats := new ApiPerformanceStats();
        table := table[apiName := stats];
        values := values[apiName := Zero];
        Repr := Repr + {stats};
      }
    }

    /** The update Record makes while holding the entry's lock. */
    static method UpdateEntry(stats: ApiPerformanceStats, elapsedMs: real)
      modifies stats
      ensures stats.View() == Step(old(stats.View()), elapsedMs)
    {
      stats.totalRequests := stats.totalRequests + 1;
      stats.totalResponseTimeMs := stats.totalResponseTimeMs + elapsedMs;
      if elapsedMs < 100.0 {
        stats.fastCount := stats.fastCount + 1;
      } else if elapsedMs <= 200.0 {
        stats.averageCount := stats.averageCount + 1;
      } else {
        stats.slowCount := stats.slowCount + 1;
      }
    }

    /** One Step on the entry of `apiName`, logged as the latest call; every
        other entry keeps its value. */
    method Advance(apiName: string, elapsedMs: real)
      requires Distinct() && Mirrors() && apiName in table
      requires values == Replay(history)[apiName := Entry(Replay(history), apiName)]
      modifies `values, `history, table[apiName]
      ensures Valid()
      ensures history == old(history) + [(apiName, elapsedMs)]
      ensures values == old(values)[apiName := Step(old(values)[apiName], elapsedMs)]
    {
      var stats := table[apiName];
      UpdateEntry(stats, elapsedMs);
      ReplaySnoc(history, (apiName, elapsedMs));
      values, history := values[apiName := Step(values[apiName], elapsedMs)], history + [(apiName, elapsedMs)];
      forall n | n in table
        ensures table[n].View() == values[n]
      {
        if n != apiName {
          assert table[n] != stats;
        }
      }
    }

    /** Records one call of `elapsedMs` against `apiName`: that name's entry,
        created zeroed if it is new, takes one Step; every other entry keeps
        its value and its identity. */
    method Record(apiName: string, elapsedMs: real)
      requires Valid()
      modifies this, Repr
      ensures Valid()
      ensures old(Repr) <= Repr && fresh(Repr - old(Repr))
      ensures history == old(history) + [(apiName, elapsedMs)]
      ensures apiName in table && table == old(table)[apiName := table[apiName]]
      ensures apiName in old(table) ==> table[apiName] == old(table[apiName])
      ensures apiName !in old(table) ==> fresh(table[apiName])
      ensures KeepsEntries(old(table), table)
      ensures values == old(values)[apiName := Step(Entry(old(values), apiName), elapsedMs)]
    {
      var stats := GetOrAdd(apiName);
      Advance(apiName, elapsedMs);
    }

    /** A copy of the table: exactly the names recorded so far, each with its
        (shared) entry, which tallies that name's calls and is balanced. */
    method GetStats() returns (r: map<string, ApiPerformanceStats>)
      requires Valid()
      ensures r.Keys == table.Keys == Names(history)
      ensures forall n :: n in r ==> r[n] == table[n]
      ensures forall n :: n in r ==> r[n].View() == Tally(Elapsed(history, n))
      ensures forall n :: n in r ==> r[n].View().Balanced() && r[n].totalRequests == |Elapsed(history, n)| > 0
    {
      r := map n | n in table :: table[n];
      ReplayIsTally(history);
      forall n | n in r
        ensures r[n].View() == Tally(Elapsed(history, n))
        ensures r[n].View().Balanced() && r[n].totalRequests == |Elapsed(history, n)| > 0
      {
        TallyBalanced(Elapsed(history, n));
        ElapsedOfPresent(history, n);
      }
    }
  }

  /** The derived average of a recorded name's entry is the mean of the
      times recorded under that name. */
  lemma AverageIsMean(tracker: PerformanceTracker, apiName: string)
    requires tracker.Valid() && apiName in tracker.table
    ensures Elapsed(tracker.history, apiName) != []
    ensures tracker.table[apiName].AverageResponseTimeMs() ==
            Sum(Elapsed(tracker.history, apiName)) / |Elapsed(tracker.history, apiName)| as real
  {
    ReplayIsTally(tracker.history);
    ElapsedOfPresent(tracker.history, apiName);
  }

  /** Two calls against "Weather", at 50 ms and at 250 ms, leave two requests,
      one fast and one slow, averaging 150 ms. */
  method WeatherScenario() returns (stats: Stats, averageMs: real)
    ensures stats == Stats(2, 300.0, 1, 0, 1)
    ensures averageMs == 150.0
  {
    var tracker := new PerformanceTracker();
    tracker.Record("Weather", 50.0);
    assert tracker.values["Weather"] == Stats(1, 50.0, 1, 0, 0);
    tracker.Record("Weather", 250.0);
    assert tracker.values["Weather"] == Stats(2, 300.0, 1, 0, 1);
    var table := tracker.GetStats();
    var weather := table["Weather"];
    stats := weather.View();
    assert stats == tracker.values["Weather"];
    assert weather.totalRequests == 2 && weather.totalResponseTimeMs == 300.0;
    averageMs := weather.AverageResponseTimeMs();
  }
}
