/** The service tile of src/components/ServiceCard.tsx: the two sparkline
    histories it keeps, its issue marker, and which action buttons it shows. */
module ServiceCard {
  import opened Basics
  import opened Types
  import opened SelfHealing
  import opened App

  const HistoryCap := 15

  /** `xs.slice(-15)`: the newest fifteen values, or all of them. */
  function Last15(xs: seq<real>): (r: seq<real>)
    ensures |r| == MinI(|xs|, HistoryCap)
    ensures r == xs[|xs| - |r|..]
  {
    if |xs| > HistoryCap then xs[|xs| - HistoryCap..] else xs
  }

  /** One history update: `[...prev, value].slice(-15)`. The value becomes
      the last point, preceded by the newest points of `prev`. */
  function PushHistory(prev: seq<real>, value: real): (r: seq<real>)
    ensures |r| == MinI(|prev| + 1, HistoryCap)
    ensures r[|r| - 1] == value
    ensures r[..|r| - 1] == prev[|prev| - (|r| - 1)..]
  {
    var updated := prev + [value];
    var r := Last15(updated);
    assert r[..|r| - 1] == updated[|updated| - |r|..|updated| - 1];
    assert updated[..|prev|] == prev;
    r
  }

  /** The histories after the effect has run once per value, in order. */
  function PushAll(prev: seq<real>, values: seq<real>): seq<real>
  {
    if values == [] then prev
    else PushHistory(PushAll(prev, values[..|values| - 1]), values[|values| - 1])
  }

  /** The newest fifteen values seen: however many updates have run, the
      history holds exactly the last fifteen of the readings. */
  lemma {:induction false} PushAllIsLast15(prev: seq<real>, values: seq<real>)
    requires |prev| <= HistoryCap
    ensures PushAll(prev, values) == Last15(prev + values)
  {
    if values != [] {
      var n := |values| - 1;
      PushAllIsLast15(prev, values[..n]);
      var before := prev + values[..n];
      assert prev + values == before + [values[n]];
      PushLast15(before, values[n]);
    }
  }

  /** Pushing onto the newest fifteen is taking the newest fifteen after
      the push. */
  lemma PushLast15(before: seq<real>, v: real)
    ensures PushHistory(Last15(before), v) == Last15(before + [v])
  {
    var h, w := Last15(before), Last15(before + [v]);
    var r := PushHistory(h, v);
    var k := |r| - 1;
    assert |w| == |r|;
    assert r == r[..k] + [v];
    assert w == w[..k] + [v];
    assert r[..k] == before[|before| - k..];
    assert w[..k] == before[|before| - k..];
  }

  /** The effect that runs whenever CPU or memory changes: each history
      grows by one up to the cap and ends with the current reading. */
  function UpdateHistories(cpuHistory: seq<real>, memoryHistory: seq<real>, s: Service): (r: (seq<real>, seq<real>))
    ensures |r.0| == MinI(|cpuHistory| + 1, HistoryCap) && r.0[|r.0| - 1] == s.cpu_usage
    ensures |r.1| == MinI(|memoryHistory| + 1, HistoryCap) && r.1[|r.1| - 1] == s.memory_usage
  {
    (PushHistory(cpuHistory, s.cpu_usage), PushHistory(memoryHistory, s.memory_usage))
  }

  /** The histories after the effect has run once per reading, in order. */
  function UpdateAll(cpuHistory: seq<real>, memoryHistory: seq<real>, readings: seq<Service>): (seq<real>, seq<real>)
  {
    if readings == [] then (cpuHistory, memoryHistory)
    else
      var h := UpdateAll(cpuHistory, memoryHistory, readings[..|readings| - 1]);
      UpdateHistories(h.0, h.1, readings[|readings| - 1])
  }

  function CpuReadings(readings: seq<Service>): (r: seq<real>)
    ensures |r| == |readings| && forall k :: 0 <= k < |r| ==> r[k] == readings[k].cpu_usage
  {
    seq(|readings|, k requires 0 <= k < |readings| => readings[k].cpu_usage)
  }

  function MemoryReadings(readings: seq<Service>): (r: seq<real>)
    ensures |r| == |readings| && forall k :: 0 <= k < |r| ==> r[k] == readings[k].memory_usage
  {
    seq(|readings|, k requires 0 <= k < |readings| => readings[k].memory_usage)
  }

  /** A new card's histories, after any number of readings, are the last
      fifteen CPU readings and the last fifteen memory readings. */
  lemma UpdateAllIsLast15(readings: seq<Service>)
    ensures UpdateAll([], [], readings) == (Last15(CpuReadings(readings)), Last15(MemoryReadings(readings)))
  {
    UpdateAllIsPushAll([], [], readings);
    PushAllIsLast15([], CpuReadings(readings));
    PushAllIsLast15([], MemoryReadings(readings));
    assert [] + CpuReadings(readings) == CpuReadings(readings);
    assert [] + MemoryReadings(readings) == MemoryReadings(readings);
  }

  /** The readings of a prefix are the prefix of the readings. */
  lemma ReadingsPrefix(readings: seq<Service>, n: nat)
    requires n <= |readings|
    ensures CpuReadings(readings)[..n] == CpuReadings(readings[..n])
    ensures MemoryReadings(readings)[..n] == MemoryReadings(readings[..n])
  {
  }

  /** Running the effect per reading pushes each series separately. */
  lemma {:induction false} UpdateAllIsPushAll(cpuHistory: seq<real>, memoryHistory: seq<real>, readings: seq<Service>)
    ensures UpdateAll(cpuHistory, memoryHistory, readings)
            == (PushAll(cpuHistory, CpuReadings(readings)), PushAll(memoryHistory, MemoryReadings(readings)))
  {
    if readings != [] {
      var n := |readings| - 1;
      var c, m := CpuReadings(readings), MemoryReadings(readings);
      UpdateAllIsPushAll(cpuHistory, memoryHistory, readings[..n]);
      ReadingsPrefix(readings, n);
      var h := UpdateAll(cpuHistory, memoryHistory, readings[..n]);
      assert h == (PushAll(cpuHistory, c[..n]), PushAll(memoryHistory, m[..n]));
      assert UpdateAll(cpuHistory, memoryHistory, readings) == UpdateHistories(h.0, h.1, readings[n]);
      assert PushAll(cpuHistory, c) == PushHistory(h.0, c[n]);
      assert PushAll(memoryHistory, m) == PushHistory(h.1, m[n]);
    }
  }

  /** A sparkline needs more than two points. */
  predicate ShowSparkline(history: seq<real>)
  {
    |history| > 2
  }

  /** Starting from the empty histories of a new card, the sparkline appears
      from the third reading on and never holds more than fifteen points. */
  lemma SparklineFromThirdReading(values: seq<real>)
    ensures ShowSparkline(PushAll([], values)) <==> |values| >= 3
    ensures |PushAll([], values)| <= HistoryCap
  {
    PushAllIsLast15([], values);
    assert [] + values == values;
  }

  /** The red marker: many errors, high CPU or high memory. Status is not part of it. */
  predicate HasIssues(s: Service)
  {
    s.error_count > 5 || s.cpu_usage > 80.0 || s.memory_usage > 1000.0
  }

  /** On a running service the marker shows exactly when self-healing would
      find a problem; a service that is not running has a problem even when
      the marker is off. */
  lemma IssuesMatchDiagnosis(s: Service)
    ensures s.status == Running ==> (HasIssues(s) <==> |Diagnose(s)| > 0)
    ensures s.status != Running ==> |Diagnose(s)| > 0
  {
    CommandsMatchProblems(s);
  }

  /** The action buttons, left to right. */
  function Buttons(s: Service): (r: seq<Action>)
    ensures Start in r <==> s.status != Running
    ensures Stop in r <==> s.status == Running
    ensures Restart in r <==> s.status == Running
  {
    if s.status != Running then [Start] else [Stop, Restart]
  }

  /** Each shown button, once its update is merged, swaps the buttons as
      expected: start and restart leave Stop and Restart, stop leaves Start. */
  lemma ButtonsAfterAction(s: Service, a: Action, now: string)
    requires a in Buttons(s)
    ensures Buttons(Merge(s, ActionPatch(s, a, now))) == (if a == Stop then [Start] else [Stop, Restart])
  {
  }
}
