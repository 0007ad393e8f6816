/** The synchronisation hook of src/hooks/useDataSync.ts: the initial fetch
    that fills the store (seeding twelve mock services when the table is
    empty) and the simulation tick that drifts every service's metrics and
    sometimes appends a random log.

    Query results are parameters (None where supabase returns no data);
    database writes do not affect the store and are not modelled. One tick
    uses a single clock reading for all its store updates. */
module DataSync {
  import opened Basics
  import opened Types
  import opened Store
  import opened MockData

  // ----- the simulation tick -----

  /** The random numbers one loop iteration consumes. */
  datatype TickDraw = TickDraw(metrics: MetricDraws, logRoll: real, log: LogDraw)

  predicate ValidTickDraw(d: TickDraw)
  {
    ValidMetricDraws(d.metrics) && 0.0 <= d.logRoll < 1.0 && ValidLogDraw(d.log)
  }

  predicate ValidTickDraws(draws: seq<TickDraw>)
  {
    forall k :: 0 <= k < |draws| ==> ValidTickDraw(draws[k])
  }

  /** The log this iteration generates, if its roll is below 0.15. */
  function TickLog(svc: Service, d: TickDraw, now: string): Option<ServiceLog>
    requires ValidTickDraw(d)
  {
    if d.logRoll < 0.15 then Some(MockLog(svc.id, d.log, now)) else None
  }

  /** The iteration raises the snapshot's error count. */
  predicate RaisesErrors(svc: Service, d: TickDraw, now: string)
    requires ValidTickDraw(d)
  {
    var log := TickLog(svc, d, now);
    log.Some? && (log.value.level == Error || log.value.level == Critical)
  }

  /** One iteration for snapshot entry `svc`. Every decision and every new
      value is computed from the snapshot, not from the current store. */
  function StepService(st: StoreState, svc: Service, d: TickDraw, now: string): (r: StoreState)
    requires ValidTickDraw(d)
    ensures |r.services| == |st.services|
  {
    var moved := WithUpdate(st, svc.id, UpdateServiceMetrics(svc, d.metrics), now);
    var log := TickLog(svc, d, now);
    if log.None? then moved
    else
      var logged := moved.(logs := PrependLog(moved.logs, log.value));
      if RaisesErrors(svc, d, now)
      then WithUpdate(logged, svc.id, NoChange.(error_count := Some(svc.error_count + 1)), now)
      else logged
  }

  /** `updateServiceMetricsInDb` over the render-time snapshot `snapshot`. */
  function TickSpec(st: StoreState, snapshot: seq<Service>, draws: seq<TickDraw>, now: string): (r: StoreState)
    requires |draws| >= |snapshot| && ValidTickDraws(draws)
    ensures |r.services| == |st.services|
  {
    if snapshot == [] then st
    else
      var n := |snapshot| - 1;
      StepService(TickSpec(st, snapshot[..n], draws, now), snapshot[n], draws[n], now)
  }

  /** The logs one tick generates, in generation order. */
  function NewLogs(snapshot: seq<Service>, draws: seq<TickDraw>, now: string): (logs: seq<ServiceLog>)
    requires |draws| >= |snapshot| && ValidTickDraws(draws)
    ensures |logs| <= |snapshot|
  {
    if snapshot == [] then []
    else
      var n := |snapshot| - 1;
      var log := TickLog(snapshot[n], draws[n], now);
      NewLogs(snapshot[..n], draws, now) + (if log.Some? then [log.value] else [])
  }

  /** A tick changes only the registry and the logs. */
  lemma {:induction false} TickFrame(st: StoreState, snapshot: seq<Service>, draws: seq<TickDraw>, now: string)
    requires |draws| >= |snapshot| && ValidTickDraws(draws)
    ensures var r := TickSpec(st, snapshot, draws, now);
      && r.workflowHistory == st.workflowHistory && r.config == st.config
      && r.alerts == st.alerts && r.theme == st.theme
  {
    if snapshot != [] {
      TickFrame(st, snapshot[..|snapshot| - 1], draws, now);
    }
  }

  /** The tick's logs sit in front of the old ones, newest first, under the
      1000-entry cap; so the log never exceeds the cap. */
  lemma {:induction false} TickLogs(st: StoreState, snapshot: seq<Service>, draws: seq<TickDraw>, now: string)
    requires |draws| >= |snapshot| && ValidTickDraws(draws)
    ensures TickSpec(st, snapshot, draws, now).logs == PrependAll(st.logs, NewLogs(snapshot, draws, now))
  {
    if snapshot != [] {
      var n := |snapshot| - 1;
      TickLogs(st, snapshot[..n], draws, now);
      var mid := TickSpec(st, snapshot[..n], draws, now);
      var log := TickLog(snapshot[n], draws[n], now);
      var before := NewLogs(snapshot[..n], draws, now);
      assert TickSpec(st, snapshot, draws, now) == StepService(mid, snapshot[n], draws[n], now);
      StepLogs(mid, snapshot[n], draws[n], now);
      if log.Some? {
        var news := before + [log.value];
        assert NewLogs(snapshot, draws, now) == news;
        assert news[..|news| - 1] == before;
        assert PrependAll(st.logs, news) == PrependLog(PrependAll(st.logs, before), log.value);
      } else {
        assert NewLogs(snapshot, draws, now) == before;
      }
    }
  }

  /** One iteration prepends its log, if any, and nothing else. */
  lemma StepLogs(st: StoreState, svc: Service, d: TickDraw, now: string)
    requires ValidTickDraw(d)
    ensures var log := TickLog(svc, d, now);
      StepService(st, svc, d, now).logs == if log.Some? then PrependLog(st.logs, log.value) else st.logs
  {
  }

  lemma TickLogCap(st: StoreState, snapshot: seq<Service>, draws: seq<TickDraw>, now: string)
    requires |draws| >= |snapshot| && ValidTickDraws(draws) && |st.logs| <= LogCap
    ensures |TickSpec(st, snapshot, draws, now).logs| == MinI(|st.logs| + |NewLogs(snapshot, draws, now)|, LogCap)
    ensures |TickSpec(st, snapshot, draws, now).logs| <= MinI(|st.logs| + |snapshot|, LogCap)
  {
    TickLogs(st, snapshot, draws, now);
    PrependManyCapped(st.logs, NewLogs(snapshot, draws, now));
  }

  /** One iteration leaves entries with other ids alone. */
  lemma StepOther(st: StoreState, svc: Service, d: TickDraw, now: string, i: nat)
    requires ValidTickDraw(d) && i < |st.services| && st.services[i].id != svc.id
    ensures StepService(st, svc, d, now).services[i] == st.services[i]
  {
  }

  /** One iteration on a matching entry: drifted gauges and uptime from the
      snapshot, error count raised from the snapshot's when an error-level
      log was generated. */
  lemma StepMatch(st: StoreState, svc: Service, d: TickDraw, now: string, i: nat)
    requires ValidTickDraw(d) && i < |st.services| && st.services[i].id == svc.id
    ensures var e, p := StepService(st, svc, d, now).services[i], UpdateServiceMetrics(svc, d.metrics);
      && e.id == st.services[i].id && e.status == st.services[i].status
      && e.cpu_usage == p.cpu_usage.value && e.memory_usage == p.memory_usage.value
      && e.disk_io == p.disk_io.value && e.network_stats == p.network_stats.value
      && e.uptime == p.uptime.value
      && e.error_count == (if RaisesErrors(svc, d, now) then svc.error_count + 1 else st.services[i].error_count)
  {
  }

  /** An entry whose id no snapshot entry carries is left alone. */
  lemma {:induction false} TickUntouched(st: StoreState, snapshot: seq<Service>, draws: seq<TickDraw>, now: string, i: nat)
    requires |draws| >= |snapshot| && ValidTickDraws(draws)
    requires i < |st.services| && forall s :: s in snapshot ==> s.id != st.services[i].id
    ensures TickSpec(st, snapshot, draws, now).services[i] == st.services[i]
  {
    if snapshot != [] {
      var n := |snapshot| - 1;
      TickUntouched(st, snapshot[..n], draws, now, i);
      assert snapshot[n] in snapshot;
      StepOther(TickSpec(st, snapshot[..n], draws, now), snapshot[n], draws[n], now, i);
    }
  }

  /** With distinct snapshot ids, the registry entry matching snapshot entry
      `j` ends with the gauges and uptime drifted from the SNAPSHOT's values,
      and with error count the snapshot's plus one when an error-level log
      was generated, otherwise the count it had in the store. */
  lemma {:induction false} TickEntry(st: StoreState, snapshot: seq<Service>, draws: seq<TickDraw>, now: string, i: nat, j: nat)
    requires |draws| >= |snapshot| && ValidTickDraws(draws) && DistinctIds(snapshot)
    requires i < |st.services| && j < |snapshot| && st.services[i].id == snapshot[j].id
    ensures var e, p := TickSpec(st, snapshot, draws, now).services[i], UpdateServiceMetrics(snapshot[j], draws[j].metrics);
      && e.id == st.services[i].id && e.status == st.services[i].status
      && e.cpu_usage == p.cpu_usage.value && e.memory_usage == p.memory_usage.value
      && e.disk_io == p.disk_io.value && e.network_stats == p.network_stats.value
      && e.uptime == p.uptime.value
      && e.error_count == (if RaisesErrors(snapshot[j], draws[j], now) then snapshot[j].error_count + 1 else st.services[i].error_count)
  {
    var n := |snapshot| - 1;
    var prefix := snapshot[..n];
    var mid := TickSpec(st, prefix, draws, now);
    if j == n {
      assert forall s :: s in prefix ==> s.id != st.services[i].id by {
        forall s | s in prefix ensures s.id != st.services[i].id {
          var k :| 0 <= k < n && prefix[k] == s;
          assert snapshot[k] == s;
        }
      }
      TickUntouched(st, prefix, draws, now, i);
      StepMatch(mid, snapshot[n], draws[n], now, i);
    } else {
      assert prefix[j] == snapshot[j];
      TickEntry(st, prefix, draws, now, i, j);
      StepOther(mid, snapshot[n], draws[n], now, i);
    }
  }

  /** The body of the tick's loop for one snapshot entry. */
  method StepMethod(store: AppStore, service: Service, d: TickDraw, now: string)
    requires store.Valid() && ValidTickDraw(d)
    modifies store
    ensures store.Valid()
    ensures store.State() == StepService(old(store.State()), service, d, now)
  {
    ghost var st0 := store.State();
    var updates := UpdateServiceMetrics(service, d.metrics);
    store.UpdateService(service.id, updates, now);
    ghost var moved := store.State();
    assert moved == WithUpdate(st0, service.id, UpdateServiceMetrics(service, d.metrics), now);
    if d.logRoll < 0.15 {
      var newLog := GenerateMockLog(service.id, d.log, now);
      assert TickLog(service, d, now) == Some(newLog);
      store.AddLog(newLog);
      if newLog.level == Error || newLog.level == Critical {
        store.UpdateService(service.id, NoChange.(error_count := Some(service.error_count + 1)), now);
      }
    }
  }

  /** `updateServiceMetricsInDb`, over the snapshot the interval callback
      closed over. */
  method Tick(store: AppStore, snapshot: seq<Service>, draws: seq<TickDraw>, now: string)
    requires store.Valid() && |draws| >= |snapshot| && ValidTickDraws(draws)
    modifies store
    ensures store.Valid()
    ensures store.State() == TickSpec(old(store.State()), snapshot, draws, now)
  {
    if |snapshot| == 0 {
      return;
    }
    ghost var st0 := store.State();
    var i := 0;
    while i < |snapshot|
      invariant 0 <= i <= |snapshot|
      invariant store.Valid()
      invariant store.State() == TickSpec(st0, snapshot[..i], draws, now)
    {
      assert snapshot[..i + 1][..i] == snapshot[..i];
      StepMethod(store, snapshot[i], draws[i], now);
      i := i + 1;
    }
    assert snapshot[..i] == snapshot;
  }

  // ----- the initial fetch -----

  /** What the four queries return: None where supabase yields no data. */
  datatype Fetched = Fetched(
    services: Option<seq<Service>>,
    logs: Option<seq<ServiceLog>>,
    workflows: Option<seq<WorkflowHistory>>,
    config: Option<DashboardConfig>)

  /** The mock generator is called with its default client id. */
  const DefaultClient := "default-client"

  /** Twelve services are seeded when the services query returns nothing. */
  predicate Seeds(f: Fetched)
  {
    f.services.None? || |f.services.value| == 0
  }

  /** The store after `fetchData`, given the seeded list it would use. The
      server applies the row limits (1000 logs, 50 workflow records);
      `setLogs` caps again. */
  function FetchSpec(st: StoreState, f: Fetched, seeded: seq<Service>): StoreState
  {
    var a := st.(services := if Seeds(f) then seeded else f.services.value);
    var b := if f.logs.Some? then a.(logs := CapLogs(Take(f.logs.value, LogCap))) else a;
    var c := if f.workflows.Some? then b.(workflowHistory := Take(f.workflows.value, 50)) else b;
    if f.config.Some? then c.(config := f.config) else c
  }

  /** What the fetch establishes: a non-empty registry, the fetched rows under
      their limits, alerts and theme untouched. */
  lemma FetchEffect(st: StoreState, f: Fetched, seeded: seq<Service>)
    requires |seeded| == 12
    ensures var r := FetchSpec(st, f, seeded);
      && |r.services| > 0
      && (Seeds(f) ==> r.services == seeded) && (!Seeds(f) ==> r.services == f.services.value)
      && (f.logs.Some? ==> r.logs == f.logs.value[..|r.logs|] && |r.logs| == MinI(|f.logs.value|, LogCap))
      && (f.logs.None? ==> r.logs == st.logs)
      && (f.workflows.Some? ==>
            r.workflowHistory == f.workflows.value[..|r.workflowHistory|] && |r.workflowHistory| == MinI(|f.workflows.value|, 50))
      && (f.workflows.None? ==> r.workflowHistory == st.workflowHistory)
      && (f.config.Some? ==> r.config == f.config) && (f.config.None? ==> r.config == st.config)
      && r.alerts == st.alerts && r.theme == st.theme
  {
    var r := FetchSpec(st, f, seeded);
    if f.logs.Some? {
      var rows := f.logs.value;
      var lim := Take(rows, LogCap);
      assert r.logs == CapLogs(lim);
      assert |lim| <= LogCap;
      assert r.logs == lim;
      assert lim == rows[..|lim|];
    }
    if f.workflows.Some? {
      assert r.workflowHistory == Take(f.workflows.value, 50);
    }
  }

  /** `fetchData`. The seeded list is `generateMockServices(12)` with the
      default client id; `createdAt` and `now` are its two clock readings. */
  method FetchData(store: AppStore, f: Fetched, draws: seq<ServiceDraw>, createdAt: string, now: string)
    returns (seeded: seq<Service>)
    requires store.Valid() && |draws| >= 12
    requires forall d :: d in draws ==> ValidServiceDraw(d)
    modifies store
    ensures store.Valid()
    ensures |seeded| == 12
    ensures forall i :: 0 <= i < 12 ==> seeded[i] == MockService(i, DefaultClient, draws[i], createdAt, now)
    ensures store.State() == FetchSpec(old(store.State()), f, seeded)
  {
    seeded := GenerateMockServices(12, DefaultClient, draws, createdAt, now);
    if f.services.Some? && |f.services.value| > 0 {
      store.SetServices(f.services.value);
    } else {
      store.SetServices(seeded);
    }
    if f.logs.Some? {
      store.SetLogs(Take(f.logs.value, LogCap));
    }
    if f.workflows.Some? {
      store.SetWorkflowHistory(Take(f.workflows.value, 50));
    }
    if f.config.Some? {
      store.SetConfig(f.config.value);
    }
  }
}
