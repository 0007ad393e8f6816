/** The client-side store: the service registry and the log, workflow-history
    and alert sinks, plus the theme. Each store action replaces one field by
    a value computed from the old one; those computations are the functions
    below, and the class `AppStore` applies them in place. */
module Store {
  import opened Basics
  import opened Types

  /** The log sink keeps at most this many entries, newest first. */
  const LogCap := 1000

  // ----- the registry -----

  /** `services.find(s => s.id === id)` */
  function FindById(services: seq<Service>, id: string): (r: Option<Service>)
    ensures r.Some? ==> r.value in services && r.value.id == id
    ensures r.None? <==> forall s :: s in services ==> s.id != id
    ensures r.Some? ==> exists k :: 0 <= k < |services| && services[k] == r.value &&
                         forall j :: 0 <= j < k ==> services[j].id != id
  {
    if services == [] then None
    else if services[0].id == id then Some(services[0])
    else
      var r := FindById(services[1..], id);
      if r.Some? then
        assert exists k :: 0 <= k < |services| - 1 && services[1..][k] == r.value &&
                           forall j :: 0 <= j < k ==> services[1..][j].id != id;
        var k :| 0 <= k < |services| - 1 && services[1..][k] == r.value &&
                 forall j :: 0 <= j < k ==> services[1..][j].id != id;
        assert services[k + 1] == r.value;
        r
      else r
  }

  /** No two entries share an id (the database's primary key). */
  predicate DistinctIds(services: seq<Service>)
  {
    forall j, k :: 0 <= j < k < |services| ==> services[j].id != services[k].id
  }

  /** The entry `updateService(id, patch)` writes: the patch merged in and
      `updated_at` stamped. */
  function Patched(s: Service, p: ServicePatch, now: string): Service
  {
    Merge(s, p).(updated_at := now)
  }

  /** `updateService`: maps over the list, patching exactly the entries whose
      id matches. */
  function UpdateById(services: seq<Service>, id: string, p: ServicePatch, now: string): (r: seq<Service>)
    ensures |r| == |services|
    ensures forall i :: 0 <= i < |r| ==> r[i].id == services[i].id
    ensures forall i :: 0 <= i < |r| && services[i].id != id ==> r[i] == services[i]
    ensures forall i :: 0 <= i < |r| && services[i].id == id ==> r[i] == Patched(services[i], p, now)
  {
    seq(|services|, i requires 0 <= i < |services| =>
      if services[i].id == id then Patched(services[i], p, now) else services[i])
  }

  /** An update to an id that is not in the registry leaves it as it was. */
  lemma UpdateUnknownIsNoop(services: seq<Service>, id: string, p: ServicePatch, now: string)
    requires forall s :: s in services ==> s.id != id
    ensures UpdateById(services, id, p, now) == services
  {
    var r := UpdateById(services, id, p, now);
    assert forall i :: 0 <= i < |r| ==> services[i] in services;
  }

  lemma {:induction false} UpdateDistributes(a: seq<Service>, b: seq<Service>, id: string, p: ServicePatch, now: string)
    ensures UpdateById(a + b, id, p, now) == UpdateById(a, id, p, now) + UpdateById(b, id, p, now)
  {
    var l := UpdateById(a + b, id, p, now);
    var r := UpdateById(a, id, p, now) + UpdateById(b, id, p, now);
    assert |l| == |r|;
    forall i | 0 <= i < |l| ensures l[i] == r[i] {
      if i < |a| {
        assert (a + b)[i] == a[i];
      } else {
        assert (a + b)[i] == b[i - |a|];
      }
    }
  }

  // ----- the log sink -----

  /** `[log, ...logs].slice(0, 1000)` */
  function PrependLog(logs: seq<ServiceLog>, log: ServiceLog): (r: seq<ServiceLog>)
    ensures |r| == MinI(|logs| + 1, LogCap)
    ensures r[0] == log
    ensures r[1..] == logs[..|r| - 1]
  {
    Take([log] + logs, LogCap)
  }

  /** `logs.slice(0, 1000)` */
  function CapLogs(logs: seq<ServiceLog>): (r: seq<ServiceLog>)
    ensures |r| == MinI(|logs|, LogCap)
    ensures r == logs[..|r|]
  {
    Take(logs, LogCap)
  }

  /** Inserting more than the cap leaves exactly the cap, newest first. */
  lemma PrependManyCapped(logs: seq<ServiceLog>, news: seq<ServiceLog>)
    requires |logs| <= LogCap
    ensures |PrependAll(logs, news)| == MinI(|logs| + |news|, LogCap)
    ensures forall i :: 0 <= i < MinI(|news|, LogCap) ==> PrependAll(logs, news)[i] == news[|news| - 1 - i]
  {
    PrependAllLength(logs, news);
    forall i | 0 <= i < MinI(|news|, LogCap)
      ensures PrependAll(logs, news)[i] == news[|news| - 1 - i]
    {
      PrependAllAt(logs, news, i);
    }
  }

  lemma {:induction false} PrependAllLength(logs: seq<ServiceLog>, news: seq<ServiceLog>)
    requires |logs| <= LogCap
    ensures |PrependAll(logs, news)| == MinI(|logs| + |news|, LogCap)
  {
    if news != [] {
      PrependAllLength(logs, news[..|news| - 1]);
    }
  }

  /** The entry at position `i` is the `i`-th newest insertion. */
  lemma {:induction false} PrependAllAt(logs: seq<ServiceLog>, news: seq<ServiceLog>, i: nat)
    requires |logs| <= LogCap && i < MinI(|news|, LogCap)
    ensures i < |PrependAll(logs, news)| && PrependAll(logs, news)[i] == news[|news| - 1 - i]
  {
    var init := news[..|news| - 1];
    var before := PrependAll(logs, init);
    var after := PrependLog(before, news[|news| - 1]);
    assert PrependAll(logs, news) == after;
    if i > 0 {
      PrependAllAt(logs, init, i - 1);
      assert after[1..] == before[..|after| - 1];
      assert after[i] == after[1..][i - 1];
    }
  }

  /** `addLog` applied to every entry of `news`, first entry first. */
  function PrependAll(logs: seq<ServiceLog>, news: seq<ServiceLog>): seq<ServiceLog>
  {
    if news == [] then logs else PrependLog(PrependAll(logs, news[..|news| - 1]), news[|news| - 1])
  }

  // ----- workflow history -----

  /** `updateWorkflowHistory`: merges into exactly the records with that id,
      whatever their status. */
  function UpdateWorkflowById(hist: seq<WorkflowHistory>, id: string, p: WorkflowPatch): (r: seq<WorkflowHistory>)
    ensures |r| == |hist|
    ensures forall i :: 0 <= i < |r| ==> r[i].id == hist[i].id
    ensures forall i :: 0 <= i < |r| && hist[i].id != id ==> r[i] == hist[i]
    ensures forall i :: 0 <= i < |r| && hist[i].id == id ==> r[i] == MergeWorkflow(hist[i], p)
  {
    seq(|hist|, i requires 0 <= i < |hist| =>
      if hist[i].id == id then MergeWorkflow(hist[i], p) else hist[i])
  }

  // ----- alerts -----

  /** `addAlert`: the alert gets the id and timestamp the caller draws. */
  function NewAlert(a: AlertInput, id: string, now: string): (r: Alert)
    ensures r.kind == a.kind && r.title == a.title && r.message == a.message
    ensures r.id == id && r.timestamp == now
  {
    Alert(id, a.kind, a.title, a.message, now)
  }

  /** `alerts.filter(a => a.id !== id)` */
  function RemoveAlertById(alerts: seq<Alert>, id: string): (r: seq<Alert>)
    ensures forall a :: a in r ==> a.id != id
    ensures forall a :: a in alerts && a.id != id ==> a in r
    ensures SubsequenceOf(r, alerts)
  {
    FilterIsSubsequence(alerts, (a: Alert) => a.id != id);
    Filter(alerts, (a: Alert) => a.id != id)
  }

  /** Removing an id that no alert carries keeps the list. */
  lemma RemoveAbsentAlert(alerts: seq<Alert>, id: string)
    requires forall a :: a in alerts ==> a.id != id
    ensures RemoveAlertById(alerts, id) == alerts
  {
    FilterAll(alerts, (a: Alert) => a.id != id);
  }

  // ----- theme -----

  function Toggle(t: Theme): (r: Theme)
    ensures r != t
  {
    if t == Dark then Light else Dark
  }

  lemma ToggleTwice(t: Theme)
    ensures Toggle(Toggle(t)) == t
  {
  }

  // ----- the store as one value -----

  datatype StoreState = StoreState(
    services: seq<Service>,
    logs: seq<ServiceLog>,
    workflowHistory: seq<WorkflowHistory>,
    config: Option<DashboardConfig>,
    alerts: seq<Alert>,
    theme: Theme)

  function WithAlert(st: StoreState, a: AlertInput, id: string, now: string): StoreState
  {
    st.(alerts := [NewAlert(a, id, now)] + st.alerts)
  }

  function WithUpdate(st: StoreState, id: string, p: ServicePatch, now: string): StoreState
  {
    st.(services := UpdateById(st.services, id, p, now))
  }

  /** The zustand store. Every action replaces one field and nothing else. */
  class AppStore {
    var services: seq<Service>
    var logs: seq<ServiceLog>
    var workflowHistory: seq<WorkflowHistory>
    var config: Option<DashboardConfig>
    var alerts: seq<Alert>
    var theme: Theme

    /** The log cap holds at all times. */
    ghost predicate Valid()
      reads this
    {
      |logs| <= LogCap
    }

    function State(): StoreState
      reads this
    {
      StoreState(services, logs, workflowHistory, config, alerts, theme)
    }

    constructor ()
      ensures Valid()
      ensures State() == StoreState([], [], [], None, [], Dark)
    {
      services, logs, workflowHistory := [], [], [];
      config, alerts, theme := None, [], Dark;
    }

    method SetServices(list: seq<Service>)
      requires Valid()
      modifies this
      ensures Valid()
      ensures State() == old(State()).(services := list)
    {
      services := list;
    }

    method UpdateService(id: string, patch: ServicePatch, now: string)
      requires Valid()
      modifies this
      ensures Valid()
      ensures State() == WithUpdate(old(State()), id, patch, now)
    {
      services := UpdateById(services, id, patch, now);
    }

    method AddLog(log: ServiceLog)
      requires Valid()
      modifies this
      ensures Valid()
      ensures State() == old(State()).(logs := PrependLog(old(logs), log))
    {
      logs := PrependLog(logs, log);
    }

    method SetLogs(list: seq<ServiceLog>)
      requires Valid()
      modifies this
      ensures Valid()
      ensures State() == old(State()).(logs := CapLogs(list))
    {
      logs := CapLogs(list);
    }

    /** Prepends with no cap. */
    method AddWorkflowHistory(w: WorkflowHistory)
      requires Valid()
      modifies this
      ensures Valid()
      ensures State() == old(State()).(workflowHistory := [w] + old(workflowHistory))
    {
      workflowHistory := [w] + workflowHistory;
    }

    method SetWorkflowHistory(list: seq<WorkflowHistory>)
      requires Valid()
      modifies this
      ensures Valid()
      ensures State() == old(State()).(workflowHistory := list)
    {
      workflowHistory := list;
    }

    method UpdateWorkflowHistory(id: string, patch: WorkflowPatch)
      requires Valid()
      modifies this
      ensures Valid()
      ensures State() == old(State()).(workflowHistory := UpdateWorkflowById(old(workflowHistory), id, patch))
    {
      workflowHistory := UpdateWorkflowById(workflowHistory, id, patch);
    }

    method SetConfig(c: DashboardConfig)
      requires Valid()
      modifies this
      ensures Valid()
      ensures State() == old(State()).(config := Some(c))
    {
      config := Some(c);
    }

    /** `id` and `now` stand for `Math.random().toString(36)` and the clock. */
    method AddAlert(a: AlertInput, id: string, now: string)
      requires Valid()
      modifies this
      ensures Valid()
      ensures State() == WithAlert(old(State()), a, id, now)
    {
      alerts := [NewAlert(a, id, now)] + alerts;
    }

    method RemoveAlert(id: string)
      requires Valid()
      modifies this
      ensures Valid()
      ensures State() == old(State()).(alerts := RemoveAlertById(old(alerts), id))
    {
      alerts := RemoveAlertById(alerts, id);
    }

    method ToggleTheme()
      requires Valid()
      modifies this
      ensures Valid()
      ensures State() == old(State()).(theme := Toggle(old(theme)))
    {
      theme := Toggle(theme);
    }
  }
}
