/** The self-healing workflow of src/hooks/useSelfHealing.ts. One call
    diagnoses a service snapshot, records a workflow in state in_progress,
    optionally notifies the configured webhook, applies one remediation per
    condition and marks the record success. Any thrown error ends in the
    catch block, which only raises an error alert.

    The clock, `Math.random()`, the alert ids, the numeric renderings of
    `toFixed` and the outcome of every awaited call (the fault) are
    parameters, gathered in `HealEnv`. Database writes have no effect on the
    store and are not modelled, except that the completion log row is
    returned so that its text can be stated. */
module SelfHealing {
  import opened Basics
  import opened Types
  import opened Store

  // ----- diagnosis -----

  datatype Problem = NotRunning(status: Status) | HighErrorCount(count: int) | HighCpu(cpu: real) | HighMemory(memory: real)

  /** The position of each kind of problem in the fixed diagnosis order. */
  function Rank(p: Problem): nat
  {
    match p
    case NotRunning(_) => 0
    case HighErrorCount(_) => 1
    case HighCpu(_) => 2
    case HighMemory(_) => 3
  }

  function When<T>(c: bool, xs: seq<T>): seq<T>
  {
    if c then xs else []
  }

  /** The problems of a snapshot: exactly the conditions that hold, in the
      order not-running, error count above 5, CPU above 80, memory above 1000.
      The thresholds are fixed; the configuration's thresholds are not read. */
  function Diagnose(s: Service): (ps: seq<Problem>)
    ensures NotRunning(s.status) in ps <==> s.status != Running
    ensures HighErrorCount(s.error_count) in ps <==> s.error_count > 5
    ensures HighCpu(s.cpu_usage) in ps <==> s.cpu_usage > 80.0
    ensures HighMemory(s.memory_usage) in ps <==> s.memory_usage > 1000.0
    ensures forall p :: p in ps ==>
              p == NotRunning(s.status) || p == HighErrorCount(s.error_count) ||
              p == HighCpu(s.cpu_usage) || p == HighMemory(s.memory_usage)
  {
    When(s.status != Running, [NotRunning(s.status)]) +
    When(s.error_count > 5, [HighErrorCount(s.error_count)]) +
    When(s.cpu_usage > 80.0, [HighCpu(s.cpu_usage)]) +
    When(s.memory_usage > 1000.0, [HighMemory(s.memory_usage)])
  }

  /** The problems come in the fixed order, each kind at most once. */
  lemma {:induction false} DiagnoseOrdered(s: Service)
    ensures forall i, j :: 0 <= i < j < |Diagnose(s)| ==> Rank(Diagnose(s)[i]) < Rank(Diagnose(s)[j])
  {
    var p1 := When(s.status != Running, [NotRunning(s.status)]);
    var p2 := When(s.error_count > 5, [HighErrorCount(s.error_count)]);
    var p3 := When(s.cpu_usage > 80.0, [HighCpu(s.cpu_usage)]);
    var p4 := When(s.memory_usage > 1000.0, [HighMemory(s.memory_usage)]);
    var d := Diagnose(s);
    assert d == p1 + p2 + p3 + p4;
    forall i | 0 <= i < |d| ensures Rank(d[i]) == (if i < |p1| then 0 else if i < |p1 + p2| then 1 else if i < |p1 + p2 + p3| then 2 else 3) {
    }
  }

  /** `cpu_usage.toFixed(1)` and `memory_usage.toFixed(0)` of the snapshot. */
  datatype Renderings = Renderings(cpuFixed1: string, memoryFixed0: string)

  function Describe(p: Problem, r: Renderings): string
  {
    match p
    case NotRunning(st) => "Service is " + StatusName(st)
    case HighErrorCount(n) => "High error count: " + IntToString(n) + " errors in 24h"
    case HighCpu(_) => "CPU usage critical: " + r.cpuFixed1 + "%"
    case HighMemory(_) => "Memory usage high: " + r.memoryFixed0 + " MB"
  }

  function DescribeAll(ps: seq<Problem>, r: Renderings): (ds: seq<string>)
    ensures |ds| == |ps|
  {
    if ps == [] then [] else [Describe(ps[0], r)] + DescribeAll(ps[1..], r)
  }

  lemma {:induction false} DescribeAllConcat(a: seq<Problem>, b: seq<Problem>, r: Renderings)
    ensures DescribeAll(a + b, r) == DescribeAll(a, r) + DescribeAll(b, r)
  {
    if a == [] {
      assert a + b == b;
    } else {
      assert (a + b)[1..] == a[1..] + b;
      DescribeAllConcat(a[1..], b, r);
    }
  }

  lemma DescribeAllSnoc(ps: seq<Problem>, p: Problem, r: Renderings)
    ensures DescribeAll(ps + [p], r) == DescribeAll(ps, r) + [Describe(p, r)]
  {
    DescribeAllConcat(ps, [p], r);
    assert DescribeAll([p], r) == [Describe(p, r)] by {
      assert [p][1..] == [];
    }
  }

  /** `problem_identified`: the descriptions joined by ", ". */
  function ProblemText(s: Service, r: Renderings): string
  {
    Join(DescribeAll(Diagnose(s), r), ", ")
  }

  // ----- remediation -----

  function RestartCommand(name: string): string
  {
    "Restart-Service -Name \"" + name + "\" -Force"
  }

  function StartCommand(name: string): string
  {
    "Start-Service -Name \"" + name + "\""
  }

  function PriorityCommand(name: string): string
  {
    "Get-Process | Where-Object {$_.Name -like \"*" + name + "*\"} | Set-ProcessPriority -Priority Normal"
  }

  function ClearLogCommand(name: string): string
  {
    "Clear-EventLog -LogName Application -Source \"" + name + "\""
  }

  /** The commands appended by the remediation branches, in branch order
      not-running (two commands), CPU, memory, errors; note that this is not
      the diagnosis order. */
  function Commands(s: Service): seq<string>
  {
    When(s.status != Running, [RestartCommand(s.name), StartCommand(s.name)]) +
    When(s.cpu_usage > 80.0, [PriorityCommand(s.name)]) +
    When(s.memory_usage > 1000.0, [RestartCommand(s.name)]) +
    When(s.error_count > 5, [ClearLogCommand(s.name)])
  }

  function B(c: bool): nat
  {
    if c then 1 else 0
  }

  /** Not-running contributes two commands and every other condition one, so
      there are at most five commands, and there are commands exactly when
      there are problems. */
  lemma CommandsMatchProblems(s: Service)
    ensures |Commands(s)| == 2 * B(s.status != Running) + B(s.cpu_usage > 80.0) +
                             B(s.memory_usage > 1000.0) + B(s.error_count > 5)
    ensures |Diagnose(s)| == B(s.status != Running) + B(s.error_count > 5) +
                             B(s.cpu_usage > 80.0) + B(s.memory_usage > 1000.0)
    ensures |Diagnose(s)| <= |Commands(s)| <= |Diagnose(s)| + 1 && |Commands(s)| <= 5
    ensures |Commands(s)| > 0 <==> |Diagnose(s)| > 0
    ensures s.status != Running ==> Commands(s)[..2] == [RestartCommand(s.name), StartCommand(s.name)]
    ensures s.error_count > 5 ==> Commands(s)[|Commands(s)| - 1] == ClearLogCommand(s.name)
  {
  }

  /** The random numbers and clock readings one healing run consumes, and the
      awaited call that throws, if any. */
  datatype Fault = NoFault | RecordInsertFails | WebhookFails | FinalizeFails | CompletionLogFails

  datatype HealEnv = HealEnv(
    workflowId: string,
    startedAt: string,
    remediatedAt: string,
    completedAt: string,
    cpuRoll: real,
    memoryRoll: real,
    render: Renderings,
    startedAlertId: string,
    completedAlertId: string,
    failedAlertId: string,
    logId: string,
    fault: Fault)

  predicate ValidEnv(env: HealEnv)
  {
    0.0 <= env.cpuRoll < 1.0 && 0.0 <= env.memoryRoll < 1.0
  }

  function StartPatch(now: string): ServicePatch
  {
    NoChange.(status := Some(Running), last_restart := Some(now), error_count := Some(0), uptime := Some(0))
  }

  function CpuPatch(roll: real): ServicePatch
  {
    NoChange.(cpu_usage := Some(30.0 + roll * 20.0))
  }

  function MemoryPatch(roll: real): ServicePatch
  {
    NoChange.(memory_usage := Some(200.0 + roll * 300.0))
  }

  const ClearErrorsPatch := NoChange.(error_count := Some(0))

  /** The registry after the four remediation branches. Every branch tests
      the snapshot `s`, never the updated registry. */
  /** One remediation branch: the update when its condition holds. */
  function Branch(c: bool, services: seq<Service>, id: string, p: ServicePatch, now: string): seq<Service>
  {
    if c then UpdateById(services, id, p, now) else services
  }

  function Remediate(services: seq<Service>, s: Service, env: HealEnv): (r: seq<Service>)
    ensures |r| == |services|
  {
    var a := Branch(s.status != Running, services, s.id, StartPatch(env.remediatedAt), env.remediatedAt);
    var b := Branch(s.cpu_usage > 80.0, a, s.id, CpuPatch(env.cpuRoll), env.remediatedAt);
    var c := Branch(s.memory_usage > 1000.0, b, s.id, MemoryPatch(env.memoryRoll), env.remediatedAt);
    Branch(s.error_count > 5, c, s.id, ClearErrorsPatch, env.remediatedAt)
  }

  /** What remediation does to an entry with the snapshot's id: a stopped or
      paused service is Running again with no errors, zero uptime and a new
      restart time; high CPU drops to 30 + 20·roll, in [30, 50); high memory
      drops to 200 + 300·roll, in [200, 500); a high error count is cleared;
      every branch that fires stamps `updated_at`. Every other field, and
      every entry with another id, is untouched. */
  lemma RemediationEffect(services: seq<Service>, s: Service, env: HealEnv, i: nat)
    requires ValidEnv(env) && i < |services|
    ensures |Remediate(services, s, env)| == |services|
    ensures services[i].id != s.id ==> Remediate(services, s, env)[i] == services[i]
    ensures services[i].id == s.id ==>
      var e := services[i];
      Remediate(services, s, env)[i] == e.(
        status := if s.status != Running then Running else e.status,
        uptime := if s.status != Running then 0 else e.uptime,
        last_restart := if s.status != Running then env.remediatedAt else e.last_restart,
        error_count := if s.status != Running || s.error_count > 5 then 0 else e.error_count,
        cpu_usage := if s.cpu_usage > 80.0 then 30.0 + env.cpuRoll * 20.0 else e.cpu_usage,
        memory_usage := if s.memory_usage > 1000.0 then 200.0 + env.memoryRoll * 300.0 else e.memory_usage,
        updated_at :=
          if s.status != Running || s.cpu_usage > 80.0 || s.memory_usage > 1000.0 || s.error_count > 5
          then env.remediatedAt else e.updated_at)
    ensures services[i].id == s.id && s.cpu_usage > 80.0 ==> 30.0 <= Remediate(services, s, env)[i].cpu_usage < 50.0
    ensures services[i].id == s.id && s.memory_usage > 1000.0 ==> 200.0 <= Remediate(services, s, env)[i].memory_usage < 500.0
  {
  }

  // ----- the workflow record -----

  function NewWorkflow(s: Service, problem: string, env: HealEnv): (w: WorkflowHistory)
    ensures w.resolution_status == InProgress && w.commands_executed == [] && w.completed_at.None?
    ensures w.id == env.workflowId && w.service_id == Some(s.id) && w.problem_identified == problem
  {
    WorkflowHistory(env.workflowId, Some(s.id), problem, [], InProgress, env.startedAt, None)
  }

  function FinalPatch(commands: seq<string>, completedAt: string): WorkflowPatch
  {
    WorkflowPatch(Some(commands), Some(Success), Some(Some(completedAt)))
  }

  function StartedAlert(s: Service): AlertInput
  {
    AlertInput(InfoAlert, "Self-Healing Started", "Analyzing and fixing " + s.display_name + "...")
  }

  function CompletedAlert(s: Service): AlertInput
  {
    AlertInput(SuccessAlert, "Self-Healing Complete", s.display_name + " has been restored to healthy state")
  }

  function FailedAlert(s: Service): AlertInput
  {
    AlertInput(ErrorAlert, "Self-Healing Failed", "Failed to heal " + s.display_name + ". Please check manually.")
  }

  /** The row written to `service_logs` after a successful run. */
  function CompletionLog(s: Service, commands: seq<string>, env: HealEnv): ServiceLog
  {
    ServiceLog(env.logId, s.id, Info,
      "Self-healing completed successfully. Executed " + NatToString(|commands|) + " remediation commands.",
      env.completedAt)
  }

  // ----- the webhook notification -----

  datatype WebhookPayload = WebhookPayload(
    serviceName: string, displayName: string, status: Status, errorLogs: string,
    cpu: real, memory: real, uptime: int, timestamp: string)

  datatype WebhookPost = WebhookPost(url: string, payload: WebhookPayload)

  /** `config?.n8n_webhook_url` when it is truthy (present and non-empty). */
  function NotifyUrl(config: Option<DashboardConfig>): (u: Option<string>)
    ensures u.Some? <==> config.Some? && config.value.n8n_webhook_url.Some? && config.value.n8n_webhook_url.value != ""
    ensures u.Some? ==> u.value == config.value.n8n_webhook_url.value
  {
    if config.Some? && config.value.n8n_webhook_url.Some? && config.value.n8n_webhook_url.value != ""
    then config.value.n8n_webhook_url
    else None
  }

  function Payload(s: Service, problem: string, now: string): WebhookPayload
  {
    WebhookPayload(s.name, s.display_name, s.status, problem, s.cpu_usage, s.memory_usage, s.uptime, now)
  }

  // ----- the whole run as a function of the store -----

  /** The texts one run writes, computed from the snapshot before any await. */
  datatype HealTexts = HealTexts(problem: string, commands: seq<string>, started: AlertInput, completed: AlertInput, failed: AlertInput)

  function Texts(s: Service, env: HealEnv): (t: HealTexts)
    ensures t.problem == ProblemText(s, env.render) && t.commands == Commands(s)
    ensures t.failed.kind == ErrorAlert && t.completed.kind == SuccessAlert && t.started.kind == InfoAlert
  {
    HealTexts(ProblemText(s, env.render), Commands(s), StartedAlert(s), CompletedAlert(s), FailedAlert(s))
  }

  datatype HealResult = HealResult(state: StoreState, notified: Option<WebhookPost>, completionLog: Option<ServiceLog>)

  /** The catch block: an error alert and nothing else. */
  function Caught(st: StoreState, t: HealTexts, env: HealEnv): StoreState
  {
    WithAlert(st, t.failed, env.failedAlertId, env.completedAt)
  }

  /** After the record is inserted and the "started" alert raised. */
  function Recorded(st: StoreState, s: Service, t: HealTexts, env: HealEnv): StoreState
  {
    WithAlert(st.(workflowHistory := [NewWorkflow(s, t.problem, env)] + st.workflowHistory), t.started, env.startedAlertId, env.startedAt)
  }

  /** The request sent when a webhook URL is configured. */
  function Notification(config: Option<DashboardConfig>, s: Service, t: HealTexts, env: HealEnv): Option<WebhookPost>
  {
    var url := NotifyUrl(config);
    if url.Some? then Some(WebhookPost(url.value, Payload(s, t.problem, env.startedAt))) else None
  }

  /** After the remediation branches. */
  function Remediated(st: StoreState, s: Service, env: HealEnv): StoreState
  {
    st.(services := Remediate(st.services, s, env))
  }

  /** After the record is marked success and the "complete" alert raised. */
  function Finalized(st: StoreState, t: HealTexts, env: HealEnv): StoreState
  {
    WithAlert(st.(workflowHistory := UpdateWorkflowById(st.workflowHistory, env.workflowId, FinalPatch(t.commands, env.completedAt))),
      t.completed, env.completedAlertId, env.completedAt)
  }

  /** The run reaches its last statement: nothing threw (a webhook that would
      reject is never called without a URL). */
  predicate Completes(config: Option<DashboardConfig>, env: HealEnv)
  {
    env.fault == NoFault || (env.fault == WebhookFails && NotifyUrl(config).None?)
  }

  /** The store from the remediation stage on. */
  function FromRemediation(rec: StoreState, s: Service, t: HealTexts, env: HealEnv): StoreState
  {
    var rem := Remediated(rec, s, env);
    if env.fault == FinalizeFails then Caught(rem, t, env)
    else
      var fin := Finalized(rem, t, env);
      if env.fault == CompletionLogFails then Caught(fin, t, env) else fin
  }

  /** One run with the given texts, stage by stage. */
  function Run(st: StoreState, s: Service, t: HealTexts, env: HealEnv): HealResult
  {
    if env.fault == RecordInsertFails then HealResult(Caught(st, t, env), None, None)
    else
      var rec := Recorded(st, s, t, env);
      var notified := Notification(st.config, s, t, env);
      HealResult(
        if notified.Some? && env.fault == WebhookFails then Caught(rec, t, env) else FromRemediation(rec, s, t, env),
        notified,
        if Completes(st.config, env) then Some(CompletionLog(s, t.commands, env)) else None)
  }

  /** The effect of `triggerSelfHeal(s)` on the store. */
  function SelfHeal(st: StoreState, s: Service, env: HealEnv): HealResult
  {
    Run(st, s, Texts(s, env), env)
  }

  /** A run never touches the logs, the configuration or the theme, and keeps
      the registry's length. */
  lemma RunFrame(st: StoreState, s: Service, t: HealTexts, env: HealEnv)
    ensures Run(st, s, t, env).state.logs == st.logs
    ensures Run(st, s, t, env).state.config == st.config
    ensures Run(st, s, t, env).state.theme == st.theme
    ensures |Run(st, s, t, env).state.services| == |st.services|
  {
  }

  /** On normal completion the new record, first in the history, is success
      with a completion time and exactly the accumulated commands; the
      registry is remediated; "started" and "complete" alerts are raised; the
      completion log reports the number of commands. */
  lemma {:induction false} SelfHealSuccess(st: StoreState, s: Service, env: HealEnv)
    requires env.fault == NoFault
    ensures var r := SelfHeal(st, s, env);
      && |r.state.workflowHistory| == |st.workflowHistory| + 1
      && r.state.workflowHistory[0] == NewWorkflow(s, ProblemText(s, env.render), env).(
           commands_executed := Commands(s), resolution_status := Success, completed_at := Some(env.completedAt))
      && r.state.services == Remediate(st.services, s, env)
      && r.state.alerts == [NewAlert(CompletedAlert(s), env.completedAlertId, env.completedAt),
                            NewAlert(StartedAlert(s), env.startedAlertId, env.startedAt)] + st.alerts
      && r.completionLog.Some?
      && r.completionLog.value.message ==
           "Self-healing completed successfully. Executed " + NatToString(|Commands(s)|) + " remediation commands."
  {
    var t := Texts(s, env);
    var w := NewWorkflow(s, t.problem, env);
    RunSuccess(st, s, t, env);
    var h := UpdateWorkflowById([w] + st.workflowHistory, env.workflowId, FinalPatch(t.commands, env.completedAt));
    assert h[0] == MergeWorkflow(w, FinalPatch(t.commands, env.completedAt));
  }

  /** The stages of a run without a fault, for any texts. */
  lemma RunSuccess(st: StoreState, s: Service, t: HealTexts, env: HealEnv)
    requires env.fault == NoFault
    ensures var r := Run(st, s, t, env);
      && r.state.workflowHistory ==
           UpdateWorkflowById([NewWorkflow(s, t.problem, env)] + st.workflowHistory, env.workflowId, FinalPatch(t.commands, env.completedAt))
      && r.state.services == Remediate(st.services, s, env)
      && r.state.alerts == [NewAlert(t.completed, env.completedAlertId, env.completedAt),
                            NewAlert(t.started, env.startedAlertId, env.startedAt)] + st.alerts
      && r.completionLog == Some(CompletionLog(s, t.commands, env))
  {
    var rec := Recorded(st, s, t, env);
    assert Run(st, s, t, env).state == Finalized(Remediated(rec, s, env), t, env);
  }

  /** Marking success touches only the record of this run. */
  lemma {:induction false} FinalizedFailedRecords(st: StoreState, t: HealTexts, env: HealEnv, k: nat)
    requires k < |st.workflowHistory| && Finalized(st, t, env).workflowHistory[k].resolution_status == Failed
    ensures Finalized(st, t, env).workflowHistory[k] == st.workflowHistory[k]
  {
    var w := st.workflowHistory[k];
    if w.id == env.workflowId {
      assert false;
    }
  }

  /** The code never writes `failed`: every failed record afterwards was
      already in the history. */
  lemma {:induction false} RunNeverFails(st: StoreState, s: Service, t: HealTexts, env: HealEnv, k: nat)
    requires k < |Run(st, s, t, env).state.workflowHistory|
    requires Run(st, s, t, env).state.workflowHistory[k].resolution_status == Failed
    ensures Run(st, s, t, env).state.workflowHistory[k] in st.workflowHistory
  {
    if env.fault != RecordInsertFails {
      var rec := Recorded(st, s, t, env);
      var h := rec.workflowHistory;
      assert h == [NewWorkflow(s, t.problem, env)] + st.workflowHistory;
      var r := Run(st, s, t, env).state.workflowHistory;
      var rem := Remediated(rec, s, env);
      assert rem.workflowHistory == h;
      assert r == h || r == Finalized(rem, t, env).workflowHistory;
      if r != h {
        FinalizedFailedRecords(rem, t, env, k);
      }
      assert h[k] == r[k];
      assert k > 0 && h[k] == st.workflowHistory[k - 1];
    }
  }

  /** Every thrown error ends with the error alert on top and no completion
      log; a record that was inserted stays in_progress, and a rejected
      webhook call aborts before any remediation. */
  lemma {:induction false} RunFaults(st: StoreState, s: Service, t: HealTexts, env: HealEnv)
    ensures env.fault == RecordInsertFails ==> Run(st, s, t, env).state == Caught(st, t, env)
    ensures !Completes(st.config, env) ==>
      && Run(st, s, t, env).state.alerts[0] == NewAlert(t.failed, env.failedAlertId, env.completedAt)
      && Run(st, s, t, env).completionLog.None?
    ensures env.fault == WebhookFails && NotifyUrl(st.config).Some? ==>
      && Run(st, s, t, env).state.services == st.services
      && Run(st, s, t, env).state.workflowHistory == [NewWorkflow(s, t.problem, env)] + st.workflowHistory
    ensures env.fault == FinalizeFails ==>
      && Run(st, s, t, env).state.services == Remediate(st.services, s, env)
      && Run(st, s, t, env).state.workflowHistory[0] == NewWorkflow(s, t.problem, env)
  {
  }

  /** The webhook is called exactly when a URL is configured and the record
      was inserted; the payload carries the snapshot and the problem text. */
  lemma RunNotifies(st: StoreState, s: Service, t: HealTexts, env: HealEnv)
    ensures Run(st, s, t, env).notified.Some? <==> env.fault != RecordInsertFails && NotifyUrl(st.config).Some?
    ensures Run(st, s, t, env).notified.Some? ==>
      var post := Run(st, s, t, env).notified.value;
      && post.url == st.config.value.n8n_webhook_url.value
      && post.payload.serviceName == s.name && post.payload.displayName == s.display_name
      && post.payload.status == s.status && post.payload.errorLogs == t.problem
      && post.payload.cpu == s.cpu_usage && post.payload.memory == s.memory_usage && post.payload.uptime == s.uptime
  {
  }

  /** A stopped service with two errors, 10% CPU and 200 MB: the problem is
      "Service is Stopped", and it comes back Running with zero uptime and
      zero errors. */
  lemma ScenarioStopped(s: Service, env: HealEnv)
    requires ValidEnv(env)
    requires s.status == Stopped && s.error_count == 2 && s.cpu_usage == 10.0 && s.memory_usage == 200.0
    ensures ProblemText(s, env.render) == "Service is Stopped"
    ensures Commands(s) == [RestartCommand(s.name), StartCommand(s.name)]
    ensures var r := Remediate([s], s, env)[0];
      r.status == Running && r.uptime == 0 && r.error_count == 0
  {
    assert Diagnose(s) == [NotRunning(Stopped)];
    DescribeAllSnoc([], NotRunning(Stopped), env.render);
    assert [] + [NotRunning(Stopped)] == [NotRunning(Stopped)];
    assert "Service is " + StatusName(Stopped) == "Service is Stopped";
  }

  /** A running service with 8 errors, 95% CPU and 1500 MB: three problems
      (not-running excluded), and all three gauges come back into range. */
  lemma ScenarioOverloaded(s: Service, env: HealEnv)
    requires ValidEnv(env)
    requires s.status == Running && s.error_count == 8 && s.cpu_usage == 95.0 && s.memory_usage == 1500.0
    ensures Diagnose(s) == [HighErrorCount(8), HighCpu(95.0), HighMemory(1500.0)]
    ensures var r := Remediate([s], s, env)[0];
      30.0 <= r.cpu_usage < 50.0 && 200.0 <= r.memory_usage < 500.0 && r.error_count == 0 && r.status == Running
  {
    RemediationEffect([s], s, env, 0);
  }

  // ----- the imperative original -----

  /** The `problemDescription` pushes of `triggerSelfHeal`, joined. */
  method DescribeProblems(s: Service, r: Renderings) returns (problem: string)
    ensures problem == ProblemText(s, r)
  {
    var problemDescription: seq<string> := [];
    ghost var ps: seq<Problem> := [];
    if s.status != Running {
      problemDescription := problemDescription + ["Service is " + StatusName(s.status)];
      DescribeAllSnoc(ps, NotRunning(s.status), r);
      ps := ps + [NotRunning(s.status)];
    }
    assert problemDescription == DescribeAll(ps, r);
    if s.error_count > 5 {
      problemDescription := problemDescription + ["High error count: " + IntToString(s.error_count) + " errors in 24h"];
      DescribeAllSnoc(ps, HighErrorCount(s.error_count), r);
      ps := ps + [HighErrorCount(s.error_count)];
    }
    assert problemDescription == DescribeAll(ps, r);
    if s.cpu_usage > 80.0 {
      problemDescription := problemDescription + ["CPU usage critical: " + r.cpuFixed1 + "%"];
      DescribeAllSnoc(ps, HighCpu(s.cpu_usage), r);
      ps := ps + [HighCpu(s.cpu_usage)];
    }
    assert problemDescription == DescribeAll(ps, r);
    if s.memory_usage > 1000.0 {
      problemDescription := problemDescription + ["Memory usage high: " + r.memoryFixed0 + " MB"];
      DescribeAllSnoc(ps, HighMemory(s.memory_usage), r);
      ps := ps + [HighMemory(s.memory_usage)];
    }
    assert problemDescription == DescribeAll(ps, r);
    assert ps == Diagnose(s);
    problem := Join(problemDescription, ", ");
  }

  /** The `commands` pushes of the four remediation branches. */
  method RemediationCommands(s: Service) returns (commands: seq<string>)
    ensures commands == Commands(s)
  {
    commands := [];
    if s.status != Running {
      commands := commands + [RestartCommand(s.name)];
      commands := commands + [StartCommand(s.name)];
    }
    ghost var c1 := When(s.status != Running, [RestartCommand(s.name), StartCommand(s.name)]);
    assert commands == c1;
    if s.cpu_usage > 80.0 {
      commands := commands + [PriorityCommand(s.name)];
    }
    ghost var c2 := c1 + When(s.cpu_usage > 80.0, [PriorityCommand(s.name)]);
    assert commands == c2;
    if s.memory_usage > 1000.0 {
      commands := commands + [RestartCommand(s.name)];
    }
    ghost var c3 := c2 + When(s.memory_usage > 1000.0, [RestartCommand(s.name)]);
    assert commands == c3;
    if s.error_count > 5 {
      commands := commands + [ClearLogCommand(s.name)];
    }
  }

  /** The store updates of the four remediation branches, each awaited in
      turn. Every branch tests the snapshot. */
  method ApplyRemediation(store: AppStore, s: Service, env: HealEnv)
    requires store.Valid()
    modifies store
    ensures store.Valid()
    ensures store.State() == Remediated(old(store.State()), s, env)
  {
    ghost var now := env.remediatedAt;
    ghost var a := Branch(s.status != Running, store.services, s.id, StartPatch(now), now);
    if s.status != Running {
      store.UpdateService(s.id, StartPatch(env.remediatedAt), env.remediatedAt);
    }
    assert store.services == a;
    ghost var b := Branch(s.cpu_usage > 80.0, a, s.id, CpuPatch(env.cpuRoll), now);
    if s.cpu_usage > 80.0 {
      store.UpdateService(s.id, CpuPatch(env.cpuRoll), env.remediatedAt);
    }
    assert store.services == b;
    ghost var c := Branch(s.memory_usage > 1000.0, b, s.id, MemoryPatch(env.memoryRoll), now);
    if s.memory_usage > 1000.0 {
      store.UpdateService(s.id, MemoryPatch(env.memoryRoll), env.remediatedAt);
    }
    assert store.services == c;
    if s.error_count > 5 {
      store.UpdateService(s.id, ClearErrorsPatch, env.remediatedAt);
    }
  }

  /** The record insert and the "started" alert. */
  method StartHeal(store: AppStore, s: Service, env: HealEnv, workflow: WorkflowHistory, ghost t: HealTexts)
    requires store.Valid()
    requires workflow == NewWorkflow(s, t.problem, env) && t.started == StartedAlert(s)
    modifies store
    ensures store.Valid()
    ensures store.State() == Recorded(old(store.State()), s, t, env)
  {
    store.AddWorkflowHistory(workflow);
    store.AddAlert(StartedAlert(s), env.startedAlertId, env.startedAt);
  }

  /** The part of `triggerSelfHeal` after the webhook: remediation, the
      success update of the record and the "complete" alert, each `throw`
      ending in the catch block. */
  method FinishHeal(store: AppStore, s: Service, env: HealEnv, workflow: WorkflowHistory, commands: seq<string>, ghost t: HealTexts)
    requires store.Valid()
    requires workflow.id == env.workflowId && commands == t.commands
    requires t.failed == FailedAlert(s) && t.completed == CompletedAlert(s)
    modifies store
    ensures store.Valid()
    ensures store.State() == FromRemediation(old(store.State()), s, t, env)
  {
    ghost var rec := store.State();
    ApplyRemediation(store, s, env);
    if env.fault == FinalizeFails {
      store.AddAlert(FailedAlert(s), env.failedAlertId, env.completedAt);
      return;
    }
    store.UpdateWorkflowHistory(workflow.id, FinalPatch(commands, env.completedAt));
    store.AddAlert(CompletedAlert(s), env.completedAlertId, env.completedAt);
    if env.fault == CompletionLogFails {
      store.AddAlert(FailedAlert(s), env.failedAlertId, env.completedAt);
    }
  }

  /** `triggerSelfHeal(serviceData)`: the awaited store updates of the hook in
      order, each `throw` ending in the catch block. Returns the request sent
      to the webhook, if any, and the completion log row written on success. */
  method TriggerSelfHeal(store: AppStore, s: Service, env: HealEnv)
    returns (notified: Option<WebhookPost>, completionLog: Option<ServiceLog>)
    requires store.Valid()
    modifies store
    ensures store.Valid()
    ensures HealResult(store.State(), notified, completionLog) == SelfHeal(old(store.State()), s, env)
  {
    notified, completionLog := None, None;
    var problem := DescribeProblems(s, env.render);
    var workflow := NewWorkflow(s, problem, env);
    ghost var t := Texts(s, env);

    if env.fault == RecordInsertFails {
      store.AddAlert(FailedAlert(s), env.failedAlertId, env.completedAt);
      return;
    }
    StartHeal(store, s, env, workflow, t);
    ghost var rec := store.State();

    var url := NotifyUrl(store.config);
    if url.Some? {
      notified := Some(WebhookPost(url.value, Payload(s, problem, env.startedAt)));
      if env.fault == WebhookFails {
        store.AddAlert(FailedAlert(s), env.failedAlertId, env.completedAt);
        return;
      }
    }

    var commands := RemediationCommands(s);
    FinishHeal(store, s, env, workflow, commands, t);
    if env.fault == FinalizeFails || env.fault == CompletionLogFails {
      return;
    }
    completionLog := Some(CompletionLog(s, commands, env));
  }
}
