/** The dashboard's records: a monitored service, a log line, a workflow
    (self-healing attempt) record, the dashboard configuration, a toast alert
    and the demo generator's drive and system readings. Timestamps are the ISO
    strings the dashboard stores; how they are produced is left to callers. */
module Types {
  import opened Basics

  datatype Status = Running | Stopped | Paused

  function StatusName(s: Status): string
  {
    match s
    case Running => "Running"
    case Stopped => "Stopped"
    case Paused => "Paused"
  }

  /** A monitored Windows-style service. Gauges are JavaScript numbers (reals
      here); the error count and uptime are whole numbers. The optional
      webhook fields are absent (None) until configured. */
  datatype Service = Service(
    id: string,
    client_id: string,
    name: string,
    display_name: string,
    status: Status,
    cpu_usage: real,
    memory_usage: real,
    disk_io: real,
    network_stats: real,
    uptime: int,
    last_restart: string,
    error_count: int,
    webhook_url: Option<string>,
    webhook_enabled: Option<bool>,
    start_webhook_url: Option<string>,
    start_webhook_enabled: Option<bool>,
    stop_webhook_url: Option<string>,
    stop_webhook_enabled: Option<bool>,
    created_at: string,
    updated_at: string)

  /** The fields of a `Partial<Service>` the dashboard ever writes; None means
      the key is absent from the update object. */
  datatype ServicePatch = ServicePatch(
    status: Option<Status>,
    last_restart: Option<string>,
    error_count: Option<int>,
    uptime: Option<int>,
    cpu_usage: Option<real>,
    memory_usage: Option<real>,
    disk_io: Option<real>,
    network_stats: Option<real>,
    webhook_url: Option<string>,
    webhook_enabled: Option<bool>)

  const NoChange := ServicePatch(None, None, None, None, None, None, None, None, None, None)

  function Pick<T>(update: Option<T>, current: T): T
  {
    if update.Some? then update.value else current
  }

  /** `{ ...s, ...patch }`: every key present in the patch overrides, every
      other field is kept. */
  function Merge(s: Service, p: ServicePatch): (r: Service)
    ensures r.id == s.id && r.client_id == s.client_id && r.name == s.name
    ensures r.display_name == s.display_name && r.created_at == s.created_at && r.updated_at == s.updated_at
    ensures r.start_webhook_url == s.start_webhook_url && r.start_webhook_enabled == s.start_webhook_enabled
    ensures r.stop_webhook_url == s.stop_webhook_url && r.stop_webhook_enabled == s.stop_webhook_enabled
    ensures r.status == Pick(p.status, s.status)
    ensures r.last_restart == Pick(p.last_restart, s.last_restart)
    ensures r.error_count == Pick(p.error_count, s.error_count)
    ensures r.uptime == Pick(p.uptime, s.uptime)
    ensures r.cpu_usage == Pick(p.cpu_usage, s.cpu_usage)
    ensures r.memory_usage == Pick(p.memory_usage, s.memory_usage)
    ensures r.disk_io == Pick(p.disk_io, s.disk_io)
    ensures r.network_stats == Pick(p.network_stats, s.network_stats)
    ensures p.webhook_url.Some? ==> r.webhook_url == p.webhook_url
    ensures p.webhook_url.None? ==> r.webhook_url == s.webhook_url
    ensures p.webhook_enabled.Some? ==> r.webhook_enabled == p.webhook_enabled
    ensures p.webhook_enabled.None? ==> r.webhook_enabled == s.webhook_enabled
  {
    s.(status := Pick(p.status, s.status),
       last_restart := Pick(p.last_restart, s.last_restart),
       error_count := Pick(p.error_count, s.error_count),
       uptime := Pick(p.uptime, s.uptime),
       cpu_usage := Pick(p.cpu_usage, s.cpu_usage),
       memory_usage := Pick(p.memory_usage, s.memory_usage),
       disk_io := Pick(p.disk_io, s.disk_io),
       network_stats := Pick(p.network_stats, s.network_stats),
       webhook_url := if p.webhook_url.Some? then p.webhook_url else s.webhook_url,
       webhook_enabled := if p.webhook_enabled.Some? then p.webhook_enabled else s.webhook_enabled)
  }

  lemma MergeNoChange(s: Service)
    ensures Merge(s, NoChange) == s
  {
  }

  datatype Level = Info | Warning | Error | Critical

  function LevelName(l: Level): string
  {
    match l
    case Info => "INFO"
    case Warning => "WARNING"
    case Error => "ERROR"
    case Critical => "CRITICAL"
  }

  datatype ServiceLog = ServiceLog(
    id: string,
    service_id: string,
    level: Level,
    message: string,
    timestamp: string)

  datatype Resolution = Success | Failed | InProgress

  datatype WorkflowHistory = WorkflowHistory(
    id: string,
    service_id: Option<string>,
    problem_identified: string,
    commands_executed: seq<string>,
    resolution_status: Resolution,
    started_at: string,
    completed_at: Option<string>)

  /** A `Partial<WorkflowHistory>`; `completed_at` may be set to a time or to null. */
  datatype WorkflowPatch = WorkflowPatch(
    commands_executed: Option<seq<string>>,
    resolution_status: Option<Resolution>,
    completed_at: Option<Option<string>>)

  function MergeWorkflow(w: WorkflowHistory, p: WorkflowPatch): (r: WorkflowHistory)
    ensures r.id == w.id && r.service_id == w.service_id && r.started_at == w.started_at
    ensures r.problem_identified == w.problem_identified
    ensures r.commands_executed == Pick(p.commands_executed, w.commands_executed)
    ensures r.resolution_status == Pick(p.resolution_status, w.resolution_status)
    ensures r.completed_at == Pick(p.completed_at, w.completed_at)
  {
    w.(commands_executed := Pick(p.commands_executed, w.commands_executed),
       resolution_status := Pick(p.resolution_status, w.resolution_status),
       completed_at := Pick(p.completed_at, w.completed_at))
  }

  /** The configuration row. Every field is optional because the store can
      hold the partial object that `{ ...null, ...newConfig }` produces. */
  datatype DashboardConfig = DashboardConfig(
    id: Option<string>,
    n8n_webhook_url: Option<string>,
    ssh_host: Option<string>,
    ssh_port: Option<int>,
    alert_threshold_cpu: Option<real>,
    alert_threshold_memory: Option<real>,
    monitoring_interval: Option<int>,
    auto_healing_enabled: Option<bool>,
    updated_at: Option<string>)

  datatype AlertKind = ErrorAlert | WarningAlert | SuccessAlert | InfoAlert

  /** What callers pass to `addAlert`: an alert without id and timestamp. */
  datatype AlertInput = AlertInput(kind: AlertKind, title: string, message: string)

  datatype Alert = Alert(id: string, kind: AlertKind, title: string, message: string, timestamp: string)

  datatype Theme = Dark | Light

  datatype DriveInfo = DriveInfo(name: string, total: real, used: real, free: real, percentage: real)

  datatype SystemMetrics = SystemMetrics(
    id: string,
    client_id: string,
    cpu_usage: real,
    gpu_usage: real,
    ram_usage: int,
    ram_total: int,
    drives: seq<DriveInfo>,
    network_upload: int,
    network_download: int,
    timestamp: string)
}
