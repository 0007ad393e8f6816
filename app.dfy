/** The handlers and summary figures of the main dashboard, src/App.tsx:
    the start / stop / restart action, saving the configuration, following
    and editing a service's webhook, and the running, critical and
    average-CPU figures. Database writes are not modelled except that a
    failing write selects the error path. */
module App {
  import opened Basics
  import opened Types
  import opened Store

  // ----- service actions -----

  datatype Action = Start | Stop | Restart

  /** The `updates` object: start and restart give Running, stop gives
      Stopped; only a restart stamps `last_restart`; only a stop zeroes the
      uptime. */
  function ActionPatch(s: Service, a: Action, now: string): (p: ServicePatch)
    ensures p.status == Some(if a == Stop then Stopped else Running)
    ensures p.last_restart == Some(if a == Restart then now else s.last_restart)
    ensures p.uptime == Some(if a == Stop then 0 else s.uptime)
    ensures p.(status := None, last_restart := None, uptime := None) == NoChange
  {
    NoChange.(status := Some(if a == Stop then Stopped else Running),
              last_restart := Some(if a == Restart then now else s.last_restart),
              uptime := Some(if a == Stop then 0 else s.uptime))
  }

  function ActionMessage(s: Service, a: Action): string
  {
    match a
    case Start => s.display_name + " started successfully"
    case Stop => s.display_name + " stopped"
    case Restart => s.display_name + " restarted"
  }

  function ActionAlert(s: Service, a: Action): AlertInput
  {
    AlertInput(SuccessAlert, "Action Completed", ActionMessage(s, a))
  }

  /** The clock and the alert's id and time for one action. */
  datatype ActionEnv = ActionEnv(now: string, alertId: string, alertAt: string)

  /** An action on the service `found` by the lookup, or nothing when the
      lookup found none. */
  function ServiceAction(st: StoreState, found: Option<Service>, id: string, a: Action, env: ActionEnv): StoreState
  {
    if found.None? then st
    else WithAlert(WithUpdate(st, id, ActionPatch(found.value, a, env.now), env.now),
                   ActionAlert(found.value, a), env.alertId, env.alertAt)
  }

  /** `handleServiceAction` of the main dashboard, which looks the id up in
      the whole registry. */
  function AppServiceAction(st: StoreState, id: string, a: Action, env: ActionEnv): StoreState
  {
    ServiceAction(st, FindById(st.services, id), id, a, env)
  }

  /** What an action does to the store. With no service found nothing
      changes. Otherwise every entry with the id gets the new status, the
      found service's `last_restart` (or the clock on a restart) and uptime
      (or 0 on a stop) and a fresh `updated_at`, and keeps every other
      field; every other entry and list is unchanged except for one success
      alert in front. */
  lemma {:induction false} ServiceActionEffect(st: StoreState, found: Option<Service>, id: string, a: Action, env: ActionEnv)
    ensures found.None? ==> ServiceAction(st, found, id, a, env) == st
    ensures var r := ServiceAction(st, found, id, a, env);
      found.Some? ==>
        && |r.services| == |st.services|
        && (forall i :: 0 <= i < |r.services| && st.services[i].id != id ==> r.services[i] == st.services[i])
        && (forall i :: 0 <= i < |r.services| && st.services[i].id == id ==>
              r.services[i] == st.services[i].(status := if a == Stop then Stopped else Running,
                                                last_restart := if a == Restart then env.now else found.value.last_restart,
                                                uptime := if a == Stop then 0 else found.value.uptime,
                                                updated_at := env.now))
        && r.alerts == [Alert(env.alertId, SuccessAlert, "Action Completed", ActionMessage(found.value, a), env.alertAt)] + st.alerts
        && r.logs == st.logs && r.workflowHistory == st.workflowHistory && r.config == st.config && r.theme == st.theme
  {
    if found.Some? {
      var r := ServiceAction(st, found, id, a, env);
      var p := ActionPatch(found.value, a, env.now);
      forall i | 0 <= i < |r.services| && st.services[i].id == id
        ensures r.services[i] == st.services[i].(status := if a == Stop then Stopped else Running,
                                                  last_restart := if a == Restart then env.now else found.value.last_restart,
                                                  uptime := if a == Stop then 0 else found.value.uptime,
                                                  updated_at := env.now)
      {
        assert r.services[i] == Patched(st.services[i], p, env.now);
      }
    }
  }

  /** On the main dashboard: an unknown id changes nothing, and with
      distinct ids the entry acted on keeps its `last_restart` unless
      restarted and its uptime unless stopped. */
  lemma AppServiceActionOutcome(st: StoreState, id: string, a: Action, env: ActionEnv, i: nat)
    ensures (forall s :: s in st.services ==> s.id != id) ==> AppServiceAction(st, id, a, env) == st
    ensures DistinctIds(st.services) && i < |st.services| && st.services[i].id == id ==>
      var e := AppServiceAction(st, id, a, env).services[i];
      var s := st.services[i];
      && e.status == (if a == Stop then Stopped else Running)
      && (a == Restart ==> e.last_restart == env.now) && (a != Restart ==> e.last_restart == s.last_restart)
      && (a == Stop ==> e.uptime == 0) && (a != Stop ==> e.uptime == s.uptime)
  {
    var found := FindById(st.services, id);
    ServiceActionEffect(st, found, id, a, env);
    if DistinctIds(st.services) && i < |st.services| && st.services[i].id == id {
      var k :| 0 <= k < |st.services| && st.services[k] == found.value &&
               forall j :: 0 <= j < k ==> st.services[j].id != id;
      assert k == i;
    }
  }

  // ----- configuration -----

  const EmptyConfig := DashboardConfig(None, None, None, None, None, None, None, None, None)

  /** `{ ...config }`: the stored object, or `{}` for null. */
  function Spread(config: Option<DashboardConfig>): DashboardConfig
  {
    if config.Some? then config.value else EmptyConfig
  }

  function Over<T>(n: Option<T>, o: Option<T>): Option<T>
  {
    if n.Some? then n else o
  }

  /** `{ ...config, ...newConfig }` */
  function MergeConfig(config: Option<DashboardConfig>, n: DashboardConfig): DashboardConfig
  {
    var c := Spread(config);
    DashboardConfig(Over(n.id, c.id), Over(n.n8n_webhook_url, c.n8n_webhook_url), Over(n.ssh_host, c.ssh_host),
      Over(n.ssh_port, c.ssh_port), Over(n.alert_threshold_cpu, c.alert_threshold_cpu),
      Over(n.alert_threshold_memory, c.alert_threshold_memory), Over(n.monitoring_interval, c.monitoring_interval),
      Over(n.auto_healing_enabled, c.auto_healing_enabled), Over(n.updated_at, c.updated_at))
  }

  /** Keys given in the new configuration override, all others keep the
      stored value. */
  lemma MergeConfigKeys(config: Option<DashboardConfig>, n: DashboardConfig)
    ensures var r := MergeConfig(config, n);
      && (n.n8n_webhook_url.Some? ==> r.n8n_webhook_url == n.n8n_webhook_url)
      && (n.n8n_webhook_url.None? ==> r.n8n_webhook_url == Spread(config).n8n_webhook_url)
      && (n.auto_healing_enabled.Some? ==> r.auto_healing_enabled == n.auto_healing_enabled)
      && (n.auto_healing_enabled.None? ==> r.auto_healing_enabled == Spread(config).auto_healing_enabled)
      && (n.ssh_host.Some? ==> r.ssh_host == n.ssh_host)
      && (n.ssh_host.None? ==> r.ssh_host == Spread(config).ssh_host)
      && (n.id.Some? ==> r.id == n.id)
      && (n.id.None? ==> r.id == Spread(config).id)
      && (n.ssh_port.Some? ==> r.ssh_port == n.ssh_port)
      && (n.ssh_port.None? ==> r.ssh_port == Spread(config).ssh_port)
      && (n.alert_threshold_cpu.Some? ==> r.alert_threshold_cpu == n.alert_threshold_cpu)
      && (n.alert_threshold_cpu.None? ==> r.alert_threshold_cpu == Spread(config).alert_threshold_cpu)
      && (n.alert_threshold_memory.Some? ==> r.alert_threshold_memory == n.alert_threshold_memory)
      && (n.alert_threshold_memory.None? ==> r.alert_threshold_memory == Spread(config).alert_threshold_memory)
      && (n.monitoring_interval.Some? ==> r.monitoring_interval == n.monitoring_interval)
      && (n.monitoring_interval.None? ==> r.monitoring_interval == Spread(config).monitoring_interval)
      && (n.updated_at.Some? ==> r.updated_at == n.updated_at)
      && (n.updated_at.None? ==> r.updated_at == Spread(config).updated_at)
  {
  }

  /** Merging nothing keeps the stored object, merging into nothing gives
      the new one, merging again changes nothing, and two saves in a row
      are one save of the combined keys. */
  lemma MergeConfigLaws(config: Option<DashboardConfig>, n: DashboardConfig, m: DashboardConfig)
    ensures MergeConfig(config, EmptyConfig) == Spread(config)
    ensures MergeConfig(None, n) == n
    ensures MergeConfig(Some(MergeConfig(config, n)), n) == MergeConfig(config, n)
    ensures MergeConfig(Some(MergeConfig(config, n)), m) == MergeConfig(config, MergeConfig(Some(n), m))
  {
  }

  function ConfigSavedAlert(): AlertInput
  {
    AlertInput(SuccessAlert, "Configuration Saved", "Dashboard settings have been updated")
  }

  function SaveFailedAlert(): AlertInput
  {
    AlertInput(ErrorAlert, "Save Failed", "Failed to save configuration")
  }

  /** `handleConfigSave`; `saveFails` says whether the database write threw. */
  function ConfigSave(st: StoreState, n: DashboardConfig, saveFails: bool, alertId: string, alertAt: string): StoreState
  {
    if saveFails then WithAlert(st, SaveFailedAlert(), alertId, alertAt)
    else WithAlert(st.(config := Some(MergeConfig(st.config, n))), ConfigSavedAlert(), alertId, alertAt)
  }

  /** A save touches only the configuration and the alerts: the merged
      configuration and a success alert, or the old configuration and an
      error alert when the write fails. */
  lemma ConfigSaveEffect(st: StoreState, n: DashboardConfig, saveFails: bool, alertId: string, alertAt: string)
    ensures var r := ConfigSave(st, n, saveFails, alertId, alertAt);
      && r.services == st.services && r.logs == st.logs && r.workflowHistory == st.workflowHistory && r.theme == st.theme
      && |r.alerts| == |st.alerts| + 1 && r.alerts[1..] == st.alerts
      && (saveFails ==> r.config == st.config && r.alerts[0].kind == ErrorAlert)
      && (!saveFails ==> r.config == Some(MergeConfig(st.config, n)) && r.alerts[0].kind == SuccessAlert)
  {
    var r := ConfigSave(st, n, saveFails, alertId, alertAt);
    assert r.alerts[1..] == st.alerts;
  }

  // ----- webhooks -----

  /** Where `handleWebhookTrigger` navigates: the service's URL when the
      service exists, the URL is non-empty and the hook is enabled. */
  function WebhookTarget(services: seq<Service>, id: string): (r: Option<string>)
    ensures r.Some? ==> exists s :: s in services && s.id == id && s.webhook_url == r && r.value != "" && s.webhook_enabled == Some(true)
    ensures (forall s :: s in services ==> s.id != id) ==> r.None?
    ensures DistinctIds(services) ==>
      (r.Some? <==> exists s :: s in services && s.id == id && s.webhook_url.Some? && s.webhook_url.value != "" && s.webhook_enabled == Some(true))
  {
    var f := FindById(services, id);
    if f.Some? && f.value.webhook_url.Some? && f.value.webhook_url.value != "" && f.value.webhook_enabled == Some(true)
    then f.value.webhook_url
    else
      assert DistinctIds(services) && f.Some? ==> forall s :: s in services && s.id == id ==> s == f.value by {
        if DistinctIds(services) && f.Some? {
          forall s | s in services && s.id == id ensures s == f.value {
            var i :| 0 <= i < |services| && services[i] == s;
            var k :| 0 <= k < |services| && services[k] == f.value &&
                     forall j :: 0 <= j < k ==> services[j].id != id;
            assert i == k;
          }
        }
      }
      None
  }

  function WebhookErrorAlert(): AlertInput
  {
    AlertInput(ErrorAlert, "Webhook Fehler", "Webhook ist nicht konfiguriert oder deaktiviert")
  }

  /** The patch `handleWebhookUpdate` writes: the two webhook keys only. */
  function WebhookPatch(url: string, enabled: bool): ServicePatch
  {
    NoChange.(webhook_url := Some(url), webhook_enabled := Some(enabled))
  }

  function WebhookSavedAlert(): AlertInput
  {
    AlertInput(SuccessAlert, "Webhook Konfiguration", "Webhook-Einstellungen wurden gespeichert")
  }

  function WebhookSaveFailedAlert(): AlertInput
  {
    AlertInput(ErrorAlert, "Speichern Fehlgeschlagen", "Webhook-Einstellungen konnten nicht gespeichert werden")
  }

  /** `handleWebhookUpdate`; `saveFails` says whether the database write threw. */
  function WebhookUpdate(st: StoreState, id: string, url: string, enabled: bool, saveFails: bool, env: ActionEnv): StoreState
  {
    if saveFails then WithAlert(st, WebhookSaveFailedAlert(), env.alertId, env.alertAt)
    else WithAlert(WithUpdate(st, id, WebhookPatch(url, enabled), env.now), WebhookSavedAlert(), env.alertId, env.alertAt)
  }

  /** A successful webhook update changes, on the entries with the id, the
      two webhook keys and the `updated_at` stamp and nothing else; a
      failing one only raises an alert. */
  lemma WebhookUpdateEffect(st: StoreState, id: string, url: string, enabled: bool, saveFails: bool, env: ActionEnv)
    ensures var r := WebhookUpdate(st, id, url, enabled, saveFails, env);
      && |r.services| == |st.services|
      && (forall i :: 0 <= i < |r.services| && (saveFails || st.services[i].id != id) ==> r.services[i] == st.services[i])
      && (forall i :: 0 <= i < |r.services| && !saveFails && st.services[i].id == id ==>
            r.services[i] == st.services[i].(webhook_url := Some(url), webhook_enabled := Some(enabled), updated_at := env.now))
      && r.logs == st.logs && r.workflowHistory == st.workflowHistory && r.config == st.config && r.theme == st.theme
      && |r.alerts| == |st.alerts| + 1 && r.alerts[1..] == st.alerts
      && r.alerts[0].kind == (if saveFails then ErrorAlert else SuccessAlert)
  {
    var r := WebhookUpdate(st, id, url, enabled, saveFails, env);
    assert r.alerts[1..] == st.alerts;
  }

  // ----- summary figures -----

  predicate IsRunning(s: Service)
  {
    s.status == Running
  }

  predicate NotRunning(s: Service)
  {
    s.status != Running
  }

  /** The "Critical Issues" test: more than 5 errors or CPU above 80. */
  predicate Critical(s: Service)
  {
    s.error_count > 5 || s.cpu_usage > 80.0
  }

  function RunningCount(services: seq<Service>): (n: nat)
    ensures n <= |services|
    ensures n == |services| - |Filter(services, NotRunning)|
  {
    FilterSplit(services, IsRunning, NotRunning);
    |Filter(services, IsRunning)|
  }

  function CriticalCount(services: seq<Service>): (n: nat)
    ensures n <= |services|
    ensures (forall s :: s in services ==> !Critical(s)) <==> n == 0
  {
    var c := Filter(services, Critical);
    assert |c| > 0 ==> c[0] in c;
    |c|
  }

  /** `services.reduce((sum, s) => sum + s.cpu_usage, 0)` */
  function CpuSum(services: seq<Service>): real
  {
    if services == [] then 0.0 else CpuSum(services[..|services| - 1]) + services[|services| - 1].cpu_usage
  }

  function AvgCpu(services: seq<Service>): (r: real)
    ensures services == [] ==> r == 0.0
  {
    if |services| > 0 then CpuSum(services) / |services| as real else 0.0
  }

  lemma {:induction false} CpuSumBounds(services: seq<Service>, lo: real, hi: real)
    requires forall s :: s in services ==> lo <= s.cpu_usage <= hi
    ensures lo * |services| as real <= CpuSum(services) <= hi * |services| as real
  {
    if services != [] {
      var n := |services| - 1;
      var prefix := services[..n];
      forall s | s in prefix
        ensures lo <= s.cpu_usage <= hi
      {
        assert s in services;
      }
      assert services[n] in services;
      CpuSumBounds(prefix, lo, hi);
      AddBounds(CpuSum(prefix), services[n].cpu_usage, n as real, lo, hi);
    }
  }

  /** One more summand inside [lo, hi] keeps the sum inside [lo, hi] times
      the count. */
  lemma AddBounds(sum: real, x: real, m: real, lo: real, hi: real)
    requires lo * m <= sum <= hi * m && lo <= x <= hi
    ensures lo * (m + 1.0) <= sum + x <= hi * (m + 1.0)
  {
  }

  /** The average lies between any bounds every service's CPU lies within. */
  lemma AvgCpuBounds(services: seq<Service>, lo: real, hi: real)
    requires services != [] && forall s :: s in services ==> lo <= s.cpu_usage <= hi
    ensures lo <= AvgCpu(services) <= hi
  {
    CpuSumBounds(services, lo, hi);
    var n := |services| as real;
    var avg := AvgCpu(services);
    assert avg * n == CpuSum(services);
  }

  // ----- the handlers on the store -----

  /** `handleServiceAction`: the switch sets the new status and message, then
      the store is patched and the alert raised. */
  method HandleServiceAction(store: AppStore, id: string, a: Action, env: ActionEnv)
    requires store.Valid()
    modifies store
    ensures store.Valid()
    ensures store.State() == AppServiceAction(old(store.State()), id, a, env)
  {
    var service := FindById(store.services, id);
    if service.None? {
      return;
    }
    var s := service.value;
    var newStatus := s.status;
    var message := "";
    match a {
      case Start =>
        newStatus := Running;
        message := s.display_name + " started successfully";
      case Stop =>
        newStatus := Stopped;
        message := s.display_name + " stopped";
      case Restart =>
        newStatus := Running;
        message := s.display_name + " restarted";
    }
    var updates := NoChange.(status := Some(newStatus),
                             last_restart := Some(if a == Restart then env.now else s.last_restart),
                             uptime := Some(if a == Stop then 0 else s.uptime));
    store.UpdateService(id, updates, env.now);
    store.AddAlert(AlertInput(SuccessAlert, "Action Completed", message), env.alertId, env.alertAt);
  }

  /** `handleConfigSave`. */
  method HandleConfigSave(store: AppStore, n: DashboardConfig, saveFails: bool, alertId: string, alertAt: string)
    requires store.Valid()
    modifies store
    ensures store.Valid()
    ensures store.State() == ConfigSave(old(store.State()), n, saveFails, alertId, alertAt)
  {
    if saveFails {
      store.AddAlert(SaveFailedAlert(), alertId, alertAt);
      return;
    }
    store.SetConfig(MergeConfig(store.config, n));
    store.AddAlert(ConfigSavedAlert(), alertId, alertAt);
  }

  /** `handleWebhookTrigger`: returns the page to navigate to, or raises the
      error alert and returns nothing. */
  method HandleWebhookTrigger(store: AppStore, id: string, alertId: string, alertAt: string)
    returns (navigateTo: Option<string>)
    requires store.Valid()
    modifies store
    ensures store.Valid()
    ensures navigateTo == WebhookTarget(old(store.services), id)
    ensures navigateTo.Some? ==> store.State() == old(store.State())
    ensures navigateTo.None? ==> store.State() == WithAlert(old(store.State()), WebhookErrorAlert(), alertId, alertAt)
  {
    var service := FindById(store.services, id);
    if service.None? || service.value.webhook_url.None? || service.value.webhook_url.value == ""
       || service.value.webhook_enabled != Some(true) {
      store.AddAlert(WebhookErrorAlert(), alertId, alertAt);
      return None;
    }
    navigateTo := service.value.webhook_url;
  }

  /** `handleWebhookUpdate`. */
  method HandleWebhookUpdate(store: AppStore, id: string, url: string, enabled: bool, saveFails: bool, env: ActionEnv)
    requires store.Valid()
    modifies store
    ensures store.Valid()
    ensures store.State() == WebhookUpdate(old(store.State()), id, url, enabled, saveFails, env)
  {
    if saveFails {
      store.AddAlert(WebhookSaveFailedAlert(), env.alertId, env.alertAt);
      return;
    }
    store.UpdateService(id, WebhookPatch(url, enabled), env.now);
    store.AddAlert(WebhookSavedAlert(), env.alertId, env.alertAt);
  }
}
