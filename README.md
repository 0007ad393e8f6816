# Service monitoring dashboard: client-side state logic

This project models the client-side state logic of a dashboard that monitors
Windows services. It covers:

- the in-memory store, which holds:
  - the service registry;
  - the log (1000 entries at most);
  - the self-healing workflow history;
  - the configuration;
  - the alerts;
  - the theme.
- the self-healing run. A service snapshot is diagnosed into problems. A
  workflow record is written and an optional webhook is notified. One
  remediation is applied per condition, and the record is finalised.
- the metrics simulator: the random-walk tick, the mock log generator, the
  seeding of mock services and the demo metrics generator.
- the selection and aggregation rules of the dashboard components:
  - the bulk self-heal button;
  - the start, stop and restart actions;
  - the client-scoped view;
  - the performance score;
  - the health chart buckets;
  - the log filter and export.
- the bounded buffers: the 15-point sparklines, the 20-point live chart and
  the 10-item activity feed.
- the server-side webhook trigger, with its request checks and its
  three-attempt retry loop.

The following are inputs to the model, not behaviour of it:

- Every `Math.random()` draw is an input constrained to [0, 1).
- Every clock reading and generated id is an input: a string where the code stores the ISO text, and a number of milliseconds where it computes with the time (`RealtimeChart.InitialSeries` takes `now` and a `render` function; `MockData.FormatTimestamp` takes the elapsed milliseconds).
- Every database or network result is an input: a fault oracle, a fetched
  value, or the answer to a webhook attempt.

Numbers are handled as follows:

- Gauges are `real` and counts are `int`.
- `Math.round` is floor(x + 0.5).
- JavaScript's truncating `%` is written out where a negative operand can
  reach it.

The store is a class whose methods replace its fields. Each method states
the new state as a function of the old one. The properties are proved about
those functions. The self-healing run, the data-sync tick, the bulk heal,
the demo generator, the live chart's initial series and the webhook retry
loop are imperative methods. Each is proved equal to a specification
function, and lemmas state what the source promises about that function.

Modules follow the source files:

| module | file |
|---|---|
| `Basics` | small helpers: Take, Filter, Join, number rendering |
| `Types` | src/types/index.ts |
| `Store` | src/store/useStore.ts |
| `MockData` | src/utils/mockData.ts |
| `SelfHealing` | src/hooks/useSelfHealing.ts |
| `DataSync` | src/hooks/useDataSync.ts |
| `DemoData` | src/utils/demoDataGenerator.ts |
| `SelfHealButtonModel` | src/components/SelfHealButton.tsx |
| `App` | src/App.tsx |
| `ClientDashboard` | src/components/ClientDashboard.tsx |
| `PerformanceScore` | src/components/PerformanceScore.tsx |
| `SystemHealth` | src/components/SystemHealthChart.tsx |
| `LogViewer` | src/components/LogViewer.tsx |
| `ServiceCard` | src/components/ServiceCard.tsx |
| `RealtimeChart` | src/components/RealtimeChart.tsx |
| `ActivityFeed` | src/components/LiveActivityFeed.tsx |
| `TriggerWebhook` | supabase/functions/trigger-webhook/index.ts |

## Where the code and the evident intent differ

The model follows the code in both of these cases:

- One would expect the webhook notification to be best-effort, since it only informs an external workflow tool, so that a failed call did not stop remediation. In the code, a rejected `fetch` in src/hooks/useSelfHealing.ts:48-65 reaches the catch block at lines 152-159. Remediation is skipped, and the record stays `in_progress`. `SelfHealing.RunFaults` states this.
- The status `failed` is declared for workflow records (src/types/index.ts:80) and rendered by the history view (src/components/WorkflowHistory.tsx:23,36), so a failed run is evidently meant to end `failed`. The code never writes it: the catch block only raises an alert. `SelfHealing.RunNeverFails` states that a run adds no failed record.

## Model

| member | source | states |
|---|---|---|
| Types.Merge | src/store/useStore.ts:37 | `{...s, ...updates}`: status, last_restart, error_count, uptime, cpu_usage, memory_usage, disk_io, network_stats, webhook_url and webhook_enabled come from the patch when it gives them and are kept otherwise; id, client_id, name, display_name, the start/stop webhook fields, created_at and updated_at are always kept |
| Types.MergeNoChange | src/store/useStore.ts:37 | an empty patch leaves a service unchanged |
| Types.MergeWorkflow | src/store/useStore.ts:55-60 | `{...w, ...updates}` on a workflow record: commands, resolution status and completion time come from the patch when given (a null completion time included); id, service, start time and problem are always kept |
| Store.FindById | src/App.tsx:28 | `find`: the first service with that id, or None exactly when no service has it |
| Store.UpdateById | src/store/useStore.ts:34-39 | same length and ids; entries with another id are unchanged; entries with the id are merged and stamped |
| Store.UpdateUnknownIsNoop | src/store/useStore.ts:34-39 | an update for an id no service has changes nothing |
| Store.UpdateDistributes | src/store/useStore.ts:34-39 | the update acts entry by entry, so it distributes over concatenation |
| Store.PrependLog | src/store/useStore.ts:41-44 | the new log is first, the length is min(old+1, 1000), and the rest is the old prefix in order |
| Store.CapLogs | src/store/useStore.ts:46 | exactly the first min(n, 1000) entries are kept |
| Store.PrependManyCapped | src/store/useStore.ts:41-44 | after several `addLog` calls the log holds min(old+new, 1000) entries, newest first |
| Store.PrependAllAt | src/store/useStore.ts:41-44 | position i of the log holds the i-th newest insertion, for i below both the count and the cap |
| Store.UpdateWorkflowById | src/store/useStore.ts:55-60 | only records with the id are merged; the length is kept; terminal records are not protected |
| Store.NewAlert | src/store/useStore.ts:64-74 | the alert keeps its kind, title and message, with the fresh id and timestamp |
| Store.RemoveAlertById | src/store/useStore.ts:76-79 | every alert with the id is gone; all others remain, in their original order |
| Store.RemoveAbsentAlert | src/store/useStore.ts:76-79 | removing an id no alert has is a no-op |
| Store.Toggle | src/store/useStore.ts:81-84 | the theme always changes |
| Store.ToggleTwice | src/store/useStore.ts:81-84 | toggling twice restores the theme |
| Store.AppStore.constructor | src/store/useStore.ts:24-30 | empty lists, null config, dark theme |
| Store.AppStore.SetServices | src/store/useStore.ts:32 | only the registry is replaced |
| Store.AppStore.UpdateService | src/store/useStore.ts:34-39 | the new state is the id-matched update; everything else is unchanged |
| Store.AppStore.AddLog | src/store/useStore.ts:41-44 | the log becomes the capped prepend; the 1000-entry cap is kept invariant |
| Store.AppStore.SetLogs | src/store/useStore.ts:46 | the log becomes the first 1000 given entries |
| Store.AppStore.AddWorkflowHistory | src/store/useStore.ts:48-51 | the record is prepended with no cap |
| Store.AppStore.SetWorkflowHistory | src/store/useStore.ts:53 | only the history is replaced |
| Store.AppStore.UpdateWorkflowHistory | src/store/useStore.ts:55-60 | the history becomes the id-matched merge |
| Store.AppStore.SetConfig | src/store/useStore.ts:62 | only the config is replaced |
| Store.AppStore.AddAlert | src/store/useStore.ts:64-74 | one alert is prepended and the others are unchanged |
| Store.AppStore.RemoveAlert | src/store/useStore.ts:76-79 | the alerts become the filtered list |
| Store.AppStore.ToggleTheme | src/store/useStore.ts:81-84 | only the theme is swapped |
| MockData.LogMessages | src/utils/mockData.ts:105-106 | every level has a non-empty message pool |
| MockData.ScaledIndex | src/utils/mockData.ts:106 | `floor(r * n)` is a valid index for a draw in [0, 1) |
| MockData.SeedStatus | src/utils/mockData.ts:62-64 | Stopped above 0.85, Paused in (0.80, 0.85], otherwise Running |
| MockData.MockService | src/utils/mockData.ts:68-83 | id `service-i`, the i-th name; uptime 0 unless Running; the healthy and unhealthy gauge ranges |
| MockData.SeedSize | src/utils/mockData.ts:61 | min(count, 12) for a count in range |
| MockData.GenerateMockServices | src/utils/mockData.ts:57-87 | min(count, 12) services with ids `service-i`; uptime 0 for every non-Running service |
| MockData.LevelBand | src/utils/mockData.ts:90-103 | a draw in the k-th cumulative band [0.6, 0.85, 0.97, 1.0) selects the k-th level |
| MockData.SelectLevel | src/utils/mockData.ts:93-103 | the cumulative-weight loop picks the first level whose running sum exceeds the draw, else INFO |
| MockData.LogServiceId | src/utils/mockData.ts:110 | the given service id, or `service-k` with k < 12 |
| MockData.MockLog | src/utils/mockData.ts:105-114 | the message comes from the chosen level's pool |
| MockData.GenerateMockLog | src/utils/mockData.ts:89-115 | the generated log is the one the level rule and pools define |
| MockData.UpdateServiceMetrics | src/utils/mockData.ts:117-143 | 0≤cpu≤100, memory≥50, disk≥0, network≥0; per-tick steps of at most 1, 5, 0.5, 10; uptime+5 when Running, else 0; status untouched |
| MockData.StepBounds | src/utils/mockData.ts:126-139 | the unclamped steps are bounded by variance·scale/2 |
| MockData.JsRem | src/utils/mockData.ts:147-148 | truncating `%` agrees with Euclidean `%` for non-negative input |
| MockData.SplitUptime | src/utils/mockData.ts:145-149 | days, hours < 24 and minutes < 60 recompose the seconds |
| MockData.UptimeArithmetic | src/utils/mockData.ts:146-148 | the floor-division decomposition is exact |
| MockData.FormatUptimeForms | src/utils/mockData.ts:150-152 | the "d h", "h m" or "m" form is chosen by the first non-zero unit |
| MockData.FormatUptime | src/utils/mockData.ts:145-152 | `formatUptime`; its three forms are stated by `FormatUptimeForms` |
| MockData.FormatTimestampBuckets | src/utils/mockData.ts:160-169 | "Just now" below 1 min; below 1 h exactly `floor(diff/60000)` (in 1..59) + "m ago"; below 1 day exactly `floor(diff/3600000)` (in 1..23) + "h ago"; otherwise the date text |
| MockData.FormatTimestamp | src/utils/mockData.ts:160-169 | `formatTimestamp` on the elapsed milliseconds; its four cases are stated by `FormatTimestampBuckets` |
| SelfHealing.Diagnose | src/hooks/useSelfHealing.ts:14-25 | each problem is listed exactly when its condition holds |
| SelfHealing.DiagnoseOrdered | src/hooks/useSelfHealing.ts:14-25 | the problems appear in the fixed order: not running, errors, cpu, memory |
| SelfHealing.DescribeAllConcat | src/hooks/useSelfHealing.ts:14-27 | describing problems distributes over concatenation |
| SelfHealing.CommandsMatchProblems | src/hooks/useSelfHealing.ts:69-124 | not-Running gives 2 commands (restart then start) and each other branch 1; at most 5; the clear-log command is last when errors are high |
| SelfHealing.Remediate | src/hooks/useSelfHealing.ts:71-124 | the registry length is kept |
| SelfHealing.RemediationEffect | src/hooks/useSelfHealing.ts:71-124 | other services are unchanged; the target is exactly its old record with: Running, 0 errors, uptime 0 and a new restart time when not Running; cpu 30 + 20·roll (in [30, 50)) when cpu > 80; memory 200 + 300·roll (in [200, 500)) when memory > 1000; errors 0 when > 5; `updated_at` stamped iff a branch fires; every other field kept |
| SelfHealing.NewWorkflow | src/hooks/useSelfHealing.ts:29-37 | the record starts `in_progress`, with no commands and no completion time |
| SelfHealing.NotifyUrl | src/hooks/useSelfHealing.ts:48 | the webhook is used exactly when `n8n_webhook_url` is present and non-empty |
| SelfHealing.RunFrame | src/hooks/useSelfHealing.ts:9-160 | a run never touches logs, config or theme, and keeps the registry's length |
| SelfHealing.SelfHealSuccess | src/hooks/useSelfHealing.ts:126-151 | without a fault: the first record is success with the accumulated commands; "started" and "complete" alerts; the completion log counts the commands |
| SelfHealing.RunSuccess | src/hooks/useSelfHealing.ts:39-151 | a fault-free run is exactly the record insert, the remediation, the success update and the two alerts, for any texts |
| SelfHealing.FinalizedFailedRecords | src/hooks/useSelfHealing.ts:132-137 | finalising never produces a failed record |
| SelfHealing.RunNeverFails | src/hooks/useSelfHealing.ts:126-159 | every failed record after a run was already there before it |
| SelfHealing.RunFaults | src/hooks/useSelfHealing.ts:152-159 | each thrown error ends in the error alert only; a record inserted before the throw stays `in_progress` |
| SelfHealing.RunNotifies | src/hooks/useSelfHealing.ts:48-64 | the webhook is called iff the record was inserted and a URL is set; the payload carries the snapshot and the problem text |
| SelfHealing.ScenarioStopped | src/hooks/useSelfHealing.ts:14-91 | a stopped service: one problem, the restart and start commands, Running afterwards |
| SelfHealing.ScenarioOverloaded | src/hooks/useSelfHealing.ts:17-124 | an overloaded service: three problems in order and all three gauge resets |
| SelfHealing.DescribeProblems | src/hooks/useSelfHealing.ts:12-27 | the push loop builds the ", "-joined problem text |
| SelfHealing.RemediationCommands | src/hooks/useSelfHealing.ts:69-124 | the push loop builds the command list in branch order |
| SelfHealing.ApplyRemediation | src/hooks/useSelfHealing.ts:71-124 | the four awaited updates give the remediated registry |
| SelfHealing.StartHeal | src/hooks/useSelfHealing.ts:39-46 | the record is prepended and the "started" alert raised |
| SelfHealing.FinishHeal | src/hooks/useSelfHealing.ts:71-159 | remediation, the success update and the "complete" alert, each fault ending in the catch alert |
| SelfHealing.TriggerSelfHeal | src/hooks/useSelfHealing.ts:9-160 | the whole run equals the specification `SelfHeal`, for every fault |
| SelfHealing.SelfHeal | src/hooks/useSelfHealing.ts:9-160 | the specification of a run, for every fault; `RunFrame`, `SelfHealSuccess`, `RunSuccess`, `RunFaults`, `RunNeverFails` and `RunNotifies` state its effect, and `TriggerSelfHeal` is proved equal to it |
| DataSync.StepService | src/hooks/useDataSync.ts:72-95 | one service's step keeps the registry length |
| DataSync.TickSpec | src/hooks/useDataSync.ts:69-97 | the tick keeps the registry length |
| DataSync.NewLogs | src/hooks/useDataSync.ts:81-85 | at most one log per service per tick |
| DataSync.TickFrame | src/hooks/useDataSync.ts:69-97 | history, config, alerts and theme are untouched |
| DataSync.TickLogs | src/hooks/useDataSync.ts:81-83 | the tick's logs are prepended in order under the cap |
| DataSync.StepLogs | src/hooks/useDataSync.ts:81-83 | one iteration prepends its log, if it generated one, and changes the log in no other way |
| DataSync.TickLogCap | src/hooks/useDataSync.ts:81-83 | the log length is min(old + new, 1000) ≤ min(old + services, 1000) |
| DataSync.StepOther | src/hooks/useDataSync.ts:72-94 | entries with other ids are unchanged |
| DataSync.StepMatch | src/hooks/useDataSync.ts:72-94 | the matched entry gets the drifted gauges; errors become snapshot+1 on ERROR/CRITICAL |
| DataSync.TickUntouched | src/hooks/useDataSync.ts:72 | services absent from the snapshot are not touched |
| DataSync.TickEntry | src/hooks/useDataSync.ts:72-94 | with distinct ids: each entry drifts from its snapshot values; on an error-level log its error count is the snapshot's + 1 |
| DataSync.StepMethod | src/hooks/useDataSync.ts:73-94 | one iteration's awaited calls equal the step specification |
| DataSync.Tick | src/hooks/useDataSync.ts:69-97 | the loop equals the tick specification; an empty list does nothing |
| DataSync.FetchEffect | src/hooks/useDataSync.ts:19-67 | the registry is non-empty: the fetched services, or the seeded ones when none came back; logs and workflow records are the first min(n, 1000) and min(n, 50) fetched rows; a query with no data leaves its part of the store, and config, unchanged; alerts and theme untouched |
| DataSync.FetchData | src/hooks/useDataSync.ts:19-67 | seeds 12 mock services exactly when the fetch returned none |
| DataSync.FetchSpec | src/hooks/useDataSync.ts:19-67 | the specification of the initial fetch; `FetchEffect` states its effect and `FetchData` is proved equal to it |
| DemoData.SmoothVariation | src/utils/demoDataGenerator.ts:24-28 | the result lies in [min, max]; from a value in range it moves at most volatility/2 |
| DemoData.InitialBase | src/utils/demoDataGenerator.ts:13-22 | the starting values lie inside the clamp bounds |
| DemoData.NextBase | src/utils/demoDataGenerator.ts:31-35 | after every step the base values are in bounds, and each move is bounded |
| DemoData.RoundTenth | src/utils/demoDataGenerator.ts:65-66 | rounding to a tenth moves at most 0.05 |
| DemoData.RamBounds | src/utils/demoDataGenerator.ts:37-38 | RAM used is within 16384 |
| DemoData.Settle | src/utils/demoDataGenerator.ts:57-60 | free = total − used and percentage·total = used·100 |
| DemoData.SettleBounds | src/utils/demoDataGenerator.ts:57-60 | a used space strictly inside the total gives free > 0 and a percentage in (0, 100) |
| DemoData.RawDrivesInRange | src/utils/demoDataGenerator.ts:40-55 | C: used in [256000, 306000) of 512000; D: used in [512000, 612000) of 1024000 |
| DemoData.MetricsProperties | src/utils/demoDataGenerator.ts:37-73 | two settled, partly full drives; RAM within total; gauges within 0.05 of the base values |
| DemoData.DemoDataGenerator.constructor | src/utils/demoDataGenerator.ts:13-22 | the base values start inside the bounds |
| DemoData.DemoDataGenerator.GenerateMetrics | src/utils/demoDataGenerator.ts:30-74 | the base values move by one step and stay in bounds; the drives are settled in place |
| SelfHealButtonModel.ProblematicServices | src/components/SelfHealButton.tsx:14-16 | exactly the services with errors > 5, cpu > 80 or not Running, in list order |
| SelfHealButtonModel.ProblematicIsDiagnosed | src/components/SelfHealButton.tsx:14-16 | a problematic service always has a problem to heal; memory alone is diagnosed but not selected |
| SelfHealButtonModel.Problematic | src/components/SelfHealButton.tsx:14-16 | the filter condition errors > 5, cpu > 80 or not Running; `ProblematicServices` and `ProblematicIsDiagnosed` state what it selects |
| SelfHealButtonModel.DisabledWhen | src/components/SelfHealButton.tsx:37 | disabled with no issues; otherwise disabled exactly while healing |
| SelfHealButtonModel.Targets | src/components/SelfHealButton.tsx:25 | the first min(n, 3) problematic services, in list order |
| SelfHealButtonModel.HealAllFrame | src/components/SelfHealButton.tsx:25-27 | a bulk heal adds at most one record per target and leaves logs, config and theme alone |
| SelfHealButtonModel.RunAllIsHealAll | src/components/SelfHealButton.tsx:25-27 | the runs fold to the sequential healing of each target |
| SelfHealButtonModel.HealAll | src/components/SelfHealButton.tsx:25-27 | the in-order healing of the targets; `HealAllFrame` bounds its effect and `RunAllIsHealAll`, `HealNext` and `HealBatch` are proved equal to it |
| SelfHealButtonModel.HealNext | src/components/SelfHealButton.tsx:26 | one awaited `onTrigger` extends the fold by one target |
| SelfHealButtonModel.SelfHealButton.constructor | src/components/SelfHealButton.tsx:12 | the flag starts false |
| SelfHealButtonModel.SelfHealButton.HandleHeal | src/components/SelfHealButton.tsx:20-31 | nothing happens without issues; otherwise the first three are healed in order, and the flag is false at the end |
| SelfHealButtonModel.SelfHealButton.HealBatch | src/components/SelfHealButton.tsx:25-27 | the loop heals the batch in order with the flag set |
| SelfHealButtonModel.ButtonLabel | src/components/SelfHealButton.tsx:48-57 | the caption while healing, with no issues, and with the count |
| SelfHealButtonModel.AttentionNote | src/components/SelfHealButton.tsx:61-65 | shown iff a service is problematic; "service" gets a plural "s" unless the count is 1 |
| App.ActionPatch | src/App.tsx:31-53 | start/restart give Running and stop gives Stopped; last_restart changes only on restart; uptime is 0 only on stop |
| App.ServiceActionEffect | src/App.tsx:27-71 | an unknown id is a no-op; otherwise only the matching entries change, and the alert is prepended |
| App.AppServiceActionOutcome | src/App.tsx:27-53 | the acted-on entry's status, last_restart and uptime follow the action table |
| App.ServiceAction | src/App.tsx:27-71 | the specification of a start/stop/restart; `ServiceActionEffect` and `AppServiceActionOutcome` state its effect and `HandleServiceAction` is proved equal to it |
| App.MergeConfigLaws | src/App.tsx:80 | merging no keys gives the stored object, merging into null gives the new one; a merge is idempotent and two saves compose into one save of the combined keys |
| App.MergeConfigKeys | src/App.tsx:80 | for each of the nine keys: a key the new configuration gives overrides, every other key keeps the stored value |
| App.MergeConfig | src/App.tsx:80 | `{ ...config, ...newConfig }`; its laws are `MergeConfigKeys` and `MergeConfigLaws` |
| App.ConfigSaveEffect | src/App.tsx:73-94 | success merges the config and raises "Configuration Saved"; failure raises only "Save Failed" |
| App.ConfigSave | src/App.tsx:73-94 | the specification of a save; `ConfigSaveEffect` states its effect and `HandleConfigSave` is proved equal to it |
| App.WebhookTarget | src/App.tsx:96-107 | navigation happens exactly when the service exists, has a URL and is enabled |
| App.WebhookUpdateEffect | src/App.tsx:110-131 | only `webhook_url` and `webhook_enabled` of that service change, plus the alert |
| App.WebhookUpdate | src/App.tsx:110-131 | the specification of a webhook edit; `WebhookUpdateEffect` states its effect and `HandleWebhookUpdate` is proved equal to it |
| App.RunningCount | src/App.tsx:133 | at most the number of services; it complements the non-running count |
| App.CriticalCount | src/App.tsx:134 | at most the number of services; zero iff none has errors > 5 or cpu > 80 |
| App.AvgCpu | src/App.tsx:135-137 | 0 for an empty list |
| App.CpuSumBounds | src/App.tsx:136 | the sum lies between n·lo and n·hi |
| App.AvgCpuBounds | src/App.tsx:135-137 | the average lies within the per-service bounds |
| App.HandleServiceAction | src/App.tsx:27-71 | the switch and its updates equal the action specification |
| App.HandleConfigSave | src/App.tsx:73-94 | equals the config-save specification |
| App.HandleWebhookTrigger | src/App.tsx:96-108 | returns the navigation target; the state is unchanged when navigating, otherwise only the error alert |
| App.HandleWebhookUpdate | src/App.tsx:110-131 | equals the webhook-update specification |
| ClientDashboard.ClientServices | src/components/ClientDashboard.tsx:21 | exactly the client's services, in their original order; the whole registry when every service belongs to the client |
| ClientDashboard.ForeignActionIsNoop | src/components/ClientDashboard.tsx:24-25 | an action on another client's service changes nothing |
| ClientDashboard.OwnedActionMatchesApp | src/components/ClientDashboard.tsx:30-49 | on an owned service the action is the same as the dashboard's |
| ClientDashboard.ClientServiceAction | src/components/ClientDashboard.tsx:23-58 | the client-scoped action; `ForeignActionIsNoop` and `OwnedActionMatchesApp` relate it to the dashboard action |
| ClientDashboard.ScopedStats | src/components/ClientDashboard.tsx:60-64 | the client's running and critical counts are at most the whole registry's, and equal them, with the average, when every service belongs to the client; the average of none is 0 |
| ClientDashboard.HandleClientServiceAction | src/components/ClientDashboard.tsx:23-58 | the switch equals the client-scoped action specification |
| PerformanceScore.ServiceRatio | src/components/PerformanceScore.tsx:19-20 | in [0, 30] |
| PerformanceScore.CpuScore | src/components/PerformanceScore.tsx:22-23 | non-negative; at most 30 for non-negative cpu; 0 at cpu ≥ 100 |
| PerformanceScore.ErrorScore | src/components/PerformanceScore.tsx:24-26 | non-negative; at most 25 for non-negative errors |
| PerformanceScore.UptimeScore | src/components/PerformanceScore.tsx:27-28 | in [0, 15] |
| PerformanceScore.ScoreBounds | src/components/PerformanceScore.tsx:16-31 | 0 for no services; in [0, 100] for non-negative cpu and errors |
| PerformanceScore.ScorePerfect | src/components/PerformanceScore.tsx:16-31 | all running, idle, error-free and up for over an hour scores 100 |
| PerformanceScore.ScoreZero | src/components/PerformanceScore.tsx:16-31 | all down, cpu ≥ 100 and ≥ 20 errors each scores 0 |
| PerformanceScore.Score | src/components/PerformanceScore.tsx:16-31 | `calculateScore`; `ScoreBounds`, `ScorePerfect` and `ScoreZero` state its range and extremes |
| PerformanceScore.LabelBands | src/components/PerformanceScore.tsx:66-71 | Excellent ≥ 80, Good ≥ 60, Fair ≥ 40, else Poor; bands are disjoint and exhaustive; the label is monotone |
| PerformanceScore.Label | src/components/PerformanceScore.tsx:66-71 | `getScoreLabel`; `LabelBands` states its bands and monotonicity |
| PerformanceScore.TrendOf | src/components/PerformanceScore.tsx:73-77 | up iff score > previous, down iff score < previous, else flat |
| PerformanceScore.ScoreState.Recalculate | src/components/PerformanceScore.tsx:33-35 | the previous score is the old score; the trend compares the two |
| SystemHealth.BucketsCover | src/components/SystemHealthChart.tsx:28-44 | Healthy is disjoint from Warning and Critical; every other service is in one of them; error 7 with cpu 90 is in both |
| SystemHealth.StatusCountsSum | src/components/SystemHealthChart.tsx:10-26 | the Running, Stopped and Paused counts sum to the number of services |
| SystemHealth.StatusData | src/components/SystemHealthChart.tsx:10-26 | the three status buckets; `StatusCountsSum` states that their counts sum to the number of services |
| SystemHealth.HealthCountsCover | src/components/SystemHealthChart.tsx:28-44 | the health counts cover every service; healthy plus either other count is at most the total |
| SystemHealth.HealthData | src/components/SystemHealthChart.tsx:28-44 | the three health buckets; `BucketsCover` and `HealthCountsCover` state how they overlap and cover |
| SystemHealth.Render | src/components/SystemHealthChart.tsx:46-60 | the charts are drawn iff there is a service |
| LogViewer.FilteredLogs | src/components/LogViewer.tsx:23-27 | a subsequence of the logs; a log is kept iff its lower-cased message contains the lower-cased search and the level is ALL or matches; never more than the total |
| LogViewer.Keep | src/components/LogViewer.tsx:23-27 | the filter condition; `FilteredLogs` states that a log is kept exactly when it holds |
| LogViewer.ShowAllInitially | src/components/LogViewer.tsx:12-13 | an empty search with ALL keeps every log |
| LogViewer.UnknownLevelShowsNothing | src/components/LogViewer.tsx:25 | a level choice that names no level shows nothing |
| LogViewer.SearchIgnoresCase | src/components/LogViewer.tsx:24 | searching with the lower-cased text gives the same result |
| LogViewer.ExportLine | src/components/LogViewer.tsx:31 | the line is `[` timestamp `]`, then the level, then the message at its end, 6 characters longer than the three parts; it has no newline iff neither timestamp nor message has one |
| LogViewer.ExportLines | src/components/LogViewer.tsx:30-31 | one line per filtered log, in order |
| LogViewer.SplitJoin | src/components/LogViewer.tsx:32 | splitting newline-free lines joined by "\n" gives them back |
| LogViewer.ExportRoundTrip | src/components/LogViewer.tsx:29-32 | the export file splits back into exactly one line per shown log |
| LogViewer.ExportText | src/components/LogViewer.tsx:29-32 | the exported file; `ExportRoundTrip` states that it splits back into one line per shown log |
| ServiceCard.Last15 | src/components/ServiceCard.tsx:20 | the newest min(n, 15) values |
| ServiceCard.PushHistory | src/components/ServiceCard.tsx:17-26 | length min(old+1, 15); the current value is last; the rest is the previous suffix |
| ServiceCard.PushAllIsLast15 | src/components/ServiceCard.tsx:17-26 | after any number of updates the history is the last 15 readings |
| ServiceCard.PushLast15 | src/components/ServiceCard.tsx:20 | pushing onto the newest 15 equals taking the newest 15 after the push |
| ServiceCard.UpdateHistories | src/components/ServiceCard.tsx:17-26 | each history grows by one up to 15 entries and ends with the current cpu (resp. memory) reading |
| ServiceCard.UpdateAll | src/components/ServiceCard.tsx:17-26 | the histories after the effect has run once per reading; its laws are `UpdateAllIsPushAll` and `UpdateAllIsLast15` |
| ServiceCard.UpdateAllIsPushAll | src/components/ServiceCard.tsx:17-26 | running the effect over readings pushes their cpu and memory values one by one |
| ServiceCard.UpdateAllIsLast15 | src/components/ServiceCard.tsx:17-26 | from empty histories, the two histories are the last 15 cpu and the last 15 memory readings |
| ServiceCard.SparklineFromThirdReading | src/components/ServiceCard.tsx:81 | from an empty start the sparkline shows iff there were at least 3 readings, and never holds more than 15 points |
| ServiceCard.IssuesMatchDiagnosis | src/components/ServiceCard.tsx:35 | for a running service the marker shows exactly when self-healing finds a problem |
| ServiceCard.HasIssues | src/components/ServiceCard.tsx:35 | the marker condition; `IssuesMatchDiagnosis` relates it to the self-healing diagnosis |
| ServiceCard.Buttons | src/components/ServiceCard.tsx:123-149 | Start iff not Running; Stop and Restart iff Running |
| ServiceCard.ButtonsAfterAction | src/components/ServiceCard.tsx:123-149 | after a shown action, stop leaves Start and the others leave Stop and Restart |
| RealtimeChart.MakePoint | src/components/RealtimeChart.tsx:22-29 | cpu in [0,100), memory in [40,90), disk in [0,30) |
| RealtimeChart.InitialSeries | src/components/RealtimeChart.tsx:32-41 | exactly 20 points, oldest first, 3 s apart, all in range |
| RealtimeChart.Tick | src/components/RealtimeChart.tsx:45-50 | the copy-push-shift equals one slide |
| RealtimeChart.SlideShape | src/components/RealtimeChart.tsx:46-49 | at most 20 points with the new one last; a shift gives previous[1..] plus the point |
| RealtimeChart.Slide | src/components/RealtimeChart.tsx:45-50 | one update of the window; `SlideShape` states its shape and `Tick` is proved equal to it |
| RealtimeChart.SlideAllWindow | src/components/RealtimeChart.tsx:44-52 | from a full series the chart always shows the 20 newest points |
| RealtimeChart.SlideAllInRange | src/components/RealtimeChart.tsx:26-39 | every shown point stays in the generated ranges |
| ActivityFeed.InitialFeed | src/components/LiveActivityFeed.tsx:22-35 | no-op for no logs; otherwise the first min(n, 10) logs, not new |
| ActivityFeed.OnLogs | src/components/LiveActivityFeed.tsx:37-65 | only the head log is considered; it goes in front, new, before at most 9 items, unless its id is listed; no-op when either list is empty |
| ActivityFeed.ClearNew | src/components/LiveActivityFeed.tsx:55-61 | only the item with that id loses `isNew` |
| ActivityFeed.OnLogsKeepsFeed | src/components/LiveActivityFeed.tsx:44-54 | the feed stays at 10 items or fewer, with distinct ids |
| ActivityFeed.OnLogsIdempotent | src/components/LiveActivityFeed.tsx:40-43 | the same logs a second time add nothing |
| ActivityFeed.ClearNewKeepsIds | src/components/LiveActivityFeed.tsx:55-61 | ids and distinctness are kept; the cleared id is no longer new |
| ActivityFeed.EmptyFeedStaysEmpty | src/components/LiveActivityFeed.tsx:22-38 | a feed empty at mount stays empty however many logs arrive |
| ActivityFeed.ReplayKeepsFeed | src/components/LiveActivityFeed.tsx:37-65 | after any run of log snapshots the feed has at most 10 items and distinct ids, and every id it lists was there at mount or is the head log id of a snapshot |
| ActivityFeed.Replay | src/components/LiveActivityFeed.tsx:37-65 | the logs effect run once per snapshot; `ReplayKeepsFeed` and `EmptyFeedStaysEmpty` state what it keeps |
| TriggerWebhook.MessageOf | supabase/functions/trigger-webhook/index.ts:55-143 | the message template of each log record; a response record ends with the first min(n, 200) characters of the response text |
| TriggerWebhook.AttemptLogs | supabase/functions/trigger-webhook/index.ts:64-130 | the request record first; the response when there is one; then success or one WARNING |
| TriggerWebhook.FirstOk | supabase/functions/trigger-webhook/index.ts:62-119 | the first attempt whose answer is OK |
| TriggerWebhook.Backoff | supabase/functions/trigger-webhook/index.ts:132-134 | 2000·attempt ms after each failed attempt but the last |
| TriggerWebhook.BackoffStep | supabase/functions/trigger-webhook/index.ts:132-134 | a failed attempt adds a wait of 2000·attempt ms, except after the third |
| TriggerWebhook.HandleRequest | supabase/functions/trigger-webhook/index.ts:10-171 | the handler equals the request specification |
| TriggerWebhook.Attempts | supabase/functions/trigger-webhook/index.ts:59-157 | the retry loop equals the forwarding specification |
| TriggerWebhook.WarningsUpTo | supabase/functions/trigger-webhook/index.ts:120-130 | one WARNING per failed attempt |
| TriggerWebhook.StatusCodes | supabase/functions/trigger-webhook/index.ts:11-49 | OPTIONS gives 200 with no body; a missing field gives 400; an unknown service gives 404; only 200/400/404/500 occur |
| TriggerWebhook.FieldCheckExamples | supabase/functions/trigger-webhook/index.ts:23-49 | the field check is JavaScript truthiness: 42 as `serviceId` reaches the lookup, 7 as `webhookUrl` is forwarded as "7", `false` and `null` give 400 |
| TriggerWebhook.Text | supabase/functions/trigger-webhook/index.ts:52-56 | a string field is interpolated as itself |
| TriggerWebhook.Handle | supabase/functions/trigger-webhook/index.ts:10-171 | the request specification; `StatusCodes`, `FieldCheckExamples` and `RetryPolicy` state its outcomes and `HandleRequest` is proved equal to it |
| TriggerWebhook.RetryPolicy | supabase/functions/trigger-webhook/index.ts:59-157 | 200 iff one of the three attempts is OK, reporting the first; otherwise 500 with the last error, waits of 2000 and 4000 ms, and an ERROR record last |
| TriggerWebhook.ForwardSucceeds | supabase/functions/trigger-webhook/index.ts:62-119 | with an OK answer: 200 for the first one, with one WARNING and one wait per failed attempt before it |
| TriggerWebhook.ForwardExhausted | supabase/functions/trigger-webhook/index.ts:120-157 | without one: 500 with the last error, waits of 2000 and 4000 ms, three WARNINGs and the ERROR record last |
| TriggerWebhook.Forward | supabase/functions/trigger-webhook/index.ts:59-157 | the retry specification; `ForwardSucceeds` and `ForwardExhausted` state both outcomes and `Attempts` is proved equal to it |

## Left out

- The database and network calls (`supabase.from(...)`, `fetch`) are not modelled as effects. Their results enter as inputs:
  - the fault oracle of the self-healing run;
  - the fetched rows of `fetchData`;
  - the save-fails flag of the config and webhook saves;
  - the answers and the lookup of the trigger function.
- The database writes themselves are not kept: the DB rows, and the action log insert in src/App.tsx:58-64.
- The random values written to the database are independent draws from those written to the store. They are not compared.
- Faults inside the four remediation branches of src/hooks/useSelfHealing.ts:75-123 are not modelled. A fault before or after remediation is, and it ends in the catch alert.
- Floating-point rounding, `toFixed`, `toLocaleString` and `toLocaleDateString` are not modelled:
  - reals stand for numbers;
  - the rendered strings that `toFixed` produces are inputs (`Renderings`);
  - time-of-day strings come from a `render` parameter.
- Timers and concurrency are not modelled:
  - the 3000 ms pause in self-healing;
  - the intervals of the tick, the chart and the demo generator;
  - the 1000 ms highlight timer;
  - the back-off sleeps, which are only recorded as their lengths.
  Each action or tick reads one clock value. That value stands for both `last_restart` and `updated_at` where the code calls `new Date()` twice, and for all twenty `Date.now()` readings of the initial chart series (RealtimeChart.InitialSeries), which the code takes once per point.
- The `PerformanceScore` animation and all colour mappings are left out, because they are rendering only.
- src/hooks/useClients.ts is not part of this model. It destructures store members the store does not define.
- `isHealthy` in src/utils/mockData.ts:118 is computed but never used, so it has no counterpart.
- The self-healing thresholds are hardcoded as in the code. The `DashboardConfig` thresholds are never read.
- SelfHealButtonModel.SelfHealButton.HandleHeal: it takes three run environments, one per possible target, because the random draws and clock readings of each run are inputs.
- LogViewer.FilteredLogs: case folding is ASCII-only. `toLowerCase` folds every Unicode letter (and can change a string's length), so a search that differs from a message only in non-ASCII case is kept by the code but not by the model.
- SelfHealing.SelfHeal: the faults RecordInsertFails, FinalizeFails and CompletionLogFails over-approximate. supabase-js reports a failed insert or update in its result instead of rejecting, so these awaits do not throw in practice. The model still lets them throw, so the catch block is covered from each of them.
- SelfHealing.TriggerSelfHeal: a rejected webhook `fetch` aborts the run and reaches the catch block, as the code does. A design in which remediation continues after a webhook failure is not modelled.
- TriggerWebhook.HandleRequest: a field is checked by JavaScript truthiness over the JSON values null, booleans, numbers, strings, arrays and objects. A primitive or array body has neither field and is answered 400; only a `null` body, on which the destructuring throws, or a body `req.json()` rejects is unparsable and answered 500. NaN and the infinities cannot occur in JSON and are not represented. A non-string field that is truthy is interpolated into the URL and the log texts through `Text`; a number's and an array's rendered text are carried in the value.
  - Database inserts are taken not to throw, since supabase-js reports errors in its result. So the outer 500 comes only from an unparsable body.
  - Log ids and timestamps are left out.
- TriggerWebhook.MessageOf: strings are sequences of Unicode code points, so `substring(0, 200)` is modelled as the first 200 code points. JavaScript counts UTF-16 code units, so on text outside the Basic Multilingual Plane (for example emoji) the code keeps fewer characters than the model, and may split a surrogate pair.
- ActivityFeed.EmptyFeedStaysEmpty: the mount effect runs once. When the logs are still empty at mount, the feed stays empty for the component's lifetime. The model keeps this behaviour as written.
- PerformanceScore.ScorePerfect and PerformanceScore.ScoreZero are stated for the two extreme fleets only. ScoreBounds covers the general range.
