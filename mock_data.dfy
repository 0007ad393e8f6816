/** The synthetic telemetry of src/utils/mockData.ts: seeding the twelve
    demo services, drawing a log line from a weighted level distribution,
    the per-tick random walk of a service's gauges, and the uptime and
    relative-time formatting. Every `Math.random()` is a parameter in [0, 1). */
module MockData {
  import opened Basics
  import opened Types

  predicate Unit(r: real)
  {
    0.0 <= r < 1.0
  }

  /** The well-known services the seed draws names from, in order. */
  const WindowsServices: seq<(string, string)> := [
    ("wuauserv", "Windows Update"),
    ("spooler", "Print Spooler"),
    ("W32Time", "Windows Time"),
    ("EventLog", "Windows Event Log"),
    ("Dnscache", "DNS Client"),
    ("MSSQLSERVER", "SQL Server"),
    ("W3SVC", "IIS Admin Service"),
    ("BITS", "Background Intelligent Transfer Service"),
    ("Schedule", "Task Scheduler"),
    ("Winmgmt", "Windows Management Instrumentation"),
    ("WSearch", "Windows Search"),
    ("CryptSvc", "Cryptographic Services")
  ]

  function LogMessages(l: Level): (pool: seq<string>)
    ensures |pool| > 0
  {
    match l
    case Info => ["Service started successfully", "Health check passed", "Configuration loaded",
                  "Connection established", "Task completed", "Backup created successfully",
                  "Database synchronized", "Cache cleared"]
    case Warning => ["High memory usage detected", "Response time degraded", "Retry attempt initiated",
                     "Connection timeout, retrying", "Cache miss rate elevated", "Queue size growing",
                     "Disk space running low"]
    case Error => ["Failed to connect to database", "Service restart required", "Authentication failed",
                   "Configuration error detected", "Network connection lost", "Resource allocation failed",
                   "Access denied to resource"]
    case Critical => ["Service crashed unexpectedly", "Data corruption detected", "Security breach attempt",
                      "System resources exhausted", "Fatal exception occurred", "Emergency shutdown initiated"]
  }

  /** `Math.floor(r * n)` for r in [0, 1) is a valid index into n things. */
  function ScaledIndex(r: real, n: nat): (k: nat)
    requires Unit(r) && n > 0
    ensures k < n
  {
    assert r * n as real < n as real;
    (r * n as real).Floor
  }

  // ----- generateMockServices -----

  /** The random numbers one seeded service consumes, in the order drawn;
      `lastRestart` is the rendered `now - roll * 7 days`. */
  datatype ServiceDraw = ServiceDraw(
    statusRoll: real, healthRoll: real, cpuRoll: real, memoryRoll: real,
    diskRoll: real, networkRoll: real, uptimeRoll: real, lastRestart: string, errorRoll: real)

  predicate ValidServiceDraw(d: ServiceDraw)
  {
    Unit(d.statusRoll) && Unit(d.healthRoll) && Unit(d.cpuRoll) && Unit(d.memoryRoll) &&
    Unit(d.diskRoll) && Unit(d.networkRoll) && Unit(d.uptimeRoll) && Unit(d.errorRoll)
  }

  /** Above 0.85 Stopped, above 0.80 Paused, otherwise Running. */
  function SeedStatus(roll: real): (s: Status)
    ensures s == Stopped <==> roll > 0.85
    ensures s == Paused <==> 0.80 < roll <= 0.85
    ensures s == Running <==> roll <= 0.80
  {
    if roll > 0.85 then Stopped else if roll > 0.80 then Paused else Running
  }

  /** Service number `i` of the seed. Healthy services (health roll above
      0.3) get low gauges and fewer than 5 errors; the others get high gauges
      and at least 5 errors. */
  function MockService(i: nat, clientId: string, d: ServiceDraw, createdAt: string, now: string): (s: Service)
    requires i < |WindowsServices| && ValidServiceDraw(d)
    ensures s.id == "service-" + NatToString(i) && s.client_id == clientId
    ensures s.name == WindowsServices[i].0 && s.display_name == WindowsServices[i].1
    ensures s.status != Running ==> s.uptime == 0
    ensures 0 <= s.uptime < 604800
    ensures d.healthRoll > 0.3 ==> 0.0 <= s.cpu_usage < 30.0 && 100.0 <= s.memory_usage < 600.0 && 0 <= s.error_count < 5
    ensures d.healthRoll <= 0.3 ==> 60.0 <= s.cpu_usage < 100.0 && 800.0 <= s.memory_usage < 2000.0 && 5 <= s.error_count < 25
    ensures 0.0 <= s.disk_io < 50.0 && 0.0 <= s.network_stats < 1000.0
    ensures s.webhook_url.None? && s.webhook_enabled.None?
  {
    var status := SeedStatus(d.statusRoll);
    var healthy := d.healthRoll > 0.3;
    var uptime := if status == Running then ScaledIndex(d.uptimeRoll, 86400 * 7) else 0;
    var errors := if healthy then ScaledIndex(d.errorRoll, 5) else 5 + ScaledIndex(d.errorRoll, 20);
    Service(
      "service-" + NatToString(i), clientId, WindowsServices[i].0, WindowsServices[i].1, status,
      if healthy then d.cpuRoll * 30.0 else 60.0 + d.cpuRoll * 40.0,
      if healthy then 100.0 + d.memoryRoll * 500.0 else 800.0 + d.memoryRoll * 1200.0,
      d.diskRoll * 50.0, d.networkRoll * 1000.0,
      uptime, d.lastRestart, errors,
      None, None, None, None, None, None,
      createdAt, now)
  }

  /** At most twelve services are seeded, whatever `count` asks for. */
  function SeedSize(count: int): (n: nat)
    ensures n <= |WindowsServices|
    ensures 0 <= count <= |WindowsServices| ==> n == count
  {
    if count <= 0 then 0 else MinI(count, |WindowsServices|)
  }

  /** `generateMockServices(count, clientId)` */
  method GenerateMockServices(count: int, clientId: string, draws: seq<ServiceDraw>, createdAt: string, now: string)
    returns (services: seq<Service>)
    requires |draws| >= SeedSize(count)
    requires forall d :: d in draws ==> ValidServiceDraw(d)
    ensures |services| == SeedSize(count)
    ensures forall i :: 0 <= i < |services| ==> services[i] == MockService(i, clientId, draws[i], createdAt, now)
    ensures forall i :: 0 <= i < |services| ==> services[i].id == "service-" + NatToString(i)
    ensures forall s :: s in services ==> s.status != Running ==> s.uptime == 0
  {
    services := [];
    var i := 0;
    while i < MinI(count, |WindowsServices|)
      invariant 0 <= i <= SeedSize(count)
      invariant |services| == i
      invariant forall j :: 0 <= j < i ==> services[j] == MockService(j, clientId, draws[j], createdAt, now)
    {
      assert draws[i] in draws;
      services := services + [MockService(i, clientId, draws[i], createdAt, now)];
      i := i + 1;
    }
  }

  // ----- generateMockLog -----

  const Levels: seq<Level> := [Info, Warning, Error, Critical]
  const Weights: seq<real> := [0.6, 0.25, 0.12, 0.03]

  /** The sum of the first n weights. */
  function CumWeight(n: nat): real
    requires n <= |Weights|
  {
    if n == 0 then 0.0 else CumWeight(n - 1) + Weights[n - 1]
  }

  /** The level a draw selects, written as the bands the cumulative weights
      0.6, 0.85, 0.97 and 1.0 cut [0, 1) into; a draw past the last band
      falls back to INFO. */
  function LevelFor(roll: real): Level
  {
    if roll < 0.6 then Info
    else if roll < 0.85 then Warning
    else if roll < 0.97 then Error
    else if roll < 1.0 then Critical
    else Info
  }

  /** Band k of the distribution is [CumWeight(k), CumWeight(k+1)): it has
      width Weights[k] and selects Levels[k]. So INFO, WARNING, ERROR and
      CRITICAL are drawn with probability 60%, 25%, 12% and 3%. */
  lemma LevelBand(k: nat, roll: real)
    requires k < |Levels|
    requires CumWeight(k) <= roll < CumWeight(k + 1)
    ensures LevelFor(roll) == Levels[k]
    ensures CumWeight(k + 1) - CumWeight(k) == Weights[k]
  {
    assert CumWeight(1) == 0.6;
    assert CumWeight(2) == 0.85;
    assert CumWeight(3) == 0.97;
    assert CumWeight(4) == 1.0;
  }

  /** The loop of `generateMockLog`: accumulate the weights and take the first
      level whose cumulative weight exceeds the draw. */
  method SelectLevel(roll: real) returns (level: Level)
    requires roll >= 0.0
    ensures level == LevelFor(roll)
  {
    level := Info;
    var cumWeight := 0.0;
    var i := 0;
    while i < |Weights|
      invariant 0 <= i <= |Weights|
      invariant cumWeight == CumWeight(i)
      invariant roll >= cumWeight
      invariant level == Info
    {
      cumWeight := cumWeight + Weights[i];
      if roll < cumWeight {
        level := Levels[i];
        assert CumWeight(i) <= roll < CumWeight(i + 1);
        LevelBand(i, roll);
        return;
      }
      i := i + 1;
    }
    assert roll >= CumWeight(4) == 1.0;
  }

  /** The random numbers one log line consumes; `id` stands for the
      `log-<time>-<random>` identifier. */
  datatype LogDraw = LogDraw(levelRoll: real, messageRoll: real, serviceRoll: real, id: string)

  predicate ValidLogDraw(d: LogDraw)
  {
    Unit(d.levelRoll) && Unit(d.messageRoll) && Unit(d.serviceRoll)
  }

  /** An empty service id is falsy and is replaced by a random `service-k`. */
  function LogServiceId(serviceId: string, d: LogDraw): (r: string)
    requires ValidLogDraw(d)
    ensures serviceId != "" ==> r == serviceId
    ensures serviceId == "" ==> exists k :: 0 <= k < 12 && r == "service-" + NatToString(k)
  {
    if serviceId != "" then serviceId else "service-" + NatToString(ScaledIndex(d.serviceRoll, 12))
  }

  /** The log line `generateMockLog(serviceId)` returns. */
  function MockLog(serviceId: string, d: LogDraw, now: string): (log: ServiceLog)
    requires ValidLogDraw(d)
    ensures log.level == LevelFor(d.levelRoll)
    ensures log.message in LogMessages(log.level)
    ensures log.id == d.id && log.timestamp == now
  {
    var level := LevelFor(d.levelRoll);
    var pool := LogMessages(level);
    ServiceLog(d.id, LogServiceId(serviceId, d), level, pool[ScaledIndex(d.messageRoll, |pool|)], now)
  }

  method GenerateMockLog(serviceId: string, d: LogDraw, now: string) returns (log: ServiceLog)
    requires ValidLogDraw(d)
    ensures log == MockLog(serviceId, d, now)
    ensures log.message in LogMessages(log.level)
  {
    var level := SelectLevel(d.levelRoll);
    var messages := LogMessages(level);
    var message := messages[ScaledIndex(d.messageRoll, |messages|)];
    log := ServiceLog(d.id, LogServiceId(serviceId, d), level, message, now);
  }

  // ----- updateServiceMetrics -----

  /** The four draws of one metrics tick. */
  datatype MetricDraws = MetricDraws(cpuRoll: real, memoryRoll: real, diskRoll: real, networkRoll: real)

  predicate ValidMetricDraws(d: MetricDraws)
  {
    Unit(d.cpuRoll) && Unit(d.memoryRoll) && Unit(d.diskRoll) && Unit(d.networkRoll)
  }

  function Dist(a: real, b: real): real
  {
    if a >= b then a - b else b - a
  }

  /** `current + (roll - 0.5) * 0.1 * scale`: the unclamped step. */
  function Step(current: real, roll: real, scale: real): real
  {
    current + (roll - 0.5) * 0.1 * scale
  }

  /** The update `updateServiceMetrics` returns: a clamped random walk of the
      four gauges and the uptime clock, which advances by 5 seconds while
      Running and is 0 otherwise. The status itself is never written. */
  function UpdateServiceMetrics(s: Service, d: MetricDraws): (p: ServicePatch)
    requires ValidMetricDraws(d)
    ensures p.cpu_usage.Some? && p.memory_usage.Some? && p.disk_io.Some? && p.network_stats.Some? && p.uptime.Some?
    ensures p.status.None? && p.error_count.None? && p.last_restart.None?
    ensures p.webhook_url.None? && p.webhook_enabled.None?
    ensures 0.0 <= p.cpu_usage.value <= 100.0
    ensures p.memory_usage.value >= 50.0
    ensures p.disk_io.value >= 0.0 && p.network_stats.value >= 0.0
    ensures 0.0 <= s.cpu_usage <= 100.0 ==> Dist(p.cpu_usage.value, s.cpu_usage) <= 1.0
    ensures s.memory_usage >= 50.0 ==> Dist(p.memory_usage.value, s.memory_usage) <= 5.0
    ensures s.disk_io >= 0.0 ==> Dist(p.disk_io.value, s.disk_io) <= 0.5
    ensures s.network_stats >= 0.0 ==> Dist(p.network_stats.value, s.network_stats) <= 10.0
    ensures p.uptime.value == if s.status == Running then s.uptime + 5 else 0
  {
    ServicePatch(
      None, None, None,
      Some(if s.status == Running then s.uptime + 5 else 0),
      Some(MaxR(0.0, MinR(100.0, Step(s.cpu_usage, d.cpuRoll, 20.0)))),
      Some(MaxR(50.0, Step(s.memory_usage, d.memoryRoll, 100.0))),
      Some(MaxR(0.0, Step(s.disk_io, d.diskRoll, 10.0))),
      Some(MaxR(0.0, Step(s.network_stats, d.networkRoll, 200.0))),
      None, None)
  }

  /** Before clamping, one tick moves the gauges by at most 1, 5, 0.5 and 10. */
  lemma StepBounds(s: Service, d: MetricDraws)
    requires ValidMetricDraws(d)
    ensures Dist(Step(s.cpu_usage, d.cpuRoll, 20.0), s.cpu_usage) <= 1.0
    ensures Dist(Step(s.memory_usage, d.memoryRoll, 100.0), s.memory_usage) <= 5.0
    ensures Dist(Step(s.disk_io, d.diskRoll, 10.0), s.disk_io) <= 0.5
    ensures Dist(Step(s.network_stats, d.networkRoll, 200.0), s.network_stats) <= 10.0
  {
  }

  // ----- formatUptime / formatTimestamp -----

  /** JavaScript's `%` on integers: the remainder takes the sign of the dividend. */
  function JsRem(x: int, m: int): (r: int)
    requires m > 0
    ensures x >= 0 ==> r == x % m
    ensures -m < r < m
  {
    if x >= 0 then x % m else -((-x) % m)
  }

  datatype UptimeParts = UptimeParts(days: int, hours: int, minutes: int)

  /** The three `Math.floor` divisions of `formatUptime`. */
  function SplitUptime(seconds: int): (p: UptimeParts)
    ensures seconds >= 0 ==> p.days >= 0 && 0 <= p.hours < 24 && 0 <= p.minutes < 60
    ensures seconds >= 0 ==> seconds == p.days * 86400 + p.hours * 3600 + p.minutes * 60 + seconds % 60
  {
    var p := UptimeParts(seconds / 86400, JsRem(seconds, 86400) / 3600, JsRem(seconds, 3600) / 60);
    if seconds >= 0 then
      assert seconds == p.days * 86400 + p.hours * 3600 + p.minutes * 60 + seconds % 60 by {
        UptimeArithmetic(seconds);
      }
      p
    else p
  }

  lemma UptimeArithmetic(seconds: nat)
    ensures (seconds % 86400) / 3600 < 24
    ensures seconds == (seconds / 86400) * 86400 + ((seconds % 86400) / 3600) * 3600 + ((seconds % 3600) / 60) * 60 + seconds % 60
  {
    var d, r := seconds / 86400, seconds % 86400;
    var h, r2 := r / 3600, r % 3600;
    var m, s := r2 / 60, r2 % 60;
    assert r == h * 3600 + r2;
    assert r2 == m * 60 + s;
    DivModUnique(seconds, 3600, d * 24 + h, r2);
    DivModUnique(seconds, 60, (d * 24 + h) * 60 + m, s);
  }

  /** Division with remainder has only one answer. */
  lemma DivModUnique(n: int, b: int, q: int, r: int)
    requires b > 0 && n == q * b + r && 0 <= r < b
    ensures n % b == r && n / b == q
  {
    var q0, r0 := n / b, n % b;
    assert (q0 - q) * b == r - r0;
    if q0 > q {
      MulAtLeast(q0 - q, b);
    } else if q0 < q {
      MulAtLeast(q - q0, b);
    }
  }

  lemma MulAtLeast(k: int, b: int)
    requires k >= 1 && b > 0
    ensures k * b >= b
  {
    assert k * b == (k - 1) * b + b;
    assert (k - 1) * b >= 0;
  }

  /** "Nd Nh" when there is a day, else "Nh Nm" when there is an hour, else "Nm". */
  function FormatUptime(seconds: int): (r: string)
  {
    var p := SplitUptime(seconds);
    if p.days > 0 then IntToString(p.days) + "d " + IntToString(p.hours) + "h"
    else if p.hours > 0 then IntToString(p.hours) + "h " + IntToString(p.minutes) + "m"
    else IntToString(p.minutes) + "m"
  }

  /** The form is chosen by the first non-zero unit. */
  lemma FormatUptimeForms(seconds: nat)
    ensures seconds >= 86400 ==>
              FormatUptime(seconds) == NatToString(seconds / 86400) + "d " + NatToString((seconds % 86400) / 3600) + "h"
    ensures 3600 <= seconds < 86400 ==>
              FormatUptime(seconds) == NatToString(seconds / 3600) + "h " + NatToString((seconds % 3600) / 60) + "m"
    ensures seconds < 3600 ==> FormatUptime(seconds) == NatToString(seconds / 60) + "m"
  {
    var p := SplitUptime(seconds);
    assert p.days == seconds / 86400 && p.hours == (seconds % 86400) / 3600 && p.minutes == (seconds % 3600) / 60;
    if seconds >= 86400 {
      assert p.days > 0;
    } else {
      assert p.days == 0;
      assert seconds % 86400 == seconds;
      if seconds >= 3600 {
        assert p.hours == seconds / 3600 > 0;
      } else {
        assert p.hours == 0;
        assert seconds % 3600 == seconds;
      }
    }
  }

  /** The buckets of `formatTimestamp` for a difference of `diff` ms between
      now and the stamp; `dateText` is the locale rendering of the date. */
  function FormatTimestamp(diff: int, dateText: string): (r: string)
  {
    if diff < 60000 then "Just now"
    else if diff < 3600000 then IntToString(diff / 60000) + "m ago"
    else if diff < 86400000 then IntToString(diff / 3600000) + "h ago"
    else dateText
  }

  /** Under a minute reads "Just now"; under an hour, the whole minutes
      (1..59) and "m ago"; under a day, the whole hours (1..23) and
      "h ago"; a day or more, the date text. */
  lemma FormatTimestampBuckets(diff: int, dateText: string)
    ensures diff < 60000 ==> FormatTimestamp(diff, dateText) == "Just now"
    ensures 60000 <= diff < 3600000 ==>
      1 <= diff / 60000 < 60 && FormatTimestamp(diff, dateText) == NatToString(diff / 60000) + "m ago"
    ensures 3600000 <= diff < 86400000 ==>
      1 <= diff / 3600000 < 24 && FormatTimestamp(diff, dateText) == NatToString(diff / 3600000) + "h ago"
    ensures diff >= 86400000 ==> FormatTimestamp(diff, dateText) == dateText
  {
    if 60000 <= diff < 3600000 {
      var m := diff / 60000;
      assert 1 <= m < 60 && FormatTimestamp(diff, dateText) == NatToString(m) + "m ago";
    }
    if 3600000 <= diff < 86400000 {
      var h := diff / 3600000;
      assert 1 <= h < 24 && FormatTimestamp(diff, dateText) == NatToString(h) + "h ago";
    }
  }
}
