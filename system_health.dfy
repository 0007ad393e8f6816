/** The two bar charts of src/components/SystemHealthChart.tsx: services per
    status, and services per health bucket (healthy, warning, critical),
    shown only when there is at least one service. */
module SystemHealth {
  import opened Basics
  import opened Types

  predicate IsRunning(s: Service) { s.status == Running }
  predicate IsStopped(s: Service) { s.status == Stopped }
  predicate IsPaused(s: Service) { s.status == Paused }

  /** Fewer than 5 errors and CPU below 70. */
  predicate Healthy(s: Service)
  {
    s.error_count < 5 && s.cpu_usage < 70.0
  }

  /** 5 to 9 errors, or CPU in [70, 85). */
  predicate Warning(s: Service)
  {
    (s.error_count >= 5 && s.error_count < 10) || (s.cpu_usage >= 70.0 && s.cpu_usage < 85.0)
  }

  /** 10 errors or more, or CPU 85 or more. */
  predicate Critical(s: Service)
  {
    s.error_count >= 10 || s.cpu_usage >= 85.0
  }

  /** The healthy bucket shares no service with the other two, every other
      service is in at least one of them, and those two can overlap. */
  lemma BucketsCover(s: Service)
    ensures Healthy(s) ==> !Warning(s) && !Critical(s)
    ensures !Healthy(s) ==> Warning(s) || Critical(s)
    ensures s.error_count == 7 && s.cpu_usage == 90.0 ==> Warning(s) && Critical(s)
  {
  }

  datatype Bucket = Bucket(name: string, count: nat)

  function StatusData(services: seq<Service>): seq<Bucket>
  {
    [Bucket("Running", |Filter(services, IsRunning)|),
     Bucket("Stopped", |Filter(services, IsStopped)|),
     Bucket("Paused", |Filter(services, IsPaused)|)]
  }

  function HealthData(services: seq<Service>): seq<Bucket>
  {
    [Bucket("Healthy", |Filter(services, Healthy)|),
     Bucket("Warning", |Filter(services, Warning)|),
     Bucket("Critical", |Filter(services, Critical)|)]
  }

  /** The three status counts add up to the number of services, since
      every service has exactly one of the three statuses. */
  lemma {:induction false} StatusCountsSum(services: seq<Service>)
    ensures var d := StatusData(services); d[0].count + d[1].count + d[2].count == |services|
  {
    if services != [] {
      StatusCountsSum(services[1..]);
    }
  }

  /** The health counts cover every service at least once, and the healthy
      count plus either other count never exceeds the number of services. */
  lemma {:induction false} HealthCountsCover(services: seq<Service>)
    ensures var d := HealthData(services);
      && d[0].count + d[1].count + d[2].count >= |services|
      && d[0].count + d[1].count <= |services|
      && d[0].count + d[2].count <= |services|
  {
    if services != [] {
      BucketsCover(services[0]);
      HealthCountsCover(services[1..]);
    }
  }

  datatype View = NoData | Charts(status: seq<Bucket>, health: seq<Bucket>)

  /** What is rendered: the "no data" placeholder for an empty list, both
      charts otherwise. */
  function Render(services: seq<Service>): (v: View)
    ensures v.NoData? <==> services == []
  {
    if |services| > 0 then Charts(StatusData(services), HealthData(services)) else NoData
  }
}
