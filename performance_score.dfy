/** The health score of src/components/PerformanceScore.tsx: four bounded
    components (running ratio, CPU, errors, long uptime) summed and rounded,
    its label bands, and the trend against the previous score. */
module PerformanceScore {
  import opened Basics
  import opened Types
  import opened App

  /** `k / n` for whole numbers 0 <= k <= n lies in [0, 1]. */
  lemma Ratio(k: int, n: int)
    requires 0 <= k <= n && n > 0
    ensures 0.0 <= k as real / n as real <= 1.0
  {
    var q := k as real / n as real;
    assert q * n as real == k as real;
  }

  /** `services.reduce((sum, s) => sum + s.error_count, 0)` */
  function ErrorSum(services: seq<Service>): int
  {
    if services == [] then 0 else ErrorSum(services[..|services| - 1]) + services[|services| - 1].error_count
  }

  lemma {:induction false} ErrorSumNonNegative(services: seq<Service>)
    requires forall s :: s in services ==> s.error_count >= 0
    ensures ErrorSum(services) >= 0
  {
    if services != [] {
      var n := |services| - 1;
      assert forall s :: s in services[..n] ==> s in services;
      assert services[n] in services;
      ErrorSumNonNegative(services[..n]);
    }
  }

  predicate LongUptime(s: Service)
  {
    s.uptime > 3600
  }

  /** Up to 30 points for the share of running services. */
  function ServiceRatio(services: seq<Service>): (r: real)
    requires services != []
    ensures 0.0 <= r <= 30.0
  {
    Ratio(RunningCount(services), |services|);
    RunningCount(services) as real / |services| as real * 30.0
  }

  /** Up to 30 points for a low average CPU; bounded above only when that
      average is not negative. */
  function CpuScore(services: seq<Service>): (r: real)
    requires services != []
    ensures r >= 0.0
    ensures AvgCpu(services) >= 0.0 ==> r <= 30.0
    ensures AvgCpu(services) >= 100.0 ==> r == 0.0
  {
    MaxR(0.0, 30.0 - AvgCpu(services) / 100.0 * 30.0)
  }

  /** Up to 25 points for few errors, zero from an average of 20 on. */
  function ErrorScore(services: seq<Service>): (r: real)
    requires services != []
    ensures r >= 0.0
    ensures ErrorSum(services) >= 0 ==> r <= 25.0
  {
    var avgErrors := ErrorSum(services) as real / |services| as real;
    assert ErrorSum(services) >= 0 ==> avgErrors >= 0.0;
    MaxR(0.0, 25.0 - avgErrors / 20.0 * 25.0)
  }

  /** Up to 15 points for the share of services up for more than an hour. */
  function UptimeScore(services: seq<Service>): (r: real)
    requires services != []
    ensures 0.0 <= r <= 15.0
  {
    Ratio(|Filter(services, LongUptime)|, |services|);
    |Filter(services, LongUptime)| as real / |services| as real * 15.0
  }

  /** `calculateScore` */
  function Score(services: seq<Service>): int
  {
    if services == [] then 0
    else Round(ServiceRatio(services) + CpuScore(services) + ErrorScore(services) + UptimeScore(services))
  }

  /** The score is 0 for no services and lies in [0, 100] whenever no CPU
      reading and no error count is negative. */
  lemma ScoreBounds(services: seq<Service>)
    requires forall s :: s in services ==> s.cpu_usage >= 0.0 && s.error_count >= 0
    ensures services == [] ==> Score(services) == 0
    ensures 0 <= Score(services) <= 100
  {
    if services != [] {
      AvgCpuBounds(services, 0.0, CpuMax(services));
      ErrorSumNonNegative(services);
    }
  }

  /** The largest CPU reading, an upper bound for every one. */
  function CpuMax(services: seq<Service>): (m: real)
    requires services != []
    ensures forall s :: s in services ==> s.cpu_usage <= m
    ensures m in set s | s in services :: s.cpu_usage
  {
    if |services| == 1 then services[0].cpu_usage
    else
      var rest := CpuMax(services[1..]);
      assert forall s :: s in services ==> s == services[0] || s in services[1..];
      MaxR(services[0].cpu_usage, rest)
  }

  lemma FullRatio(k: int, n: int, w: real)
    requires k == n && n > 0
    ensures k as real / n as real * w == w
  {
  }

  lemma ZeroRatio(n: int, w: real)
    requires n > 0
    ensures 0 as real / n as real * w == 0.0
  {
  }

  /** A fleet all running, idle, error-free and up for over an hour
      scores 100. */
  lemma ScorePerfect(services: seq<Service>)
    requires services != []
    requires forall s :: s in services ==> s.status == Running && s.cpu_usage == 0.0 && s.error_count == 0 && s.uptime > 3600
    ensures Score(services) == 100
  {
    FilterAll(services, IsRunning);
    FilterAll(services, LongUptime);
    FullRatio(RunningCount(services), |services|, 30.0);
    FullRatio(|Filter(services, LongUptime)|, |services|, 15.0);
    AvgCpuBounds(services, 0.0, 0.0);
    ErrorSumZero(services);
    assert ServiceRatio(services) + CpuScore(services) + ErrorScore(services) + UptimeScore(services) == 100.0;
  }

  /** A fleet all stopped or paused, saturated, with at least 20 errors each
      and none up for over an hour scores 0. */
  lemma ScoreZero(services: seq<Service>)
    requires services != []
    requires forall s :: s in services ==> s.status != Running && s.cpu_usage >= 100.0 && s.error_count >= 20 && s.uptime <= 3600
    ensures Score(services) == 0
  {
    FilterNone(services, IsRunning);
    FilterNone(services, LongUptime);
    ZeroRatio(|services|, 30.0);
    ZeroRatio(|services|, 15.0);
    AvgCpuBounds(services, 100.0, CpuMax(services));
    ErrorSumAtLeast(services, 20);
    ManyErrors(ErrorSum(services), |services|);
    assert ServiceRatio(services) + CpuScore(services) + ErrorScore(services) + UptimeScore(services) == 0.0;
  }

  /** An average of at least 20 errors earns no error points. */
  lemma ManyErrors(sum: int, n: int)
    requires n > 0 && sum >= 20 * n
    ensures MaxR(0.0, 25.0 - sum as real / n as real / 20.0 * 25.0) == 0.0
  {
    var avg := sum as real / n as real;
    assert avg * n as real == sum as real;
    assert avg >= 20.0;
  }

  lemma {:induction false} ErrorSumZero(services: seq<Service>)
    requires forall s :: s in services ==> s.error_count == 0
    ensures ErrorSum(services) == 0
  {
    if services != [] {
      var n := |services| - 1;
      assert forall s :: s in services[..n] ==> s in services;
      assert services[n] in services;
      ErrorSumZero(services[..n]);
    }
  }

  lemma {:induction false} ErrorSumAtLeast(services: seq<Service>, e: int)
    requires forall s :: s in services ==> s.error_count >= e
    ensures ErrorSum(services) >= e * |services|
  {
    if services != [] {
      var n := |services| - 1;
      assert forall s :: s in services[..n] ==> s in services;
      assert services[n] in services;
      ErrorSumAtLeast(services[..n], e);
    }
  }

  datatype ScoreLabel = Excellent | Good | Fair | Poor

  /** `getScoreLabel` */
  function Label(score: int): ScoreLabel
  {
    if score >= 80 then Excellent
    else if score >= 60 then Good
    else if score >= 40 then Fair
    else Poor
  }

  /** The four bands partition the integers, and a higher score never gets
      a worse label. */
  lemma LabelBands(score: int, other: int)
    ensures Label(score) == Excellent <==> 80 <= score
    ensures Label(score) == Good <==> 60 <= score < 80
    ensures Label(score) == Fair <==> 40 <= score < 60
    ensures Label(score) == Poor <==> score < 40
    ensures score <= other ==> LabelRank(Label(score)) <= LabelRank(Label(other))
  {
  }

  function LabelRank(l: ScoreLabel): nat
  {
    match l
    case Poor => 0
    case Fair => 1
    case Good => 2
    case Excellent => 3
  }

  datatype Trend = Up | Down | Flat

  /** `getTrend` */
  function TrendOf(score: int, previous: int): (t: Trend)
    ensures t == Up <==> score > previous
    ensures t == Down <==> score < previous
    ensures t == Flat <==> score == previous
  {
    if score > previous then Up else if score < previous then Down else Flat
  }

  /** The component's `score` and `previousScore` state. */
  class ScoreState {
    var score: int
    var previousScore: int

    constructor ()
      ensures score == 0 && previousScore == 0
    {
      score, previousScore := 0, 0;
    }

    function Trend(): Trend
      reads this
    {
      TrendOf(score, previousScore)
    }

    /** The effect run on every new service list: the old score becomes
        the previous one and the score is recomputed. */
    method Recalculate(services: seq<Service>)
      modifies this
      ensures previousScore == old(score) && score == Score(services)
      ensures Trend() == TrendOf(Score(services), old(score))
    {
      var newScore := Score(services);
      previousScore := score;
      score := newScore;
    }
  }
}
