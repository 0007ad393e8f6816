/** The demo metrics generator of src/utils/demoDataGenerator.ts: five base
    values that random-walk inside fixed bounds, and two drives whose free
    space and percentage are derived from their used space. Every
    `Math.random()` is an input in [0, 1). */
module DemoData {
  import opened Basics
  import opened Types
  import opened MockData

  /** `smoothVariation`: a step of at most `volatility / 2` either way,
      clamped into [min, max]. */
  function SmoothVariation(current: real, min: real, max: real, volatility: real, roll: real): (r: real)
    requires Unit(roll)
    ensures min <= max ==> min <= r <= max
    ensures min <= current <= max && volatility >= 0.0 ==> Dist(r, current) <= volatility / 2.0
  {
    var change := (roll - 0.5) * volatility;
    HalfStep(roll - 0.5, volatility);
    Clamp(min, max, current + change)
  }

  lemma HalfStep(a: real, v: real)
    ensures -0.5 <= a <= 0.5 && v >= 0.0 ==> -v / 2.0 <= a * v <= v / 2.0
  {
    if -0.5 <= a <= 0.5 && v >= 0.0 {
      assert (0.5 - a) * v == v / 2.0 - a * v;
      assert (a + 0.5) * v == a * v + v / 2.0;
      NonNegProduct(0.5 - a, v);
      NonNegProduct(a + 0.5, v);
    }
  }

  lemma NonNegProduct(x: real, y: real)
    requires x >= 0.0 && y >= 0.0
    ensures x * y >= 0.0
  {
  }

  datatype BaseValues = BaseValues(cpu: real, gpu: real, ram: real, networkUpload: real, networkDownload: real)

  /** The bounds `generateMetrics` clamps each base value into. */
  predicate InBounds(b: BaseValues)
  {
    10.0 <= b.cpu <= 90.0 && 5.0 <= b.gpu <= 85.0 && 30.0 <= b.ram <= 85.0 &&
    500.0 <= b.networkUpload <= 15000.0 && 2000.0 <= b.networkDownload <= 30000.0
  }

  /** One draw per base value. */
  datatype BaseRolls = BaseRolls(cpu: real, gpu: real, ram: real, networkUpload: real, networkDownload: real)

  predicate ValidRolls(r: BaseRolls)
  {
    Unit(r.cpu) && Unit(r.gpu) && Unit(r.ram) && Unit(r.networkUpload) && Unit(r.networkDownload)
  }

  /** The constructor's starting values, already inside the bounds. */
  function InitialBase(r: BaseRolls): (b: BaseValues)
    requires ValidRolls(r)
    ensures InBounds(b)
    ensures 30.0 <= b.cpu < 50.0 && 20.0 <= b.gpu < 50.0 && 40.0 <= b.ram < 60.0
    ensures 1000.0 <= b.networkUpload < 6000.0 && 5000.0 <= b.networkDownload < 15000.0
  {
    BaseValues(30.0 + r.cpu * 20.0, 20.0 + r.gpu * 30.0, 40.0 + r.ram * 20.0,
               1000.0 + r.networkUpload * 5000.0, 5000.0 + r.networkDownload * 10000.0)
  }

  /** The five reassignments at the top of `generateMetrics`: inside the
      bounds afterwards whatever the start, and a bounded step from a start
      inside them (volatility 5 for the gauges, 500 and 800 for the network). */
  function NextBase(b: BaseValues, r: BaseRolls): (n: BaseValues)
    requires ValidRolls(r)
    ensures InBounds(n)
    ensures InBounds(b) ==>
      Dist(n.cpu, b.cpu) <= 2.5 && Dist(n.gpu, b.gpu) <= 2.5 && Dist(n.ram, b.ram) <= 2.5 &&
      Dist(n.networkUpload, b.networkUpload) <= 250.0 && Dist(n.networkDownload, b.networkDownload) <= 400.0
  {
    BaseValues(
      SmoothVariation(b.cpu, 10.0, 90.0, 5.0, r.cpu),
      SmoothVariation(b.gpu, 5.0, 85.0, 5.0, r.gpu),
      SmoothVariation(b.ram, 30.0, 85.0, 5.0, r.ram),
      SmoothVariation(b.networkUpload, 500.0, 15000.0, 500.0, r.networkUpload),
      SmoothVariation(b.networkDownload, 2000.0, 30000.0, 800.0, r.networkDownload))
  }

  const TotalRam := 16384

  /** `Math.round(x * 10) / 10`: within 0.05 of `x`. */
  function RoundTenth(x: real): (r: real)
    ensures Dist(r, x) <= 0.05
  {
    var k := Round(x * 10.0);
    assert k as real - 0.5 <= x * 10.0 < k as real + 0.5;
    k as real / 10.0
  }

  /** The RAM figure: rounded from the percentage, never above the total for
      a base value inside its bounds. */
  lemma RamBounds(b: BaseValues)
    requires InBounds(b)
    ensures 4915 <= Round(b.ram / 100.0 * TotalRam as real) <= 13927 < TotalRam
  {
  }

  /** The body of the `forEach` callback. */
  function Settle(d: DriveInfo): (r: DriveInfo)
    requires d.total != 0.0
    ensures r.name == d.name && r.total == d.total && r.used == d.used
    ensures r.free + r.used == r.total
    ensures r.percentage * r.total == r.used * 100.0
  {
    d.(free := d.total - d.used, percentage := d.used / d.total * 100.0)
  }

  /** A positive product with a positive factor has a positive cofactor. */
  lemma PositiveFactor(a: real, b: real)
    ensures b > 0.0 && a * b > 0.0 ==> a > 0.0
  {
    if b > 0.0 && a <= 0.0 {
      assert (0.0 - a) * b >= 0.0;
    }
  }

  /** A drive whose used space lies strictly between 0 and its total has
      positive free space and a percentage strictly between 0 and 100. */
  lemma SettleBounds(d: DriveInfo)
    requires 0.0 < d.used < d.total
    ensures Settle(d).free > 0.0 && 0.0 < Settle(d).percentage < 100.0
  {
    var q := d.used / d.total;
    assert q * d.total == d.used;
    PositiveFactor(q, d.total);
    PositiveFactor(1.0 - q, d.total);
    assert (1.0 - q) * d.total == d.total - d.used;
  }

  /** The two drives as literals, before `forEach` fills in free and percentage. */
  function RawDrives(cRoll: real, dRoll: real): seq<DriveInfo>
  {
    [DriveInfo("C:", 512000.0, 256000.0 + cRoll * 50000.0, 0.0, 0.0),
     DriveInfo("D:", 1024000.0, 512000.0 + dRoll * 100000.0, 0.0, 0.0)]
  }

  /** Used space of C: lies in [256000, 306000) of 512000, of D: in
      [512000, 612000) of 1024000; so both drives are partly full. */
  lemma RawDrivesInRange(cRoll: real, dRoll: real)
    requires Unit(cRoll) && Unit(dRoll)
    ensures forall k :: 0 <= k < 2 ==> 0.0 < RawDrives(cRoll, dRoll)[k].used < RawDrives(cRoll, dRoll)[k].total
    ensures 256000.0 <= RawDrives(cRoll, dRoll)[0].used < 306000.0
    ensures 512000.0 <= RawDrives(cRoll, dRoll)[1].used < 612000.0
  {
  }

  /** The fresh draws of one `generateMetrics` call; `id` and `timestamp`
      stand for the random id and the clock. */
  datatype MetricsDraw = MetricsDraw(rolls: BaseRolls, cDrive: real, dDrive: real, id: string, timestamp: string)

  predicate ValidMetricsDraw(d: MetricsDraw)
  {
    ValidRolls(d.rolls) && Unit(d.cDrive) && Unit(d.dDrive)
  }

  /** The metrics returned for new base values `b`. */
  function MetricsFor(clientId: string, b: BaseValues, d: MetricsDraw): (m: SystemMetrics)
    requires ValidMetricsDraw(d)
  {
    var raw := RawDrives(d.cDrive, d.dDrive);
    SystemMetrics(d.id, clientId, RoundTenth(b.cpu), RoundTenth(b.gpu),
      Round(b.ram / 100.0 * TotalRam as real), TotalRam,
      [Settle(raw[0]), Settle(raw[1])],
      Round(b.networkUpload), Round(b.networkDownload), d.timestamp)
  }

  /** What every reading promises: two settled drives, partly full; RAM used
      within the total; gauges within 0.05 of the base values. */
  lemma MetricsProperties(clientId: string, b: BaseValues, d: MetricsDraw)
    requires ValidMetricsDraw(d) && InBounds(b)
    ensures var m := MetricsFor(clientId, b, d);
      && m.client_id == clientId && m.ram_total == TotalRam
      && 0 <= m.ram_usage <= m.ram_total
      && Dist(m.cpu_usage, b.cpu) <= 0.05 && Dist(m.gpu_usage, b.gpu) <= 0.05
      && |m.drives| == 2
      && (forall k :: 0 <= k < 2 ==>
            && m.drives[k].free == m.drives[k].total - m.drives[k].used
            && m.drives[k].percentage * m.drives[k].total == m.drives[k].used * 100.0
            && m.drives[k].free > 0.0 && 0.0 < m.drives[k].percentage < 100.0)
  {
    RamBounds(b);
    RawDrivesInRange(d.cDrive, d.dDrive);
    var raw := RawDrives(d.cDrive, d.dDrive);
    SettleBounds(raw[0]);
    SettleBounds(raw[1]);
  }

  class DemoDataGenerator {
    const clientId: string
    var baseValues: BaseValues

    ghost predicate Valid()
      reads this
    {
      InBounds(baseValues)
    }

    constructor (clientId: string, rolls: BaseRolls)
      requires ValidRolls(rolls)
      ensures Valid()
      ensures this.clientId == clientId && baseValues == InitialBase(rolls)
    {
      this.clientId := clientId;
      baseValues := InitialBase(rolls);
    }

    /** `generateMetrics()`: moves the base values, builds the two drives and
        settles each in place, and reads off the metrics. */
    method GenerateMetrics(d: MetricsDraw) returns (m: SystemMetrics)
      requires Valid() && ValidMetricsDraw(d)
      modifies this
      ensures Valid()
      ensures baseValues == NextBase(old(baseValues), d.rolls)
      ensures m == MetricsFor(clientId, baseValues, d)
    {
      baseValues := NextBase(baseValues, d.rolls);
      var raw := RawDrives(d.cDrive, d.dDrive);
      var drives := new DriveInfo[2];
      drives[0], drives[1] := raw[0], raw[1];
      var k := 0;
      assert raw[0].total > 0.0 && raw[1].total > 0.0;
      while k < drives.Length
        modifies drives
        invariant 0 <= k <= drives.Length
        invariant forall j :: 0 <= j < k ==> drives[j] == Settle(raw[j])
        invariant forall j :: k <= j < drives.Length ==> drives[j] == raw[j]
      {
        drives[k] := Settle(drives[k]);
        k := k + 1;
      }
      m := SystemMetrics(d.id, clientId, RoundTenth(baseValues.cpu), RoundTenth(baseValues.gpu),
        Round(baseValues.ram / 100.0 * TotalRam as real), TotalRam,
        drives[..], Round(baseValues.networkUpload), Round(baseValues.networkDownload), d.timestamp);
      assert drives[..] == [Settle(raw[0]), Settle(raw[1])];
    }
  }
}
