/** The live chart of src/components/RealtimeChart.tsx: a series of twenty
    points three seconds apart, then one new point per tick with the oldest
    dropped once there are more than twenty. Each `Math.random()` is an
    input in [0, 1); `render` stands for the time-of-day rendering of an
    instant in milliseconds. */
module RealtimeChart {
  import opened Basics
  import opened MockData

  const MaxPoints := 20
  const TickMillis := 3000

  datatype DataPoint = DataPoint(time: string, cpu: real, memory: real, disk: real)

  /** The three draws of one point. */
  datatype PointRolls = PointRolls(cpu: real, memory: real, disk: real)

  predicate ValidRolls(r: PointRolls)
  {
    Unit(r.cpu) && Unit(r.memory) && Unit(r.disk)
  }

  predicate InRange(p: DataPoint)
  {
    0.0 <= p.cpu < 100.0 && 40.0 <= p.memory < 90.0 && 0.0 <= p.disk < 30.0
  }

  /** The object literal of `generateDataPoint` and of the initial loop. */
  function MakePoint(time: string, r: PointRolls): (p: DataPoint)
    requires ValidRolls(r)
    ensures InRange(p)
    ensures p.time == time
  {
    DataPoint(time, r.cpu * 100.0, 40.0 + r.memory * 50.0, r.disk * 30.0)
  }

  /** The `initialData` loop: for i from 20 down to 1, a point stamped
      `i * 3000` ms before `now`, so the oldest comes first. */
  method InitialSeries(now: int, render: int -> string, rolls: seq<PointRolls>)
    returns (data: seq<DataPoint>)
    requires |rolls| == MaxPoints
    requires forall k :: 0 <= k < |rolls| ==> ValidRolls(rolls[k])
    ensures |data| == MaxPoints
    ensures forall k :: 0 <= k < MaxPoints ==>
      data[k] == MakePoint(render(now - (MaxPoints - k) * TickMillis), rolls[k])
    ensures forall k :: 0 <= k < MaxPoints ==> InRange(data[k])
  {
    data := [];
    var i := MaxPoints;
    while i > 0
      invariant 0 <= i <= MaxPoints
      invariant |data| == MaxPoints - i
      invariant forall k :: 0 <= k < |data| ==>
        data[k] == MakePoint(render(now - (MaxPoints - k) * TickMillis), rolls[k])
    {
      var r := rolls[MaxPoints - i];
      data := data + [MakePoint(render(now - i * TickMillis), r)];
      i := i - 1;
    }
  }

  /** What one tick does to the series. */
  function Slide(prev: seq<DataPoint>, p: DataPoint): seq<DataPoint>
  {
    var grown := prev + [p];
    if |grown| > MaxPoints then grown[1..] else grown
  }

  /** The `setData` callback: copy, push, and `shift()` when too long. */
  method Tick(prev: seq<DataPoint>, p: DataPoint) returns (next: seq<DataPoint>)
    ensures next == Slide(prev, p)
  {
    next := prev + [p];
    if |next| > MaxPoints {
      next := next[1..];
    }
  }

  /** One tick keeps at most twenty points, puts the new one last, and
      either appends it or drops exactly the oldest point. */
  lemma SlideShape(prev: seq<DataPoint>, p: DataPoint)
    requires |prev| <= MaxPoints
    ensures var next := Slide(prev, p);
      && |next| == MinI(|prev| + 1, MaxPoints)
      && next[|next| - 1] == p
      && (|prev| == MaxPoints ==> next == prev[1..] + [p])
      && (|prev| < MaxPoints ==> next == prev + [p])
  {
    if |prev| == MaxPoints {
      assert (prev + [p])[1..] == prev[1..] + [p];
    }
  }

  function SlideAll(series: seq<DataPoint>, points: seq<DataPoint>): seq<DataPoint>
  {
    if points == [] then series
    else Slide(SlideAll(series, points[..|points| - 1]), points[|points| - 1])
  }

  /** From a full series, the chart is always the twenty newest points:
      after n ticks it shows the initial series shifted by n. */
  lemma {:induction false} SlideAllWindow(series: seq<DataPoint>, points: seq<DataPoint>)
    requires |series| == MaxPoints
    ensures SlideAll(series, points) == (series + points)[|points|..]
  {
    if points != [] {
      var n := |points| - 1;
      SlideAllWindow(series, points[..n]);
      var prev := (series + points[..n])[n..];
      SlideShape(prev, points[n]);
      assert series + points == (series + points[..n]) + [points[n]];
      assert prev[1..] + [points[n]] == (series + points)[|points|..];
    }
  }

  /** Every point shown after the initial series and any number of ticks
      of freshly generated points lies in the generated ranges. */
  lemma {:induction false} SlideAllInRange(series: seq<DataPoint>, points: seq<DataPoint>)
    requires forall k :: 0 <= k < |series| ==> InRange(series[k])
    requires forall k :: 0 <= k < |points| ==> InRange(points[k])
    ensures forall k :: 0 <= k < |SlideAll(series, points)| ==> InRange(SlideAll(series, points)[k])
  {
    if points != [] {
      var n := |points| - 1;
      SlideAllInRange(series, points[..n]);
      var prev := SlideAll(series, points[..n]);
      var grown := prev + [points[n]];
      assert forall k :: 0 <= k < |grown| ==> InRange(grown[k]);
    }
  }
}
