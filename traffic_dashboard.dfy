/** src/components/TrafficDashboard.tsx, its speed chart: the one series of
    hourly points is drawn as two speed lines, normal traffic and congestion,
    each holding a point's speed only on its own side of the 30 km/h limit and
    `null` elsewhere. How `timeSeriesData` itself is computed is not part of this
    model; it is taken as given. */
module TrafficDashboard {
  import opened Wrappers
  import opened TrafficDataTable

  /** A point of `timeSeriesData`: the hour, the number of vehicles and their
      mean speed. */
  datatype TimePoint = TimePoint(time: string, count: int, speed: real)

  /** A point of a drawn line: the same point with its speed kept or nulled. */
  datatype LinePoint = LinePoint(time: string, count: int, speed: Option<real>)

  /** `{ ...d, speed: null }` when `keep` is false, `d` itself otherwise. */
  function Plot(d: TimePoint, keep: bool): LinePoint {
    LinePoint(d.time, d.count, if keep then Some(d.speed) else None)
  }

  /** `timeSeriesData.map(d => (d.speed > 30 ? d : { ...d, speed: null }))`. */
  function NormalSeries(points: seq<TimePoint>): (line: seq<LinePoint>)
    ensures |line| == |points|
    ensures forall i :: 0 <= i < |points| ==>
              line[i].time == points[i].time && line[i].count == points[i].count
    ensures forall i :: 0 <= i < |points| ==> (line[i].speed.Some? <==> points[i].speed > CongestionLimit)
    ensures forall i :: 0 <= i < |points| ==> line[i].speed.Some? ==> line[i].speed.value == points[i].speed
  {
    seq(|points|, i requires 0 <= i < |points| => Plot(points[i], points[i].speed > CongestionLimit))
  }

  /** `timeSeriesData.map(d => (d.speed <= 30 ? d : { ...d, speed: null }))`. */
  function CongestedSeries(points: seq<TimePoint>): (line: seq<LinePoint>)
    ensures |line| == |points|
    ensures forall i :: 0 <= i < |points| ==>
              line[i].time == points[i].time && line[i].count == points[i].count
    ensures forall i :: 0 <= i < |points| ==> (line[i].speed.Some? <==> IsCongested(points[i].speed))
    ensures forall i :: 0 <= i < |points| ==> line[i].speed.Some? ==> line[i].speed.value == points[i].speed
  {
    seq(|points|, i requires 0 <= i < |points| => Plot(points[i], IsCongested(points[i].speed)))
  }

  /** Two lines over the same hours in which every point carries a speed on
      exactly one of them. */
  predicate Complementary(normal: seq<LinePoint>, congested: seq<LinePoint>) {
    && |normal| == |congested|
    && forall i :: 0 <= i < |normal| ==>
         && normal[i].time == congested[i].time && normal[i].count == congested[i].count
         && (normal[i].speed.Some? != congested[i].speed.Some?)
  }

  /** The points two complementary lines were drawn from: each point takes the
      speed of whichever line carries one. */
  function Merge(normal: seq<LinePoint>, congested: seq<LinePoint>): (points: seq<TimePoint>)
    requires Complementary(normal, congested)
    ensures |points| == |normal|
  {
    seq(|normal|, i requires 0 <= i < |normal| =>
      TimePoint(normal[i].time, normal[i].count,
                if normal[i].speed.Some? then normal[i].speed.value else congested[i].speed.value))
  }

  /** The two lines partition the points: every point has its speed on exactly
      one line, the one its speed belongs to. */
  lemma {:induction false} SeriesPartitionPoints(points: seq<TimePoint>)
    ensures Complementary(NormalSeries(points), CongestedSeries(points))
    ensures forall i :: 0 <= i < |points| ==>
              (NormalSeries(points)[i].speed.Some? <==> !IsCongested(points[i].speed))
  {
  }

  /** Nothing is lost by the split: merging the two lines gives back the series. */
  lemma {:induction false} MergeSeries(points: seq<TimePoint>)
    ensures Complementary(NormalSeries(points), CongestedSeries(points))
    ensures Merge(NormalSeries(points), CongestedSeries(points)) == points
  {
    SeriesPartitionPoints(points);
    var m := Merge(NormalSeries(points), CongestedSeries(points));
    forall i | 0 <= i < |points|
      ensures m[i] == points[i]
    {
    }
  }
}
