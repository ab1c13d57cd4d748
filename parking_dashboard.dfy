/** src/components/ParkingDashboard.tsx: the time series of a list of parking
    records (entries, exits and an occupancy figure per hour or per day), the
    rule that picks hours or days, the kana usage classifier and the region
    tally. The charts themselves are not modelled. */
module ParkingDashboard {
  import opened Wrappers
  import opened Seqs
  import opened Strings
  import opened Numbers
  import opened Types
  import opened CivilDate

  // ---------------------------------------------------------------------------
  // Bucket keys

  datatype Granularity = Hourly | Daily

  /** A timestamp whose `split(' ')[1]` exists. */
  predicate HasTimePart(ts: string) {
    ' ' in ts
  }

  /** Every record can be bucketed: the hourly key reads `split(' ')[1]`, which is
      `undefined` for a timestamp without a space, and the `split(':')` called on
      it then throws. */
  predicate Bucketable(g: Granularity, data: seq<ParkingData>) {
    g == Hourly ==> forall i :: 0 <= i < |data| ==> HasTimePart(data[i].timestamp)
  }

  /** The bucket of a timestamp: `ts.split(' ')[1].split(':')[0] + ':00'` by the
      hour, `ts.split(' ')[0]` by the day. */
  function BucketKey(g: Granularity, ts: string): (k: string)
    requires g == Hourly ==> HasTimePart(ts)
    ensures g == Daily ==> k <= ts && ' ' !in k && (|k| == |ts| || ts[|k|] == ' ')
    ensures g == Hourly ==> |k| >= 3 && k[|k| - 3..] == ":00"
                            && ' ' !in k[..|k| - 3] && ':' !in k[..|k| - 3]
  {
    match g
    case Daily => Split(ts, ' ')[0]
    case Hourly =>
      var time := Split(ts, ' ')[1];
      var hour := Split(time, ':')[0];
      assert hour <= time;
      var k := hour + ":00";
      assert k[..|k| - 3] == hour && k[|k| - 3..] == ":00";
      k
  }

  /** The daily key of `"<date> <rest>"` is `<date>`. */
  lemma {:induction false} DayKeyOf(date: string, rest: string)
    requires ' ' !in date
    ensures BucketKey(Daily, date + " " + rest) == date
  {
    SplitPrefix(date, rest, ' ');
  }

  /** The hourly key of `"<date> <hour>:<rest>"` is `<hour>:00`, whatever the
      hour's width: no zero padding is added, so `"9"` gives `"9:00"`. */
  lemma {:induction false} HourKeyOf(date: string, hour: string, rest: string)
    requires ' ' !in date && ' ' !in hour && ' ' !in rest && ':' !in hour
    ensures BucketKey(Hourly, date + " " + hour + ":" + rest) == hour + ":00"
  {
    var time := hour + ":" + rest;
    assert date + " " + hour + ":" + rest == date + [' '] + time;
    SplitPrefix(date, time, ' ');
    assert ' ' !in time;
    SplitWithout(time, ' ');
    SplitPrefix(hour, rest, ':');
  }

  /** The key computation of the `forEach` loop for a granularity. */
  function KeyOf(g: Granularity): ParkingData --> string {
    (r: ParkingData) requires g == Hourly ==> HasTimePart(r.timestamp) => BucketKey(g, r.timestamp)
  }

  /** Every record has a key under `key`. */
  ghost predicate Keyed(data: seq<ParkingData>, key: ParkingData --> string) {
    forall i :: 0 <= i < |data| ==> key.requires(data[i])
  }

  /** The keys of the records, in record order. */
  function KeysBy(data: seq<ParkingData>, key: ParkingData --> string): seq<string>
    requires Keyed(data, key)
  {
    seq(|data|, i requires 0 <= i < |data| && Keyed(data, key) => key(data[i]))
  }

  /** Each record's key with its direction. */
  function TagsBy(data: seq<ParkingData>, key: ParkingData --> string): seq<(string, string)>
    requires Keyed(data, key)
  {
    seq(|data|, i requires 0 <= i < |data| && Keyed(data, key) => (key(data[i]), data[i].direction))
  }

  /** The counters of one bucket. */
  datatype Counter = Counter(entry: nat, exit: nat, total: nat)

  /** What the counters of bucket `k` must hold once every record is counted:
      `entry` counts its records with direction `"in"`, `exit` those with
      `"out"`, `total` all of them. */
  function CounterBy(data: seq<ParkingData>, key: ParkingData --> string, k: string): Counter
    requires Keyed(data, key)
  {
    var tags := TagsBy(data, key);
    Counter(multiset(tags)[(k, "in")], multiset(tags)[(k, "out")], multiset(KeysBy(data, key))[k])
  }

  function Keys(data: seq<ParkingData>, g: Granularity): seq<string>
    requires Bucketable(g, data)
  {
    assert Keyed(data, KeyOf(g));
    KeysBy(data, KeyOf(g))
  }

  function Tags(data: seq<ParkingData>, g: Granularity): seq<(string, string)>
    requires Bucketable(g, data)
  {
    assert Keyed(data, KeyOf(g));
    TagsBy(data, KeyOf(g))
  }

  function BucketCounter(data: seq<ParkingData>, g: Granularity, k: string): Counter
    requires Bucketable(g, data)
  {
    assert Keyed(data, KeyOf(g));
    CounterBy(data, KeyOf(g), k)
  }

  /** Among the first `n` records, the bucket `k` records of direction `a` and of
      a different direction `b` are together at most the records of `k`. */
  lemma {:induction false} TagCountsBounded(tags: seq<(string, string)>, ks: seq<string>, k: string, a: string, b: string, n: nat)
    requires n <= |tags| == |ks| && forall i :: 0 <= i < |tags| ==> tags[i].0 == ks[i]
    requires a != b
    ensures CountUpTo(tags, (k, a), n) + CountUpTo(tags, (k, b), n) <= CountUpTo(ks, k, n)
  {
    if n > 0 {
      TagCountsBounded(tags, ks, k, a, b, n - 1);
    }
  }

  /** In every bucket, entries and exits together are at most the records counted. */
  lemma {:induction false} BucketCountsBounded(data: seq<ParkingData>, g: Granularity, k: string)
    requires Bucketable(g, data)
    ensures var c := BucketCounter(data, g, k); c.entry + c.exit <= c.total
  {
    var tags, ks := Tags(data, g), Keys(data, g);
    TagCountsBounded(tags, ks, k, "in", "out", |data|);
    CountUpToMultiset(tags, (k, "in"), |data|);
    CountUpToMultiset(tags, (k, "out"), |data|);
    CountUpToMultiset(ks, k, |data|);
    assert tags[..|data|] == tags && ks[..|data|] == ks;
  }

  /** The totals of `keys`, summed. */
  function SumTotals(keys: seq<string>, grouped: map<string, Counter>): nat
    requires forall k :: k in keys ==> k in grouped
    decreases |keys|
  {
    if |keys| == 0 then 0 else grouped[keys[0]].total + SumTotals(keys[1..], grouped)
  }

  lemma {:induction false} SumTotalsOfTallies(keys: seq<string>, grouped: map<string, Counter>, s: seq<string>)
    requires forall k :: k in keys ==> k in grouped && grouped[k].total == multiset(s)[k]
    ensures SumTotals(keys, grouped) == SumMultiplicities(keys, s)
    decreases |keys|
  {
    if |keys| > 0 {
      SumTotalsOfTallies(keys[1..], grouped, s);
    }
  }

  /** One record counted into a bucket's counters. */
  function Count(c: Counter, direction: string): Counter {
    Counter(c.entry + (if direction == "in" then 1 else 0),
            c.exit + (if direction == "out" then 1 else 0),
            c.total + 1)
  }

  /** `keys` and `grouped` hold exactly the buckets of the first `n` keys `ks`
      (each paired with its direction in `tags`), keys in order of first
      occurrence. */
  ghost predicate GroupedUpTo(keys: seq<string>, grouped: map<string, Counter>,
                              ks: seq<string>, tags: seq<(string, string)>, n: nat)
    requires n <= |ks| == |tags|
  {
    && keys == FirstUpTo(ks, n)
    && (forall k :: k in grouped <==> k in keys)
    && (forall k :: k in grouped ==>
          grouped[k] == Counter(CountUpTo(tags, (k, "in"), n), CountUpTo(tags, (k, "out"), n), CountUpTo(ks, k, n)))
  }

  /** Counting record `n` into its bucket, creating the bucket first when its
      key is new, extends `GroupedUpTo` by one record. */
  lemma {:induction false} GroupedUpToStep(keys: seq<string>, grouped: map<string, Counter>, ks: seq<string>, tags: seq<(string, string)>,
                        n: nat, keys': seq<string>, grouped': map<string, Counter>)
    requires n < |ks| == |tags| && forall i :: 0 <= i < |tags| ==> tags[i].0 == ks[i]
    requires GroupedUpTo(keys, grouped, ks, tags, n)
    requires keys' == if ks[n] in grouped then keys else keys + [ks[n]]
    requires grouped' == grouped[ks[n] := Count(if ks[n] in grouped then grouped[ks[n]] else Counter(0, 0, 0), tags[n].1)]
    ensures GroupedUpTo(keys', grouped', ks, tags, n + 1)
  {
    var k := ks[n];
    assert tags[n] == (k, tags[n].1);
    if k !in grouped {
      FirstUpToMembers(ks, k, n);
      TagCountsBounded(tags, ks, k, "in", "out", n);
    }
  }

  /** The `data.forEach` of `aggregateHourlyData` and `aggregateDailyData`, which
      differ only in how they compute a record's key: the `grouped` dictionary,
      with its keys in insertion order. A bucket is created only for a key that
      occurs, and the totals add up to the number of records. */
  method Group(data: seq<ParkingData>, key: ParkingData --> string) returns (keys: seq<string>, grouped: map<string, Counter>)
    requires Keyed(data, key)
    ensures keys == Dedup(KeysBy(data, key))
    ensures forall k :: k in grouped <==> k in KeysBy(data, key)
    ensures forall k :: k in grouped ==> grouped[k] == CounterBy(data, key, k)
    ensures SumTotals(keys, grouped) == |data|
  {
    ghost var ks := KeysBy(data, key);
    ghost var tags := TagsBy(data, key);
    keys, grouped := [], map[];
    var i := 0;
    while i < |data|
      invariant 0 <= i <= |data|
      invariant GroupedUpTo(keys, grouped, ks, tags, i)
    {
      var item := data[i];
      var k := key(item);
      ghost var keys0, grouped0 := keys, grouped;
      // A new key gets a bucket of zeros; the bucket is then counted into.
      var c: Counter;
      if k in grouped {
        c := grouped[k];
      } else {
        c := Counter(0, 0, 0);
        keys := keys + [k];
      }
      if item.direction == "in" {
        c := c.(entry := c.entry + 1);
      }
      if item.direction == "out" {
        c := c.(exit := c.exit + 1);
      }
      c := c.(total := c.total + 1);
      grouped := grouped[k := c];
      GroupedUpToStep(keys0, grouped0, ks, tags, i, keys, grouped);
      i := i + 1;
    }
    GroupedDone(data, key, keys, grouped);
  }

  /** Once every record is counted, the buckets are those `Group` promises. */
  lemma {:induction false} GroupedDone(data: seq<ParkingData>, key: ParkingData --> string, keys: seq<string>, grouped: map<string, Counter>)
    requires Keyed(data, key)
    requires GroupedUpTo(keys, grouped, KeysBy(data, key), TagsBy(data, key), |data|)
    ensures keys == Dedup(KeysBy(data, key))
    ensures forall k :: k in grouped <==> k in KeysBy(data, key)
    ensures forall k :: k in grouped ==> grouped[k] == CounterBy(data, key, k)
    ensures SumTotals(keys, grouped) == |data|
  {
    var ks, tags := KeysBy(data, key), TagsBy(data, key);
    assert ks[..|data|] == ks && tags[..|data|] == tags;
    FirstUpToDedup(ks, |data|);
    forall k | k in grouped
      ensures grouped[k] == CounterBy(data, key, k)
    {
      CountUpToMultiset(tags, (k, "in"), |data|);
      CountUpToMultiset(tags, (k, "out"), |data|);
      CountUpToMultiset(ks, k, |data|);
    }
    forall k ensures k in grouped <==> k in ks {
      FirstUpToMembers(ks, k, |data|);
      CountUpToMultiset(ks, k, |data|);
    }
    SumTotalsOfTallies(keys, grouped, ks);
    TalliesSumToLength(ks);
  }

  // ---------------------------------------------------------------------------
  // Points and their order

  /** One point of the time series. */
  datatype SeriesPoint = SeriesPoint(time: string, entry: nat, exit: nat, occupancy: int)

  /** `val.total > 0 ? Math.round(((val.entry - val.exit) / val.total) * 100) : 0`,
      the quotient taken exactly: the whole percentage nearest to the net inflow
      as a share of the bucket's records, halves rounded up. */
  function Occupancy(c: Counter): (r: int)
    ensures c.total > 0 ==> c.total * (2 * r - 1) <= 200 * (c.entry - c.exit) < c.total * (2 * r + 1)
    ensures c.total > 0 && c.entry + c.exit <= c.total ==> -100 <= r <= 100
    ensures c.total == 0 ==> r == 0
  {
    if c.total > 0 then
      var r := RoundDiv(100 * (c.entry - c.exit), c.total);
      if c.entry + c.exit <= c.total then
        RoundDivBetween(100 * (c.entry - c.exit), c.total, -100, 100);
        r
      else r
    else 0
  }

  /** The object `Object.entries(grouped).map(...)` makes of one bucket. */
  function PointOf(k: string, c: Counter): SeriesPoint {
    SeriesPoint(k, c.entry, c.exit, Occupancy(c))
  }

  function ToPoints(keys: seq<string>, grouped: map<string, Counter>): seq<SeriesPoint>
    requires forall k :: k in keys ==> k in grouped
  {
    seq(|keys|, i requires 0 <= i < |keys| => PointOf(keys[i], grouped[keys[i]]))
  }

  predicate SortedByTime(ps: seq<SeriesPoint>) {
    forall i, j :: 0 <= i < j < |ps| ==> LexLe(ps[i].time, ps[j].time)
  }

  lemma {:induction false} SortedCons(p: SeriesPoint, s: seq<SeriesPoint>)
    requires SortedByTime(s)
    requires forall x :: x in s ==> LexLe(p.time, x.time)
    ensures SortedByTime([p] + s)
  {
    forall i, j | 0 <= i < j < |[p] + s|
      ensures LexLe(([p] + s)[i].time, ([p] + s)[j].time)
    {
      if i > 0 {
        assert ([p] + s)[i] == s[i - 1] && ([p] + s)[j] == s[j - 1];
      } else {
        assert ([p] + s)[j] in s;
      }
    }
  }

  /** Inserting one point into a sorted list. */
  function InsertByTime(p: SeriesPoint, s: seq<SeriesPoint>): (r: seq<SeriesPoint>)
    requires SortedByTime(s)
    ensures SortedByTime(r)
    ensures multiset(r) == multiset(s) + multiset{p}
    decreases |s|
  {
    if |s| == 0 then [p]
    else if LexLe(p.time, s[0].time) then
      InsertFront(p, s);
      [p] + s
    else
      var rest := InsertByTime(p, s[1..]);
      assert s == [s[0]] + s[1..];
      InsertBehind(p, s, rest);
      [s[0]] + rest
  }

  /** A point no later than the head of a sorted list goes in front of it. */
  lemma {:induction false} InsertFront(p: SeriesPoint, s: seq<SeriesPoint>)
    requires SortedByTime(s) && |s| > 0 && LexLe(p.time, s[0].time)
    ensures SortedByTime([p] + s)
  {
    forall x | x in s ensures LexLe(p.time, x.time) {
      var j :| 0 <= j < |s| && s[j] == x;
      if j > 0 {
        LexLeTransitive(p.time, s[0].time, x.time);
      }
    }
    SortedCons(p, s);
  }

  /** A point later than the head of a sorted list goes into its tail, and the
      head stays in front. */
  lemma {:induction false} InsertBehind(p: SeriesPoint, s: seq<SeriesPoint>, rest: seq<SeriesPoint>)
    requires SortedByTime(s) && |s| > 0 && !LexLe(p.time, s[0].time)
    requires SortedByTime(rest) && multiset(rest) == multiset(s[1..]) + multiset{p}
    ensures SortedByTime([s[0]] + rest)
  {
    forall x | x in rest ensures LexLe(s[0].time, x.time) {
      assert x in multiset(rest);
      if x == p {
        LexLeTotal(p.time, s[0].time);
      } else {
        assert x in multiset(s[1..]);
        var j :| 0 <= j < |s[1..]| && s[1..][j] == x;
        assert s[j + 1] == x;
      }
    }
    SortedCons(s[0], rest);
  }

  /** `.sort((a, b) => a.time.localeCompare(b.time))`: a sorted permutation. */
  function SortByTime(ps: seq<SeriesPoint>): (r: seq<SeriesPoint>)
    ensures SortedByTime(r)
    ensures multiset(r) == multiset(ps)
    decreases |ps|
  {
    if |ps| == 0 then []
    else
      assert ps == [ps[0]] + ps[1..];
      InsertByTime(ps[0], SortByTime(ps[1..]))
  }

  lemma {:induction false} TwiceCounted(s: seq<SeriesPoint>, i: int, j: int)
    requires 0 <= i < j < |s| && s[i] == s[j]
    ensures multiset(s)[s[i]] >= 2
  {
    assert s == s[..j] + [s[j]] + s[j + 1..];
    assert s[..j][i] == s[i];
  }

  /** Sorting points whose times are all different orders them strictly. */
  lemma {:induction false} SortedDistinctIsStrict(series: seq<SeriesPoint>, points: seq<SeriesPoint>)
    requires SortedByTime(series) && multiset(series) == multiset(points)
    requires forall a, b :: 0 <= a < b < |points| ==> points[a].time != points[b].time
    ensures forall i, j :: 0 <= i < j < |series| ==> LexLt(series[i].time, series[j].time)
  {
    assert Distinct(points);
    forall i, j | 0 <= i < j < |series|
      ensures LexLt(series[i].time, series[j].time)
    {
      assert series[i] in multiset(points) && series[j] in multiset(points);
      if series[i].time == series[j].time {
        if series[i] == series[j] {
          TwiceCounted(series, i, j);
          DistinctMultiplicity(points, series[i]);
        }
        assert false;
      }
      if LexLe(series[j].time, series[i].time) {
        LexLeAntisymmetric(series[i].time, series[j].time);
      }
    }
  }

  // ---------------------------------------------------------------------------
  // The time series

  /** The times of a list of points, in order. */
  function Times(series: seq<SeriesPoint>): (ts: seq<string>)
    ensures |ts| == |series| && forall i :: 0 <= i < |series| ==> ts[i] == series[i].time
  {
    seq(|series|, i requires 0 <= i < |series| => series[i].time)
  }

  /** What `aggregateHourlyData` / `aggregateDailyData` promise: the times
      strictly ascend, each point is the bucket of its time with that bucket's
      counters, the times are exactly the bucket keys that occur, and there is
      one point per distinct key. */
  ghost predicate IsTimeSeries(series: seq<SeriesPoint>, data: seq<ParkingData>, g: Granularity)
    requires Bucketable(g, data)
  {
    && (forall i, j :: 0 <= i < j < |series| ==> LexLt(series[i].time, series[j].time))
    && (forall i :: 0 <= i < |series| ==>
          series[i] == PointOf(series[i].time, BucketCounter(data, g, series[i].time)))
    && (forall k :: k in Times(series) <==> k in Keys(data, g))
    && |series| == |Dedup(Keys(data, g))|
  }

  /** Every point of a time series stands for at least one record, counts no
      more entries and exits than records, and has an occupancy in [-100, 100]. */
  lemma {:induction false} TimeSeriesBounds(series: seq<SeriesPoint>, data: seq<ParkingData>, g: Granularity, i: int)
    requires Bucketable(g, data) && IsTimeSeries(series, data, g) && 0 <= i < |series|
    ensures var c := BucketCounter(data, g, series[i].time);
            && c.total >= 1
            && series[i].entry + series[i].exit <= c.total
            && -100 <= series[i].occupancy <= 100
  {
    var k := series[i].time;
    assert Times(series)[i] == k;
    BucketCountsBounded(data, g, k);
    assert k in Keys(data, g);
    assert k in multiset(Keys(data, g));
  }

  /** The points of the grouped buckets, in any order, are each the bucket of
      their time, and their times are the keys. */
  lemma {:induction false} PointsOfGroups(series: seq<SeriesPoint>, keys: seq<string>, grouped: map<string, Counter>,
                       data: seq<ParkingData>, g: Granularity)
    requires Bucketable(g, data)
    requires keys == Dedup(Keys(data, g))
    requires forall k :: k in grouped <==> k in Keys(data, g)
    requires forall k :: k in grouped ==> grouped[k] == BucketCounter(data, g, k)
    requires multiset(series) == multiset(ToPoints(keys, grouped))
    ensures forall i :: 0 <= i < |series| ==>
              series[i] == PointOf(series[i].time, BucketCounter(data, g, series[i].time))
    ensures forall k :: k in Times(series) <==> k in Keys(data, g)
  {
    forall i | 0 <= i < |series|
      ensures series[i] == PointOf(series[i].time, BucketCounter(data, g, series[i].time))
    {
      assert series[i] in multiset(ToPoints(keys, grouped));
      PointIsBucket(series[i], keys, grouped, data, g);
    }
    forall k ensures k in Times(series) <==> k in Keys(data, g) {
      if k in Times(series) {
        var i :| 0 <= i < |series| && Times(series)[i] == k;
        assert series[i] in multiset(ToPoints(keys, grouped));
        PointIsBucket(series[i], keys, grouped, data, g);
      }
      if k in Keys(data, g) {
        var a := PointOfKey(keys, grouped, k);
        var points := ToPoints(keys, grouped);
        assert points[a] in multiset(series);
        var i :| 0 <= i < |series| && series[i] == points[a];
        assert Times(series)[i] == k;
      }
    }
  }

  /** A point of the grouped buckets is the bucket of its time, and its time is a key. */
  lemma {:induction false} PointIsBucket(p: SeriesPoint, keys: seq<string>, grouped: map<string, Counter>,
                      data: seq<ParkingData>, g: Granularity)
    requires Bucketable(g, data)
    requires keys == Dedup(Keys(data, g))
    requires forall k :: k in grouped <==> k in Keys(data, g)
    requires forall k :: k in grouped ==> grouped[k] == BucketCounter(data, g, k)
    requires p in ToPoints(keys, grouped)
    ensures p.time in Keys(data, g) && p == PointOf(p.time, BucketCounter(data, g, p.time))
  {
    InToPoints(keys, grouped, p);
  }

  /** Every point of `ToPoints` is the point of one of the keys. */
  lemma {:induction false} InToPoints(keys: seq<string>, grouped: map<string, Counter>, p: SeriesPoint)
    requires forall k :: k in keys ==> k in grouped
    requires p in ToPoints(keys, grouped)
    ensures p.time in keys && p == PointOf(p.time, grouped[p.time])
  {
    var a :| 0 <= a < |keys| && ToPoints(keys, grouped)[a] == p;
  }

  /** Every key has its point in `ToPoints`, at the key's own index. */
  lemma {:induction false} PointOfKey(keys: seq<string>, grouped: map<string, Counter>, k: string) returns (a: nat)
    requires forall k :: k in keys ==> k in grouped
    requires k in keys
    ensures a < |keys| && ToPoints(keys, grouped)[a].time == k
  {
    a :| 0 <= a < |keys| && keys[a] == k;
  }

  /** The shared body of the two aggregators. */
  method Aggregate(data: seq<ParkingData>, g: Granularity) returns (series: seq<SeriesPoint>)
    requires Bucketable(g, data)
    ensures IsTimeSeries(series, data, g)
  {
    assert Keyed(data, KeyOf(g));
    var keys, grouped := Group(data, KeyOf(g));
    var points := ToPoints(keys, grouped);
    series := SortByTime(points);
    assert |series| == |multiset(points)| == |points|;
    SortedDistinctIsStrict(series, points);
    PointsOfGroups(series, keys, grouped, data, g);
  }

  /** `aggregateHourlyData(data)`. */
  method AggregateHourlyData(data: seq<ParkingData>) returns (series: seq<SeriesPoint>)
    requires Bucketable(Hourly, data)
    ensures IsTimeSeries(series, data, Hourly)
  {
    series := Aggregate(data, Hourly);
  }

  /** `aggregateDailyData(data)`. */
  method AggregateDailyData(data: seq<ParkingData>) returns (series: seq<SeriesPoint>)
    ensures IsTimeSeries(series, data, Daily)
  {
    series := Aggregate(data, Daily);
  }

  /** Two sequences meeting `IsTimeSeries` for the same records are equal: the
      contract of the aggregators fixes their result. */
  lemma {:induction false} TimeSeriesUnique(s1: seq<SeriesPoint>, s2: seq<SeriesPoint>, data: seq<ParkingData>, g: Granularity)
    requires Bucketable(g, data) && IsTimeSeries(s1, data, g) && IsTimeSeries(s2, data, g)
    ensures s1 == s2
  {
    StrictTimesUnique(s1, s2);
  }

  /** Without its first point, a strictly ascending list has every time but the
      first. */
  lemma {:induction false} TimesTail(s: seq<SeriesPoint>, t: string)
    requires |s| > 0 && forall i, j :: 0 <= i < j < |s| ==> LexLt(s[i].time, s[j].time)
    ensures t in Times(s[1..]) <==> t in Times(s) && t != s[0].time
  {
    if t in Times(s[1..]) {
      var i :| 0 <= i < |s| - 1 && Times(s[1..])[i] == t;
      assert Times(s)[i + 1] == t;
      if t == s[0].time {
        LexLeReflexive(t);
      }
    }
    if t in Times(s) && t != s[0].time {
      var i :| 0 <= i < |s| && Times(s)[i] == t;
      assert Times(s[1..])[i - 1] == t;
    }
  }

  /** Lists with the same times are empty together. */
  lemma {:induction false} SameTimesEmpty(s1: seq<SeriesPoint>, s2: seq<SeriesPoint>)
    requires forall t :: t in Times(s1) <==> t in Times(s2)
    ensures |s1| == 0 <==> |s2| == 0
  {
    if |s1| > 0 {
      assert Times(s1)[0] in Times(s2);
    }
    if |s2| > 0 {
      assert Times(s2)[0] in Times(s1);
    }
  }

  /** Strictly ascending lists with the same times start with the same time,
      and agree on the times after it. */
  lemma {:induction false} FirstTimesAgree(s1: seq<SeriesPoint>, s2: seq<SeriesPoint>)
    requires forall i, j :: 0 <= i < j < |s1| ==> LexLt(s1[i].time, s1[j].time)
    requires forall i, j :: 0 <= i < j < |s2| ==> LexLt(s2[i].time, s2[j].time)
    requires forall t :: t in Times(s1) <==> t in Times(s2)
    requires |s1| > 0 && |s2| > 0
    ensures s1[0].time == s2[0].time
    ensures forall t :: t in Times(s1[1..]) <==> t in Times(s2[1..])
  {
    var t1, t2 := s1[0].time, s2[0].time;
    assert Times(s1)[0] == t1 && Times(s2)[0] == t2;
    assert t1 in Times(s2) && t2 in Times(s1);
    var j :| 0 <= j < |s2| && Times(s2)[j] == t1;
    var i :| 0 <= i < |s1| && Times(s1)[i] == t2;
    if t1 != t2 {
      assert j > 0 && i > 0;
      LexLeTotal(t1, t2);
      assert false;
    }
    forall t ensures t in Times(s1[1..]) <==> t in Times(s2[1..]) {
      TimesTail(s1, t);
      TimesTail(s2, t);
    }
  }

  /** Strictly ascending lists with the same times, a point being fixed by its
      time, are equal. */
  lemma {:induction false} StrictTimesUnique(s1: seq<SeriesPoint>, s2: seq<SeriesPoint>)
    requires forall i, j :: 0 <= i < j < |s1| ==> LexLt(s1[i].time, s1[j].time)
    requires forall i, j :: 0 <= i < j < |s2| ==> LexLt(s2[i].time, s2[j].time)
    requires forall i, j :: 0 <= i < |s1| && 0 <= j < |s2| && s1[i].time == s2[j].time ==> s1[i] == s2[j]
    requires forall t :: t in Times(s1) <==> t in Times(s2)
    ensures s1 == s2
    decreases |s1|
  {
    SameTimesEmpty(s1, s2);
    if |s1| > 0 {
      FirstTimesAgree(s1, s2);
      StrictTimesUnique(s1[1..], s2[1..]);
      assert s1 == [s1[0]] + s1[1..] && s2 == [s2[0]] + s2[1..];
    }
  }

  // ---------------------------------------------------------------------------
  // Granularity

  /** `(new Date(endDate).getTime() - new Date(startDate).getTime()) / 86400000`,
      or `None` when either date is invalid and the difference is NaN. */
  function DayDifference(startDate: string, endDate: string): (r: Option<int>)
    ensures r.Some? <==> IsIsoDate(startDate) && IsIsoDate(endDate)
    ensures r.Some? ==> r.value == ParseIsoDate(endDate).value - ParseIsoDate(startDate).value
  {
    var s := ParseIsoDate(startDate);
    var e := ParseIsoDate(endDate);
    if s.Some? && e.Some? then Some(e.value - s.value) else None
  }

  /** The granularity lines 149-158 select: by the day only in range mode with
      both dates, both valid, at least three days apart. */
  function ChooseGranularity(isRangeMode: bool, startDate: Option<string>, endDate: Option<string>): (g: Granularity)
    ensures g == Daily <==>
              && isRangeMode && Present(startDate) && Present(endDate)
              && IsIsoDate(startDate.value) && IsIsoDate(endDate.value)
              && ParseIsoDate(endDate.value).value - ParseIsoDate(startDate.value).value >= 3
  {
    if isRangeMode && Present(startDate) && Present(endDate) then
      var diff := DayDifference(startDate.value, endDate.value);
      if diff.Some? && diff.value >= 3 then Daily else Hourly
    else Hourly
  }

  /** A window of three calendar days, `start` to the day after the next, is still
      aggregated by the hour. */
  lemma {:induction false} ThreeDayWindowIsHourly(start: string, end: string)
    requires IsIsoDate(start) && IsIsoDate(end)
    requires Day(start) < DaysInMonth(Year(start), Month(start)) - 1
    requires Year(end) == Year(start) && Month(end) == Month(start) && Day(end) == Day(start) + 2
    ensures ChooseGranularity(true, Some(start), Some(end)) == Hourly
  {
  }

  /** Across a month end of a leap year: 28 February to 2 March 2024 is three days
      apart and aggregated by the day. */
  lemma {:induction false} LeapYearWindow()
    ensures ChooseGranularity(true, Some("2024-02-28"), Some("2024-03-02")) == Daily
  {
    KnownDate("2024-02-28", 2024, 2, 28);
    KnownDate("2024-03-02", 2024, 3, 2);
    assert IsLeapYear(2024);
    assert DaysBeforeMonth(2024, 3) - DaysBeforeMonth(2024, 2) == 29;
  }

  /** The same dates of a common year are two days apart and aggregated by the hour. */
  lemma {:induction false} CommonYearWindow()
    ensures ChooseGranularity(true, Some("2023-02-28"), Some("2023-03-02")) == Hourly
  {
    KnownDate("2023-02-28", 2023, 2, 28);
    KnownDate("2023-03-02", 2023, 3, 2);
    assert !IsLeapYear(2023);
    assert DaysBeforeMonth(2023, 3) - DaysBeforeMonth(2023, 2) == 28;
  }

  /** A date literal whose digits spell out `y`, `m` and `d`. */
  lemma {:induction false} KnownDate(s: string, y: nat, m: nat, d: nat)
    requires |s| == 10 && s[4] == '-' && s[7] == '-'
    requires forall i :: 0 <= i < 10 && i != 4 && i != 7 ==> IsDigit(s[i])
    requires y == 1000 * DigitValue(s[0]) + 100 * DigitValue(s[1]) + 10 * DigitValue(s[2]) + DigitValue(s[3])
    requires m == 10 * DigitValue(s[5]) + DigitValue(s[6]) && 1 <= m <= 12
    requires d == 10 * DigitValue(s[8]) + DigitValue(s[9]) && 1 <= d <= 31
    ensures IsIsoDate(s) && Year(s) == y && Month(s) == m && Day(s) == d
  {
    DateFields(s);
  }

  // ---------------------------------------------------------------------------
  // Kana usage classifier

  /** An array of one-character strings, one per character of `cs`. */
  function Table(cs: string): (t: seq<string>)
    ensures |t| == |cs| && forall i :: 0 <= i < |cs| ==> t[i] == [cs[i]]
  {
    seq(|cs|, i requires 0 <= i < |cs| => [cs[i]])
  }

  /** A string is in a table exactly when it is one of the table's characters. */
  lemma {:induction false} InTable(k: string, cs: string)
    ensures k in Table(cs) <==> |k| == 1 && k[0] in cs
  {
    if |k| == 1 && k[0] in cs {
      var i :| 0 <= i < |cs| && cs[i] == k[0];
      assert Table(cs)[i] == k;
    }
  }

  const CommercialChars: string := "あいうえおかきくけこ"
  const PrivateChars: string := "さしすせそたちつてとなにぬねのはひふへほまみむめもやゆよらりるれろ"
  const RentalChars: string := "われ"
  const MilitaryChars: string := "よ"
  const AlphaChars: string := "EHKMTY"

  const CommercialKana: seq<string> := Table(CommercialChars)
  const PrivateKana: seq<string> := Table(PrivateChars)
  const RentalKana: seq<string> := Table(RentalChars)
  const MilitaryKana: seq<string> := Table(MilitaryChars)
  const MilitaryAlpha: seq<string> := Table(AlphaChars)

  /** The commercial kana run from `あ` to `こ`, the private ones from `さ` to
      `ろ`: the two tables do not overlap. */
  lemma {:induction false} KanaRanges(c: char)
    ensures c in CommercialChars ==> 0x3042 <= c as int <= 0x3053
    ensures c in PrivateChars ==> 0x3055 <= c as int <= 0x308D
    ensures c in RentalChars ==> 0x308C <= c as int <= 0x308F
    ensures c in MilitaryChars ==> c as int == 0x3088
  {
    PrivateKanaRange(c);
  }

  lemma {:induction false} PrivateKanaRange(c: char)
    ensures c in PrivateChars ==> 0x3055 <= c as int <= 0x308D
  {
  }

  datatype Usage = Private | Commercial | Rental | Military

  /** The classification of a non-empty kana, tested in the source's order. */
  function Classify(kana: string): (u: Usage)
    ensures u == Military <==> Upper(kana) in MilitaryAlpha || kana in MilitaryKana
    ensures u == Rental <==> u != Military && kana in RentalKana
    ensures u == Commercial <==> u != Military && kana !in RentalKana && kana in CommercialKana
    ensures u == Private <==> u != Military && kana !in RentalKana && kana !in CommercialKana
  {
    if Upper(kana) in MilitaryAlpha then Military
    else if kana in MilitaryKana then Military
    else if kana in RentalKana then Rental
    else if kana in CommercialKana then Commercial
    else Private
  }

  /** The letters are military in either case. */
  lemma {:induction false} MilitaryLettersInEitherCase(k: string)
    requires k in MilitaryAlpha
    ensures Classify(k) == Military && Classify(Lower(k)) == Military
  {
    InTable(k, AlphaChars);
    assert Upper(Lower(k)) == k;
    assert Upper(k) == k;
  }

  /** A one-character kana is not a letter in either case. */
  lemma {:induction false} KanaIsNotALetter(k: string)
    requires |k| == 1 && 0x3041 <= k[0] as int <= 0x3096
    ensures Upper(k) !in MilitaryAlpha
  {
    InTable(Upper(k), AlphaChars);
  }

  /** `よ` is military and `わ`, `れ` are rental, though `よ` and `れ` are also
      listed as private. */
  lemma {:induction false} OverlappingKana()
    ensures Classify("よ") == Military && Classify("わ") == Rental && Classify("れ") == Rental
    ensures "よ" in PrivateKana && "れ" in PrivateKana
  {
    KanaIsNotALetter("よ");
    KanaIsNotALetter("わ");
    KanaIsNotALetter("れ");
    InTable("よ", MilitaryChars);
    InTable("わ", MilitaryChars);
    InTable("れ", MilitaryChars);
    InTable("わ", RentalChars);
    InTable("れ", RentalChars);
    InTable("よ", PrivateChars);
    InTable("れ", PrivateChars);
  }

  /** The first ten kana are commercial. */
  lemma {:induction false} CommercialKanaAreCommercial(k: string)
    requires k in CommercialKana
    ensures Classify(k) == Commercial
  {
    InTable(k, CommercialChars);
    KanaRanges(k[0]);
    KanaIsNotALetter(k);
    assert k !in MilitaryKana by { InTable(k, MilitaryChars); }
    assert k !in RentalKana by { InTable(k, RentalChars); }
  }

  /** Every other private kana is private. */
  lemma {:induction false} PrivateKanaArePrivate(k: string)
    requires k in PrivateKana && k != "よ" && k != "れ"
    ensures Classify(k) == Private
  {
    InTable(k, PrivateChars);
    var c := k[0];
    assert k == [c];
    KanaRanges(c);
    KanaIsNotALetter(k);
    assert k !in MilitaryKana by { InTable(k, MilitaryChars); }
    assert k !in RentalKana by { InTable(k, RentalChars); }
    assert k !in CommercialKana by { InTable(k, CommercialChars); }
  }

  /** The four counters of `usageDataMap`. */
  datatype UsageCounts = UsageCounts(privateCount: nat, commercial: nat, rental: nat, military: nat)

  function Bump(c: UsageCounts, u: Usage): UsageCounts {
    match u
    case Private => c.(privateCount := c.privateCount + 1)
    case Commercial => c.(commercial := c.commercial + 1)
    case Rental => c.(rental := c.rental + 1)
    case Military => c.(military := c.military + 1)
  }

  function CountTotal(c: UsageCounts): nat {
    c.privateCount + c.commercial + c.rental + c.military
  }

  /** The counts after every record: a record with an empty or missing kana is
      skipped, every other one adds one to the counter of its class. */
  function UsageTally(data: seq<ParkingData>): (counts: UsageCounts)
    ensures CountTotal(counts) <= |data|
    decreases |data|
  {
    if |data| == 0 then UsageCounts(0, 0, 0, 0)
    else
      var c := UsageTally(data[..|data| - 1]);
      var kana := data[|data| - 1].kana;
      if kana == "" then c else Bump(c, Classify(kana))
  }

  predicate HasKana(p: ParkingData) {
    p.kana != ""
  }

  /** The records with a kana of class `u`. */
  function OfUsage(u: Usage): ParkingData -> bool {
    (p: ParkingData) => p.kana != "" && Classify(p.kana) == u
  }

  /** The counter of class `u`. */
  function CounterOf(c: UsageCounts, u: Usage): nat {
    match u
    case Private => c.privateCount
    case Commercial => c.commercial
    case Rental => c.rental
    case Military => c.military
  }

  /** Each counter counts exactly the records with a kana of its class. */
  lemma {:induction false} UsageTallyByClass(data: seq<ParkingData>)
    ensures UsageTally(data) == UsageCounts(|Filter(data, OfUsage(Private))|, |Filter(data, OfUsage(Commercial))|,
                                            |Filter(data, OfUsage(Rental))|, |Filter(data, OfUsage(Military))|)
  {
    UsageCountOf(data, Private);
    UsageCountOf(data, Commercial);
    UsageCountOf(data, Rental);
    UsageCountOf(data, Military);
  }

  lemma {:induction false} UsageCountOf(data: seq<ParkingData>, u: Usage)
    ensures CounterOf(UsageTally(data), u) == |Filter(data, OfUsage(u))|
    decreases |data|
  {
    if |data| > 0 {
      var c, kana := UsageTally(data[..|data| - 1]), data[|data| - 1].kana;
      UsageCountOf(data[..|data| - 1], u);
      OfUsageLast(data, u);
      if kana != "" {
        assert UsageTally(data) == Bump(c, Classify(kana));
      } else {
        assert UsageTally(data) == c;
      }
    }
  }

  /** The last record adds one to the count of its own class only. */
  lemma {:induction false} OfUsageLast(data: seq<ParkingData>, u: Usage)
    requires |data| > 0
    ensures var x := data[|data| - 1];
            |Filter(data, OfUsage(u))| == |Filter(data[..|data| - 1], OfUsage(u))|
                                          + if x.kana != "" && Classify(x.kana) == u then 1 else 0
  {
    var p, x := data[..|data| - 1], data[|data| - 1];
    assert data == p + [x];
    FilterSnoc(p, x, OfUsage(u));
  }

  /** Counting one record adds one to the total, whatever its class. */
  lemma {:induction false} BumpTotal(c: UsageCounts, u: Usage)
    ensures CountTotal(Bump(c, u)) == CountTotal(c) + 1
  {
  }

  /** The four counts add up to the number of records with a kana. */
  lemma {:induction false} UsageTallySum(data: seq<ParkingData>)
    ensures CountTotal(UsageTally(data)) == |Filter(data, HasKana)|
    decreases |data|
  {
    if |data| > 0 {
      var p, x := data[..|data| - 1], data[|data| - 1];
      UsageTallySum(p);
      assert data == p + [x];
      FilterSnoc(p, x, HasKana);
      if x.kana != "" {
        assert UsageTally(data) == Bump(UsageTally(p), Classify(x.kana));
        BumpTotal(UsageTally(p), Classify(x.kana));
      } else {
        assert UsageTally(data) == UsageTally(p);
      }
    }
  }

  /** The `data.forEach` that fills `usageDataMap`. */
  method CountUsage(data: seq<ParkingData>) returns (counts: UsageCounts)
    ensures counts == UsageTally(data)
    ensures CountTotal(counts) == |Filter(data, HasKana)|
  {
    counts := UsageCounts(0, 0, 0, 0);
    var i := 0;
    while i < |data|
      invariant 0 <= i <= |data|
      invariant counts == UsageTally(data[..i])
    {
      assert data[..i + 1][..i] == data[..i];
      var kana := data[i].kana;
      if kana != "" {
        var u: Usage;
        if Upper(kana) in MilitaryAlpha {
          u := Military;
        } else if kana in MilitaryKana {
          u := Military;
        } else if kana in RentalKana {
          u := Rental;
        } else if kana in CommercialKana {
          u := Commercial;
        } else {
          u := Private;
        }
        counts := Bump(counts, u);
      }
      i := i + 1;
    }
    assert data[..|data|] == data;
    UsageTallySum(data);
  }

  /** One slice of a pie chart. */
  datatype Slice = Slice(name: string, value: nat)

  function SliceTotal(slices: seq<Slice>): nat
    decreases |slices|
  {
    if |slices| == 0 then 0 else slices[0].value + SliceTotal(slices[1..])
  }

  /** `usagePieData`: the four classes in a fixed order, each named in Japanese
      and carrying its own counter; the slices add up to the number of records
      with a kana. */
  function UsagePieData(c: UsageCounts): (slices: seq<Slice>)
    ensures slices == [Slice("自家用車", c.privateCount), Slice("商用車", c.commercial),
                       Slice("レンタカー", c.rental), Slice("その他", c.military)]
    ensures SliceTotal(slices) == CountTotal(c)
  {
    var military := [Slice("その他", c.military)];
    var rental := [Slice("レンタカー", c.rental)] + military;
    var commercial := [Slice("商用車", c.commercial)] + rental;
    assert SliceTotal(military) == c.military by { assert military[1..] == []; }
    assert rental[1..] == military && commercial[1..] == rental;
    assert SliceTotal(rental) == c.rental + c.military;
    assert SliceTotal(commercial) == c.commercial + c.rental + c.military;
    var all := [Slice("自家用車", c.privateCount)] + commercial;
    assert all[1..] == commercial;
    all
  }

  // ---------------------------------------------------------------------------
  // Region tally

  /** `item.city || '不明'`. */
  function RegionLabel(p: ParkingData): (r: string)
    ensures r != ""
    ensures p.city != "" ==> r == p.city
    ensures p.city == "" ==> r == "不明"
  {
    if p.city != "" then p.city else "不明"
  }

  function RegionLabels(data: seq<ParkingData>): (labels: seq<string>)
    ensures |labels| == |data|
    ensures forall i :: 0 <= i < |data| ==> labels[i] == RegionLabel(data[i])
  {
    seq(|data|, i requires 0 <= i < |data| => RegionLabel(data[i]))
  }

  /** `Object.entries(regionCount).map(([name, value]) => ({ name, value }))`,
      the entries taken in the order of `names`. */
  function SlicesOf(names: seq<string>, count: map<string, nat>): (slices: seq<Slice>)
    requires forall r :: r in names ==> r in count
    ensures |slices| == |names|
    ensures forall i :: 0 <= i < |names| ==> slices[i] == Slice(names[i], count[names[i]])
  {
    seq(|names|, i requires 0 <= i < |names| => Slice(names[i], count[names[i]]))
  }

  lemma {:induction false} SliceTotalOfTallies(names: seq<string>, count: map<string, nat>, s: seq<string>)
    requires forall r :: r in names ==> r in count && count[r] == multiset(s)[r]
    ensures SliceTotal(SlicesOf(names, count)) == SumMultiplicities(names, s)
    decreases |names|
  {
    if |names| > 0 {
      var rest := names[1..];
      SliceTotalOfTallies(rest, count, s);
      assert SlicesOf(names, count)[1..] == SlicesOf(rest, count);
    }
  }

  /** The `regionCount` loop and `regionPieData`: one slice per region label in
      order of first occurrence, valued by how many records carry it; the slices
      add up to the number of records. */
  method RegionPieData(data: seq<ParkingData>) returns (slices: seq<Slice>)
    ensures |slices| == |Dedup(RegionLabels(data))|
    ensures forall i :: 0 <= i < |slices| ==>
              slices[i].name == Dedup(RegionLabels(data))[i]
              && slices[i].value == multiset(RegionLabels(data))[slices[i].name]
    ensures SliceTotal(slices) == |data|
  {
    var names, regionCount := CountRegions(data);
    TallyDone(RegionLabels(data), names, regionCount);
    slices := SlicesOf(names, regionCount);
  }

  /** The `data.forEach` that fills `regionCount`, with the order in which its
      keys were first set. */
  method CountRegions(data: seq<ParkingData>) returns (names: seq<string>, regionCount: map<string, nat>)
    ensures TallyUpTo(RegionLabels(data), names, regionCount, |data|)
  {
    ghost var labels := RegionLabels(data);
    names, regionCount := [], map[];
    var i := 0;
    while i < |data|
      invariant 0 <= i <= |data|
      invariant TallyUpTo(labels, names, regionCount, i)
    {
      var region := RegionLabel(data[i]);
      assert region == labels[i];
      if region in regionCount {
        TallyKnown(labels, names, regionCount, i);
        regionCount := regionCount[region := regionCount[region] + 1];
      } else {
        TallyNew(labels, names, regionCount, i);
        names := names + [region];
        regionCount := regionCount[region := 1];
      }
      i := i + 1;
    }
  }

  /** The `regionCount` loop after `i` records: the labels met so far in order
      of first occurrence, each with how often it occurred so far. */
  ghost predicate TallyUpTo(labels: seq<string>, names: seq<string>, counts: map<string, nat>, i: nat)
    requires i <= |labels|
  {
    && names == FirstUpTo(labels, i)
    && (forall r :: r in counts <==> r in names)
    && (forall r :: r in counts ==> counts[r] == CountUpTo(labels, r, i))
  }

  /** One record counted under a label already met: its count goes up by one. */
  lemma {:induction false} TallyKnown(labels: seq<string>, names: seq<string>, counts: map<string, nat>, i: nat)
    requires i < |labels| && TallyUpTo(labels, names, counts, i) && labels[i] in counts
    ensures TallyUpTo(labels, names, counts[labels[i] := counts[labels[i]] + 1], i + 1)
  {
    FirstUpToMembers(labels, labels[i], i);
  }

  /** One record counted under a new label: the label is appended with count one. */
  lemma {:induction false} TallyNew(labels: seq<string>, names: seq<string>, counts: map<string, nat>, i: nat)
    requires i < |labels| && TallyUpTo(labels, names, counts, i) && labels[i] !in counts
    ensures TallyUpTo(labels, names + [labels[i]], counts[labels[i] := 1], i + 1)
  {
    FirstUpToMembers(labels, labels[i], i);
  }

  /** All records counted: the names are the distinct labels, each counted by
      its multiplicity, and the counts add up to the number of labels. */
  lemma {:induction false} TallyDone(labels: seq<string>, names: seq<string>, counts: map<string, nat>)
    requires TallyUpTo(labels, names, counts, |labels|)
    ensures names == Dedup(labels)
    ensures forall r :: r in names ==> r in counts && counts[r] == multiset(labels)[r]
    ensures SliceTotal(SlicesOf(names, counts)) == |labels|
  {
    assert labels[..|labels|] == labels;
    FirstUpToDedup(labels, |labels|);
    forall r | r in counts
      ensures counts[r] == multiset(labels)[r]
    {
      CountUpToMultiset(labels, r, |labels|);
    }
    SliceTotalOfTallies(names, counts, labels);
    TalliesSumToLength(labels);
  }
}
