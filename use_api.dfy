/** src/hooks/useApi.ts: the date-window filter every dashboard applies to its
    records, and the query string the hooks append to the API URL. The fetch,
    the loading and error flags and the effect scheduling are not modelled. */
module UseApi {
  import opened Wrappers
  import opened Seqs
  import opened Strings

  /** What the filter reads of an item: `item.timestamp` (the empty string when
      the item has none) and `item.date`. */
  datatype Stamp = Stamp(timestamp: string, date: Option<string>)

  /** The value handed to the filter: a JSON array of items, or something else. */
  datatype Input<T> = Array(items: seq<T>) | NotArray

  /** `timestamp.split(' ')[0]`: the text before the first space, or all of it. */
  function DatePart(timestamp: string): (d: string)
    ensures d <= timestamp && ' ' !in d
    ensures |d| == |timestamp| || timestamp[|d|] == ' '
  {
    Split(timestamp, ' ')[0]
  }

  /** The date part of `"<date> <rest>"` is `<date>`. */
  lemma {:induction false} DatePartOf(date: string, rest: string)
    requires ' ' !in date
    ensures DatePart(date + " " + rest) == date
  {
    SplitPrefix(date, rest, ' ');
  }

  /** The date part of an item:
      `item.timestamp ? item.timestamp.split(' ')[0] : item.date`. */
  function ItemDate(st: Stamp): (d: Option<string>)
    ensures st.timestamp != "" ==> d.Some? && d.value <= st.timestamp && ' ' !in d.value
                                   && (|d.value| == |st.timestamp| || st.timestamp[|d.value|] == ' ')
    ensures st.timestamp == "" ==> d == st.date
  {
    if st.timestamp != "" then Some(DatePart(st.timestamp)) else st.date
  }

  /** The selection a filter applies: an inclusive range of dates, one date, or
      no restriction at all. */
  datatype Window = Range(start: string, end: string) | Single(date: string) | Unfiltered

  /** The branch `filterDataByDateRange` takes for its arguments. */
  function ResolveWindow(isRangeMode: bool, startDate: Option<string>, endDate: Option<string>,
                         singleDate: Option<string>): (w: Window)
    ensures w.Range? <==> isRangeMode && Present(startDate) && Present(endDate)
    ensures w.Range? ==> w.start == startDate.value && w.end == endDate.value
    ensures w.Single? <==> !isRangeMode && Present(singleDate)
    ensures w.Single? ==> w.date == singleDate.value
  {
    if isRangeMode && Present(startDate) && Present(endDate) then Range(startDate.value, endDate.value)
    else if !isRangeMode && Present(singleDate) then Single(singleDate.value)
    else Unfiltered
  }

  /** Whether a date part passes a window. A missing date part compares false
      with every string (`undefined >= s` and `undefined === s` are false). */
  predicate InWindow(w: Window, d: Option<string>) {
    match w
    case Range(s, e) => d.Some? && LexLe(s, d.value) && LexLe(d.value, e)
    case Single(x) => d == Some(x)
    case Unfiltered => true
  }

  /** The callback handed to `data.filter`. */
  function Keep<T>(w: Window, stamp: T -> Stamp): T -> bool {
    x => InWindow(w, ItemDate(stamp(x)))
  }

  /** `filterDataByDateRange(data, startDate, endDate, isRangeMode, singleDate)`. */
  function FilterDataByDateRange<T(==,!new)>(data: Input<T>, stamp: T -> Stamp,
                                          startDate: Option<string>, endDate: Option<string>,
                                          isRangeMode: bool, singleDate: Option<string>): (r: seq<T>)
    ensures data.NotArray? ==> r == []
    ensures data.Array? && ResolveWindow(isRangeMode, startDate, endDate, singleDate).Unfiltered?
            ==> r == data.items
    ensures data.Array? ==> Selects(r, data.items, Keep(ResolveWindow(isRangeMode, startDate, endDate, singleDate), stamp))
  {
    if data.NotArray? then []
    else
      var w := ResolveWindow(isRangeMode, startDate, endDate, singleDate);
      if w.Unfiltered? then
        FilterKeepsAll(data.items, Keep(w, stamp));
        data.items
      else Filter(data.items, Keep(w, stamp))
  }

  /** In range mode with both bounds, an item is kept exactly when its date part
      `d` satisfies `startDate <= d <= endDate`; in single mode with a date, exactly
      when `d` is that date. */
  lemma {:induction false} FilterKeepsWindowMembers<T(!new)>(items: seq<T>, stamp: T -> Stamp,
                                          startDate: Option<string>, endDate: Option<string>,
                                          isRangeMode: bool, singleDate: Option<string>, x: T)
    requires x in items
    ensures var r := FilterDataByDateRange(Array(items), stamp, startDate, endDate, isRangeMode, singleDate);
            var d := ItemDate(stamp(x));
            && (isRangeMode && Present(startDate) && Present(endDate) ==>
                  (x in r <==> d.Some? && LexLe(startDate.value, d.value) && LexLe(d.value, endDate.value)))
            && (!isRangeMode && Present(singleDate) ==> (x in r <==> d == singleDate))
  {
    var r := FilterDataByDateRange(Array(items), stamp, startDate, endDate, isRangeMode, singleDate);
    assert multiset(items)[x] > 0;
    assert x in r <==> multiset(r)[x] > 0;
  }

  /** Filtering an already filtered list with the same arguments changes nothing. */
  lemma {:induction false} FilterDataIdempotent<T(!new)>(items: seq<T>, stamp: T -> Stamp,
                                      startDate: Option<string>, endDate: Option<string>,
                                      isRangeMode: bool, singleDate: Option<string>)
    ensures var once := FilterDataByDateRange(Array(items), stamp, startDate, endDate, isRangeMode, singleDate);
            FilterDataByDateRange(Array(once), stamp, startDate, endDate, isRangeMode, singleDate) == once
  {
    var w := ResolveWindow(isRangeMode, startDate, endDate, singleDate);
    if !w.Unfiltered? {
      FilterIdempotent(items, Keep(w, stamp));
    }
  }

  /** A range whose two ends are the same date selects what the single-date
      filter on that date selects. */
  lemma {:induction false} DegenerateRangeIsSingleDate<T(!new)>(items: seq<T>, stamp: T -> Stamp, date: string)
    requires date != ""
    ensures FilterDataByDateRange(Array(items), stamp, Some(date), Some(date), true, None)
            == FilterDataByDateRange(Array(items), stamp, None, None, false, Some(date))
  {
    forall i | 0 <= i < |items|
      ensures Keep(Range(date, date), stamp)(items[i]) == Keep(Single(date), stamp)(items[i])
    {
      var d := ItemDate(stamp(items[i]));
      if d.Some? {
        LexLeReflexive(date);
        if LexLe(date, d.value) && LexLe(d.value, date) {
          LexLeAntisymmetric(date, d.value);
        }
      }
    }
    FilterExtensional(items, Keep(Range(date, date), stamp), Keep(Single(date), stamp));
  }

  /** An inverted range, `endDate < startDate`, selects nothing. */
  lemma {:induction false} InvertedRangeIsEmpty<T(!new)>(items: seq<T>, stamp: T -> Stamp, startDate: string, endDate: string)
    requires startDate != "" && endDate != ""
    requires LexLt(endDate, startDate)
    ensures FilterDataByDateRange(Array(items), stamp, Some(startDate), Some(endDate), true, None) == []
  {
    forall i | 0 <= i < |items|
      ensures !Keep(Range(startDate, endDate), stamp)(items[i])
    {
      var d := ItemDate(stamp(items[i]));
      if d.Some? && LexLe(startDate, d.value) && LexLe(d.value, endDate) {
        LexLeTransitive(startDate, d.value, endDate);
        assert false;
      }
    }
    FilterKeepsNone(items, Keep(Range(startDate, endDate), stamp));
  }

  const ApiBaseUrl: string := "http://localhost:3001/api"

  datatype Resource = TrafficResource | ParkingResource

  /** The query string `useTrafficData` and `useParkingData` append to the URL. */
  function Query(isRangeMode: bool, startDate: Option<string>, endDate: Option<string>, date: Option<string>): (q: string)
    ensures isRangeMode && Present(startDate) && Present(endDate) ==>
              q == "?startDate=" + startDate.value + "&endDate=" + endDate.value
    ensures !isRangeMode && Present(date) ==> q == "?date=" + date.value
    ensures q == "" <==> ResolveWindow(isRangeMode, startDate, endDate, date).Unfiltered?
  {
    if isRangeMode && Present(startDate) && Present(endDate) then
      "?startDate=" + startDate.value + "&endDate=" + endDate.value
    else if !isRangeMode && Present(date) then
      "?date=" + date.value
    else ""
  }

  /** The path each hook appends to the base URL. */
  function ResourcePath(resource: Resource): (path: string)
    ensures |path| == 8 && path[0] == '/' && '?' !in path
  {
    match resource
    case TrafficResource => "/traffic"
    case ParkingResource => "/parking"
  }

  /** The URL a hook fetches from: the base URL, then the hook's own resource
      path, then the query of the filter's branch. A URL carries a query
      exactly when the filter restricts the records, and the traffic and parking
      hooks never ask for the same URL. */
  function RequestUrl(resource: Resource, isRangeMode: bool, startDate: Option<string>,
                      endDate: Option<string>, date: Option<string>): (url: string)
    ensures |url| >= |ApiBaseUrl| + 8 && url[..|ApiBaseUrl|] == ApiBaseUrl
    ensures url[|ApiBaseUrl|..|ApiBaseUrl| + 8] == ResourcePath(resource)
    ensures url[|ApiBaseUrl| + 8..] == Query(isRangeMode, startDate, endDate, date)
    ensures '?' in url <==> !ResolveWindow(isRangeMode, startDate, endDate, date).Unfiltered?
  {
    var path := ResourcePath(resource);
    var q := Query(isRangeMode, startDate, endDate, date);
    var url := ApiBaseUrl + path + q;
    assert url[..|ApiBaseUrl|] == ApiBaseUrl;
    assert url[|ApiBaseUrl|..|ApiBaseUrl| + 8] == path;
    assert url[|ApiBaseUrl| + 8..] == q;
    assert '?' !in ApiBaseUrl + path;
    assert q != "" ==> q[0] == '?' && url[|ApiBaseUrl| + 8] == '?';
    url
  }

  /** The traffic and parking hooks never fetch the same URL. */
  lemma {:induction false} RequestUrlsDiffer(isRangeMode: bool, startDate: Option<string>,
                                            endDate: Option<string>, date: Option<string>)
    ensures RequestUrl(TrafficResource, isRangeMode, startDate, endDate, date)
            != RequestUrl(ParkingResource, isRangeMode, startDate, endDate, date)
  {
    var t := RequestUrl(TrafficResource, isRangeMode, startDate, endDate, date);
    var p := RequestUrl(ParkingResource, isRangeMode, startDate, endDate, date);
    assert t[|ApiBaseUrl| + 1] == 't' && p[|ApiBaseUrl| + 1] == 'p';
  }
}
