/** src/components/TrafficDataTable.tsx: the row highlighting of slow traffic,
    the speed cell's congestion marker, the vehicle-type and direction labels and
    the split of a timestamp into its date and time lines. The generic table it
    renders into (paging, sorting) is not modelled. */
module TrafficDataTable {
  import opened Wrappers
  import opened Strings
  import opened Types

  /** Speeds at or below 30 km/h count as congestion. */
  const CongestionLimit: real := 30.0

  predicate IsCongested(speedKmh: real) {
    speedKmh <= CongestionLimit
  }

  const CongestedRowClass: string := "bg-red-50"

  /** A record of `highlightedData`: the record's own fields plus `rowClass`. */
  datatype HighlightedRow = HighlightedRow(item: TrafficData, rowClass: string)

  /** `data.map(item => ({ ...item, rowClass: item.speed_kmh <= 30 ? 'bg-red-50' : '' }))`. */
  function HighlightedData(data: seq<TrafficData>): (rows: seq<HighlightedRow>)
    ensures |rows| == |data|
    ensures forall i :: 0 <= i < |data| ==> rows[i].item == data[i]
    ensures forall i :: 0 <= i < |data| ==>
              (rows[i].rowClass == CongestedRowClass <==> IsCongested(data[i].speedKmh))
    ensures forall i :: 0 <= i < |data| ==> (rows[i].rowClass == "" <==> !IsCongested(data[i].speedKmh))
  {
    seq(|data|, i requires 0 <= i < |data| =>
      HighlightedRow(data[i], if IsCongested(data[i].speedKmh) then CongestedRowClass else ""))
  }

  /** The rendered speed cell: its text style and whether the 渋滞中 marker shows. */
  datatype SpeedCell = SpeedCell(style: string, marker: Option<string>)

  function SpeedCellOf(speedKmh: real): (cell: SpeedCell)
    ensures cell.marker.Some? <==> IsCongested(speedKmh)
    ensures cell.marker.Some? ==> cell.marker.value == "渋滞中"
    ensures cell.style == (if IsCongested(speedKmh) then "text-center text-red-600 font-bold" else "text-center text-gray-900")
  {
    if IsCongested(speedKmh) then SpeedCell("text-center text-red-600 font-bold", Some("渋滞中"))
    else SpeedCell("text-center text-gray-900", None)
  }

  /** A row is highlighted exactly when its speed cell carries the congestion
      marker: both use the same threshold. */
  lemma {:induction false} HighlightAgreesWithMarker(data: seq<TrafficData>, i: nat)
    requires i < |data|
    ensures HighlightedData(data)[i].rowClass == CongestedRowClass
            <==> SpeedCellOf(HighlightedData(data)[i].item.speedKmh).marker.Some?
  {
  }

  /** Highlighting is the identity on the records: dropping `rowClass` gives the
      input back. */
  lemma {:induction false} HighlightKeepsRecords(data: seq<TrafficData>)
    ensures seq(|data|, i requires 0 <= i < |data| => HighlightedData(data)[i].item) == data
  {
  }

  /** `getVehicleTypeLabel`: car, truck and bus in Japanese, any other type as it is. */
  function VehicleTypeLabel(className: string): (shown: string)
    ensures className == "car" ==> shown == "乗用車"
    ensures className == "truck" ==> shown == "トラック"
    ensures className == "bus" ==> shown == "バス"
    ensures className !in {"car", "truck", "bus"} ==> shown == className
  {
    if className == "car" then "乗用車"
    else if className == "truck" then "トラック"
    else if className == "bus" then "バス"
    else className
  }

  /** No label is itself a key of the table, so labelling a label changes nothing. */
  lemma {:induction false} VehicleTypeLabelIdempotent(className: string)
    ensures VehicleTypeLabel(VehicleTypeLabel(className)) == VehicleTypeLabel(className)
  {
  }

  datatype VehicleIcon = CarBlue | TruckGreen | BusOrange | CarGray

  /** `getVehicleIcon`: a grey car for every type but the three known ones. */
  function VehicleIconOf(className: string): (icon: VehicleIcon)
    ensures icon == CarGray <==> className !in {"car", "truck", "bus"}
    ensures icon == CarBlue <==> className == "car"
    ensures icon == TruckGreen <==> className == "truck"
    ensures icon == BusOrange <==> className == "bus"
  {
    match className
    case "car" => CarBlue
    case "truck" => TruckGreen
    case "bus" => BusOrange
    case _ => CarGray
  }

  /** The direction badge: 'R' is 右 in blue, every other value 左 in green. */
  datatype DirectionBadge = DirectionBadge(style: string, text: string)

  function DirectionBadgeOf(direction: string): (b: DirectionBadge)
    ensures b.text == "右" <==> direction == "R"
    ensures b.text == "左" <==> direction != "R"
    ensures b.style == "bg-blue-100 text-blue-800" <==> b.text == "右"
  {
    if direction == "R" then DirectionBadge("bg-blue-100 text-blue-800", "右")
    else DirectionBadge("bg-green-100 text-green-800", "左")
  }

  /** The timestamp cell: the time (`value.split(' ')[1]`, absent when there is
      no space) above the date (`value.split(' ')[0]`). */
  datatype TimestampCell = TimestampCell(time: Option<string>, date: string)

  function TimestampCellOf(value: string): (cell: TimestampCell)
    ensures cell.time.Some? <==> ' ' in value
    ensures ' ' !in cell.date
  {
    var parts := Split(value, ' ');
    TimestampCell(if |parts| >= 2 then Some(parts[1]) else None, parts[0])
  }

  /** For a timestamp of the form "date time", the two lines of the cell put back
      together with a space are the timestamp. */
  lemma {:induction false} TimestampCellRejoins(value: string)
    requires |Split(value, ' ')| == 2
    ensures var cell := TimestampCellOf(value);
            cell.time.Some? && cell.date + " " + cell.time.value == value
  {
    var parts := Split(value, ' ');
    JoinSplit(value, ' ');
    assert Join(parts, [' ']) == parts[0] + [' '] + Join(parts[1..], [' ']);
    assert Join(parts[1..], [' ']) == parts[1];
  }
}
