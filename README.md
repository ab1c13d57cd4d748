# Rokko–Maya traffic survey dashboard, modelled in Dafny

The dashboard shows vehicle detections from a mountain road and a car park, gathered by
roadside Jetson Nano cameras. It reads the records from a local API or from uploaded CSV
files, narrows them to one day or a date range, and charts them. This project models the
logic behind the charts, not the rendering.

- **Date-window filter** (`src/hooks/useApi.ts`): which records a dashboard keeps for one
  day or an inclusive date range, and the query string it sends to the API.
- **CSV store** (`src/hooks/useCsvData.ts`): a two-slot store, one slot for traffic and one
  for parking, with the date selection `getCsvData` applies when a slot is read.
- **CSV uploader** (`src/components/CsvUploader.tsx`): the checks and parsing in
  `handleFile`, from a file name and its text to an error message or a list of rows, and
  the status the component shows.
- **Parking dashboard** (`src/components/ParkingDashboard.tsx`):
  - the hourly and daily time series of entries, exits and occupancy;
  - the rule that picks hours or days;
  - the licence-plate kana classifier and its pie data;
  - the region tally.
- **Page state** (`src/App.tsx`): the selected date, the date range, the range-mode toggle,
  and what each dashboard tab receives.
- **Weather widget** (`src/components/WeatherWidget.tsx`): which day's weather the card
  shows, the rounded averages in range mode, the labels and the "no data" card.
- **Traffic table** (`src/components/TrafficDataTable.tsx`): highlighting of congested rows
  at 30 km/h or below, and the cell labels.
- **Traffic chart** (`src/components/TrafficDashboard.tsx`): the split of the speed line
  into a normal series and a congested series.

Helper modules: `Seqs` (`Array.prototype.filter`, de-duplication, counting), `Strings`
(JavaScript string order, `split`/`join`, `trim`, case mapping), `Numbers` (`Math.round`,
the sum and mean of readings), `CivilDate` (`new Date("YYYY-MM-DD")` as a day number), `Types`
(`src/types/index.ts`) and `Wrappers` (`Option`, `Result`).

How JavaScript is modelled:

- JavaScript strings are `seq<char>`, one `char` per UTF-16 code unit, compared unit by unit
  with `Strings.LexLe` as JavaScript's relational operators do.
- An optional string is `Option<string>`. `Present` is JavaScript truthiness: the string
  exists and is not empty.
- State that React keeps and updates becomes a class: `CsvStore`, `Uploader` and `App`.
  Each of their methods says exactly what it changes.
- The loops that fill objects key by key become methods with loop invariants: `Group`,
  `CountUsage`, `CountRegions`, `BuildRow` and `BuildRows`. Each is proved equal to a
  function, or to a predicate of the state after the loop, that states what it computes.

Where the system's documentation and the code differ, the model follows the code:

- A window of three calendar days, from day *d* to day *d + 2*, is charted by the hour, not
  by the day. The difference it computes is 2, and the code switches to days only at 3 or
  more (`ParkingDashboard.ThreeDayWindowIsHourly`).
- `Math.round` rounds halves toward +infinity, not away from zero (`Numbers.RoundDiv`,
  `Numbers.Round`).
- A parking record whose timestamp has no time part is not dropped. It makes the hourly
  aggregation throw, so having a time part is a precondition (`ParkingDashboard.Bucketable`).
- A record with an empty or missing kana is skipped, not counted as private
  (`ParkingDashboard.UsageTallySum`).

## Model

| member | source | states |
|---|---|---|
| UseApi.FilterDataByDateRange | src/hooks/useApi.ts:7-25 | Input that is not an array gives `[]`. With no usable window (range mode missing a bound, or single mode without a date) the array comes back unchanged. Otherwise the result is exactly the items whose date part passes the window: each kept item once, in input order. |
| UseApi.FilterKeepsWindowMembers | src/hooks/useApi.ts:13-22 | In range mode an item is kept iff `startDate <= d <= endDate` in string order, where `d` is its date part. In single mode it is kept iff `d` equals the date. |
| UseApi.FilterDataIdempotent | src/hooks/useApi.ts:7-25 | Filtering an already filtered list with the same arguments changes nothing. |
| UseApi.DegenerateRangeIsSingleDate | src/hooks/useApi.ts:13-22 | A range whose two ends are the same date selects what the single-date filter on that date selects. |
| UseApi.InvertedRangeIsEmpty | src/hooks/useApi.ts:13-17 | A range with `endDate < startDate` selects nothing. |
| UseApi.Query | src/hooks/useApi.ts:52-57 | The query is `?startDate=…&endDate=…` in range mode with both bounds, and `?date=…` in single mode with a date. It is empty exactly when the filter is unrestricted. |
| UseApi.DatePart | src/hooks/useCsvData.ts:58-63 | `timestamp.split(' ')[0]` is the prefix of the timestamp that has no space and ends at the first space, or at the end of the string when there is none. The same date part is read by `getCsvData` and by the hook's filter. |
| UseApi.DatePartOf | src/hooks/useApi.ts:15 | The date part of `"<date> <rest>"`, for a `date` without a space, is `date`. |
| UseApi.ItemDate | src/hooks/useApi.ts:15-20 | An item with a timestamp is dated by the timestamp's text before its first space: a space-free prefix ending at the first space or at the end. An item without a timestamp is dated by its `date` field. |
| UseApi.ResolveWindow | src/hooks/useApi.ts:13-24 | The filter takes the range branch exactly in range mode with both bounds set and non-empty, the single-date branch exactly outside range mode with a non-empty date, and no filter otherwise; each branch carries the arguments it compares with. |
| UseApi.RequestUrl | src/hooks/useApi.ts:52-57 | The URL is the API base URL, then `/traffic` for the traffic hook or `/parking` for the parking hook, then exactly the query of the filter's branch. It contains a `?` exactly when the filter restricts the records. |
| UseApi.RequestUrlsDiffer | src/hooks/useApi.ts:52-57 | For the same arguments the traffic and parking hooks never request the same URL. |
| UseCsvData.SelectCsvRows | src/hooks/useCsvData.ts:51-68 | Returns the whole slot when there is no date and range mode is off, or when the window is unusable. Otherwise returns exactly the rows whose timestamp date part passes the window that `filterDataByDateRange` resolves from the same arguments, in order. |
| UseCsvData.SelectCsvRowsMembers | src/hooks/useCsvData.ts:56-65 | In range mode a row is selected iff `startDate <= d <= endDate`. In single mode it is selected iff `d` is the date. In range mode without both bounds the whole slot is returned. |
| UseCsvData.CsvStore.GetCsvData | src/hooks/useCsvData.ts:44-69 | Reading a slot returns the whole slot when the window is unrestricted, and otherwise exactly the slot's rows whose timestamp date part passes the window, each once and in order. |
| UseCsvData.CsvStore.constructor | src/hooks/useCsvData.ts:10-18 | Both slots start empty and both "using CSV" flags start false. |
| UseCsvData.CsvStore.Upload | src/hooks/useCsvData.ts:20-30 | The slot becomes exactly the uploaded rows and its flag is set. The other slot and its flag are unchanged. |
| UseCsvData.CsvStore.Clear | src/hooks/useCsvData.ts:32-42 | The slot is emptied and its flag cleared. The other slot and its flag are unchanged. |
| CsvUploader.ExpectedColumns | src/components/CsvUploader.tsx:15-19 | Each type expects at least four distinct columns, among them every column it converts to a number, and its first column is the one the date filters read (`date` for weather, `timestamp` otherwise). |
| CsvUploader.Convert | src/components/CsvUploader.tsx:80-96 | The stored value keeps its cell. It is text exactly when the column is not one of the type's numeric columns, and read with `parseFloat` exactly for `avg_speed` of traffic and `occupancy_rate` of parking; the other numeric columns are read with `parseInt`. |
| CsvUploader.Fields | src/components/CsvUploader.tsx:76 | One field per comma-separated piece of the line: field `i` is piece `i` trimmed of white space at both ends and stripped of every double quote, so no field contains one. |
| CsvUploader.CleanFieldUnquotes | src/components/CsvUploader.tsx:76 | A clean value written between double quotes is read back without them. |
| CsvUploader.CleanFieldKeepsClean | src/components/CsvUploader.tsx:76 | Cleaning leaves an already clean field unchanged. |
| CsvUploader.FieldsOfJoin | src/components/CsvUploader.tsx:76 | Joining clean fields with commas and cleaning the line again gives back the same fields. |
| CsvUploader.RowOfContents | src/components/CsvUploader.tsx:77-99 | A row has exactly the header names as keys. For a repeated column name, the last column wins. The value is the cell at that column, or `undefined` past the end of a short line, and it is text iff the column is not numeric. |
| CsvUploader.RowUpToContents | src/components/CsvUploader.tsx:77-99 | After the first `n` headers the row's keys are exactly those headers, each holding the converted cell under its last occurrence so far. |
| CsvUploader.BuildRow | src/components/CsvUploader.tsx:77-99 | The `headers.forEach` loop builds exactly the row `RowOf` describes. |
| CsvUploader.BuildRows | src/components/CsvUploader.tsx:75-100 | The `lines.slice(1).map` gives exactly the rows of the lines after the header. |
| CsvUploader.Parse | src/components/CsvUploader.tsx:47-100 | A name not ending in `.csv`, in any case, gives the "not CSV" error. Fewer than two lines gives the "no data" error. Otherwise the missing columns are reported in `expectedColumns` order. Parsing succeeds iff the name and line count pass and every expected column is in the header (extra columns are accepted). On success there is one row per line after the header, blank lines included, and row `i` is line `i + 1` read under the header. |
| CsvUploader.MissingColumnsReported | src/components/CsvUploader.tsx:67-73 | An expected column missing from the header makes the upload fail and is listed. A failure past the name and line checks lists exactly the expected columns that are absent. |
| CsvUploader.Message | src/components/CsvUploader.tsx:49-73 | The wrong-extension and no-data errors have their fixed Japanese sentences; the missing-columns error is its fixed prefix followed by the missing columns joined with `, `. |
| CsvUploader.Uploader.constructor | src/components/CsvUploader.tsx:11-12 | The status starts idle and the message empty. |
| CsvUploader.Uploader.HandleFile | src/components/CsvUploader.tsx:47-116 | On failure the status is error, the message is that error's exact Japanese text, and the store is untouched. On success the status is success and the rows replace the type's slot with its flag set, leaving the other slot alone. |
| ParkingDashboard.BucketKey | src/components/ParkingDashboard.tsx:102-127 | The daily key is the timestamp's text before its first space: a space-free prefix ending at the first space or at the end. The hourly key ends in `:00` after a part with no space and no colon. |
| ParkingDashboard.DayKeyOf | src/components/ParkingDashboard.tsx:127 | The daily bucket of `"<date> <rest>"` is `<date>`. |
| ParkingDashboard.HourKeyOf | src/components/ParkingDashboard.tsx:102 | The hourly bucket of `"<date> <hour>:<rest>"` is `"<hour>:00"`. |
| ParkingDashboard.Group | src/components/ParkingDashboard.tsx:100-108 | The loop's keys are the distinct bucket keys in order of first occurrence. Each bucket holds the number of its records going in, going out and in total. The totals add up to the number of records. |
| ParkingDashboard.GroupedDone | src/components/ParkingDashboard.tsx:100-108 | Once every record is counted, the buckets are exactly those `Group` promises: distinct keys in order, exact counters and totals adding up to the number of records. |
| ParkingDashboard.BucketCountsBounded | src/components/ParkingDashboard.tsx:105-107 | In every bucket, entries plus exits are at most the total. |
| ParkingDashboard.Occupancy | src/components/ParkingDashboard.tsx:115-118 | The result is `Math.round(100 * (entry - exit) / total)`, rounding halves up, and 0 for an empty bucket. It lies in [-100, 100] when entries and exits fit in the total. |
| ParkingDashboard.SortByTime | src/components/ParkingDashboard.tsx:120 | The result is sorted by time and is a permutation of the points. |
| ParkingDashboard.SortedDistinctIsStrict | src/components/ParkingDashboard.tsx:110-120 | Sorting points whose times all differ orders them strictly. |
| ParkingDashboard.PointsOfGroups | src/components/ParkingDashboard.tsx:110-119 | `Object.entries(grouped).map(...)`, in any order, gives one point per bucket key that occurs, carrying that bucket's counters. |
| ParkingDashboard.TimeSeriesBounds | src/components/ParkingDashboard.tsx:110-119 | Every point stands for at least one record, counts no more entries and exits than records, and has an occupancy in [-100, 100]. |
| ParkingDashboard.Aggregate | src/components/ParkingDashboard.tsx:99-121 | Grouping, mapping and sorting give a time series: strictly ascending times, exactly the bucket keys that occur, one point per key, and each point its bucket's counts. |
| ParkingDashboard.AggregateHourlyData | src/components/ParkingDashboard.tsx:99-121 | The result is the hourly time series of the records. |
| ParkingDashboard.AggregateDailyData | src/components/ParkingDashboard.tsx:124-146 | The result is the daily time series of the records. |
| ParkingDashboard.TimeSeriesUnique | src/components/ParkingDashboard.tsx:99-146 | The time series of a list of records is unique. Two series meeting the promise are equal, whatever order the object's keys were listed in. |
| ParkingDashboard.DayDifference | src/components/ParkingDashboard.tsx:151-153 | The difference in days is defined iff both dates are valid `YYYY-MM-DD`, and it is then the difference of their day numbers. |
| ParkingDashboard.ChooseGranularity | src/components/ParkingDashboard.tsx:149-158 | Days are chosen iff range mode is on, both dates are set and valid, and they are at least three days apart. Hours are chosen otherwise. |
| ParkingDashboard.ThreeDayWindowIsHourly | src/components/ParkingDashboard.tsx:155 | A window from day *d* to day *d + 2* of one month is charted by the hour. |
| ParkingDashboard.LeapYearWindow | src/components/ParkingDashboard.tsx:151-155 | 2024-02-28 to 2024-03-02 spans three days (2024 is a leap year) and is charted by the day. |
| ParkingDashboard.CommonYearWindow | src/components/ParkingDashboard.tsx:151-155 | The same dates in 2023 are two days apart and are charted by the hour. |
| ParkingDashboard.InTable | src/components/ParkingDashboard.tsx:161-169 | A string is in a kana table iff it is one of the table's characters. |
| ParkingDashboard.KanaRanges | src/components/ParkingDashboard.tsx:161-168 | Each kana table lies in its own code-point range. |
| ParkingDashboard.MilitaryLettersInEitherCase | src/components/ParkingDashboard.tsx:184 | E, H, K, M, T and Y are military in either case. |
| ParkingDashboard.KanaIsNotALetter | src/components/ParkingDashboard.tsx:184 | A hiragana is never taken for one of the military letters. |
| ParkingDashboard.OverlappingKana | src/components/ParkingDashboard.tsx:185-188 | `よ` is military and `れ` is rental, although both are also in the private table; `わ` is rental. |
| ParkingDashboard.CommercialKanaAreCommercial | src/components/ParkingDashboard.tsx:187 | The ten kana `あ` to `こ` are commercial. |
| ParkingDashboard.PrivateKanaArePrivate | src/components/ParkingDashboard.tsx:188 | Every other kana of the private table is private. |
| ParkingDashboard.Classify | src/components/ParkingDashboard.tsx:179-188 | Military iff the upper-cased kana is a military letter or the kana is `よ`; otherwise rental iff in the rental table; otherwise commercial iff in the commercial table; private in every other case. |
| ParkingDashboard.UsageTally | src/components/ParkingDashboard.tsx:176-191 | The four counts together never exceed the number of records. |
| ParkingDashboard.UsageTallyByClass | src/components/ParkingDashboard.tsx:176-191 | Each counter is exactly the number of records whose non-empty kana falls in its class. |
| ParkingDashboard.UsageTallySum | src/components/ParkingDashboard.tsx:178-191 | The four usage counts add up to the number of records that have a kana. |
| ParkingDashboard.CountUsage | src/components/ParkingDashboard.tsx:171-191 | The `forEach` loop computes the usage tally, whose counts add up to the records that have a kana. |
| ParkingDashboard.UsagePieData | src/components/ParkingDashboard.tsx:193-198 | Four slices in this order: 自家用車 with the private count, 商用車 with the commercial count, レンタカー with the rental count and その他 with the military count. They add up to the total of the counts. |
| ParkingDashboard.RegionLabel | src/components/ParkingDashboard.tsx:203 | The label is never empty. It is the city when the record has one, and `不明` when the city is empty or missing. |
| ParkingDashboard.CountRegions | src/components/ParkingDashboard.tsx:201-206 | After the loop, `regionCount` holds each region label met, in order of first occurrence, with the number of records carrying it. |
| ParkingDashboard.TallyDone | src/components/ParkingDashboard.tsx:201-211 | Once every record is counted, the labels are the distinct region labels, each counted by its multiplicity. The counts add up to the number of records. |
| ParkingDashboard.SlicesOf | src/components/ParkingDashboard.tsx:208-211 | One slice per entry of `regionCount`, in entry order, named by the label and valued by its count. |
| ParkingDashboard.RegionPieData | src/components/ParkingDashboard.tsx:201-211 | One slice per region label, in order of first occurrence, valued by the number of records with that label. The slices add up to the number of records. |
| CivilDate.ParseIsoDate | src/components/ParkingDashboard.tsx:152 | For the values a date input holds (`YYYY-MM-DD` or empty), `new Date(s)` is a valid day iff `s` is `YYYY-MM-DD` with month 01-12 and day 01-31, and it is then that date's day number, a day past the month's end rolling over. |
| Seqs.Filter | src/hooks/useApi.ts:14-22 | `filter` keeps exactly the elements that pass, each occurrence once, in order. |
| Seqs.FilterIdempotent | src/hooks/useApi.ts:14-22 | Filtering twice with the same callback is filtering once. |
| Seqs.Dedup | src/components/ParkingDashboard.tsx:103 | The keys of an object built by insertion have no duplicates and are exactly the inserted keys. |
| Seqs.TalliesSumToLength | src/components/ParkingDashboard.tsx:202-206 | Counting every distinct value of a list adds up to the list's length. |
| Strings.Split | src/hooks/useApi.ts:15 | `split(c)` gives at least one piece, and no piece contains `c`. There are two or more pieces iff `c` occurs. The first piece is a prefix of the string that ends at the first `c` or at the end. |
| Strings.JoinSplit | src/hooks/useApi.ts:15 | Joining the pieces of `split(c)` with `c` gives the string back. |
| Strings.SplitJoin | src/components/CsvUploader.tsx:76 | Splitting pieces joined with `c` gives back the pieces, when none of them contains `c`. |
| Strings.LexLeTransitive | src/hooks/useApi.ts:16 | JavaScript string `<=` is transitive. |
| Strings.LexLeAntisymmetric | src/hooks/useApi.ts:16 | JavaScript string `<=` in both directions means equal. |
| Strings.LexLeTotal | src/hooks/useApi.ts:16 | Any two strings are ordered one way or the other. |
| Strings.ContentStart | src/components/CsvUploader.tsx:59 | The count of leading characters `trim` drops: all white space, and followed by a character that is not. |
| Strings.ContentEnd | src/components/CsvUploader.tsx:59 | Where the trailing white space `trim` drops begins: everything from there is white space, and the character before it is not. |
| Strings.Trim | src/components/CsvUploader.tsx:59 | `trim` returns the slice of the string that starts where its leading white space ends and is followed only by white space; the slice neither starts nor ends with white space, and a string with no white space at its ends is unchanged. |
| Strings.RemoveAll | src/components/CsvUploader.tsx:66 | `replace(/"/g, '')` keeps exactly the characters other than the double quote, each once and in order, so it leaves none and changes nothing when there is none. |
| Strings.Lower | src/components/CsvUploader.tsx:48 | `toLowerCase` maps each character and keeps the length. |
| Strings.Upper | src/components/ParkingDashboard.tsx:184 | `toUpperCase` maps each character and keeps the length. |
| Numbers.RoundDiv | src/components/ParkingDashboard.tsx:117 | `Math.round(n / d)` is the integer within half of the exact quotient, halves going up. |
| Numbers.RoundDivBetween | src/components/ParkingDashboard.tsx:117 | Rounding a quotient that lies in an integer interval stays in that interval. |
| Numbers.Round | src/components/WeatherWidget.tsx:133 | `Math.round(x)` is within half of `x`, halves going up. |
| Numbers.RoundedMeanBetween | src/components/WeatherWidget.tsx:132-135 | The rounded mean of values within `[lo, hi]`, whole-number ends, stays within `[lo, hi]`. |
| App.DashboardDate | src/App.tsx:90 | A dashboard receives no date in range mode, and the selected date otherwise. |
| App.RefilterKeepsCsvSlice | src/App.tsx:89-96 | The dashboard hook's second filter of the `getCsvData` slice resolves the same window and keeps every row, so the dashboard sees the slice as `getCsvData` returned it. |
| App.App.constructor | src/App.tsx:11-18 | All three dates start at 2025-08-16. Range mode starts off, on the traffic tab, with the uploader closed and no CSV data. |
| App.App.ToggleMode | src/App.tsx:20-27 | The flag flips. Entering range mode sets both range ends to the selected date. Leaving it keeps the range. Nothing else changes. |
| App.App.SetSelectedDate | src/App.tsx:46 | Sets the selected date and nothing else. |
| App.App.SetStartDate | src/App.tsx:49 | Sets the range start and nothing else. |
| App.App.SetEndDate | src/App.tsx:50 | Sets the range end and nothing else. |
| App.App.SetActiveTab | src/App.tsx:31 | Sets the tab and nothing else. |
| App.App.ToggleUploader | src/App.tsx:58 | Opens or closes the uploader and nothing else. |
| App.App.DashboardRows | src/App.tsx:108-115 | The rows a dashboard shows from CSV equal `getCsvData`'s slice, which selects exactly the slot's rows inside the window. |
| App.App.ClearTab | src/App.tsx:85 | A tab's clear action empties its own data type's slot and leaves the other one alone. |
| App.ToggleTwice | src/App.tsx:20-27 | Toggling twice restores the flag and keeps the selected date, the tab and the uploader. From either mode it leaves the one-day range of the selected date. |
| WeatherWidget.IconOf | src/components/WeatherWidget.tsx:111 | The cloud, rain and snow icons are for `cloudy`, `rainy` and `snowy`. The sun is for everything else. |
| WeatherWidget.WeatherLabel | src/components/WeatherWidget.tsx:97-105 | The four known conditions get their Japanese label. Any other string is shown as it is. |
| WeatherWidget.WeatherLabelIdempotent | src/components/WeatherWidget.tsx:97-105 | Labelling a label changes nothing. |
| WeatherWidget.FirstOfDate | src/components/WeatherWidget.tsx:73 | `find` stops at the first record of the date, or finds none when no record has it. |
| WeatherWidget.DisplayWeather | src/components/WeatherWidget.tsx:73-76 | In range mode the first record, if any. Outside it, nothing without a selected date, and otherwise the first record of that date, or nothing exactly when no record has it. |
| WeatherWidget.DisplayDate | src/components/WeatherWidget.tsx:77-79 | The title date is `start ～ end` in range mode with both ends, and the selected date otherwise. |
| WeatherWidget.Widget | src/components/WeatherWidget.tsx:73-160 | The "no data" card, with the mode's message, appears exactly when no record is selected. Otherwise the card shows the selected record's icon and label, the averages and the day count exactly in range mode with more than one record, and the selected record's own temperature and humidity in every other case. |
| WeatherWidget.SingleDateShowsFirstRecordOfDay | src/components/WeatherWidget.tsx:73-76 | In single mode the card shows the first record of the selected date: its label, icon, temperature and humidity. |
| WeatherWidget.SingleDateNoData | src/components/WeatherWidget.tsx:73-95 | In single mode the "no data" card appears iff no record has the selected date. |
| WeatherWidget.RangeAveragesStayWithinDays | src/components/WeatherWidget.tsx:132-150 | In range mode with several records, the card shows the first record's label and the day count. The averaged temperature and humidity stay between the lowest and highest day. |
| WeatherWidget.OneRecordIsNotAveraged | src/components/WeatherWidget.tsx:132-150 | With one record in range mode, that record's own readings are shown. |
| TrafficDataTable.HighlightedData | src/components/TrafficDataTable.tsx:106-109 | Same length and order, and every record is kept. `rowClass` is `bg-red-50` iff the speed is at most 30 km/h, and empty otherwise. |
| TrafficDataTable.HighlightKeepsRecords | src/components/TrafficDataTable.tsx:106-107 | Dropping `rowClass` gives the input back. |
| TrafficDataTable.SpeedCellOf | src/components/TrafficDataTable.tsx:89-100 | The 渋滞中 marker and the red bold style appear iff the speed is at most 30 km/h. |
| TrafficDataTable.HighlightAgreesWithMarker | src/components/TrafficDataTable.tsx:97-108 | A row is highlighted iff its speed cell shows the congestion marker. |
| TrafficDataTable.VehicleTypeLabel | src/components/TrafficDataTable.tsx:25-32 | car, truck and bus get their Japanese label. Any other type is shown as it is. |
| TrafficDataTable.VehicleTypeLabelIdempotent | src/components/TrafficDataTable.tsx:25-32 | Labelling a label changes nothing. |
| TrafficDataTable.VehicleIconOf | src/components/TrafficDataTable.tsx:12-23 | A blue car iff the type is car, a green truck iff it is truck, an orange bus iff it is bus, and a grey car iff it is none of the three. |
| TrafficDataTable.DirectionBadgeOf | src/components/TrafficDataTable.tsx:71-83 | `R` shows 右 and every other value shows 左. The blue style goes with 右. |
| TrafficDataTable.TimestampCellOf | src/components/TrafficDataTable.tsx:39-44 | A time line exists iff the timestamp has a space, and the date line has none. |
| TrafficDataTable.TimestampCellRejoins | src/components/TrafficDataTable.tsx:41-42 | For a timestamp "date time", the date line, a space and the time line give the timestamp back. |
| TrafficDashboard.NormalSeries | src/components/TrafficDashboard.tsx:61 | Same length, and time and count unchanged. The speed is kept iff it is above 30 km/h, and null otherwise. |
| TrafficDashboard.CongestedSeries | src/components/TrafficDashboard.tsx:75 | Same length, and time and count unchanged. The speed is kept iff it is at most 30 km/h, and null otherwise. |
| TrafficDashboard.SeriesPartitionPoints | src/components/TrafficDashboard.tsx:61-75 | Every point has its speed on exactly one of the two lines: the normal line iff it is not congested. |
| TrafficDashboard.MergeSeries | src/components/TrafficDashboard.tsx:61-75 | Merging the two lines gives back the original points, so the split loses nothing. |

## Left out

- Fetching from the API, the loading and error flags, and the effect scheduling in `src/hooks/useApi.ts` are I/O and are not modelled. Only the URL and the filter are modelled.
- `useWeatherData` is imported by `src/components/WeatherWidget.tsx` but is not part of this model. The widget is modelled over a given list of records, without its loading and error cards.
- `timeSeriesData` in `src/components/TrafficDashboard.tsx` is computed outside the lines modelled here. The chart split takes it as given, and `connectNulls` and drawing are rendering.
- Rendering: charts, pie labels, colours, icons' markup, the table's paging and sorting, and `toFixed` formatting.
- Electron, the local server and the remaining components are outside the model.
- ParkingDashboard.AggregateHourlyData: requires every timestamp to have a time part. The source throws on `split(' ')[1]` of such a record, and that crash is not modelled.
- ParkingDashboard.Occupancy: computes with exact rationals. JavaScript evaluates `(entry - exit) / total * 100` in floating point, which can put a value a hair off a .5 boundary.
- ParkingDashboard.SortByTime: orders by UTF-16 code unit where the source uses `localeCompare`. The two agree on keys of one fixed digit format (`HH:00`, `YYYY-MM-DD`), which is what the aggregators make from well-formed timestamps.
- ParkingDashboard.RegionPieData: lists regions in insertion order. JavaScript lists integer-like keys (a city named "12") first, in ascending order.
- ParkingDashboard.Group: does not model keys that clash with `Object.prototype` members (`constructor`, `__proto__`), where `!grouped[k]` reads the prototype. The same applies to the region tally, to the label lookups `WeatherWidget.WeatherLabel` and `TrafficDataTable.VehicleTypeLabel`, and to the icon lookup `WeatherWidget.IconOf`.
- Strings.Lower: maps ASCII letters only, where `toLowerCase` and `toUpperCase` cover all of Unicode. This is exact for `.csv` and for the six military letters.
- CsvUploader.Convert: keeps `parseInt` and `parseFloat` symbolic. A converted value records the cell it came from, so NaN and number syntax are not modelled.
- CsvUploader.Uploader.HandleFile:
  - Reading the file, drag and drop, the 3-second reset to idle and clearing the file input are not modelled.
  - The fallback message for a thrown non-`Error` cannot arise from the modelled steps.
  - A weather upload leaves the store unchanged here, whereas `uploadCsvData` would add a `weather` key that nothing reads. App renders no weather uploader.
- CivilDate.ParseIsoDate: models only the strings a `type="date"` input produces, which are all the app passes. V8 also reads other strings as dates (`2024/02/28`, `2024-2-28`, `2024-02-28T00:00`) where the model gives `None`.
- UseCsvData.SelectCsvRows: a record without a `timestamp` field is modelled with the empty timestamp. `getCsvData` would throw on it.
- WeatherWidget.Widget: the range-mode temperature and humidity means (`Numbers.RoundedMean`) are taken over exact reals. JavaScript sums the readings as floats before `Math.round`, and a float sum can land just below or above a .5 boundary and round to the neighbouring integer: for temperatures 0.1, 4.3 and 0.1 the exact mean 1.5 shows 2, while the float mean 1.4999999999999998 shows 1.
- TrafficDataTable.HighlightedData: speeds are exact reals. A NaN speed from a bad CSV cell (neither `<= 30` nor `> 30`) is not modelled.
