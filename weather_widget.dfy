/** src/components/WeatherWidget.tsx once its records have arrived: which record
    the card shows, the range-mode averages, the weather label and icon, and the
    "no data" card. The records come from a `useWeatherData` hook that is not
    part of this model, so the widget is modelled over a given list; its
    loading and error cards are not modelled. */
module WeatherWidget {
  import opened Wrappers
  import opened Numbers

  /** One day of weather as the widget reads it (`date`, `weather`,
      `temperature`, `humidity`). */
  datatype WeatherData = WeatherData(date: string, weather: string, temperature: real, humidity: real)

  datatype Icon = SunIcon | CloudIcon | RainIcon | SnowIcon

  /** `weatherIcons[weather] || weatherIcons.sunny`. */
  function IconOf(weather: string): (icon: Icon)
    ensures icon == CloudIcon <==> weather == "cloudy"
    ensures icon == RainIcon <==> weather == "rainy"
    ensures icon == SnowIcon <==> weather == "snowy"
    ensures icon == SunIcon <==> weather !in {"cloudy", "rainy", "snowy"}
  {
    if weather == "cloudy" then CloudIcon
    else if weather == "rainy" then RainIcon
    else if weather == "snowy" then SnowIcon
    else SunIcon
  }

  /** `getWeatherLabel`: the four known conditions in Japanese, anything else
      (the empty string included) as it is. */
  function WeatherLabel(weather: string): (shown: string)
    ensures weather == "sunny" ==> shown == "晴れ"
    ensures weather == "cloudy" ==> shown == "曇り"
    ensures weather == "rainy" ==> shown == "雨"
    ensures weather == "snowy" ==> shown == "雪"
    ensures weather !in {"sunny", "cloudy", "rainy", "snowy"} ==> shown == weather
  {
    if weather == "sunny" then "晴れ"
    else if weather == "cloudy" then "曇り"
    else if weather == "rainy" then "雨"
    else if weather == "snowy" then "雪"
    else weather
  }

  /** No label is itself a key of the table, so labelling a label changes nothing. */
  lemma {:induction false} WeatherLabelIdempotent(weather: string)
    ensures WeatherLabel(WeatherLabel(weather)) == WeatherLabel(weather)
  {
  }

  /** The index `data.find(item => item.date === date)` stops at: the first
      record of that date, or none. */
  function FirstOfDate(data: seq<WeatherData>, date: string): (r: Option<nat>)
    ensures r.Some? ==> r.value < |data| && data[r.value].date == date
    ensures r.Some? ==> forall j :: 0 <= j < r.value ==> data[j].date != date
    ensures r.None? ==> forall j :: 0 <= j < |data| ==> data[j].date != date
    decreases |data|
  {
    if |data| == 0 then None
    else if data[0].date == date then Some(0)
    else
      match FirstOfDate(data[1..], date)
      case None => None
      case Some(i) => Some(i + 1)
  }

  /** `displayWeather`: the first record in range mode, otherwise the first
      record of the selected date (none when no date is selected). */
  function DisplayWeather(data: seq<WeatherData>, selectedDate: Option<string>, isRangeMode: bool): (r: Option<WeatherData>)
    ensures isRangeMode ==> (r.Some? <==> |data| > 0) && (r.Some? ==> r.value == data[0])
    ensures !isRangeMode && selectedDate.None? ==> r.None?
    ensures !isRangeMode && selectedDate.Some? ==>
              (r.None? <==> forall j :: 0 <= j < |data| ==> data[j].date != selectedDate.value)
    ensures !isRangeMode && r.Some? ==>
              exists i :: 0 <= i < |data| && r.value == data[i] && data[i].date == selectedDate.value
                          && forall j :: 0 <= j < i ==> data[j].date != selectedDate.value
  {
    if isRangeMode then (if |data| > 0 then Some(data[0]) else None)
    else if selectedDate.None? then None
    else match FirstOfDate(data, selectedDate.value)
      case None => None
      case Some(i) => Some(data[i])
  }

  /** `displayDate`: "start ～ end" in range mode with both ends set, otherwise
      the selected date. */
  function DisplayDate(isRangeMode: bool, startDate: Option<string>, endDate: Option<string>,
                       selectedDate: Option<string>): (d: Option<string>)
    ensures isRangeMode && Present(startDate) && Present(endDate) ==>
              d == Some(startDate.value + " ～ " + endDate.value)
    ensures !(isRangeMode && Present(startDate) && Present(endDate)) ==> d == selectedDate
  {
    if isRangeMode && Present(startDate) && Present(endDate) then Some(startDate.value + " ～ " + endDate.value)
    else selectedDate
  }

  /** The card summarises several days only in range mode with more than one record. */
  predicate IsSummary(data: seq<WeatherData>, isRangeMode: bool) {
    isRangeMode && |data| > 1
  }

  function Temperatures(data: seq<WeatherData>): (ts: seq<real>)
    ensures |ts| == |data| && forall i :: 0 <= i < |data| ==> ts[i] == data[i].temperature
  {
    seq(|data|, i requires 0 <= i < |data| => data[i].temperature)
  }

  function Humidities(data: seq<WeatherData>): (hs: seq<real>)
    ensures |hs| == |data| && forall i :: 0 <= i < |data| ==> hs[i] == data[i].humidity
  {
    seq(|data|, i requires 0 <= i < |data| => data[i].humidity)
  }

  /** What the widget renders. */
  datatype View =
    | NoData(message: string, hint: string)
    | Card(title: Option<string>, icon: Icon, weatherLabel: string, dayCount: Option<nat>,
           temperature: real, temperatureCaption: string,
           humidity: real, humidityCaption: string)

  /** The "no data" message of each mode. */
  function NoDataMessage(isRangeMode: bool): string {
    if isRangeMode then "選択した期間の天気データがありません" else "選択した日付の天気データがありません"
  }

  /** The widget once loading has finished without an error. */
  function Widget(data: seq<WeatherData>, selectedDate: Option<string>, startDate: Option<string>,
                  endDate: Option<string>, isRangeMode: bool): (v: View)
    ensures v.NoData? <==> DisplayWeather(data, selectedDate, isRangeMode).None?
    ensures v.NoData? ==> v.message == NoDataMessage(isRangeMode) && v.hint == "別の日付を選択してください"
    ensures v.Card? ==> v.title == DisplayDate(isRangeMode, startDate, endDate, selectedDate)
    ensures v.Card? ==> (v.dayCount.Some? <==> IsSummary(data, isRangeMode))
    ensures v.Card? && IsSummary(data, isRangeMode) ==>
              && v.dayCount == Some(|data|)
              && v.temperature == RoundedMean(Temperatures(data)) as real && v.temperatureCaption == "平均気温"
              && v.humidity == RoundedMean(Humidities(data)) as real && v.humidityCaption == "平均湿度"
    ensures v.Card? && !IsSummary(data, isRangeMode) ==>
              v.temperatureCaption == "気温" && v.humidityCaption == "湿度"
    ensures v.Card? ==> var w := DisplayWeather(data, selectedDate, isRangeMode).value;
              && v.icon == IconOf(w.weather) && v.weatherLabel == WeatherLabel(w.weather)
              && (!IsSummary(data, isRangeMode) ==> v.temperature == w.temperature && v.humidity == w.humidity)
  {
    match DisplayWeather(data, selectedDate, isRangeMode)
    case None => NoData(NoDataMessage(isRangeMode), "別の日付を選択してください")
    case Some(w) =>
      var summary := IsSummary(data, isRangeMode);
      Card(DisplayDate(isRangeMode, startDate, endDate, selectedDate),
           IconOf(w.weather), WeatherLabel(w.weather),
           if summary then Some(|data|) else None,
           if summary then RoundedMean(Temperatures(data)) as real else w.temperature,
           if summary then "平均気温" else "気温",
           if summary then RoundedMean(Humidities(data)) as real else w.humidity,
           if summary then "平均湿度" else "湿度")
  }

  /** In single-date mode the card shows the first record of the selected date,
      its own temperature and humidity, and the "no data" card exactly when the
      list has no record of that date. */
  lemma {:induction false} SingleDateShowsFirstRecordOfDay(data: seq<WeatherData>, date: string, startDate: Option<string>,
                                        endDate: Option<string>, i: nat)
    requires i < |data| && data[i].date == date
    requires forall j :: 0 <= j < i ==> data[j].date != date
    ensures var v := Widget(data, Some(date), startDate, endDate, false);
            && v.Card? && v.title == Some(date)
            && v.weatherLabel == WeatherLabel(data[i].weather) && v.icon == IconOf(data[i].weather)
            && v.temperature == data[i].temperature && v.humidity == data[i].humidity
            && v.dayCount.None?
  {
    var r := FirstOfDate(data, date);
    assert r.Some?;
  }

  /** Single-date mode shows "no data" exactly when no record has the selected date. */
  lemma {:induction false} SingleDateNoData(data: seq<WeatherData>, date: string, startDate: Option<string>, endDate: Option<string>)
    ensures Widget(data, Some(date), startDate, endDate, false).NoData?
            <==> forall j :: 0 <= j < |data| ==> data[j].date != date
  {
    var r := FirstOfDate(data, date);
    if r.Some? {
      assert data[r.value].date == date;
    }
  }

  /** Range mode shows "no data" exactly for an empty list, the first record's
      label otherwise, and with several records averages that stay between the
      coldest and warmest (driest and wettest) day when those are whole numbers. */
  lemma {:induction false} RangeAveragesStayWithinDays(data: seq<WeatherData>, startDate: Option<string>, endDate: Option<string>,
                                    tLo: int, tHi: int, hLo: int, hHi: int)
    requires |data| > 1
    requires forall i :: 0 <= i < |data| ==> tLo as real <= data[i].temperature <= tHi as real
    requires forall i :: 0 <= i < |data| ==> hLo as real <= data[i].humidity <= hHi as real
    ensures var v := Widget(data, None, startDate, endDate, true);
            && v.Card? && v.weatherLabel == WeatherLabel(data[0].weather)
            && v.dayCount == Some(|data|)
            && tLo as real <= v.temperature <= tHi as real
            && hLo as real <= v.humidity <= hHi as real
  {
    RoundedMeanBetween(Temperatures(data), tLo, tHi);
    RoundedMeanBetween(Humidities(data), hLo, hHi);
  }

  /** With a single record, or outside range mode, nothing is averaged: the card
      shows the record's own readings. */
  lemma {:induction false} OneRecordIsNotAveraged(w: WeatherData, startDate: Option<string>, endDate: Option<string>)
    ensures var v := Widget([w], None, startDate, endDate, true);
            v.Card? && v.temperature == w.temperature && v.humidity == w.humidity && v.dayCount.None?
  {
  }
}
