/** src/App.tsx: the date-filter state the page keeps, the range-mode toggle,
    and what each dashboard tab is handed: its `selectedDate` (hidden in range
    mode), its CSV slice from `getCsvData` and its clear action. Rendering,
    the tab header and the uploader panel's layout are not modelled. */
module App {
  import opened Wrappers
  import opened Seqs
  import opened UseApi
  import opened UseCsvData

  const InitialDate: string := "2025-08-16"

  /** `isRangeMode ? undefined : selectedDate`, the date a dashboard receives. */
  function DashboardDate(isRangeMode: bool, selectedDate: string): (d: Option<string>)
    ensures d.None? <==> isRangeMode
    ensures d.Some? ==> d.value == selectedDate
  {
    if isRangeMode then None else Some(selectedDate)
  }

  /** The hook's CSV branch applied to the slice `getCsvData` returned: both
      resolve the same window, the slice holds only rows whose timestamp has a
      date part inside it, and so the hook's second filter keeps every row. */
  lemma {:induction false} RefilterKeepsCsvSlice<T(!new)>(slot: seq<T>, stamp: T -> Stamp, selectedDate: string,
                                                         startDate: string, endDate: string, isRangeMode: bool)
    ensures var slice := SelectCsvRows(slot, stamp, Some(selectedDate), Some(startDate), Some(endDate), isRangeMode);
            FilterDataByDateRange(Array(slice), stamp, Some(startDate), Some(endDate), isRangeMode,
                                  DashboardDate(isRangeMode, selectedDate)) == slice
  {
    var slice := SelectCsvRows(slot, stamp, Some(selectedDate), Some(startDate), Some(endDate), isRangeMode);
    var w := ResolveWindow(isRangeMode, Some(startDate), Some(endDate), Some(selectedDate));
    assert ResolveWindow(isRangeMode, Some(startDate), Some(endDate), DashboardDate(isRangeMode, selectedDate)) == w;
    if !w.Unfiltered? {
      forall i | 0 <= i < |slice|
        ensures Keep(w, stamp)(slice[i])
      {
        var st := stamp(slice[i]);
        assert InWindow(w, Some(DatePart(st.timestamp)));
      }
      FilterKeepsAll(slice, Keep(w, stamp));
    }
  }

  /** The page state of `App`: the three dates, the range-mode flag, the active
      tab, whether the uploader is open, and the CSV store of `useCsvData`. */
  class App<T(==,!new)> {
    var selectedDate: string
    var startDate: string
    var endDate: string
    var isRangeMode: bool
    var activeTab: DataType
    var showUploader: bool
    const csv: CsvStore<T>

    /** The first render: every date is 2025-08-16, single-date mode, the
        traffic tab, the uploader closed and no CSV data. */
    constructor ()
      ensures selectedDate == InitialDate && startDate == InitialDate && endDate == InitialDate
      ensures !isRangeMode && activeTab == Traffic && !showUploader
      ensures fresh(csv)
      ensures csv.Slot(Traffic) == [] && csv.Slot(Parking) == []
      ensures !csv.IsUsing(Traffic) && !csv.IsUsing(Parking)
    {
      selectedDate, startDate, endDate := InitialDate, InitialDate, InitialDate;
      isRangeMode := false;
      activeTab := Traffic;
      showUploader := false;
      csv := new CsvStore();
    }

    /** `handleToggleMode`: the flag flips; the test reads the flag as it was
        before the toggle, so entering range mode starts the range at the
        selected date and leaving it keeps the range as it was. */
    method ToggleMode()
      modifies this
      ensures isRangeMode == !old(isRangeMode)
      ensures !old(isRangeMode) ==> startDate == old(selectedDate) && endDate == old(selectedDate)
      ensures old(isRangeMode) ==> startDate == old(startDate) && endDate == old(endDate)
      ensures selectedDate == old(selectedDate)
      ensures activeTab == old(activeTab) && showUploader == old(showUploader)
    {
      var wasRangeMode := isRangeMode;
      isRangeMode := !wasRangeMode;
      if !wasRangeMode {
        startDate := selectedDate;
        endDate := selectedDate;
      }
    }

    /** `onDateChange`, `onStartDateChange` and `onEndDateChange` of the date
        filter: each sets its own date and nothing else. */
    method SetSelectedDate(d: string)
      modifies this
      ensures selectedDate == d
      ensures startDate == old(startDate) && endDate == old(endDate) && isRangeMode == old(isRangeMode)
      ensures activeTab == old(activeTab) && showUploader == old(showUploader)
    {
      selectedDate := d;
    }

    method SetStartDate(d: string)
      modifies this
      ensures startDate == d
      ensures selectedDate == old(selectedDate) && endDate == old(endDate) && isRangeMode == old(isRangeMode)
      ensures activeTab == old(activeTab) && showUploader == old(showUploader)
    {
      startDate := d;
    }

    method SetEndDate(d: string)
      modifies this
      ensures endDate == d
      ensures selectedDate == old(selectedDate) && startDate == old(startDate) && isRangeMode == old(isRangeMode)
      ensures activeTab == old(activeTab) && showUploader == old(showUploader)
    {
      endDate := d;
    }

    /** The tab header's `onTabChange`. */
    method SetActiveTab(t: DataType)
      modifies this
      ensures activeTab == t
      ensures selectedDate == old(selectedDate) && startDate == old(startDate) && endDate == old(endDate)
      ensures isRangeMode == old(isRangeMode) && showUploader == old(showUploader)
    {
      activeTab := t;
    }

    /** The uploader button: opens a closed panel and closes an open one. */
    method ToggleUploader()
      modifies this
      ensures showUploader == !old(showUploader)
      ensures selectedDate == old(selectedDate) && startDate == old(startDate) && endDate == old(endDate)
      ensures isRangeMode == old(isRangeMode) && activeTab == old(activeTab)
    {
      showUploader := !showUploader;
    }

    /** The `csvData` prop of the dashboard for data type `t`:
        `getCsvData(t, selectedDate, startDate, endDate, isRangeMode)`. */
    function CsvSlice(t: DataType, stamp: T -> Stamp): seq<T>
      reads this, csv
    {
      csv.GetCsvData(t, stamp, Some(selectedDate), Some(startDate), Some(endDate), isRangeMode)
    }

    /** The rows a dashboard shows while it uses CSV data: its hook filters the
        slice again with the props it is given, which leaves the slice as it is. */
    function DashboardRows(t: DataType, stamp: T -> Stamp): (rows: seq<T>)
      reads this, csv
      ensures rows == CsvSlice(t, stamp)
      ensures Selects(rows, csv.Slot(t),
                      CsvKeep(ResolveWindow(isRangeMode, Some(startDate), Some(endDate), Some(selectedDate)), stamp))
    {
      RefilterKeepsCsvSlice(csv.Slot(t), stamp, selectedDate, startDate, endDate, isRangeMode);
      FilterDataByDateRange(Array(CsvSlice(t, stamp)), stamp, Some(startDate), Some(endDate), isRangeMode,
                            DashboardDate(isRangeMode, selectedDate))
    }

    /** The data-source panel's clear action on tab `t`: `clearCsvData(t)`
        empties that tab's slot only. */
    method ClearTab(t: DataType)
      modifies csv
      ensures csv.Slot(t) == [] && !csv.IsUsing(t)
      ensures csv.Slot(Other(t)) == old(csv.Slot(Other(t))) && csv.IsUsing(Other(t)) == old(csv.IsUsing(Other(t)))
    {
      csv.Clear(t);
    }
  }

  /** Toggling twice restores the flag and, from either mode, leaves the
      one-day range of the selected date: whichever toggle enters range mode
      sets both bounds to it. */
  method ToggleTwice<T(==,!new)>(app: App<T>)
    modifies app
    ensures app.isRangeMode == old(app.isRangeMode)
    ensures app.startDate == old(app.selectedDate) && app.endDate == old(app.selectedDate)
    ensures app.selectedDate == old(app.selectedDate)
    ensures app.activeTab == old(app.activeTab) && app.showUploader == old(app.showUploader)
  {
    app.ToggleMode();
    app.ToggleMode();
  }
}
