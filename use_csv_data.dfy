/** src/hooks/useCsvData.ts: the two-slot store of uploaded CSV rows, one slot per
    data type, each with its "using CSV" flag, and the date window `getCsvData`
    applies when a dashboard reads a slot. */
module UseCsvData {
  import opened Wrappers
  import opened Seqs
  import opened Strings
  import opened UseApi

  datatype DataType = Traffic | Parking

  function Other(t: DataType): DataType {
    if t == Traffic then Parking else Traffic
  }

  /** The callback `getCsvData` hands to `data.filter`: the date part of
      `item.timestamp`, with no fallback to a `date` field. */
  function CsvKeep<T>(w: Window, stamp: T -> Stamp): T -> bool {
    x => InWindow(w, Some(DatePart(stamp(x).timestamp)))
  }

  /** The body of `getCsvData` once the slot is read. Its first test (no date and
      not in range mode) is subsumed by the later ones, so it selects with the
      same window the hook's `filterDataByDateRange` resolves from the same
      arguments. */
  function SelectCsvRows<T(==,!new)>(data: seq<T>, stamp: T -> Stamp, selectedDate: Option<string>,
                                     startDate: Option<string>, endDate: Option<string>,
                                     isRangeMode: bool): (r: seq<T>)
    ensures !Present(selectedDate) && !isRangeMode ==> r == data
    ensures ResolveWindow(isRangeMode, startDate, endDate, selectedDate).Unfiltered? ==> r == data
    ensures Selects(r, data, CsvKeep(ResolveWindow(isRangeMode, startDate, endDate, selectedDate), stamp))
  {
    FilterKeepsAll(data, CsvKeep(Unfiltered, stamp));
    if !Present(selectedDate) && !isRangeMode then data
    else if isRangeMode && Present(startDate) && Present(endDate) then
      Filter(data, CsvKeep(Range(startDate.value, endDate.value), stamp))
    else if !isRangeMode && Present(selectedDate) then
      Filter(data, CsvKeep(Single(selectedDate.value), stamp))
    else data
  }

  /** The `csvData` and `isUsingCsvData` state of the hook. */
  class CsvStore<T(==,!new)> {
    var traffic: seq<T>
    var parking: seq<T>
    var usingTraffic: bool
    var usingParking: bool

    /** Both slots empty, neither flag set. */
    constructor ()
      ensures traffic == [] && parking == []
      ensures !usingTraffic && !usingParking
    {
      traffic, parking := [], [];
      usingTraffic, usingParking := false, false;
    }

    function Slot(t: DataType): seq<T>
      reads this
    {
      if t == Traffic then traffic else parking
    }

    predicate IsUsing(t: DataType)
      reads this
    {
      if t == Traffic then usingTraffic else usingParking
    }

    /** `uploadCsvData(data, type)`: the slot becomes exactly `data`, never merged
        with what it held, and its flag is set; the other type is untouched. */
    method Upload(data: seq<T>, t: DataType)
      modifies this
      ensures Slot(t) == data && IsUsing(t)
      ensures Slot(Other(t)) == old(Slot(Other(t))) && IsUsing(Other(t)) == old(IsUsing(Other(t)))
    {
      if t == Traffic {
        traffic := data;
        usingTraffic := true;
      } else {
        parking := data;
        usingParking := true;
      }
    }

    /** `clearCsvData(type)`: the slot is emptied and its flag cleared; the other
        type is untouched. */
    method Clear(t: DataType)
      modifies this
      ensures Slot(t) == [] && !IsUsing(t)
      ensures Slot(Other(t)) == old(Slot(Other(t))) && IsUsing(Other(t)) == old(IsUsing(Other(t)))
    {
      if t == Traffic {
        traffic := [];
        usingTraffic := false;
      } else {
        parking := [];
        usingParking := false;
      }
    }

    /** `getCsvData(type, selectedDate, startDate, endDate, isRangeMode)`. */
    function GetCsvData(t: DataType, stamp: T -> Stamp, selectedDate: Option<string>,
                        startDate: Option<string>, endDate: Option<string>, isRangeMode: bool): (rows: seq<T>)
      reads this
      ensures ResolveWindow(isRangeMode, startDate, endDate, selectedDate).Unfiltered? ==> rows == Slot(t)
      ensures Selects(rows, Slot(t), CsvKeep(ResolveWindow(isRangeMode, startDate, endDate, selectedDate), stamp))
    {
      SelectCsvRows(Slot(t), stamp, selectedDate, startDate, endDate, isRangeMode)
    }
  }

  /** In range mode with both bounds a row is selected exactly when the date part
      `d` of its timestamp satisfies `startDate <= d <= endDate`; with one date and
      not in range mode, exactly when `d` is that date; otherwise the whole slot
      comes back. */
  lemma {:induction false} SelectCsvRowsMembers<T(!new)>(data: seq<T>, stamp: T -> Stamp, selectedDate: Option<string>,
                                          startDate: Option<string>, endDate: Option<string>,
                                          isRangeMode: bool, x: T)
    requires x in data
    ensures var r := SelectCsvRows(data, stamp, selectedDate, startDate, endDate, isRangeMode);
            var d := DatePart(stamp(x).timestamp);
            && (isRangeMode && Present(startDate) && Present(endDate) ==>
                  (x in r <==> LexLe(startDate.value, d) && LexLe(d, endDate.value)))
            && (!isRangeMode && Present(selectedDate) ==> (x in r <==> d == selectedDate.value))
            && (isRangeMode && !(Present(startDate) && Present(endDate)) ==> r == data)
  {
    var r := SelectCsvRows(data, stamp, selectedDate, startDate, endDate, isRangeMode);
    assert multiset(data)[x] > 0;
    assert x in r <==> multiset(r)[x] > 0;
  }
}
