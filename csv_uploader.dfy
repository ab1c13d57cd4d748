/** src/components/CsvUploader.tsx: the validation and parsing body of
    `handleFile`, from a file's name and text to either an error message or a
    list of rows keyed by the header's column names, and the status the
    component shows. Reading the file, drag and drop and the timed reset of the
    status are not modelled. */
module CsvUploader {
  import opened Wrappers
  import opened Seqs
  import opened Strings
  import opened UseCsvData

  datatype CsvType = TrafficCsv | ParkingCsv | WeatherCsv

  /** `expectedColumns[dataType]`. */
  function ExpectedColumns(t: CsvType): (cols: seq<string>)
    ensures |cols| >= 4 && forall i, j :: 0 <= i < j < |cols| ==> cols[i] != cols[j]
    ensures forall c :: c in NumericColumns(t) ==> c in cols
    ensures cols[0] == if t == WeatherCsv then "date" else "timestamp"
  {
    match t
    case TrafficCsv => ["timestamp", "vehicle_count", "avg_speed", "vehicle_type", "usage_type"]
    case ParkingCsv => ["timestamp", "plate_region", "stay_duration", "entry_count", "exit_count", "occupancy_rate"]
    case WeatherCsv => ["date", "weather", "temperature", "humidity"]
  }

  /** A value stored in a row. `parseInt` and `parseFloat` are not interpreted:
      a converted value records the cell it was parsed from. A missing cell
      (`values[index]` past the end of a short line) is `None`, JavaScript's
      `undefined`. */
  datatype Value = Text(cell: Option<string>) | IntOf(cell: Option<string>) | FloatOf(cell: Option<string>)

  /** One parsed line: column name to value. */
  type Row = map<string, Value>

  /** The columns a data type converts to numbers: an independent listing of
      the conditions inside the `headers.forEach` callback. */
  function NumericColumns(t: CsvType): seq<string> {
    match t
    case TrafficCsv => ["vehicle_count", "avg_speed"]
    case ParkingCsv => ["stay_duration", "entry_count", "exit_count", "occupancy_rate"]
    case WeatherCsv => ["temperature", "humidity"]
  }

  /** The numeric columns read with `parseFloat`; the others are read with
      `parseInt`. */
  function FloatColumns(t: CsvType): seq<string> {
    match t
    case TrafficCsv => ["avg_speed"]
    case ParkingCsv => ["occupancy_rate"]
    case WeatherCsv => []
  }

  /** The value the callback stores for `header`, with the conversions tested in
      the source's order. */
  function Convert(t: CsvType, header: string, cell: Option<string>): (v: Value)
    ensures v.cell == cell
    ensures v.Text? <==> header !in NumericColumns(t)
    ensures v.FloatOf? <==> header in FloatColumns(t)
  {
    match t
    case TrafficCsv =>
      if header == "vehicle_count" then IntOf(cell)
      else if header == "avg_speed" then FloatOf(cell)
      else Text(cell)
    case ParkingCsv =>
      if header in ["stay_duration", "entry_count", "exit_count"] then IntOf(cell)
      else if header == "occupancy_rate" then FloatOf(cell)
      else Text(cell)
    case WeatherCsv =>
      if header == "temperature" || header == "humidity" then IntOf(cell)
      else Text(cell)
  }

  /** `f.trim().replace(/"/g, '')`. */
  function CleanField(f: string): string {
    RemoveAll(Trim(f), '"')
  }

  /** `line.split(',').map(v => v.trim().replace(/"/g, ''))`: one field per
      comma-separated piece, the piece trimmed and stripped of quotes. */
  function Fields(line: string): (fs: seq<string>)
    ensures |fs| == |Split(line, ',')| >= 1
    ensures forall i :: 0 <= i < |fs| ==> fs[i] == RemoveAll(Trim(Split(line, ',')[i]), '"')
    ensures forall i :: 0 <= i < |fs| ==> '"' !in fs[i]
  {
    var parts := Split(line, ',');
    seq(|parts|, i requires 0 <= i < |parts| => CleanField(parts[i]))
  }

  /** A field that survives cleaning unchanged: no quote, no comma, and no
      white space at either end. */
  predicate IsCleanField(v: string) {
    '"' !in v && ',' !in v && (|v| == 0 || (!IsWhiteSpace(v[0]) && !IsWhiteSpace(v[|v| - 1])))
  }

  lemma {:induction false} CleanFieldKeepsClean(v: string)
    requires IsCleanField(v)
    ensures CleanField(v) == v
  {
    if |v| == 0 {
      assert Trim(v) == v;
    }
  }

  /** A clean value written between double quotes comes out of cleaning
      without them. */
  lemma {:induction false} CleanFieldUnquotes(v: string)
    requires IsCleanField(v)
    ensures CleanField(['"'] + v + ['"']) == v
  {
    var q := ['"'] + v + ['"'];
    assert Trim(q) == q;
    assert q[1..] == v + ['"'];
    FilterSnoc(v, '"', AllBut('"'));
    FilterKeepsAll(v, AllBut('"'));
  }

  /** Clean fields joined with commas come back out of `Fields` unchanged. */
  lemma {:induction false} FieldsOfJoin(vs: seq<string>)
    requires |vs| >= 1 && forall i :: 0 <= i < |vs| ==> IsCleanField(vs[i])
    ensures Fields(Join(vs, [','])) == vs
  {
    SplitJoin(vs, ',');
    forall i | 0 <= i < |vs| ensures CleanField(vs[i]) == vs[i] {
      CleanFieldKeepsClean(vs[i]);
    }
  }

  /** `values[index]`. */
  function Cell(values: seq<string>, index: nat): Option<string> {
    if index < |values| then Some(values[index]) else None
  }

  /** The last of the first `n` positions holding `h`, if any. */
  function LastBefore(headers: seq<string>, h: string, n: nat): (r: Option<nat>)
    requires n <= |headers|
    ensures r.None? ==> forall j :: 0 <= j < n ==> headers[j] != h
    ensures r.Some? ==> r.value < n && headers[r.value] == h
                        && forall j :: r.value < j < n ==> headers[j] != h
  {
    if n == 0 then None
    else if headers[n - 1] == h then Some(n - 1)
    else LastBefore(headers, h, n - 1)
  }

  /** The row after the first `n` steps of `headers.forEach`: each header in
      turn sets its key to its converted cell, so a later repeat of a header
      overwrites an earlier one. */
  function RowUpTo(headers: seq<string>, values: seq<string>, t: CsvType, n: nat): Row
    requires n <= |headers|
  {
    if n == 0 then map[]
    else RowUpTo(headers, values, t, n - 1)[headers[n - 1] := Convert(t, headers[n - 1], Cell(values, n - 1))]
  }

  /** The row a line becomes. */
  function RowOf(headers: seq<string>, values: seq<string>, t: CsvType): Row {
    RowUpTo(headers, values, t, |headers|)
  }

  /** After `n` steps the keys are the first `n` headers, each holding the
      converted cell under its last occurrence among them. */
  lemma {:induction false} RowUpToContents(headers: seq<string>, values: seq<string>, t: CsvType, n: nat)
    requires n <= |headers|
    ensures forall h :: h in RowUpTo(headers, values, t, n) <==> LastBefore(headers, h, n).Some?
    ensures forall h :: h in RowUpTo(headers, values, t, n) ==>
              RowUpTo(headers, values, t, n)[h] == Convert(t, h, Cell(values, LastBefore(headers, h, n).value))
  {
    if n > 0 {
      RowUpToContents(headers, values, t, n - 1);
    }
  }

  /** Some position holds `h` exactly when `h` is a header. */
  lemma {:induction false} LastBeforeFinds(headers: seq<string>, h: string)
    ensures LastBefore(headers, h, |headers|).Some? <==> h in headers
  {
    if h in headers {
      var j :| 0 <= j < |headers| && headers[j] == h;
    }
  }

  /** Every header is a key of the row and nothing else is; a repeated header
      keeps the cell of its last occurrence; only the data type's numeric
      columns are converted. */
  lemma {:induction false} RowOfContents(headers: seq<string>, values: seq<string>, t: CsvType, j: nat)
    requires j < |headers|
    requires forall k :: j < k < |headers| ==> headers[k] != headers[j]
    ensures forall h :: h in RowOf(headers, values, t) <==> h in headers
    ensures RowOf(headers, values, t)[headers[j]].cell == Cell(values, j)
    ensures RowOf(headers, values, t)[headers[j]].Text? <==> headers[j] !in NumericColumns(t)
  {
    RowUpToContents(headers, values, t, |headers|);
    forall h ensures h in RowOf(headers, values, t) <==> h in headers {
      LastBeforeFinds(headers, h);
    }
    var r := LastBefore(headers, headers[j], |headers|);
    assert r.Some?;
  }

  /** The `headers.forEach` loop that fills one row. */
  method BuildRow(headers: seq<string>, values: seq<string>, t: CsvType) returns (row: Row)
    ensures row == RowOf(headers, values, t)
  {
    row := map[];
    var index := 0;
    while index < |headers|
      invariant 0 <= index <= |headers|
      invariant row == RowUpTo(headers, values, t, index)
    {
      var header := headers[index];
      row := row[header := Convert(t, header, Cell(values, index))];
      index := index + 1;
    }
  }

  /** The rows of the lines after the header, each filled by `BuildRow`. */
  method BuildRows(headers: seq<string>, lines: seq<string>, t: CsvType) returns (data: seq<Row>)
    requires |lines| >= 1
    ensures data == RowsOf(headers, lines, t)
  {
    data := [];
    var i := 1;
    while i < |lines|
      invariant 1 <= i <= |lines|
      invariant |data| == i - 1
      invariant data == RowsOf(headers, lines, t)[..i - 1]
    {
      var row := BuildRow(headers, Fields(lines[i]), t);
      PrefixSnoc(RowsOf(headers, lines, t), i);
      assert row == RowsOf(headers, lines, t)[i - 1];
      data := data + [row];
      i := i + 1;
    }
    assert RowsOf(headers, lines, t)[..|lines| - 1] == RowsOf(headers, lines, t);
  }


  /** Why an upload is refused. */
  datatype CsvError = NotCsv | NoData | MissingColumns(columns: seq<string>)

  const MissingColumnsPrefix: string := "必要な列が不足しています: "

  /** The message shown for each refusal: a fixed sentence for a wrong file
      name and for a file without data rows, and for missing columns a fixed
      prefix followed by the columns, comma separated. */
  function Message(e: CsvError): (msg: string)
    ensures e.NotCsv? ==> msg == "CSVファイルを選択してください"
    ensures e.NoData? ==> msg == "CSVファイルにデータが含まれていません"
    ensures e.MissingColumns? ==> msg == MissingColumnsPrefix + Join(e.columns, ", ")
  {
    match e
    case NotCsv => "CSVファイルを選択してください"
    case NoData => "CSVファイルにデータが含まれていません"
    case MissingColumns(cols) => MissingColumnsPrefix + Join(cols, ", ")
  }

  /** `text.trim().split('\n')`. */
  function Lines(text: string): seq<string> {
    Split(Trim(text), '\n')
  }

  predicate IsCsvName(fileName: string) {
    EndsWith(Lower(fileName), ".csv")
  }

  /** The callback of `expectedCols.filter`. */
  function MissingFrom(headers: seq<string>): string -> bool {
    col => col !in headers
  }

  /** The header of a text with at least two lines. */
  function HeaderOf(text: string): seq<string>
    requires |Lines(text)| >= 2
  {
    Fields(Lines(text)[0])
  }

  /** `lines.slice(1).map(...)`: one row per line after the header, blank lines
      included. */
  function RowsOf(headers: seq<string>, lines: seq<string>, t: CsvType): seq<Row>
    requires |lines| >= 1
  {
    seq(|lines| - 1, i requires 0 <= i < |lines| - 1 => RowOf(headers, Fields(lines[i + 1]), t))
  }

  /** What `handleFile` delivers for a file: the rows, or the error it reports. */
  function Parse(fileName: string, text: string, t: CsvType): (r: Result<seq<Row>, CsvError>)
    ensures !IsCsvName(fileName) ==> r == Failure(NotCsv)
    ensures r == Failure(NoData) <==> IsCsvName(fileName) && |Lines(text)| < 2
    ensures r.Failure? && r.error.MissingColumns? ==>
              && |r.error.columns| > 0
              && Selects(r.error.columns, ExpectedColumns(t), MissingFrom(HeaderOf(text)))
    ensures r.Success? <==>
              && IsCsvName(fileName) && |Lines(text)| >= 2
              && forall col :: col in ExpectedColumns(t) ==> col in HeaderOf(text)
    ensures r.Success? ==> r.value == RowsOf(HeaderOf(text), Lines(text), t)
  {
    if !IsCsvName(fileName) then Failure(NotCsv)
    else
      var lines := Lines(text);
      if |lines| < 2 then Failure(NoData)
      else
        var headers := Fields(lines[0]);
        var missing := Filter(ExpectedColumns(t), MissingFrom(headers));
        if |missing| > 0 then
          Failure(MissingColumns(missing))
        else
          assert forall col :: col in ExpectedColumns(t) ==> col in headers by {
            forall col | col in ExpectedColumns(t) ensures col in headers {
              assert multiset(missing)[col] == 0;
            }
          }
          Success(RowsOf(headers, lines, t))
  }

  /** A missing column is reported exactly when it is expected and absent, in
      the order of `expectedColumns`, and a header with extra columns beyond the
      expected ones is accepted. */
  lemma {:induction false} MissingColumnsReported(fileName: string, text: string, t: CsvType, col: string)
    requires IsCsvName(fileName) && |Lines(text)| >= 2
    ensures var r := Parse(fileName, text, t);
            && (col in ExpectedColumns(t) && col !in HeaderOf(text) ==>
                  r.Failure? && r.error.MissingColumns? && col in r.error.columns)
            && (r.Failure? ==> r.error.MissingColumns? && (col in r.error.columns <==>
                  col in ExpectedColumns(t) && col !in HeaderOf(text)))
  {
    var r := Parse(fileName, text, t);
    if r.Failure? {
      assert r.error.MissingColumns?;
      var m := r.error.columns;
      assert col in m <==> multiset(m)[col] > 0;
      assert col in ExpectedColumns(t) <==> multiset(ExpectedColumns(t))[col] > 0;
    }
  }

  /** The status the component shows. */
  datatype Status = Idle | Uploading | Succeeded | Failed

  /** The store slot an upload of a data type lands in, if any. */
  function SlotOf(t: CsvType): Option<DataType> {
    match t
    case TrafficCsv => Some(Traffic)
    case ParkingCsv => Some(Parking)
    case WeatherCsv => None
  }

  /** One uploader: its data type, and the `uploadStatus` and `errorMessage`
      state. */
  class Uploader {
    const dataType: CsvType
    var status: Status
    var errorMessage: string

    constructor (t: CsvType)
      ensures dataType == t && status == Idle && errorMessage == ""
    {
      dataType := t;
      status := Idle;
      errorMessage := "";
    }

    /** `handleFile(file)` once the file's text is read, with `onDataUploaded`
        bound to the store's upload: the rows reach the store only on success,
        and a failure leaves the store as it was. */
    method HandleFile(fileName: string, text: string, store: CsvStore<Row>)
      modifies this, store
      ensures var r := Parse(fileName, text, dataType);
              && (r.Failure? ==> status == Failed && errorMessage == Message(r.error) && unchanged(store))
              && (r.Success? ==> status == Succeeded && errorMessage == "")
              && (r.Success? && SlotOf(dataType).Some? ==>
                    var d := SlotOf(dataType).value;
                    && store.Slot(d) == r.value && store.IsUsing(d)
                    && store.Slot(Other(d)) == old(store.Slot(Other(d)))
                    && store.IsUsing(Other(d)) == old(store.IsUsing(Other(d))))
              && (r.Success? && SlotOf(dataType).None? ==> unchanged(store))
    {
      if !EndsWith(Lower(fileName), ".csv") {
        status := Failed;
        errorMessage := Message(NotCsv);
        return;
      }
      status := Uploading;
      errorMessage := "";
      var lines := Split(Trim(text), '\n');
      if |lines| < 2 {
        status := Failed;
        errorMessage := Message(NoData);
        return;
      }
      var headers := Fields(lines[0]);
      var missing := Filter(ExpectedColumns(dataType), MissingFrom(headers));
      if |missing| > 0 {
        assert Parse(fileName, text, dataType) == Failure(MissingColumns(missing));
        status := Failed;
        errorMessage := Message(MissingColumns(missing));
        return;
      }
      var data := BuildRows(headers, lines, dataType);
      assert Parse(fileName, text, dataType) == Success(data);
      status := Succeeded;
      if dataType == TrafficCsv {
        store.Upload(data, Traffic);
      } else if dataType == ParkingCsv {
        store.Upload(data, Parking);
      }
    }
  }
}
