/**
 * The two importers. parseCSV reads a header line and data lines, maps each cell to a field by
 * the words in its header, keeps the rows whose five fields are all truthy, sorts them by date
 * and validates them. parseJSON picks the array of records out of a parsed document,
 * normalises each record's field aliases, sorts by date and validates.
 */
module Import {
  import opened Optional
  import opened Text
  import opened Sorting
  import opened Records
  import opened Json
  import opened Validation

  /** Why an import failed. */
  datatype ImportIssue =
    | NoCsvData                          // fewer than two lines
    | MissingColumns(names: seq<string>) // required header words not found
    | NoValidRows                        // no data line survived
    | BadJsonShape                       // neither an array nor an object holding one
    | NoJsonData                         // the array is empty
    | Rejected(error: ImportError)       // a message of validateImportData
    | Thrown                             // an exception caught by the importer

  datatype ImportResult = Success(data: seq<Row>) | Failure(errors: seq<ImportIssue>)

  /** The rows sorted by `a.date.localeCompare(b.date)`, for string dates. */
  function DateText(row: Row): string {
    if row.date.Str? then row.date.s else ""
  }

  function SortRows(rows: seq<Row>): (r: seq<Row>)
    ensures multiset(r) == multiset(rows)
    ensures forall i, j :: 0 <= i < j < |r| ==> LexLe(DateText(r[i]), DateText(r[j]))
  {
    KeyOrdersAreTotalPreorders(DateText);
    SortSorted(rows, Ascending(DateText));
    SortBy(rows, Ascending(DateText))
  }

  /** The end of both importers: validate the sorted rows and report the messages or the rows. */
  function Checked(rows: seq<Row>, rt: Runtime): (r: ImportResult)
    ensures r.Success? <==> ImportValidation(rows, rt).isValid
    ensures r.Success? ==> r.data == rows
    ensures r.Failure? ==> 1 <= |r.errors| <= 20
  {
    var v := ImportValidation(rows, rt);
    ImportValidationProperties(rows, rt);
    if v.isValid then Success(rows)
    else Failure(seq(|v.errors|, i requires 0 <= i < |v.errors| => Rejected(v.errors[i])))
  }

  // ---------------------------------------------------------------------------------------------
  // CSV

  /** The number parsers of the runtime; None is NaN. */
  datatype NumberParsers = NumberParsers(parseFloat: string -> Option<real>, parseInt: string -> Option<int>)

  /** A header cell or data cell: trimmed, with every double quote removed. */
  function Clean(cell: string): (r: string)
    ensures '"' !in r
  {
    Without(Trim(cell), {'"'})
  }

  /**
   * `line.split(',').map(clean)`: one cell more than the line has commas, and no cell holds a
   * comma or a double quote.
   */
  function Cells(line: string): (r: seq<string>)
    ensures |r| == Occurrences(line, ',') + 1 == |Split(line, ',')|
    ensures forall i :: 0 <= i < |r| ==> ',' !in r[i] && '"' !in r[i]
    ensures forall i :: 0 <= i < |r| ==> r[i] == Clean(Split(line, ',')[i])
  {
    var parts := Split(line, ',');
    SplitCount(line, ',');
    forall i | 0 <= i < |parts| ensures ',' !in Clean(parts[i]) {
      TrimAvoids(parts[i], ',');
      WithoutAvoids(Trim(parts[i]), {'"'}, ',');
    }
    seq(|parts|, i requires 0 <= i < |parts| => Clean(parts[i]))
  }

  const RequiredColumns: seq<string> := ["日付", "給油量", "金額", "走行距離", "スタンド名"]

  predicate HasColumn(headers: seq<string>, word: string) {
    exists h :: h in headers && Contains(h, word)
  }

  /** `m` can be obtained from `s` by dropping elements: its elements come in the order of `s`. */
  predicate Subsequence<T(==)>(m: seq<T>, s: seq<T>) {
    m == [] || (s != [] && ((m[0] == s[0] && Subsequence(m[1..], s[1..])) || Subsequence(m, s[1..])))
  }

  /** The required words no header contains, in their listed order. */
  function MissingFrom(words: seq<string>, headers: seq<string>): (m: seq<string>)
    ensures forall w :: w in m <==> w in words && !HasColumn(headers, w)
    ensures |m| <= |words| && Subsequence(m, words)
  {
    if words == [] then []
    else
      var rest := MissingFrom(words[1..], headers);
      var m := (if HasColumn(headers, words[0]) then [] else [words[0]]) + rest;
      assert if HasColumn(headers, words[0]) then m == rest else m[0] == words[0] && m[1..] == rest;
      m
  }

  /** Which field a header fills: the first of its words found, in the order the source tests them. */
  datatype Column = DateColumn | AmountColumn | CostColumn | MileageColumn | StationColumn | OtherColumn

  function ColumnOf(header: string): Column {
    if Contains(header, "日付") then DateColumn
    else if Contains(header, "給油量") then AmountColumn
    else if Contains(header, "金額") then CostColumn
    else if Contains(header, "走行距離") then MileageColumn
    else if Contains(header, "スタンド") then StationColumn
    else OtherColumn
  }

  /** The `record` object of a data line; None is a property never assigned. */
  datatype CsvRecord = CsvRecord(
    date: Option<string>, amount: Option<real>, cost: Option<int>, mileage: Option<real>, station: Option<string>)

  const Blank := CsvRecord(None, None, None, None, None)

  /**
   * One cell assigned to its field: amounts and mileages through parseFloat, the cost through
   * parseInt after dropping `,` and `¥`, NaN and 0 becoming 0 (`|| 0`).
   */
  function AssignCell(record: CsvRecord, header: string, value: string, p: NumberParsers): CsvRecord {
    match ColumnOf(header)
    case DateColumn => record.(date := Some(value))
    case AmountColumn => record.(amount := Some(p.parseFloat(value).GetOr(0.0)))
    case CostColumn => record.(cost := Some(CostCell(value, p)))
    case MileageColumn => record.(mileage := Some(p.parseFloat(value).GetOr(0.0)))
    case StationColumn => record.(station := Some(value))
    case OtherColumn => record
  }

  /** A cost cell: parseInt after dropping `,` and `¥`, with NaN read as 0. */
  function CostCell(value: string, p: NumberParsers): int {
    p.parseInt(Without(value, {',', '¥'})).GetOr(0)
  }

  /** The record after the first `n` cells of a line. */
  function Assign(headers: seq<string>, values: seq<string>, n: nat, p: NumberParsers): CsvRecord
    requires n <= |headers| == |values|
  {
    if n == 0 then Blank else AssignCell(Assign(headers, values, n - 1, p), headers[n - 1], values[n - 1], p)
  }

  /**
   * The date is set exactly when some header is a date header, and then holds the cell of the
   * last one: a later column of the same kind overwrites an earlier one.
   */
  lemma {:induction false} AssignedDate(headers: seq<string>, values: seq<string>, n: nat, p: NumberParsers)
    requires n <= |headers| == |values|
    ensures var r := Assign(headers, values, n, p);
      && (r.date.Some? <==> exists i :: 0 <= i < n && ColumnOf(headers[i]) == DateColumn)
      && (r.date.Some? ==> exists i :: (0 <= i < n && ColumnOf(headers[i]) == DateColumn && r.date.value == values[i]
            && forall j :: i < j < n ==> ColumnOf(headers[j]) != DateColumn))
  {
    if n > 0 {
      AssignedDate(headers, values, n - 1, p);
      var r := Assign(headers, values, n, p);
      if ColumnOf(headers[n - 1]) != DateColumn && r.date.Some? {
        var i :| 0 <= i < n - 1 && ColumnOf(headers[i]) == DateColumn && r.date.value == values[i]
          && forall j :: i < j < n - 1 ==> ColumnOf(headers[j]) != DateColumn;
        assert forall j :: i < j < n ==> ColumnOf(headers[j]) != DateColumn;
      }
    }
  }

  /**
   * The cost is set exactly when some header is a cost header, and then is parseInt of the
   * last such cell with `,` and `¥` removed, or 0 when that is NaN or 0.
   */
  lemma {:induction false} AssignedCost(headers: seq<string>, values: seq<string>, n: nat, p: NumberParsers)
    requires n <= |headers| == |values|
    ensures var r := Assign(headers, values, n, p);
      && (r.cost.Some? <==> exists i :: 0 <= i < n && ColumnOf(headers[i]) == CostColumn)
      && (r.cost.Some? ==> exists i :: (0 <= i < n && ColumnOf(headers[i]) == CostColumn
            && r.cost.value == CostCell(values[i], p)
            && forall j :: i < j < n ==> ColumnOf(headers[j]) != CostColumn))
  {
    if n > 0 {
      AssignedCost(headers, values, n - 1, p);
      var r := Assign(headers, values, n, p);
      if ColumnOf(headers[n - 1]) != CostColumn && r.cost.Some? {
        var i :| 0 <= i < n - 1 && ColumnOf(headers[i]) == CostColumn
          && r.cost.value == CostCell(values[i], p)
          && forall j :: i < j < n - 1 ==> ColumnOf(headers[j]) != CostColumn;
        assert forall j :: i < j < n ==> ColumnOf(headers[j]) != CostColumn;
      }
    }
  }

  /** `record.date && record.amount && record.cost && record.mileage && record.station`. */
  predicate Kept(r: CsvRecord) {
    && r.date.Some? && r.date.value != ""
    && r.amount.Some? && r.amount.value != 0.0
    && r.cost.Some? && r.cost.value != 0
    && r.mileage.Some? && r.mileage.value != 0.0
    && r.station.Some? && r.station.value != ""
  }

  /** The kept record as the row handed to validateImportData. */
  function ToRow(r: CsvRecord): Row
    requires Kept(r)
  {
    Row(Str(r.date.value), Number(r.amount.value), Number(r.cost.value as real), Number(r.mileage.value), Str(r.station.value))
  }

  /** What data line `i` contributes: nothing when its cell count differs from the header's. */
  function LineRows(headers: seq<string>, line: string, p: NumberParsers): seq<Row> {
    var values := Cells(line);
    if |values| != |headers| then []
    else
      var record := Assign(headers, values, |headers|, p);
      if Kept(record) then [ToRow(record)] else []
  }

  /** The rows collected from data lines `1 .. n - 1`. */
  function KeptRows(lines: seq<string>, headers: seq<string>, n: nat, p: NumberParsers): seq<Row>
    requires n <= |lines|
  {
    if n <= 1 then [] else KeptRows(lines, headers, n - 1, p) + LineRows(headers, lines[n - 1], p)
  }

  /**
   * Every collected row comes from one data line with as many cells as the header, and there
   * is at most one row per data line.
   */
  lemma {:induction false} KeptRowsFrom(lines: seq<string>, headers: seq<string>, n: nat, p: NumberParsers)
    requires n <= |lines|
    ensures |KeptRows(lines, headers, n, p)| <= if n == 0 then 0 else n - 1
    ensures forall row :: row in KeptRows(lines, headers, n, p) ==>
      exists i :: 1 <= i < n && |Cells(lines[i])| == |headers| && LineRows(headers, lines[i], p) == [row]
  {
    if n > 1 {
      KeptRowsFrom(lines, headers, n - 1, p);
    }
  }

  /** Every collected row has its five fields truthy: no empty text and no zero number. */
  lemma {:induction false} KeptRowsTruthy(lines: seq<string>, headers: seq<string>, n: nat, p: NumberParsers)
    requires n <= |lines|
    ensures forall row :: row in KeptRows(lines, headers, n, p) ==>
      && row.date.Str? && row.date.s != ""
      && row.amount.Number? && row.amount.n != 0.0
      && row.cost.Number? && row.cost.n != 0.0
      && row.mileage.Number? && row.mileage.n != 0.0
      && row.station.Str? && row.station.s != ""
  {
    if n > 1 {
      KeptRowsTruthy(lines, headers, n - 1, p);
    }
  }

  /** What parseCSV returns for a text, given the runtime's number parsers. */
  function CsvImport(text: string, p: NumberParsers, rt: Runtime): ImportResult {
    CsvLines(Split(Trim(text), '\n'), p, rt)
  }

  /** parseCSV after splitting the trimmed text into lines. */
  function CsvLines(lines: seq<string>, p: NumberParsers, rt: Runtime): ImportResult {
    if |lines| < 2 then Failure([NoCsvData]) else CsvTable(lines, Cells(lines[0]), p, rt)
  }

  /** parseCSV once the header line has been read into `headers`. */
  function CsvTable(lines: seq<string>, headers: seq<string>, p: NumberParsers, rt: Runtime): ImportResult
    requires |lines| >= 1
  {
    var missing := MissingFrom(RequiredColumns, headers);
    if missing != [] then Failure([MissingColumns(missing)])
    else
      var data := KeptRows(lines, headers, |lines|, p);
      if data == [] then Failure([NoValidRows]) else Checked(SortRows(data), rt)
  }

  /**
   * parseCSV: split into lines, check the header words, assign each data line's cells to a
   * record and keep it when its five fields are truthy, then sort by date and validate.
   */
  method ParseCsv(text: string, p: NumberParsers, rt: Runtime) returns (result: ImportResult)
    ensures result == CsvImport(text, p, rt)
  {
    var lines := Split(Trim(text), '\n');
    if |lines| < 2 {
      return Failure([NoCsvData]);
    }
    var headers := Cells(lines[0]);
    result := ReadTable(lines, headers, p, rt);
  }

  /** parseCSV's header check, line loop, sort and validation. */
  method ReadTable(lines: seq<string>, headers: seq<string>, p: NumberParsers, rt: Runtime)
    returns (result: ImportResult)
    requires |lines| >= 1
    ensures result == CsvTable(lines, headers, p, rt)
  {
    var missing := MissingFrom(RequiredColumns, headers);
    if |missing| > 0 {
      return Failure([MissingColumns(missing)]);
    }
    var data := CollectRows(lines, headers, p);
    if |data| == 0 {
      return Failure([NoValidRows]);
    }
    data := SortRows(data);
    result := Checked(data, rt);
  }

  /** parseCSV's loop over the data lines. */
  method CollectRows(lines: seq<string>, headers: seq<string>, p: NumberParsers) returns (data: seq<Row>)
    requires |lines| >= 1
    ensures data == KeptRows(lines, headers, |lines|, p)
  {
    data := [];
    for i := 1 to |lines|
      invariant data == KeptRows(lines, headers, i, p)
    {
      data := ReadLine(data, headers, lines[i], p);
    }
  }

  /** One pass of parseCSV's line loop: skip a line of the wrong width, else assign and keep. */
  method ReadLine(data: seq<Row>, headers: seq<string>, line: string, p: NumberParsers) returns (data': seq<Row>)
    ensures data' == data + LineRows(headers, line, p)
  {
    data' := data;
    var values := Cells(line);
    if |values| != |headers| {
      return;
    }
    var record := AssignCells(headers, values, p);
    if Kept(record) {
      data' := data' + [ToRow(record)];
    }
  }

  /** `headers.forEach((header, index) => ...)`: each cell assigned to its field in turn. */
  method AssignCells(headers: seq<string>, values: seq<string>, p: NumberParsers) returns (record: CsvRecord)
    requires |headers| == |values|
    ensures record == Assign(headers, values, |headers|, p)
  {
    record := Blank;
    for index := 0 to |headers|
      invariant record == Assign(headers, values, index, p)
    {
      record := AssignCell(record, headers[index], values[index], p);
    }
  }

  /**
   * The outcomes of parseCSV: a text of fewer than two lines fails with one message; missing
   * header words fail with one message naming exactly those words; otherwise success means
   * the surviving rows, sorted by date, passed validateImportData.
   */
  lemma CsvOutcomes(text: string, p: NumberParsers, rt: Runtime)
    ensures var lines := Split(Trim(text), '\n');
      var r := CsvImport(text, p, rt);
      && (|lines| < 2 ==> r == Failure([NoCsvData]))
      && (|lines| >= 2 && MissingFrom(RequiredColumns, Cells(lines[0])) != [] ==>
            r == Failure([MissingColumns(MissingFrom(RequiredColumns, Cells(lines[0])))]))
      && (|lines| >= 2 && r.Failure? && r.errors != [] && r.errors[0].MissingColumns? ==>
            |r.errors| == 1
            && forall w :: w in r.errors[0].names <==> w in RequiredColumns && !HasColumn(Cells(lines[0]), w))
      && (r.Success? ==>
            && |lines| >= 2
            && (forall w :: w in RequiredColumns ==> HasColumn(Cells(lines[0]), w))
            && multiset(r.data) == multiset(KeptRows(lines, Cells(lines[0]), |lines|, p))
            && r.data != []
            && (forall i, j :: 0 <= i < j < |r.data| ==> LexLe(DateText(r.data[i]), DateText(r.data[j])))
            && ImportValidation(r.data, rt).isValid)
  {
    var lines := Split(Trim(text), '\n');
    if |lines| >= 2 {
      var headers := Cells(lines[0]);
      var data := KeptRows(lines, headers, |lines|, p);
      if MissingFrom(RequiredColumns, headers) == [] && data != [] {
        var sorted := SortRows(data);
        assert |sorted| == |data| by { assert |multiset(sorted)| == |multiset(data)|; }
      }
    }
  }

  /**
   * A data line whose amount, cost or mileage reads as 0 (or does not read as a number) is
   * dropped, even though 0 km is a legitimate odometer reading.
   */
  lemma ZeroCellDropped(headers: seq<string>, line: string, p: NumberParsers)
    requires var values := Cells(line); |values| == |headers|
    requires var r := Assign(headers, Cells(line), |headers|, p);
      r.mileage == Some(0.0) || r.amount == Some(0.0) || r.cost == Some(0)
    ensures LineRows(headers, line, p) == []
  {
  }

  // ---------------------------------------------------------------------------------------------
  // JSON

  /** The records array of a parsed document: the document itself, else `.records`, else `.data`. */
  datatype Container = Items(records: seq<Value>) | BadShape | Throws

  function ContainerOf(parsed: Value): (c: Container)
    ensures parsed.Array? ==> c == Items(parsed.items)
    ensures c.Throws? <==> parsed.Null? || parsed.Undefined?
    ensures !parsed.Array? && !parsed.Null? && !parsed.Undefined? ==>
      var records, data := Property(parsed, "records"), Property(parsed, "data");
      && (Truthy(records) && records.Array? ==> c == Items(records.items))
      && (!(Truthy(records) && records.Array?) && Truthy(data) && data.Array? ==> c == Items(data.items))
      && (c.BadShape? <==> !(Truthy(records) && records.Array?) && !(Truthy(data) && data.Array?))
  {
    if parsed.Array? then Items(parsed.items)
    else if parsed.Null? || parsed.Undefined? then Throws   // reading `.records` of null
    else
      var records := Property(parsed, "records");
      if Truthy(records) && records.Array? then Items(records.items)
      else
        var data := Property(parsed, "data");
        if Truthy(data) && data.Array? then Items(data.items) else BadShape
  }

  /** `a || b || c || fallback` over the aliases of one field. */
  function FirstTruthy(record: Value, keys: seq<string>, fallback: Value): (r: Value)
    requires !record.Null? && !record.Undefined?
    ensures (forall j :: 0 <= j < |keys| ==> !Truthy(Property(record, keys[j]))) ==> r == fallback
    ensures forall j ::
      (0 <= j < |keys| && Truthy(Property(record, keys[j])) && forall k :: 0 <= k < j ==> !Truthy(Property(record, keys[k])))
      ==> r == Property(record, keys[j])
  {
    if keys == [] then fallback
    else if Truthy(Property(record, keys[0])) then Property(record, keys[0])
    else
      assert forall j :: 1 <= j < |keys| ==> keys[1..][j - 1] == keys[j];
      FirstTruthy(record, keys[1..], fallback)
  }

  /** One record normalised to the five fields with their aliases and defaults. */
  function Normalize(record: Value, rt: Runtime): (row: Row)
    requires !record.Null? && !record.Undefined?
    ensures row.amount.Number? || row.amount.NaN?
    ensures row.cost.Number? || row.cost.NaN?
    ensures row.mileage.Number? || row.mileage.NaN?
    ensures row.station.Str?
  {
    Row(
      FirstTruthy(record, ["date", "給油日"], Str("")),
      NumberValue(ToNumber(FirstTruthy(record, ["amount", "給油量", "給油量(L)"], Number(0.0)), rt)),
      NumberValue(ToNumber(FirstTruthy(record, ["cost", "金額", "金額(円)"], Number(0.0)), rt)),
      NumberValue(ToNumber(FirstTruthy(record, ["mileage", "走行距離", "走行距離(km)"], Number(0.0)), rt)),
      Str(ToStr(FirstTruthy(record, ["station", "スタンド名", "スタンド"], Str("")), rt)))
  }

  /** A record carrying none of the aliases normalises to the empty date and station and zeros. */
  lemma NormalizeDefaults(record: Value, rt: Runtime)
    requires record.Object? && record.fields == map[]
    ensures Normalize(record, rt) == Row(Str(""), Number(0.0), Number(0.0), Number(0.0), Str(""))
  {
  }

  /** `records.map(normalize)`: one row per record. */
  function NormalizeAll(records: seq<Value>, rt: Runtime): (rows: seq<Row>)
    requires forall i :: 0 <= i < |records| ==> !records[i].Null? && !records[i].Undefined?
    ensures |rows| == |records|
  {
    seq(|records|, i requires 0 <= i < |records| => Normalize(records[i], rt))
  }

  /** What parseJSON returns for an already-parsed document. */
  function JsonImport(parsed: Value, rt: Runtime): ImportResult {
    match ContainerOf(parsed)
    case Throws => Failure([Thrown])
    case BadShape => Failure([BadJsonShape])
    case Items(records) => ItemsImport(records, rt)
  }

  /**
   * parseJSON once it has the array of records: an empty array is one message; a null record
   * throws in normalize; a non-string date throws in the comparator; otherwise the normalised
   * rows are sorted by date and validated.
   */
  function ItemsImport(records: seq<Value>, rt: Runtime): ImportResult {
    if records == [] then Failure([NoJsonData])
    else if exists i :: 0 <= i < |records| && (records[i].Null? || records[i].Undefined?) then Failure([Thrown])
    else
      var rows := NormalizeAll(records, rt);
      if |rows| >= 2 && exists i :: 0 <= i < |rows| && !rows[i].date.Str? then Failure([Thrown])
      else Checked(SortRows(rows), rt)
  }

  /** Success on an array of records means one validated row per record, sorted by date. */
  lemma ItemsOutcomes(records: seq<Value>, rt: Runtime)
    ensures var r := ItemsImport(records, rt);
      && (records == [] ==> r == Failure([NoJsonData]))
      && (r.Success? ==>
            && |r.data| == |records| > 0
            && (forall i :: 0 <= i < |records| ==> !records[i].Null? && !records[i].Undefined?)
            && multiset(r.data) == multiset(NormalizeAll(records, rt))
            && (forall i, j :: 0 <= i < j < |r.data| ==> LexLe(DateText(r.data[i]), DateText(r.data[j])))
            && ImportValidation(r.data, rt).isValid)
  {
    var r := ItemsImport(records, rt);
    if r.Success? {
      assert records != [] && forall i :: 0 <= i < |records| ==> !records[i].Null? && !records[i].Undefined?;
      var rows := NormalizeAll(records, rt);
      var sorted := SortRows(rows);
      assert r == Checked(sorted, rt);
      assert |sorted| == |rows| by { assert |multiset(sorted)| == |multiset(rows)|; }
    }
  }

  /**
   * The outcomes of parseJSON: the records come from a bare array, else `.records`, else
   * `.data`; an empty array fails with one message; success means the normalised records,
   * one per input record and sorted by date, passed validateImportData.
   */
  lemma JsonOutcomes(parsed: Value, rt: Runtime)
    ensures var r := JsonImport(parsed, rt);
      && (ContainerOf(parsed) == Items([]) ==> r == Failure([NoJsonData]))
      && (ContainerOf(parsed).BadShape? ==> r == Failure([BadJsonShape]))
      && (r.Success? ==>
            && ContainerOf(parsed).Items?
            && |r.data| == |ContainerOf(parsed).records| > 0
            && (forall i :: 0 <= i < |ContainerOf(parsed).records| ==>
                  !ContainerOf(parsed).records[i].Null? && !ContainerOf(parsed).records[i].Undefined?)
            && multiset(r.data) == multiset(NormalizeAll(ContainerOf(parsed).records, rt))
            && (forall i, j :: 0 <= i < j < |r.data| ==> LexLe(DateText(r.data[i]), DateText(r.data[j])))
            && ImportValidation(r.data, rt).isValid)
  {
    if ContainerOf(parsed).Items? {
      ItemsOutcomes(ContainerOf(parsed).records, rt);
    }
  }
}
