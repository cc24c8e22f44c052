/**
 * The three exporters: the CSV file (header and one line per record), the JSON document (each
 * record with its unit price, efficiency and distance from the previous record) and the
 * monthly text report. Only the content is modelled; number formatting is a parameter and the
 * download is left out.
 */
module Export {
  import opened Optional
  import opened Text
  import opened Sorting
  import opened Reals
  import opened Records
  import opened Grouping
  import opened Statistics
  import Import

  /** The number formatting of the runtime: `toFixed(1)`, `toString()` and `toLocaleString()`. */
  datatype NumberText = NumberText(fixed1: real -> string, plain: real -> string, grouped: real -> string)

  // ---------------------------------------------------------------------------------------------
  // CSV

  /** The byte order mark put in front of the CSV text. */
  const Bom: char := '\U{FEFF}'

  const CsvHeader: seq<string> := ["日付", "スタンド名", "給油量(L)", "金額(円)", "単価(円/L)", "走行距離(km)", "燃費(km/L)"]

  function HeaderLine(): string {
    Join(CsvHeader, ',')
  }

  /** The efficiency cell: `-` for the first record, else the unguarded distance per litre. */
  function EfficiencyCell(records: seq<FuelRecord>, i: nat, fmt: NumberText): string
    requires i < |records|
  {
    if i > 0 then fmt.fixed1((records[i].mileage - records[i - 1].mileage) / records[i].amount) else "-"
  }

  /** The cells of the CSV line of `records[i]`. */
  function CsvCells(records: seq<FuelRecord>, i: nat, fmt: NumberText): seq<string>
    requires i < |records|
  {
    var r := records[i];
    [r.date, "\"" + r.station + "\"", fmt.fixed1(r.amount), fmt.plain(r.cost),
     fmt.fixed1(r.cost / r.amount), fmt.fixed1(r.mileage), EfficiencyCell(records, i, fmt)]
  }

  function CsvRows(records: seq<FuelRecord>, fmt: NumberText): (rows: seq<string>)
    ensures |rows| == |records|
  {
    seq(|records|, i requires 0 <= i < |records| => Join(CsvCells(records, i, fmt), ','))
  }

  /** exportToCSV's file content; nothing for no records. */
  function CsvExport(records: seq<FuelRecord>, fmt: NumberText): Option<string> {
    if records == [] then None
    else Some([Bom] + Join([HeaderLine()] + CsvRows(records, fmt), '\n'))
  }

  /** Neither the record texts nor the formatted numbers contain the character `c`. */
  ghost predicate Avoids(records: seq<FuelRecord>, fmt: NumberText, c: char) {
    && (forall i :: 0 <= i < |records| ==> c !in records[i].date && c !in records[i].station)
    && (forall x :: c !in fmt.fixed1(x))
    && (forall x :: c !in fmt.plain(x))
  }

  lemma CellsAvoid(records: seq<FuelRecord>, i: nat, fmt: NumberText, c: char)
    requires i < |records| && Avoids(records, fmt, c) && c !in "\"-"
    ensures forall k :: 0 <= k < 7 ==> c !in CsvCells(records, i, fmt)[k]
  {
    var cells := CsvCells(records, i, fmt);
    assert cells[1] == ['"'] + records[i].station + ['"'];
  }

  /** A record line splits at its commas into the seven cells: date, quoted station, figures. */
  lemma CsvRowCells(records: seq<FuelRecord>, i: nat, fmt: NumberText)
    requires i < |records| && Avoids(records, fmt, ',')
    ensures var cells := Split(CsvRows(records, fmt)[i], ',');
      && cells == CsvCells(records, i, fmt)
      && |cells| == 7
      && cells[0] == records[i].date
      && cells[1] == "\"" + records[i].station + "\""
  {
    CellsAvoid(records, i, fmt, ',');
    SplitJoin(CsvCells(records, i, fmt), ',');
  }

  lemma CsvRowOneLine(records: seq<FuelRecord>, i: nat, fmt: NumberText)
    requires i < |records| && Avoids(records, fmt, '\n')
    ensures '\n' !in CsvRows(records, fmt)[i]
  {
    CellsAvoid(records, i, fmt, '\n');
    JoinAvoids(CsvCells(records, i, fmt), ',', '\n');
  }

  /**
   * Read back line by line, the CSV text after its byte order mark is the header followed by
   * exactly one line per record, in input order.
   */
  lemma CsvLayout(records: seq<FuelRecord>, fmt: NumberText)
    requires records != [] && Avoids(records, fmt, '\n')
    ensures var text := CsvExport(records, fmt).value;
      && text[0] == Bom
      && Split(text[1..], '\n') == [HeaderLine()] + CsvRows(records, fmt)
      && |Split(text[1..], '\n')| == |records| + 1
  {
    var rows := CsvRows(records, fmt);
    var lines := [HeaderLine()] + rows;
    forall i | 0 <= i < |rows| ensures '\n' !in rows[i] {
      CsvRowOneLine(records, i, fmt);
    }
    assert '\n' !in HeaderLine() by {
      HeaderPlain();
      JoinAvoids(CsvHeader, ',', '\n');
    }
    SplitJoin(lines, '\n');
    assert ([Bom] + Join(lines, '\n'))[1..] == Join(lines, '\n');
  }

  /**
   * The efficiency cell has no positivity guard: after the first record it shows the distance
   * per litre whether or not the odometer advanced, which for an advance is the efficiency
   * the rest of the tracker reports.
   */
  lemma EfficiencyCellUnguarded(records: seq<FuelRecord>, i: nat, fmt: NumberText)
    requires i < |records|
    ensures i == 0 ==> CsvCells(records, i, fmt)[6] == "-"
    ensures i > 0 ==> exists x ::
      && CsvCells(records, i, fmt)[6] == fmt.fixed1(x)
      && x * records[i].amount == records[i].mileage - records[i - 1].mileage
      && (x > 0.0 <==> Efficiency(records[i], Previous(records, i)).Some?)
      && (x > 0.0 ==> Efficiency(records[i], Previous(records, i)) == Some(x))
  {
    if i > 0 {
      var x := (records[i].mileage - records[i - 1].mileage) / records[i].amount;
      assert x * records[i].amount == records[i].mileage - records[i - 1].mileage;
      assert CsvCells(records, i, fmt)[6] == fmt.fixed1(x);
    }
  }

  /** A header cell is not a column of a kind when it lacks the first character of its word. */
  lemma {:induction false} ContainsFirst(s: string, p: string)
    requires p != [] && Contains(s, p)
    ensures p[0] in s
    decreases |s|
  {
    if !StartsWith(s, p) {
      ContainsFirst(s[1..], p);
    }
  }

  /** A character the importer's cell cleaning and splitting leave alone. */
  predicate PlainChar(c: char) {
    !IsSpace(c) && c != ',' && c != '"'
  }

  /** The importer's cells of a line joined from non-empty cells of plain characters are those cells. */
  lemma CellsOfPlainJoin(cells: seq<string>)
    requires |cells| >= 1
    requires forall k :: 0 <= k < |cells| ==> cells[k] != []
    requires forall k, i :: 0 <= k < |cells| && 0 <= i < |cells[k]| ==> PlainChar(cells[k][i])
    ensures Import.Cells(Join(cells, ',')) == cells
  {
    SplitJoin(cells, ',');
    forall k | 0 <= k < |cells| ensures Import.Clean(cells[k]) == cells[k] {
      TrimmedAlready(cells[k]);
      WithoutNone(cells[k], {'"'});
    }
  }

  /** The importer's cells of the exported header line are the header's own cells. */
  lemma HeaderCellsImport()
    ensures Import.Cells(HeaderLine()) == CsvHeader
  {
    HeaderPlain();
    CellsOfPlainJoin(CsvHeader);
  }

  lemma HeaderPlain()
    ensures forall k, i :: 0 <= k < |CsvHeader| && 0 <= i < |CsvHeader[k]| ==> PlainChar(CsvHeader[k][i])
  {
  }

  /** Each required word starts some exported header cell. */
  lemma HeaderHasWord(q: nat)
    requires q < 5
    ensures Import.HasColumn(CsvHeader, Import.RequiredColumns[q])
  {
    var k := [0, 2, 3, 5, 1][q];
    var w := Import.RequiredColumns[q];
    assert StartsWith(CsvHeader[k], w);
    ContainsInfix(CsvHeader[k], 0, w);
    assert CsvHeader[k] in CsvHeader;
  }

  /** The exported header passes the importer's column check: no required word is missing. */
  lemma ExportedHeaderImports()
    ensures Import.MissingFrom(Import.RequiredColumns, Import.Cells(HeaderLine())) == []
  {
    HeaderCellsImport();
    HeaderHasWord(0); HeaderHasWord(1); HeaderHasWord(2); HeaderHasWord(3); HeaderHasWord(4);
  }

  /**
   * Each exported column is recognised by the importer as the field it holds; the unit-price
   * and efficiency columns as none.
   */
  lemma ExportedColumns()
    ensures Import.ColumnOf(CsvHeader[0]) == Import.DateColumn
    ensures Import.ColumnOf(CsvHeader[1]) == Import.StationColumn
    ensures Import.ColumnOf(CsvHeader[2]) == Import.AmountColumn
    ensures Import.ColumnOf(CsvHeader[3]) == Import.CostColumn
    ensures Import.ColumnOf(CsvHeader[4]) == Import.OtherColumn
    ensures Import.ColumnOf(CsvHeader[5]) == Import.MileageColumn
    ensures Import.ColumnOf(CsvHeader[6]) == Import.OtherColumn
  {
    ExportedColumn(0); ExportedColumn(1); ExportedColumn(2); ExportedColumn(3);
    ExportedColumn(4); ExportedColumn(5); ExportedColumn(6);
  }

  /** The importer's column words, in the order it tests them. */
  const ColumnWords: seq<string> := ["日付", "給油量", "金額", "走行距離", "スタンド"]

  function ColumnFor(q: nat): Import.Column {
    if q == 0 then Import.DateColumn
    else if q == 1 then Import.AmountColumn
    else if q == 2 then Import.CostColumn
    else if q == 3 then Import.MileageColumn
    else if q == 4 then Import.StationColumn
    else Import.OtherColumn
  }

  /** Which column word each exported header starts with (5 for none). */
  const HeaderWord: seq<nat> := [0, 4, 1, 2, 5, 3, 5]

  lemma ExportedColumn(k: nat)
    requires k < 7
    ensures Import.ColumnOf(CsvHeader[k]) == ColumnFor(HeaderWord[k])
  {
    ColumnByFirstChars(CsvHeader[k], HeaderWord[k]);
  }

  /**
   * The importer's column of a cell that starts with word `q` and holds the first character
   * of no other column word (with `q` = 5: of none).
   */
  lemma ColumnByFirstChars(cell: string, q: nat)
    requires q <= 5
    requires q < 5 ==> StartsWith(cell, ColumnWords[q])
    requires (q != 0 ==> '日' !in cell) && (q != 1 ==> '給' !in cell) && (q != 2 ==> '金' !in cell)
    requires (q != 3 ==> '走' !in cell) && (q != 4 ==> 'ス' !in cell)
    ensures Import.ColumnOf(cell) == ColumnFor(q)
  {
    if q < 5 {
      ContainsInfix(cell, 0, ColumnWords[q]);
    }
    if Contains(cell, "日付") { ContainsFirst(cell, "日付"); }
    if Contains(cell, "給油量") { ContainsFirst(cell, "給油量"); }
    if Contains(cell, "金額") { ContainsFirst(cell, "金額"); }
    if Contains(cell, "走行距離") { ContainsFirst(cell, "走行距離"); }
    if Contains(cell, "スタンド") { ContainsFirst(cell, "スタンド"); }
  }

  /** The importer reads the quoted station cell back as the station. */
  lemma StationCellImports(station: string)
    requires '"' !in station && Trim(station) == station
    ensures Import.Clean("\"" + station + "\"") == station
  {
    var quoted := "\"" + station + "\"";
    assert quoted == ['"'] + station + ['"'];
    TrimmedAlready(quoted);
    WithoutAppend(['"'] + station, ['"'], {'"'});
    WithoutAppend(['"'], station, {'"'});
    WithoutNone(station, {'"'});
  }

  // ---------------------------------------------------------------------------------------------
  // JSON

  /** `Math.round(x * 10) / 10`: Math.round rounds halves up, to one decimal. */
  function Round1(x: real): (r: real)
    ensures x - 0.05 < r <= x + 0.05
  {
    var y := x * 10.0 + 0.5;
    var f := y.Floor;
    assert f as real <= y < f as real + 1.0;
    f as real / 10.0
  }

  /**
   * The result has one decimal, and it is the one such number in `(x - 0.05, x + 0.05]`: what
   * rounding to one decimal with halves up means.
   */
  lemma Round1IsRounding(x: real, q: real)
    ensures (Round1(x) * 10.0).Floor as real == Round1(x) * 10.0
    ensures (q * 10.0).Floor as real == q * 10.0 && x - 0.05 < q <= x + 0.05 ==> q == Round1(x)
  {
    var r := Round1(x);
    if (q * 10.0).Floor as real == q * 10.0 && x - 0.05 < q <= x + 0.05 {
      var a, b := (r * 10.0).Floor, (q * 10.0).Floor;
      assert -1.0 < (a - b) as real < 1.0;
    }
  }

  /** A record as exported: its own fields and three derived figures. */
  datatype ExportedRecord = ExportedRecord(
    record: FuelRecord,
    pricePerLiter: real,
    fuelEfficiency: Option<real>,        // null for the first record and for a zero figure
    distanceFromPrevious: Option<real>)  // null for the first record

  datatype ExportDocument = ExportDocument(totalRecords: nat, records: seq<ExportedRecord>)

  function ExportedAt(records: seq<FuelRecord>, i: nat): ExportedRecord
    requires i < |records|
  {
    var r := records[i];
    var efficiency := if i > 0 then (r.mileage - records[i - 1].mileage) / r.amount else 0.0;
    ExportedRecord(
      r,
      Round1(r.cost / r.amount),
      if efficiency != 0.0 then Some(Round1(efficiency)) else None,
      if i > 0 then Some(Round1(r.mileage - records[i - 1].mileage)) else None)
  }

  /** exportToJSON's document, without the export time stamp; nothing for no records. */
  function JsonExport(records: seq<FuelRecord>): Option<ExportDocument> {
    if records == [] then None
    else Some(ExportDocument(|records|, seq(|records|, i requires 0 <= i < |records| => ExportedAt(records, i))))
  }

  /**
   * The document counts the records and keeps them in order; the distance is missing only for
   * the first record, the efficiency for the first record and when the odometer did not move;
   * every figure is within rounding of its exact value, and an efficiency the tracker
   * reports is exported rounded.
   */
  lemma JsonExportFields(records: seq<FuelRecord>)
    ensures JsonExport(records).None? <==> records == []
    ensures records != [] ==>
      var doc := JsonExport(records).value;
      && doc.totalRecords == |records| == |doc.records|
      && forall i :: 0 <= i < |records| ==>
           var e := doc.records[i];
           && e.record == records[i]
           && records[i].cost / records[i].amount - 0.05 < e.pricePerLiter <= records[i].cost / records[i].amount + 0.05
           && (e.distanceFromPrevious.None? <==> i == 0)
           && (e.fuelEfficiency.None? <==> i == 0 || records[i].mileage == records[i - 1].mileage)
           && (i > 0 ==>
                 var d := records[i].mileage - records[i - 1].mileage;
                 && d - 0.05 < e.distanceFromPrevious.value <= d + 0.05
                 && (e.fuelEfficiency.Some? ==>
                       d / records[i].amount - 0.05 < e.fuelEfficiency.value <= d / records[i].amount + 0.05))
           && (Efficiency(records[i], Previous(records, i)).Some? ==>
                 e.fuelEfficiency == Some(Round1(Efficiency(records[i], Previous(records, i)).value)))
  {
    forall i | 0 <= i < |records| && i > 0
      ensures (records[i].mileage - records[i - 1].mileage) / records[i].amount == 0.0
          <==> records[i].mileage == records[i - 1].mileage
    {
      var d := records[i].mileage - records[i - 1].mileage;
      assert d / records[i].amount * records[i].amount == d;
    }
  }

  // ---------------------------------------------------------------------------------------------
  // Monthly report

  /** The lines of the monthly report. */
  datatype ReportLine =
    | Title                                  // # 燃費月次レポート
    | Generated                              // 生成日時: <time of generation>
    | PeriodLine(first: string, last: string)
    | BlankLine
    | MonthlyHeading                         // ## 月別サマリー
    | MonthHeading(text: string)             // ### YYYY年MM月
    | FillUpsLine(count: nat)
    | LitresLine(amount: real)
    | CostLine(cost: real)
    | PriceLine(price: real)
    | DistanceLine(distance: real)
    | EfficiencyLine(efficiency: real)
    | OverallHeading                         // ## 全期間統計
    | TotalFillUpsLine(count: nat)
    | OverallPriceLine(price: real)

  /** The text of a line, given the number formatting and the time of generation. */
  function Render(line: ReportLine, fmt: NumberText, generatedAt: string): string {
    match line
    case Title => "# 燃費月次レポート"
    case Generated => "生成日時: " + generatedAt
    case PeriodLine(first, last) => "対象期間: " + first + " ～ " + last
    case BlankLine => ""
    case MonthlyHeading => "## 月別サマリー"
    case MonthHeading(text) => "### " + text
    case FillUpsLine(n) => "- 給油回数: " + fmt.plain(n as real) + "回"
    case LitresLine(a) => "- 総給油量: " + fmt.fixed1(a) + "L"
    case CostLine(c) => "- 総費用: ¥" + fmt.grouped(c)
    case PriceLine(p) => "- 平均単価: ¥" + fmt.fixed1(p) + "/L"
    case DistanceLine(d) => "- 走行距離: " + fmt.fixed1(d) + "km"
    case EfficiencyLine(e) => "- 平均燃費: " + fmt.fixed1(e) + "km/L"
    case OverallHeading => "## 全期間統計"
    case TotalFillUpsLine(n) => "- 総給油回数: " + fmt.plain(n as real) + "回"
    case OverallPriceLine(p) => "- 全期間平均単価: ¥" + fmt.fixed1(p) + "/L"
  }

  /** The months of the report, newest first; each is the month entry calculateMonthlyStats makes. */
  function ReportMonths(records: seq<FuelRecord>): seq<MonthlyStats> {
    SortBy(Entries(Keys(records, |records|, ByMonth), TalliesOf(records, ByMonth, DistanceIn), MonthEntry),
           Descending(MonthOf))
  }

  /** A month's block: heading, five figures, the efficiency when positive, a blank line. */
  function Section(m: MonthlyStats): seq<ReportLine> {
    [MonthHeading(m.displayMonth), FillUpsLine(m.recordCount), LitresLine(m.totalAmount), CostLine(m.totalCost),
     PriceLine(m.averagePrice), DistanceLine(m.totalDistance)]
    + (if m.averageFuelEfficiency > 0.0 then [EfficiencyLine(m.averageFuelEfficiency)] else [])
    + [BlankLine]
  }

  function Sections(ms: seq<MonthlyStats>): seq<ReportLine> {
    if ms == [] then [] else Sections(ms[..|ms| - 1]) + Section(ms[|ms| - 1])
  }

  function Dates(records: seq<FuelRecord>): (ds: seq<string>)
    ensures |ds| == |records| && forall i :: 0 <= i < |records| ==> ds[i] == records[i].date
  {
    seq(|records|, i requires 0 <= i < |records| => records[i].date)
  }

  /** `records.map(r => r.date).sort()`: the default sort orders strings by code units. */
  function SortedDates(records: seq<FuelRecord>): seq<string> {
    SortBy(Dates(records), (a: string, b: string) => LexLe(a, b))
  }

  /** The opening lines, with the period from the smallest to the largest date. */
  function Preamble(records: seq<FuelRecord>): seq<ReportLine>
    requires records != []
  {
    var dates := SortedDates(records);
    [Title, Generated, PeriodLine(dates[0], dates[|dates| - 1]), BlankLine, MonthlyHeading, BlankLine]
  }

  /** The closing figures over all records. */
  function Overall(records: seq<FuelRecord>): seq<ReportLine> {
    var totalCost := SumBy(records, CostOf);
    var totalAmount := SumBy(records, AmountOf);
    [OverallHeading, TotalFillUpsLine(|records|), LitresLine(totalAmount), CostLine(totalCost),
     OverallPriceLine(if totalAmount != 0.0 then totalCost / totalAmount else 0.0)]
  }

  /** generateMonthlyReport's lines; nothing for no records. */
  function MonthlyReport(records: seq<FuelRecord>): seq<ReportLine> {
    if records == [] then [] else Preamble(records) + Sections(ReportMonths(records)) + Overall(records)
  }

  /** The report file: its lines joined by line breaks. */
  function ReportText(records: seq<FuelRecord>, fmt: NumberText, generatedAt: string): Option<string> {
    var lines := MonthlyReport(records);
    if lines == [] then None
    else Some(Join(seq(|lines|, i requires 0 <= i < |lines| => Render(lines[i], fmt, generatedAt)), '\n'))
  }

  /**
   * generateMonthlyReport: one pass tallying each month (the distance being the positive leg
   * from the previous record in the given order), then the preamble, a block per month newest
   * first, and the overall figures.
   */
  method GenerateMonthlyReport(records: seq<FuelRecord>) returns (lines: seq<ReportLine>)
    ensures lines == MonthlyReport(records)
  {
    if |records| == 0 {
      return [];
    }
    var months, acc := TallyMonths(records);
    var sorted := SortBy(Entries(months, acc, MonthEntry), Descending(MonthOf));
    lines := Preamble(records);
    lines := PushSections(lines, sorted);
    lines := lines + Overall(records);
  }

  /** The `sortedMonths.forEach` that pushes each month's block. */
  method PushSections(lines: seq<ReportLine>, ms: seq<MonthlyStats>) returns (lines': seq<ReportLine>)
    ensures lines' == lines + Sections(ms)
  {
    lines' := lines;
    for i := 0 to |ms|
      invariant lines' == lines + Sections(ms[..i])
    {
      lines' := PushSection(lines', ms[i]);
      assert ms[..i + 1][..i] == ms[..i];
    }
    assert ms[..|ms|] == ms;
  }

  /** The pushes for one month. */
  method PushSection(lines: seq<ReportLine>, m: MonthlyStats) returns (lines': seq<ReportLine>)
    ensures lines' == lines + Section(m)
  {
    lines' := lines + [MonthHeading(m.displayMonth)];
    lines' := lines' + [FillUpsLine(m.recordCount)];
    lines' := lines' + [LitresLine(m.totalAmount)];
    lines' := lines' + [CostLine(m.totalCost)];
    lines' := lines' + [PriceLine(m.averagePrice)];
    lines' := lines' + [DistanceLine(m.totalDistance)];
    if m.averageFuelEfficiency > 0.0 {
      lines' := lines' + [EfficiencyLine(m.averageFuelEfficiency)];
    }
    lines' := lines' + [BlankLine];
  }

  /** The report is empty exactly when there are no records; otherwise it opens with the preamble and closes with the overall figures. */
  lemma ReportShape(records: seq<FuelRecord>)
    ensures MonthlyReport(records) == [] <==> records == []
    ensures records != [] ==>
      var lines := MonthlyReport(records);
      && |lines| >= 11
      && lines[..6] == Preamble(records)
      && lines[|lines| - 5..] == Overall(records)
  {
    if records != [] {
      Parts(Preamble(records), Sections(ReportMonths(records)), Overall(records));
    }
  }

  lemma Parts<T>(a: seq<T>, b: seq<T>, c: seq<T>)
    ensures (a + b + c)[..|a|] == a && (a + b + c)[|a + b + c| - |c|..] == c
  {
  }

  /** A block shows the efficiency line exactly when the month had distance driven. */
  lemma SectionEfficiency(m: MonthlyStats, t: Tally)
    requires t.amount > 0.0 && t.distance >= 0.0 && m == MonthEntry(m.month, t)
    ensures (exists k :: 0 <= k < |Section(m)| && Section(m)[k].EfficiencyLine?) <==> t.distance > 0.0
    ensures Section(m)[0] == MonthHeading(ReplaceFirst(m.month, '-', "年") + "月")
  {
    MonthRates(m.month, t);
    var sec := Section(m);
    if t.distance == 0.0 {
      assert |sec| == 7;
      forall k | 0 <= k < 7 ensures !sec[k].EfficiencyLine? {
      }
    } else {
      assert sec[6].EfficiencyLine?;
    }
  }

  /** The report's months, newest first, no month twice, each with its own tally. */
  lemma ReportMonthsEntries(records: seq<FuelRecord>)
    ensures var r := ReportMonths(records);
      && (forall i, j :: 0 <= i < j < |r| ==> r[i].month != r[j].month && LexLe(r[j].month, r[i].month))
      && (forall i :: 0 <= i < |r| ==>
            && TallyOf(records, |records|, ByMonth, r[i].month, DistanceIn).amount > 0.0
            && r[i] == MonthEntry(r[i].month, TallyOf(records, |records|, ByMonth, r[i].month, DistanceIn)))
  {
    var s := records;
    var r := ReportMonths(s);
    var keys, tallies := Keys(s, |s|, ByMonth), TalliesOf(s, ByMonth, DistanceIn);
    MonthlyView(s);
    ViewEntries(s, ByMonth, keys, tallies, MonthEntry, MonthOf, Descending(MonthOf));
    KeyOrdersAreTotalPreorders(MonthOf);
    SortSorted(Entries(keys, tallies, MonthEntry), Descending(MonthOf));
    forall i, j | 0 <= i < j < |r| ensures LexLe(r[j].month, r[i].month) {
      assert Descending(MonthOf)(r[i], r[j]);
    }
  }

  /** The report has a month block for each month of the records and for no other. */
  lemma ReportMonthsCover(records: seq<FuelRecord>)
    ensures (set e | e in ReportMonths(records) :: e.month) == (set x | x in records :: Month(x.date))
  {
    var s := records;
    var r := ReportMonths(s);
    assert (set e | e in r :: MonthOf(e)) == (set x | x in s :: KeyOf(x, ByMonth)) by {
      MonthlyView(s);
      ViewCover(s, ByMonth, Keys(s, |s|, ByMonth), TalliesOf(s, ByMonth, DistanceIn), MonthEntry, MonthOf, r);
    }
    assert (set e | e in r :: e.month) == (set e | e in r :: MonthOf(e));
    assert (set x | x in s :: Month(x.date)) == (set x | x in s :: KeyOf(x, ByMonth));
  }

  /** Over the report's months, fill-ups add up to the number of records, and costs and amounts to the overall figures. */
  lemma ReportTotals(records: seq<FuelRecord>)
    ensures SumBy(ReportMonths(records), MonthCount) == |records| as real
    ensures SumBy(ReportMonths(records), MonthCost) == SumBy(records, CostOf)
    ensures SumBy(ReportMonths(records), MonthAmount) == SumBy(records, AmountOf)
    ensures SumBy(ReportMonths(records), MonthDistance) == Distance(records)
  {
    var s := records;
    var keys := Keys(s, |s|, ByMonth);
    var tallies := TalliesOf(s, ByMonth, DistanceIn);
    forall k | k in keys
      ensures var t := TallyOf(s, |s|, ByMonth, k, DistanceIn);
        && t.count as real == GroupSum(s, |s|, ByMonth, k, Count)
        && t.cost == GroupSum(s, |s|, ByMonth, k, Cost)
        && t.amount == GroupSum(s, |s|, ByMonth, k, Amount)
        && t.distance == GroupSum(s, |s|, ByMonth, k, DistanceIn)
    {
      TallyIsGroupSums(s, |s|, ByMonth, k, DistanceIn);
      GroupCount(s, |s|, ByMonth, k);
    }
    ViewSum(s, ByMonth, keys, tallies, MonthEntry, Descending(MonthOf), Count, MonthCount);
    ViewSum(s, ByMonth, keys, tallies, MonthEntry, Descending(MonthOf), Cost, MonthCost);
    ViewSum(s, ByMonth, keys, tallies, MonthEntry, Descending(MonthOf), Amount, MonthAmount);
    ViewSum(s, ByMonth, keys, tallies, MonthEntry, Descending(MonthOf), DistanceIn, MonthDistance);
    TotalCount(s, |s|);
    TotalIsSumBy(s, |s|);
    DistanceInTotal(s, |s|);
    assert s[..|s|] == s;
  }

  lemma StringOrderIsTotalPreorder()
    ensures TotalPreorder((a: string, b: string) => LexLe(a, b))
  {
    forall a: string, b: string ensures LexLe(a, b) || LexLe(b, a) {
      LexLeTotal(a, b);
    }
    forall a: string, b: string, c: string | LexLe(a, b) && LexLe(b, c) ensures LexLe(a, c) {
      LexLeTransitive(a, b, c);
    }
  }

  /** The period runs from the smallest record date to the largest, both being record dates. */
  lemma ReportPeriod(records: seq<FuelRecord>)
    requires records != []
    ensures Preamble(records)[2].PeriodLine?
    ensures var p := Preamble(records)[2];
      && (exists i :: 0 <= i < |records| && records[i].date == p.first)
      && (exists i :: 0 <= i < |records| && records[i].date == p.last)
      && forall i :: 0 <= i < |records| ==> LexLe(p.first, records[i].date) && LexLe(records[i].date, p.last)
  {
    var ds := Dates(records);
    var sorted := SortedDates(records);
    StringOrderIsTotalPreorder();
    SortSorted(ds, (a: string, b: string) => LexLe(a, b));
    var first, last := sorted[0], sorted[|sorted| - 1];
    assert first in multiset(ds) && last in multiset(ds);
    forall i | 0 <= i < |records| ensures LexLe(first, records[i].date) && LexLe(records[i].date, last) {
      assert ds[i] in multiset(sorted);
      var k :| 0 <= k < |sorted| && sorted[k] == ds[i];
      LexLeTotal(first, first);
      LexLeTotal(last, last);
    }
  }
}
