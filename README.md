# nenpi fuel tracker — a verified model of its core

nenpi records refuellings (date, litres, cost, odometer reading, station) and derives from them
fuel efficiency (km per litre), unit prices, monthly and per-station figures, trends, dashboard
alerts and tips, and chart data. It also imports records from CSV or JSON, exports them as
CSV, JSON or a monthly text report, and validates entry forms and imported rows. This project
models that core in Dafny:

- `Records` (records.dfy): the fuel record, its month key, the date order, the unit price and
  the efficiency of a record against the one before it.
- `Statistics` (statistics.dfy): calculateStatistics with its monthly and per-station passes,
  the month-over-month trend, the efficiency grade and colour.
- `Validation` (validation.dfy): validateFuelRecord and validateImportData.
- `Import` and `Json` (import.dfy, json.dfy): parseCSV and parseJSON. The JSON document is the
  value `JSON.parse` returned.
- `Export` (export.dfy): exportToCSV, exportToJSON and generateMonthlyReport. Only the file
  content is modelled.
- `Calculator` (calculator.dfy): the store-backed entry component as a class. The store's replies
  are inputs.
- `LegacyCalculator` (legacy_calculator.dfy): the in-memory entry component as a class.
- `MonthlyRecords` and `RecordList` (monthly.dfy, record_list.dfy): the monthly listing and the
  list updates both entry components share.
- `Dashboard` (dashboard.dfy) and `Charts` (charts.dfy): the figures the two views derive.
- `Optional`, `Text`, `Sorting`, `Reals`, `Grouping` (text.dfy, sorting.dfy, reals.dfy,
  grouping.dfy): supporting definitions.
  - JavaScript's trim, split, join and `includes`. Strings are sequences of characters, and
    `Text.Utf16` gives their UTF-16 code units: `Text.Length` counts those units as `length`
    does, and `Text.LexLe` orders by them as the default `sort()` does.
  - A stable insertion sort standing in for `Array.prototype.sort`.
  - Sums, means and extremes of reals.
  - The generic "group by key in first-appearance order" pass that every `forEach` over a
    `Record<string, …>` map performs, with its sums.

JavaScript numbers are `real`. NaN is `None` (or the `NaN` value of `Json.Value`). The model's
record type holds a positive amount (`Records.Liters`), so every cost-per-litre and
distance-per-litre division in the model is defined. This is a restriction of the model: the
entry components store whatever the form parses to (see "Left out"). Each loop of the source is a method with
invariants, proved against a function. The lemmas state what those functions mean: sums that
add up, orders, memberships, and error conditions given as iff statements.

## Model

| member | source | states |
|---|---|---|
| Records.SortByDate | src/utils/statistics.ts:80 | the sorted list is a permutation of the input and its dates ascend |
| Records.DateLeIsTotalPreorder | src/components/FuelCalculator.tsx:113 | the date comparator is total and transitive, so the sort it drives is well defined |
| Records.Efficiency | src/components/FuelCalculator.tsx:133-138 | an efficiency exists iff there is a predecessor and the odometer advanced; it is then positive and times the litres gives the distance |
| Records.LegHasEfficiency | src/utils/statistics.ts:95-101 | a positive leg from the previous record is exactly a record that has an efficiency |
| Records.EfficiencySeriesEntries | src/utils/statistics.ts:89-102 | the series has at most one entry per adjacent pair, each positive and the efficiency of some pair; it is empty iff no distance was driven |
| Records.PrefixStep | src/utils/statistics.ts:92-102 | one more record extends the series by its efficiency and the distance by its leg exactly when the odometer advanced |
| Records.SingleRecord | src/utils/statistics.ts:92 | a single record yields no efficiency and no distance |
| Records.DistanceNonNegative | src/utils/statistics.ts:97-98 | the distance driven is never negative |
| Statistics.MonthRates | src/utils/statistics.ts:186-202 | a month entry carries its tally; efficiency is positive iff distance was driven, efficiency × litres = distance, price × litres = cost, cost per km × distance = cost |
| Statistics.AddToMonth | src/utils/statistics.ts:159-181 | the callback turns the month keys and tallies of the first `index` records into those of the first `index + 1` |
| Statistics.TallyMonths | src/utils/statistics.ts:159-181 | the pass yields the months in order of first appearance and each month's tally |
| Statistics.CalculateMonthlyStats | src/utils/statistics.ts:150-205 | the method returns the monthly statistics function of its input |
| Statistics.MonthlyStatsEntries | src/utils/statistics.ts:184-203 | each entry is its own month's tally turned into figures, with positive litres, and no month appears twice |
| Statistics.MonthlyStatsAscending | src/utils/statistics.ts:204 | months come in ascending order |
| Statistics.MonthlyStatsCover | src/utils/statistics.ts:159-204 | the entries' months are exactly the records' months |
| Statistics.MonthlyTotals | src/utils/statistics.ts:159-204 | across months, record counts, costs, litres and distances add up to the overall totals |
| Statistics.StationRates | src/utils/statistics.ts:244-254 | a station entry carries its tally and last visit; efficiency is positive iff forward distance exists, efficiency × litres = distance, price × litres = cost |
| Statistics.StationAccOf | src/utils/statistics.ts:216-241 | after the pass each station met maps to its forward-distance tally (with positive litres) and its last date, and no other key is present |
| Statistics.AddToStation | src/utils/statistics.ts:216-241 | the callback turns stations, tallies and last visits of the first `index` records into those of the first `index + 1` |
| Statistics.CalculateStationStats | src/utils/statistics.ts:207-256 | the method returns the station statistics function of its input |
| Statistics.MoreVisitsIsTotalPreorder | src/utils/statistics.ts:255 | the "more visits first" comparator is a total preorder |
| Statistics.StationStatsEntries | src/utils/statistics.ts:243-254 | each entry is its station's tally and last visit turned into figures, and no station appears twice |
| Statistics.StationStatsByVisits | src/utils/statistics.ts:255 | stations come most visited first |
| Statistics.StationStatsCover | src/utils/statistics.ts:216-256 | the entries' stations are exactly the records' stations |
| Statistics.StationLastVisit | src/utils/statistics.ts:223-231 | on date-ordered records, a station's last visit is one of its records' dates and none of its records is later |
| Statistics.StationEntrySums | src/utils/statistics.ts:243-249 | a station entry's count, cost and litres are its group sums |
| Statistics.StationEntryDistance | src/utils/statistics.ts:233-240 | a station's efficiency times its litres is the forward distance credited to it |
| Statistics.StationTotals | src/utils/statistics.ts:216-256 | across stations, visits, costs and litres add up to the overall totals |
| Statistics.StationDistanceTotal | src/utils/statistics.ts:233-240 | the forward distances credited to stations add up to the total distance driven |
| Statistics.Trends | src/utils/statistics.ts:258-283 | no trend for fewer than two months; otherwise each change is latest minus previous and each flag is a strict comparison |
| Statistics.TrendFlags | src/utils/statistics.ts:280-281 | each flag holds exactly when its change is positive |
| Statistics.MetMonotone | src/utils/statistics.ts:301-316 | a higher efficiency reaches at least as many thresholds |
| Statistics.GradeByThresholds | src/utils/statistics.ts:301-309 | the grade is indexed by how many of the six thresholds the efficiency misses |
| Statistics.EfficiencyGradeMonotone | src/utils/statistics.ts:301-309 | a higher efficiency never gets a worse grade |
| Statistics.ColorByThresholds | src/utils/statistics.ts:311-316 | the colour is indexed by how many of the three thresholds the efficiency misses |
| Statistics.EfficiencyColorMonotone | src/utils/statistics.ts:311-316 | a higher efficiency never gets a colour further down the scale |
| Statistics.CalculateStatistics | src/utils/statistics.ts:53-148 | the method returns the statistics snapshot function of its input |
| Statistics.WalkPairs | src/utils/statistics.ts:89-102 | the pair loop yields the efficiency series and the distance driven |
| Statistics.StatisticsTotals | src/utils/statistics.ts:54-84 | no records give the all-zero snapshot; otherwise the counts and totals are those of the input, whatever its order, with positive litres |
| Statistics.StatisticsAverages | src/utils/statistics.ts:83-127 | for records, the average price, litres per fill-up and cost per month are the quotients of the totals, each with a non-zero divisor |
| Statistics.StatisticsMonthlyBreakdown | src/utils/statistics.ts:116-127 | the monthly entries add up to the snapshot's counts, cost, litres and distance, and there is a month whenever there are records |
| Statistics.StatisticsStationBreakdown | src/utils/statistics.ts:119-120 | the station entries add up to the snapshot's counts, cost, litres and distance |
| Statistics.StatisticsEfficiencyExtremes | src/utils/statistics.ts:104-109 | worst ≤ mean ≤ best; all zero without distance; otherwise the worst is positive and the best is some adjacent pair's efficiency |
| Statistics.StatisticsPriceExtremes | src/utils/statistics.ts:111-114 | cheapest and dearest bracket every record's unit price and are attained by records |
| Statistics.StatisticsEnds | src/utils/statistics.ts:142-143 | first and latest record are input records with the earliest and latest date |
| Validation.Ceil | src/utils/validation.ts:106 | `Math.ceil`: the least integer not below its argument |
| Validation.Latest | src/utils/validation.ts:93-94 | the latest record is one of the stored records |
| Validation.LatestIsLast | src/utils/validation.ts:93-94 | no stored record is dated after the latest |
| Validation.DateErrors | src/utils/validation.ts:22-40 | no date message iff a date is given and, when it reads, lies within the last year up to today; old and future dates each raise their message |
| Validation.AmountErrors | src/utils/validation.ts:42-54 | at most one message, none iff the amount is given and reads as a number in [1, 200] |
| Validation.CostRangeErrors | src/utils/validation.ts:60-67 | at most one message, none iff the cost reads as an integer in [100, 50000] |
| Validation.PriceErrors | src/utils/validation.ts:69-77 | for a positive amount: high iff cost > 300 × amount, low iff cost < 80 × amount, none iff within the band |
| Validation.DailyDistanceErrors | src/utils/validation.ts:104-111 | a message iff the odometer gained more than 1000 km per started day |
| Validation.StationErrors | src/utils/validation.ts:116-121 | at most one message, none iff the trimmed name is non-empty and at most 50 UTF-16 code units long |
| Validation.StationLimitInUnits | src/utils/validation.ts:119 | a name of characters beyond U+FFFF passes with at most 25 of them, a name within U+FFFF with at most 50 |
| Validation.ValidateFuelRecord | src/utils/validation.ts:16-127 | the messages are those of the five check blocks in source order, and the form is valid iff there are none |
| Validation.CheckDate | src/utils/validation.ts:22-40 | pushes exactly the date messages |
| Validation.CheckAmount | src/utils/validation.ts:42-54 | pushes exactly the amount messages |
| Validation.CheckCost | src/utils/validation.ts:56-78 | pushes exactly the cost and unit-price messages |
| Validation.CheckMileage | src/utils/validation.ts:80-114 | pushes exactly the mileage and consistency messages |
| Validation.CheckConsistency | src/utils/validation.ts:91-113 | pushes exactly the messages of the comparison with the latest stored record |
| Validation.CompareWithLatest | src/utils/validation.ts:100-111 | pushes the decreasing-mileage message and then the per-day distance message under their conditions |
| Validation.CheckStation | src/utils/validation.ts:116-121 | pushes exactly the station messages, the limit counted in UTF-16 code units |
| Validation.FormAccepted | src/utils/validation.ts:16-127 | a form passes iff date, amount, cost, unit price, mileage with consistency, and station each pass |
| Validation.PriceOutOfBandRejected | src/utils/validation.ts:69-77 | a unit price outside [80, 300] is rejected even when amount and cost each pass |
| Validation.ConsistencyRejected | src/utils/validation.ts:91-113 | a lower mileage on a date not before the latest, or more than 1000 km per day since it, raises its message |
| Validation.ConsistencyInFormErrors | src/utils/validation.ts:80-114 | every consistency message is among the form's messages |
| Validation.RowDateErrors | src/utils/validation.ts:145-149 | missing or malformed date message, none iff the date is truthy and reads `YYYY-MM-DD` |
| Validation.RowNumberErrors | src/utils/validation.ts:151-167 | missing or invalid message, none iff the property is present and its number passes the bound |
| Validation.RowStationErrors | src/utils/validation.ts:169-171 | a message iff the station is not a non-blank string |
| Validation.RowErrors | src/utils/validation.ts:142-172 | at most five messages per row |
| Validation.RowErrorsNumbered | src/utils/validation.ts:143-171 | every message of a row carries that row's number |
| Validation.RowErrorsMeaning | src/utils/validation.ts:142-172 | a row draws no message iff its date, amount, cost, mileage and station all pass |
| Validation.AllRowErrorsEmpty | src/utils/validation.ts:142-172 | no message at all iff every row passes |
| Validation.ValidateImportData | src/utils/validation.ts:129-178 | the method returns the import validation function of its rows |
| Validation.ImportValidationProperties | src/utils/validation.ts:129-178 | an empty list fails with one message; otherwise valid iff every row passes; at most the first 20 messages are shown; valid iff none |
| Import.SortRows | src/utils/import.ts:77 | the rows are permuted into ascending date order |
| Import.Checked | src/utils/import.ts:79-92 | success iff validation passes, with the rows unchanged; a failure carries 1 to 20 messages |
| Import.Clean | src/utils/import.ts:22 | a cleaned cell holds no double quote |
| Import.Cells | src/utils/import.ts:22 | one cell more than the line has commas, no cell holding a comma or a double quote, each the cleaned part at its position |
| Import.MissingFrom | src/utils/import.ts:25-28 | a word is reported missing iff it is required and no header contains it, and the missing words keep the required list's order |
| Import.AssignedDate | src/utils/import.ts:46-62 | the date is set iff some header is a date header, and then holds the cell under the last such header |
| Import.AssignedCost | src/utils/import.ts:46-62 | the cost is set iff some header is a cost header, and then is the parsed last such cell with `,` and `¥` removed, or 0 |
| Import.KeptRowsFrom | src/utils/import.ts:39-67 | every kept row comes from one data line as wide as the header, at most one row per line |
| Import.KeptRowsTruthy | src/utils/import.ts:64-66 | every kept row has a non-empty date and station and non-zero numbers |
| Import.ParseCsv | src/utils/import.ts:10-100 | the method returns the CSV import function of its text |
| Import.ReadTable | src/utils/import.ts:21-92 | header check, line loop, sort and validation as one step of the CSV import function |
| Import.CollectRows | src/utils/import.ts:38-67 | the line loop collects exactly the kept rows |
| Import.ReadLine | src/utils/import.ts:39-66 | one line adds its kept row, if any |
| Import.AssignCells | src/utils/import.ts:46-62 | the header loop assigns every cell in turn |
| Import.CsvOutcomes | src/utils/import.ts:10-92 | fewer than two lines fail with one message; when a required word is in no header, the result is the one failure naming the missing words; success is the kept rows, sorted by date and validated |
| Import.ZeroCellDropped | src/utils/import.ts:54-66 | a line whose amount, cost or mileage reads as 0 is dropped |
| Import.ContainerOf | src/utils/import.ts:104-120 | an array is its own records; null or undefined throws; otherwise a truthy `.records` array wins over a truthy `.data` array, and the shape is bad iff neither is one |
| Import.FirstTruthy | src/utils/import.ts:131-135 | the fallback when no alias is truthy; otherwise the value of the first truthy alias in key order |
| Import.Normalize | src/utils/import.ts:130-136 | the numbers come out as numbers or NaN and the station as a string |
| Import.NormalizeDefaults | src/utils/import.ts:130-136 | a record with no alias normalises to empty texts and zeros |
| Import.NormalizeAll | src/utils/import.ts:130-136 | one row per record |
| Import.ItemsOutcomes | src/utils/import.ts:122-154 | an empty array fails with one message; success is the normalised records, as a multiset, sorted by date and validated |
| Import.JsonOutcomes | src/utils/import.ts:102-154 | bad shapes and empty arrays fail with their message; success is the normalised records of the chosen array, as a multiset, sorted by date and validated |
| Json.NumberRoundTrip | src/utils/import.ts:132-134 | `Number(...)` reads a number value back unchanged, NaN included |
| Json.Or | src/utils/import.ts:131-135 | `a \|\| b` is truthy iff either is, and is `a` when `a` is truthy, else `b` |
| Export.CsvRows | src/utils/export.ts:13-29 | one line per record |
| Export.CellsAvoid | src/utils/export.ts:20-28 | a character absent from the records and the number texts is absent from every cell |
| Export.CsvRowCells | src/utils/export.ts:13-28 | a line splits at its commas into the seven cells: date, quoted station, then the figures |
| Export.CsvRowOneLine | src/utils/export.ts:13-28 | a record line holds no line break |
| Export.CsvLayout | src/utils/export.ts:3-38 | the text starts with the byte order mark, and line by line it is the header followed by one line per record, in order |
| Export.EfficiencyCellUnguarded | src/utils/export.ts:15-18 | `-` for the first record; after it, the distance per litre whether or not the odometer advanced; positive exactly when an efficiency exists, and then equal to it |
| Export.HeaderCellsImport | src/utils/export.ts:10 | the importer reads the exported header back as the header cells |
| Export.ExportedHeaderImports | src/utils/export.ts:10 | the exported header passes the importer's required-column check |
| Export.ExportedColumns | src/utils/export.ts:10 | the importer maps each exported column to the field it holds, and unit price and efficiency to none |
| Export.StationCellImports | src/utils/export.ts:22 | the importer reads the quoted station cell back as the station |
| Export.Round1 | src/utils/export.ts:68-70 | rounding to one decimal stays within 0.05 of the value |
| Export.Round1IsRounding | src/utils/export.ts:68-70 | the result has one decimal, and it is the only one-decimal number in `(x - 0.05, x + 0.05]` |
| Export.JsonExportFields | src/utils/export.ts:52-78 | no document for no records; otherwise one entry per record in order, with its unit price, distance and efficiency within rounding; distance missing only first, efficiency missing first or when the odometer stood still |
| Export.GenerateMonthlyReport | src/utils/export.ts:92-182 | the method returns the monthly report function of its records |
| Export.PushSections | src/utils/export.ts:157-169 | the loop pushes each month's block in order |
| Export.PushSection | src/utils/export.ts:158-168 | pushes exactly one month's block |
| Export.ReportShape | src/utils/export.ts:92-181 | empty iff no records; otherwise it opens with the six preamble lines and closes with the five overall lines |
| Export.SectionEfficiency | src/utils/export.ts:139-167 | a block shows its efficiency line iff the month had distance, under the heading `YYYY年MM月` |
| Export.ReportMonthsEntries | src/utils/export.ts:109-155 | months come newest first, none twice, each with its own tally |
| Export.ReportMonthsCover | src/utils/export.ts:109-155 | there is a block for each month of the records and no other |
| Export.ReportTotals | src/utils/export.ts:109-136 | over the blocks, fill-ups, costs, litres and distances add up to the totals of the records |
| Export.StringOrderIsTotalPreorder | src/utils/export.ts:149 | the default string sort order is a total preorder |
| Export.ReportPeriod | src/utils/export.ts:149 | the period runs from the smallest record date to the largest, both record dates |
| RecordList.AppendFresh | src/components/FuelCalculator.tsx:69-73 | appending an unlisted name keeps the list free of duplicates |
| RecordList.NewStationFresh | src/components/FuelCalculator.tsx:64-77 | a name is accepted iff its trimmed form is neither blank nor listed; it is that trimmed form and keeps the list duplicate-free |
| RecordList.AddedInPlace | src/components/FuelCalculator.tsx:113 | sorting a date-ordered list with one more record inserts it after every record not later than it, the others keeping their order |
| RecordList.AppendToSorted | src/components/FuelCalculator.tsx:113 | that sort is a single ordered insertion |
| RecordList.WithoutId | src/components/FuelCalculator.tsx:122 | deletion never lengthens the list |
| RecordList.WithoutIdMembers | src/components/FuelCalculator.tsx:122 | exactly the records with another id stay |
| RecordList.WithoutIdAppend | src/components/FuelCalculator.tsx:122 | filtering a concatenation filters each part, so the survivors keep their order |
| RecordList.WithoutIdAbsent | src/components/FuelCalculator.tsx:122 | without a record of that id nothing changes |
| RecordList.WithoutIdIdempotent | src/components/FuelCalculator.tsx:122 | deleting twice is deleting once |
| RecordList.WithoutIdSorted | src/components/FuelCalculator.tsx:122 | deletion keeps a date-ordered list date-ordered |
| RecordList.StationListOrdered | src/components/FuelCalculator.tsx:60 | the derived station list is ascending in UTF-16 code-unit order (`Text.LexLe`), without duplicates |
| Text.LexLeIsCodeUnitOrder | src/components/FuelCalculator.tsx:60 | the string order is exactly the lexicographic order of the strings' UTF-16 code units |
| Text.SupplementaryBeforeFullWidth | src/components/FuelCalculator.tsx:60 | a character beyond U+FFFF sorts before a larger BMP character such as a full-width letter, unlike code-point order |
| Text.LengthCountsUnits | src/utils/validation.ts:119 | `length` is the number of UTF-16 code units |
| RecordList.StationListMembers | src/components/FuelCalculator.tsx:60 | a name is listed iff some record is of that station |
| RecordList.StationListCovers | src/components/FuelCalculator.tsx:60 | every record's station is listed, and the list has no duplicates |
| MonthlyRecords.ListedAt | src/components/FuelCalculator.tsx:153-157 | one listed record per position |
| MonthlyRecords.ListRecord | src/components/FuelCalculator.tsx:144-158 | the callback turns the month keys and groups of the first `index` records into those of the first `index + 1` |
| MonthlyRecords.CollectMonthly | src/components/FuelCalculator.tsx:141-161 | the method returns the monthly listing function of the records |
| MonthlyRecords.GroupContents | src/components/FuelCalculator.tsx:144-158 | a month's group holds its cost and litre sums and its records in order, each priced and measured against its predecessor in the whole list |
| MonthlyRecords.MonthlyGroups | fuel_calculator.tsx:75-98 | one non-empty group per month, none twice, each holding its month's sums and records |
| MonthlyRecords.MonthlyDescending | src/components/FuelCalculator.tsx:160 | latest month first |
| MonthlyRecords.MonthlyCover | src/components/FuelCalculator.tsx:144-160 | the groups' months are exactly the records' months |
| MonthlyRecords.MonthlyTotals | src/components/FuelCalculator.tsx:144-160 | the groups list every record once and their totals add up to the overall cost and litres |
| Calculator.FuelCalculator.constructor | src/components/FuelCalculator.tsx:20-27 | the initial state: no records, no stations, the empty form, no error |
| Calculator.FuelCalculator.SetRecords | src/components/FuelCalculator.tsx:59-62 | setting the records rebuilds the station list from them and keeps the state valid |
| Calculator.FuelCalculator.FetchRecords | src/components/FuelCalculator.tsx:30-56 | rows replace the records and clear the error; an error keeps the records and shows the message |
| Calculator.FuelCalculator.AddNewStation | src/components/FuelCalculator.tsx:64-77 | a blank or listed name alerts and changes nothing; otherwise the trimmed name is appended and chosen in the form |
| Calculator.FuelCalculator.AddRecord | src/components/FuelCalculator.tsx:79-118 | an incomplete form alerts and changes nothing; otherwise the parsed payload is sent, and the reply decides: inserted row joins the records re-sorted with the form cleared, an error is shown, or nothing more |
| Calculator.FuelCalculator.Store | src/components/FuelCalculator.tsx:101-116 | the three outcomes of the insert reply |
| Calculator.FuelCalculator.Accept | src/components/FuelCalculator.tsx:104-115 | the inserted row joins the records, which are re-sorted by date; the station list follows and the form is cleared |
| Calculator.FuelCalculator.DeleteRecord | src/components/FuelCalculator.tsx:120-130 | the records without that id, or on a store error the previous records back with an alert carrying the message |
| Calculator.FuelCalculator.MonthlyData | src/components/FuelCalculator.tsx:141-161 | the monthly listing of the current records |
| LegacyCalculator.NewRecord | fuel_calculator.tsx:47-55 | the new record is stamped with the clock and carries the form's date, station and parsed numbers |
| LegacyCalculator.FuelCalculator.constructor | fuel_calculator.tsx:5-17 | the initial state: no records, no stations, the empty form |
| LegacyCalculator.FuelCalculator.AddNewStation | fuel_calculator.tsx:19-34 | a blank or listed name alerts and changes nothing; otherwise the trimmed name is appended and chosen in the form |
| LegacyCalculator.FuelCalculator.AddRecord | fuel_calculator.tsx:36-60 | an incomplete form alerts and changes nothing; otherwise an unlisted station joins the master list, the new record joins the records re-sorted by date, and the form is cleared |
| LegacyCalculator.FuelCalculator.Append | fuel_calculator.tsx:57-59 | the record joins the re-sorted records, the form is cleared and the master list still names every record's station |
| LegacyCalculator.FuelCalculator.DeleteRecord | fuel_calculator.tsx:62-64 | the records without that id; the master list keeps every name |
| LegacyCalculator.FuelCalculator.GetMonthlyData | fuel_calculator.tsx:75-98 | the monthly listing of the current records |
| Dashboard.RecentTrendOf | src/components/Dashboard.tsx:20-52 | a trend exists iff there are at least seven records |
| Dashboard.Windows | src/components/Dashboard.tsx:23-25 | the recent window is the last five by date (or all), the older one the up to five before, and together they are the last ten |
| Dashboard.TrendFlags | src/components/Dashboard.tsx:40-51 | the differences are recent minus older averages, and each flag holds exactly when its difference is positive |
| Dashboard.AvgEfficiencySign | src/components/Dashboard.tsx:29-38 | a window's average efficiency is never negative and is positive iff the odometer advanced within it |
| Dashboard.CalculateAvgEfficiency | src/components/Dashboard.tsx:29-38 | the loop computes the window's average efficiency |
| Dashboard.GetRecentTrend | src/components/Dashboard.tsx:20-52 | the method returns the recent-trend function of the records |
| Dashboard.BuildAlerts | src/components/Dashboard.tsx:61-79 | the pushes build the alert list |
| Dashboard.AlertsMeaning | src/components/Dashboard.tsx:61-79 | each alert is raised iff its condition holds, carries the positive gap it reports, and they come in push order, at most three |
| Dashboard.OverallGradeMeaning | src/components/Dashboard.tsx:187-190 | A iff no alert condition holds, C iff all three hold, B otherwise, with the matching label |
| Dashboard.BuildRecommendations | src/components/Dashboard.tsx:82-93 | the pushes build the tip list |
| Dashboard.RecommendationsMeaning | src/components/Dashboard.tsx:82-93 | the driving tips iff efficiency is below the goal, the cheaper-station tip iff prices spread by more than 20, the discount tip iff more than three stations |
| Dashboard.RecommendationsCount | src/components/Dashboard.tsx:82-93 | no tip twice; the number of tips is 3, 1 and 1 for the conditions that hold |
| Dashboard.CheaperTipFromRecords | src/components/Dashboard.tsx:88-90 | over any snapshot of records, the empty one included, the cheaper-station tip appears iff two fill-ups' unit prices differ by more than 20 |
| Dashboard.CostGradeMeaning | src/components/Dashboard.tsx:133 | for a positive monthly cost: A iff the budget covers it, B iff it covers at least 80 %, C below |
| Dashboard.CostGradeMonotone | src/components/Dashboard.tsx:133 | a larger budget never gives a worse cost grade |
| Charts.FuelEfficiencyData | src/components/Charts.tsx:28-41 | one point per record |
| Charts.EfficiencyPoints | src/components/Charts.tsx:28-41 | each point carries its record's date, litres, cost and unit price, and the efficiency against the predecessor, absent first or without advance, positive when present |
| Charts.PricesAt | src/components/Charts.tsx:62 | one unit price per listed position |
| Charts.EfficienciesAtPositive | src/components/Charts.tsx:64-73 | every collected efficiency is positive, and there is one iff some record advanced |
| Charts.FillUpStep | src/components/Charts.tsx:59-73 | the callback adds the record's totals, one fill-up, its unit price and its efficiency if any |
| Charts.MonthAccContents | src/components/Charts.tsx:46-74 | a month's accumulator after the pass is its sums, fill-ups, efficiencies and prices in array order |
| Charts.MonthAccStep | src/components/Charts.tsx:59-73 | a record of the month adds its figures to the month's sums |
| Charts.MonthsHavePrices | src/components/Charts.tsx:48-62 | every month met has a price, so its average price is defined |
| Charts.AddMonthRecord | src/components/Charts.tsx:46-74 | the callback turns the month keys and accumulators of the first `index` records into those of the first `index + 1` |
| Charts.ChartMonthlyData | src/components/Charts.tsx:44-87 | the method returns the monthly chart function of the records |
| Charts.MonthlyChartBars | src/components/Charts.tsx:76-87 | the bars are, in some order, the bars of the records' months, one per month |
| Charts.MonthlyChartAscending | src/components/Charts.tsx:87 | bars come in ascending label order |
| Charts.MonthlyChartTotals | src/components/Charts.tsx:46-87 | the bars' fill-ups count the records and their totals are the overall totals |
| Charts.MonthBarAverages | src/components/Charts.tsx:81-84 | a bar's average price lies between its cheapest and dearest price; its average efficiency is not negative and positive iff some record of the month has one |
| Charts.StationAccContents | src/components/Charts.tsx:93-107 | a station's accumulator is its fill-ups and its cost and litre sums |
| Charts.Position | src/components/Charts.tsx:109-115 | the index of a station among the stations in order of first appearance |
| Charts.MoreFillUpsIsTotalPreorder | src/components/Charts.tsx:117 | the "more fill-ups first" comparator is a total preorder |
| Charts.StationsHaveFuel | src/components/Charts.tsx:93-114 | every station met has litres, so its average price is defined |
| Charts.AddStationRecord | src/components/Charts.tsx:93-107 | the callback turns the stations and accumulators of the first `index` records into those of the first `index + 1` |
| Charts.ChartStationData | src/components/Charts.tsx:89-117 | the method returns the station chart function of the records |
| Charts.StationChartSlices | src/components/Charts.tsx:109-117 | the slices are, in some order, one per station with its fill-ups, cost, average price and the colour of its first-appearance index, and no station twice |
| Charts.StationChartByCount | src/components/Charts.tsx:117 | slices come most fill-ups first |
| Charts.StationChartCounts | src/components/Charts.tsx:93-117 | the slices' fill-ups add up to the number of records |
| Charts.StationChartCover | src/components/Charts.tsx:93-117 | the slices' stations are exactly the records' stations |

## Left out

- Number formatting (`toFixed`, `toLocaleString`, `toString`) is a parameter (`Export.NumberText`). The report's and alerts' message texts are data constructors rather than strings.
- IEEE arithmetic is not modelled: no infinities, no rounding of sums, NaN as `None`. Divisions by a sum of litres are defined because the model's records hold positive litres.
- `Dashboard.CostGrade` models `monthlyBudget / 0` as +Infinity for a positive budget (A), and as NaN or −Infinity otherwise (C).
- The clock, `Date.now()`, `new Date(...)` and `new Date().toISOString()` are parameters (`Validation.Environment`, `LegacyCalculator.FuelCalculator.AddRecord`'s `now`). So is the report's generation time.
- `JSON.parse` is left out: parseJSON starts from the parsed value. A syntax error is the caught exception the model does not produce.
- `parseFloat`, `parseInt` and the number grammar of `Number(...)` and `String(...)` are parameters.
- `localeCompare` on dates is modelled as code-unit order (`Text.LexLe`). It agrees with locale collation on `YYYY-MM-DD` dates, but not on text in general.
- `substring(0, 7)` (`Records.Month`) counts characters rather than code units. The two agree unless a character beyond U+FFFF is among the first seven, which no `YYYY-MM-DD` date has.
- The in-memory revision's comparator `new Date(a.date) - new Date(b.date)` is modelled as date-string order. The two agree on `YYYY-MM-DD` dates.
- `Object.entries` and `Object.values` are modelled as first-appearance order. This matches JavaScript for keys that are not array indices, such as `YYYY-MM` months and most station names.
- Statistics.AddToStation, Statistics.CalculateStationStats, Statistics.StationAccOf, Statistics.CalculateStatistics, Charts.AddStationRecord, Charts.ChartStationData, Charts.StationAccContents, Charts.Position, Charts.StationChartSlices, Charts.StationChartCounts, Charts.StationChartCover: a station named after a member inherited from `Object.prototype` ("toString", "constructor", "valueOf", "hasOwnProperty", "__proto__" and the like) already finds a truthy value in the plain-object map. calculateStatistics then throws, because that value has no `records` array to push to (statistics.ts:217, 227-228). The station chart never creates an entry for it, so the station is missing from the chart and every later station's colour index moves down by one (Charts.tsx:94-109). The model gives every name its own fresh key. The month passes could meet the same problem only with a date beginning "valueOf" or a similar name, which no `YYYY-MM-DD` date does.
- Charts.Position, Charts.StationChartSlices, Statistics.CalculateStationStats: a station named by an array index (a canonical integer string below 2^32 - 1, such as "7") is listed by JavaScript before all other names, in numeric order. The model keeps first-appearance order for every name. For such names the colour index of Charts.tsx:109-115 differs, and so does the order among stations with equal counts after the sorts of Charts.tsx:117 and statistics.ts:255.
- The store (Supabase) is left out: its replies are inputs (`Calculator.SelectReply`, `Calculator.InsertReply`, the deletion failure). The loading flag and the asynchronous ordering of replies are not modelled.
- Calculator.FuelCalculator.FetchRecords: requires the selected rows in date order, as the select's `order('date')` delivers them, and positive litres (the record type).
- Calculator.FuelCalculator.AddRecord, Calculator.FuelCalculator.Store and Calculator.FuelCalculator.Accept: the inserted row is a record with positive litres. The source does not validate before inserting (FuelCalculator.tsx:86-92): an amount of "0" or "-5" is stored and joins the records as `Number(data.amount)`, and NaN is stored as null and read back as 0. Such rows are outside the model, because their efficiencies and unit prices are IEEE infinities or NaN.
- LegacyCalculator.FuelCalculator.AddRecord: requires the form's numbers to parse with a positive amount, because a record here cannot hold NaN or zero litres. The source accepts any text and stores NaN.
- LegacyCalculator.NewRecord: requires the same. fuel_calculator.tsx:47-55 builds the record from `parseFloat` of any text, so NaN, zero and negative amounts are left out.
- Import.ItemsImport: fails with `Thrown` whenever there are at least two rows and some date is not a string. The source's `a.date.localeCompare(b.date)` (import.ts:139) throws only when the engine's sort passes such a row as the comparator's first argument. Which pairs are compared depends on the engine, so on such input the model may throw where an engine does not.
- Validation.ValidateImportData: the `!Array.isArray(data)` branch (validation.ts:132-135) is not modelled. Its argument is a sequence of rows, and both importers pass an array.
- The in-memory revision's stored `pricePerLiter` field (fuel_calculator.tsx:54) is not a field of the record. The listing recomputes the same quotient.
- CSV quoting is modelled as the source does it: a comma inside a station name splits the cell on import, and `Export.CsvRowCells` requires texts without commas.
- Downloads (`Blob`, object URLs, the link element), `alert` dialogs, and the sample CSV download are left out.
- readFileAsText (FileReader) is left out: it is I/O.
- Display-only figures are left out:
  - the goal and budget percentages and bar widths (Dashboard.tsx:57-58, 116-149);
  - the price trend icon and label;
  - the Charts tooltip and layout;
  - the average fill-up interval text;
  - the `formatCurrency` and other format helpers (statistics.ts:285-299).
- Authentication, the migration notice and the application shell are not part of this model.

## Specification and code

Where the description of the system and its code disagree, the model follows the code:

- The CSV importer drops a line whose mileage, litres or cost reads as 0: the `||` guard of import.ts:64 treats 0 as missing (`Import.ZeroCellDropped`).
- A date more than a year back is pushed onto the same error list as the other messages (validation.ts:37-39), so it blocks the form rather than only warning (`Validation.DateErrors`).
- The CSV export's efficiency column has no positivity guard (export.ts:16-18), unlike the other efficiency figures (`Export.EfficiencyCellUnguarded`).
