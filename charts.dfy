/**
 * The data behind the charts (src/components/Charts.tsx, lines 28-117), built from the records
 * in the order they are handed over (no re-sorting):
 * - the efficiency series, one point per record;
 * - the monthly bars, one per month, labelled `YYYY/MM` and in label order;
 * - the station slices, one per station, coloured by first appearance and ordered by fill-ups.
 */
module Charts {
  import opened Optional
  import opened Text
  import opened Sorting
  import opened Reals
  import opened Records
  import opened Grouping

  // ---------------------------------------------------------------------------------------------
  // The efficiency series (`fuelEfficiencyData`)

  datatype EfficiencyPoint = EfficiencyPoint(
    date: string, efficiency: Option<real>, amount: real, cost: real, pricePerLiter: real)

  /**
   * The point of record `index`: the efficiency against `records[index - 1]` (none for the
   * first record), dropped by `efficiency && efficiency > 0` unless positive.
   */
  function PointAt(records: seq<FuelRecord>, index: nat): EfficiencyPoint
    requires index < |records|
  {
    var record := records[index];
    var efficiency: Option<real> :=
      if index > 0 then Some((record.mileage - records[index - 1].mileage) / record.amount) else None;
    EfficiencyPoint(record.date, if efficiency.Some? && efficiency.value > 0.0 then efficiency else None,
                    record.amount, record.cost, record.cost / record.amount)
  }

  /** `records.map((record, index) => ...)`. */
  function FuelEfficiencyData(records: seq<FuelRecord>): (r: seq<EfficiencyPoint>)
    ensures |r| == |records|
  {
    seq(|records|, index requires 0 <= index < |records| => PointAt(records, index))
  }

  /**
   * One point per record, in input order, with the record's date, litres, cost and unit price.
   * Its efficiency is that of the record against its predecessor in the array: none for the
   * first record and none where the odometer did not advance; where present it is positive.
   */
  lemma EfficiencyPoints(records: seq<FuelRecord>)
    ensures var r := FuelEfficiencyData(records);
      forall j :: 0 <= j < |records| ==>
        && r[j].date == records[j].date && r[j].amount == records[j].amount && r[j].cost == records[j].cost
        && r[j].pricePerLiter == PricePerLiter(records[j])
        && r[j].efficiency == Efficiency(records[j], Previous(records, j))
        && (j == 0 ==> r[j].efficiency.None?)
        && (r[j].efficiency.Some? ==> r[j].efficiency.value > 0.0)
  {
    forall j | 0 <= j < |records|
      ensures FuelEfficiencyData(records)[j].efficiency == Efficiency(records[j], Previous(records, j))
    {
      if j > 0 {
        var distance := records[j].mileage - records[j - 1].mileage;
        QuotientCompare(distance, records[j].amount, 0.0);
      }
    }
  }

  // ---------------------------------------------------------------------------------------------
  // The monthly bars (`monthlyDataMap` and `monthlyData`)

  /** A month's accumulator: totals, fill-ups and the efficiencies and unit prices seen. */
  datatype MonthAcc = MonthAcc(
    month: string, totalCost: real, totalAmount: real, fillUps: nat, efficiencies: seq<real>, prices: seq<real>)

  function OpenMonthAcc(month: string): MonthAcc {
    MonthAcc(month, 0.0, 0.0, 0, [], [])
  }

  /**
   * The `forEach` callback's update of the month's accumulator for `record`, whose predecessor
   * in the array is `prev`: totals, one more fill-up, its unit price, and its efficiency when
   * the odometer advanced and the efficiency is positive.
   */
  function AddFillUp(acc: MonthAcc, record: FuelRecord, prev: Option<FuelRecord>): MonthAcc {
    var counted := acc.(totalCost := acc.totalCost + record.cost, totalAmount := acc.totalAmount + record.amount,
                        fillUps := acc.fillUps + 1, prices := acc.prices + [record.cost / record.amount]);
    if prev.Some? && record.mileage - prev.value.mileage > 0.0
       && (record.mileage - prev.value.mileage) / record.amount > 0.0
    then counted.(efficiencies := counted.efficiencies + [(record.mileage - prev.value.mileage) / record.amount])
    else counted
  }

  /** The unit prices of the records at positions `ms`. */
  function PricesAt(s: seq<FuelRecord>, ms: seq<nat>): (r: seq<real>)
    requires forall i :: 0 <= i < |ms| ==> ms[i] < |s|
    ensures |r| == |ms|
  {
    seq(|ms|, i requires 0 <= i < |ms| => PricePerLiter(s[ms[i]]))
  }

  /** The efficiencies (against the predecessor in the array) of the records at positions `ms` that have one. */
  function EfficienciesAt(s: seq<FuelRecord>, ms: seq<nat>): seq<real>
    requires forall i :: 0 <= i < |ms| ==> ms[i] < |s|
  {
    if ms == [] then []
    else
      var last := ms[|ms| - 1];
      EfficienciesAt(s, ms[..|ms| - 1]) + Found(Efficiency(s[last], Previous(s, last)))
  }

  /** The efficiencies at positions `ms` are all positive, and there is one exactly where some record advanced. */
  lemma {:induction false} EfficienciesAtPositive(s: seq<FuelRecord>, ms: seq<nat>)
    requires forall i :: 0 <= i < |ms| ==> ms[i] < |s|
    ensures forall i :: 0 <= i < |EfficienciesAt(s, ms)| ==> EfficienciesAt(s, ms)[i] > 0.0
    ensures EfficienciesAt(s, ms) != [] <==> exists i :: 0 <= i < |ms| && Efficiency(s[ms[i]], Previous(s, ms[i])).Some?
  {
    if ms != [] {
      var init := ms[..|ms| - 1];
      EfficienciesAtPositive(s, init);
      assert forall i :: 0 <= i < |init| ==> init[i] == ms[i];
    }
  }

  /** The one-element list of an efficiency that exists, the empty list otherwise. */
  function Found(e: Option<real>): seq<real> {
    match e
    case Some(x) => [x]
    case None => []
  }

  /** The callback adds the record's totals, one fill-up, its unit price and its efficiency, if any. */
  lemma FillUpStep(acc: MonthAcc, record: FuelRecord, prev: Option<FuelRecord>)
    ensures AddFillUp(acc, record, prev) ==
      MonthAcc(acc.month, acc.totalCost + record.cost, acc.totalAmount + record.amount, acc.fillUps + 1,
               acc.efficiencies + Found(Efficiency(record, prev)), acc.prices + [PricePerLiter(record)])
  {
    if prev.Some? {
      QuotientCompare(record.mileage - prev.value.mileage, record.amount, 0.0);
    }
  }

  /** Listing one more position extends the prices and, if it has one, the efficiencies. */
  lemma AtAppend(s: seq<FuelRecord>, ms: seq<nat>, j: nat)
    requires j < |s| && forall i :: 0 <= i < |ms| ==> ms[i] < |s|
    ensures EfficienciesAt(s, ms + [j]) == EfficienciesAt(s, ms) + Found(Efficiency(s[j], Previous(s, j)))
    ensures PricesAt(s, ms + [j]) == PricesAt(s, ms) + [PricePerLiter(s[j])]
  {
    assert (ms + [j])[..|ms|] == ms;
  }

  /**
   * A month's accumulator after the first `n` records as sums: its cost and amount sums, its
   * number of records, and its records' efficiencies and unit prices in array order.
   */
  function MonthSums(s: seq<FuelRecord>, n: nat, k: string): MonthAcc
    requires n <= |s|
  {
    var ms := Members(s, n, ByMonth, k);
    MonthAcc(k, GroupSum(s, n, ByMonth, k, Cost), GroupSum(s, n, ByMonth, k, Amount), |ms|,
             EfficienciesAt(s, ms), PricesAt(s, ms))
  }

  /** The accumulator is the month's sums after every record. */
  lemma {:induction false} MonthAccContents(s: seq<FuelRecord>, n: nat, k: string)
    requires n <= |s|
    ensures Bucket(s, n, ByMonth, k, OpenMonthAcc, AddFillUp) == MonthSums(s, n, k)
  {
    if n > 0 {
      MonthAccContents(s, n - 1, k);
      if KeyOf(s[n - 1], ByMonth) == k {
        MonthAccStep(s, n, k);
      } else {
        assert Members(s, n, ByMonth, k) == Members(s, n - 1, ByMonth, k);
      }
    } else {
      assert PricesAt(s, []) == [];
    }
  }

  /** A record of the month adds its figures to the month's sums, as the callback does. */
  lemma MonthAccStep(s: seq<FuelRecord>, n: nat, k: string)
    requires 0 < n <= |s| && KeyOf(s[n - 1], ByMonth) == k
    ensures AddFillUp(MonthSums(s, n - 1, k), s[n - 1], Previous(s, n - 1)) == MonthSums(s, n, k)
  {
    var before, record := MonthSums(s, n - 1, k), s[n - 1];
    assert MonthSums(s, n, k) ==
      MonthAcc(k, before.totalCost + record.cost, before.totalAmount + record.amount, before.fillUps + 1,
               before.efficiencies + Found(Efficiency(record, Previous(s, n - 1))),
               before.prices + [PricePerLiter(record)]) by {
      var ms := Members(s, n - 1, ByMonth, k);
      assert Members(s, n, ByMonth, k) == ms + [n - 1];
      assert GroupSum(s, n, ByMonth, k, Cost) == GroupSum(s, n - 1, ByMonth, k, Cost) + record.cost;
      assert GroupSum(s, n, ByMonth, k, Amount) == GroupSum(s, n - 1, ByMonth, k, Amount) + record.amount;
      AtAppend(s, ms, n - 1);
    }
    FillUpStep(before, record, Previous(s, n - 1));
  }

  /** A bar of the monthly chart. */
  datatype MonthPoint = MonthPoint(
    month: string, totalCost: real, totalAmount: real, averagePrice: real, averageEfficiency: real, fillUps: nat)

  /** The `.map(...)` of a month's accumulator into its bar; a month always has a price. */
  function MonthPointOf(a: MonthAcc): MonthPoint
    requires a.prices != []
  {
    MonthPoint(
      ReplaceFirst(a.month, '-', "/"),
      a.totalCost,
      a.totalAmount,
      Sum(a.prices) / |a.prices| as real,
      if |a.efficiencies| > 0 then Sum(a.efficiencies) / |a.efficiencies| as real else 0.0,
      a.fillUps)
  }

  function MonthEntry(month: string, a: MonthAcc): MonthPoint
    requires a.prices != []
  {
    MonthPointOf(a)
  }

  function Label(p: MonthPoint): string { p.month }
  function BarFillUps(p: MonthPoint): real { p.fillUps as real }
  function BarCost(p: MonthPoint): real { p.totalCost }
  function BarAmount(p: MonthPoint): real { p.totalAmount }

  /** Every month met has at least one record, hence a price. */
  lemma MonthsHavePrices(s: seq<FuelRecord>)
    ensures var acc := BucketsAt(s, |s|, ByMonth, OpenMonthAcc, AddFillUp);
      forall k :: k in Keys(s, |s|, ByMonth) ==> k in acc && acc[k].prices != []
  {
    forall k | k in Keys(s, |s|, ByMonth)
      ensures Bucket(s, |s|, ByMonth, k, OpenMonthAcc, AddFillUp).prices != []
    {
      MonthAccContents(s, |s|, k);
      KeysMembers(s, |s|, ByMonth, k);
    }
  }

  /** `monthlyData`: one bar per month, sorted by label. */
  function MonthlyChart(s: seq<FuelRecord>): seq<MonthPoint> {
    MonthsHavePrices(s);
    SortBy(Entries(Keys(s, |s|, ByMonth), BucketsAt(s, |s|, ByMonth, OpenMonthAcc, AddFillUp), MonthEntry),
           Ascending(Label))
  }

  /** The `forEach` callback of the monthly pass for the record at `index`. */
  method AddMonthRecord(s: seq<FuelRecord>, index: nat, months: seq<string>, acc: map<string, MonthAcc>)
    returns (months': seq<string>, acc': map<string, MonthAcc>)
    requires index < |s|
    requires (months, acc) == (Keys(s, index, ByMonth), BucketsAt(s, index, ByMonth, OpenMonthAcc, AddFillUp))
    ensures (months', acc') == (Keys(s, index + 1, ByMonth), BucketsAt(s, index + 1, ByMonth, OpenMonthAcc, AddFillUp))
  {
    months', acc' := months, acc;
    var record := s[index];
    var month := Month(record.date);
    if month !in acc' {
      acc' := acc'[month := MonthAcc(month, 0.0, 0.0, 0, [], [])];
      months' := months' + [month];
    }
    ghost var started := acc';
    var data := acc'[month];
    data := data.(totalCost := data.totalCost + record.cost);
    data := data.(totalAmount := data.totalAmount + record.amount);
    data := data.(fillUps := data.fillUps + 1);
    data := data.(prices := data.prices + [record.cost / record.amount]);
    if index > 0 {
      var prevRecord := s[index - 1];
      var distance := record.mileage - prevRecord.mileage;
      if distance > 0.0 {
        var efficiency := distance / record.amount;
        if efficiency > 0.0 {
          data := data.(efficiencies := data.efficiencies + [efficiency]);
        }
      }
    }
    acc' := acc'[month := data];
    BucketsStep(s, index, ByMonth, OpenMonthAcc, AddFillUp, started, data);
  }

  /** The monthly pass followed by `Object.values(...).map(...).sort(...)`. */
  method ChartMonthlyData(s: seq<FuelRecord>) returns (r: seq<MonthPoint>)
    ensures r == MonthlyChart(s)
  {
    var months, acc := [], map[];
    var i := 0;
    while i < |s|
      invariant i <= |s|
      invariant (months, acc) == (Keys(s, i, ByMonth), BucketsAt(s, i, ByMonth, OpenMonthAcc, AddFillUp))
    {
      months, acc := AddMonthRecord(s, i, months, acc);
      i := i + 1;
    }
    MonthsHavePrices(s);
    r := SortBy(Entries(months, acc, MonthEntry), Ascending(Label));
  }

  /**
   * The bar of month `k`: the label is the month with its first `-` turned into `/`, the
   * totals are the month's sums, the fill-ups its number of records, the average price the
   * mean of its records' unit prices and the average efficiency the mean of its records'
   * efficiencies (0 when none has one).
   */
  function MonthBar(s: seq<FuelRecord>, k: string): MonthPoint {
    var ms := Members(s, |s|, ByMonth, k);
    MonthPoint(ReplaceFirst(k, '-', "/"), GroupSum(s, |s|, ByMonth, k, Cost), GroupSum(s, |s|, ByMonth, k, Amount),
               Mean(PricesAt(s, ms)), Mean(EfficienciesAt(s, ms)), |ms|)
  }

  /** The bars are, in some order, the bars of the months of the records, one per month. */
  lemma MonthlyChartBars(s: seq<FuelRecord>)
    ensures var keys := Keys(s, |s|, ByMonth);
      multiset(MonthlyChart(s)) == multiset(seq(|keys|, i requires 0 <= i < |keys| => MonthBar(s, keys[i])))
  {
    var keys, acc := Keys(s, |s|, ByMonth), BucketsAt(s, |s|, ByMonth, OpenMonthAcc, AddFillUp);
    MonthsHavePrices(s);
    var entries := Entries(keys, acc, MonthEntry);
    var bars := seq(|keys|, i requires 0 <= i < |keys| => MonthBar(s, keys[i]));
    forall i | 0 <= i < |keys| ensures entries[i] == bars[i] {
      MonthAccContents(s, |s|, keys[i]);
      KeysMembers(s, |s|, ByMonth, keys[i]);
    }
    assert entries == bars;
  }

  /** The bars come in ascending label order. */
  lemma MonthlyChartAscending(s: seq<FuelRecord>)
    ensures var r := MonthlyChart(s);
      forall i, j :: 0 <= i < j < |r| ==> LexLe(r[i].month, r[j].month)
  {
    var r := MonthlyChart(s);
    MonthsHavePrices(s);
    KeyOrdersAreTotalPreorders(Label);
    SortSorted(Entries(Keys(s, |s|, ByMonth), BucketsAt(s, |s|, ByMonth, OpenMonthAcc, AddFillUp), MonthEntry),
               Ascending(Label));
    forall i, j | 0 <= i < j < |r| ensures LexLe(r[i].month, r[j].month) {
      assert Ascending(Label)(r[i], r[j]);
      assert Label(r[i]) == r[i].month && Label(r[j]) == r[j].month;
    }
  }

  /** The fill-ups over all bars number the records, and the bars' totals are the overall totals. */
  lemma MonthlyChartTotals(s: seq<FuelRecord>)
    ensures SumBy(MonthlyChart(s), BarFillUps) == |s| as real
    ensures SumBy(MonthlyChart(s), BarCost) == SumBy(s, CostOf)
    ensures SumBy(MonthlyChart(s), BarAmount) == SumBy(s, AmountOf)
  {
    var keys, acc := Keys(s, |s|, ByMonth), BucketsAt(s, |s|, ByMonth, OpenMonthAcc, AddFillUp);
    MonthsHavePrices(s);
    forall k | k in keys
      ensures && BarFillUps(MonthEntry(k, acc[k])) == GroupSum(s, |s|, ByMonth, k, Count)
              && BarCost(MonthEntry(k, acc[k])) == GroupSum(s, |s|, ByMonth, k, Cost)
              && BarAmount(MonthEntry(k, acc[k])) == GroupSum(s, |s|, ByMonth, k, Amount)
    {
      MonthAccContents(s, |s|, k);
      GroupCount(s, |s|, ByMonth, k);
    }
    ViewSum(s, ByMonth, keys, acc, MonthEntry, Ascending(Label), Count, BarFillUps);
    ViewSum(s, ByMonth, keys, acc, MonthEntry, Ascending(Label), Cost, BarCost);
    ViewSum(s, ByMonth, keys, acc, MonthEntry, Ascending(Label), Amount, BarAmount);
    TotalCount(s, |s|);
    TotalIsSumBy(s, |s|);
    assert s[..|s|] == s;
  }

  /**
   * A bar's average price lies between its month's cheapest and dearest unit price, and its
   * average efficiency is never negative and is positive exactly when some record of the
   * month has an efficiency.
   */
  lemma MonthBarAverages(s: seq<FuelRecord>, ms: seq<nat>)
    requires ms != [] && forall i :: 0 <= i < |ms| ==> ms[i] < |s|
    ensures Min(PricesAt(s, ms)) <= Mean(PricesAt(s, ms)) <= Max(PricesAt(s, ms))
    ensures Mean(EfficienciesAt(s, ms)) >= 0.0
    ensures Mean(EfficienciesAt(s, ms)) > 0.0 <==>
      exists i :: 0 <= i < |ms| && Efficiency(s[ms[i]], Previous(s, ms[i])).Some?
  {
    MeanBounds(PricesAt(s, ms));
    var es := EfficienciesAt(s, ms);
    EfficienciesAtPositive(s, ms);
    if es != [] {
      MeanBounds(es);
      assert Min(es) > 0.0;
    }
  }

  // ---------------------------------------------------------------------------------------------
  // The station slices (`stationDataMap` and `stationData`)

  datatype StationAcc = StationAcc(station: string, count: nat, totalCost: real, totalAmount: real)

  function OpenStationAcc(station: string): StationAcc {
    StationAcc(station, 0, 0.0, 0.0)
  }

  /** The station pass's update for `record` (the record before it plays no part). */
  function AddVisit(acc: StationAcc, record: FuelRecord, prev: Option<FuelRecord>): StationAcc {
    acc.(count := acc.count + 1, totalCost := acc.totalCost + record.cost, totalAmount := acc.totalAmount + record.amount)
  }

  /** A station's accumulator after the first `n` records as sums. */
  function StationSums(s: seq<FuelRecord>, n: nat, k: string): StationAcc
    requires n <= |s|
  {
    StationAcc(k, |Members(s, n, ByStation, k)|, GroupSum(s, n, ByStation, k, Cost), GroupSum(s, n, ByStation, k, Amount))
  }

  /** The accumulator is the station's number of records and its cost and amount sums. */
  lemma {:induction false} StationAccContents(s: seq<FuelRecord>, n: nat, k: string)
    requires n <= |s|
    ensures Bucket(s, n, ByStation, k, OpenStationAcc, AddVisit) == StationSums(s, n, k)
  {
    if n > 0 {
      StationAccContents(s, n - 1, k);
      if KeyOf(s[n - 1], ByStation) == k {
        assert Members(s, n, ByStation, k) == Members(s, n - 1, ByStation, k) + [n - 1];
      } else {
        assert Members(s, n, ByStation, k) == Members(s, n - 1, ByStation, k);
      }
    }
  }

  /** `colors`. */
  const Colors: seq<string> := ["#3B82F6", "#EF4444", "#10B981", "#F59E0B", "#8B5CF6"]

  /** A slice of the station chart. */
  datatype StationSlice = StationSlice(station: string, count: nat, totalCost: real, averagePrice: real, fill: string)

  /** The index of the first occurrence of `k` in `keys`, or `|keys|` if there is none. */
  function Position(keys: seq<string>, k: string): (p: nat)
    ensures p <= |keys|
    ensures p < |keys| <==> k in keys
    ensures p < |keys| ==> keys[p] == k
    ensures forall q :: 0 <= q < p ==> keys[q] != k
  {
    if keys == [] then 0
    else if keys[0] == k then 0
    else
      var p := Position(keys[1..], k);
      assert forall q :: 1 <= q < |keys| ==> keys[q] == keys[1..][q - 1];
      1 + p
  }

  /**
   * The `.map((data, index) => ...)` of a station's accumulator, `index` being its position
   * among the stations in order of first appearance.
   */
  function SliceOf(keys: seq<string>, k: string, a: StationAcc): StationSlice
    requires a.totalAmount > 0.0
  {
    StationSlice(a.station, a.count, a.totalCost, a.totalCost / a.totalAmount, Colors[Position(keys, k) % |Colors|])
  }

  function SliceEntry(keys: seq<string>): (string, StationAcc) --> StationSlice {
    (k: string, a: StationAcc) requires a.totalAmount > 0.0 => SliceOf(keys, k, a)
  }

  function SliceStation(e: StationSlice): string { e.station }
  function SliceCount(e: StationSlice): real { e.count as real }

  /** The comparator `(a, b) => b.count - a.count`: more fill-ups first. */
  predicate MoreFillUps(a: StationSlice, b: StationSlice) {
    a.count >= b.count
  }

  lemma MoreFillUpsIsTotalPreorder()
    ensures TotalPreorder(MoreFillUps)
  {
  }

  /** Every station met has fuel, so its average price is defined. */
  lemma StationsHaveFuel(s: seq<FuelRecord>)
    ensures var acc := BucketsAt(s, |s|, ByStation, OpenStationAcc, AddVisit);
      forall k :: k in Keys(s, |s|, ByStation) ==> k in acc && acc[k].totalAmount > 0.0
  {
    forall k | k in Keys(s, |s|, ByStation)
      ensures Bucket(s, |s|, ByStation, k, OpenStationAcc, AddVisit).totalAmount > 0.0
    {
      StationAccContents(s, |s|, k);
      KeysMembers(s, |s|, ByStation, k);
      GroupAmountPositive(s, |s|, ByStation, k);
    }
  }

  /** `stationData`: one slice per station, most fill-ups first. */
  function StationChart(s: seq<FuelRecord>): seq<StationSlice> {
    var keys := Keys(s, |s|, ByStation);
    StationsHaveFuel(s);
    SortBy(Entries(keys, BucketsAt(s, |s|, ByStation, OpenStationAcc, AddVisit), SliceEntry(keys)), MoreFillUps)
  }

  /** The `forEach` callback of the station pass. */
  method AddStationRecord(s: seq<FuelRecord>, index: nat, stations: seq<string>, acc: map<string, StationAcc>)
    returns (stations': seq<string>, acc': map<string, StationAcc>)
    requires index < |s|
    requires (stations, acc) == (Keys(s, index, ByStation), BucketsAt(s, index, ByStation, OpenStationAcc, AddVisit))
    ensures (stations', acc') == (Keys(s, index + 1, ByStation), BucketsAt(s, index + 1, ByStation, OpenStationAcc, AddVisit))
  {
    stations', acc' := stations, acc;
    var record := s[index];
    if record.station !in acc' {
      acc' := acc'[record.station := StationAcc(record.station, 0, 0.0, 0.0)];
      stations' := stations' + [record.station];
    }
    ghost var started := acc';
    var stationData := acc'[record.station];
    stationData := stationData.(count := stationData.count + 1);
    stationData := stationData.(totalCost := stationData.totalCost + record.cost);
    stationData := stationData.(totalAmount := stationData.totalAmount + record.amount);
    acc' := acc'[record.station := stationData];
    BucketsStep(s, index, ByStation, OpenStationAcc, AddVisit, started, stationData);
  }

  /** The station pass followed by `Object.values(...).map(...).sort(...)`. */
  method ChartStationData(s: seq<FuelRecord>) returns (r: seq<StationSlice>)
    ensures r == StationChart(s)
  {
    var stations, acc := [], map[];
    var i := 0;
    while i < |s|
      invariant i <= |s|
      invariant (stations, acc) == (Keys(s, i, ByStation), BucketsAt(s, i, ByStation, OpenStationAcc, AddVisit))
    {
      stations, acc := AddStationRecord(s, i, stations, acc);
      i := i + 1;
    }
    StationsHaveFuel(s);
    r := SortBy(Entries(stations, acc, SliceEntry(stations)), MoreFillUps);
  }

  lemma StationView(s: seq<FuelRecord>)
    ensures var keys := Keys(s, |s|, ByStation);
      IsView(s, ByStation, keys, BucketsAt(s, |s|, ByStation, OpenStationAcc, AddVisit), SliceEntry(keys), SliceStation)
  {
    var keys, acc := Keys(s, |s|, ByStation), BucketsAt(s, |s|, ByStation, OpenStationAcc, AddVisit);
    StationsHaveFuel(s);
    forall i | 0 <= i < |keys| ensures SliceStation(SliceEntry(keys)(keys[i], acc[keys[i]])) == keys[i] {
      StationAccContents(s, |s|, keys[i]);
    }
  }

  /**
   * The slice of the `i`-th station in order of first appearance: its fill-ups, its cost sum,
   * its average price (cost sum over litres sum) and the `i`-th colour, cycling through five.
   */
  function StationSlot(s: seq<FuelRecord>, i: nat): StationSlice
    requires i < |Keys(s, |s|, ByStation)|
  {
    var k := Keys(s, |s|, ByStation)[i];
    KeysMembers(s, |s|, ByStation, k);
    GroupAmountPositive(s, |s|, ByStation, k);
    StationSlice(k, |Members(s, |s|, ByStation, k)|, GroupSum(s, |s|, ByStation, k, Cost),
                 GroupSum(s, |s|, ByStation, k, Cost) / GroupSum(s, |s|, ByStation, k, Amount), Colors[i % 5])
  }

  /** The slices are, in some order, the slots of the stations, one per station and none twice. */
  lemma StationChartSlices(s: seq<FuelRecord>)
    ensures var keys := Keys(s, |s|, ByStation);
      multiset(StationChart(s)) == multiset(seq(|keys|, i requires 0 <= i < |keys| => StationSlot(s, i)))
    ensures var r := StationChart(s);
      forall i, j :: 0 <= i < j < |r| ==> r[i].station != r[j].station
  {
    var keys, acc := Keys(s, |s|, ByStation), BucketsAt(s, |s|, ByStation, OpenStationAcc, AddVisit);
    StationsHaveFuel(s);
    var entries := Entries(keys, acc, SliceEntry(keys));
    var slots := seq(|keys|, i requires 0 <= i < |keys| => StationSlot(s, i));
    KeysDistinct(s, |s|, ByStation);
    forall i | 0 <= i < |keys| ensures entries[i] == slots[i] {
      StationAccContents(s, |s|, keys[i]);
      assert Position(keys, keys[i]) == i;
    }
    assert entries == slots;
    var r := StationChart(s);
    assert DistinctKeys(r, SliceStation) by {
      StationView(s);
      ViewEntries(s, ByStation, keys, acc, SliceEntry(keys), SliceStation, MoreFillUps);
    }
    forall i, j | 0 <= i < j < |r| ensures r[i].station != r[j].station {
      assert SliceStation(r[i]) != SliceStation(r[j]);
    }
  }

  /** Slices come in non-increasing order of fill-ups. */
  lemma StationChartByCount(s: seq<FuelRecord>)
    ensures var r := StationChart(s);
      forall i, j :: 0 <= i < j < |r| ==> r[i].count >= r[j].count
  {
    var keys := Keys(s, |s|, ByStation);
    StationsHaveFuel(s);
    MoreFillUpsIsTotalPreorder();
    SortSorted(Entries(keys, BucketsAt(s, |s|, ByStation, OpenStationAcc, AddVisit), SliceEntry(keys)), MoreFillUps);
  }

  /** The slices' fill-ups add up to the number of records. */
  lemma StationChartCounts(s: seq<FuelRecord>)
    ensures SumBy(StationChart(s), SliceCount) == |s| as real
  {
    var keys, acc := Keys(s, |s|, ByStation), BucketsAt(s, |s|, ByStation, OpenStationAcc, AddVisit);
    StationsHaveFuel(s);
    forall k | k in keys ensures SliceCount(SliceEntry(keys)(k, acc[k])) == GroupSum(s, |s|, ByStation, k, Count) {
      StationAccContents(s, |s|, k);
      GroupCount(s, |s|, ByStation, k);
    }
    ViewSum(s, ByStation, keys, acc, SliceEntry(keys), MoreFillUps, Count, SliceCount);
    TotalCount(s, |s|);
  }

  /** The slices' stations are exactly the stations of the records. */
  lemma StationChartCover(s: seq<FuelRecord>)
    ensures (set e | e in StationChart(s) :: e.station) == (set x | x in s :: x.station)
  {
    var keys, acc := Keys(s, |s|, ByStation), BucketsAt(s, |s|, ByStation, OpenStationAcc, AddVisit);
    var r := StationChart(s);
    assert (set e | e in r :: SliceStation(e)) == (set x | x in s :: KeyOf(x, ByStation)) by {
      StationView(s);
      ViewCover(s, ByStation, keys, acc, SliceEntry(keys), SliceStation, r);
    }
    assert (set e | e in r :: e.station) == (set e | e in r :: SliceStation(e));
    assert (set x | x in s :: x.station) == (set x | x in s :: KeyOf(x, ByStation));
  }
}
