/**
 * The statistics snapshot of the tracker: totals, efficiency extremes, per-month and
 * per-station figures and the month-over-month trend, all derived from the records in
 * date order.
 */
module Statistics {
  import opened Optional
  import opened Text
  import opened Sorting
  import opened Reals
  import opened Records
  import opened Grouping

  datatype MonthlyStats = MonthlyStats(
    month: string,                 // YYYY-MM
    displayMonth: string,          // YYYY年MM月
    recordCount: nat,
    totalCost: real,
    totalAmount: real,
    totalDistance: real,
    averageFuelEfficiency: real,
    averagePrice: real,
    costPerKm: real)

  datatype StationStats = StationStats(
    station: string,
    recordCount: nat,
    totalCost: real,
    totalAmount: real,
    averagePrice: real,
    lastVisit: string,
    fuelEfficiency: real)

  datatype TrendData = TrendData(
    priceChange: real,
    efficiencyChange: real,
    costChange: real,
    isImprovingEfficiency: bool,
    isPriceIncreasing: bool)

  datatype StatisticsData = StatisticsData(
    totalRecords: nat,
    totalCost: real,
    totalAmount: real,
    totalDistance: real,
    averageFuelEfficiency: real,
    averagePrice: real,
    averageCostPerMonth: real,
    averageAmountPerFillup: real,
    bestFuelEfficiency: real,
    worstFuelEfficiency: real,
    cheapestPrice: real,
    expensivePrice: real,
    firstRecord: Option<FuelRecord>,
    latestRecord: Option<FuelRecord>,
    monthlyStats: seq<MonthlyStats>,
    stationStats: seq<StationStats>,
    trends: TrendData)

  const NoTrend := TrendData(0.0, 0.0, 0.0, false, false)

  /** The snapshot for an empty record list. */
  const EmptyStatistics :=
    StatisticsData(0, 0.0, 0.0, 0.0, 0.0, 0.0, 0.0, 0.0, 0.0, 0.0, 0.0, 0.0, None, None, [], [], NoTrend)

  // ---------------------------------------------------------------------------------------------
  // Monthly statistics

  /** The month figures computed from a month's tally (the `.map` over `Object.entries`). */
  function MonthEntry(month: string, t: Tally): MonthlyStats
    requires t.amount > 0.0
  {
    MonthlyStats(
      month,
      ReplaceFirst(month, '-', "年") + "月",
      t.count,
      t.cost,
      t.amount,
      t.distance,
      if t.amount > 0.0 && t.distance > 0.0 then t.distance / t.amount else 0.0,
      t.cost / t.amount,
      if t.distance > 0.0 then t.cost / t.distance else 0.0)
  }

  /** Efficiency is distance per litre when the month has distance, else 0; likewise cost per km. */
  lemma MonthRates(month: string, t: Tally)
    requires t.amount > 0.0 && t.distance >= 0.0
    ensures var e := MonthEntry(month, t);
      && e.month == month && e.recordCount == t.count
      && e.totalCost == t.cost && e.totalAmount == t.amount && e.totalDistance == t.distance
      && (e.averageFuelEfficiency > 0.0 <==> t.distance > 0.0)
      && (t.distance == 0.0 ==> e.averageFuelEfficiency == 0.0 && e.costPerKm == 0.0)
      && e.averageFuelEfficiency * t.amount == t.distance
      && e.averagePrice * t.amount == t.cost
      && (t.distance > 0.0 ==> e.costPerKm * t.distance == t.cost)
  {
  }

  function MonthOf(e: MonthlyStats): string { e.month }

  /** What calculateMonthlyStats returns. */
  function MonthlyStatsOf(s: seq<FuelRecord>): seq<MonthlyStats> {
    SortBy(Entries(Keys(s, |s|, ByMonth), TalliesOf(s, ByMonth, DistanceIn), MonthEntry), Ascending(MonthOf))
  }

  /**
   * The `forEach` callback of calculateMonthlyStats for the record at `index`: open the
   * month's tally if it is new, then add the record's cost, amount and the positive leg
   * from the previous record.
   */
  method AddToMonth(s: seq<FuelRecord>, index: nat, months: seq<string>, acc: map<string, Tally>)
    returns (months': seq<string>, acc': map<string, Tally>)
    requires index < |s|
    requires (months, acc) == (Keys(s, index, ByMonth), TalliesAt(s, index, ByMonth, DistanceIn))
    ensures (months', acc') == (Keys(s, index + 1, ByMonth), TalliesAt(s, index + 1, ByMonth, DistanceIn))
  {
    months', acc' := months, acc;
    var record := s[index];
    var month := Month(record.date);
    if month !in acc' {
      acc' := acc'[month := Tally(0, 0.0, 0.0, 0.0)];
      months' := months' + [month];
    }
    ghost var started := acc';
    var t := acc'[month];
    t := t.(count := t.count + 1, cost := t.cost + record.cost, amount := t.amount + record.amount);
    if index > 0 {
      var distance := record.mileage - s[index - 1].mileage;
      if distance > 0.0 {
        t := t.(distance := t.distance + distance);
      }
    }
    acc' := acc'[month := t];
    TalliesStep(s, index, ByMonth, DistanceIn, started, t);
  }

  /**
   * calculateMonthlyStats: one pass over the records accumulating a tally per month (the
   * distance being the positive leg from the previous record), then one entry per month,
   * sorted by month.
   */
  method CalculateMonthlyStats(s: seq<FuelRecord>) returns (r: seq<MonthlyStats>)
    ensures r == MonthlyStatsOf(s)
  {
    var months, acc := TallyMonths(s);
    r := SortBy(Entries(months, acc, MonthEntry), Ascending(MonthOf));
  }

  /**
   * The `forEach` pass shared by calculateMonthlyStats and the monthly report: the months in
   * order of first appearance and each month's tally.
   */
  method TallyMonths(s: seq<FuelRecord>) returns (months: seq<string>, acc: map<string, Tally>)
    ensures months == Keys(s, |s|, ByMonth) && acc == TalliesOf(s, ByMonth, DistanceIn)
  {
    months, acc := [], map[];
    var i := 0;
    while i < |s|
      invariant i <= |s|
      invariant (months, acc) == (Keys(s, i, ByMonth), TalliesAt(s, i, ByMonth, DistanceIn))
    {
      months, acc := AddToMonth(s, i, months, acc);
      i := i + 1;
    }
  }

  function MonthCost(e: MonthlyStats): real { e.totalCost }
  function MonthAmount(e: MonthlyStats): real { e.totalAmount }
  function MonthDistance(e: MonthlyStats): real { e.totalDistance }
  function MonthCount(e: MonthlyStats): real { e.recordCount as real }

  lemma MonthlyView(s: seq<FuelRecord>)
    ensures IsView(s, ByMonth, Keys(s, |s|, ByMonth), TalliesOf(s, ByMonth, DistanceIn), MonthEntry, MonthOf)
  {
    var keys, tallies := Keys(s, |s|, ByMonth), TalliesOf(s, ByMonth, DistanceIn);
    assert forall k :: k in keys ==> k in tallies && MonthEntry.requires(k, tallies[k]);
    forall i | 0 <= i < |keys| ensures MonthOf(MonthEntry(keys[i], tallies[keys[i]])) == keys[i] {
    }
  }

  /** Each monthly entry holds the tally of its own month, and no month appears twice. */
  lemma MonthlyStatsEntries(s: seq<FuelRecord>)
    ensures var r := MonthlyStatsOf(s);
      && (forall i :: 0 <= i < |r| ==>
            && TallyOf(s, |s|, ByMonth, r[i].month, DistanceIn).amount > 0.0
            && r[i] == MonthEntry(r[i].month, TallyOf(s, |s|, ByMonth, r[i].month, DistanceIn)))
      && (forall i, j :: 0 <= i < j < |r| ==> r[i].month != r[j].month)
  {
    MonthlyView(s);
    ViewEntries(s, ByMonth, Keys(s, |s|, ByMonth), TalliesOf(s, ByMonth, DistanceIn), MonthEntry, MonthOf, Ascending(MonthOf));
  }

  /** The months come in ascending order. */
  lemma MonthlyStatsAscending(s: seq<FuelRecord>)
    ensures var r := MonthlyStatsOf(s);
      forall i, j :: 0 <= i < j < |r| ==> LexLe(r[i].month, r[j].month)
  {
    var r := MonthlyStatsOf(s);
    KeyOrdersAreTotalPreorders(MonthOf);
    SortSorted(Entries(Keys(s, |s|, ByMonth), TalliesOf(s, ByMonth, DistanceIn), MonthEntry), Ascending(MonthOf));
    forall i, j | 0 <= i < j < |r| ensures LexLe(r[i].month, r[j].month) {
      assert Ascending(MonthOf)(r[i], r[j]);
      assert MonthOf(r[i]) == r[i].month && MonthOf(r[j]) == r[j].month;
    }
  }

  /** The months of the entries are exactly the months of the records. */
  lemma MonthlyStatsCover(s: seq<FuelRecord>)
    ensures (set e | e in MonthlyStatsOf(s) :: e.month) == (set x | x in s :: Month(x.date))
  {
    var r := MonthlyStatsOf(s);
    assert (set e | e in r :: MonthOf(e)) == (set x | x in s :: KeyOf(x, ByMonth)) by {
      MonthlyView(s);
      ViewCover(s, ByMonth, Keys(s, |s|, ByMonth), TalliesOf(s, ByMonth, DistanceIn), MonthEntry, MonthOf, r);
    }
    assert (set e | e in r :: e.month) == (set e | e in r :: MonthOf(e));
    assert (set x | x in s :: Month(x.date)) == (set x | x in s :: KeyOf(x, ByMonth));
  }

  /** Across months, record counts, costs, amounts and distances add up to the overall figures. */
  lemma MonthlyTotals(s: seq<FuelRecord>)
    ensures SumBy(MonthlyStatsOf(s), MonthCount) == |s| as real
    ensures SumBy(MonthlyStatsOf(s), MonthCost) == Total(s, |s|, Cost)
    ensures SumBy(MonthlyStatsOf(s), MonthAmount) == Total(s, |s|, Amount)
    ensures SumBy(MonthlyStatsOf(s), MonthDistance) == Distance(s)
  {
    var keys := Keys(s, |s|, ByMonth);
    KeysHaveFuel(s, |s|, ByMonth, DistanceIn);
    forall k | k in keys
      ensures var t := TallyOf(s, |s|, ByMonth, k, DistanceIn);
        && t.count as real == GroupSum(s, |s|, ByMonth, k, Count)
        && t.cost == GroupSum(s, |s|, ByMonth, k, Cost)
        && t.amount == GroupSum(s, |s|, ByMonth, k, Amount)
        && t.distance == GroupSum(s, |s|, ByMonth, k, DistanceIn)
    {
      TallyIsGroupSums(s, |s|, ByMonth, k, DistanceIn);
      GroupCount(s, |s|, ByMonth, k);
    }
    var tallies := TalliesOf(s, ByMonth, DistanceIn);
    ViewSum(s, ByMonth, keys, tallies, MonthEntry, Ascending(MonthOf), Count, MonthCount);
    ViewSum(s, ByMonth, keys, tallies, MonthEntry, Ascending(MonthOf), Cost, MonthCost);
    ViewSum(s, ByMonth, keys, tallies, MonthEntry, Ascending(MonthOf), Amount, MonthAmount);
    ViewSum(s, ByMonth, keys, tallies, MonthEntry, Ascending(MonthOf), DistanceIn, MonthDistance);
    TotalCount(s, |s|);
    DistanceInTotal(s, |s|);
    assert s[..|s|] == s;
  }

  // ---------------------------------------------------------------------------------------------
  // Station statistics

  /** The station figures computed from a station's tally and last visit. */
  function StationEntry(station: string, a: (Tally, string)): StationStats
    requires a.0.amount > 0.0
  {
    var (t, lastVisit) := a;
    StationStats(
      station,
      t.count,
      t.cost,
      t.amount,
      t.cost / t.amount,
      lastVisit,
      if t.amount > 0.0 && t.distance > 0.0 then t.distance / t.amount else 0.0)
  }

  /** Efficiency is the forward distance per litre when there is any, else 0. */
  lemma StationRates(station: string, t: Tally, lastVisit: string)
    requires t.amount > 0.0 && t.distance >= 0.0
    ensures var e := StationEntry(station, (t, lastVisit));
      && e.station == station && e.recordCount == t.count && e.lastVisit == lastVisit
      && e.totalCost == t.cost && e.totalAmount == t.amount
      && (e.fuelEfficiency > 0.0 <==> t.distance > 0.0)
      && e.fuelEfficiency * t.amount == t.distance
      && e.averagePrice * t.amount == t.cost
  {
  }

  function StationOf(e: StationStats): string { e.station }

  /** The comparator `(a, b) => b.recordCount - a.recordCount`: more visits first. */
  predicate MoreVisits(a: StationStats, b: StationStats) {
    a.recordCount >= b.recordCount
  }

  lemma MoreVisitsIsTotalPreorder()
    ensures TotalPreorder(MoreVisits)
  {
  }

  /** The station accumulator after the whole list: forward-distance tally and last visit per station. */
  function StationAccOf(s: seq<FuelRecord>): (m: map<string, (Tally, string)>)
    ensures forall k :: k in m <==> k in Keys(s, |s|, ByStation)
    ensures forall k :: k in m ==>
      m[k] == (TallyOf(s, |s|, ByStation, k, DistanceOut), LastDate(s, |s|, ByStation, k)) && m[k].0.amount > 0.0
  {
    var tallies := TalliesOf(s, ByStation, DistanceOut);
    map k | k in tallies :: (tallies[k], LastDate(s, |s|, ByStation, k))
  }

  /** Pairing each station's tally with its last visit after the whole pass gives the accumulator. */
  lemma StationAccAfterPass(s: seq<FuelRecord>, combined: map<string, (Tally, string)>)
    requires var acc, visits := TalliesAt(s, |s|, ByStation, DistanceOut), LastDates(s, |s|, ByStation);
      combined == map k | k in acc :: (acc[k], visits[k])
    ensures combined == StationAccOf(s)
  {
  }

  /** What calculateStationStats returns. */
  function StationStatsOf(s: seq<FuelRecord>): seq<StationStats> {
    SortBy(Entries(Keys(s, |s|, ByStation), StationAccOf(s), StationEntry), MoreVisits)
  }

  /**
   * The `forEach` callback of calculateStationStats for the record at `index`: open the
   * station's entry if it is new, add the record's cost and amount, note its date as the
   * last visit and add the positive leg to the next record.
   */
  method AddToStation(s: seq<FuelRecord>, index: nat, stations: seq<string>, acc: map<string, Tally>,
                      visits: map<string, string>)
    returns (stations': seq<string>, acc': map<string, Tally>, visits': map<string, string>)
    requires index < |s|
    requires (stations, acc, visits)
          == (Keys(s, index, ByStation), TalliesAt(s, index, ByStation, DistanceOut), LastDates(s, index, ByStation))
    ensures (stations', acc', visits')
         == (Keys(s, index + 1, ByStation), TalliesAt(s, index + 1, ByStation, DistanceOut), LastDates(s, index + 1, ByStation))
  {
    stations', acc', visits' := stations, acc, visits;
    var record := s[index];
    if record.station !in acc' {
      acc' := acc'[record.station := Tally(0, 0.0, 0.0, 0.0)];
      stations' := stations' + [record.station];
    }
    ghost var started := acc';
    var t := acc'[record.station];
    t := t.(count := t.count + 1, cost := t.cost + record.cost, amount := t.amount + record.amount);
    visits' := visits'[record.station := record.date];
    if index < |s| - 1 {
      var distance := s[index + 1].mileage - record.mileage;
      if distance > 0.0 {
        t := t.(distance := t.distance + distance);
      }
    }
    acc' := acc'[record.station := t];
    TalliesStep(s, index, ByStation, DistanceOut, started, t);
    LastDatesStep(s, index, ByStation);
  }

  /**
   * calculateStationStats: one pass over the records accumulating per station a tally (the
   * distance being the positive leg to the next record) and the date of the latest visit,
   * then one entry per station, most visited first.
   */
  method CalculateStationStats(s: seq<FuelRecord>) returns (r: seq<StationStats>)
    ensures r == StationStatsOf(s)
  {
    var stations: seq<string> := [];
    var acc: map<string, Tally> := map[];
    var visits: map<string, string> := map[];
    var i := 0;
    while i < |s|
      invariant i <= |s|
      invariant (stations, acc, visits)
             == (Keys(s, i, ByStation), TalliesAt(s, i, ByStation, DistanceOut), LastDates(s, i, ByStation))
    {
      stations, acc, visits := AddToStation(s, i, stations, acc, visits);
      i := i + 1;
    }
    var combined := map k | k in acc :: (acc[k], visits[k]);
    StationAccAfterPass(s, combined);
    r := SortBy(Entries(stations, combined, StationEntry), MoreVisits);
  }

  function StationCost(e: StationStats): real { e.totalCost }
  function StationAmount(e: StationStats): real { e.totalAmount }
  function StationCount(e: StationStats): real { e.recordCount as real }
  /** The forward distance an entry carries: its efficiency times its amount. */
  function StationDistance(e: StationStats): real { e.fuelEfficiency * e.totalAmount }

  lemma StationView(s: seq<FuelRecord>)
    ensures IsView(s, ByStation, Keys(s, |s|, ByStation), StationAccOf(s), StationEntry, StationOf)
  {
    var keys, acc := Keys(s, |s|, ByStation), StationAccOf(s);
    assert forall k :: k in keys ==> k in acc && StationEntry.requires(k, acc[k]);
    forall i | 0 <= i < |keys| ensures StationOf(StationEntry(keys[i], acc[keys[i]])) == keys[i] {
    }
  }

  /**
   * Each station entry holds its station's tally (distance credited forward) and the date of
   * its last record, and no station appears twice.
   */
  lemma StationStatsEntries(s: seq<FuelRecord>)
    ensures var r := StationStatsOf(s);
      && (forall i :: 0 <= i < |r| ==>
            var t := TallyOf(s, |s|, ByStation, r[i].station, DistanceOut);
            && t.amount > 0.0
            && r[i] == StationEntry(r[i].station, (t, LastDate(s, |s|, ByStation, r[i].station))))
      && (forall i, j :: 0 <= i < j < |r| ==> r[i].station != r[j].station)
  {
    StationView(s);
    ViewEntries(s, ByStation, Keys(s, |s|, ByStation), StationAccOf(s), StationEntry, StationOf, MoreVisits);
  }

  /** Stations come most visited first. */
  lemma StationStatsByVisits(s: seq<FuelRecord>)
    ensures var r := StationStatsOf(s);
      forall i, j :: 0 <= i < j < |r| ==> r[i].recordCount >= r[j].recordCount
  {
    MoreVisitsIsTotalPreorder();
    SortSorted(Entries(Keys(s, |s|, ByStation), StationAccOf(s), StationEntry), MoreVisits);
  }

  /** The stations of the entries are exactly the stations of the records. */
  lemma StationStatsCover(s: seq<FuelRecord>)
    ensures (set e | e in StationStatsOf(s) :: e.station) == (set x | x in s :: x.station)
  {
    var r := StationStatsOf(s);
    assert (set e | e in r :: StationOf(e)) == (set x | x in s :: KeyOf(x, ByStation)) by {
      StationView(s);
      ViewCover(s, ByStation, Keys(s, |s|, ByStation), StationAccOf(s), StationEntry, StationOf, r);
    }
    assert (set e | e in r :: e.station) == (set e | e in r :: StationOf(e));
    assert (set x | x in s :: x.station) == (set x | x in s :: KeyOf(x, ByStation));
  }

  /**
   * In date order, a station's last visit is the date of one of its records and no record of
   * it is later.
   */
  lemma StationLastVisit(s: seq<FuelRecord>)
    requires forall a, b :: 0 <= a < b < |s| ==> LexLe(s[a].date, s[b].date)
    ensures var r := StationStatsOf(s);
      && (forall i :: 0 <= i < |r| ==> exists j :: 0 <= j < |s| && s[j].station == r[i].station && s[j].date == r[i].lastVisit)
      && (forall i, j :: 0 <= i < |r| && 0 <= j < |s| && s[j].station == r[i].station ==> LexLe(s[j].date, r[i].lastVisit))
  {
    var r := StationStatsOf(s);
    StationStatsEntries(s);
    StationView(s);
    var keys, acc := Keys(s, |s|, ByStation), StationAccOf(s);
    forall i | 0 <= i < |r| ensures exists j :: 0 <= j < |s| && s[j].station == r[i].station && s[j].date == r[i].lastVisit {
      EntryHasRecord(s, ByStation, keys, acc, StationEntry, StationOf, r, i);
      var j0 :| 0 <= j0 < |s| && KeyOf(s[j0], ByStation) == StationOf(r[i]);
      InKeys(s, |s|, ByStation, j0);
      LastDateIsLast(s, |s|, ByStation, r[i].station);
    }
    forall i, j | 0 <= i < |r| && 0 <= j < |s| && s[j].station == r[i].station ensures LexLe(s[j].date, r[i].lastVisit) {
      LastDateIsLatest(s, |s|, ByStation, j);
    }
  }

  /** A station's entry carries its group sums. */
  lemma StationEntrySums(s: seq<FuelRecord>, k: string)
    requires k in Keys(s, |s|, ByStation)
    ensures var e := StationEntry(k, StationAccOf(s)[k]);
      && StationCount(e) == GroupSum(s, |s|, ByStation, k, Count)
      && StationCost(e) == GroupSum(s, |s|, ByStation, k, Cost)
      && StationAmount(e) == GroupSum(s, |s|, ByStation, k, Amount)
  {
    TallyIsGroupSums(s, |s|, ByStation, k, DistanceOut);
    GroupCount(s, |s|, ByStation, k);
  }

  /** A station's efficiency times its amount is the distance credited to it. */
  lemma StationEntryDistance(s: seq<FuelRecord>, k: string)
    requires k in Keys(s, |s|, ByStation)
    ensures StationDistance(StationEntry(k, StationAccOf(s)[k])) == GroupSum(s, |s|, ByStation, k, DistanceOut)
  {
    var t := TallyOf(s, |s|, ByStation, k, DistanceOut);
    TallyIsGroupSums(s, |s|, ByStation, k, DistanceOut);
    GroupSumNonNegative(s, |s|, ByStation, k, DistanceOut);
    StationRates(k, t, StationAccOf(s)[k].1);
  }

  /** Across stations, visit counts, costs and amounts add up to the overall figures. */
  lemma StationTotals(s: seq<FuelRecord>)
    ensures SumBy(StationStatsOf(s), StationCount) == |s| as real
    ensures SumBy(StationStatsOf(s), StationCost) == Total(s, |s|, Cost)
    ensures SumBy(StationStatsOf(s), StationAmount) == Total(s, |s|, Amount)
  {
    var keys, acc := Keys(s, |s|, ByStation), StationAccOf(s);
    forall k | k in keys ensures StationCount(StationEntry(k, acc[k])) == GroupSum(s, |s|, ByStation, k, Count) {
      StationEntrySums(s, k);
    }
    forall k | k in keys ensures StationCost(StationEntry(k, acc[k])) == GroupSum(s, |s|, ByStation, k, Cost) {
      StationEntrySums(s, k);
    }
    forall k | k in keys ensures StationAmount(StationEntry(k, acc[k])) == GroupSum(s, |s|, ByStation, k, Amount) {
      StationEntrySums(s, k);
    }
    ViewSum(s, ByStation, keys, acc, StationEntry, MoreVisits, Count, StationCount);
    ViewSum(s, ByStation, keys, acc, StationEntry, MoreVisits, Cost, StationCost);
    ViewSum(s, ByStation, keys, acc, StationEntry, MoreVisits, Amount, StationAmount);
    TotalCount(s, |s|);
  }

  /**
   * The distances the stations are credited with (efficiency times amount) add up to the
   * distance driven: each positive leg goes to the station it starts from, and the last
   * record starts none.
   */
  lemma StationDistanceTotal(s: seq<FuelRecord>)
    ensures SumBy(StationStatsOf(s), StationDistance) == Distance(s)
  {
    var keys, acc := Keys(s, |s|, ByStation), StationAccOf(s);
    forall k | k in keys ensures StationDistance(StationEntry(k, acc[k])) == GroupSum(s, |s|, ByStation, k, DistanceOut) {
      StationEntryDistance(s, k);
    }
    ViewSum(s, ByStation, keys, acc, StationEntry, MoreVisits, DistanceOut, StationDistance);
    DistanceOutTotal(s, |s|);
  }

  // ---------------------------------------------------------------------------------------------
  // Trends and grades

  /**
   * calculateTrends: no trend for fewer than two months; otherwise the changes from the
   * next-to-last month to the last, with strict flags.
   */
  function Trends(ms: seq<MonthlyStats>): (t: TrendData)
    ensures |ms| < 2 ==> t == NoTrend
    ensures |ms| >= 2 ==>
      var latest, previous := ms[|ms| - 1], ms[|ms| - 2];
      && previous.averagePrice + t.priceChange == latest.averagePrice
      && previous.averageFuelEfficiency + t.efficiencyChange == latest.averageFuelEfficiency
      && previous.totalCost + t.costChange == latest.totalCost
      && (t.isImprovingEfficiency <==> latest.averageFuelEfficiency > previous.averageFuelEfficiency)
      && (t.isPriceIncreasing <==> latest.averagePrice > previous.averagePrice)
  {
    if |ms| < 2 then NoTrend
    else
      var latest, previous := ms[|ms| - 1], ms[|ms| - 2];
      var priceChange := latest.averagePrice - previous.averagePrice;
      var efficiencyChange := latest.averageFuelEfficiency - previous.averageFuelEfficiency;
      TrendData(
        priceChange,
        efficiencyChange,
        latest.totalCost - previous.totalCost,
        efficiencyChange > 0.0,
        priceChange > 0.0)
  }

  /** The flags say exactly whether the corresponding change is positive. */
  lemma TrendFlags(ms: seq<MonthlyStats>)
    ensures Trends(ms).isImprovingEfficiency <==> Trends(ms).efficiencyChange > 0.0
    ensures Trends(ms).isPriceIncreasing <==> Trends(ms).priceChange > 0.0
  {
  }

  /** Number of thresholds in `ts` that `e` reaches. */
  function Met(ts: seq<real>, e: real): (n: nat)
    ensures n <= |ts|
  {
    if ts == [] then 0 else (if ts[0] <= e then 1 else 0) + Met(ts[1..], e)
  }

  /** Reaching a threshold is monotone: more efficiency reaches at least as many. */
  lemma {:induction false} MetMonotone(ts: seq<real>, e1: real, e2: real)
    requires e1 <= e2
    ensures Met(ts, e1) <= Met(ts, e2)
  {
    if ts != [] { MetMonotone(ts[1..], e1, e2); }
  }

  const GradeThresholds: seq<real> := [20.0, 18.0, 16.0, 14.0, 12.0, 10.0]
  /** Grades from best to worst: one more than there are thresholds. */
  const Grades: seq<string> := ["A+", "A", "B+", "B", "C+", "C", "D"]

  /** getEfficiencyGrade: the grade of the highest threshold reached, `D` below all of them. */
  function EfficiencyGrade(e: real): string {
    if e >= 20.0 then "A+"
    else if e >= 18.0 then "A"
    else if e >= 16.0 then "B+"
    else if e >= 14.0 then "B"
    else if e >= 12.0 then "C+"
    else if e >= 10.0 then "C"
    else "D"
  }

  /** The grade is the one indexed by how many thresholds the efficiency misses. */
  lemma GradeByThresholds(e: real)
    ensures EfficiencyGrade(e) == Grades[|GradeThresholds| - Met(GradeThresholds, e)]
  {
    var ts := GradeThresholds;
    assert ts[1..][1..][1..][1..][1..][1..] == [];
    assert Met(ts[1..][1..][1..][1..][1..], e) == if e >= 10.0 then 1 else 0;
    assert Met(ts[1..][1..][1..][1..], e) == if e >= 12.0 then 2 else Met(ts[1..][1..][1..][1..][1..], e);
    assert Met(ts[1..][1..][1..], e) == if e >= 14.0 then 3 else Met(ts[1..][1..][1..][1..], e);
    assert Met(ts[1..][1..], e) == if e >= 16.0 then 4 else Met(ts[1..][1..][1..], e);
    assert Met(ts[1..], e) == if e >= 18.0 then 5 else Met(ts[1..][1..], e);
  }

  /** Position of a grade, 0 for the best. */
  function GradeRank(g: string): nat {
    if g == "A+" then 0 else if g == "A" then 1 else if g == "B+" then 2 else if g == "B" then 3
    else if g == "C+" then 4 else if g == "C" then 5 else 6
  }

  /** A higher efficiency never gets a worse grade. */
  lemma EfficiencyGradeMonotone(e1: real, e2: real)
    requires e1 <= e2
    ensures GradeRank(EfficiencyGrade(e2)) <= GradeRank(EfficiencyGrade(e1))
  {
    MetMonotone(GradeThresholds, e1, e2);
    GradeByThresholds(e1);
    GradeByThresholds(e2);
    forall i | 0 <= i < |Grades| ensures GradeRank(Grades[i]) == i {
    }
  }

  const ColorThresholds: seq<real> := [18.0, 15.0, 12.0]
  const Colors: seq<string> := ["text-green-600", "text-blue-600", "text-yellow-600", "text-red-600"]

  /** getEfficiencyColor: the colour of the highest threshold reached, red below all of them. */
  function EfficiencyColor(e: real): string {
    if e >= 18.0 then "text-green-600"
    else if e >= 15.0 then "text-blue-600"
    else if e >= 12.0 then "text-yellow-600"
    else "text-red-600"
  }

  /** The colour is the one indexed by how many thresholds the efficiency misses. */
  lemma ColorByThresholds(e: real)
    ensures EfficiencyColor(e) == Colors[|ColorThresholds| - Met(ColorThresholds, e)]
  {
    var ts := ColorThresholds;
    assert ts[1..][1..][1..] == [];
    assert Met(ts[1..][1..], e) == if e >= 12.0 then 1 else 0;
    assert Met(ts[1..], e) == if e >= 15.0 then 2 else Met(ts[1..][1..], e);
  }

  /** A higher efficiency never gets a colour further down the scale. */
  lemma EfficiencyColorMonotone(e1: real, e2: real)
    requires e1 <= e2
    ensures var c1, c2 := EfficiencyColor(e1), EfficiencyColor(e2);
      exists i, j :: 0 <= i <= j < |Colors| && Colors[i] == c2 && Colors[j] == c1
  {
    MetMonotone(ColorThresholds, e1, e2);
    ColorByThresholds(e1);
    ColorByThresholds(e2);
    var i, j := |ColorThresholds| - Met(ColorThresholds, e2), |ColorThresholds| - Met(ColorThresholds, e1);
    assert Colors[i] == EfficiencyColor(e2) && Colors[j] == EfficiencyColor(e1);
  }

  // ---------------------------------------------------------------------------------------------
  // The snapshot

  /** `sortedRecords.map(r => r.cost / r.amount)`. */
  function Prices(s: seq<FuelRecord>): (ps: seq<real>)
    ensures |ps| == |s|
    ensures forall i :: 0 <= i < |s| ==> ps[i] == PricePerLiter(s[i])
  {
    seq(|s|, i requires 0 <= i < |s| => PricePerLiter(s[i]))
  }

  /** What calculateStatistics returns. */
  function StatisticsOf(records: seq<FuelRecord>): StatisticsData {
    if records == [] then EmptyStatistics else Snapshot(SortByDate(records))
  }

  /** The snapshot of a non-empty, date-ordered record list. */
  function Snapshot(sorted: seq<FuelRecord>): StatisticsData
    requires sorted != []
  {
    var totalCost, totalAmount := SumBy(sorted, CostOf), SumBy(sorted, AmountOf);
    var efficiencies := EfficiencySeries(sorted);
    var prices := Prices(sorted);
    var monthly := MonthlyStatsOf(sorted);
    AmountSumPositive(sorted);
    StatisticsData(
      |sorted|,
      totalCost,
      totalAmount,
      Distance(sorted),
      Mean(efficiencies),
      totalCost / totalAmount,
      totalCost / (if |monthly| == 0 then 1 else |monthly|) as real,
      totalAmount / |sorted| as real,
      if efficiencies != [] then Max(efficiencies) else 0.0,
      if efficiencies != [] then Min(efficiencies) else 0.0,
      Min(prices),
      Max(prices),
      Some(sorted[0]),
      Some(sorted[|sorted| - 1]),
      monthly,
      StationStatsOf(sorted),
      Trends(monthly))
  }

  /**
   * calculateStatistics: sort by date, sum costs and amounts, walk the adjacent pairs
   * collecting the efficiency of each pair whose odometer advanced and the distance, then
   * derive the extremes, the month and station figures and the trend.
   */
  method CalculateStatistics(records: seq<FuelRecord>) returns (r: StatisticsData)
    ensures r == StatisticsOf(records)
  {
    if |records| == 0 {
      return EmptyStatistics;
    }
    var sorted := SortByDate(records);
    var totalCost := SumBy(sorted, CostOf);
    var totalAmount := SumBy(sorted, AmountOf);
    AmountSumPositive(sorted);
    var averagePrice := totalCost / totalAmount;
    var averageAmountPerFillup := totalAmount / |sorted| as real;

    var efficiencies, totalDistance := WalkPairs(sorted);

    var averageFuelEfficiency := Mean(efficiencies);
    var bestFuelEfficiency := if |efficiencies| > 0 then Max(efficiencies) else 0.0;
    var worstFuelEfficiency := if |efficiencies| > 0 then Min(efficiencies) else 0.0;
    var prices := Prices(sorted);
    var cheapestPrice, expensivePrice := Min(prices), Max(prices);

    var monthlyStats := CalculateMonthlyStats(sorted);
    var stationStats := CalculateStationStats(sorted);
    var trends := Trends(monthlyStats);
    var monthCount := if |monthlyStats| == 0 then 1 else |monthlyStats|;
    var averageCostPerMonth := totalCost / monthCount as real;

    r := StatisticsData(
      |sorted|, totalCost, totalAmount, totalDistance, averageFuelEfficiency, averagePrice,
      averageCostPerMonth, averageAmountPerFillup, bestFuelEfficiency, worstFuelEfficiency,
      cheapestPrice, expensivePrice, Some(sorted[0]), Some(sorted[|sorted| - 1]),
      monthlyStats, stationStats, trends);
    assert r == Snapshot(sorted);
  }

  /**
   * The walk over adjacent pairs of date-ordered records: each pair whose odometer advanced
   * adds its distance and the efficiency of the later fill-up.
   */
  method WalkPairs(sorted: seq<FuelRecord>) returns (efficiencies: seq<real>, totalDistance: real)
    requires sorted != []
    ensures efficiencies == EfficiencySeries(sorted) && totalDistance == Distance(sorted)
  {
    efficiencies, totalDistance := [], 0.0;
    SingleRecord(sorted);
    var i := 1;
    while i < |sorted|
      invariant 1 <= i <= |sorted|
      invariant efficiencies == EfficiencySeries(sorted[..i]) && totalDistance == Distance(sorted[..i])
    {
      var current, previous := sorted[i], sorted[i - 1];
      var distance := current.mileage - previous.mileage;
      if distance > 0.0 {
        totalDistance := totalDistance + distance;
        var efficiency := distance / current.amount;
        efficiencies := efficiencies + [efficiency];
      }
      PrefixStep(sorted, i);
      i := i + 1;
    }
    assert sorted[..i] == sorted;
  }

  /**
   * The snapshot of no records is all zeros; otherwise it counts every record, its totals do
   * not depend on the input order, and the averages are the quotients of the totals.
   */
  lemma StatisticsTotals(records: seq<FuelRecord>)
    ensures var r := StatisticsOf(records);
      && (records == [] ==> r == EmptyStatistics)
      && r.totalRecords == |records|
      && r.totalCost == SumBy(records, CostOf)
      && r.totalAmount == SumBy(records, AmountOf)
      && (records != [] ==>
            && r.totalAmount > 0.0)
  {
    if records != [] {
      var sorted := SortByDate(records);
      SumByPermutation(sorted, records, CostOf);
      SumByPermutation(sorted, records, AmountOf);
      AmountSumPositive(sorted);
    }
  }

  /**
   * The averages are the quotients of the totals, and no divisor is ever zero: the litres
   * are positive, there is at least one record and at least one month.
   */
  lemma StatisticsAverages(records: seq<FuelRecord>)
    requires records != []
    ensures var r := StatisticsOf(records);
      && r.totalAmount > 0.0 && r.totalRecords > 0 && |r.monthlyStats| > 0
      && r.averagePrice == r.totalCost / r.totalAmount
      && r.averageAmountPerFillup == r.totalAmount / r.totalRecords as real
      && r.averageCostPerMonth == r.totalCost / |r.monthlyStats| as real
  {
    var sorted := SortByDate(records);
    AmountSumPositive(sorted);
    InKeys(sorted, |sorted|, ByMonth, 0);
  }

  /**
   * The months add up to the snapshot's totals, and there is a month for a non-empty list, so
   * the monthly average cost times the number of months is the total.
   */
  lemma StatisticsMonthlyBreakdown(records: seq<FuelRecord>)
    ensures var r := StatisticsOf(records);
      && SumBy(r.monthlyStats, MonthCount) == r.totalRecords as real
      && SumBy(r.monthlyStats, MonthCost) == r.totalCost
      && SumBy(r.monthlyStats, MonthAmount) == r.totalAmount
      && SumBy(r.monthlyStats, MonthDistance) == r.totalDistance
      && (records != [] ==> |r.monthlyStats| >= 1)
  {
    if records != [] {
      var sorted := SortByDate(records);
      MonthlySums(sorted);
      var r := StatisticsOf(records);
      assert r.monthlyStats == MonthlyStatsOf(sorted) && r.totalRecords == |sorted|;
      assert r.totalCost == SumBy(sorted, CostOf) && r.totalAmount == SumBy(sorted, AmountOf);
      assert r.totalDistance == Distance(sorted);
    }
  }

  lemma MonthlySums(sorted: seq<FuelRecord>)
    requires sorted != []
    ensures var ms := MonthlyStatsOf(sorted);
      && SumBy(ms, MonthCount) == |sorted| as real
      && SumBy(ms, MonthCost) == SumBy(sorted, CostOf)
      && SumBy(ms, MonthAmount) == SumBy(sorted, AmountOf)
      && SumBy(ms, MonthDistance) == Distance(sorted)
      && |ms| >= 1
  {
    MonthlyTotals(sorted);
    TotalIsSumBy(sorted, |sorted|);
    assert sorted[..|sorted|] == sorted;
    InKeys(sorted, |sorted|, ByMonth, 0);
  }

  /** The stations add up to the snapshot's totals, the distance included. */
  lemma StatisticsStationBreakdown(records: seq<FuelRecord>)
    ensures var r := StatisticsOf(records);
      && SumBy(r.stationStats, StationCount) == r.totalRecords as real
      && SumBy(r.stationStats, StationCost) == r.totalCost
      && SumBy(r.stationStats, StationAmount) == r.totalAmount
      && SumBy(r.stationStats, StationDistance) == r.totalDistance
  {
    if records != [] {
      var sorted := SortByDate(records);
      StationSums(sorted);
      var r := StatisticsOf(records);
      assert r.stationStats == StationStatsOf(sorted) && r.totalRecords == |sorted|;
      assert r.totalCost == SumBy(sorted, CostOf) && r.totalAmount == SumBy(sorted, AmountOf);
      assert r.totalDistance == Distance(sorted);
    }
  }

  lemma StationSums(sorted: seq<FuelRecord>)
    ensures var ss := StationStatsOf(sorted);
      && SumBy(ss, StationCount) == |sorted| as real
      && SumBy(ss, StationCost) == SumBy(sorted, CostOf)
      && SumBy(ss, StationAmount) == SumBy(sorted, AmountOf)
      && SumBy(ss, StationDistance) == Distance(sorted)
  {
    StationTotals(sorted);
    StationDistanceTotal(sorted);
    TotalIsSumBy(sorted, |sorted|);
    assert sorted[..|sorted|] == sorted;
  }

  /**
   * The efficiency extremes bracket the mean efficiency; with no distance driven all three
   * are 0, otherwise the worst is positive and the best is the efficiency of an adjacent pair
   * in date order.
   */
  lemma StatisticsEfficiencyExtremes(records: seq<FuelRecord>)
    requires records != []
    ensures var r, sorted := StatisticsOf(records), SortByDate(records);
      && r.worstFuelEfficiency <= r.averageFuelEfficiency <= r.bestFuelEfficiency
      && (r.totalDistance == 0.0 ==>
            r.bestFuelEfficiency == 0.0 && r.worstFuelEfficiency == 0.0 && r.averageFuelEfficiency == 0.0)
      && (r.totalDistance > 0.0 ==>
            && r.worstFuelEfficiency > 0.0
            && exists j :: 1 <= j < |sorted| && Efficiency(sorted[j], Some(sorted[j - 1])) == Some(r.bestFuelEfficiency))
  {
    var sorted := SortByDate(records);
    var efficiencies := EfficiencySeries(sorted);
    EfficiencySeriesEntries(sorted);
    DistanceNonNegative(sorted);
    if efficiencies != [] {
      MeanBounds(efficiencies);
    }
  }

  /** The price extremes bracket every record's unit price and are attained. */
  lemma StatisticsPriceExtremes(records: seq<FuelRecord>)
    requires records != []
    ensures var r := StatisticsOf(records);
      && (forall x :: x in records ==> r.cheapestPrice <= PricePerLiter(x) <= r.expensivePrice)
      && (exists x :: x in records && PricePerLiter(x) == r.cheapestPrice)
      && (exists x :: x in records && PricePerLiter(x) == r.expensivePrice)
  {
    var sorted := SortByDate(records);
    PricesBracket(sorted);
    assert forall x :: x in records <==> x in multiset(sorted);
  }

  /** The least and the greatest unit price bracket every record's and are some record's. */
  lemma PricesBracket(s: seq<FuelRecord>)
    requires s != []
    ensures forall x :: x in s ==> Min(Prices(s)) <= PricePerLiter(x) <= Max(Prices(s))
    ensures exists x :: x in s && PricePerLiter(x) == Min(Prices(s))
    ensures exists x :: x in s && PricePerLiter(x) == Max(Prices(s))
  {
    var ps := Prices(s);
    forall x | x in s ensures Min(ps) <= PricePerLiter(x) <= Max(ps) {
      var j :| 0 <= j < |s| && s[j] == x;
      assert ps[j] == PricePerLiter(x);
    }
    var lo :| 0 <= lo < |ps| && ps[lo] == Min(ps);
    var hi :| 0 <= hi < |ps| && ps[hi] == Max(ps);
    assert s[lo] in s && s[hi] in s;
  }

  /** The first and latest records are input records with the earliest and the latest date. */
  lemma StatisticsEnds(records: seq<FuelRecord>)
    requires records != []
    ensures var r := StatisticsOf(records);
      && r.firstRecord.Some? && r.latestRecord.Some?
      && r.firstRecord.value in records && r.latestRecord.value in records
      && forall x :: x in records ==> LexLe(r.firstRecord.value.date, x.date) && LexLe(x.date, r.latestRecord.value.date)
  {
    var sorted := SortByDate(records);
    var first, latest := sorted[0], sorted[|sorted| - 1];
    assert first in multiset(records) && latest in multiset(records);
    forall x | x in records ensures LexLe(first.date, x.date) && LexLe(x.date, latest.date) {
      assert x in multiset(sorted);
      var j :| 0 <= j < |sorted| && sorted[j] == x;
      LexLeTotal(x.date, x.date);
    }
  }
}
