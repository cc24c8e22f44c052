/**
 * The dashboard's derived figures (src/components/Dashboard.tsx): the recent trend between the
 * last five fill-ups and the five before them, the alerts, the improvement tips and the
 * cost and overall grades. The statistics snapshot, the efficiency goal and the monthly
 * budget are the component's inputs.
 */
module Dashboard {
  import opened Optional
  import opened Reals
  import opened Records
  import opened Statistics

  // ---------------------------------------------------------------------------------------------
  // The recent trend

  datatype RecentTrend = RecentTrend(
    efficiencyImprovement: real,
    priceChange: real,
    isEfficiencyImproving: bool,
    isPriceIncreasing: bool)

  /** Where `slice(-k)` starts in an array of length `len`: `len - k`, clamped at 0. */
  function Back(len: nat, k: nat): nat {
    if len >= k then len - k else 0
  }

  /** `sortedRecords.slice(-5)`. */
  function Recent(sorted: seq<FuelRecord>): seq<FuelRecord> {
    sorted[Back(|sorted|, 5)..]
  }

  /** `sortedRecords.slice(-10, -5)`. */
  function Older(sorted: seq<FuelRecord>): seq<FuelRecord> {
    sorted[Back(|sorted|, 10)..Back(|sorted|, 5)]
  }

  /** calculateAvgEfficiency: the mean efficiency of the window's adjacent pairs that advanced, 0 if none. */
  function AvgEfficiency(w: seq<FuelRecord>): real {
    Mean(EfficiencySeries(w))
  }

  /** The mean unit price of a window. */
  function AvgPrice(w: seq<FuelRecord>): real
    requires w != []
  {
    SumBy(w, PricePerLiter) / |w| as real
  }

  /** getRecentTrend: none without two fill-ups in each window, else the differences recent − older. */
  function RecentTrendOf(records: seq<FuelRecord>): (t: Option<RecentTrend>)
    ensures t.Some? <==> |records| >= 7
  {
    if |records| < 2 then None
    else
      var sorted := SortByDate(records);
      var recent, older := Recent(sorted), Older(sorted);
      if |recent| < 2 || |older| < 2 then None
      else
        var recentEfficiency, olderEfficiency := AvgEfficiency(recent), AvgEfficiency(older);
        var recentPrice, olderPrice := AvgPrice(recent), AvgPrice(older);
        Some(RecentTrend(recentEfficiency - olderEfficiency, recentPrice - olderPrice,
                         recentEfficiency > olderEfficiency, recentPrice > olderPrice))
  }

  /**
   * The windows: the last five fill-ups by date (all of them when there are fewer) and the up
   * to five before those, which together are the last ten in date order.
   */
  lemma Windows(records: seq<FuelRecord>)
    ensures var sorted := SortByDate(records);
      && |Recent(sorted)| == (if |records| >= 5 then 5 else |records|)
      && |Older(sorted)| == (if |records| >= 10 then 5 else if |records| >= 5 then |records| - 5 else 0)
      && Older(sorted) + Recent(sorted) == sorted[Back(|records|, 10)..]
  {
    var sorted := SortByDate(records);
    assert |sorted| == |multiset(sorted)| == |records|;
  }

  /**
   * The trend compares the windows' mean efficiencies and mean unit prices, and each flag says
   * exactly whether its difference is positive (strictly: equal means neither).
   */
  lemma TrendFlags(records: seq<FuelRecord>)
    requires |records| >= 7
    ensures var t := RecentTrendOf(records).value;
      var sorted := SortByDate(records);
      && Recent(sorted) != [] && Older(sorted) != []
      && AvgEfficiency(Older(sorted)) + t.efficiencyImprovement == AvgEfficiency(Recent(sorted))
      && AvgPrice(Older(sorted)) + t.priceChange == AvgPrice(Recent(sorted))
      && (t.isEfficiencyImproving <==> t.efficiencyImprovement > 0.0)
      && (t.isPriceIncreasing <==> t.priceChange > 0.0)
  {
    Windows(records);
  }

  /**
   * A window's average efficiency is never negative, and it is positive exactly when the
   * odometer advanced somewhere within the window.
   */
  lemma AvgEfficiencySign(w: seq<FuelRecord>)
    ensures AvgEfficiency(w) >= 0.0
    ensures AvgEfficiency(w) > 0.0 <==> Distance(w) > 0.0
  {
    var xs := EfficiencySeries(w);
    EfficiencySeriesEntries(w);
    DistanceNonNegative(w);
    if xs != [] {
      MeanBounds(xs);
      assert Min(xs) > 0.0;
    }
  }

  /** calculateAvgEfficiency's loop over the window's adjacent pairs. */
  method CalculateAvgEfficiency(recordList: seq<FuelRecord>) returns (avg: real)
    ensures avg == AvgEfficiency(recordList)
  {
    var efficiencies: seq<real> := [];
    if recordList != [] {
      SingleRecord(recordList);
    }
    var i := 1;
    while i < |recordList|
      invariant 1 <= i && (recordList == [] || i <= |recordList|)
      invariant recordList != [] ==> efficiencies == EfficiencySeries(recordList[..i])
      invariant recordList == [] ==> efficiencies == []
    {
      var distance := recordList[i].mileage - recordList[i - 1].mileage;
      if distance > 0.0 {
        efficiencies := efficiencies + [distance / recordList[i].amount];
      }
      PrefixStep(recordList, i);
      i := i + 1;
    }
    if recordList != [] {
      assert recordList[..i] == recordList;
    }
    avg := if |efficiencies| > 0 then Sum(efficiencies) / |efficiencies| as real else 0.0;
  }

  /** getRecentTrend as the component computes it. */
  method GetRecentTrend(records: seq<FuelRecord>) returns (trend: Option<RecentTrend>)
    ensures trend == RecentTrendOf(records)
  {
    if |records| < 2 {
      return None;
    }
    var sortedRecords := SortByDate(records);
    var recent := Recent(sortedRecords);
    var older := Older(sortedRecords);
    if |recent| < 2 || |older| < 2 {
      return None;
    }
    var recentAvgEfficiency := CalculateAvgEfficiency(recent);
    var olderAvgEfficiency := CalculateAvgEfficiency(older);
    var recentAvgPrice := SumBy(recent, PricePerLiter) / |recent| as real;
    var olderAvgPrice := SumBy(older, PricePerLiter) / |older| as real;
    trend := Some(RecentTrend(recentAvgEfficiency - olderAvgEfficiency, recentAvgPrice - olderAvgPrice,
                              recentAvgEfficiency > olderAvgEfficiency, recentAvgPrice > olderAvgPrice));
  }

  // ---------------------------------------------------------------------------------------------
  // Alerts and the overall grade

  /** An alert: efficiency short of the goal by `shortfall`, cost over budget by `excess`, or a worsening trend. */
  datatype Alert = BelowGoal(shortfall: real) | OverBudget(excess: real) | Worsening

  /** The order in which the alerts are pushed. */
  function Rank(a: Alert): nat {
    match a
    case BelowGoal(_) => 0
    case OverBudget(_) => 1
    case Worsening => 2
  }

  function Alerts(stats: StatisticsData, goal: real, budget: real, trend: Option<RecentTrend>): seq<Alert> {
    (if stats.averageFuelEfficiency < goal then [BelowGoal(goal - stats.averageFuelEfficiency)] else [])
    + (if stats.averageCostPerMonth > budget then [OverBudget(stats.averageCostPerMonth - budget)] else [])
    + (if trend.Some? && !trend.value.isEfficiencyImproving then [Worsening] else [])
  }

  /** The alerts pushed in turn onto `alerts`. */
  method BuildAlerts(stats: StatisticsData, goal: real, budget: real, trend: Option<RecentTrend>)
    returns (alerts: seq<Alert>)
    ensures alerts == Alerts(stats, goal, budget, trend)
  {
    alerts := [];
    if stats.averageFuelEfficiency < goal {
      alerts := alerts + [BelowGoal(goal - stats.averageFuelEfficiency)];
    }
    if stats.averageCostPerMonth > budget {
      alerts := alerts + [OverBudget(stats.averageCostPerMonth - budget)];
    }
    if trend.Some? && !trend.value.isEfficiencyImproving {
      alerts := alerts + [Worsening];
    }
  }

  /**
   * Each alert is raised exactly under its condition, carries the positive gap it reports, and
   * they come in a fixed order, so there are at most three.
   */
  lemma AlertsMeaning(stats: StatisticsData, goal: real, budget: real, trend: Option<RecentTrend>)
    ensures var alerts := Alerts(stats, goal, budget, trend);
      && (exists a :: a in alerts && a.BelowGoal?) == (stats.averageFuelEfficiency < goal)
      && (exists a :: a in alerts && a.OverBudget?) == (stats.averageCostPerMonth > budget)
      && (Worsening in alerts <==> trend.Some? && !trend.value.isEfficiencyImproving)
      && (forall a :: a in alerts && a.BelowGoal? ==> a.shortfall > 0.0 && a.shortfall == goal - stats.averageFuelEfficiency)
      && (forall a :: a in alerts && a.OverBudget? ==> a.excess > 0.0 && a.excess == stats.averageCostPerMonth - budget)
      && (forall i, j :: 0 <= i < j < |alerts| ==> Rank(alerts[i]) < Rank(alerts[j]))
      && |alerts| <= 3
  {
    var below := stats.averageFuelEfficiency < goal;
    if below {
      assert BelowGoal(goal - stats.averageFuelEfficiency) in Alerts(stats, goal, budget, trend);
    }
    if stats.averageCostPerMonth > budget {
      assert OverBudget(stats.averageCostPerMonth - budget) in Alerts(stats, goal, budget, trend);
    }
  }

  datatype Grade = A | B | C

  /** The overall grade: A with no alert, B with one or two, C otherwise. */
  function OverallGrade(alertCount: nat): Grade {
    if alertCount == 0 then A else if alertCount <= 2 then B else C
  }

  /** The label under the overall grade. */
  function OverallLabel(alertCount: nat): string {
    if alertCount == 0 then "良好" else if alertCount <= 2 then "注意" else "要改善"
  }

  /**
   * The overall grade in terms of the figures: A exactly when efficiency meets the goal, the
   * cost stays within budget and the trend is not worsening; C exactly when all three fail.
   */
  lemma OverallGradeMeaning(stats: StatisticsData, goal: real, budget: real, trend: Option<RecentTrend>)
    ensures var n := |Alerts(stats, goal, budget, trend)|;
      var below, over := stats.averageFuelEfficiency < goal, stats.averageCostPerMonth > budget;
      var worsening := trend.Some? && !trend.value.isEfficiencyImproving;
      && (OverallGrade(n) == A <==> !below && !over && !worsening)
      && (OverallGrade(n) == C <==> below && over && worsening)
      && (OverallGrade(n) == B <==> (below || over || worsening) && !(below && over && worsening))
      && OverallLabel(n) == (match OverallGrade(n) case A => "良好" case B => "注意" case C => "要改善")
  {
  }

  // ---------------------------------------------------------------------------------------------
  // Recommendations

  datatype Tip = EcoDriving | TyrePressure | Maintenance | CheaperStation | LoyaltyDiscount

  /** The text of each tip. */
  function TipText(t: Tip): string {
    match t
    case EcoDriving => "エコドライブを心がけましょう（急発進・急ブレーキを避ける）"
    case TyrePressure => "タイヤの空気圧をチェックしましょう"
    case Maintenance => "定期的なメンテナンスを実施しましょう"
    case CheaperStation => "価格差の大きいスタンドがあります。安いスタンドを活用しましょう"
    case LoyaltyDiscount => "利用頻度の高いスタンドでの割引サービスを確認しましょう"
  }

  function Recommendations(stats: StatisticsData, goal: real): seq<Tip> {
    (if stats.averageFuelEfficiency < goal then [EcoDriving, TyrePressure, Maintenance] else [])
    + (if stats.expensivePrice - stats.cheapestPrice > 20.0 then [CheaperStation] else [])
    + (if |stats.stationStats| > 3 then [LoyaltyDiscount] else [])
  }

  /** The tips pushed in turn onto `recommendations`. */
  method BuildRecommendations(stats: StatisticsData, goal: real) returns (recommendations: seq<Tip>)
    ensures recommendations == Recommendations(stats, goal)
  {
    recommendations := [];
    if stats.averageFuelEfficiency < goal {
      recommendations := recommendations + [EcoDriving];
      recommendations := recommendations + [TyrePressure];
      recommendations := recommendations + [Maintenance];
    }
    if stats.expensivePrice - stats.cheapestPrice > 20.0 {
      recommendations := recommendations + [CheaperStation];
    }
    if |stats.stationStats| > 3 {
      recommendations := recommendations + [LoyaltyDiscount];
    }
  }

  /**
   * The three driving tips come together exactly when efficiency is below the goal, the
   * cheaper-station tip exactly when the unit prices spread by more than 20 yen, the discount
   * tip exactly when more than three stations were used.
   */
  lemma RecommendationsMeaning(stats: StatisticsData, goal: real)
    ensures var r := Recommendations(stats, goal);
      && (EcoDriving in r <==> stats.averageFuelEfficiency < goal)
      && (TyrePressure in r <==> stats.averageFuelEfficiency < goal)
      && (Maintenance in r <==> stats.averageFuelEfficiency < goal)
      && (CheaperStation in r <==> stats.expensivePrice - stats.cheapestPrice > 20.0)
      && (LoyaltyDiscount in r <==> |stats.stationStats| > 3)
  {
  }

  /** No tip is given twice, so there are as many tips as conditions allow: at most five. */
  lemma RecommendationsCount(stats: StatisticsData, goal: real)
    ensures var r := Recommendations(stats, goal);
      && |r| == (if stats.averageFuelEfficiency < goal then 3 else 0)
               + (if stats.expensivePrice - stats.cheapestPrice > 20.0 then 1 else 0)
               + (if |stats.stationStats| > 3 then 1 else 0)
      && (forall i, j :: 0 <= i < j < |r| ==> r[i] != r[j])
  {
    var r := Recommendations(stats, goal);
    forall i, j | 0 <= i < j < |r| ensures r[i] != r[j] {
      assert TipRank(r[i]) < TipRank(r[j]);
    }
  }

  /** The order in which the tips are pushed. */
  function TipRank(t: Tip): nat {
    match t
    case EcoDriving => 0
    case TyrePressure => 1
    case Maintenance => 2
    case CheaperStation => 3
    case LoyaltyDiscount => 4
  }

  /**
   * Over a snapshot of the records, the cheaper-station tip appears exactly when two fill-ups'
   * unit prices differ by more than 20 yen.
   */
  lemma CheaperTipFromRecords(records: seq<FuelRecord>, goal: real)
    ensures CheaperStation in Recommendations(StatisticsOf(records), goal) <==>
      exists x, y :: x in records && y in records && PricePerLiter(x) - PricePerLiter(y) > 20.0
  {
    var r := StatisticsOf(records);
    assert CheaperStation in Recommendations(r, goal) <==> r.expensivePrice - r.cheapestPrice > 20.0 by {
      RecommendationsMeaning(r, goal);
    }
    if records == [] {
      assert r.expensivePrice == r.cheapestPrice == 0.0;
      return;
    }
    StatisticsPriceExtremes(records);
    var lo :| lo in records && PricePerLiter(lo) == r.cheapestPrice;
    var hi :| hi in records && PricePerLiter(hi) == r.expensivePrice;
    if r.expensivePrice - r.cheapestPrice > 20.0 {
      assert PricePerLiter(hi) - PricePerLiter(lo) > 20.0;
    }
  }

  // ---------------------------------------------------------------------------------------------
  // The cost grade

  /**
   * The cost grade from `budgetAchievement = monthlyBudget / averageCostPerMonth`. A zero
   * average cost (no records) divides by zero: a positive budget gives +Infinity (A), a zero
   * budget NaN and a negative one −Infinity, both failing every comparison (C).
   */
  function CostGrade(budget: real, averageCost: real): Grade {
    if averageCost == 0.0 then (if budget > 0.0 then A else C)
    else
      var achievement := budget / averageCost;
      if achievement >= 1.0 then A else if achievement >= 0.8 then B else C
  }

  /**
   * For a positive monthly cost: A when the budget covers it, B when the budget covers at
   * least 80% of it, C below that.
   */
  lemma CostGradeMeaning(budget: real, averageCost: real)
    requires averageCost > 0.0
    ensures CostGrade(budget, averageCost) == A <==> budget >= averageCost
    ensures CostGrade(budget, averageCost) == B <==> 0.8 * averageCost <= budget < averageCost
    ensures CostGrade(budget, averageCost) == C <==> budget < 0.8 * averageCost
  {
    QuotientCompare(budget, averageCost, 1.0);
    QuotientCompare(budget, averageCost, 0.8);
  }

  /** The grade never gets worse as the budget grows. */
  lemma CostGradeMonotone(b1: real, b2: real, averageCost: real)
    requires averageCost >= 0.0 && b1 <= b2
    ensures CostGrade(b1, averageCost) == A ==> CostGrade(b2, averageCost) == A
    ensures CostGrade(b1, averageCost) == B ==> CostGrade(b2, averageCost) != C
  {
    if averageCost > 0.0 {
      CostGradeMeaning(b1, averageCost);
      CostGradeMeaning(b2, averageCost);
    }
  }
}
