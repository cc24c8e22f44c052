/**
 * The fuel record (one refuelling) and what every part of the tracker derives from a record
 * and its predecessor: month key, date order, unit price, distance and fuel efficiency.
 */
module Records {
  import opened Optional
  import opened Text
  import opened Sorting

  /** Litres dispensed. Stored records always carry a positive amount. */
  type Liters = a: real | a > 0.0 witness 1.0

  /** The store's row id (a string), or the `Date.now()` stamp of the in-memory revision. */
  datatype RecordId = Key(text: string) | Stamp(millis: int)

  datatype FuelRecord = FuelRecord(
    id: RecordId,
    date: string,      // YYYY-MM-DD
    amount: Liters,    // litres
    cost: real,        // yen
    mileage: real,     // odometer reading in km
    station: string)

  /** `date.substring(0, 7)`: the `YYYY-MM` grouping key. */
  function Month(date: string): string {
    Prefix(date, 7)
  }

  /** The comparator `(a, b) => a.date.localeCompare(b.date)`. */
  predicate DateLe(a: FuelRecord, b: FuelRecord) {
    LexLe(a.date, b.date)
  }

  lemma DateLeIsTotalPreorder()
    ensures TotalPreorder(DateLe)
  {
    forall a: FuelRecord, b: FuelRecord ensures DateLe(a, b) || DateLe(b, a) {
      LexLeTotal(a.date, b.date);
    }
    forall a: FuelRecord, b: FuelRecord, c: FuelRecord | DateLe(a, b) && DateLe(b, c)
      ensures DateLe(a, c)
    {
      LexLeTransitive(a.date, b.date, c.date);
    }
  }

  /** `[...records].sort((a, b) => a.date.localeCompare(b.date))`. */
  function SortByDate(rs: seq<FuelRecord>): (r: seq<FuelRecord>)
    ensures multiset(r) == multiset(rs)
    ensures forall i, j :: 0 <= i < j < |r| ==> LexLe(r[i].date, r[j].date)
  {
    DateLeIsTotalPreorder();
    SortSorted(rs, DateLe);
    SortBy(rs, DateLe)
  }

  /** Ascending order of a string key: the comparator `(a, b) => key(a).localeCompare(key(b))`. */
  function Ascending<T>(key: T -> string): (T, T) -> bool {
    (a: T, b: T) => LexLe(key(a), key(b))
  }

  /** Descending order of a string key: the comparator `(a, b) => key(b).localeCompare(key(a))`. */
  function Descending<T>(key: T -> string): (T, T) -> bool {
    (a: T, b: T) => LexLe(key(b), key(a))
  }

  lemma KeyOrdersAreTotalPreorders<T(!new)>(key: T -> string)
    ensures TotalPreorder(Ascending(key)) && TotalPreorder(Descending(key))
  {
    forall a: T, b: T ensures LexLe(key(a), key(b)) || LexLe(key(b), key(a)) {
      LexLeTotal(key(a), key(b));
    }
    forall a: T, b: T, c: T | LexLe(key(a), key(b)) && LexLe(key(b), key(c))
      ensures LexLe(key(a), key(c))
    {
      LexLeTransitive(key(a), key(b), key(c));
    }
    forall a: T, b: T, c: T | LexLe(key(b), key(a)) && LexLe(key(c), key(b))
      ensures LexLe(key(c), key(a))
    {
      LexLeTransitive(key(c), key(b), key(a));
    }
  }

  /** Months of date-ordered records come in order. */
  lemma MonthsAscending(s: seq<FuelRecord>, i: nat, j: nat)
    requires i <= j < |s|
    requires forall a, b :: 0 <= a < b < |s| ==> LexLe(s[a].date, s[b].date)
    ensures LexLe(Month(s[i].date), Month(s[j].date))
  {
    if i == j { LexLeTotal(s[i].date, s[j].date); }
    LexLePrefix(s[i].date, s[j].date, 7);
  }

  function CostOf(r: FuelRecord): real { r.cost }
  function AmountOf(r: FuelRecord): real { r.amount }

  /** `cost / amount`. */
  function PricePerLiter(r: FuelRecord): real {
    r.cost / r.amount
  }

  /** The record before position `j`, as `records[index - 1]` reads it (undefined at 0). */
  function Previous(s: seq<FuelRecord>, j: nat): (p: Option<FuelRecord>)
    requires j < |s|
  {
    if j > 0 then Some(s[j - 1]) else None
  }

  /**
   * calculateFuelEfficiency: no efficiency without a predecessor or without forward
   * progress of the odometer; otherwise distance per litre.
   */
  function Efficiency(current: FuelRecord, previous: Option<FuelRecord>): (e: Option<real>)
    ensures e.Some? <==> previous.Some? && current.mileage > previous.value.mileage
    ensures e.Some? ==> e.value > 0.0
    ensures e.Some? ==> e.value * current.amount == current.mileage - previous.value.mileage
  {
    if previous.None? then None
    else
      var distance := current.mileage - previous.value.mileage;
      if distance <= 0.0 then None else Some(distance / current.amount)
  }

  /** Positive odometer advance from `s[j - 1]` to `s[j]`; 0 at the first record. */
  function Leg(s: seq<FuelRecord>, j: nat): (d: real)
    requires j < |s|
    ensures d >= 0.0
  {
    if j > 0 && s[j].mileage - s[j - 1].mileage > 0.0 then s[j].mileage - s[j - 1].mileage else 0.0
  }

  /** A leg is positive exactly when the record has an efficiency. */
  lemma LegHasEfficiency(s: seq<FuelRecord>, j: nat)
    requires j < |s|
    ensures Leg(s, j) > 0.0 <==> Efficiency(s[j], Previous(s, j)).Some?
  {
  }

  /**
   * The series `fuelEfficiencies` of calculateStatistics (and `efficiencies` of the
   * dashboard's calculateAvgEfficiency): one entry per adjacent pair with positive distance.
   */
  function EfficiencySeries(s: seq<FuelRecord>): seq<real> {
    if |s| < 2 then []
    else
      var init := EfficiencySeries(s[..|s| - 1]);
      match Efficiency(s[|s| - 1], Some(s[|s| - 2]))
      case Some(e) => init + [e]
      case None => init
  }

  /** Sum of the positive legs: the distance driven over `s`. */
  function Distance(s: seq<FuelRecord>): real {
    if s == [] then 0.0 else Distance(s[..|s| - 1]) + Leg(s, |s| - 1)
  }

  /**
   * Every entry of the series is the efficiency of some adjacent pair, hence positive,
   * and the series has one entry per pair with positive distance.
   */
  lemma {:induction false} EfficiencySeriesEntries(s: seq<FuelRecord>)
    ensures |EfficiencySeries(s)| <= if s == [] then 0 else |s| - 1
    ensures forall x :: x in EfficiencySeries(s) ==> x > 0.0
    ensures forall x :: x in EfficiencySeries(s) ==>
      exists j :: 1 <= j < |s| && Efficiency(s[j], Some(s[j - 1])) == Some(x)
    ensures EfficiencySeries(s) == [] <==> Distance(s) == 0.0
  {
    if |s| >= 2 {
      var init := s[..|s| - 1];
      EfficiencySeriesEntries(init);
      DistanceNonNegative(init);
      forall x | x in EfficiencySeries(s)
        ensures exists j :: 1 <= j < |s| && Efficiency(s[j], Some(s[j - 1])) == Some(x)
      {
        if x in EfficiencySeries(init) {
          var j :| 1 <= j < |init| && Efficiency(init[j], Some(init[j - 1])) == Some(x);
          assert s[j] == init[j] && s[j - 1] == init[j - 1];
        } else {
          assert Efficiency(s[|s| - 1], Some(s[|s| - 2])) == Some(x);
        }
      }
      LegHasEfficiency(s, |s| - 1);
    } else if |s| == 1 {
      assert Distance(s) == Distance([]) + Leg(s, 0);
    }
  }

  lemma {:induction false} DistanceNonNegative(s: seq<FuelRecord>)
    ensures Distance(s) >= 0.0
  {
    if s != [] { DistanceNonNegative(s[..|s| - 1]); }
  }

  /**
   * One more record extends the series by its efficiency and the distance by its leg, when
   * the odometer advanced since the record before.
   */
  lemma PrefixStep(s: seq<FuelRecord>, i: nat)
    requires 1 <= i < |s|
    ensures var distance := s[i].mileage - s[i - 1].mileage;
      && EfficiencySeries(s[..i + 1]) == EfficiencySeries(s[..i]) + (if distance > 0.0 then [distance / s[i].amount] else [])
      && Distance(s[..i + 1]) == Distance(s[..i]) + (if distance > 0.0 then distance else 0.0)
  {
    var p := s[..i + 1];
    assert p[..|p| - 1] == s[..i];
    assert p[|p| - 1] == s[i] && p[|p| - 2] == s[i - 1];
  }

  /** A single record has no efficiency and no distance. */
  lemma SingleRecord(s: seq<FuelRecord>)
    requires |s| >= 1
    ensures EfficiencySeries(s[..1]) == [] && Distance(s[..1]) == 0.0
  {
    assert s[..1][..0] == [];
  }
}
