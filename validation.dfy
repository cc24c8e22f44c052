/**
 * The two validators. validateFuelRecord checks the entry form field by field and against the
 * records already stored; validateImportData checks imported rows one by one. Both push error
 * messages onto one list and report validity as "the list is empty"; the import validator
 * shows at most the first 20 messages.
 */
module Validation {
  import opened Optional
  import opened Text
  import opened Records
  import opened Json
  import opened Reals

  datatype ValidationResult<E> = ValidationResult(isValid: bool, errors: seq<E>)

  // ---------------------------------------------------------------------------------------------
  // The entry form

  /** The five text inputs of the entry form. */
  datatype FormData = FormData(date: string, amount: string, cost: string, mileage: string, station: string)

  /** The number and date parsers and the clock, which the source takes from the runtime. */
  datatype Environment = Environment(
    parseFloat: string -> Option<real>,   // None is NaN
    parseInt: string -> Option<int>,      // base 10; None is NaN
    time: string -> Option<real>,         // `new Date(s)` in days; None is an invalid date
    todayEnd: real,                       // 23:59:59.999 today
    oneYearAgo: real)                     // the current instant, one year back

  /** One message of validateFuelRecord, in the order the checks push them. */
  datatype FormError =
    | DateRequired | FutureDate | OldDate
    | AmountRequired | AmountNotPositive | AmountOver200 | AmountUnder1
    | CostRequired | CostNotPositive | CostOver50000 | CostUnder100
    | PriceHigh | PriceLow
    | MileageRequired | MileageNegative | MileageOverMillion
    | MileageDecreased(latest: real) | DailyDistance(perDay: real)
    | StationRequired | StationTooLong

  /** Math.ceil. */
  function Ceil(x: real): (c: int)
    ensures c as real - 1.0 < x <= c as real
  {
    -((-x).Floor)
  }

  /** The record with the latest date, as `sortedRecords[sortedRecords.length - 1]` finds it. */
  function Latest(existing: seq<FuelRecord>): (r: FuelRecord)
    requires existing != []
    ensures r in existing
  {
    var sorted := SortByDate(existing);
    assert sorted[|sorted| - 1] in multiset(existing);
    sorted[|sorted| - 1]
  }

  /** No stored record is dated after the latest one. */
  lemma LatestIsLast(existing: seq<FuelRecord>)
    requires existing != []
    ensures forall x :: x in existing ==> LexLe(x.date, Latest(existing).date)
  {
    var sorted := SortByDate(existing);
    forall x | x in existing ensures LexLe(x.date, sorted[|sorted| - 1].date) {
      assert x in multiset(sorted);
      var i :| 0 <= i < |sorted| && sorted[i] == x;
      if i == |sorted| - 1 { LexLeTotal(x.date, x.date); }
    }
  }

  /** The date checks: required; not after today; not more than a year back. */
  function DateErrors(date: string, env: Environment): (r: seq<FormError>)
    ensures r == [] <==> date != "" && (env.time(date).Some? ==> env.oneYearAgo <= env.time(date).value <= env.todayEnd)
    ensures date != "" && env.time(date).Some? && env.time(date).value < env.oneYearAgo ==> OldDate in r
    ensures date != "" && env.time(date).Some? && env.time(date).value > env.todayEnd ==> FutureDate in r
  {
    if date == "" then [DateRequired]
    else match env.time(date)
      case None => []
      case Some(t) =>
        (if t > env.todayEnd then [FutureDate] else []) + (if t < env.oneYearAgo then [OldDate] else [])
  }

  /** The amount is given and reads as a number in [1, 200]. */
  predicate AmountAccepted(amount: string, env: Environment) {
    amount != "" && env.parseFloat(amount).Some? && 1.0 <= env.parseFloat(amount).value <= 200.0
  }

  /** The amount checks: at most one message. */
  function AmountErrors(amount: string, env: Environment): (r: seq<FormError>)
    ensures |r| <= 1
    ensures r == [] <==> AmountAccepted(amount, env)
  {
    if amount == "" then [AmountRequired]
    else match env.parseFloat(amount)
      case None => [AmountNotPositive]
      case Some(a) =>
        if a <= 0.0 then [AmountNotPositive]
        else if a > 200.0 then [AmountOver200]
        else if a < 1.0 then [AmountUnder1]
        else []
  }

  /** The cost is given and reads as an integer in [100, 50000]. */
  predicate CostAccepted(cost: string, env: Environment) {
    cost != "" && env.parseInt(cost).Some? && 100 <= env.parseInt(cost).value <= 50000
  }

  /** The range checks on a given cost: at most one message. */
  function CostRangeErrors(cost: Option<int>): (r: seq<FormError>)
    ensures |r| <= 1
    ensures r == [] <==> cost.Some? && 100 <= cost.value <= 50000
  {
    match cost
    case None => [CostNotPositive]
    case Some(c) =>
      if c <= 0 then [CostNotPositive]
      else if c > 50000 then [CostOver50000]
      else if c < 100 then [CostUnder100]
      else []
  }

  /**
   * The unit-price check `cost / amount` against [80, 300]. A NaN cost compares false both
   * ways; a zero amount makes the quotient an infinity of the cost's sign (or NaN for 0 / 0).
   */
  function PriceErrors(cost: Option<int>, amount: real): (r: seq<FormError>)
    ensures |r| <= 1
    ensures amount > 0.0 && cost.Some? ==>
      (r == [PriceHigh] <==> cost.value as real > 300.0 * amount)
      && (r == [PriceLow] <==> cost.value as real < 80.0 * amount)
      && (r == [] <==> 80.0 * amount <= cost.value as real <= 300.0 * amount)
  {
    match cost
    case None => []
    case Some(c) =>
      if amount == 0.0 then
        if c > 0 then [PriceHigh] else if c < 0 then [PriceLow] else []
      else
        var price := c as real / amount;
        var r := if price > 300.0 then [PriceHigh] else if price < 80.0 then [PriceLow] else [];
        if amount > 0.0 then
          QuotientCompare(c as real, amount, 300.0);
          QuotientCompare(c as real, amount, 80.0);
          r
        else r
  }

  /** The cost block: required; its range; then the unit price when the amount reads as a number. */
  function CostErrors(form: FormData, env: Environment): (r: seq<FormError>)
  {
    if form.cost == "" then [CostRequired]
    else
      var cost := env.parseInt(form.cost);
      CostRangeErrors(cost)
      + if form.amount != "" && env.parseFloat(form.amount).Some?
        then PriceErrors(cost, env.parseFloat(form.amount).value)
        else []
  }

  /**
   * The consistency checks against the latest stored record: a mileage below it on a date not
   * before it, and more than 1000 km a day since it on a later date.
   */
  function ConsistencyErrors(form: FormData, existing: seq<FuelRecord>, env: Environment, mileage: Option<real>)
    : (r: seq<FormError>)
  {
    if existing == [] || form.date == "" then []
    else
      var latest := Latest(existing);
      var newDate, latestDate := env.time(form.date), env.time(latest.date);
      if newDate.None? || latestDate.None? then []
      else AgainstLatest(newDate.value, latestDate.value, latest, mileage)
  }

  /** The two comparisons with the latest record, whose date is `latestDate`, of a form dated `newDate`. */
  function AgainstLatest(newDate: real, latestDate: real, latest: FuelRecord, mileage: Option<real>): seq<FormError> {
    (if newDate >= latestDate && mileage.Some? && mileage.value < latest.mileage
     then [MileageDecreased(latest.mileage)] else [])
    + (if newDate > latestDate then DailyDistanceErrors(newDate - latestDate, latest, mileage) else [])
  }

  function DailyDistanceErrors(elapsed: real, latest: FuelRecord, mileage: Option<real>): (r: seq<FormError>)
    requires elapsed > 0.0
    ensures r != [] <==> mileage.Some? && mileage.value - latest.mileage > 1000.0 * Ceil(elapsed) as real
    ensures |r| <= 1 && (r != [] ==> r[0].DailyDistance?)
  {
    var days := Ceil(elapsed);
    if days > 0 && mileage.Some? then
      var distance := mileage.value - latest.mileage;
      QuotientCompare(distance, days as real, 1000.0);
      if distance / days as real > 1000.0 then [DailyDistance(distance / days as real)] else []
    else []
  }

  /** The mileage block: required; non-negative and at most a million; then the consistency checks. */
  function MileageErrors(form: FormData, existing: seq<FuelRecord>, env: Environment): (r: seq<FormError>)
  {
    if form.mileage == "" then [MileageRequired]
    else
      var mileage := env.parseFloat(form.mileage);
      (match mileage
       case None => [MileageNegative]
       case Some(m) => if m < 0.0 then [MileageNegative] else if m > 1000000.0 then [MileageOverMillion] else [])
      + ConsistencyErrors(form, existing, env, mileage)
  }

  /** The station checks on the trimmed name: required, at most 50 UTF-16 code units. */
  function StationErrors(station: string): (r: seq<FormError>)
    ensures |r| <= 1
    ensures r == [] <==> 0 < Length(Trim(station)) <= 50
  {
    var name := Trim(station);
    if name == "" then [StationRequired] else if Length(name) > 50 then [StationTooLong] else []
  }

  /**
   * The limit counts code units: a name of characters beyond U+FFFF (emoji, say) may have at
   * most 25 of them, a name within U+FFFF at most 50.
   */
  lemma StationLimitInUnits(station: string)
    requires Trim(station) != ""
    ensures (forall i :: 0 <= i < |Trim(station)| ==> Trim(station)[i] as int >= 0x10000) ==>
      (StationErrors(station) == [] <==> |Trim(station)| <= 25)
    ensures (forall i :: 0 <= i < |Trim(station)| ==> Trim(station)[i] as int < 0x10000) ==>
      (StationErrors(station) == [] <==> |Trim(station)| <= 50)
  {
  }

  /** Every message of validateFuelRecord, in push order. */
  function FormErrors(form: FormData, existing: seq<FuelRecord>, env: Environment): seq<FormError> {
    DateErrors(form.date, env)
    + AmountErrors(form.amount, env)
    + CostErrors(form, env)
    + MileageErrors(form, existing, env)
    + StationErrors(form.station)
  }

  /** validateFuelRecord: the five blocks of checks in source order, all pushing onto one list. */
  method ValidateFuelRecord(form: FormData, existing: seq<FuelRecord>, env: Environment)
    returns (result: ValidationResult<FormError>)
    ensures result.errors == FormErrors(form, existing, env)
    ensures result.isValid <==> result.errors == []
  {
    var errors: seq<FormError> := [];
    errors := CheckDate(errors, form.date, env);
    assert errors == DateErrors(form.date, env);
    errors := CheckAmount(errors, form.amount, env);
    errors := CheckCost(errors, form, env);
    errors := CheckMileage(errors, form, existing, env);
    errors := CheckStation(errors, form.station);
    result := ValidationResult(|errors| == 0, errors);
  }

  method CheckDate(errors: seq<FormError>, date: string, env: Environment) returns (errors': seq<FormError>)
    ensures errors' == errors + DateErrors(date, env)
  {
    errors' := errors;
    if date == "" {
      errors' := errors' + [DateRequired];
    } else {
      var selected := env.time(date);
      if selected.Some? && selected.value > env.todayEnd {
        errors' := errors' + [FutureDate];
      }
      if selected.Some? && selected.value < env.oneYearAgo {
        errors' := errors' + [OldDate];
      }
    }
  }

  method CheckAmount(errors: seq<FormError>, amount: string, env: Environment) returns (errors': seq<FormError>)
    ensures errors' == errors + AmountErrors(amount, env)
  {
    errors' := errors;
    if amount == "" {
      errors' := errors' + [AmountRequired];
    } else {
      var a := env.parseFloat(amount);
      if a.None? || a.value <= 0.0 {
        errors' := errors' + [AmountNotPositive];
      } else if a.value > 200.0 {
        errors' := errors' + [AmountOver200];
      } else if a.value < 1.0 {
        errors' := errors' + [AmountUnder1];
      }
    }
  }

  method CheckCost(errors: seq<FormError>, form: FormData, env: Environment) returns (errors': seq<FormError>)
    ensures errors' == errors + CostErrors(form, env)
  {
    errors' := errors;
    if form.cost == "" {
      errors' := errors' + [CostRequired];
    } else {
      var cost := env.parseInt(form.cost);
      if cost.None? || cost.value <= 0 {
        errors' := errors' + [CostNotPositive];
      } else if cost.value > 50000 {
        errors' := errors' + [CostOver50000];
      } else if cost.value < 100 {
        errors' := errors' + [CostUnder100];
      }
      assert errors' == errors + CostRangeErrors(cost);
      if form.amount != "" && env.parseFloat(form.amount).Some? {
        errors' := errors' + PriceErrors(cost, env.parseFloat(form.amount).value);
      }
    }
  }

  method CheckMileage(errors: seq<FormError>, form: FormData, existing: seq<FuelRecord>, env: Environment)
    returns (errors': seq<FormError>)
    ensures errors' == errors + MileageErrors(form, existing, env)
  {
    errors' := errors;
    if form.mileage == "" {
      errors' := errors' + [MileageRequired];
    } else {
      var mileage := env.parseFloat(form.mileage);
      if mileage.None? || mileage.value < 0.0 {
        errors' := errors' + [MileageNegative];
      } else if mileage.value > 1000000.0 {
        errors' := errors' + [MileageOverMillion];
      }
      errors' := CheckConsistency(errors', form, existing, env, mileage);
    }
  }

  /** The checks of the mileage block against the latest stored record. */
  method CheckConsistency(errors: seq<FormError>, form: FormData, existing: seq<FuelRecord>, env: Environment,
                          mileage: Option<real>) returns (errors': seq<FormError>)
    ensures errors' == errors + ConsistencyErrors(form, existing, env, mileage)
  {
    errors' := errors;
    if |existing| > 0 {
      var latest := Latest(existing);
      if form.date != "" {
        var newDate, latestDate := env.time(form.date), env.time(latest.date);
        if newDate.Some? && latestDate.Some? {
          errors' := CompareWithLatest(errors', newDate.value, latestDate.value, latest, mileage);
        }
      }
    }
  }

  /** The pushes of the two comparisons with the latest record. */
  method CompareWithLatest(errors: seq<FormError>, newDate: real, latestDate: real, latest: FuelRecord,
                           mileage: Option<real>) returns (errors': seq<FormError>)
    ensures errors' == errors + AgainstLatest(newDate, latestDate, latest, mileage)
  {
    errors' := errors;
    ghost var decreased: seq<FormError> := [];
    if newDate >= latestDate && mileage.Some? && mileage.value < latest.mileage {
      errors' := errors' + [MileageDecreased(latest.mileage)];
      decreased := [MileageDecreased(latest.mileage)];
    }
    ghost var daily: seq<FormError> := [];
    if newDate > latestDate {
      errors' := errors' + DailyDistanceErrors(newDate - latestDate, latest, mileage);
      daily := DailyDistanceErrors(newDate - latestDate, latest, mileage);
    }
    assert errors' == errors + decreased + daily;
  }

  method CheckStation(errors: seq<FormError>, station: string) returns (errors': seq<FormError>)
    ensures errors' == errors + StationErrors(station)
  {
    errors' := errors;
    var name := Trim(station);
    if name == "" {
      errors' := errors' + [StationRequired];
    } else if Length(name) > 50 {
      errors' := errors' + [StationTooLong];
    }
  }

  /**
   * The form passes exactly when the date, the amount, the cost, the unit price, the mileage,
   * the consistency with the latest record and the station all pass.
   */
  lemma FormAccepted(form: FormData, existing: seq<FuelRecord>, env: Environment)
    ensures FormErrors(form, existing, env) == [] <==>
      && DateErrors(form.date, env) == []
      && AmountAccepted(form.amount, env)
      && CostAccepted(form.cost, env)
      && PriceErrors(env.parseInt(form.cost), env.parseFloat(form.amount).value) == []
      && MileageErrors(form, existing, env) == []
      && 0 < Length(Trim(form.station)) <= 50
  {
    if AmountAccepted(form.amount, env) && form.cost != "" {
      var cost := env.parseInt(form.cost);
      assert CostErrors(form, env) == CostRangeErrors(cost) + PriceErrors(cost, env.parseFloat(form.amount).value);
    }
  }

  /** A unit price outside [80, 300] is rejected even when amount and cost pass on their own. */
  lemma PriceOutOfBandRejected(form: FormData, existing: seq<FuelRecord>, env: Environment)
    requires AmountAccepted(form.amount, env) && CostAccepted(form.cost, env)
    requires var c, a := env.parseInt(form.cost).value as real, env.parseFloat(form.amount).value;
      c > 300.0 * a || c < 80.0 * a
    ensures var errors := FormErrors(form, existing, env);
      (PriceHigh in errors || PriceLow in errors) && errors != []
  {
    var errors := FormErrors(form, existing, env);
    var cost := env.parseInt(form.cost);
    var price := PriceErrors(cost, env.parseFloat(form.amount).value);
    assert CostErrors(form, env) == [] + price;
    assert price[0] in CostErrors(form, env);
    assert errors == DateErrors(form.date, env) + AmountErrors(form.amount, env) + CostErrors(form, env)
      + (MileageErrors(form, existing, env) + StationErrors(form.station));
  }

  /**
   * Against the latest stored record: a mileage below it on a date not before it is an error,
   * and so is more than 1000 km a day since it on a later date.
   */
  lemma ConsistencyRejected(form: FormData, existing: seq<FuelRecord>, env: Environment)
    requires existing != [] && form.date != "" && form.mileage != ""
    requires env.time(form.date).Some? && env.time(Latest(existing).date).Some?
    requires env.parseFloat(form.mileage).Some?
    ensures var latest, m := Latest(existing), env.parseFloat(form.mileage).value;
      var newDate, latestDate := env.time(form.date).value, env.time(latest.date).value;
      var errors := FormErrors(form, existing, env);
      && (newDate >= latestDate && m < latest.mileage ==> MileageDecreased(latest.mileage) in errors)
      && (newDate > latestDate && m - latest.mileage > 1000.0 * Ceil(newDate - latestDate) as real ==>
            exists perDay :: DailyDistance(perDay) in errors)
  {
    var latest, m := Latest(existing), env.parseFloat(form.mileage).value;
    var newDate, latestDate := env.time(form.date).value, env.time(latest.date).value;
    var consistency := ConsistencyErrors(form, existing, env, Some(m));
    assert consistency == AgainstLatest(newDate, latestDate, latest, Some(m));
    AgainstLatestRejects(newDate, latestDate, latest, m);
    if newDate >= latestDate && m < latest.mileage {
      ConsistencyInFormErrors(form, existing, env, MileageDecreased(latest.mileage));
    }
    if newDate > latestDate && m - latest.mileage > 1000.0 * Ceil(newDate - latestDate) as real {
      var perDay :| DailyDistance(perDay) in consistency;
      ConsistencyInFormErrors(form, existing, env, DailyDistance(perDay));
    }
  }

  /** The two comparisons with the latest record raise their messages. */
  lemma AgainstLatestRejects(newDate: real, latestDate: real, latest: FuelRecord, m: real)
    ensures var c := AgainstLatest(newDate, latestDate, latest, Some(m));
      && (newDate >= latestDate && m < latest.mileage ==> MileageDecreased(latest.mileage) in c)
      && (newDate > latestDate && m - latest.mileage > 1000.0 * Ceil(newDate - latestDate) as real ==>
            exists perDay :: DailyDistance(perDay) in c)
  {
    var c := AgainstLatest(newDate, latestDate, latest, Some(m));
    var decreased: seq<FormError> :=
      if newDate >= latestDate && m < latest.mileage then [MileageDecreased(latest.mileage)] else [];
    if newDate >= latestDate && m < latest.mileage {
      assert c[0] == MileageDecreased(latest.mileage);
    }
    if newDate > latestDate && m - latest.mileage > 1000.0 * Ceil(newDate - latestDate) as real {
      var daily := DailyDistanceErrors(newDate - latestDate, latest, Some(m));
      assert c == decreased + daily;
      assert daily[0] in c;
    }
  }

  lemma ConsistencyInFormErrors(form: FormData, existing: seq<FuelRecord>, env: Environment, e: FormError)
    requires form.mileage != ""
    requires e in ConsistencyErrors(form, existing, env, env.parseFloat(form.mileage))
    ensures e in FormErrors(form, existing, env)
  {
    assert e in MileageErrors(form, existing, env);
  }

  // ---------------------------------------------------------------------------------------------
  // Imported rows

  /** The five properties validateImportData reads from a row; `Undefined` where one is absent. */
  datatype Row = Row(date: Value, amount: Value, cost: Value, mileage: Value, station: Value)

  /** One message of validateImportData; rows are numbered from 1. */
  datatype ImportError =
    | NoRows
    | DateMissing(row: nat) | DateFormat(row: nat)
    | AmountMissing(row: nat) | AmountInvalid(row: nat)
    | CostMissing(row: nat) | CostInvalid(row: nat)
    | MileageMissing(row: nat) | MileageInvalid(row: nat)
    | StationMissing(row: nat)

  predicate IsDigit(c: char) {
    '0' <= c <= '9'
  }

  /** `/^\d{4}-\d{2}-\d{2}$/`. */
  predicate IsIsoDate(s: string) {
    && |s| == 10
    && IsDigit(s[0]) && IsDigit(s[1]) && IsDigit(s[2]) && IsDigit(s[3]) && s[4] == '-'
    && IsDigit(s[5]) && IsDigit(s[6]) && s[7] == '-' && IsDigit(s[8]) && IsDigit(s[9])
  }

  /** A numeric property is present and Number(...) of it passes `bound`. */
  predicate NumberPasses(v: Value, rt: Runtime, positive: bool) {
    && !v.Undefined? && !v.Null?
    && ToNumber(v, rt).Some?
    && (if positive then ToNumber(v, rt).value > 0.0 else ToNumber(v, rt).value >= 0.0)
  }

  /** The date check of a row: missing when falsy, else it must read `YYYY-MM-DD`. */
  function RowDateErrors(date: Value, rowNum: nat, rt: Runtime): (r: seq<ImportError>)
    ensures r == [] || r == [DateMissing(rowNum)] || r == [DateFormat(rowNum)]
    ensures r == [] <==> Truthy(date) && IsIsoDate(ToStr(date, rt))
  {
    if !Truthy(date) then [DateMissing(rowNum)]
    else if !IsIsoDate(ToStr(date, rt)) then [DateFormat(rowNum)] else []
  }

  /**
   * The check of a numeric property: `missing` when it is null or undefined, `invalid` when
   * Number(...) of it is NaN or out of bounds.
   */
  function RowNumberErrors(v: Value, rt: Runtime, positive: bool, missing: ImportError, invalid: ImportError)
    : (r: seq<ImportError>)
    ensures r == [] || r == [missing] || r == [invalid]
    ensures r == [] <==> NumberPasses(v, rt, positive)
  {
    if v.Undefined? || v.Null? then [missing]
    else if ToNumber(v, rt).None? || (if positive then ToNumber(v, rt).value <= 0.0 else ToNumber(v, rt).value < 0.0)
    then [invalid]
    else []
  }

  /** The station check of a row: a truthy, non-blank string. */
  function RowStationErrors(station: Value, rowNum: nat): (r: seq<ImportError>)
    ensures r == [] || r == [StationMissing(rowNum)]
    ensures r == [] <==> station.Str? && Trim(station.s) != ""
  {
    if !Truthy(station) || !station.Str? || Trim(station.s) == "" then [StationMissing(rowNum)] else []
  }

  /** The messages for one row: at most one per property, in the order of the checks. */
  function RowErrors(row: Row, rowNum: nat, rt: Runtime): (r: seq<ImportError>)
    ensures |r| <= 5
  {
    RowDateErrors(row.date, rowNum, rt)
    + RowNumberErrors(row.amount, rt, true, AmountMissing(rowNum), AmountInvalid(rowNum))
    + RowNumberErrors(row.cost, rt, true, CostMissing(rowNum), CostInvalid(rowNum))
    + RowNumberErrors(row.mileage, rt, false, MileageMissing(rowNum), MileageInvalid(rowNum))
    + RowStationErrors(row.station, rowNum)
  }

  /** Every message of a row carries that row's number. */
  lemma RowErrorsNumbered(row: Row, rowNum: nat, rt: Runtime)
    ensures forall e :: e in RowErrors(row, rowNum, rt) ==> !e.NoRows? && e.row == rowNum
  {
    var a := RowDateErrors(row.date, rowNum, rt);
    var b := RowNumberErrors(row.amount, rt, true, AmountMissing(rowNum), AmountInvalid(rowNum));
    var c := RowNumberErrors(row.cost, rt, true, CostMissing(rowNum), CostInvalid(rowNum));
    var d := RowNumberErrors(row.mileage, rt, false, MileageMissing(rowNum), MileageInvalid(rowNum));
    var e := RowStationErrors(row.station, rowNum);
    assert RowErrors(row, rowNum, rt) == a + b + c + d + e;
    forall x | x in RowErrors(row, rowNum, rt) ensures !x.NoRows? && x.row == rowNum {
      assert x in a || x in b || x in c || x in d || x in e;
    }
  }

  /**
   * A row draws no message exactly when its date is a truthy `YYYY-MM-DD` text, amount and
   * cost are present and positive, the mileage is present and not negative, and the station
   * is a non-blank string.
   */
  lemma RowErrorsMeaning(row: Row, rowNum: nat, rt: Runtime)
    ensures RowErrors(row, rowNum, rt) == [] <==>
      && Truthy(row.date) && IsIsoDate(ToStr(row.date, rt))
      && NumberPasses(row.amount, rt, true)
      && NumberPasses(row.cost, rt, true)
      && NumberPasses(row.mileage, rt, false)
      && row.station.Str? && Trim(row.station.s) != ""
  {
    var a := RowDateErrors(row.date, rowNum, rt);
    var b := RowNumberErrors(row.amount, rt, true, AmountMissing(rowNum), AmountInvalid(rowNum));
    var c := RowNumberErrors(row.cost, rt, true, CostMissing(rowNum), CostInvalid(rowNum));
    var d := RowNumberErrors(row.mileage, rt, false, MileageMissing(rowNum), MileageInvalid(rowNum));
    var e := RowStationErrors(row.station, rowNum);
    assert |RowErrors(row, rowNum, rt)| == |a| + |b| + |c| + |d| + |e|;
  }

  /** The messages `check` draws from each row in turn, rows numbered from 1. */
  function RowByRow<E>(rows: seq<Row>, check: (Row, nat) -> seq<E>): seq<E> {
    if rows == [] then []
    else RowByRow(rows[..|rows| - 1], check) + check(rows[|rows| - 1], |rows|)
  }

  /** Row by row, nothing is drawn exactly when no row draws anything. */
  lemma {:induction false} RowByRowEmpty<E>(rows: seq<Row>, check: (Row, nat) -> seq<E>)
    ensures RowByRow(rows, check) == [] <==> forall i :: 0 <= i < |rows| ==> check(rows[i], i + 1) == []
  {
    if rows != [] {
      var init := rows[..|rows| - 1];
      RowByRowEmpty(init, check);
      assert forall i :: 0 <= i < |init| ==> init[i] == rows[i];
    }
  }

  /** The messages of all rows, in row order. */
  function AllRowErrors(rows: seq<Row>, rt: Runtime): seq<ImportError> {
    RowByRow(rows, (row, rowNum) => RowErrors(row, rowNum, rt))
  }

  /** One more row adds its own messages. */
  lemma AllRowErrorsStep(rows: seq<Row>, index: nat, rt: Runtime)
    requires index < |rows|
    ensures AllRowErrors(rows[..index + 1], rt) == AllRowErrors(rows[..index], rt) + RowErrors(rows[index], index + 1, rt)
  {
    assert rows[..index + 1][..index] == rows[..index];
    assert rows[..index + 1][index] == rows[index];
  }

  /** No message at all exactly when every row passes. */
  lemma AllRowErrorsEmpty(rows: seq<Row>, rt: Runtime)
    ensures AllRowErrors(rows, rt) == [] <==> forall i :: 0 <= i < |rows| ==> RowErrors(rows[i], i + 1, rt) == []
  {
    RowByRowEmpty(rows, (row, rowNum) => RowErrors(row, rowNum, rt));
  }

  /** What validateImportData returns. */
  function ImportValidation(rows: seq<Row>, rt: Runtime): ValidationResult<ImportError> {
    if rows == [] then ValidationResult(false, [NoRows])
    else
      var errors := AllRowErrors(rows, rt);
      ValidationResult(errors == [], if |errors| <= 20 then errors else errors[..20])
  }

  /** validateImportData: an empty list is one error; otherwise every row is checked in turn. */
  method ValidateImportData(rows: seq<Row>, rt: Runtime) returns (result: ValidationResult<ImportError>)
    ensures result == ImportValidation(rows, rt)
  {
    var errors: seq<ImportError> := [];
    if |rows| == 0 {
      errors := errors + [NoRows];
      return ValidationResult(false, errors);
    }
    for index := 0 to |rows|
      invariant errors == AllRowErrors(rows[..index], rt)
    {
      AllRowErrorsStep(rows, index, rt);
      errors := errors + RowErrors(rows[index], index + 1, rt);
    }
    assert rows[..|rows|] == rows;
    result := ValidationResult(|errors| == 0, if |errors| <= 20 then errors else errors[..20]);
  }

  /**
   * The import verdict: an empty list fails with exactly one message; otherwise validity means
   * every row passes, at most 20 messages are shown, they are the first ones, and a failing
   * list shows at least one.
   */
  lemma ImportValidationProperties(rows: seq<Row>, rt: Runtime)
    ensures var r := ImportValidation(rows, rt);
      && (rows == [] ==> !r.isValid && r.errors == [NoRows])
      && (rows != [] ==> (r.isValid <==> forall i :: 0 <= i < |rows| ==> RowErrors(rows[i], i + 1, rt) == []))
      && (rows != [] ==> r.errors <= AllRowErrors(rows, rt))
      && |r.errors| <= 20
      && (r.isValid <==> r.errors == [])
  {
    AllRowErrorsEmpty(rows, rt);
    if rows != [] {
      var errors := AllRowErrors(rows, rt);
      if |errors| > 20 {
        assert errors[..20] <= errors && |errors[..20]| == 20;
      }
    }
  }
}
