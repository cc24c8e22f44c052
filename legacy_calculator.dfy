/**
 * The in-memory revision of the entry component (fuel_calculator.tsx): the records live only in
 * the component's state, a new record is stamped with the clock, and the station list is a
 * master list that grows by addNewStation and by every record whose station it does not yet
 * name (deleting a record leaves the list alone).
 */
module LegacyCalculator {
  import opened Optional
  import opened Text
  import opened Records
  import opened Validation
  import opened RecordList
  import opened MonthlyRecords

  /** The form's three numbers parse (`parseFloat`, NaN is None) and the amount is positive. */
  predicate Parses(form: FormData, env: Environment) {
    && env.parseFloat(form.amount).Some? && env.parseFloat(form.amount).value > 0.0
    && env.parseFloat(form.cost).Some?
    && env.parseFloat(form.mileage).Some?
  }

  /** The record addRecord builds from a complete form, stamped `now` (`Date.now()`). */
  function NewRecord(form: FormData, env: Environment, now: int): (r: FuelRecord)
    requires Parses(form, env)
    ensures r.id == Stamp(now) && r.date == form.date && r.station == form.station
    ensures Some(r.amount) == env.parseFloat(form.amount) && Some(r.cost) == env.parseFloat(form.cost)
    ensures Some(r.mileage) == env.parseFloat(form.mileage)
  {
    FuelRecord(Stamp(now), form.date, env.parseFloat(form.amount).value, env.parseFloat(form.cost).value,
               env.parseFloat(form.mileage).value, form.station)
  }

  class FuelCalculator {
    var records: seq<FuelRecord>
    var formData: FormData
    var stationList: seq<string>
    var isAddingNewStation: bool
    var newStationName: string

    /**
     * The records are in date order, the master list has no duplicates, and it names every
     * station of the records.
     */
    ghost predicate Valid()
      reads this
    {
      && DateSorted(records)
      && Distinct(stationList)
      && (forall r :: r in records ==> r.station in stationList)
    }

    constructor ()
      ensures Valid()
      ensures records == [] && stationList == [] && formData == EmptyForm
      ensures !isAddingNewStation && newStationName == ""
    {
      records := [];
      formData := EmptyForm;
      stationList := [];
      isAddingNewStation := false;
      newStationName := "";
    }

    /**
     * addNewStation: a blank or already listed name raises an alert and changes nothing;
     * otherwise the trimmed name is appended to the list and chosen in the form.
     */
    method AddNewStation() returns (alert: Option<string>)
      requires Valid()
      modifies this
      ensures Valid()
      ensures var name := Trim(old(newStationName));
        if name == "" || name in old(stationList) then
          && alert == Some(if name == "" then EnterStationName else StationTaken)
          && unchanged(this)
        else
          && alert == None
          && stationList == old(stationList) + [name]
          && formData == old(formData).(station := name)
          && newStationName == "" && !isAddingNewStation
          && records == old(records)
    {
      var name := Trim(newStationName);
      if name == "" {
        alert := Some(EnterStationName);
      } else if name in stationList {
        alert := Some(StationTaken);
      } else {
        AppendFresh(stationList, name);
        stationList := stationList + [name];
        formData := formData.(station := name);
        newStationName := "";
        isAddingNewStation := false;
        alert := None;
      }
    }

    /**
     * addRecord: an incomplete form raises an alert and changes nothing. Otherwise the form's
     * station joins the master list unless it is there already, the new record joins the
     * records, which are re-sorted by date, and the form is cleared.
     */
    method AddRecord(env: Environment, now: int) returns (alert: Option<string>)
      requires Valid()
      requires !Incomplete(formData) ==> Parses(formData, env)
      modifies this
      ensures Valid()
      ensures Incomplete(old(formData)) ==> alert == Some(FillInAllFields) && unchanged(this)
      ensures !Incomplete(old(formData)) ==>
        && alert == None
        && records == SortByDate(old(records) + [NewRecord(old(formData), env, now)])
        && stationList == (if old(formData).station in old(stationList) then old(stationList)
                           else old(stationList) + [old(formData).station])
        && formData == EmptyForm
      ensures newStationName == old(newStationName) && isAddingNewStation == old(isAddingNewStation)
    {
      if Incomplete(formData) {
        alert := Some(FillInAllFields);
        return;
      }
      alert := None;
      var station := formData.station;
      if station !in stationList {
        AppendFresh(stationList, station);
        stationList := stationList + [station];
      }
      Append(NewRecord(formData, env, now));
    }

    /** `setRecords([...records, newRecord].sort(...))` and the cleared form. */
    method Append(newRecord: FuelRecord)
      requires DateSorted(records) && Distinct(stationList)
      requires forall r :: r in records ==> r.station in stationList
      requires newRecord.station in stationList
      modifies this
      ensures Valid()
      ensures records == SortByDate(old(records) + [newRecord]) && formData == EmptyForm
      ensures stationList == old(stationList)
      ensures newStationName == old(newStationName) && isAddingNewStation == old(isAddingNewStation)
    {
      var updated := SortByDate(records + [newRecord]);
      forall r | r in updated ensures r.station in stationList {
        assert r in multiset(updated);
        assert r in records + [newRecord];
      }
      records := updated;
      formData := EmptyForm;
    }

    /** deleteRecord: the records without that id; the master list keeps every name. */
    method DeleteRecord(id: RecordId)
      requires Valid()
      modifies this
      ensures Valid()
      ensures records == WithoutId(old(records), id)
      ensures stationList == old(stationList) && formData == old(formData)
      ensures newStationName == old(newStationName) && isAddingNewStation == old(isAddingNewStation)
    {
      WithoutIdSorted(records, id);
      WithoutIdMembers(records, id);
      records := WithoutId(records, id);
    }

    /**
     * getMonthlyData over the current records. It has the same contract as the store-backed
     * component's getter: both components list their records by month in the same way.
     */
    method GetMonthlyData() returns (groups: seq<MonthGroup>)
      ensures groups == Monthly(records)
    {
      groups := CollectMonthly(records);
    }
  }
}
