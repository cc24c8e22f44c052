/**
 * The store-backed entry component (src/components/FuelCalculator.tsx) as an object whose
 * methods update its state the way the component's setters do. The store's replies are inputs:
 * the rows a select returns, the row an insert returns, or the error message. The station list
 * is rebuilt from the records whenever the records are set.
 */
module Calculator {
  import opened Optional
  import opened Text
  import opened Records
  import opened Validation
  import opened RecordList
  import opened MonthlyRecords

  /** The row sent to the store: `parseFloat` of amount and mileage, `parseInt(…, 10)` of cost; NaN is None. */
  datatype Payload = Payload(date: string, amount: Option<real>, cost: Option<int>, mileage: Option<real>, station: string)

  /** The store's answer to the initial select (ordered by date) and to an insert. */
  datatype SelectReply = Rows(rows: seq<FuelRecord>) | SelectError(message: string)
  datatype InsertReply = Inserted(row: FuelRecord) | InsertError(message: string) | NoRow

  const DeleteFailed := "削除に失敗しました: "

  class FuelCalculator {
    var records: seq<FuelRecord>
    var stationList: seq<string>
    var formData: FormData
    var isAddingNewStation: bool
    var newStationName: string
    var error: Option<string>

    /**
     * The records are in date order, the station list has no duplicates, and it names every
     * station of the records (it may name more after addNewStation).
     */
    ghost predicate Valid()
      reads this
    {
      && DateSorted(records)
      && Distinct(stationList)
      && (forall r :: r in records ==> r.station in stationList)
    }

    constructor ()
      ensures Valid()
      ensures records == [] && stationList == [] && formData == EmptyForm
      ensures !isAddingNewStation && newStationName == "" && error == None
    {
      records := [];
      stationList := [];
      formData := EmptyForm;
      isAddingNewStation := false;
      newStationName := "";
      error := None;
    }

    /** `setRecords(rs)` followed by the effect that derives the station list from the records. */
    method SetRecords(rs: seq<FuelRecord>)
      requires DateSorted(rs)
      modifies this
      ensures Valid()
      ensures records == rs && stationList == StationListOf(rs)
      ensures formData == old(formData) && isAddingNewStation == old(isAddingNewStation)
      ensures newStationName == old(newStationName) && error == old(error)
    {
      records := rs;
      stationList := StationListOf(rs);
      StationListCovers(rs);
    }

    /** The initial load: the rows on success (the select orders them by date), the message on error. */
    method FetchRecords(reply: SelectReply)
      requires Valid()
      requires reply.Rows? ==> DateSorted(reply.rows)
      modifies this
      ensures Valid()
      ensures reply.Rows? ==> records == reply.rows && stationList == StationListOf(reply.rows) && error == None
      ensures reply.SelectError? ==>
        records == old(records) && stationList == old(stationList) && error == Some(reply.message)
      ensures formData == old(formData) && isAddingNewStation == old(isAddingNewStation)
      ensures newStationName == old(newStationName)
    {
      error := None;
      match reply
      case SelectError(message) =>
        error := Some(message);
      case Rows(rows) =>
        SetRecords(rows);
    }

    /**
     * addNewStation: a blank or already listed name raises an alert and changes nothing;
     * otherwise the trimmed name is appended to the list and chosen in the form.
     */
    method AddNewStation() returns (alert: Option<string>)
      requires Valid()
      modifies this
      ensures Valid()
      ensures var name := Trim(old(newStationName));
        if name == "" || name in old(stationList) then
          && alert == Some(if name == "" then EnterStationName else StationTaken)
          && unchanged(this)
        else
          && alert == None
          && stationList == old(stationList) + [name]
          && formData == old(formData).(station := name)
          && newStationName == "" && !isAddingNewStation
          && records == old(records) && error == old(error)
    {
      var name := Trim(newStationName);
      if name == "" {
        alert := Some(EnterStationName);
      } else if name in stationList {
        alert := Some(StationTaken);
      } else {
        AppendFresh(stationList, name);
        stationList := stationList + [name];
        formData := formData.(station := name);
        newStationName := "";
        isAddingNewStation := false;
        alert := None;
      }
    }

    /**
     * addRecord: an incomplete form raises an alert and changes nothing. Otherwise the form's
     * numbers are parsed into the payload sent to the store. The store's reply then decides:
     * - the inserted row joins the records, which are re-sorted by date, and the form is cleared;
     * - an error message is shown;
     * - no row and no error changes nothing more.
     */
    method AddRecord(env: Environment, reply: InsertReply) returns (payload: Option<Payload>, alert: Option<string>)
      requires Valid()
      modifies this
      ensures Valid()
      ensures Incomplete(old(formData)) ==> payload == None && alert == Some(FillInAllFields) && unchanged(this)
      ensures !Incomplete(old(formData)) ==>
        && alert == None
        && payload == Some(Payload(old(formData).date, env.parseFloat(old(formData).amount),
                                   env.parseInt(old(formData).cost), env.parseFloat(old(formData).mileage),
                                   old(formData).station))
        && (reply.Inserted? ==>
              && records == SortByDate(old(records) + [reply.row])
              && stationList == StationListOf(records)
              && formData == EmptyForm && error == None)
        && (reply.InsertError? ==>
              && records == old(records) && stationList == old(stationList)
              && formData == old(formData) && error == Some(reply.message))
        && (reply.NoRow? ==>
              && records == old(records) && stationList == old(stationList)
              && formData == old(formData) && error == None)
      ensures newStationName == old(newStationName) && isAddingNewStation == old(isAddingNewStation)
    {
      if Incomplete(formData) {
        payload, alert := None, Some(FillInAllFields);
        return;
      }
      payload := Some(Payload(formData.date, env.parseFloat(formData.amount), env.parseInt(formData.cost),
                              env.parseFloat(formData.mileage), formData.station));
      alert := None;
      Store(reply);
    }

    /** What addRecord does with the store's reply to the insert. */
    method Store(reply: InsertReply)
      requires Valid()
      modifies this
      ensures Valid()
      ensures reply.Inserted? ==>
        && records == SortByDate(old(records) + [reply.row])
        && stationList == StationListOf(records)
        && formData == EmptyForm && error == None
      ensures reply.InsertError? ==>
        && records == old(records) && stationList == old(stationList)
        && formData == old(formData) && error == Some(reply.message)
      ensures reply.NoRow? ==>
        && records == old(records) && stationList == old(stationList)
        && formData == old(formData) && error == None
      ensures newStationName == old(newStationName) && isAddingNewStation == old(isAddingNewStation)
    {
      if reply.Inserted? {
        Accept(reply.row);
      } else if reply.InsertError? {
        error := Some(reply.message);
      } else {
        error := None;
      }
    }

    /** The inserted row joins the records, re-sorted by date, and the form is cleared. */
    method Accept(row: FuelRecord)
      modifies this
      ensures Valid()
      ensures records == SortByDate(old(records) + [row]) && stationList == StationListOf(records)
      ensures formData == EmptyForm && error == None
      ensures newStationName == old(newStationName) && isAddingNewStation == old(isAddingNewStation)
    {
      var updated := SortByDate(records + [row]);
      SetRecords(updated);
      formData := EmptyForm;
      error := None;
    }

    /**
     * deleteRecord: the records without that id are shown at once; if the store then reports
     * an error, the previous records come back (and with them the station list derived from
     * them) and an alert carries the message.
     */
    method DeleteRecord(id: RecordId, failure: Option<string>) returns (alert: Option<string>)
      requires Valid()
      modifies this
      ensures Valid()
      ensures failure.None? ==>
        records == WithoutId(old(records), id) && stationList == StationListOf(records) && alert == None
      ensures failure.Some? ==>
        && records == old(records) && stationList == StationListOf(old(records))
        && alert == Some(DeleteFailed + failure.value)
      ensures formData == old(formData) && isAddingNewStation == old(isAddingNewStation)
      ensures newStationName == old(newStationName) && error == old(error)
    {
      var prev := records;
      WithoutIdSorted(records, id);
      SetRecords(WithoutId(records, id));
      alert := None;
      if failure.Some? {
        SetRecords(prev);
        alert := Some(DeleteFailed + failure.value);
      }
    }

    /** The `monthlyData` memo over the current records. */
    method MonthlyData() returns (groups: seq<MonthGroup>)
      ensures groups == Monthly(records)
    {
      groups := CollectMonthly(records);
    }
  }
}
