/**
 * The list updates shared by both revisions of the entry component:
 * - the "all fields filled" guard and addNewStation's name check;
 * - the date-ordered insertion of a new record;
 * - deletion by id (`filter`);
 * - the station list derived from the records (store-backed revision).
 */
module RecordList {
  import opened Optional
  import opened Text
  import opened Sorting
  import opened Records
  import opened Grouping
  import opened Validation

  const EmptyForm := FormData("", "", "", "", "")

  /** The alerts of the entry component. */
  const FillInAllFields := "すべての項目を入力してください"
  const EnterStationName := "スタンド名を入力してください"
  const StationTaken := "このスタンド名は既に登録されています"

  /** `!formData.date || !formData.amount || !formData.cost || !formData.mileage || !formData.station`. */
  predicate Incomplete(form: FormData) {
    form.date == "" || form.amount == "" || form.cost == "" || form.mileage == "" || form.station == ""
  }

  /** Records in ascending date order. */
  predicate DateSorted(rs: seq<FuelRecord>) {
    forall i, j :: 0 <= i < j < |rs| ==> LexLe(rs[i].date, rs[j].date)
  }

  predicate Distinct(names: seq<string>) {
    forall i, j :: 0 <= i < j < |names| ==> names[i] != names[j]
  }

  /** addNewStation's checks: the trimmed name to add, or the alert that stops it. */
  datatype StationCheck = Accepted(name: string) | Refused(alert: string)

  function CheckNewStation(stationList: seq<string>, typed: string): StationCheck {
    var name := Trim(typed);
    if name == "" then Refused(EnterStationName)
    else if name in stationList then Refused(StationTaken)
    else Accepted(name)
  }

  /** Appending a name not yet listed keeps a list free of duplicates. */
  lemma AppendFresh(names: seq<string>, name: string)
    requires Distinct(names) && name !in names
    ensures Distinct(names + [name])
  {
  }

  /**
   * A name is accepted exactly when its trimmed form is neither blank nor listed; it is then
   * that trimmed form, already free of surrounding white space, so a list without duplicates
   * keeps none when it is appended.
   */
  lemma NewStationFresh(stationList: seq<string>, typed: string)
    ensures var c := CheckNewStation(stationList, typed);
      && (c.Accepted? <==> Trim(typed) != "" && Trim(typed) !in stationList)
      && (c.Accepted? ==> c.name == Trim(typed) && Trim(c.name) == c.name)
      && (c.Accepted? && Distinct(stationList) ==> Distinct(stationList + [c.name]))
  {
    TrimmedAlready(Trim(typed));
    if Trim(typed) != "" && Trim(typed) !in stationList && Distinct(stationList) {
      AppendFresh(stationList, Trim(typed));
    }
  }

  // ---------------------------------------------------------------------------------------------
  // Adding a record: `[...records, newRecord].sort((a, b) => a.date.localeCompare(b.date))`

  /**
   * Sorting a date-ordered list with one more record puts that record after every record of
   * the same or an earlier date and before every later one, leaving the others in order.
   */
  lemma AddedInPlace(rs: seq<FuelRecord>, x: FuelRecord) returns (p: nat)
    requires DateSorted(rs)
    ensures p <= |rs| && SortByDate(rs + [x]) == rs[..p] + [x] + rs[p..]
    ensures forall i :: 0 <= i < p ==> LexLe(rs[i].date, x.date)
    ensures forall i :: p <= i < |rs| ==> !LexLe(rs[i].date, x.date)
  {
    assert SortByDate(rs + [x]) == Insert(x, rs, DateLe) by { AppendToSorted(rs, x); }
    p := InsertPlace(x, rs, DateLe);
    assert p > 0 ==> LexLe(rs[p - 1].date, x.date);
    forall i | 0 <= i < p ensures LexLe(rs[i].date, x.date) {
      if i < p - 1 { LexLeTransitive(rs[i].date, rs[p - 1].date, x.date); }
    }
  }

  lemma AppendToSorted(rs: seq<FuelRecord>, x: FuelRecord)
    requires DateSorted(rs)
    ensures SortByDate(rs + [x]) == Insert(x, rs, DateLe)
  {
    assert (rs + [x])[..|rs|] == rs;
    assert Sorted(rs, DateLe);
    SortOfSorted(rs, DateLe);
  }

  // ---------------------------------------------------------------------------------------------
  // Deleting a record: `records.filter((r) => r.id !== id)`

  function WithoutId(rs: seq<FuelRecord>, id: RecordId): (r: seq<FuelRecord>)
    ensures |r| <= |rs|
  {
    if rs == [] then []
    else WithoutId(rs[..|rs| - 1], id) + (if rs[|rs| - 1].id != id then [rs[|rs| - 1]] else [])
  }

  /** Exactly the records with another id stay. */
  lemma {:induction false} WithoutIdMembers(rs: seq<FuelRecord>, id: RecordId)
    ensures forall x :: x in WithoutId(rs, id) <==> x in rs && x.id != id
  {
    if rs != [] {
      WithoutIdMembers(rs[..|rs| - 1], id);
      assert rs == rs[..|rs| - 1] + [rs[|rs| - 1]];
    }
  }

  /** Filtering a concatenation filters each part: the records that stay keep their order. */
  lemma {:induction false} WithoutIdAppend(a: seq<FuelRecord>, b: seq<FuelRecord>, id: RecordId)
    ensures WithoutId(a + b, id) == WithoutId(a, id) + WithoutId(b, id)
    decreases |b|
  {
    if b != [] {
      var init := b[..|b| - 1];
      WithoutIdAppend(a, init, id);
      assert (a + b)[..|a + b| - 1] == a + init;
    } else {
      assert a + b == a;
    }
  }

  /** Without a record of that id, nothing is removed. */
  lemma {:induction false} WithoutIdAbsent(rs: seq<FuelRecord>, id: RecordId)
    requires forall x :: x in rs ==> x.id != id
    ensures WithoutId(rs, id) == rs
  {
    if rs != [] {
      var init, last := rs[..|rs| - 1], rs[|rs| - 1];
      assert forall x :: x in init ==> x in rs;
      WithoutIdAbsent(init, id);
      assert last in rs;
      assert rs == init + [last];
    }
  }

  /** Deleting twice is deleting once. */
  lemma WithoutIdIdempotent(rs: seq<FuelRecord>, id: RecordId)
    ensures WithoutId(WithoutId(rs, id), id) == WithoutId(rs, id)
  {
    WithoutIdMembers(rs, id);
    WithoutIdAbsent(WithoutId(rs, id), id);
  }

  /** A date-ordered list stays date-ordered. */
  lemma {:induction false} WithoutIdSorted(rs: seq<FuelRecord>, id: RecordId)
    requires DateSorted(rs)
    ensures DateSorted(WithoutId(rs, id))
  {
    if rs != [] {
      var init, last := rs[..|rs| - 1], rs[|rs| - 1];
      WithoutIdSorted(init, id);
      WithoutIdMembers(init, id);
      var kept := WithoutId(init, id);
      forall x | x in kept ensures LexLe(x.date, last.date) {
        var q :| 0 <= q < |init| && init[q] == x;
        assert rs[q] == x;
      }
    }
  }

  // ---------------------------------------------------------------------------------------------
  // The station list: `Array.from(new Set(records.map((r) => r.station))).sort()`

  function Name(s: string): string { s }

  function StationListOf(rs: seq<FuelRecord>): seq<string> {
    SortBy(Keys(rs, |rs|, ByStation), Ascending(Name))
  }

  /** The station list is in ascending order and has no duplicates. */
  lemma StationListOrdered(rs: seq<FuelRecord>)
    ensures var r := StationListOf(rs);
      forall i, j :: 0 <= i < j < |r| ==> LexLe(r[i], r[j]) && r[i] != r[j]
  {
    var keys := Keys(rs, |rs|, ByStation);
    var r := StationListOf(rs);
    assert Sorted(r, Ascending(Name)) by {
      KeyOrdersAreTotalPreorders(Name);
      SortSorted(keys, Ascending(Name));
    }
    assert DistinctKeys(r, Name) by {
      KeysDistinct(rs, |rs|, ByStation);
      assert DistinctKeys(keys, Name);
      DistinctKeysPermutation(keys, r, Name);
    }
    forall i, j | 0 <= i < j < |r| ensures LexLe(r[i], r[j]) && r[i] != r[j] {
      assert Ascending(Name)(r[i], r[j]);
      assert Name(r[i]) != Name(r[j]);
    }
  }

  /** A name is in the station list exactly when some record is of that station. */
  lemma StationListMembers(rs: seq<FuelRecord>, x: string)
    ensures x in StationListOf(rs) <==> exists q :: 0 <= q < |rs| && rs[q].station == x
  {
    var keys := Keys(rs, |rs|, ByStation);
    assert x in StationListOf(rs) <==> x in multiset(keys);
    if x in keys {
      KeyHasRecord(rs, |rs|, ByStation, x);
    }
    if exists q :: 0 <= q < |rs| && rs[q].station == x {
      var q :| 0 <= q < |rs| && rs[q].station == x;
      InKeys(rs, |rs|, ByStation, q);
    }
  }

  /** Every record's station is listed, and the list has no duplicates. */
  lemma StationListCovers(rs: seq<FuelRecord>)
    ensures Distinct(StationListOf(rs))
    ensures forall x :: x in rs ==> x.station in StationListOf(rs)
  {
    StationListOrdered(rs);
    forall x | x in rs ensures x.station in StationListOf(rs) {
      var q :| 0 <= q < |rs| && rs[q] == x;
      StationListMembers(rs, x.station);
    }
  }
}
