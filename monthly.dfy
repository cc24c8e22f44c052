/**
 * The month-by-month listing of both calculator components (`monthlyData` in the store-backed
 * revision, `getMonthlyData` in the in-memory one). Each month's group holds:
 * - its records in list order, each with its unit price and its efficiency against the
 *   record before it in the whole list;
 * - the month's cost and amount totals.
 * Groups come latest month first.
 */
module MonthlyRecords {
  import opened Optional
  import opened Text
  import opened Sorting
  import opened Reals
  import opened Records
  import opened Grouping

  /** A record as the listing shows it: `{...record, pricePerLiter, fuelEfficiency}`. */
  datatype ListedRecord = ListedRecord(record: FuelRecord, pricePerLiter: real, fuelEfficiency: Option<real>)

  datatype MonthGroup = MonthGroup(month: string, totalCost: real, totalAmount: real, records: seq<ListedRecord>)

  /** `{ month, totalCost: 0, totalAmount: 0, records: [] }`. */
  function OpenMonth(month: string): MonthGroup {
    MonthGroup(month, 0.0, 0.0, [])
  }

  /** The record at position `j` as listed: its price and its efficiency against `records[j - 1]`. */
  function Listed(s: seq<FuelRecord>, j: nat): ListedRecord
    requires j < |s|
  {
    ListedRecord(s[j], PricePerLiter(s[j]), Efficiency(s[j], Previous(s, j)))
  }

  /** What the callback does to a month's group for `record`, whose predecessor in the list is `prev`. */
  function AddListed(grp: MonthGroup, record: FuelRecord, prev: Option<FuelRecord>): MonthGroup {
    MonthGroup(grp.month, grp.totalCost + record.cost, grp.totalAmount + record.amount,
      grp.records + [ListedRecord(record, PricePerLiter(record), Efficiency(record, prev))])
  }

  function GroupMonth(grp: MonthGroup): string { grp.month }
  function GroupCost(grp: MonthGroup): real { grp.totalCost }
  function GroupAmount(grp: MonthGroup): real { grp.totalAmount }
  function GroupSize(grp: MonthGroup): real { |grp.records| as real }

  /** `Object.values` hands over the groups themselves. */
  function GroupItself(month: string, grp: MonthGroup): MonthGroup { grp }

  /** The listing: the groups in order of first appearance, then sorted latest month first. */
  function Monthly(s: seq<FuelRecord>): seq<MonthGroup> {
    SortBy(Entries(Keys(s, |s|, ByMonth), BucketsAt(s, |s|, ByMonth, OpenMonth, AddListed), GroupItself),
           Descending(GroupMonth))
  }

  /** The listed records at the positions `ms`. */
  function ListedAt(s: seq<FuelRecord>, ms: seq<nat>): (r: seq<ListedRecord>)
    requires forall i :: 0 <= i < |ms| ==> ms[i] < |s|
    ensures |r| == |ms|
  {
    seq(|ms|, i requires 0 <= i < |ms| => Listed(s, ms[i]))
  }

  /**
   * The `forEach` callback for the record at `index`: open the month's group if it is new,
   * then add the record's cost and amount and list it.
   */
  method ListRecord(s: seq<FuelRecord>, index: nat, months: seq<string>, acc: map<string, MonthGroup>)
    returns (months': seq<string>, acc': map<string, MonthGroup>)
    requires index < |s|
    requires (months, acc) == (Keys(s, index, ByMonth), BucketsAt(s, index, ByMonth, OpenMonth, AddListed))
    ensures (months', acc') == (Keys(s, index + 1, ByMonth), BucketsAt(s, index + 1, ByMonth, OpenMonth, AddListed))
  {
    months', acc' := months, acc;
    var record := s[index];
    var month := Month(record.date);
    if month !in acc' {
      acc' := acc'[month := MonthGroup(month, 0.0, 0.0, [])];
      months' := months' + [month];
    }
    ghost var started := acc';
    var pricePerLiter := record.cost / record.amount;
    var prev := if index > 0 then Some(s[index - 1]) else None;
    var grp := acc'[month];
    grp := grp.(totalCost := grp.totalCost + record.cost);
    grp := grp.(totalAmount := grp.totalAmount + record.amount);
    grp := grp.(records := grp.records + [ListedRecord(record, pricePerLiter, Efficiency(record, prev))]);
    acc' := acc'[month := grp];
    BucketsStep(s, index, ByMonth, OpenMonth, AddListed, started, grp);
  }

  /** The grouping pass followed by `Object.values(monthlyMap).sort(...)`. */
  method CollectMonthly(s: seq<FuelRecord>) returns (r: seq<MonthGroup>)
    ensures r == Monthly(s)
  {
    var months, acc := [], map[];
    var i := 0;
    while i < |s|
      invariant i <= |s|
      invariant (months, acc) == (Keys(s, i, ByMonth), BucketsAt(s, i, ByMonth, OpenMonth, AddListed))
    {
      months, acc := ListRecord(s, i, months, acc);
      i := i + 1;
    }
    r := SortBy(Entries(months, acc, GroupItself), Descending(GroupMonth));
  }

  /**
   * A month's group after the first `n` records holds the month's cost and amount sums and
   * lists the month's records in order, each priced and measured against its predecessor in
   * the whole list (not within the month).
   */
  lemma {:induction false} GroupContents(s: seq<FuelRecord>, n: nat, k: string)
    requires n <= |s|
    ensures Bucket(s, n, ByMonth, k, OpenMonth, AddListed) ==
      MonthGroup(k, GroupSum(s, n, ByMonth, k, Cost), GroupSum(s, n, ByMonth, k, Amount),
                 ListedAt(s, Members(s, n, ByMonth, k)))
  {
    if n > 0 {
      GroupContents(s, n - 1, k);
      if KeyOf(s[n - 1], ByMonth) == k {
        var ms := Members(s, n - 1, ByMonth, k);
        assert Members(s, n, ByMonth, k) == ms + [n - 1];
        assert ListedAt(s, ms + [n - 1]) == ListedAt(s, ms) + [Listed(s, n - 1)];
      }
    }
  }

  lemma MonthlyView(s: seq<FuelRecord>)
    ensures IsView(s, ByMonth, Keys(s, |s|, ByMonth), BucketsAt(s, |s|, ByMonth, OpenMonth, AddListed),
                   GroupItself, GroupMonth)
  {
    var keys, acc := Keys(s, |s|, ByMonth), BucketsAt(s, |s|, ByMonth, OpenMonth, AddListed);
    forall i | 0 <= i < |keys| ensures GroupMonth(GroupItself(keys[i], acc[keys[i]])) == keys[i] {
      GroupContents(s, |s|, keys[i]);
    }
  }

  /**
   * Each group of the listing is its month's group: the month's cost and amount sums and its
   * records, in order and each with its efficiency against the record before it in the
   * whole list. No month appears twice and no group is empty.
   */
  lemma MonthlyGroups(s: seq<FuelRecord>)
    ensures var r := Monthly(s);
      && |r| == |Keys(s, |s|, ByMonth)|
      && (forall i :: 0 <= i < |r| ==>
            && r[i].records != []
            && r[i] == MonthGroup(r[i].month, GroupSum(s, |s|, ByMonth, r[i].month, Cost),
                                  GroupSum(s, |s|, ByMonth, r[i].month, Amount),
                                  ListedAt(s, Members(s, |s|, ByMonth, r[i].month))))
      && (forall i, j :: 0 <= i < j < |r| ==> r[i].month != r[j].month)
  {
    var keys, acc := Keys(s, |s|, ByMonth), BucketsAt(s, |s|, ByMonth, OpenMonth, AddListed);
    var r := Monthly(s);
    MonthlyView(s);
    ViewEntries(s, ByMonth, keys, acc, GroupItself, GroupMonth, Descending(GroupMonth));
    forall i | 0 <= i < |r|
      ensures && r[i].records != []
              && r[i] == MonthGroup(r[i].month, GroupSum(s, |s|, ByMonth, r[i].month, Cost),
                                    GroupSum(s, |s|, ByMonth, r[i].month, Amount),
                                    ListedAt(s, Members(s, |s|, ByMonth, r[i].month)))
    {
      assert GroupMonth(r[i]) in keys;
      GroupContents(s, |s|, r[i].month);
      KeysMembers(s, |s|, ByMonth, r[i].month);
    }
  }

  /** Latest month first. */
  lemma MonthlyDescending(s: seq<FuelRecord>)
    ensures var r := Monthly(s);
      forall i, j :: 0 <= i < j < |r| ==> LexLe(r[j].month, r[i].month)
  {
    var r := Monthly(s);
    KeyOrdersAreTotalPreorders(GroupMonth);
    SortSorted(Entries(Keys(s, |s|, ByMonth), BucketsAt(s, |s|, ByMonth, OpenMonth, AddListed), GroupItself),
               Descending(GroupMonth));
    forall i, j | 0 <= i < j < |r| ensures LexLe(r[j].month, r[i].month) {
      assert Descending(GroupMonth)(r[i], r[j]);
      assert GroupMonth(r[i]) == r[i].month && GroupMonth(r[j]) == r[j].month;
    }
  }

  /** The listing's months are exactly the months of the records. */
  lemma MonthlyCover(s: seq<FuelRecord>)
    ensures (set e | e in Monthly(s) :: e.month) == (set x | x in s :: Month(x.date))
  {
    var r := Monthly(s);
    assert (set e | e in r :: GroupMonth(e)) == (set x | x in s :: KeyOf(x, ByMonth)) by {
      MonthlyView(s);
      ViewCover(s, ByMonth, Keys(s, |s|, ByMonth), BucketsAt(s, |s|, ByMonth, OpenMonth, AddListed),
                GroupItself, GroupMonth, r);
    }
    assert (set e | e in r :: e.month) == (set e | e in r :: GroupMonth(e));
    assert (set x | x in s :: Month(x.date)) == (set x | x in s :: KeyOf(x, ByMonth));
  }

  /**
   * Across groups, the listed records number as many as the records, and the month totals
   * add up to the overall cost and amount.
   */
  lemma MonthlyTotals(s: seq<FuelRecord>)
    ensures SumBy(Monthly(s), GroupSize) == |s| as real
    ensures SumBy(Monthly(s), GroupCost) == SumBy(s, CostOf)
    ensures SumBy(Monthly(s), GroupAmount) == SumBy(s, AmountOf)
  {
    var keys, acc := Keys(s, |s|, ByMonth), BucketsAt(s, |s|, ByMonth, OpenMonth, AddListed);
    forall k | k in keys
      ensures && GroupSize(acc[k]) == GroupSum(s, |s|, ByMonth, k, Count)
              && GroupCost(acc[k]) == GroupSum(s, |s|, ByMonth, k, Cost)
              && GroupAmount(acc[k]) == GroupSum(s, |s|, ByMonth, k, Amount)
    {
      GroupContents(s, |s|, k);
      GroupCount(s, |s|, ByMonth, k);
    }
    ViewSum(s, ByMonth, keys, acc, GroupItself, Descending(GroupMonth), Count, GroupSize);
    ViewSum(s, ByMonth, keys, acc, GroupItself, Descending(GroupMonth), Cost, GroupCost);
    ViewSum(s, ByMonth, keys, acc, GroupItself, Descending(GroupMonth), Amount, GroupAmount);
    TotalCount(s, |s|);
    TotalIsSumBy(s, |s|);
    assert s[..|s|] == s;
  }
}
