/**
 * The month and station groupings that statistics.ts, export.ts, Charts.tsx and both
 * calculator components build with an object used as a map (`map[key] ??= {...}; map[key].x += ...`).
 * Group keys appear in first-insertion order. That is the order of `Object.entries` and
 * `Object.values` for keys that are not array indices (JavaScript lists a key such as "7"
 * first). The specifications here are over a prefix
 * `s[..n]`, so that the accumulating loops can state what they hold after each record.
 */
module Grouping {
  import opened Optional
  import opened Text
  import opened Sorting
  import opened Reals
  import opened Records

  datatype Grouping = ByMonth | ByStation

  function KeyOf(r: FuelRecord, g: Grouping): string {
    match g
    case ByMonth => Month(r.date)
    case ByStation => r.station
  }

  /** The per-record quantities that the accumulators add up. */
  datatype Measure =
    | Count        // `records.push(record)` / `fillUps += 1` / `count += 1`
    | Cost         // `totalCost += record.cost`
    | Amount       // `totalAmount += record.amount`
    | DistanceIn   // the positive leg from the previous record
    | DistanceOut  // the positive leg to the next record (credited to the station)

  function Value(s: seq<FuelRecord>, j: nat, m: Measure): real
    requires j < |s|
  {
    match m
    case Count => 1.0
    case Cost => s[j].cost
    case Amount => s[j].amount
    case DistanceIn => Leg(s, j)
    case DistanceOut => if j + 1 < |s| then Leg(s, j + 1) else 0.0
  }

  /** Indices of the records among the first `n` whose key is `k`, in order. */
  function Members(s: seq<FuelRecord>, n: nat, g: Grouping, k: string): (r: seq<nat>)
    requires n <= |s|
    ensures |r| <= n
    ensures forall i :: 0 <= i < |r| ==> r[i] < n && KeyOf(s[r[i]], g) == k
    ensures forall i, j :: 0 <= i < j < |r| ==> r[i] < r[j]
  {
    if n == 0 then []
    else if KeyOf(s[n - 1], g) == k then Members(s, n - 1, g, k) + [n - 1]
    else Members(s, n - 1, g, k)
  }

  /** Distinct keys of the first `n` records, in order of first appearance. */
  function Keys(s: seq<FuelRecord>, n: nat, g: Grouping): (r: seq<string>)
    requires n <= |s|
    ensures |r| <= n
  {
    if n == 0 then []
    else
      var ks := Keys(s, n - 1, g);
      if KeyOf(s[n - 1], g) in ks then ks else ks + [KeyOf(s[n - 1], g)]
  }

  /** Sum of measure `m` over the group `k` among the first `n` records. */
  function GroupSum(s: seq<FuelRecord>, n: nat, g: Grouping, k: string, m: Measure): real
    requires n <= |s|
  {
    if n == 0 then 0.0
    else GroupSum(s, n - 1, g, k, m) + (if KeyOf(s[n - 1], g) == k then Value(s, n - 1, m) else 0.0)
  }

  /** Sum of measure `m` over the first `n` records. */
  function Total(s: seq<FuelRecord>, n: nat, m: Measure): real
    requires n <= |s|
  {
    if n == 0 then 0.0 else Total(s, n - 1, m) + Value(s, n - 1, m)
  }

  /** Sum over the listed keys of their group sums. */
  function SumKeys(s: seq<FuelRecord>, n: nat, g: Grouping, ks: seq<string>, m: Measure): real
    requires n <= |s|
  {
    if ks == [] then 0.0 else SumKeys(s, n, g, ks[..|ks| - 1], m) + GroupSum(s, n, g, ks[|ks| - 1], m)
  }

  /** No key is listed twice. */
  lemma {:induction false} KeysDistinct(s: seq<FuelRecord>, n: nat, g: Grouping)
    requires n <= |s|
    ensures forall i, j :: 0 <= i < j < |Keys(s, n, g)| ==> Keys(s, n, g)[i] != Keys(s, n, g)[j]
  {
    if n > 0 { KeysDistinct(s, n - 1, g); }
  }

  /** The keys are exactly those with members. */
  lemma {:induction false} KeysMembers(s: seq<FuelRecord>, n: nat, g: Grouping, k: string)
    requires n <= |s|
    ensures k in Keys(s, n, g) <==> Members(s, n, g, k) != []
  {
    if n > 0 { KeysMembers(s, n - 1, g, k); }
  }

  /** A group's count is its number of members. */
  lemma {:induction false} GroupCount(s: seq<FuelRecord>, n: nat, g: Grouping, k: string)
    requires n <= |s|
    ensures GroupSum(s, n, g, k, Count) == |Members(s, n, g, k)| as real
  {
    if n > 0 { GroupCount(s, n - 1, g, k); }
  }

  lemma {:induction false} TotalCount(s: seq<FuelRecord>, n: nat)
    requires n <= |s|
    ensures Total(s, n, Count) == n as real
  {
    if n > 0 { TotalCount(s, n - 1); }
  }

  /** The costs and amounts summed by position are the record-by-record sums (`reduce`). */
  lemma {:induction false} TotalIsSumBy(s: seq<FuelRecord>, n: nat)
    requires n <= |s|
    ensures Total(s, n, Cost) == SumBy(s[..n], CostOf)
    ensures Total(s, n, Amount) == SumBy(s[..n], AmountOf)
  {
    if n > 0 {
      TotalIsSumBy(s, n - 1);
      assert s[..n][..n - 1] == s[..n - 1];
    }
  }

  /** Every record has fuel, so a non-empty list has a positive total amount. */
  lemma {:induction false} AmountSumPositive(s: seq<FuelRecord>)
    ensures s != [] ==> SumBy(s, AmountOf) > 0.0
    ensures SumBy(s, AmountOf) >= 0.0
  {
    if s != [] { AmountSumPositive(s[..|s| - 1]); }
  }

  /** A group with members has a positive amount, since every record has. */
  lemma {:induction false} GroupAmountPositive(s: seq<FuelRecord>, n: nat, g: Grouping, k: string)
    requires n <= |s|
    ensures GroupSum(s, n, g, k, Amount) >= 0.0
    ensures Members(s, n, g, k) != [] ==> GroupSum(s, n, g, k, Amount) > 0.0
  {
    if n > 0 { GroupAmountPositive(s, n - 1, g, k); }
  }

  /** Measures that are never negative have non-negative group sums. */
  lemma {:induction false} GroupSumNonNegative(s: seq<FuelRecord>, n: nat, g: Grouping, k: string, m: Measure)
    requires n <= |s|
    requires m in {Count, Amount, DistanceIn, DistanceOut}
    ensures GroupSum(s, n, g, k, m) >= 0.0
  {
    if n > 0 { GroupSumNonNegative(s, n - 1, g, k, m); }
  }

  lemma {:induction false} EmptyGroupSum(s: seq<FuelRecord>, n: nat, g: Grouping, k: string, m: Measure)
    requires n <= |s| && Members(s, n, g, k) == []
    ensures GroupSum(s, n, g, k, m) == 0.0
  {
    if n > 0 { EmptyGroupSum(s, n - 1, g, k, m); }
  }

  /** Adding record `n - 1` changes the sum over distinct keys by its value, if its key is listed. */
  lemma {:induction false} SumKeysStep(s: seq<FuelRecord>, n: nat, g: Grouping, ks: seq<string>, m: Measure)
    requires 0 < n <= |s|
    requires forall i, j :: 0 <= i < j < |ks| ==> ks[i] != ks[j]
    ensures SumKeys(s, n, g, ks, m)
         == SumKeys(s, n - 1, g, ks, m) + (if KeyOf(s[n - 1], g) in ks then Value(s, n - 1, m) else 0.0)
  {
    if ks != [] {
      var init := ks[..|ks| - 1];
      SumKeysStep(s, n, g, init, m);
      assert ks == init + [ks[|ks| - 1]];
      assert KeyOf(s[n - 1], g) in ks <==> KeyOf(s[n - 1], g) in init || KeyOf(s[n - 1], g) == ks[|ks| - 1];
      assert KeyOf(s[n - 1], g) == ks[|ks| - 1] ==> KeyOf(s[n - 1], g) !in init;
    }
  }

  /** The group sums over all distinct keys add up to the overall total. */
  lemma {:induction false} SumOfGroups(s: seq<FuelRecord>, n: nat, g: Grouping, m: Measure)
    requires n <= |s|
    ensures SumKeys(s, n, g, Keys(s, n, g), m) == Total(s, n, m)
  {
    if n > 0 {
      SumOfGroups(s, n - 1, g, m);
      KeysStep(s, n, g, m);
    }
  }

  /** Adding record `n - 1` adds its value to the sum over the distinct keys. */
  lemma KeysStep(s: seq<FuelRecord>, n: nat, g: Grouping, m: Measure)
    requires 0 < n <= |s|
    ensures SumKeys(s, n, g, Keys(s, n, g), m) == SumKeys(s, n - 1, g, Keys(s, n - 1, g), m) + Value(s, n - 1, m)
  {
    var ks := Keys(s, n - 1, g);
    var k := KeyOf(s[n - 1], g);
    KeysDistinct(s, n - 1, g);
    SumKeysStep(s, n, g, ks, m);
    if k !in ks {
      KeysMembers(s, n - 1, g, k);
      NewKeyStep(s, n, g, ks, m);
    }
  }

  /** A record with a new key opens a group holding just its value. */
  lemma NewKeyStep(s: seq<FuelRecord>, n: nat, g: Grouping, ks: seq<string>, m: Measure)
    requires 0 < n <= |s| && Members(s, n - 1, g, KeyOf(s[n - 1], g)) == []
    ensures SumKeys(s, n, g, ks + [KeyOf(s[n - 1], g)], m) == SumKeys(s, n, g, ks, m) + Value(s, n - 1, m)
  {
    var k := KeyOf(s[n - 1], g);
    EmptyGroupSum(s, n - 1, g, k, m);
    assert GroupSum(s, n, g, k, m) == Value(s, n - 1, m);
    assert (ks + [k])[..|ks|] == ks;
  }

  /** Every record's key is among the keys. */
  lemma {:induction false} InKeys(s: seq<FuelRecord>, n: nat, g: Grouping, j: nat)
    requires j < n <= |s|
    ensures KeyOf(s[j], g) in Keys(s, n, g)
  {
    if j < n - 1 { InKeys(s, n - 1, g, j); }
  }

  /** Each key is the key of some record. */
  lemma KeyHasRecord(s: seq<FuelRecord>, n: nat, g: Grouping, k: string)
    requires n <= |s| && k in Keys(s, n, g)
    ensures exists j :: 0 <= j < n && KeyOf(s[j], g) == k
  {
    KeysMembers(s, n, g, k);
    var ms := Members(s, n, g, k);
    assert KeyOf(s[ms[0]], g) == k;
  }

  /** The running totals that the accumulating loops keep for one key. */
  datatype Tally = Tally(count: nat, cost: real, amount: real, distance: real)

  /** The tally of key `k` after the first `n` records, counting distance by measure `d`. */
  function TallyOf(s: seq<FuelRecord>, n: nat, g: Grouping, k: string, d: Measure): Tally
    requires n <= |s|
  {
    if n == 0 then Tally(0, 0.0, 0.0, 0.0)
    else
      var t := TallyOf(s, n - 1, g, k, d);
      if KeyOf(s[n - 1], g) == k
      then Tally(t.count + 1, t.cost + s[n - 1].cost, t.amount + s[n - 1].amount, t.distance + Value(s, n - 1, d))
      else t
  }

  /** A tally holds its key's member count and group sums. */
  lemma {:induction false} TallyIsGroupSums(s: seq<FuelRecord>, n: nat, g: Grouping, k: string, d: Measure)
    requires n <= |s|
    ensures TallyOf(s, n, g, k, d)
         == Tally(|Members(s, n, g, k)|, GroupSum(s, n, g, k, Cost), GroupSum(s, n, g, k, Amount), GroupSum(s, n, g, k, d))
  {
    if n > 0 { TallyIsGroupSums(s, n - 1, g, k, d); }
  }

  /** A sum over per-key entries, each carrying its key's group sum, is the sum over the keys. */
  lemma {:induction false} SumByGroups<E>(s: seq<FuelRecord>, n: nat, g: Grouping, ks: seq<string>, m: Measure,
                                          entries: seq<E>, f: E -> real)
    requires n <= |s| && |entries| == |ks|
    requires forall i :: 0 <= i < |ks| ==> f(entries[i]) == GroupSum(s, n, g, ks[i], m)
    ensures SumBy(entries, f) == SumKeys(s, n, g, ks, m)
  {
    if ks != [] {
      SumByGroups(s, n, g, ks[..|ks| - 1], m, entries[..|entries| - 1], f);
    }
  }

  /** Crediting each positive leg to the arriving record, counts the distance driven. */
  lemma {:induction false} DistanceInTotal(s: seq<FuelRecord>, n: nat)
    requires n <= |s|
    ensures Total(s, n, DistanceIn) == Distance(s[..n])
  {
    if n > 0 {
      DistanceInTotal(s, n - 1);
      assert s[..n][..n - 1] == s[..n - 1];
    }
  }

  /** Crediting each positive leg to the departing record also counts the distance driven. */
  lemma {:induction false} DistanceOutTotal(s: seq<FuelRecord>, n: nat)
    requires n <= |s|
    ensures n < |s| ==> Total(s, n, DistanceOut) == Distance(s[..n + 1])
    ensures n == |s| ==> Total(s, n, DistanceOut) == Distance(s)
  {
    if n == 0 {
      if |s| > 0 { assert Distance(s[..1]) == Distance(s[..1][..0]) + Leg(s[..1], 0); }
    } else if n < |s| {
      DistanceOutTotal(s, n - 1);
      assert s[..n + 1][..n] == s[..n];
    } else {
      DistanceOutTotal(s, n - 1);
      assert s[..n] == s;
    }
  }

  /** A key the loop has not met yet has the empty tally. */
  lemma {:induction false} NewTally(s: seq<FuelRecord>, n: nat, g: Grouping, k: string, d: Measure)
    requires n <= |s| && k !in Keys(s, n, g)
    ensures TallyOf(s, n, g, k, d) == Tally(0, 0.0, 0.0, 0.0)
  {
    if n > 0 {
      assert k !in Keys(s, n - 1, g);
      NewTally(s, n - 1, g, k, d);
    }
  }

  /** Every key of the first `n` records has a positive amount. */
  lemma KeysHaveFuel(s: seq<FuelRecord>, n: nat, g: Grouping, d: Measure)
    requires n <= |s|
    ensures forall k :: k in Keys(s, n, g) ==> TallyOf(s, n, g, k, d).amount > 0.0
  {
    forall k | k in Keys(s, n, g) ensures TallyOf(s, n, g, k, d).amount > 0.0 {
      KeysMembers(s, n, g, k);
      GroupAmountPositive(s, n, g, k);
      TallyIsGroupSums(s, n, g, k, d);
    }
  }

  lemma {:induction false} TotalAmountPositive(s: seq<FuelRecord>, n: nat)
    requires 0 < n <= |s|
    ensures Total(s, n, Amount) > 0.0
  {
    if n > 1 { TotalAmountPositive(s, n - 1); }
  }

  /**
   * The accumulator map of a grouping loop after the first `n` records: a tally for each key
   * met so far.
   */
  function TalliesAt(s: seq<FuelRecord>, n: nat, g: Grouping, d: Measure): (m: map<string, Tally>)
    requires n <= |s|
    ensures forall k :: k in m <==> k in Keys(s, n, g)
    ensures forall k :: k in m ==> m[k] == TallyOf(s, n, g, k, d)
  {
    map k | k in Keys(s, n, g) :: TallyOf(s, n, g, k, d)
  }

  /** Record `n` joins the keys if it brings a new one. */
  lemma KeysNext(s: seq<FuelRecord>, n: nat, g: Grouping, k: string)
    requires n < |s|
    ensures k in Keys(s, n + 1, g) <==> k in Keys(s, n, g) || k == KeyOf(s[n], g)
  {
  }

  /** Record `n` changes only the tally of its own key. */
  lemma TalliesNext(s: seq<FuelRecord>, n: nat, g: Grouping, d: Measure)
    requires n < |s|
    ensures var k := KeyOf(s[n], g);
      TalliesAt(s, n, g, d)[k := TallyOf(s, n + 1, g, k, d)] == TalliesAt(s, n + 1, g, d)
  {
    var k, m, m' := KeyOf(s[n], g), TalliesAt(s, n, g, d), TalliesAt(s, n + 1, g, d);
    forall k' ensures k' in m' <==> k' in m || k' == k {
      KeysNext(s, n, g, k');
    }
    forall k' | k' in m' && k' != k ensures k' in m && m'[k'] == m[k'] {
      KeysNext(s, n, g, k');
    }
    MapUpdate(m, m', k, TallyOf(s, n + 1, g, k, d));
  }

  lemma MapUpdate<K, V>(m: map<K, V>, m': map<K, V>, k: K, v: V)
    requires forall k' :: k' in m' <==> k' in m || k' == k
    requires k in m' && m'[k] == v
    requires forall k' :: k' in m' && k' != k ==> m'[k'] == m[k']
    ensures m[k := v] == m'
  {
  }

  /**
   * Opening record `n`'s tally if its key is new (giving `acc`) and then storing `t`, the
   * tally with the record added, gives the next map.
   */
  lemma TalliesStep(s: seq<FuelRecord>, n: nat, g: Grouping, d: Measure, acc: map<string, Tally>, t: Tally)
    requires n < |s|
    requires var k, m := KeyOf(s[n], g), TalliesAt(s, n, g, d);
      acc == if k in m then m else m[k := Tally(0, 0.0, 0.0, 0.0)]
    requires var before := acc[KeyOf(s[n], g)];
      t == Tally(before.count + 1, before.cost + s[n].cost, before.amount + s[n].amount, before.distance + Value(s, n, d))
    ensures acc[KeyOf(s[n], g) := t] == TalliesAt(s, n + 1, g, d)
  {
    var k, m := KeyOf(s[n], g), TalliesAt(s, n, g, d);
    if k !in m { NewTally(s, n, g, k, d); }
    assert t == TallyOf(s, n + 1, g, k, d);
    assert acc[k := t] == m[k := t];
    TalliesNext(s, n, g, d);
  }

  /** The tallies of all keys after the whole list. */
  function TalliesOf(s: seq<FuelRecord>, g: Grouping, d: Measure): (m: map<string, Tally>)
    ensures forall k :: k in m <==> k in Keys(s, |s|, g)
    ensures forall k :: k in m ==> m[k] == TallyOf(s, |s|, g, k, d) && m[k].amount > 0.0
  {
    KeysHaveFuel(s, |s|, g, d);
    TalliesAt(s, |s|, g, d)
  }

  /** The date of the last record of key `k` among the first `n` (`lastVisit`), "" before any. */
  function LastDate(s: seq<FuelRecord>, n: nat, g: Grouping, k: string): string
    requires n <= |s|
  {
    if n == 0 then ""
    else if KeyOf(s[n - 1], g) == k then s[n - 1].date
    else LastDate(s, n - 1, g, k)
  }

  /** The last date of a key is the date of one of its records, after which none of its records follows. */
  lemma {:induction false} LastDateIsLast(s: seq<FuelRecord>, n: nat, g: Grouping, k: string)
    requires n <= |s| && k in Keys(s, n, g)
    ensures exists j :: (0 <= j < n && KeyOf(s[j], g) == k && LastDate(s, n, g, k) == s[j].date
                         && forall q :: j < q < n ==> KeyOf(s[q], g) != k)
  {
    if KeyOf(s[n - 1], g) != k {
      LastDateIsLast(s, n - 1, g, k);
      var j :| 0 <= j < n - 1 && KeyOf(s[j], g) == k && LastDate(s, n - 1, g, k) == s[j].date
        && forall q :: j < q < n - 1 ==> KeyOf(s[q], g) != k;
      assert forall q :: j < q < n ==> KeyOf(s[q], g) != k;
    }
  }

  /** In a date-ordered list, no record of a key is later than the key's last date. */
  lemma {:induction false} LastDateIsLatest(s: seq<FuelRecord>, n: nat, g: Grouping, j: nat)
    requires j < n <= |s|
    requires forall a, b :: 0 <= a < b < |s| ==> LexLe(s[a].date, s[b].date)
    ensures LexLe(s[j].date, LastDate(s, n, g, KeyOf(s[j], g)))
  {
    if KeyOf(s[n - 1], g) == KeyOf(s[j], g) {
      if j == n - 1 { LexLeTotal(s[j].date, s[j].date); }
    } else {
      LastDateIsLatest(s, n - 1, g, j);
    }
  }

  /** The last dates kept by a loop after the first `n` records, one per key met. */
  function LastDates(s: seq<FuelRecord>, n: nat, g: Grouping): (m: map<string, string>)
    requires n <= |s|
    ensures forall k :: k in m <==> k in Keys(s, n, g)
    ensures forall k :: k in m ==> m[k] == LastDate(s, n, g, k)
  {
    map k | k in Keys(s, n, g) :: LastDate(s, n, g, k)
  }

  /** Recording the date of record `n` under its key gives the next map of last dates. */
  lemma LastDatesStep(s: seq<FuelRecord>, n: nat, g: Grouping)
    requires n < |s|
    ensures LastDates(s, n, g)[KeyOf(s[n], g) := s[n].date] == LastDates(s, n + 1, g)
  {
  }

  // ---------------------------------------------------------------------------------------------
  // Accumulators of any shape: the object a loop opens with `open(key)` the first time it meets
  // a key (`if (!map[key]) map[key] = {...}`) and then updates with `add` for each of the key's
  // records, given the record and the one before it in the list (`records[index - 1]`).

  /** The accumulator of key `k` after the first `n` records. */
  function Bucket<B>(s: seq<FuelRecord>, n: nat, g: Grouping, k: string, open: string -> B,
                     add: (B, FuelRecord, Option<FuelRecord>) -> B): B
    requires n <= |s|
  {
    if n == 0 then open(k)
    else
      var b := Bucket(s, n - 1, g, k, open, add);
      if KeyOf(s[n - 1], g) == k then add(b, s[n - 1], Previous(s, n - 1)) else b
  }

  /** The accumulator map after the first `n` records: one accumulator for each key met. */
  function BucketsAt<B>(s: seq<FuelRecord>, n: nat, g: Grouping, open: string -> B,
                        add: (B, FuelRecord, Option<FuelRecord>) -> B): (m: map<string, B>)
    requires n <= |s|
    ensures forall k :: k in m <==> k in Keys(s, n, g)
    ensures forall k :: k in m ==> m[k] == Bucket(s, n, g, k, open, add)
  {
    map k | k in Keys(s, n, g) :: Bucket(s, n, g, k, open, add)
  }

  /** A key the loop has not met yet still has its opening value. */
  lemma {:induction false} NewBucket<B>(s: seq<FuelRecord>, n: nat, g: Grouping, k: string, open: string -> B,
                                        add: (B, FuelRecord, Option<FuelRecord>) -> B)
    requires n <= |s| && k !in Keys(s, n, g)
    ensures Bucket(s, n, g, k, open, add) == open(k)
  {
    if n > 0 {
      assert k !in Keys(s, n - 1, g);
      NewBucket(s, n - 1, g, k, open, add);
    }
  }

  /**
   * Opening record `n`'s accumulator if its key is new (giving `acc`) and then storing `b`,
   * that accumulator with the record added, gives the next map.
   */
  lemma BucketsStep<B>(s: seq<FuelRecord>, n: nat, g: Grouping, open: string -> B,
                       add: (B, FuelRecord, Option<FuelRecord>) -> B, acc: map<string, B>, b: B)
    requires n < |s|
    requires var k, m := KeyOf(s[n], g), BucketsAt(s, n, g, open, add);
      acc == if k in m then m else m[k := open(k)]
    requires b == add(acc[KeyOf(s[n], g)], s[n], Previous(s, n))
    ensures acc[KeyOf(s[n], g) := b] == BucketsAt(s, n + 1, g, open, add)
  {
    var k, m, m' := KeyOf(s[n], g), BucketsAt(s, n, g, open, add), BucketsAt(s, n + 1, g, open, add);
    if k !in m { NewBucket(s, n, g, k, open, add); }
    assert b == Bucket(s, n + 1, g, k, open, add);
    forall k' ensures k' in m' <==> k' in m || k' == k {
      KeysNext(s, n, g, k');
    }
    forall k' | k' in m' && k' != k ensures k' in m && m'[k'] == m[k'] {
      KeysNext(s, n, g, k');
    }
    assert acc[k := b] == m[k := b];
    MapUpdate(m, m', k, b);
  }

  // ---------------------------------------------------------------------------------------------
  // The per-key entries built from an accumulator (`Object.entries(map).map(...)` or
  // `Object.values(map).map(...)`) and then sorted.

  function Entries<A, E>(keys: seq<string>, acc: map<string, A>, entry: (string, A) --> E): (r: seq<E>)
    requires forall k :: k in keys ==> k in acc && entry.requires(k, acc[k])
    ensures |r| == |keys|
    ensures forall i :: 0 <= i < |keys| ==> r[i] == entry(keys[i], acc[keys[i]])
  {
    seq(|keys|, i requires 0 <= i < |keys| => entry(keys[i], acc[keys[i]]))
  }

  /** The conditions under which sorted entries form a view of the grouping `g` of `s`. */
  ghost predicate IsView<A, E>(s: seq<FuelRecord>, g: Grouping, keys: seq<string>, acc: map<string, A>,
                               entry: (string, A) --> E, key: E -> string)
  {
    && keys == Keys(s, |s|, g)
    && (forall k :: k in keys ==> k in acc && entry.requires(k, acc[k]))
    && (forall i :: 0 <= i < |keys| ==> key(entry(keys[i], acc[keys[i]])) == keys[i])
  }

  /** Sorted entries carry each key once, with the entry built from that key's accumulator. */
  lemma ViewEntries<A, E>(s: seq<FuelRecord>, g: Grouping, keys: seq<string>, acc: map<string, A>,
                          entry: (string, A) --> E, key: E -> string, le: (E, E) -> bool)
    requires IsView(s, g, keys, acc, entry, key)
    ensures var r := SortBy(Entries(keys, acc, entry), le);
      && |r| == |keys|
      && (forall i :: 0 <= i < |r| ==> key(r[i]) in keys && r[i] == entry(key(r[i]), acc[key(r[i])]))
      && DistinctKeys(r, key)
  {
    var entries := Entries(keys, acc, entry);
    var r := SortBy(entries, le);
    forall i | 0 <= i < |r| ensures key(r[i]) in keys && r[i] == entry(key(r[i]), acc[key(r[i])]) {
      assert r[i] in multiset(entries);
      var q :| 0 <= q < |entries| && entries[q] == r[i];
    }
    KeysDistinct(s, |s|, g);
    assert DistinctKeys(entries, key);
    DistinctKeysPermutation(entries, r, key);
  }

  /** A record's key has an entry among the (sorted) entries. */
  lemma KeyHasEntry<A, E>(s: seq<FuelRecord>, g: Grouping, keys: seq<string>, acc: map<string, A>,
                          entry: (string, A) --> E, key: E -> string, r: seq<E>, j: nat)
    requires IsView(s, g, keys, acc, entry, key) && j < |s|
    requires multiset(r) == multiset(Entries(keys, acc, entry))
    ensures exists i :: 0 <= i < |r| && key(r[i]) == KeyOf(s[j], g)
  {
    var entries := Entries(keys, acc, entry);
    InKeys(s, |s|, g, j);
    var q :| 0 <= q < |keys| && keys[q] == KeyOf(s[j], g);
    assert entries[q] in multiset(r);
    var i :| 0 <= i < |r| && r[i] == entries[q];
  }

  /** An entry's key is the key of some record. */
  lemma EntryHasRecord<A, E>(s: seq<FuelRecord>, g: Grouping, keys: seq<string>, acc: map<string, A>,
                             entry: (string, A) --> E, key: E -> string, r: seq<E>, i: nat)
    requires IsView(s, g, keys, acc, entry, key) && i < |r|
    requires multiset(r) == multiset(Entries(keys, acc, entry))
    ensures exists j :: 0 <= j < |s| && KeyOf(s[j], g) == key(r[i])
  {
    var entries := Entries(keys, acc, entry);
    assert r[i] in multiset(entries);
    var q :| 0 <= q < |entries| && entries[q] == r[i];
    KeyHasRecord(s, |s|, g, keys[q]);
  }
  /** The keys of a view's entries are exactly the keys of the records. */
  lemma ViewCover<A, E>(s: seq<FuelRecord>, g: Grouping, keys: seq<string>, acc: map<string, A>,
                        entry: (string, A) --> E, key: E -> string, r: seq<E>)
    requires IsView(s, g, keys, acc, entry, key)
    requires multiset(r) == multiset(Entries(keys, acc, entry))
    ensures (set e | e in r :: key(e)) == (set x | x in s :: KeyOf(x, g))
  {
    var entryKeys := set e | e in r :: key(e);
    var recordKeys := set x | x in s :: KeyOf(x, g);
    forall k | k in recordKeys ensures k in entryKeys {
      var j :| 0 <= j < |s| && KeyOf(s[j], g) == k;
      KeyHasEntry(s, g, keys, acc, entry, key, r, j);
      var i :| 0 <= i < |r| && key(r[i]) == k;
      assert r[i] in r;
    }
    forall k | k in entryKeys ensures k in recordKeys {
      var i :| 0 <= i < |r| && key(r[i]) == k;
      EntryHasRecord(s, g, keys, acc, entry, key, r, i);
      var j :| 0 <= j < |s| && KeyOf(s[j], g) == k;
      assert s[j] in s;
    }
  }


  /** Summing a figure over the entries gives the overall total when each entry carries its group sum. */
  lemma ViewSum<A, E>(s: seq<FuelRecord>, g: Grouping, keys: seq<string>, acc: map<string, A>,
                      entry: (string, A) --> E, le: (E, E) -> bool, m: Measure, f: E -> real)
    requires keys == Keys(s, |s|, g)
    requires forall k :: k in keys ==> k in acc && entry.requires(k, acc[k])
    requires forall k :: k in keys ==> f(entry(k, acc[k])) == GroupSum(s, |s|, g, k, m)
    ensures SumBy(SortBy(Entries(keys, acc, entry), le), f) == Total(s, |s|, m)
  {
    var entries := Entries(keys, acc, entry);
    SumByPermutation(SortBy(entries, le), entries, f);
    SumByGroups(s, |s|, g, keys, m, entries, f);
    SumOfGroups(s, |s|, g, m);
  }
}
