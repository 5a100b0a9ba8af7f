/** Hour-by-hour consolidation of the raw price entries (`run()` in
    examples/print_elec_prices.py): entries are grouped by the first 13 characters of
    `time_start`, each group is averaged, and one entry per hour is emitted in sorted
    key order, stamped `hour + ":00:00"`. */
module Consolidate {
  import opened Numbers
  import opened Strings
  import opened Seqs

  /** A price record: `{'time_start': ..., 'SEK_per_kWh': ...}`. */
  datatype Entry = Entry(timeStart: string, price: real)

  const HourKeyLength: nat := 13
  const HourSuffix := ":00:00"

  /** `t[:13]`, the "YYYY-MM-DDTHH" hour key; a shorter string is its own key. */
  function HourKey(t: string): (hour: string)
    ensures hour <= t
    ensures |hour| == if |t| < HourKeyLength then |t| else HourKeyLength
  {
    Slice(t, 0, HourKeyLength)
  }

  /** `hour + ":00:00"`, the `time_start` of a consolidated entry. */
  function Stamp(hour: string): (t: string)
    ensures |hour| == HourKeyLength ==> HourKey(t) == hour
    ensures StartsWith(t, hour)
  {
    hour + HourSuffix
  }

  /** Stamping is injective: two hours get the same `time_start` only if they are equal. */
  lemma StampInjective(a: string, b: string)
    requires Stamp(a) == Stamp(b)
    ensures a == b
  {
    assert |a| == |b|;
    assert Stamp(a)[..|a|] == a;
    assert Stamp(b)[..|b|] == b;
  }

  /** The hour keys present in the input. */
  function KeySet(entries: seq<Entry>): set<string>
  {
    set e | e in entries :: HourKey(e.timeStart)
  }

  lemma KeySetSnoc(entries: seq<Entry>)
    requires entries != []
    ensures KeySet(entries) == KeySet(entries[..|entries| - 1]) + {HourKey(entries[|entries| - 1].timeStart)}
  {
    var n := |entries| - 1;
    assert entries == entries[..n] + [entries[n]];
  }

  /** The list `hour_prices[hour]` after the grouping loop: the prices of the entries
      whose hour key is `hour`, in input order. */
  function PricesFor(entries: seq<Entry>, hour: string): seq<real>
  {
    if entries == [] then []
    else
      var last := entries[|entries| - 1];
      PricesFor(entries[..|entries| - 1], hour) + if HourKey(last.timeStart) == hour then [last.price] else []
  }

  /** The keys of `hour_prices` in the order the grouping loop first inserts them. */
  function DistinctKeys(entries: seq<Entry>): (hours: seq<string>)
    ensures Distinct(hours)
    ensures forall h :: h in hours <==> |PricesFor(entries, h)| > 0
  {
    if entries == [] then []
    else
      var seen := DistinctKeys(entries[..|entries| - 1]);
      var hour := HourKey(entries[|entries| - 1].timeStart);
      if hour in seen then seen else seen + [hour]
  }

  predicate Distinct(hours: seq<string>)
  {
    forall i, j :: 0 <= i < j < |hours| ==> hours[i] != hours[j]
  }

  predicate StrictlyAscending(hours: seq<string>)
  {
    forall i, j :: 0 <= i < j < |hours| ==> Less(hours[i], hours[j])
  }

  /** A series whose `time_start` values strictly ascend in Python's string order. */
  predicate Ascending(series: seq<Entry>)
  {
    forall i, j :: 0 <= i < j < |series| ==> Less(series[i].timeStart, series[j].timeStart)
  }

  function Insert(hour: string, hours: seq<string>): (r: seq<string>)
    ensures multiset(r) == multiset(hours) + multiset{hour}
  {
    if hours == [] || Less(hour, hours[0]) then [hour] + hours
    else
      assert hours == [hours[0]] + hours[1..];
      [hours[0]] + Insert(hour, hours[1..])
  }

  /** `sorted(...)` on a list of strings. */
  function SortStrings(hours: seq<string>): (r: seq<string>)
    ensures multiset(r) == multiset(hours)
  {
    if hours == [] then []
    else
      assert hours == [hours[0]] + hours[1..];
      Insert(hours[0], SortStrings(hours[1..]))
  }

  /** `sorted(hour_prices)`. */
  function SortedHours(entries: seq<Entry>): (hours: seq<string>)
    ensures forall h :: h in hours ==> |PricesFor(entries, h)| > 0
  {
    var hs := SortStrings(DistinctKeys(entries));
    assert forall h :: h in hs ==> h in multiset(DistinctKeys(entries));
    hs
  }

  /** The list `consolidated` that the second loop of the consolidation builds. */
  function Consolidation(entries: seq<Entry>): seq<Entry>
  {
    var hours := SortedHours(entries);
    seq(|hours|, j requires 0 <= j < |hours| => Entry(Stamp(hours[j]), Mean(PricesFor(entries, hours[j]))))
  }

  /** The grouping loop: `hour_prices[t[:13]].append(price)` for every entry, keeping
      the dictionary's keys in insertion order beside it. */
  method GroupByHour(entries: seq<Entry>) returns (hourPrices: map<string, seq<real>>, hours: seq<string>)
    ensures hours == DistinctKeys(entries)
    ensures forall h :: h in hourPrices <==> h in hours
    ensures forall h :: h in hourPrices ==> hourPrices[h] == PricesFor(entries, h)
  {
    hourPrices := map[];
    hours := [];
    var i := 0;
    while i < |entries|
      invariant 0 <= i <= |entries|
      invariant hours == DistinctKeys(entries[..i])
      invariant forall h :: h in hourPrices <==> h in hours
      invariant forall h :: h in hourPrices ==> hourPrices[h] == PricesFor(entries[..i], h)
    {
      ghost var done := entries[..i + 1];
      assert done[..i] == entries[..i] && done[i] == entries[i];
      var hour := HourKey(entries[i].timeStart);
      if hour !in hourPrices {
        hourPrices := hourPrices[hour := []];
        hours := hours + [hour];
      }
      hourPrices := hourPrices[hour := hourPrices[hour] + [entries[i].price]];
      i := i + 1;
    }
    assert entries[..i] == entries;
  }

  /** The two consolidation loops: group the prices by hour key into a dictionary,
      then emit one averaged entry per key in sorted key order. */
  method ConsolidateHours(entries: seq<Entry>) returns (consolidated: seq<Entry>)
    ensures consolidated == Consolidation(entries)
  {
    var hourPrices, hours := GroupByHour(entries);
    var sortedHours := SortStrings(hours);
    forall h | h in sortedHours ensures h in hourPrices && |hourPrices[h]| > 0 {
      assert h in multiset(hours);
    }
    consolidated := AverageHours(hourPrices, sortedHours);
    forall j | 0 <= j < |sortedHours| ensures consolidated[j] == Consolidation(entries)[j] {
      ConsolidationAt(entries, j);
    }
    assert |Consolidation(entries)| == |sortedHours|;
  }

  /** The second loop: one entry per hour, stamped on the hour, priced at the average. */
  method AverageHours(hourPrices: map<string, seq<real>>, sortedHours: seq<string>)
    returns (consolidated: seq<Entry>)
    requires forall h :: h in sortedHours ==> h in hourPrices && |hourPrices[h]| > 0
    ensures |consolidated| == |sortedHours|
    ensures forall j :: 0 <= j < |sortedHours| ==>
      consolidated[j] == Entry(Stamp(sortedHours[j]), Mean(hourPrices[sortedHours[j]]))
  {
    consolidated := [];
    for j := 0 to |sortedHours|
      invariant |consolidated| == j
      invariant forall k :: 0 <= k < j ==>
        consolidated[k] == Entry(Stamp(sortedHours[k]), Mean(hourPrices[sortedHours[k]]))
    {
      var hour := sortedHours[j];
      var prices := hourPrices[hour];
      var avgPrice := Mean(prices);
      consolidated := consolidated + [Entry(Stamp(hour), avgPrice)];
    }
  }

  lemma ConsolidationAt(entries: seq<Entry>, j: nat)
    requires j < |SortedHours(entries)|
    ensures |Consolidation(entries)| == |SortedHours(entries)|
    ensures var hour := SortedHours(entries)[j];
      Consolidation(entries)[j] == Entry(Stamp(hour), Mean(PricesFor(entries, hour)))
  {
  }

  // ----- What the consolidation promises -----

  lemma {:induction false} DistinctKeysAreKeySet(entries: seq<Entry>)
    ensures forall h :: h in DistinctKeys(entries) <==> h in KeySet(entries)
  {
    if entries != [] {
      DistinctKeysAreKeySet(entries[..|entries| - 1]);
      KeySetSnoc(entries);
    }
  }

  lemma {:induction false} InsertAscending(hour: string, hours: seq<string>)
    requires StrictlyAscending(hours) && hour !in hours
    ensures StrictlyAscending(Insert(hour, hours))
  {
    if hours == [] || Less(hour, hours[0]) {
      forall j | 0 <= j < |hours| ensures Less(hour, hours[j]) {
        if j > 0 {
          LessTransitive(hour, hours[0], hours[j]);
        }
      }
    } else {
      LessTotal(hour, hours[0]);
      InsertAscending(hour, hours[1..]);
      var rest := Insert(hour, hours[1..]);
      forall k | 0 <= k < |rest| ensures Less(hours[0], rest[k]) {
        assert rest[k] in multiset(rest);
        if rest[k] != hour {
          assert rest[k] in hours[1..];
        }
      }
      var r := [hours[0]] + rest;
      forall i, j | 0 <= i < j < |r| ensures Less(r[i], r[j]) {
        if i > 0 {
          assert r[i] == rest[i - 1] && r[j] == rest[j - 1];
        }
      }
    }
  }

  lemma {:induction false} SortStringsAscending(hours: seq<string>)
    requires Distinct(hours)
    ensures StrictlyAscending(SortStrings(hours))
  {
    if hours != [] {
      var rest := hours[1..];
      assert Distinct(rest) by {
        forall i, j | 0 <= i < j < |rest| ensures rest[i] != rest[j] {
          assert rest[i] == hours[i + 1] && rest[j] == hours[j + 1];
        }
      }
      SortStringsAscending(rest);
      assert hours[0] !in rest;
      assert hours[0] !in multiset(SortStrings(rest));
      InsertAscending(hours[0], SortStrings(rest));
    }
  }

  /** Hour keys come out pairwise distinct and strictly ascending, whatever the input
      order, and they are exactly the hour keys present in the input. */
  lemma SortedHoursAreKeys(entries: seq<Entry>)
    ensures StrictlyAscending(SortedHours(entries))
    ensures forall h :: h in SortedHours(entries) <==> h in KeySet(entries)
  {
    SortStringsAscending(DistinctKeys(entries));
    DistinctKeysAreKeySet(entries);
    var hs := SortedHours(entries);
    assert forall h :: h in hs <==> h in multiset(DistinctKeys(entries));
  }

  /** Each consolidated entry is stamped with an input hour key and priced at the
      arithmetic mean (see `Numbers.Mean`) of every input price whose key is that
      hour, so it lies between the lowest and the highest of those prices. */
  lemma ConsolidatedPriceIsMean(entries: seq<Entry>, j: nat)
    requires j < |Consolidation(entries)|
    ensures var hour := SortedHours(entries)[j];
      && hour in KeySet(entries)
      && Consolidation(entries)[j].timeStart == Stamp(hour)
      && Consolidation(entries)[j].price == Mean(PricesFor(entries, hour))
      && Min(PricesFor(entries, hour)) <= Consolidation(entries)[j].price <= Max(PricesFor(entries, hour))
  {
    SortedHoursAreKeys(entries);
    var ps := PricesFor(entries, SortedHours(entries)[j]);
    MeanBounds(ps, Min(ps), Max(ps));
  }

  /** The `time_start` values of the consolidated series are exactly the stamped input
      hour keys, none of them twice; no input, no output. */
  lemma ConsolidationKeys(entries: seq<Entry>)
    ensures (set e | e in Consolidation(entries) :: e.timeStart) == (set h | h in KeySet(entries) :: Stamp(h))
    ensures forall i, j :: 0 <= i < j < |Consolidation(entries)| ==>
      Consolidation(entries)[i].timeStart != Consolidation(entries)[j].timeStart
    ensures entries == [] ==> Consolidation(entries) == []
  {
    SortedHoursAreKeys(entries);
    var r := Consolidation(entries);
    var hs := SortedHours(entries);
    forall i, j | 0 <= i < j < |r| ensures r[i].timeStart != r[j].timeStart {
      LessIrreflexive(hs[i]);
      if r[i].timeStart == r[j].timeStart {
        StampInjective(hs[i], hs[j]);
      }
    }
    forall h | h in KeySet(entries) ensures Stamp(h) in (set e | e in r :: e.timeStart) {
      var j :| 0 <= j < |hs| && hs[j] == h;
      assert r[j].timeStart == Stamp(h);
    }
  }

  /** When every `time_start` of the input has at least the 13 characters of an hour
      key, the consolidated series strictly ascends in time. (A shorter time string
      would make a shorter key, and `":"` sorts after the digits.) */
  lemma ConsolidationAscending(entries: seq<Entry>)
    requires forall e :: e in entries ==> |e.timeStart| >= HourKeyLength
    ensures Ascending(Consolidation(entries))
  {
    SortedHoursAreKeys(entries);
    var r := Consolidation(entries);
    var hs := SortedHours(entries);
    forall i, j | 0 <= i < j < |r| ensures Less(r[i].timeStart, r[j].timeStart) {
      assert hs[i] in KeySet(entries) && hs[j] in KeySet(entries);
      LessAppend(hs[i], hs[j], HourSuffix, HourSuffix);
    }
  }

  /** `[e['SEK_per_kWh'] for e in entries]`. */
  function PricesOf(entries: seq<Entry>): (prices: seq<real>)
    ensures |prices| == |entries|
    ensures forall i :: 0 <= i < |entries| ==> prices[i] == entries[i].price
  {
    seq(|entries|, i requires 0 <= i < |entries| => entries[i].price)
  }

  function InHour(hour: string): Entry -> bool
  {
    (e: Entry) => HourKey(e.timeStart) == hour
  }

  lemma PricesForSnoc(init: seq<Entry>, last: Entry, hour: string)
    ensures PricesFor(init + [last], hour) ==
      PricesFor(init, hour) + if HourKey(last.timeStart) == hour then [last.price] else []
  {
    assert (init + [last])[..|init|] == init;
  }

  lemma PricesOfAppend(a: seq<Entry>, b: seq<Entry>)
    ensures PricesOf(a + b) == PricesOf(a) + PricesOf(b)
  {
  }

  /** The list the dictionary accumulates for a key is the comprehension
      `[e['SEK_per_kWh'] for e in entries if e['time_start'][:13] == hour]`. */
  lemma {:induction false} PricesForIsComprehension(entries: seq<Entry>, hour: string)
    ensures PricesFor(entries, hour) == PricesOf(Filter(entries, InHour(hour)))
  {
    if entries != [] {
      var n := |entries| - 1;
      var init, last := entries[..n], entries[n];
      var p := InHour(hour);
      PricesForIsComprehension(init, hour);
      assert entries == init + [last];
      PricesForSnoc(init, last, hour);
      FilterAppend(init, [last], p);
      FilterCons(last, [], p);
      PricesOfAppend(Filter(init, p), Filter([last], p));
    }
  }
}
