/** Selecting the next 24 hours of the consolidated series and splitting them into
    today's and tomorrow's entries (`run()` in examples/print_elec_prices.py). The
    clock-derived strings `now_str`, `today_iso` and `tomorrow_iso` are parameters. */
module Window {
  import opened Strings
  import opened Seqs
  import opened Consolidate

  const WindowHours: nat := 24

  /** The condition `entry['time_start'] >= now_str`. */
  function AtOrAfter(now: string): Entry -> bool
  {
    (e: Entry) => AtLeast(e.timeStart, now)
  }

  /** `[entry for entry in series if entry['time_start'] >= now_str][:24]`: the first
      (at most 24) entries at or after `now`, in series order. */
  function NextHours(series: seq<Entry>, now: string): (window: seq<Entry>)
    ensures |window| <= WindowHours
    ensures forall e :: e in window ==> e in series && AtLeast(e.timeStart, now)
    ensures window <= Filter(series, AtOrAfter(now))
    ensures |window| == WindowHours || window == Filter(series, AtOrAfter(now))
  {
    var upcoming := Filter(series, AtOrAfter(now));
    var window := Slice(upcoming, 0, WindowHours);
    AtOrAfterMembers(series, now);
    PrefixMembers(window, upcoming);
    window
  }

  lemma AtOrAfterMembers(series: seq<Entry>, now: string)
    ensures forall e :: e in Filter(series, AtOrAfter(now)) ==> e in series && AtLeast(e.timeStart, now)
  {
  }

  /** The prices the listing shows: consolidate, then keep the next 24 hours. */
  function Upcoming(raw: seq<Entry>, now: string): seq<Entry>
  {
    NextHours(Consolidation(raw), now)
  }

  /** Index of the first entry at or after `now` (the length when there is none). */
  function FirstAtOrAfter(series: seq<Entry>, now: string): (k: nat)
    ensures k <= |series|
    ensures forall i :: 0 <= i < k ==> Less(series[i].timeStart, now)
    ensures k < |series| ==> AtLeast(series[k].timeStart, now)
  {
    if series == [] || AtLeast(series[0].timeStart, now) then 0
    else 1 + FirstAtOrAfter(series[1..], now)
  }

  /** When the first entry of an ascending series is at or after `now`, all are. */
  lemma AllAtOrAfter(series: seq<Entry>, now: string)
    requires Ascending(series) && series != [] && AtLeast(series[0].timeStart, now)
    ensures Filter(series, AtOrAfter(now)) == series
  {
    forall i | 0 <= i < |series| ensures AtOrAfter(now)(series[i]) {
      if i > 0 && Less(series[i].timeStart, now) {
        LessTransitive(series[0].timeStart, series[i].timeStart, now);
      }
    }
    FilterAll(series, AtOrAfter(now));
  }

  lemma AscendingTail(series: seq<Entry>)
    requires Ascending(series) && series != []
    ensures Ascending(series[1..])
  {
    var rest := series[1..];
    forall i, j | 0 <= i < j < |rest| ensures Less(rest[i].timeStart, rest[j].timeStart) {
      assert rest[i] == series[i + 1] && rest[j] == series[j + 1];
    }
  }

  /** On an ascending series the entries at or after `now` form a suffix. */
  lemma {:induction false} AtOrAfterIsSuffix(series: seq<Entry>, now: string)
    requires Ascending(series)
    ensures Filter(series, AtOrAfter(now)) == series[FirstAtOrAfter(series, now)..]
  {
    if series != [] {
      if AtLeast(series[0].timeStart, now) {
        AllAtOrAfter(series, now);
      } else {
        var rest := series[1..];
        AscendingTail(series);
        AtOrAfterIsSuffix(rest, now);
        assert series == [series[0]] + rest;
        FilterCons(series[0], rest, AtOrAfter(now));
        assert series[FirstAtOrAfter(series, now)..] == rest[FirstAtOrAfter(rest, now)..];
      }
    }
  }

  /** On an ascending series (what the consolidation produces) the window is a
      contiguous run: it starts at the first entry at or after `now` and holds the 24
      entries from there, or all that remain when fewer do. */
  lemma NextHoursIsContiguous(series: seq<Entry>, now: string)
    requires Ascending(series)
    ensures var k := FirstAtOrAfter(series, now);
      var window := NextHours(series, now);
      && k + |window| <= |series|
      && window == series[k..k + |window|]
      && (|window| == WindowHours || k + |window| == |series|)
  {
    var k := FirstAtOrAfter(series, now);
    AtOrAfterIsSuffix(series, now);
    assert NextHours(series, now) == Slice(series[k..], 0, WindowHours);
    SliceOfSuffix(series, k, WindowHours);
  }

  /** The condition `e['time_start'].startswith(iso)`. */
  function OnDay(iso: string): Entry -> bool
  {
    (e: Entry) => StartsWith(e.timeStart, iso)
  }

  /** `[e for e in window if e['time_start'].startswith(iso)]`: the window's entries of
      one calendar day, in order; an entry of any other day is in no such list. */
  function DayEntries(window: seq<Entry>, iso: string): (day: seq<Entry>)
    ensures forall e :: e in day <==> e in window && StartsWith(e.timeStart, iso)
    ensures IsSubsequence(day, window)
  {
    FilterIsSubsequence(window, OnDay(iso));
    Filter(window, OnDay(iso))
  }

  /** Today's and tomorrow's lists share no entry when the two dates differ and are
      written in the same fixed width (as "YYYY-MM-DD" always is). */
  lemma DaysAreDisjoint(window: seq<Entry>, todayIso: string, tomorrowIso: string)
    requires |todayIso| == |tomorrowIso| && todayIso != tomorrowIso
    ensures forall e :: e in DayEntries(window, todayIso) ==> e !in DayEntries(window, tomorrowIso)
  {
  }
}
