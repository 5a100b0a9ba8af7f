/** The two-column price listing of `run()` in examples/print_elec_prices.py: the
    green-to-red colour ramp, the bottom-aligned start row of each column, and the row
    loops that step down by one line per entry. Drawing calls become `Row` records;
    the fetched raw entries, the clock strings and the display height are parameters. */
module Listing {
  import opened Numbers
  import opened Seqs
  import opened Consolidate
  import opened Window

  const LineHeight: int := 17
  const TodayX: int := 10
  const TomorrowX: int := 250
  const TopRowY: int := 50
  const EmptyColumnY: int := 60
  const BottomGap: int := 20

  datatype Rgb = Rgb(r: int, g: int, b: int)

  /** One `display.text(f"{t[11:16]}: {price:.2f}", x, y)` in the pen of the ramp. */
  datatype Row = Row(x: int, y: int, clock: string, price: real, colour: Rgb)

  /** "No data found", or the two columns. */
  datatype Screen = NoData | Columns(today: seq<Row>, tomorrow: seq<Row>)

  /** The position of `price` in [minPrice, maxPrice]; 0 on a flat range. */
  function Norm(price: real, minPrice: real, maxPrice: real): (norm: real)
    ensures maxPrice <= minPrice ==> norm == 0.0
    ensures maxPrice > minPrice ==> norm * (maxPrice - minPrice) == price - minPrice
    ensures minPrice <= price <= maxPrice ==> 0.0 <= norm <= 1.0
    ensures price == minPrice ==> norm == 0.0
  {
    if maxPrice > minPrice then
      FractionBounds(price - minPrice, maxPrice - minPrice);
      (price - minPrice) / (maxPrice - minPrice)
    else 0.0
  }

  /** The linear green-to-amber-to-red ramp, each channel cut by `int()`. */
  function Ramp(norm: real): (c: Rgb)
    ensures c.b == 0
    ensures norm <= 0.5 ==> c.g == 255
    ensures 0.5 <= norm ==> c.r == 255
    ensures 0.0 <= norm <= 1.0 ==> 0 <= c.r <= 255 && 0 <= c.g <= 255
  {
    if norm <= 0.5 then Rgb(Trunc(510.0 * norm), 255, 0)
    else Rgb(255, Trunc(255.0 - 510.0 * (norm - 0.5)), 0)
  }

  /** Red never falls and green never rises as the price goes up. */
  lemma RampMonotone(n1: real, n2: real)
    requires n1 <= n2
    ensures Ramp(n1).r <= Ramp(n2).r
    ensures Ramp(n1).g >= Ramp(n2).g
  {
    if n1 <= 0.5 {
      TruncMonotone(510.0 * n1, if n2 <= 0.5 then 510.0 * n2 else 255.0);
    }
    if 0.5 < n1 {
      TruncMonotone(255.0 - 510.0 * (n2 - 0.5), 255.0 - 510.0 * (n1 - 0.5));
    } else if 0.5 < n2 {
      TruncMonotone(255.0 - 510.0 * (n2 - 0.5), 255.0);
    }
  }

  /** A flat price range paints every entry pure green and divides by nothing. */
  lemma FlatRangeIsGreen(price: real, minPrice: real, maxPrice: real)
    requires maxPrice <= minPrice
    ensures Ramp(Norm(price, minPrice, maxPrice)) == Rgb(0, 255, 0)
  {
  }

  /** A price inside the range gets a valid colour. */
  lemma ColourInRange(price: real, minPrice: real, maxPrice: real)
    requires minPrice <= price <= maxPrice
    ensures var c := Ramp(Norm(price, minPrice, maxPrice));
      0 <= c.r <= 255 && 0 <= c.g <= 255 && c.b == 0
  {
  }

  /** `max(50, bottom_y - (n - 1) * line_height) if n > 0 else 60`, bottom_y = HEIGHT - 20. */
  function StartY(n: nat, height: int): (y: int)
    ensures n == 0 ==> y == EmptyColumnY
    ensures n > 0 ==> TopRowY <= y
    ensures n > 0 ==> y + (n - 1) * LineHeight >= height - BottomGap
    ensures n > 0 && TopRowY <= height - BottomGap - (n - 1) * LineHeight ==>
      y + (n - 1) * LineHeight == height - BottomGap
  {
    if n > 0 then
      var aligned := height - BottomGap - (n - 1) * LineHeight;
      if TopRowY <= aligned then aligned else TopRowY
    else EmptyColumnY
  }

  /** The rows a column loop draws: entry `i` at `startY + i * LineHeight`, labelled
      with `time_start[11:16]` and coloured by the ramp over [minPrice, maxPrice]. */
  predicate IsColumn(rows: seq<Row>, entries: seq<Entry>, x: int, startY: int, minPrice: real, maxPrice: real)
  {
    && |rows| == |entries|
    && forall i :: 0 <= i < |rows| ==>
      rows[i] == Row(x, startY + i * LineHeight, Slice(entries[i].timeStart, 11, 16),
                     entries[i].price, Ramp(Norm(entries[i].price, minPrice, maxPrice)))
  }

  /** A column loop: `y` starts at `startY` and moves down one line per entry. */
  method LayoutColumn(entries: seq<Entry>, x: int, startY: int, minPrice: real, maxPrice: real)
    returns (rows: seq<Row>)
    ensures IsColumn(rows, entries, x, startY, minPrice, maxPrice)
  {
    rows := [];
    var y := startY;
    for i := 0 to |entries|
      invariant y == startY + i * LineHeight
      invariant IsColumn(rows, entries[..i], x, startY, minPrice, maxPrice)
    {
      var entry := entries[i];
      var norm := Norm(entry.price, minPrice, maxPrice);
      rows := rows + [Row(x, y, Slice(entry.timeStart, 11, 16), entry.price, Ramp(norm))];
      y := y + LineHeight;
    }
    assert entries[..|entries|] == entries;
  }

  /** The last row of a laid-out column sits on the bottom line whenever the column fits
      below the header; consecutive rows are one line apart. */
  lemma ColumnBottomAligned(rows: seq<Row>, entries: seq<Entry>, x: int, height: int, minPrice: real, maxPrice: real)
    requires IsColumn(rows, entries, x, StartY(|entries|, height), minPrice, maxPrice)
    requires |entries| > 0 && TopRowY <= height - BottomGap - (|entries| - 1) * LineHeight
    ensures rows[|rows| - 1].y == height - BottomGap
    ensures forall i :: 0 < i < |rows| ==> rows[i].y == rows[i - 1].y + LineHeight
  {
    assert rows[|rows| - 1].y == StartY(|entries|, height) + (|rows| - 1) * LineHeight;
    forall i | 0 < i < |rows| ensures rows[i].y == rows[i - 1].y + LineHeight {
      assert rows[i].y == StartY(|entries|, height) + i * LineHeight;
      assert rows[i - 1].y == StartY(|entries|, height) + (i - 1) * LineHeight;
    }
  }

  /** Every price of the window lies between the window's minimum and maximum, so
      every entry of either day list gets a valid colour. */
  lemma DayColoursInRange(window: seq<Entry>, iso: string)
    requires window != []
    ensures forall e :: e in DayEntries(window, iso) ==>
      Min(PricesOf(window)) <= e.price <= Max(PricesOf(window))
  {
    var prices := PricesOf(window);
    forall e | e in DayEntries(window, iso)
      ensures Min(prices) <= e.price <= Max(prices)
    {
      var i :| 0 <= i < |window| && window[i] == e;
      assert prices[i] == e.price;
    }
  }

  /** `run()` from the fetched lists onward: consolidate, keep the next 24 hours, split
      by day, scale the colours to the window's price range, and lay out both columns. */
  method Run(todayData: seq<Entry>, tomorrowData: seq<Entry>, now: string,
             todayIso: string, tomorrowIso: string, height: int)
    returns (screen: Screen)
    ensures screen.NoData? <==> Upcoming(todayData + tomorrowData, now) == []
    ensures screen.Columns? ==>
      var window := Upcoming(todayData + tomorrowData, now);
      var today := DayEntries(window, todayIso);
      var tomorrow := DayEntries(window, tomorrowIso);
      var minPrice, maxPrice := Min(PricesOf(window)), Max(PricesOf(window));
      && IsColumn(screen.today, today, TodayX, StartY(|today|, height), minPrice, maxPrice)
      && IsColumn(screen.tomorrow, tomorrow, TomorrowX, StartY(|tomorrow|, height), minPrice, maxPrice)
    ensures screen.Columns? ==>
      forall row :: row in screen.today + screen.tomorrow ==>
        0 <= row.colour.r <= 255 && 0 <= row.colour.g <= 255 && row.colour.b == 0
  {
    var allPrices := ConsolidateHours(todayData + tomorrowData);
    var window := NextHours(allPrices, now);
    var todayEntries := DayEntries(window, todayIso);
    var tomorrowEntries := DayEntries(window, tomorrowIso);
    if window == [] {
      screen := NoData;
      return;
    }
    var prices := PricesOf(window);
    var minPrice, maxPrice := Min(prices), Max(prices);
    var todayRows := LayoutColumn(todayEntries, TodayX, StartY(|todayEntries|, height), minPrice, maxPrice);
    var tomorrowRows := LayoutColumn(tomorrowEntries, TomorrowX, StartY(|tomorrowEntries|, height), minPrice, maxPrice);
    screen := Columns(todayRows, tomorrowRows);
    DayColoursInRange(window, todayIso);
    DayColoursInRange(window, tomorrowIso);
    forall row: Row | row in todayRows + tomorrowRows
      ensures 0 <= row.colour.r <= 255 && 0 <= row.colour.g <= 255 && row.colour.b == 0
    {
      if row in todayRows {
        var i :| 0 <= i < |todayRows| && todayRows[i] == row;
        assert todayEntries[i] in todayEntries;
        ColourInRange(todayEntries[i].price, minPrice, maxPrice);
      } else {
        var i :| 0 <= i < |tomorrowRows| && tomorrowRows[i] == row;
        assert tomorrowEntries[i] in tomorrowEntries;
        ColourInRange(tomorrowEntries[i].price, minPrice, maxPrice);
      }
    }
  }
}
