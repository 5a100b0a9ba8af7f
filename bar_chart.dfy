/** The spot-price bar chart of `draw_gui()` in examples/power_plot.py on its 480x480
    screen: the price range, the six most expensive hours (a stable descending sort cut
    to six), equal-width bar slots, bar heights scaled by `max - min + 0.1`, the
    red/yellow/green bands, and which bars get a price label or a time tick. The
    drawing loop becomes a function from the price list to `Bar` records. */
module BarChart {
  import opened Numbers
  import opened Seqs

  const Width: int := 480
  const Height: int := 480
  const LeftMargin: int := 80
  const BottomMargin: int := 100
  const TopMargin: int := 100
  const GraphWidth: int := Width - LeftMargin - 40
  const GraphHeight: int := Height - BottomMargin - TopMargin
  /** The x axis, where every bar stands. */
  const BaseY: int := Height - BottomMargin
  const Epsilon: real := 0.1
  const TopCount: nat := 6
  const TickEvery: nat := 6

  datatype Option<T> = None | Some(value: T)

  /** One `(hour, price_sek)` pair of the fetched list. */
  datatype Sample = Sample(hour: int, price: real)

  datatype Band = Green | Yellow | Red

  /** One `display.rectangle(x, y, width, height)` in the band's pen, with whether a
      price label (at `x - 10, y - 30`) and a time tick (at `x, BaseY + 20`) go with it. */
  datatype Bar = Bar(x: int, y: int, width: int, height: int, band: Band, labelled: bool, tick: bool)

  /** "Data Unavailable", or the bars with the maximum and minimum labelled on the y axis. */
  datatype Chart = Unavailable | Chart(bars: seq<Bar>, maxPrice: real, minPrice: real)

  /** `vals = [p[1] for p in prices]`. */
  function PricesOf(samples: seq<Sample>): (vals: seq<real>)
    ensures |vals| == |samples|
    ensures forall i :: 0 <= i < |samples| ==> vals[i] == samples[i].price
  {
    seq(|samples|, i requires 0 <= i < |samples| => samples[i].price)
  }

  // ----- top_6 = sorted(prices, key=lambda x: x[1], reverse=True)[:6] -----

  predicate Descending(s: seq<Sample>)
  {
    forall i, j :: 0 <= i < j < |s| ==> s[i].price >= s[j].price
  }

  /** Places `x` after every sample at least as expensive, so equal prices keep the
      order in which they were inserted. */
  function InsertDesc(x: Sample, s: seq<Sample>): (r: seq<Sample>)
    ensures |r| == |s| + 1
    ensures multiset(r) == multiset(s) + multiset{x}
  {
    if s == [] || s[0].price < x.price then [x] + s
    else
      assert s == [s[0]] + s[1..];
      [s[0]] + InsertDesc(x, s[1..])
  }

  /** `sorted(samples, key=price, reverse=True)`: Python's sort is stable, also in reverse. */
  function SortDesc(s: seq<Sample>): (r: seq<Sample>)
    ensures |r| == |s|
    ensures multiset(r) == multiset(s)
  {
    if s == [] then []
    else
      assert s == s[..|s| - 1] + [s[|s| - 1]];
      InsertDesc(s[|s| - 1], SortDesc(s[..|s| - 1]))
  }

  function TopSix(samples: seq<Sample>): seq<Sample>
  {
    Slice(SortDesc(samples), 0, TopCount)
  }

  /** `top_6_hours = [p[0] for p in top_6]`. */
  function TopHours(samples: seq<Sample>): (hours: seq<int>)
    ensures |hours| == |TopSix(samples)|
    ensures forall i :: 0 <= i < |hours| ==> hours[i] == TopSix(samples)[i].hour
  {
    var top := TopSix(samples);
    seq(|top|, i requires 0 <= i < |top| => top[i].hour)
  }

  lemma {:induction false} InsertDescSorted(x: Sample, s: seq<Sample>)
    requires Descending(s)
    ensures Descending(InsertDesc(x, s))
  {
    if s != [] && x.price <= s[0].price {
      InsertDescSorted(x, s[1..]);
      var rest := InsertDesc(x, s[1..]);
      forall k | 0 <= k < |rest| ensures rest[k].price <= s[0].price {
        assert rest[k] in multiset(rest);
        if rest[k] != x {
          assert rest[k] in s[1..];
        }
      }
      var r := [s[0]] + rest;
      forall i, j | 0 <= i < j < |r| ensures r[i].price >= r[j].price {
        if i > 0 {
          assert r[i] == rest[i - 1] && r[j] == rest[j - 1];
        }
      }
    }
  }

  lemma {:induction false} SortDescSorted(s: seq<Sample>)
    ensures Descending(SortDesc(s))
  {
    if s != [] {
      SortDescSorted(s[..|s| - 1]);
      InsertDescSorted(s[|s| - 1], SortDesc(s[..|s| - 1]));
    }
  }

  function PriceIs(v: real): Sample -> bool
  {
    (x: Sample) => x.price == v
  }

  lemma NoneAbove(s: seq<Sample>, v: real)
    requires Descending(s) && s != [] && s[0].price < v
    ensures Filter(s, PriceIs(v)) == []
  {
    forall x | x in s ensures !PriceIs(v)(x) {
      var i :| 0 <= i < |s| && s[i] == x;
      assert s[0].price >= s[i].price;
    }
  }

  lemma InsertDescTiesFront(x: Sample, s: seq<Sample>, v: real)
    requires Descending(s) && (s == [] || s[0].price < x.price)
    ensures Filter(InsertDesc(x, s), PriceIs(v)) == Filter(s, PriceIs(v)) + Filter([x], PriceIs(v))
  {
    var p := PriceIs(v);
    assert InsertDesc(x, s) == [x] + s;
    FilterCons(x, s, p);
    FilterCons(x, [], p);
    if x.price == v && s != [] {
      NoneAbove(s, v);
    }
  }

  lemma DescendingTail(s: seq<Sample>)
    requires Descending(s) && s != []
    ensures Descending(s[1..])
  {
    var rest := s[1..];
    forall i, j | 0 <= i < j < |rest| ensures rest[i].price >= rest[j].price {
      assert rest[i] == s[i + 1] && rest[j] == s[j + 1];
    }
  }

  lemma {:induction false} InsertDescTies(x: Sample, s: seq<Sample>, v: real)
    requires Descending(s)
    ensures Filter(InsertDesc(x, s), PriceIs(v)) == Filter(s, PriceIs(v)) + Filter([x], PriceIs(v))
  {
    if s == [] || s[0].price < x.price {
      InsertDescTiesFront(x, s, v);
    } else {
      var rest := s[1..];
      DescendingTail(s);
      InsertDescTies(x, rest, v);
      FilterConsBoth(s[0], rest, InsertDesc(x, rest), [x], PriceIs(v));
      assert s == [s[0]] + rest;
    }
  }

  /** Stability: the samples of any one price appear in the sorted list exactly in their
      input order. */
  lemma {:induction false} SortDescIsStable(s: seq<Sample>, v: real)
    ensures Filter(SortDesc(s), PriceIs(v)) == Filter(s, PriceIs(v))
  {
    if s != [] {
      var n := |s| - 1;
      SortDescIsStable(s[..n], v);
      SortDescSorted(s[..n]);
      InsertDescTies(s[n], SortDesc(s[..n]), v);
      assert s == s[..n] + [s[n]];
      FilterAppend(s[..n], [s[n]], PriceIs(v));
    }
  }

  /** A prefix of a descending list is descending. */
  lemma DescendingPrefix(s: seq<Sample>, k: nat)
    requires Descending(s) && k <= |s|
    ensures Descending(s[..k])
  {
    var t := s[..k];
    forall i, j | 0 <= i < j < |t| ensures t[i].price >= t[j].price {
      assert t[i] == s[i] && t[j] == s[j];
    }
  }

  lemma TopSixShape(samples: seq<Sample>)
    ensures var top := TopSix(samples);
      && |top| == (if |samples| < TopCount then |samples| else TopCount)
      && Descending(top)
      && multiset(top) <= multiset(samples)
      && multiset(samples) == multiset(top) + multiset(SortDesc(samples)[|top|..])
  {
    var sorted := SortDesc(samples);
    var top := TopSix(samples);
    SortDescSorted(samples);
    assert top == sorted[..|top|];
    DescendingPrefix(sorted, |top|);
    assert sorted == top + sorted[|top|..];
  }

  /** In a descending list nothing after position `k - 1` is dearer than the entry there. */
  lemma DescendingCutoff(s: seq<Sample>, k: nat)
    requires Descending(s) && 0 < k <= |s|
    ensures forall x :: x in multiset(s[k..]) ==> x.price <= s[k - 1].price
  {
    forall x | x in multiset(s[k..]) ensures x.price <= s[k - 1].price {
      assert x in s[k..];
      var j :| k <= j < |s| && s[j] == x;
    }
  }

  lemma SplitCutoff(all: multiset<Sample>, s: seq<Sample>, k: nat)
    requires Descending(s) && 0 < k <= |s|
    requires all == multiset(s[..k]) + multiset(s[k..])
    ensures forall x :: x in all - multiset(s[..k]) ==> x.price <= s[k - 1].price
  {
    DescendingCutoff(s, k);
    MultisetCancel(multiset(s[..k]), multiset(s[k..]));
  }

  lemma TopSixCutoff(samples: seq<Sample>)
    ensures var top := TopSix(samples);
      top != [] ==> forall x :: x in multiset(samples) - multiset(top) ==> x.price <= top[|top| - 1].price
  {
    var sorted := SortDesc(samples);
    var top := TopSix(samples);
    TopSixShape(samples);
    SortDescSorted(samples);
    if top != [] {
      assert top == sorted[..|top|];
      SplitCutoff(multiset(samples), sorted, |top|);
    }
  }

  lemma TopSixStable(samples: seq<Sample>, v: real)
    ensures Filter(TopSix(samples), PriceIs(v)) <= Filter(samples, PriceIs(v))
  {
    var sorted := SortDesc(samples);
    var top := TopSix(samples);
    SortDescIsStable(samples, v);
    assert top == sorted[..|top|];
    FilterPrefix(sorted, |top|, PriceIs(v));
  }

  /** `top_6` holds the `min(6, len(prices))` most expensive samples in descending price
      order; every sample left out is no dearer than the cheapest one kept; and among
      samples of equal price the ones kept are the first ones in input order. */
  lemma TopSixSpec(samples: seq<Sample>, v: real)
    ensures var top := TopSix(samples);
      && |top| == (if |samples| < TopCount then |samples| else TopCount)
      && Descending(top)
      && multiset(top) <= multiset(samples)
      && (top != [] ==> forall x :: x in multiset(samples) - multiset(top) ==> x.price <= top[|top| - 1].price)
      && Filter(top, PriceIs(v)) <= Filter(samples, PriceIs(v))
  {
    TopSixShape(samples);
    TopSixCutoff(samples);
    TopSixStable(samples, v);
  }

  // ----- Bar geometry -----

  /** `step = G_WIDTH / count`, a real number. */
  function Step(count: nat): real
    requires count > 0
  {
    GraphWidth as real / count as real
  }

  /** `bar_w = max(2, int(step - 4))`. */
  function BarWidth(count: nat): (w: int)
    requires count > 0
    ensures w >= 2
    ensures Step(count) >= 6.0 ==> w as real <= Step(count) - 4.0
  {
    var w := Trunc(Step(count) - 4.0);
    if w < 2 then 2 else w
  }

  /** `x = int(LEFT_M + i * step)`. */
  function BarX(i: nat, count: nat): (x: int)
    requires count > 0
    ensures i < count ==> LeftMargin <= x < LeftMargin + GraphWidth
    ensures i == 0 ==> x == LeftMargin
  {
    var offset := i as real * Step(count);
    assert i < count ==> offset < GraphWidth as real by {
      if i < count {
        assert offset * count as real == i as real * GraphWidth as real;
      }
    }
    Trunc(LeftMargin as real + offset)
  }

  /** `(price - min_p) / (max_p - min_p + 0.1)`. */
  function Ratio(price: real, minPrice: real, maxPrice: real): (ratio: real)
    requires maxPrice - minPrice + Epsilon != 0.0
    ensures ratio * (maxPrice - minPrice + Epsilon) == price - minPrice
    ensures minPrice <= price <= maxPrice ==> 0.0 <= ratio < 1.0
  {
    var ratio := (price - minPrice) / (maxPrice - minPrice + Epsilon);
    assert minPrice <= price <= maxPrice ==> 0.0 <= ratio < 1.0 by {
      if minPrice <= price <= maxPrice {
        FractionBounds(price - minPrice, maxPrice - minPrice + Epsilon);
      }
    }
    ratio
  }

  /** `norm_h = int(ratio * G_HEIGHT)`. */
  function BarHeight(price: real, minPrice: real, maxPrice: real): (h: int)
    requires maxPrice - minPrice + Epsilon != 0.0
    ensures minPrice <= price <= maxPrice ==> 0 <= h < GraphHeight
  {
    var ratio := Ratio(price, minPrice, maxPrice);
    assert minPrice <= price <= maxPrice ==> ratio * GraphHeight as real < GraphHeight as real;
    Trunc(ratio * GraphHeight as real)
  }

  /** RED above 0.7, YELLOW above 0.3, GREEN otherwise. */
  function BandOf(ratio: real): (band: Band)
    ensures band == Red <==> ratio > 0.7
    ensures band == Yellow <==> 0.3 < ratio <= 0.7
    ensures band == Green <==> ratio <= 0.3
  {
    if ratio > 0.7 then Red else if ratio > 0.3 then Yellow else Green
  }

  function BandRank(band: Band): nat
  {
    match band
    case Green => 0
    case Yellow => 1
    case Red => 2
  }

  /** One iteration of the drawing loop, for the sample at index `i` of `count`. */
  function BarAt(i: nat, sample: Sample, count: nat, minPrice: real, maxPrice: real, topHours: seq<int>): Bar
    requires count > 0
    requires maxPrice - minPrice + Epsilon != 0.0
  {
    var h := BarHeight(sample.price, minPrice, maxPrice);
    Bar(BarX(i, count), BaseY - h, BarWidth(count), h, BandOf(Ratio(sample.price, minPrice, maxPrice)),
        sample.hour in topHours, i % TickEvery == 0)
  }

  /** What iteration `i` of the drawing loop draws for `sample`, of `count` samples with
      prices in [minPrice, maxPrice] and `top` the six most expensive: the slot's x, the
      clamped width and `norm_h` as height; the bar stands on the x axis inside the plot
      area; its band follows the 0.3 / 0.7 thresholds of its ratio, which lies in [0, 1);
      it has a time tick exactly at every sixth index and a price label exactly when one
      of the top six samples has its hour. */
  predicate IsBar(bar: Bar, i: nat, sample: Sample, count: nat, minPrice: real, maxPrice: real, top: seq<Sample>)
  {
    && i < count
    && minPrice <= sample.price <= maxPrice
    && (var ratio := Ratio(sample.price, minPrice, maxPrice);
        && bar.x == BarX(i, count)
        && bar.width == BarWidth(count)
        && bar.height == BarHeight(sample.price, minPrice, maxPrice)
        && 0.0 <= ratio < 1.0
        && 0 <= bar.height < GraphHeight
        && BaseY - GraphHeight < bar.y <= BaseY
        && bar.y + bar.height == BaseY
        && LeftMargin <= bar.x < LeftMargin + GraphWidth
        && bar.width >= 2
        && (bar.band == Red <==> ratio > 0.7)
        && (bar.band == Yellow <==> 0.3 < ratio <= 0.7)
        && (bar.band == Green <==> ratio <= 0.3)
        && (bar.tick <==> i % TickEvery == 0)
        && (bar.labelled <==> exists t :: t in top && t.hour == sample.hour))
  }

  /** The drawing loop over a non-empty price list: one bar per pair, each one what
      `IsBar` describes for the list's price range and top six. */
  function Bars(samples: seq<Sample>): (bars: seq<Bar>)
    requires samples != []
    ensures |bars| == |samples|
    ensures forall i :: 0 <= i < |samples| ==>
      IsBar(bars[i], i, samples[i], |samples|, Min(PricesOf(samples)), Max(PricesOf(samples)), TopSix(samples))
  {
    var vals := PricesOf(samples);
    var maxPrice, minPrice := Max(vals), Min(vals);
    assert minPrice <= vals[0] <= maxPrice;
    var topHours := TopHours(samples);
    var bars := LoopBars(samples, minPrice, maxPrice, topHours);
    LoopBarsAreBars(samples, minPrice, maxPrice, topHours, bars);
    bars
  }

  /** `for i, (hour, price) in enumerate(prices)`: iteration `i` draws `BarAt(i, ...)`. */
  function LoopBars(samples: seq<Sample>, minPrice: real, maxPrice: real, topHours: seq<int>): (bars: seq<Bar>)
    requires samples != [] && minPrice <= maxPrice
    ensures |bars| == |samples|
    ensures forall i :: 0 <= i < |samples| ==> bars[i] == BarAt(i, samples[i], |samples|, minPrice, maxPrice, topHours)
  {
    seq(|samples|, i requires 0 <= i < |samples| => BarAt(i, samples[i], |samples|, minPrice, maxPrice, topHours))
  }

  /** Each bar the loop computes is what `IsBar` describes. */
  lemma LoopBarsAreBars(samples: seq<Sample>, minPrice: real, maxPrice: real, topHours: seq<int>, bars: seq<Bar>)
    requires samples != []
    requires minPrice == Min(PricesOf(samples)) && maxPrice == Max(PricesOf(samples))
    requires minPrice <= maxPrice
    requires topHours == TopHours(samples)
    requires |bars| == |samples|
    requires forall i :: 0 <= i < |samples| ==>
      bars[i] == BarAt(i, samples[i], |samples|, minPrice, maxPrice, topHours)
    ensures forall i :: 0 <= i < |samples| ==>
      IsBar(bars[i], i, samples[i], |samples|, minPrice, maxPrice, TopSix(samples))
  {
    forall i | 0 <= i < |samples|
      ensures IsBar(bars[i], i, samples[i], |samples|, minPrice, maxPrice, TopSix(samples))
    {
      assert PricesOf(samples)[i] == samples[i].price;
      BarAtFacts(i, samples[i], |samples|, minPrice, maxPrice, topHours);
      TopHoursMembers(samples, samples[i].hour);
    }
  }

  /** `draw_gui(prices)`: no list or an empty one shows "Data Unavailable" and draws no bar. */
  function DrawGui(prices: Option<seq<Sample>>): (chart: Chart)
    ensures chart.Unavailable? <==> prices.None? || prices.value == []
    ensures chart.Chart? ==> chart.bars == Bars(prices.value)
    ensures chart.Chart? ==> |chart.bars| == |prices.value|
    ensures chart.Chart? ==> chart.maxPrice == Max(PricesOf(prices.value)) && chart.minPrice == Min(PricesOf(prices.value))
  {
    match prices
    case None => Unavailable
    case Some(samples) =>
      if samples == [] then Unavailable
      else Chart(Bars(samples), Max(PricesOf(samples)), Min(PricesOf(samples)))
  }

  // ----- What the bars promise -----

  /** `hour in top_6_hours` asks whether one of the top six samples has that hour. */
  lemma TopHoursMembers(samples: seq<Sample>, hour: int)
    ensures hour in TopHours(samples) <==> exists t :: t in TopSix(samples) && t.hour == hour
  {
    var top := TopSix(samples);
    var hours := TopHours(samples);
    if hour in hours {
      var k :| 0 <= k < |hours| && hours[k] == hour;
      assert top[k] in top;
    }
    forall t | t in top && t.hour == hour ensures hour in hours {
      var k :| 0 <= k < |top| && top[k] == t;
      assert hours[k] == t.hour;
    }
  }

  /** One loop iteration for a price inside [minPrice, maxPrice]: the bar stands on the
      x axis inside the plot area with its band set by the thresholds of its ratio. */
  lemma BarAtFacts(i: nat, sample: Sample, count: nat, minPrice: real, maxPrice: real, topHours: seq<int>)
    requires i < count
    requires minPrice <= sample.price <= maxPrice
    ensures var bar := BarAt(i, sample, count, minPrice, maxPrice, topHours);
      var ratio := Ratio(sample.price, minPrice, maxPrice);
      && 0.0 <= ratio < 1.0
      && 0 <= bar.height < GraphHeight
      && BaseY - GraphHeight < bar.y <= BaseY
      && bar.y + bar.height == BaseY
      && LeftMargin <= bar.x < LeftMargin + GraphWidth
      && bar.width >= 2
      && (bar.band == Red <==> ratio > 0.7)
      && (bar.band == Yellow <==> 0.3 < ratio <= 0.7)
      && (bar.band == Green <==> ratio <= 0.3)
      && (bar.tick <==> i % TickEvery == 0)
      && (bar.labelled <==> sample.hour in topHours)
  {
  }

  /** Slot positions never decrease with the index. */
  lemma BarXMonotone(i: nat, j: nat, count: nat)
    requires count > 0 && i <= j
    ensures BarX(i, count) <= BarX(j, count)
  {
    var s := Step(count);
    ProductNonNegative(j as real - i as real, s);
    TruncMonotone(LeftMargin as real + i as real * s, LeftMargin as real + j as real * s);
  }

  /** With slots at least 6 wide, a bar ends at least 4 pixels before any later slot begins. */
  lemma BarXGap(i: nat, j: nat, count: nat)
    requires count > 0 && i < j
    requires Step(count) >= 6.0
    ensures BarX(i, count) + BarWidth(count) + 4 <= BarX(j, count)
  {
    var s := Step(count);
    var xi := LeftMargin as real + i as real * s;
    var xj := LeftMargin as real + j as real * s;
    ProductNonNegative(j as real - i as real - 1.0, s);
    ProductNonNegative(i as real, s);
    assert xi + s <= xj;
    TruncGap(xi, xj, BarWidth(count) + 4);
  }

  /** Bars move right (never left) with the index, starting on the y axis; when the
      slots are at least 6 pixels wide, neighbouring bars are at least 4 pixels apart. */
  lemma BarsLeftToRight(samples: seq<Sample>, i: nat, j: nat)
    requires i <= j < |samples|
    ensures Bars(samples)[0].x == LeftMargin
    ensures Bars(samples)[i].x <= Bars(samples)[j].x
    ensures Step(|samples|) >= 6.0 && i < j ==>
      Bars(samples)[i].x + Bars(samples)[i].width + 4 <= Bars(samples)[j].x
  {
    var bars, vals, top := Bars(samples), PricesOf(samples), TopSix(samples);
    assert IsBar(bars[0], 0, samples[0], |samples|, Min(vals), Max(vals), top);
    assert IsBar(bars[i], i, samples[i], |samples|, Min(vals), Max(vals), top);
    assert IsBar(bars[j], j, samples[j], |samples|, Min(vals), Max(vals), top);
    BarXMonotone(i, j, |samples|);
    if Step(|samples|) >= 6.0 && i < j {
      BarXGap(i, j, |samples|);
    }
  }

  /** The ratio grows with the price. */
  lemma RatioMonotone(p1: real, p2: real, minPrice: real, maxPrice: real)
    requires minPrice <= maxPrice && p1 <= p2
    ensures Ratio(p1, minPrice, maxPrice) <= Ratio(p2, minPrice, maxPrice)
  {
    DivMonotone(p1 - minPrice, p2 - minPrice, maxPrice - minPrice + Epsilon);
  }

  /** A dearer sample never gets a lower band. */
  lemma BandMonotone(samples: seq<Sample>, i: nat, j: nat)
    requires i < |samples| && j < |samples|
    requires samples[i].price <= samples[j].price
    ensures BandRank(Bars(samples)[i].band) <= BandRank(Bars(samples)[j].band)
  {
    var bars, vals, top := Bars(samples), PricesOf(samples), TopSix(samples);
    assert IsBar(bars[i], i, samples[i], |samples|, Min(vals), Max(vals), top);
    assert IsBar(bars[j], j, samples[j], |samples|, Min(vals), Max(vals), top);
    RatioMonotone(samples[i].price, samples[j].price, Min(vals), Max(vals));
  }

  /** All prices equal: every ratio is 0, so every bar is GREEN and flat on the axis,
      and the `+ 0.1` keeps the division defined. */
  lemma FlatPricesAreGreen(samples: seq<Sample>)
    requires samples != []
    requires forall i :: 0 <= i < |samples| ==> samples[i].price == samples[0].price
    ensures forall bar :: bar in Bars(samples) ==> bar.band == Green && bar.height == 0 && bar.y == BaseY
  {
    var bars, vals, top := Bars(samples), PricesOf(samples), TopSix(samples);
    var p := samples[0].price;
    assert Min(vals) == p && Max(vals) == p;
    assert Ratio(p, p, p) == 0.0;
    forall bar | bar in bars ensures bar.band == Green && bar.height == 0 && bar.y == BaseY {
      var i :| 0 <= i < |bars| && bars[i] == bar;
      assert IsBar(bars[i], i, samples[i], |samples|, p, p, top);
    }
  }
}
