# Electricity spot-price displays — a Dafny model

Two scripts of the repository drive a 480x480 touch display that shows Swedish spot electricity prices:

- `examples/print_elec_prices.py`, function `run()`, draws a two-column price listing:
  1. It consolidates the fetched (possibly sub-hourly) price entries into hourly averages.
  2. It keeps the next 24 hours from the current hour.
  3. It splits them into today's and tomorrow's lists.
  4. It draws each list bottom-aligned, one line per entry, coloured on a green-to-red ramp scaled to the window's price range.
- `examples/power_plot.py`, function `draw_gui()`, draws a bar chart of `(hour, price)` pairs:
  - bars in equal-width slots, with heights scaled by `max - min + 0.1`;
  - red, yellow or green bars at ratio thresholds 0.7 and 0.3;
  - a price label on the six most expensive hours;
  - a time tick on every sixth bar.

The model covers that price preparation and layout arithmetic. It is split into these modules:

- `Numbers` (`numbers.dfy`): Python's `int()` on a number (truncation toward zero), `sum`, the average, `min` and `max`, all over exact reals.
- `Strings` (`strings.dfy`): Python's string ordering (code-point lexicographic, a proper prefix first) and `startswith`.
- `Seqs` (`seqs.dfy`): clamped slicing `s[lo:hi]` and comprehensions with an `if` clause, with lemmas about them.
- `Consolidate` (`consolidate.dfy`): the two consolidation loops, written as the methods `GroupByHour`, `AverageHours` and `ConsolidateHours`.
  - The `hour_prices` dictionary is a `map` plus the sequence of its keys in insertion order.
  - The methods are proved equal to the specification function `Consolidation`.
  - `Consolidation`'s own properties are lemmas: averages, uniqueness, ordering and key set.
- `Window` (`window.dfy`): the 24-hour window and the split by day.
- `Listing` (`listing.dfy`): the colour ramp, the start rows and the row loops (method `LayoutColumn`), and `Run`, the whole of `run()` from the fetched lists onward.
- `BarChart` (`bar_chart.dfy`): `draw_gui()` as a function from the price list to a `Chart` of `Bar` records.
  - Each `Bar` holds x, y, width, height, band, price label, time tick.
  - The chart replaces the draw calls.

Parameters stand in for what the scripts get from the outside world:
- the fetched price lists;
- the clock strings `now_str`, `today_iso` and `tomorrow_iso`;
- the display height.

Prices are `real`, so averages and ratios are exact.

## Model

| member | source | states |
|---|---|---|
| Numbers.Trunc | examples/print_elec_prices.py:167 | `int()` of a number truncates toward zero: for x >= 0 the result is the largest integer not above x, for x < 0 the smallest not below it |
| Numbers.Sum | examples/print_elec_prices.py:99 | `sum` of no prices is 0 and of one price is that price; with `Numbers.SumAppend` this fixes the sum of every list |
| Numbers.SumAppend | examples/print_elec_prices.py:99 | the sum of two concatenated price lists is the sum of their sums, so the left-to-right accumulation order does not matter |
| Numbers.Mean | examples/print_elec_prices.py:99 | the average times the number of prices equals their sum |
| Numbers.MeanBounds | examples/print_elec_prices.py:99 | an average lies between any lower and upper bound of the averaged prices |
| Numbers.Min | examples/print_elec_prices.py:139 | the minimum is one of the prices and no price is below it |
| Numbers.Max | examples/print_elec_prices.py:140 | the maximum is one of the prices and no price is above it |
| Strings.Less | examples/print_elec_prices.py:97 | Python's `<` on strings: a proper prefix sorts before the longer string, and no string sorts before one of its own prefixes |
| Strings.AtLeast | examples/print_elec_prices.py:109 | Python's `>=` on strings holds exactly when the strings are equal or the right one sorts first |
| Strings.StartsWith | examples/print_elec_prices.py:114-115 | `s.startswith(prefix)` holds exactly when `prefix` fits in `s` and is its first `len(prefix)` characters |
| Strings.LessIrreflexive | examples/print_elec_prices.py:97 | no string sorts before itself |
| Strings.LessTransitive | examples/print_elec_prices.py:97 | Python's string order is transitive |
| Strings.LessAsymmetric | examples/print_elec_prices.py:97 | two strings are never each before the other |
| Strings.LessTotal | examples/print_elec_prices.py:97 | Python's string order is total: of two different strings one sorts first |
| Strings.LessTrichotomy | examples/print_elec_prices.py:109 | exactly one of `a < b`, `a == b`, `b < a` holds, so `a >= b` is the negation of `a < b` |
| Strings.LessAppend | examples/print_elec_prices.py:100 | appending suffixes to two ordered strings of equal length keeps their order, so stamping sorted 13-character hours keeps them sorted |
| Seqs.Slice | examples/print_elec_prices.py:109 | Python slicing: the exact subsequence when in range, clamped at the end, empty when the range is empty or starts past the end |
| Seqs.Filter | examples/print_elec_prices.py:114 | a comprehension keeps exactly the elements that satisfy its condition and is never longer than its input |
| Seqs.FilterIsSubsequence | examples/print_elec_prices.py:114-115 | a comprehension's result is an order-preserving subsequence of its input |
| Consolidate.HourKey | examples/print_elec_prices.py:91 | `t[:13]` is a prefix of `t` of length min(13, len(t)) |
| Consolidate.Stamp | examples/print_elec_prices.py:100 | `hour + ":00:00"` starts with the hour, and a 13-character hour is the key of its own stamp |
| Consolidate.StampInjective | examples/print_elec_prices.py:100 | two hours get the same `time_start` only if they are the same hour |
| Consolidate.DistinctKeys | examples/print_elec_prices.py:92-93 | the dictionary's keys are pairwise distinct, and a key is present exactly when its price list is non-empty |
| Consolidate.Insert | examples/print_elec_prices.py:97 | inserting a key into a list adds exactly that key and nothing else |
| Consolidate.InsertAscending | examples/print_elec_prices.py:97 | inserting a new key into a strictly ascending list keeps it strictly ascending |
| Consolidate.SortStrings | examples/print_elec_prices.py:97 | `sorted(hour_prices)` is a permutation of the keys |
| Consolidate.SortStringsAscending | examples/print_elec_prices.py:97 | the sorted keys of a duplicate-free list strictly ascend in string order |
| Consolidate.GroupByHour | examples/print_elec_prices.py:88-94 | after the grouping loop the dictionary's keys, in insertion order, are the distinct hour keys of the input; each key maps to the prices of its entries in input order |
| Consolidate.AverageHours | examples/print_elec_prices.py:96-101 | the second loop emits one entry per sorted hour, in order, stamped `hour + ":00:00"` and priced at the average of that hour's list |
| Consolidate.ConsolidateHours | examples/print_elec_prices.py:88-101 | the two loops together compute exactly the series `Consolidation` describes |
| Consolidate.PricesForIsComprehension | examples/print_elec_prices.py:88-94 | the list accumulated for a key equals the comprehension of the prices of all entries whose `time_start[:13]` is that key |
| Consolidate.SortedHoursAreKeys | examples/print_elec_prices.py:92-97 | the sorted hour keys strictly ascend in string order whatever the input order, and are exactly the hour keys present in the input |
| Consolidate.ConsolidatedPriceIsMean | examples/print_elec_prices.py:88-99 | every consolidated entry is stamped with an input hour key and priced at the mean of all input prices of that key, so it lies between their minimum and maximum |
| Consolidate.ConsolidationKeys | examples/print_elec_prices.py:88-101 | the consolidated `time_start`s are exactly the stamped input keys, none twice; empty input gives empty output |
| Consolidate.ConsolidationAscending | examples/print_elec_prices.py:96-101 | the consolidated series strictly ascends by `time_start` when every input time has at least 13 characters |
| Window.NextHours | examples/print_elec_prices.py:109 | at most 24 entries, all from the series and all `>= now_str`; the window is a prefix of the qualifying entries in order, and it holds all of them unless it holds 24 |
| Window.FirstAtOrAfter | examples/print_elec_prices.py:109 | the index of the first entry `>= now_str`: every entry before it is earlier than `now_str` |
| Window.AtOrAfterIsSuffix | examples/print_elec_prices.py:109 | on an ascending series the entries `>= now_str` are exactly the suffix from the first such entry |
| Window.NextHoursIsContiguous | examples/print_elec_prices.py:109 | on an ascending series the window is the contiguous run of the next 24 entries from the first one at or after `now_str`, or all that remain |
| Window.DayEntries | examples/print_elec_prices.py:114-115 | a day list holds exactly the window's entries whose `time_start` starts with the date, in window order; an entry matching the date of neither list is in neither |
| Window.DaysAreDisjoint | examples/print_elec_prices.py:114-115 | today's and tomorrow's lists share no entry when the two dates differ |
| Listing.Norm | examples/print_elec_prices.py:161-164 | `norm` is 0 on a flat range; otherwise it is the position of the price in the range, in [0, 1] for a price inside it and 0 at the minimum |
| Listing.Ramp | examples/print_elec_prices.py:166-173 | blue is always 0; green is 255 up to the midpoint and red is 255 from the midpoint on; every channel lies in [0, 255] for `norm` in [0, 1] |
| Listing.RampMonotone | examples/print_elec_prices.py:166-173 | red never falls and green never rises as `norm` grows |
| Listing.FlatRangeIsGreen | examples/print_elec_prices.py:161-169 | on a flat price range every entry is drawn pure green (0, 255, 0) |
| Listing.ColourInRange | examples/print_elec_prices.py:161-173 | any price inside the range gets channels in [0, 255] and blue 0 |
| Listing.StartY | examples/print_elec_prices.py:145-149 | an empty column starts at 60 and a non-empty one no higher than 50; the last row never ends above `HEIGHT - 20`, and lands exactly on it when the column fits below row 50 |
| Listing.LayoutColumn | examples/print_elec_prices.py:152-180 | the row loop draws entry i at `start_y + 17 * i` with its `t[11:16]` label, its price and its ramp colour |
| Listing.ColumnBottomAligned | examples/print_elec_prices.py:145-180 | when a column fits, its last row is at `HEIGHT - 20` and consecutive rows are 17 pixels apart |
| Listing.DayColoursInRange | examples/print_elec_prices.py:139-140 | every price in either day list lies between the window's minimum and maximum |
| Listing.Run | examples/print_elec_prices.py:88-211 | "No data found" exactly when the window is empty; otherwise both columns are laid out from the split window with colours scaled to its price range, and every drawn colour is valid |
| BarChart.PricesOf | examples/power_plot.py:60 | `vals` holds the price of every pair, in order |
| BarChart.InsertDesc | examples/power_plot.py:62 | inserting into the sorted list adds exactly that sample |
| BarChart.SortDesc | examples/power_plot.py:62 | the sorted list is a permutation of the input |
| BarChart.SortDescSorted | examples/power_plot.py:62 | the sorted list descends by price |
| BarChart.SortDescIsStable | examples/power_plot.py:62 | the sort is stable: the samples of any one price keep their input order |
| BarChart.TopHours | examples/power_plot.py:63 | `top_6_hours` lists the hour of each of the top six samples, in order |
| BarChart.TopSixSpec | examples/power_plot.py:62-63 | `top_6` has min(6, len(prices)) samples, descends by price and is drawn from the input; no sample left out is dearer than the cheapest kept; among equal prices the kept ones come first in input order |
| BarChart.TopHoursMembers | examples/power_plot.py:63 | an hour is in `top_6_hours` exactly when one of the top six samples has it |
| BarChart.BarWidth | examples/power_plot.py:78-80 | `bar_w` is at least 2, and no wider than `step - 4` when the slot is at least 6 wide |
| BarChart.BarX | examples/power_plot.py:83 | a bar's x lies in the plot width, and the first bar starts on the y axis |
| BarChart.Ratio | examples/power_plot.py:89 | `ratio` times `max - min + 0.1` is the price above the minimum; it lies in [0, 1) for any price in range |
| BarChart.BarHeight | examples/power_plot.py:85 | `norm_h` lies in [0, G_HEIGHT) for any price in range |
| BarChart.BandOf | examples/power_plot.py:90-92 | red exactly above 0.7, yellow exactly in (0.3, 0.7], green exactly at or below 0.3 |
| BarChart.Bars | examples/power_plot.py:78-106 | one bar per pair, and bar i has ratio in [0, 1), height in [0, G_HEIGHT), top y in (BaseY - G_HEIGHT, BaseY] with y + height = BaseY, x inside the plot, width at least 2, band set by the thresholds, a tick exactly at every sixth index and a price label exactly when its hour is a top-six hour |
| BarChart.DrawGui | examples/power_plot.py:49-117 | no data or an empty list gives "Data Unavailable" and no bars; otherwise the bars are those of `Bars`, one per pair, and the y-axis labels carry the prices' maximum and minimum |
| BarChart.BarAtFacts | examples/power_plot.py:82-106 | for a price in range, one iteration draws a bar standing on the x axis, inside the plot area, at least 2 wide, banded by its ratio, ticked exactly at every sixth index, labelled exactly when its hour is a top-six hour |
| BarChart.BarXMonotone | examples/power_plot.py:83 | slot x positions never decrease with the index |
| BarChart.BarXGap | examples/power_plot.py:79-83 | with slots at least 6 wide, a bar ends at least 4 pixels before any later bar begins |
| BarChart.BarsLeftToRight | examples/power_plot.py:79-83 | the first bar is on the y axis, bars never move left as the index grows, and with slots at least 6 wide they do not touch |
| BarChart.RatioMonotone | examples/power_plot.py:89 | the ratio never falls as the price rises |
| BarChart.BandMonotone | examples/power_plot.py:89-92 | a dearer pair never gets a lower band than a cheaper one |
| BarChart.FlatPricesAreGreen | examples/power_plot.py:85-92 | when all prices are equal, every bar is green, zero high and on the x axis, and the division stays defined |

## Left out

- WiFi set-up, the HTTP fetch and JSON decoding (`connect_wifi`, `get_data`, `fetch_prices`) are network I/O; the fetched lists are parameters, and a failed fetch is the `None` input of `BarChart.DrawGui`.
- The display calls, pens, text scale and the number formatting (`f"{price:.2f}"`, `f"{hour:02d}"`) are rendering calls. The model keeps only the coordinates, sizes, colours and label flags passed to them. Of the y-axis labels only the values they show are modelled, as `Chart.maxPrice` and `Chart.minPrice` (examples/power_plot.py:115-117); the header texts, the axis lines and the status messages are not.
- The clock reads that build `now_str`, `today_iso` and `tomorrow_iso` are left out; those strings are parameters.
- Floating-point rounding of averages and ratios is not modelled; prices are exact reals.
- Consolidate.ConsolidationAscending: holds only when every input `time_start` has at least 13 characters. A shorter time string makes a shorter key, and `":"` sorts after the digits, so its stamp could sort out of place. The keys themselves ascend with no such condition (`Consolidate.SortedHoursAreKeys`).
- Window.DaysAreDisjoint: assumes the two dates have the same length, as "YYYY-MM-DD" strings always do. A date that is a prefix of the other would share entries with it.
- Window.NextHoursIsContiguous: is stated for an ascending series, which the consolidation produces under the condition of `Consolidate.ConsolidationAscending`.
- BarChart.BarXGap: the gap is only promised when `step >= 6`. With narrower slots `bar_w` is clamped to 2 and bars may overlap.
- BarChart.DrawGui: takes `(hour, price)` pairs. An entry without those fields makes the script raise before drawing, and that path is not modelled.
- Listing rows are placed by sequential index, bottom-aligned, not by hour of day, and no off-screen row is skipped (examples/print_elec_prices.py:152-180).
- Listing.Ramp: `int()` truncates; the colour channels are not rounded (examples/print_elec_prices.py:167, 172).
- Skipping of malformed samples during consolidation is not modelled. The code indexes `time_start` and `SEK_per_kWh` directly and would raise on a missing field.
- Touch handling and a line plot are not in these scripts.
