# Portfolio analyzer: a verified model of the composite and the row list

The portfolio analyzer is a Streamlit page that comes in two near-duplicate
scripts, `pol.py` and `pol2.py`. On it a user keeps a list of at most five
(symbol, weight) rows. The page fetches daily bars for the symbols. It then
draws two weighted composites: one of the closes and one of the volumes.
Each composite is built in three steps:

- each symbol's series is normalised so that its first day is 100;
- only the dates that every symbol shares are kept;
- each common date gets the weighted sum of the normalised values.

A statistics table gives each symbol's price change and mean volume.

This project models that core in Dafny. The modules are:

- `Extended`: the numbers pandas computes with. `Fin(v)` is an exact real. `NonFinite` stands for inf or NaN, which a division by a zero base produces and which every later sum and product keeps.
- `Dicts`: Python dicts, as ordered sequences of entries with unique keys. Assigning to an existing key keeps its position.
- `Bars`: a symbol's processed series (date, close, volume, vwap) and the normalisation.
- `Composite`: `calculate_portfolio_performance` and `calculate_combined_volume`. The two differ only in their column, so both are the method `Composite.Composite` with a `Metric` parameter. The method's steps are the loops of the source: normalise, intersect, sort, then weigh each date. The method is proved against the specification `IsComposite`, which says:
  - the dates are exactly the common dates, in strictly ascending order;
  - each value is the weighted sum at its date.
- `CompositeProperties`: properties of that specification. The composite is unique. Price and volume share their dates. A single symbol at weight 100 gives back its own normalised series. Uniform inputs give that same value. The weighted sum is linear in the weights. The result is finite exactly when every weighted symbol's first value is non-zero. Disjoint calendars give an empty composite.
- `CompositeExample`: a worked two-symbol composite.
- `Picker`: the session's row list, as the class `StockList`. Its methods mirror the source:
  - adding a row, capped at five;
  - the per-row pass that reads the widgets, totals the weights and collects the Remove marks;
  - popping the marked rows in reverse order;
  - building the symbol-to-weight map.

  The pol2.py row (free text, then validation) and the pol.py row (a select box over ten symbols) are two methods.
- `Analyze`: the Analyze button of each script. This covers the gate, the fetch loop and the two composites. The network answers are a parameter, `feed`, which maps each symbol whose request returned results to its processed series.
- `Statistics`: the arithmetic of the "Trading Statistics" table.

Three behaviours of the code are easy to miss; the model follows the code:

- A series whose first close (or volume) is 0 normalises to inf or NaN, not to a first value of 100. `Bars.Normalise` promises 100 only when the base is non-zero.
- A symbol whose fetch fails is not dropped from pol2.py's weight map. The composite's lookup then fails (see "## Findings").
- When the calendars share no date, the composite loop yields an empty list. The code then calls `set_index('date')` on an empty frame, which raises (pol2.py:83), so the charts are never reached. The model stops at the empty list.

## Model

| member | source | states |
|---|---|---|
| Extended.Ratio | pol2.py:64 | a division is finite exactly when the divisor is non-zero, and then the quotient times the divisor is the dividend |
| Extended.Add | pol2.py:80 | a sum is finite exactly when both operands are finite, and then it is their exact sum |
| Extended.Scale | pol2.py:80 | multiplying by a weight fraction keeps finiteness, and the product divided by a non-zero factor is the operand |
| Dicts.Put | pol2.py:443 | assigning `d[k] = v` adds `k` to the keys, keeps keys unique, makes `d[k]` read `v` and leaves every other key's value alone; the length grows only for a new key |
| Dicts.TotalPut | pol2.py:483 | `sum(weights.values())` after an assignment: the old value of the key is replaced by the new one |
| Dicts.NoKeys | pol2.py:483 | a dict is empty exactly when it has no keys (`len(weights) > 0`) |
| Bars.Normalise | pol2.py:64 | one sample per bar with the bar's date; every value is finite exactly when the first value is non-zero; each finite value times the first value is 100 times the bar's value; the first is then exactly 100 |
| Bars.NormalisedFirstIsHundred | pol2.py:64 | the normalised value on the first date of a non-empty series with a non-zero base is exactly 100 |
| Bars.NormalisedOnBar | pol2.py:64 | looking a normalised series up by date gives the bar's value divided by the first value, times 100 |
| Bars.ValueOn | pol2.py:80 | `.loc[date]` returns the value of a sample carrying that date |
| Bars.ValueOnAt | pol2.py:80 | `.loc[date]` on a date-ascending series returns the sample at that date |
| Composite.NormaliseAll | pol2.py:61-65 | one normalised series per symbol, under the same key and in the same order |
| Composite.CommonDates | pol2.py:67-72 | a date is in the result exactly when every normalised series has it: a subset of each input's dates, containing every shared date |
| Composite.SortDates | pol2.py:74 | the result is strictly ascending (no duplicates) and holds exactly the dates of the set |
| Composite.WeightedValue | pol2.py:78-80 | the accumulator ends as the running sum, in weight-map order, of each symbol's value on the date times its weight over 100 |
| Composite.LookedUpNormalised | pol2.py:80 | on a common date, every weighted symbol's normalised frame has the date and yields that symbol's normalised value |
| Composite.WeighDates | pol2.py:76-81 | the list built by appending one (date, value) per sorted common date is the weighted sum at each date, in order |
| Composite.Composite | pol2.py:59-83 | the result satisfies `IsComposite`: its dates are the common dates, strictly ascending, and each value is the sum over the weight map of normalised value times weight over 100 |
| Composite.CommonOfNormalised | pol2.py:67-72 | intersecting the normalised frames' dates gives the intersection of the raw series' dates |
| Composite.EvaluateIsComposite | pol2.py:74-83 | weighing every date of an ascending list of exactly the common dates meets the composite specification |
| CompositeProperties.BlendLinear | pol2.py:78-80 | the accumulated weighted sum is linear in the weights: weighing by the position-wise sum of two weight lists gives the sum of the two weighted sums |
| CompositeProperties.WeightedSumLinear | pol2.py:76-81 | for two weight maps over the same symbols in the same order, the composite value under their sum is the sum of their composite values |
| Composite.BlendStep | pol2.py:79-80 | one more pass of the inner loop adds that symbol's scaled value to the accumulator |
| CompositeProperties.IncreasingUnique | pol2.py:74 | two strictly ascending lists with the same elements are equal: sorting the set has one outcome |
| CompositeProperties.CompositeUnique | pol2.py:59-83 | there is one composite for given data, weights and column |
| CompositeProperties.SameDateKeys | pol2.py:85-109 | the volume composite has the same date keys as the price composite |
| CompositeProperties.SingleSymbolComposite | pol2.py:79-80 | one symbol at weight 100 gives back that symbol's normalised series |
| CompositeProperties.SingleWeightedSum | pol2.py:80 | with one symbol at weight 100 the weighted sum on a date is the normalised value there |
| CompositeProperties.BlendUniform | pol2.py:79-80 | when every symbol has the same value c, the weighted sum is c scaled by the total weight over 100 |
| CompositeProperties.UniformComposite | pol2.py:79-80 | with weights summing to 100 and every symbol at the same value c on a date, the composite there is c |
| CompositeProperties.BlendFinite | pol2.py:80 | a weighted sum is finite exactly when every term is finite |
| CompositeProperties.WeightedSumFinite | pol2.py:64 | a composite value is finite exactly when every weighted symbol's first value is non-zero |
| CompositeProperties.EmptyIntersection | pol2.py:74-81 | disjoint calendars give an empty composite |
| CompositeExample.BlendHalves | pol2.py:80 | two symbols at 50 each give the mean of their normalised values |
| CompositeExample.ExampleSum | pol2.py:80 | on each day of the example the weighted sum is the mean of both normalised closes |
| CompositeExample.WorkedExample | pol2.py:59-83 | A (closes 10, 20) and B (closes 5, 5) at 50 each give the composite 100 then 150 |
| Picker.Edited | pol2.py:403-422 | a pol2.py row after a rerun: the weight is the input; an unchanged symbol keeps symbol and name; a changed symbol is kept (and named) only when it validates and is blanked otherwise |
| Picker.EditedNamed | pol2.py:403-412 | a row never names a symbol other than its own, and a non-empty symbol is either unchanged or validated |
| Picker.RowTotalBounds | pol2.py:423 | `total_weight` over rows whose weights lie in 0..100 lies between 0 and 100 per row |
| Picker.RowTotalStep | pol2.py:423 | `total_weight += weight`: the total over one more row adds that row's weight |
| Picker.MarksStep | pol2.py:426-427 | appending the index of a pressed row keeps the marks ascending and exactly the pressed rows |
| Picker.Kept | pol2.py:433-434 | the rows left after removal are no more than before, and each was in the list |
| Picker.KeptNone | pol2.py:433-434 | marking no row below the length removes nothing |
| Picker.KeptPrefix | pol2.py:433-434 | rows before every marked index stay in place |
| Picker.KeptRemove | pol2.py:433-434 | popping index p, below every index already popped, removes exactly the p-th kept row: reverse order removes the marked rows |
| Picker.KeptWeights | pol2.py:433-434 | removal keeps every weight in 0..100 |
| Picker.KeptLength | pol2.py:433-434 | the number of rows left is the length less the number of marked indices below it |
| Picker.Assigned | pol2.py:441-443 | filling a dict row by row from the picked rows keeps its keys unique |
| Picker.AssignedKeys | pol2.py:441-443 | the map's keys are exactly the symbols of the picked rows |
| Picker.AssignedLast | pol2.py:441-443 | a repeated symbol takes the weight of its last picked row |
| Picker.AssignedAtLeast | pol2.py:442 | every value in the map is at least a bound that all picked rows' weights meet |
| Picker.AssignedTotal | pol.py:392 | with non-negative weights, the map sums to between 0 and the total over every row |
| Picker.WeightsFromKeys | pol2.py:441-443 | the weight map holds exactly the symbols of the rows with a non-empty symbol and a weight above 0, and every value is above 0 |
| Picker.SumNonNegative | pol2.py:423 | a total of non-negative weights is non-negative |
| Picker.StockList.constructor | pol.py:357-358 | the session starts with no rows |
| Picker.StockList.AddStock | pol2.py:381-383 | a blank row is appended exactly when the button is clicked and the list has fewer than five rows; the cap of five is kept |
| Picker.StockList.EditRows | pol2.py:390-427 | every row becomes its edited self; the returned total is the sum of every row's weight; the marks are exactly the pressed rows, ascending; named rows stay named |
| Picker.StockList.SelectRows | pol.py:372-396 | every row takes its selected symbol and weight; the total is the sum of every row's weight; the marks are exactly the pressed rows; every symbol is one of the options |
| Picker.StockList.RemoveMarked | pol2.py:433-434 | popping the ascending marks in reverse order leaves exactly the unmarked rows, in their original order |
| Picker.StockList.WeightMap | pol2.py:441-443 | the map is filled from the rows with a non-empty symbol and a weight above 0, in row order |
| Analyze.PolWeightKeys | pol.py:421-427 | pol.py's weight map holds exactly the symbols of the rows that have a symbol and whose request returned results, rows at weight 0 included |
| Analyze.FedTable | pol2.py:487-490 | a non-empty dict filled from the processed series is a valid input to the composite |
| Analyze.Pol2Fetch | pol2.py:487-490 | the fetched symbols are exactly the weighted symbols whose request returned results, each with its series |
| Analyze.PolFetch | pol.py:421-427 | the weight map is filled from the rows that have a symbol and data, and has exactly the fetched dict's keys |
| Analyze.SameKeysCover | pol.py:63 | when the two dicts share their keys, every weighted symbol has data |
| Analyze.BothComposites | pol2.py:492-494 | both composites meet their specification and share their dates |
| Analyze.AnalyzePol2 | pol2.py:483-494 | as written: skipped exactly when the button was not clicked or the map is empty or does not sum to 100; no data when no request answered; the lookup misses exactly when some but not all weighted symbols were fetched; otherwise both composites, with the same dates |
| Analyze.Pol2MissingDataExample | pol2.py:487-490 | AAPL and MSFT at 50 each with only AAPL answering pass the gate and are partly fetched |
| Analyze.Pol2FetchWeighted | pol2.py:487-490 | the fetch loop recording each fetched symbol's weight: data and weights share their keys, and each weight is the original |
| Analyze.AnalyzePol2Fetched | pol2.py:483-494 | corrected: skipped exactly when pol2.py's gate fails; otherwise no data exactly when no request answered; the lookup never misses, and the composites weigh exactly the fetched symbols at their weights |
| Analyze.AnalyzePol | pol.py:419-431 | skipped exactly when the button was not clicked or the row total is not 100; the map has exactly the fetched symbols, so the lookup never misses; no data exactly when the map is empty |
| Analyze.PolGateMapShort | pol.py:419 | rows ("", 50) and (AAPL, 50) pass the gate while the map sums to 50 |
| Analyze.PolGateMapAtMost | pol.py:419 | with non-negative weights, a run that passes pol.py's gate weighs at most 100 in total |
| Analyze.Pol2GateRows | pol2.py:483 | with non-negative weights, pol2.py's gate implies the rows total at least 100 |
| Statistics.PriceChange | pol2.py:354 | the change is finite exactly when the first close is non-zero, and then (change + 100) times the first close is 100 times the last |
| Statistics.PriceChangeFromNormalised | pol.py:324 | the price change is the last normalised close less 100 |
| Statistics.FlatPriceChange | pol2.py:354 | an unchanged close gives a change of 0 |
| Statistics.VolumeSumBounds | pol2.py:355 | when every day's volume lies in `lo..hi`, the volume total lies between `lo` and `hi` each added once per day |
| Statistics.MeanVolumeBounds | pol2.py:355 | the mean volume lies within any bounds `lo..hi` that every day's volume lies within |
| Statistics.StatsOf | pol2.py:351-363 | a table row carries the symbol, its weight and the last close and vwap; its price change is finite exactly when the first close is non-zero and then satisfies (change + 100) times the first close = 100 times the last close; its mean volume times the number of days is the volume total, and lies between the least and the greatest day's volume |
| Statistics.MeanVolume | pol2.py:355 | `.mean()`: the mean times the number of days is the volume total, and it lies between the least and the greatest day's volume |
| Statistics.LeastVolume | pol2.py:355 | no day's volume is below the least volume (the bound the mean is checked against) |
| Statistics.LeastVolumeAttained | pol2.py:355 | the least volume is some day's volume |
| Statistics.GreatestVolume | pol2.py:355 | no day's volume is above the greatest volume |
| Statistics.GreatestVolumeAttained | pol2.py:355 | the greatest volume is some day's volume |
| Statistics.Statistics | pol2.py:350-364 | one row per fetched symbol, in the dict's order, each the statistics of that symbol's series |

## Left out

- The HTTP calls `validate_symbol`, `symbol_search` and `fetch_stock_data` are left out. Their answers are parameters: the `valid` flag of a `RowInput`, and the `feed` map (a symbol whose request fails is absent from it).
- `process_stock_data` (the column renames, epoch-millisecond dates and `sort_index`) is left out. Its output is assumed through `Analyze.WellFormed`: non-empty series with strictly ascending dates.
- Plotly figures, Streamlit layout and widgets, CSS, the embedded JavaScript, and the text formatting of table cells (`:.2f`, `int(avg_volume):,`) are left out as display-only.
- The session state's `search_results` and `error_message`, the error message and caption shown for a row, and the date-range inputs are left out. They do not change the rows or the composite.
- The `.upper()` of a typed symbol is left out. The model receives the symbol already upper-cased, since Dafny strings have no case mapping.
- IEEE floating point is left out. Values are exact reals, and the only float behaviour kept is that a zero base gives inf or NaN (`NonFinite`), which every later operation keeps.
- Building the result DataFrame (`pd.DataFrame(...).set_index('date')`) is left out. On an empty intersection `set_index('date')` raises; the model stops at the list of (date, value) pairs.
- The open, high and low columns are not part of the model. Nothing in the core uses them.
- Composite.Composite: requires every weighted symbol to have data (`Covers`). The source fails with a KeyError when one does not, and that failure is modelled one level up, as the `MissingData` outcome of `Analyze.AnalyzePol2`.
- Picker.StockList.EditRows: requires weights in 0..100. The number input enforces that range.
- Picker.StockList.SelectRows: requires each selection to be one of the select box's options, which the widget enforces.
- Rerun sequencing is left out: Streamlit reruns the script on every interaction. The model gives the order within one run (add, the row pass, removal, the map, then Analyze) as separate operations and does not chain them.
- Rows in pol.py have no name. The model gives them the empty name, which `Picker.Selected` never changes.

## Findings

| source | as written | input that shows it | evidently intended | confidence | as-written member | corrected member |
|---|---|---|---|---|---|---|
| pol2.py:487-494 | the fetch loop stores data only for symbols whose request answered, but the unchanged weight map goes to the composite, whose `normalized_dfs[symbol]` at pol2.py:80 raises KeyError for a symbol without data | weights AAPL 50 and MSFT 50, the Analyze button clicked, only the AAPL request returning results | a failed symbol is dropped from the portfolio, as pol.py does by recording a weight only after a successful fetch | not executed | Analyze.AnalyzePol2 | Analyze.AnalyzePol2Fetched |
