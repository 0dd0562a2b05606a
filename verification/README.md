# Monthly sales report — Dafny model

A model of the report computation in the Streamlit page `Ventas.py`. The page loads
two tables, `ventas` (realised sales) and `forecast` (planned sales). It then builds,
for one selected month:

- three headline figures: total forecast, total sales, and sales as a percentage of forecast;
- a segment table: sales and forecast per `segmento`, outer-merged, with `% Ventas`,
  `% Forecast` and `% Ventas vs Forecast` columns;
- a vendor table: sales and forecast per `vendedor`, outer-merged, with a `%` column,
  sorted by sales in descending order;
- the five largest forecast rows not yet billed (`facturado == 'No'`).

Everything is modelled as pure functions over sequences of immutable records.
Amounts are `int` and percentages are unrounded `real`. A division whose denominator
is zero yields `None`: the dataframe would produce `inf` or `NaN` there.

Modules, in pipeline order:

| file | module | models |
|---|---|---|
| `records.dfy` | `Records` | the row types of both tables, dates, months |
| `normalizer.dfy` | `Normalizer` | deriving `mes` and negating the amount at load time |
| `period_filter.dfy` | `PeriodFilter` | the month selector's options and the month filter |
| `totals.dfy` | `Totals` | the three headline figures |
| `aggregator.dfy` | `Aggregator` | `groupby(key)[value].sum()` |
| `reconciler.dfy` | `Reconciler` | `merge(..., how='outer').fillna(0)` |
| `metrics.dfy` | `Metrics` | the percentage columns |
| `top_unbilled.dfy` | `TopN` | the top-5 unbilled forecast rows |
| `report.dfy` | `Report` | the whole page's data, and end-to-end properties |
| `seqs.dfy`, `lex_order.dfy`, `wrappers.dfy` | `Seqs`, `LexOrder`, `Wrappers` | row selection, column sums, descending sort, string order, `Option`/`Result` |
| `scenarios.dfy` | `Scenarios` | worked examples |

Behaviour of the dataframe library that the model spells out:

- `groupby` lists its keys in ascending order. The outer merge of two such results
  lists the union of their keys in ascending order. Strings are ordered by code point.
  A grouped result is therefore the subset type `Aggregator.Aggregate`: strictly
  ascending keys, which also means no key occurs twice. One predicate,
  `LexOrder.StrictlyAscending`, states this order for grouped and merged tables alike,
  and `Seqs.KeysOf` is the set of distinct values of any key column.
- The `.sum()` of no rows is 0.
- `pd.to_datetime` raising on an unparseable date escapes to the `except` in `load_data`.
  The whole load then yields empty tables. `NormalizeAll` models this as a `Failure`
  naming the first bad row.

Two consequences of the code as written:

- The share divisions at `Ventas.py:160-161` are unguarded. So `% Ventas` and `% Forecast`
  are `None` when the `Forecast` column sums to 0. Only the headline percentage
  (`Ventas.py:144-147`) is guarded, and it yields 0.
- `Merge` has no duplicate-key error. Its inputs are `groupby` output, which the type
  `Aggregate` captures: no key occurs twice on either side.

## Model

| member | source | states |
|---|---|---|
| Normalizer.Normalize | Ventas.py:49-50 | a row with a parseable date gets `mes` = the date's month and amount `-1 *` the raw amount, with date, segment and vendor unchanged; an unparseable date is an error naming the row |
| Normalizer.NormalizeAll | Ventas.py:49-56 | the load succeeds exactly when every date parses; it then keeps the row count and order, sets each row's month and negated amount, and `Denormalize` gives back each raw row; otherwise it fails at the first row whose date does not parse |
| Normalizer.NormalizeRoundTrip | Ventas.py:50 | negating twice restores the raw row: `Denormalize` inverts `Normalize` |
| Normalizer.NormalizedTotalIsNegated | Ventas.py:50 | after loading, the sales column sums to minus the raw column's sum |
| PeriodFilter.AvailableMonths | Ventas.py:110 | the selector's options are strictly ascending, and a month is offered exactly when some sales row falls in it |
| PeriodFilter.FilterSales | Ventas.py:126 | the result is a subsequence of the sales rows; it holds exactly the rows of the chosen month, each as often as in the input; it is empty exactly when no row has that month |
| PeriodFilter.FilterForecast | Ventas.py:127 | the same for the forecast rows, whose `mes` is stored in the table |
| Seqs.Where | Ventas.py:126-127 | boolean row selection keeps order, keeps only matching rows, and keeps each matching row with its full multiplicity |
| Totals.OverallPercent | Ventas.py:143-147 | for a positive forecast total the result times the forecast total equals 100 times sales; otherwise the result is 0 |
| Aggregator.GroupSum | Ventas.py:152-153 | the grouped keys are exactly the distinct values of the grouping column, in strictly ascending order; each key's value is the sum of the amounts of the rows with that key; the values add up to the ungrouped column sum |
| Aggregator.AddToAdds | Ventas.py:152-153 | folding one row into a grouped result adds its amount to its key's value and to the total, and leaves every other key's value unchanged |
| Aggregator.Lookup | Ventas.py:156 | a key's value in a grouped result is the value of its row, and 0 for a key that has no row |
| Reconciler.Merge | Ventas.py:156 | the merged keys are the union of both sides' keys, one row each, strictly ascending |
| Reconciler.MergeZeroFill | Ventas.py:156 | each merged row carries each side's aggregated value for its key, or 0 when that side lacks the key |
| Reconciler.MergeTotals | Ventas.py:156 | the merged `Ventas` column sums to the actual aggregate's total and `Forecast` to the forecast aggregate's |
| Reconciler.MergeSymmetric | Ventas.py:183 | exchanging the two sides gives the same keys in the same order with the two value columns exchanged |
| Metrics.Percent | Ventas.py:160-164 | the percentage is defined exactly when the denominator is non-zero, and then times the denominator equals 100 times the numerator |
| Metrics.SegmentMetrics | Ventas.py:160-164 | each row keeps its key and amounts; `% Ventas` and `% Forecast` are percentages of the `Forecast` column's sum; the last column is the row's sales as a percentage of its own forecast |
| Metrics.VendorMetrics | Ventas.py:187 | each row keeps its key and amounts, and `%` is its sales as a percentage of its own forecast |
| Metrics.ForecastSharesSumTo100 | Ventas.py:161 | when the `Forecast` column's sum is non-zero, the `% Forecast` column adds up to exactly 100 |
| Seqs.SortDesc | Ventas.py:190 | the result is a permutation of the input and non-increasing in the sort column |
| Report.VendorTable | Ventas.py:190 | the vendor table is a permutation of the vendor rows with their `%` column, non-increasing in `Ventas` |
| Report.SortedVendorRows | Ventas.py:183-190 | sorting keeps every merged vendor key, and each sorted row is some merged row |
| Report.VendorTableContents | Ventas.py:171-190 | the vendor table has one row per vendor in the month's sales or forecast; each row holds that vendor's summed sales and forecast; `Ventas` is non-increasing |
| Report.SegmentTableContents | Ventas.py:152-157 | the segment table has one row per segment in the month's sales or forecast, with no key twice; each row holds that segment's summed sales and forecast |
| Report.TablesAddUpToTotals | Ventas.py:136-161 | in both merged tables the `Forecast` column sums to the month's total forecast and `Ventas` to its total sales; so the share denominator is the headline forecast total |
| Report.ZeroFillLeavesRatioUndefined | Ventas.py:156-164 | every segment row whose segment has no forecast rows gets `Forecast` 0, and its `% Ventas vs Forecast` is undefined, not 0 |
| Report.VendorZeroFillLeavesRatioUndefined | Ventas.py:180-187 | every vendor row whose vendor has no forecast rows gets `Forecast` 0, and its `%` is undefined, not 0 |
| Report.VendorRowsDistinct | Ventas.py:183-190 | the merged vendor rows have distinct vendors, and sorting them by `Ventas` repeats none |
| Report.BuildReport | Ventas.py:126-206 | the headline totals are the column sums of the month's rows; for a positive forecast total the percentage is total sales over total forecast times 100, and otherwise 0; both tables are built from the month's rows only; the top-unbilled list is `TopUnbilled` of the month's forecast rows with n = 5, so it holds at most 5 unbilled rows of that month, largest `Monto_euro` first, and no unbilled row of the month left out is larger than the last one shown |
| Report.EmptyMonth | Ventas.py:126-206 | a month with no sales and no forecast rows gives zero totals, a zero percentage and empty tables, with no failure |
| TopN.Unbilled | Ventas.py:205 | exactly the rows flagged `'No'`, each as often as in the input |
| TopN.TopUnbilled | Ventas.py:205-206 | only unbilled rows, drawn from the unbilled rows; non-increasing in `Monto_euro`; length `min(n, #unbilled)`; every unbilled row left out is no larger than the last row returned |
| TopN.HeadOfDescending | Ventas.py:206 | the first `n` rows of a descending sequence are descending, and every row left behind is no larger than the last one kept |
| TopN.ShortfallReturnsAll | Ventas.py:206 | when at most `n` rows qualify, all of them are returned |
| Metrics.RatioExamples | Ventas.py:164 | 0 sold of 100 forecast is 0%, 150 of 100 is 150%, and any amount of 0 forecast is undefined |
| Scenarios.NormalizeMarchSale | Ventas.py:49-50 | a raw sale of -500 dated 2024-03-15 loads as a month-3 sale of 500 |
| Scenarios.MalformedDateAborts | Ventas.py:49-56 | a February 30th in the second row aborts the load at row 1 |
| Scenarios.DisjointSegments | Ventas.py:136-164 | sales only in "A" and forecast only in "B" give both segments, each zero-filled on its missing side; totals are 100 and 50 and the percentage is 200; A's ratio is undefined and B's forecast share is 100 |

## Left out

- Database access (`load_data`, the `psycopg2` connection, `st.secrets`, the commented-out SQLAlchemy variant, `st.cache_data`) is I/O. The model starts from the rows that `SELECT * FROM ventas` and `SELECT * FROM forecast` return.
- The check that stops the page when either whole table is empty (`Ventas.py:105-107`) is left out. It is page control flow before any month is chosen. `Report.EmptyMonth` is a different case: one month with no rows. The selector (`Ventas.py:110`, `Ventas.py:119-123`) offers only months that have a sales row, so the page never selects such a month; the lemma states what the computation gives for one.
- Streamlit and plotly calls are presentation and are left out: page config, sidebar selectbox, metrics, dataframes, the bar chart of `ventas_vendedor`.
- Formatting is display only and is left out: `.round(0)`, `.astype(str) + '%'`, the `'${:,.0f}'` currency format, and the Spanish month-name map. The model states unrounded percentages, so numpy's round-half-to-even is not modelled.
- The column selection of the top-unbilled table (`Ventas.py:207`) is left out. It only chooses which columns are displayed; `TopN.TopUnbilled` returns whole rows.
- Amounts are integers, not floats. Sums and ratio identities are exact, and float rounding is not modelled.
- Other columns of the two tables are left out. The model keeps only the columns the report reads.
- Seqs.SortDesc: does not fix the order among rows with equal amounts. pandas' default sort is not stable, so the source fixes no order either. The same holds for `Report.VendorTable` and `TopN.TopUnbilled`.
- Normalizer.Normalize: a date is a `(year, month, day)` triple that parses when the month is 1-12 and the day exists in that month. The string formats `pd.to_datetime` accepts, and its timestamp year range, are not modelled.
- Reconciler.Merge: handles only grouped inputs, with ascending keys and no key twice. The dataframe merge on duplicate keys would emit one row per pair of matches; that case is not modelled, because the page only merges `groupby` output.
- Aggregator.GroupSum: every column is assumed non-null; the record types have no missing `fecha`, `segmento`, `vendedor` or amount. With nulls the dataframe behaves differently. `groupby` drops rows whose key is null (`Ventas.py:152-153`, `Ventas.py:171`, `Ventas.py:180`), while the headline sums (`Ventas.py:136`, `Ventas.py:140`) keep their amounts, so the group values would no longer add up to the totals. `.sum()` skips a null amount. A null `fecha` becomes `NaT` and its `mes` `NaN` (`Ventas.py:49`) without raising, so that row matches no month. The same assumption underlies `Report.TablesAddUpToTotals`, `Report.SegmentTableContents` and `Report.VendorTableContents`. The columns' nullability is set by the database schema, which is not part of this model.
