# ChrunAi dashboard logic in Dafny

This project models the non-visual logic of the ChrunAi customer dashboard, a React application.
It covers three parts:

- **Customer insight page** (`src/components/pages/cusotmer.js`).
  - The trend flags over the last four points of a revenue series.
  - The three first-match-wins narrative cascades: churn decision, retention advice and offers.
  - The observation sentence and the two-line recommendations.
  - The quarter-to-year revenue rollup, a loop over a JavaScript `Map`.
  - The lookup of the customer named in the route, with the page it then shows.
- **Dashboard** (`src/components/pages/Home.js`).
  - The per-cluster pie counts and the table rows filtered by the active pie slice.
  - The thousands grouping of the revenue column.
  - The component state and its handlers: pie click, legend click, the Clear chip, table change and hover.
- **Customer detail page** (`src/components/pages/customer.js`).
  - The revenue lists built from the fetched record, with the yearly one sorted by key.
  - The KPI totals and the delta badge.
  - The churn tag colour.
  - The normalised observation and recommendation lists, with the defaults of their rows.

The files:

- `js.dfy` (module `Js`): the JavaScript semantics the pages rely on. It has optional values,
  numbers with NaN and their truthiness, ASCII lower-casing, `includes`, and the fields of `split`.
- `insights.dfy` (module `Insights`): the customer insight page.
- `grouping.dfy` (module `Grouping`): `formatRevenue`.
- `dashboard.dfy` (module `Dashboard`): the dashboard. Its state is the class `Home`.
- `detail.dfy` (module `Detail`): the customer detail page.

Modelling choices:

- Revenue amounts are `real`s, so sums and percentages are exact.
- A JavaScript number that may be NaN is `Num`.
- `Infinity` as a range bound is `None`.
- Component state that a handler updates is a class field. Each handler is a method whose
  `ensures` gives every field's new value.
- Helpers and memos that only compute a value are functions. The two memos that build their
  result in a loop, `chartData` (`Dashboard.ChartData`) and the quarter-to-year rollup
  (`Insights.RevenueByYear`), are methods with that loop, proved equal to a function.

## Model

| member | source | states |
|---|---|---|
| Js.ToLower | src/components/pages/Home.js:89 | lower-casing keeps the length, maps each character on its own, and leaves no upper-case ASCII letter |
| Js.Before | src/components/pages/cusotmer.js:132 | `split(c)[0]` is a prefix without `c`, ended by the first `c` if there is one |
| Js.After | src/components/pages/Home.js:48 | the second `split` field exists exactly when the text contains the separator, and the text is first field, separator, rest |
| Js.Sub | src/components/pages/cusotmer.js:23 | a difference is finite exactly when both operands are, and then adds back to the minuend |
| Js.NatText | src/components/pages/customer.js:378 | the decimal text of a number is a non-empty run of digits, without a leading zero unless the number is 0, whose value is that number |
| Js.Contains | src/components/pages/cusotmer.js:37 | `includes` holds only when the searched text is no longer than the text, and holds when it is a prefix |
| Js.ContainsAt | src/components/pages/cusotmer.js:37 | `includes` holds exactly when the searched text occurs at some position |
| Js.Num.OrZero | src/components/pages/customer.js:74-75 | the fallback to 0 gives `n` when `n` is truthy and 0 when it is 0 or NaN |
| Js.Greater | src/components/pages/cusotmer.js:26-27 | `a > b` holds exactly when `a - b` is a finite positive number, so never with NaN |
| Insights.Recent | src/components/pages/cusotmer.js:21 | the window is the last min(4, n) points of the series |
| Insights.HasTrend | src/components/pages/cusotmer.js:22 | a definition without `ensures`: at least two points and every value of type number (NaN included). TrendFlags states what follows from it |
| Insights.TrendFlags | src/components/pages/cusotmer.js:20-30 | a trend exists iff the window has at least two points, all numbers. The delta is last minus first (0 without a trend). Declining iff the delta is negative, improving iff positive, never both |
| Insights.ClusterOf | src/components/pages/cusotmer.js:33 | the cluster text has no upper-case letter, is empty without a customer or a cluster, and is as long as the cluster otherwise |
| Insights.BuildInsights | src/components/pages/cusotmer.js:32-62 | for each of the three texts, each outcome holds iff its condition holds and every earlier condition fails (first-match order "low"/declining, "mixed", "high" for churn; declining, "low", "high" for retention; "mixed", "low" for offers) |
| Insights.OffersIgnoreTrend | src/components/pages/cusotmer.js:54-59 | the offer text is the same for any two series |
| Insights.MixedSteadyRetention | src/components/pages/cusotmer.js:36-59 | a non-declining "mixed" cluster gets the monitor decision, the combo offer and only the default retention advice |
| Insights.BuildObservations | src/components/pages/cusotmer.js:64-71 | drop sentence with the (negative) delta iff declining, growth sentence with the positive delta iff improving, else the stable sentence |
| Insights.BuildRecommendations | src/components/pages/cusotmer.js:73-99 | always two lines; recovery iff declining, then premium for "high", diversify for "mixed", else reorder |
| Insights.Years | src/components/pages/cusotmer.js:130-135 | a definition without `ensures`: the years of the keys in order of first appearance, the key order of the `Map`. YearsDistinct and YearsExact state its properties |
| Insights.YearSum | src/components/pages/cusotmer.js:133 | a definition without `ensures`: the sum of the values of the quarters in one year, the value `map.set` accumulates. RollupPreservesTotal and RevenueByYear state its properties |
| Insights.YearsDistinct | src/components/pages/cusotmer.js:130-135 | the rollup lists no year twice |
| Insights.YearsExact | src/components/pages/cusotmer.js:131-133 | a year is listed iff some quarter's key has that prefix before the first `-` |
| Insights.RollupPreservesTotal | src/components/pages/cusotmer.js:129-136 | the yearly totals add up to the quarterly grand total |
| Insights.RevenueByYear | src/components/pages/cusotmer.js:129-136 | the loop yields one row per distinct year in order of first appearance, each with the sum of its quarters, and the rows' total equals the quarters' total |
| Insights.FixtureRollup | src/components/pages/cusotmer.js:115-136 | the bundled eight quarters roll up to 2024 = 5,060,000 then 2025 = 3,520,000 |
| Insights.FixtureTrend | src/components/pages/cusotmer.js:115-127 | on the bundled quarters the trend is declining by 340,000, so churn, retention and recommendations take their decline branches |
| Insights.FindCustomer | src/components/pages/cusotmer.js:109 | the result is the first record whose number equals the route's, or none when no record matches |
| Insights.DetailPage.constructor | src/components/pages/cusotmer.js:103-105 | the page starts loading, with no customer and no error |
| Insights.DetailPage.View | src/components/pages/cusotmer.js:138-151 | spinner iff loading, error alert iff an error is set, content iff a customer is set and no error |
| Insights.DetailPage.Lookup | src/components/pages/cusotmer.js:107-113 | sets the first match or the not-found error and ends loading. A found customer leaves an earlier error in place, and that error is what is shown |
| Insights.DetailPage.LookupClearingError | src/components/pages/cusotmer.js:107-113 | with the error reset on success, the page shows the customer found, or the not-found alert |
| Insights.StaleErrorAfterLookup | src/components/pages/cusotmer.js:107-113 | after an unknown and then a known number, the customer is found but the not-found alert is shown |
| Insights.FoundAfterFailedLookup | src/components/pages/cusotmer.js:107-113 | the same visits with the corrected lookup show the customer |
| Insights.ChurnRiskLabel | src/components/pages/cusotmer.js:169-171 | the cell reads "High" iff the cluster is exactly "Low_Revenue", else "Low" |
| Insights.ChurnRiskLabelIsCaseSensitive | src/components/pages/cusotmer.js:36-38 | a "low_revenue" customer gets the churn-risk decision but a "Low" churn risk cell |
| Grouping.Group | src/components/pages/Home.js:49 | the replacement only inserts underscores: the result is at least as long, and each of its characters is an underscore or a character of the input |
| Grouping.FormatRevenue | src/components/pages/Home.js:46-51 | the result always holds a point, and the text before its first point is the grouped integer part |
| Grouping.UngroupGroup | src/components/pages/Home.js:49 | deleting the underscores from the grouped text gives back the integer part |
| Grouping.SeparatorInDigits | src/components/pages/Home.js:49 | in a digit string an underscore goes before a digit exactly when a positive multiple of three digits follows it |
| Grouping.GroupDigits | src/components/pages/Home.js:49 | on a digit string the regex replacement equals splitting off groups of three from the right |
| Grouping.GroupSigned | src/components/pages/Home.js:47-49 | a leading minus sign is kept and the digits after it are grouped as without it |
| Grouping.ChunkedLength | src/components/pages/Home.js:49 | grouping n digits adds (n - 1) / 3 underscores |
| Grouping.FormatRevenueSplit | src/components/pages/Home.js:46-51 | text of the form int.frac formats as the grouped int part, a point, and frac |
| Grouping.FormatRevenueUngroup | src/components/pages/Home.js:46-51 | deleting the underscores from the formatted text gives back the `toFixed` text |
| Grouping.FormatRevenueNoPoint | src/components/pages/Home.js:48-50 | text without a point is grouped and followed by ".undefined" |
| Dashboard.RangeFor | src/components/pages/Home.js:96-100 | the range of every slice, named or not, admits exactly the non-negative revenues |
| Dashboard.Matches | src/components/pages/Home.js:155 | a matching row needs a named slice and a revenue at least its minimum, and the slice's name has no upper-case letter, since the row's label is lower-cased before the comparison |
| Dashboard.Filter | src/components/pages/Home.js:154-156 | the result is an order-preserving subsequence of the rows, all matching, holding each matching row as often as the input does |
| Dashboard.FilteredRows | src/components/pages/Home.js:151-157 | no active slice gives all rows, an active one gives the filter by its name and range |
| Dashboard.ClickedSliceRows | src/components/pages/Home.js:96-100 | a clicked slice keeps exactly the rows of that lower-cased cluster with non-negative revenue, in order |
| Dashboard.UnnamedSliceEmpty | src/components/pages/Home.js:155 | a slice whose name is `undefined` matches no row |
| Dashboard.Count | src/components/pages/Home.js:88-91 | a cluster's count is at most the number of rows |
| Dashboard.Chart | src/components/pages/Home.js:85-93 | nothing for no rows, else three entries in key order, each the count of its cluster, none above the row count |
| Dashboard.TopTotal | src/components/pages/Home.js:102 | no entry's value exceeds the total, and entries that are all 0 total 0 |
| Dashboard.ClusterPartition | src/components/pages/Home.js:87-91 | the three counts plus the rows of other clusters make up all rows |
| Dashboard.ChartTotal | src/components/pages/Home.js:102 | the pie total is the row count minus the rows of other clusters, so at most the row count |
| Dashboard.SliceCountIsRowCount | src/components/pages/Home.js:151-157 | with non-negative revenues, a clicked slice's table has as many rows as the slice counts |
| Dashboard.ChartData | src/components/pages/Home.js:85-93 | the loop yields nothing for no rows, else three entries high, mixed, low with their counts of lower-cased cluster labels |
| Dashboard.Visible | src/components/pages/Home.js:258 | the drawn entries are an order-preserving subsequence of the chart data, holding exactly the entries whose name is not hidden |
| Dashboard.NextSlice | src/components/pages/Home.js:167-171 | the slice clears iff the clicked name equals the active slice's name, and otherwise becomes that name with range [0, Infinity) |
| Dashboard.PieClickTwice | src/components/pages/Home.js:167-171 | two clicks on one name from no slice clear it again, and from that name's slice restore it |
| Dashboard.ClusterLabel | src/components/pages/Home.js:164 | the active cluster is the clicked name, or "None" without one |
| Dashboard.Toggle | src/components/pages/Home.js:179-184 | a legend click flips the membership of its name and of no other |
| Dashboard.ToggleTwice | src/components/pages/Home.js:179-184 | two legend clicks on one name restore the hidden set |
| Dashboard.ActiveIndex | src/components/pages/Home.js:265 | the emphasised index is the hover index when it is at least 0, else the selected index; it is non-negative iff one of the two is |
| Dashboard.Home.constructor | src/components/pages/Home.js:57-64 | no data, cluster "None", hover and selection -1, nothing hidden, no slice, page 1 of 20 |
| Dashboard.Home.Table | src/components/pages/Home.js:300 | the table's total is the number of filtered rows, with the stored page and page size |
| Dashboard.Home.DataLoaded | src/components/pages/Home.js:74 | fetched rows replace the data and nothing else changes |
| Dashboard.Home.PieClick | src/components/pages/Home.js:161-174 | sets the cluster label and selection, resets to page 1 keeping the page size, toggles the slice, and leaves data, hover and hidden names alone |
| Dashboard.Home.LegendClick | src/components/pages/Home.js:176-187 | only the hidden set changes (one name flips), so the table rows stay the same |
| Dashboard.Home.ClearChip | src/components/pages/Home.js:241-245 | cluster "None", selection -1, no slice, so all rows show; pagination is untouched |
| Dashboard.Home.TableChange | src/components/pages/Home.js:159 | only page and page size change; the filter and rows stay, and the total is still the row count |
| Dashboard.Home.MouseEnter | src/components/pages/Home.js:269 | the hovered index is stored and emphasised when non-negative |
| Dashboard.Home.MouseLeave | src/components/pages/Home.js:270 | hover returns to -1 and the emphasis falls back to the selected index |
| Detail.RevenueByQuarter | src/components/pages/customer.js:59-62 | no field gives an empty list, otherwise the object's entries in their own order |
| Detail.KeyLe | src/components/pages/customer.js:68 | a key that is a prefix of another is ordered before it |
| Detail.KeyLeTotal | src/components/pages/customer.js:68 | any two keys are ordered one way or the other |
| Detail.KeyLeTrans | src/components/pages/customer.js:68 | the key order is transitive |
| Detail.KeyLeAntisymmetric | src/components/pages/customer.js:68 | keys ordered both ways are equal |
| Detail.SortByKey | src/components/pages/customer.js:66-68 | the result is sorted by key and a permutation of the entries |
| Detail.RevenueByYear | src/components/pages/customer.js:64-69 | no field gives an empty list, otherwise a key-sorted permutation of the year map's entries |
| Detail.SortedPairs | src/components/pages/customer.js:68 | in the sorted list every key is no greater than any later key |
| Detail.LatestHasGreatestKey | src/components/pages/customer.js:64-74 | the entry read as `latest` carries the greatest year key |
| Detail.Sum | src/components/pages/customer.js:24 | a definition without `ensures`: the fold adding each value, with 0 for a value that is 0, NaN or missing. SumOfFalsy and SumSorted state its properties |
| Detail.SumOfFalsy | src/components/pages/customer.js:24 | values that are all 0, NaN or missing sum to 0 |
| Detail.SumSorted | src/components/pages/customer.js:24 | the sum of the values does not depend on the order of the entries |
| Detail.TotalsOf | src/components/pages/customer.js:71-79 | total is the sum; latest and prev are the last two values or 0; delta is latest minus prev; deltaPct is delta / prev * 100 for prev not 0, exactly 0 otherwise |
| Detail.DeltaPct | src/components/pages/customer.js:77 | the percentage times prev is the delta times 100 when prev is not 0, and it is 0 when prev is 0 |
| Detail.TotalOfRecord | src/components/pages/customer.js:64-73 | the total KPI is the sum over the record's year map, whatever its key order |
| Detail.BadgePct | src/components/pages/customer.js:157 | the badge divides by prev, or by 1 when prev is 0, so then it shows latest * 100 |
| Detail.DeltaBadge | src/components/pages/customer.js:81-89 | the badge is up and green iff the percentage is at least 0, else red; the shown magnitude is its absolute value |
| Detail.BadgeVersusDeltaPct | src/components/pages/customer.js:77 | the badge equals deltaPct when prev is not 0, and shows latest * 100 where deltaPct is 0 |
| Detail.BadgeDirection | src/components/pages/customer.js:81-83 | with prev > 0 the badge is up iff latest >= prev, with prev < 0 iff latest <= prev, with prev = 0 iff latest >= 0 |
| Detail.Text | src/components/pages/customer.js:119 | `String` of an empty array is "", and of a one-element array the text of that element |
| Detail.FieldText | src/components/pages/customer.js:113 | an absent field reads "undefined", null reads "null", and a string reads as itself |
| Detail.ChurnColor | src/components/pages/customer.js:113 | red iff the lower-cased `String(churn)` contains "high", gold otherwise |
| Detail.ChurnIgnoresCase | src/components/pages/customer.js:113 | a churn text containing "high" in any letter case is red |
| Detail.Truthy | src/components/pages/customer.js:118 | a truthy field is present and not null; arrays and objects are truthy even when empty |
| Detail.Normalise | src/components/pages/customer.js:116-126 | an array is kept, another truthy value becomes one row keyed by the section name with `String(x)`, and a falsy or absent value gives an empty list |
| Detail.Prop | src/components/pages/customer.js:378-379 | a property is read exactly when the row is an object holding it with a non-null value, and then it is that value |
| Detail.ViewRow | src/components/pages/customer.js:377-379 | a row's key is its own non-null `key` or "Item i+1", and its value its own non-null `value` or "" |
| Detail.KeyValueView | src/components/pages/customer.js:358-394 | the empty state iff the list is empty, else one rendered row per element in order |
| Detail.ScalarShowsOneRow | src/components/pages/customer.js:116-126 | a truthy non-array observation shows as one row with the section name and its text |
| Detail.EmptyShowsEmptyState | src/components/pages/customer.js:358 | a falsy or absent field and an empty array both show the empty state |
| Detail.UnkeyedRowLabel | src/components/pages/customer.js:378 | a row without a key is labelled "Item " followed by digits whose value is its one-based position |

## Left out

- Network I/O and the async lifecycle: the `fetch` calls, the `active` cancellation flag, and the loading and error setters around them (`customer.js`, `Home.js`). The fetched list or record is a parameter.
- Locale and floating-point formatting: `toFixed`, `toLocaleString`, `compactIN` and `formatCurrency`. `formatRevenue` is modelled from the text `toFixed(2)` produced. The amounts in the observation sentences are a function parameter `fmt`.
- Text of a number: `String(x)` of a JSON number is a parameter `numText`.
- NaN and the infinities: NaN is modelled where the code tests or coerces a number (`Num`). Revenues in rows and quarters are finite reals. Infinity appears only as the open upper bound of a range.
- Dashboard.ChartData: an Object.prototype property name such as "constructor" as a cluster label is not modelled. `clusterMap[cluster] !== undefined` would accept it. Other labels are ignored, as modelled.
- Detail.RevenueByYear: orders keys by Unicode code point, not by the locale collation of `localeCompare`. The two agree on the digit-only year keys the record carries.
- Detail.RevenueByQuarter: the entries are taken in the order `Object.entries` yields. Its placing of integer-like keys first is not modelled.
- Js.ToLower: lower-cases ASCII letters only.
- Dashboard rows (`Row`) always carry a string `cluster_name`. In the source a row without one (a row that names its cluster `cluster`, say) makes `c.cluster_name.toLowerCase()` throw a TypeError in `chartData` (`Home.js:89`) and in the table filter (`Home.js:155`), and the page fails to render. That failure is not modelled.
- `Number(value)` coercion of JSON values: each revenue entry's value is given as the resulting number.
- Pie geometry and styling: `percentageLabel`, `renderActiveShape`, cell colours and opacity, the cluster tag colours.
- The antd table's own sorting, column filters and paging of rows.
- The rendering of a row key that is not a string, where `k.slice` would throw.
- `SuggestionRow` and the other markup of the detail page.
- The presentation and routing files (`AnimatedBullets.jsx`, `ScrollProgress.js`, `ParallaxHeader.js`, `App.js`) and `textUtils.js`.

## Findings

| source | as written | input that shows it | evidently intended | confidence | as-written member | corrected member |
|---|---|---|---|---|---|---|
| src/components/pages/cusotmer.js:107-113 | the lookup effect sets the error when no customer matches, but never resets it when a later lookup finds one; the render checks the error first | the route's number changes from one not in the list to one in the list while the page stays mounted: the customer is found, yet "Customer not found" is shown | reset the error when a customer is found, as `customer.js` does with `setError(null)` at line 44 | medium, not executed (this page is not mounted by `App.js`) | Insights.StaleErrorAfterLookup | Insights.DetailPage.LookupClearingError |
