# Steel-market dashboard: a Dafny model of its calculations

The dashboard shows domestic steel prices, global commodity prices, news and
price forecasts. Under its React screens sit a few small calculations, and this
project models them:

- **chart series** (`utils/chartData.ts`): a synthetic monthly series pinned to
  its end value, and the trailing simple moving average;
- **axis labels** (`utils/date.ts`): the 30-slot month strip, and the weekday
  names of the last `count` days, indexed with JavaScript's sign-preserving `%`;
- **the pagination bar** (`components/Pagination.tsx`): the five-page window,
  the first and last page, the ellipsis markers, and the previous/next guards;
- **the news page** (`pages/NewsPage.tsx`):
  - the filter chain (category, country, type, age, case-insensitive search);
  - pages of five;
  - the bookmark toggle and the page reset on every change;
  - the "time since" label;
- **forecasts** (`index.tsx`):
  - the history-then-forecast band series of `generateForecast`;
  - the relabelling of the 30- and 90-day horizons;
  - the rescaling of a forecast by a factor. It is shared by the what-if
    simulation of `pages/PredictionPage.tsx` and the market refresh;
- **the prediction page** (`pages/PredictionPage.tsx`):
  - the what-if impact factor (weights, relative changes, algorithm modifier);
  - the handlers that change one input or one weight;
  - the lookup of the shown prediction, with its fallback;
- **the market refresh** (`services/marketService.ts`):
  - `fluctuate` and the sliding `updateChartData`;
  - the per-product and per-commodity updates (RSI clamp, price-table scaling);
  - the rescaling of the forecasts of every product whose price moved.

**Modules.** `Js` writes out the JavaScript built-ins these calculations rely on:

- `Math.round` is `floor(x + 1/2)`;
- `%` takes the sign of its left operand;
- `Array.prototype.slice` clamps its indices.

The other modules follow the source files: `ChartData`, `DateLabels`,
`Pagination`, `News`, `Forecast`, `Prediction` and `Market`.

**Modelling choices.**

- Code that works step by step is a `method`, specified by a function of its
  inputs:
  - arrays built by `push` in loops: `GenerateMonthlyData`, `PastDaysLabels`,
    `PageButtons`, `PageEntries` and `GenerateForecast`;
  - arrays filled by index: `CalculateSma`, and `PastMonthLabels`, which
    fills a fixed array of 30 slots;
  - a variable reassigned through a chain of tests: `TimeSince`;
  - `FetchUpdatedMarketData` and its three loops, which update copies of the
    tables entry by entry.
- Pure pipelines are functions: the filter chain, paging, rescaling and the
  what-if arithmetic.
- Factors and relative changes are `real`; prices are `int` after rounding.
- `Math.random()`, `Math.sin(...)`, `new Date().getTime()` and `getDay()` are
  parameters:
  - sequences or records of draws, in call order;
  - the sine values;
  - `now` in milliseconds;
  - `today` in `0..6`.
- A JavaScript object iterated with `for ... in` is a sequence of keyed
  entries, in enumeration order.
- The horizon tables of a prediction (`'7'`, `'30'`, `'90'`) are maps from
  numbers. Integer-like keys enumerate in ascending order, so "the first
  horizon" of the fallback is the smallest key.

## Model

| member | source | states |
|---|---|---|
| `Js.Round` | utils/chartData.ts:8 | `Math.round(x)` is the integer `r` with `r <= x + 1/2 < r + 1`. |
| `Js.Rem` | utils/date.ts:16 | JavaScript's `a % b` lies strictly between `-b` and `b`. It is `a mod b` for non-negative `a` and `-((-a) mod b)` for non-positive `a`, so it is never positive there. `a` minus it is a multiple of `b`. |
| `Js.Slice` | utils/chartData.ts:17 | `slice(start, end)` is at most `end - start` long. Within bounds it is `s[start..end]`. An end past the length stops at the length, and an empty range gives `[]`. |
| `Js.FloorOfQuotient` | pages/NewsPage.tsx:18 | `Math.floor(a / b)` for a positive integer `b` equals integer division. |
| `Js.RoundBetween` | utils/chartData.ts:18 | Rounding a real that lies between two integers stays between them. |
| `ChartData.GenerateMonthlyData` | utils/chartData.ts:1-12 | One value per index (none for `points <= 0`). The last value is exactly `endValue`, whatever the noise. Every earlier value is the rounded sum of line, oscillation and noise. |
| `ChartData.MonthlyFirstValue` | utils/chartData.ts:4-8 | Value 0 is `round(startValue + noise)`: the progress and the sine term vanish there. |
| `ChartData.MonthlyValue` | utils/chartData.ts:4-8 | For a sine value in `[-1, 1]` and a draw in `[0, 1]`, each value lies within `8%` of the span, plus `1.5%` of the end value, plus one half, of the straight line. |
| `ChartData.CalculateSma` | utils/chartData.ts:14-21 | Same length as the data. Slot `i` is null exactly when `i < period - 1`, and all slots are null when `period` exceeds the length. Every other slot is the rounded mean of the trailing window. A zero period makes every slot NaN. |
| `ChartData.SmaAt` | utils/chartData.ts:14-21 | A slot is null if and only if `period >= 1` and `i < period - 1`. It is NaN if and only if the period is 0. Any other slot with a positive period is `Math.round` of the window's sum over the period. |
| `ChartData.RoundedMeanIsRound` | utils/chartData.ts:18 | `Math.round(sum / period)` equals `(2·sum + period) div (2·period)` in integers. |
| `ChartData.SmaExample` | utils/chartData.ts:14-21 | A period of 2 over `[10, 20, 30]` gives `[null, 15, 25]`. |
| `ChartData.SmaTrailing` | utils/chartData.ts:17 | Slot `i` depends only on `data[0..i]`. |
| `ChartData.SumBounds` | utils/chartData.ts:17 | The `reduce` sum of `n` values in `[lo, hi]` lies in `[lo·n, hi·n]`. |
| `ChartData.SmaWithinWindow` | utils/chartData.ts:16-19 | Every average lies between the smallest and the largest value of its window. |
| `DateLabels.PastMonthLabels` | utils/date.ts:1-9 | Exactly 30 labels. Slots 0, 7, 14, 21 and 29 hold the fixed markers, and every other slot is empty. |
| `DateLabels.PastDaysLabels` | utils/date.ts:11-19 | `max(count, 0)` labels, and label `k` is the weekday `count - 1 - k` days before today. The last label is `days[today]`. |
| `DateLabels.ShortRunsAreConsecutiveDays` | utils/date.ts:15-17 | For `count <= 8`, every label is defined and consecutive labels are consecutive weekdays mod 7. |
| `DateLabels.LongRunHasUndefinedLabel` | utils/date.ts:16 | With `count = today + 9`, the oldest index is `-1 % 7 = -1` and its label is undefined. |
| `DateLabels.WeekShowsEachDayOnce` | utils/date.ts:11-19 | Seven labels show every weekday exactly once. |
| `Pagination.PreviousPage` | components/Pagination.tsx:14-18 | Previous asks for `currentPage - 1` if and only if `currentPage > 1`. |
| `Pagination.NextPage` | components/Pagination.tsx:20-24 | Next asks for `currentPage + 1` if and only if `currentPage < totalPages`. |
| `Pagination.NavigationStaysInRange` | components/Pagination.tsx:14-24 | From a page in range, both moves stay in range and undo each other. |
| `Pagination.PageButtons` | components/Pagination.tsx:9-52 | Nothing is rendered exactly when `totalPages <= 1`. Otherwise the window is inside `[1, totalPages]`, `min(5, totalPages)` wide, and holds the current page when that page is in range. The first entry is page 1 and the last is `totalPages`. The pages shown are exactly 1, `totalPages` and the window. Adjacent buttons are adjacent pages, and each ellipsis hides at least one page. A leading ellipsis appears if and only if `startPage > 2`, a trailing one if and only if `endPage < totalPages - 1`. |
| `Pagination.PageEntries` | components/Pagination.tsx:36-52 | The pushes give the leading entries, the window's pages in order, then the trailing entries. |
| `Pagination.WindowChosen` | components/Pagination.tsx:28-34 | The two assignments to `startPage` and the one to `endPage` produce the window described for `PageButtons`. |
| `Pagination.LayoutOk` | components/Pagination.tsx:36-52 | The layout of any window `1 <= s < e <= t` has the entry properties of `PageButtons`. |
| `Pagination.ItemsIncreasing` | components/Pagination.tsx:36-52 | The page numbers shown are strictly increasing from left to right. |
| `News.Lower` | pages/NewsPage.tsx:149-150 | `toLowerCase` keeps the length and lowers each character. |
| `News.LowerIdempotent` | pages/NewsPage.tsx:149-150 | Lowering twice is lowering once. |
| `News.Includes` | pages/NewsPage.tsx:149-150 | `includes` holds if and only if the needle occurs at some position. |
| `News.TimeLimit` | pages/NewsPage.tsx:139-144 | A limit exists if and only if the window is `'24h'`, `'7d'` or `'30d'`. Each limit is a positive whole number of days, at most 30. |
| `News.Satisfies` | pages/NewsPage.tsx:128-152 | An unknown time window passes nothing, a known one passes exactly the articles published less than the limit before `now`, and the empty search term passes every article. |
| `News.Keep` | pages/NewsPage.tsx:130 | One `filter` keeps exactly the articles that pass its test, as a subsequence of its input. |
| `News.SubsequenceTransitive` | pages/NewsPage.tsx:126-153 | A subsequence of a subsequence is a subsequence, so chained filters stay in feed order. |
| `News.KeepAfterKeepAll` | pages/NewsPage.tsx:129-152 | Filtering after a multi-test pass is one pass with the extra test. |
| `News.FilteredIsOnePass` | pages/NewsPage.tsx:126-154 | The chain equals one pass that keeps the articles satisfying every switched-on filter, in chain order. |
| `News.ActiveCriteriaMeanMatches` | pages/NewsPage.tsx:129-152 | Passing every switched-on filter is, filter by filter, the reference condition `Matches`. |
| `News.KeepAllMembers` | pages/NewsPage.tsx:126-153 | One pass keeps exactly the articles satisfying every test, as a subsequence. |
| `News.OnePassMatches` | pages/NewsPage.tsx:126-153 | The one-pass reference keeps exactly the feed's articles that satisfy `Matches`, in feed order. |
| `News.FilteredArticles` | pages/NewsPage.tsx:125-153 | The listed articles are an order-preserving subsequence of the feed. An article is listed if and only if it is in the feed and matches every non-`'all'` field filter, is younger than the chosen limit, and its lowered title or summary contains the lowered term. |
| `News.NoFilterKeepsEverything` | pages/NewsPage.tsx:127-153 | With every filter on `'all'` and an empty search, the list is the feed. |
| `News.UnknownTimeWindowKeepsNothing` | pages/NewsPage.tsx:138-146 | A time filter that is not `'all'` and has no limit compares with `undefined`, and lists nothing. |
| `News.SearchIgnoresCase` | pages/NewsPage.tsx:147-152 | The search gives the same answer for a term and its lowered form. |
| `News.TotalPages` | pages/NewsPage.tsx:156 | `ceil(n / 5)`: the fewest pages of five that hold `n` articles. |
| `News.PageOf` | pages/NewsPage.tsx:157-160 | A page holds at most five articles. |
| `News.PageContents` | pages/NewsPage.tsx:156-160 | Page `p` of `1..totalPages` is the non-empty run `[(p-1)·5, min(p·5, n))`. |
| `News.PagesBeyondAreEmpty` | pages/NewsPage.tsx:156-160 | A page after the last is empty. |
| `News.PagesPrefix` | pages/NewsPage.tsx:156-160 | Pages `1..k` together are the first `min(5k, n)` articles, each once and in order. |
| `News.PagesCoverList` | pages/NewsPage.tsx:156-160 | Pages `1..totalPages` concatenate to the filtered list. |
| `News.ToggleBookmark` | pages/NewsPage.tsx:162-172 | Only the membership of `id` flips. |
| `News.ToggleTwice` | pages/NewsPage.tsx:162-172 | Toggling twice restores the set. |
| `News.HandleFilterChange` | pages/NewsPage.tsx:121-124 | The chosen filter takes the value and the others keep theirs. The page goes back to 1. |
| `News.HandleSearchChange` | pages/NewsPage.tsx:224 | The term is replaced, the page goes back to 1, and the filters are kept. |
| `News.ChangeShowsFirstPage` | pages/NewsPage.tsx:121-160 | After any filter or search change, the page shown is the first five matches. |
| `News.TimeSince` | pages/NewsPage.tsx:17-30 | With `s` whole seconds elapsed: years when `s > 31536000`; else months when `s > 2592000`; else days when `s > 86400`; else hours when `s > 3600`; else minutes when `s > 60`; else "just now". Each count is `s` divided by its unit, rounded down, and lies within that unit's range. |
| `News.Exceeds` | pages/NewsPage.tsx:19-28 | `seconds / unit > 1` if and only if `seconds > unit`. Its floor is integer division. |
| `Forecast.GenerateForecast` | index.tsx:812-845 | `max(points, 0)` entries. The first `floor(points/3)` (with history) are history points: band collapsed onto `actual`, labelled `h - i` days before. The rest are forecast points from full-range progress `(i + h)/(points - 1)`: no `actual`, "today" first, then `i` days after. |
| `Forecast.HistoryPoint` | index.tsx:818-829 | A history point is named `historyPoints - i` days before today and carries an `actual` value onto which low, mid and high collapse. |
| `Forecast.ForecastAt` | index.tsx:833-842 | A forecast point has no `actual` and is named "today" at index 0 and `i` days after beyond. Its centre is the loop's `mid`. Its low and high are `Math.round(mid ∓ bandSize)`, with `bandSize = mid · volatility · (1 + progress) · 0.7`. With two points or more, a non-negative progress, volatility and centre, `low <= mid <= high`. |
| `Forecast.BandSize` | index.tsx:836 | The half-width of the band is not negative for a non-negative centre, volatility and progress. |
| `Forecast.BandWidens` | index.tsx:836 | For a non-negative centre and volatility, the half-width never shrinks as the progress grows. |
| `Forecast.FirstHistoryPoint` | index.tsx:818-822 | History point 0 is the start value plus noise. |
| `Forecast.ForecastNotEmpty` | index.tsx:814-815 | With two points or more, history takes fewer than all of them, so the forecast part is not empty. |
| `Forecast.LastMidIsEnd` | index.tsx:833-835 | The last forecast centre has progress 1, and with a neutral draw it is exactly `end`. |
| `Forecast.Relabel` | index.tsx:863 | The 30-day (step 3, line 863) and 90-day (step 9, line 876) renaming changes only names: entry `i` becomes `i·step` days after. |
| `Forecast.RescalePoint` | pages/PredictionPage.tsx:165-170 | Rescaling one point keeps its name and `actual`. A point with a truthy `actual` ends with low, mid and high equal to it. Any other point has low, mid and high multiplied by the factor and rounded. |
| `Forecast.RescaleForecast` | pages/PredictionPage.tsx:165-170 | Same length, names and `actual`. A point with a truthy `actual` collapses onto it, and any other has low, mid and high multiplied and rounded. |
| `Forecast.RescaleByOne` | pages/PredictionPage.tsx:165-170 | A factor of exactly 1 leaves a forecast with collapsed history unchanged. |
| `Forecast.RescaleKeepsOrder` | services/marketService.ts:84-89 | A non-negative factor keeps `low <= mid <= high`. |
| `Forecast.RescaleMonotoneInFactor` | pages/PredictionPage.tsx:165-170 | For non-negative bands, a larger factor never lowers low, mid or high. |
| `Forecast.RelabelRescaleCommute` | services/marketService.ts:84-89 | Rescaling keeps names, so it commutes with the horizon renaming. |
| `Prediction.AlgoModifier` | pages/PredictionPage.tsx:159-161 | The modifier lies in `[0.95, 1.05]`. It is 1 exactly for hybrid and above 1 exactly for LSTM. |
| `Prediction.RelativeChange` | pages/PredictionPage.tsx:144-152 | An input's relative change is zero exactly at its initial value and positive exactly above it. |
| `Prediction.RelativeChangeRestoresInput` | pages/PredictionPage.tsx:144-152 | The initial value times `1 +` the relative change is the input. |
| `Prediction.BaseImpact` | pages/PredictionPage.tsx:154-157 | The impact is zero when no input has moved. It is not negative when no input has fallen and no weight is negative. |
| `Prediction.TotalImpactFactor` | pages/PredictionPage.tsx:163 | The factor is 1, above 1 or below 1 exactly when the impact is zero, positive or negative. |
| `Prediction.DefaultWeightsAverage` | pages/PredictionPage.tsx:57-62 | The initial weights add up to one, so when every input moves by the same fraction the impact is that fraction. |
| `Prediction.SimulateForecast` | pages/PredictionPage.tsx:143-174 | The simulated forecast keeps length and names. Points with a truthy `actual` show it as low, mid and high. |
| `Prediction.BaselineFactorIsOne` | pages/PredictionPage.tsx:144-163 | Inputs at their initial values give a factor of exactly 1, for any weights and algorithm. |
| `Prediction.BaselineKeepsForecast` | pages/PredictionPage.tsx:149-170 | Inputs at their initial values show the base forecast unchanged, for a base forecast whose history is collapsed onto `actual` (as `GenerateForecast` produces). |
| `Prediction.AlgorithmsOrdered` | pages/PredictionPage.tsx:159-163 | LSTM (1.05) amplifies and linear (0.95) damps the impact of hybrid (1.0), in either direction. |
| `Prediction.DearerDollarRaisesFactor` | pages/PredictionPage.tsx:149-163 | With a non-negative dollar weight, raising the dollar never lowers the factor. |
| `Prediction.DollarScenario` | pages/PredictionPage.tsx:143-170 | The dollar 10% above 61850, all weight on it, and the linear algorithm give factor 1.095, and a centre of 1000 becomes 1095. |
| `Prediction.HandleWhatIfChange` | pages/PredictionPage.tsx:128-133 | Only the chosen input's `value` changes. |
| `Prediction.HandleWeightChange` | pages/PredictionPage.tsx:135-140 | Only the chosen weight changes. |
| `Prediction.FindProduct` | pages/PredictionPage.tsx:125 | Returns an entry with the key, or nothing if and only if no entry has the key. |
| `Prediction.FirstHorizon` | pages/PredictionPage.tsx:125 | The first horizon of a non-empty table is its smallest key. |
| `Prediction.PredictionResultFor` | pages/PredictionPage.tsx:124-126 | The selected product and horizon, when both exist. Otherwise the first product's horizon with the smallest key, when the table and that product's horizons are non-empty. Nothing exactly when both fail. |
| `Prediction.FallbackIsShortestHorizon` | pages/PredictionPage.tsx:124-126 | With horizons 7, 30 and 90, the fallback is the first product's 7-day prediction. |
| `Market.Fluctuate` | services/marketService.ts:4-7 | A draw in `[0, 1]` moves a non-negative value by at most `percent`%. A draw of one half leaves the value unchanged. |
| `Market.MovedWithin` | services/marketService.ts:5-6 | A draw in `[0, 1]` gives a change in `[-percent%, +percent%]`, which keeps a non-negative value within that fraction of itself. |
| `Market.UpdateChartData` | services/marketService.ts:10-13 | A non-empty chart keeps its length, shifts left by one and ends with the rounded new price. An empty one becomes that price alone. |
| `Market.SlidingWindow` | services/marketService.ts:10-13 | After any number of updates, the chart holds the last points of the earlier chart followed by the rounded new prices. |
| `Market.ClampRsi` | services/marketService.ts:63 | The RSI lands in `[15, 85]`: unchanged inside, 15 below and 85 above. |
| `Market.ScaleRows` | services/marketService.ts:53-58 | Every price-table row keeps its other fields and has its price multiplied by `1 + changePercent` and rounded. |
| `Market.ChangePercentRestoresPrice` | services/marketService.ts:40-46 | `oldPrice · (1 + changePercent)` is exactly the new price. |
| `Market.RefreshProduct` | services/marketService.ts:39-63 | The recorded change is the percentage that takes the old price to the new one. Every price-table row is scaled by that same factor and keeps its labels. The newest chart point is the new price, and a non-empty chart keeps its length. The RSI is in `[15, 85]`, and the signal and summary are kept. For a draw in `[0, 1]`, a positive price stays positive and moves by at most 1.5%, plus half a unit. |
| `Market.RefreshCommodity` | services/marketService.ts:67-75 | The chart keeps its length and slides left by one. For a draw in `[0, 1]` and a non-negative last point, the new point lies within 2% of that point, plus half a unit. The RSI is in `[15, 85]`, and the signal and summary are kept. |
| `Market.BaseChanges` | services/marketService.ts:35-44 | `basePriceChanges` has a key exactly for each product key seen. |
| `Market.BaseChangesLookup` | services/marketService.ts:38-44 | With distinct keys, each product's entry is its own relative change. |
| `Market.RescaleHorizons` | services/marketService.ts:82-90 | Every horizon keeps its key and has its forecast rescaled by the factor. |
| `Market.RescaleEntry` | services/marketService.ts:79-92 | A missing or zero change leaves the product's predictions untouched. |
| `Market.FetchUpdatedMarketData` | services/marketService.ts:22-95 | Returns new tables. Each product is refreshed with its own draws, and each commodity from its last chart point. Each prediction entry is rescaled by its product's recorded change. |
| `Market.UpdateProducts` | services/marketService.ts:38-64 | The products loop refreshes every product and records every product's change. |
| `Market.RefreshOne` | services/marketService.ts:39-63 | The field assignments on one product give the refreshed product and its change. |
| `Market.UpdateCommodities` | services/marketService.ts:67-76 | The commodities loop refreshes every commodity from its last chart point. |
| `Market.UpdatePredictions` | services/marketService.ts:79-92 | The predictions loop rescales exactly the entries whose recorded change is truthy. |
| `Market.PredictionsFollowProduct` | services/marketService.ts:79-92 | A product whose price moved has every horizon rescaled by `1 +` its own change. |
| `Market.UnmovedProductKeepsPredictions` | services/marketService.ts:79-92 | A product whose draw leaves its price unchanged keeps its forecasts. |
| `Market.UnknownProductKeepsPredictions` | services/marketService.ts:79-92 | A prediction entry with no product of the same key keeps its forecasts. |

## Left out

- **Random draws, the sine oscillation, the clock and the weekday** are parameters. Their distributions and the real `Math.sin` are not modelled.
- **The refresh's 1.5-second network delay** (services/marketService.ts:29) and its `async` wrapper are not modelled.
- **Floating point** is modelled as exact rationals (`real`). IEEE rounding, `toFixed(2)` with `parseFloat` (product change, weekly and monthly changes) and `toLocaleString` are not modelled; the change fields are the unrounded values.
- **Deep copies and the caller's data.** The tables are Dafny values, so the caller's products, commodities and predictions and `updateChartData`'s `oldData` cannot be changed. The deep copy is implicit and needs no separate statement.
- **The `detailedPrices` guard** (services/marketService.ts:53) is always taken: an array, even an empty one, is truthy. A product without the field is not modelled.
- `ChartData.GenerateMonthlyData` takes `startValue` and `endValue` as integers, where the source's parameters are any `number`. Every caller passes whole numbers, so fractional start or end values are not modelled.
- `Market.PriceRow` types `dimension` as a string, where the source allows `string | number`. The refresh only carries the field through unchanged, so its type does not matter to the model.
- **Labels** are modelled as a `Label` datatype (`DaysBefore(n)`, `Today`, `DaysAfter(n)`) and an `Ago` datatype rather than Persian strings with localised numbers.
- **`News.Lower`** folds only the ASCII letters A-Z; `toLowerCase` on other scripts is not modelled.
- **`ChartData.GenerateMonthlyData`** takes the sine value per index as an input. The code uses `sin((i / points) · π · 6)`; the model follows the code, and the caller supplies the value of that expression.
- **`ChartData.CalculateSma`** with a negative period yields 0 in every slot, as the empty-slice sum divided by the period does. JavaScript's `-0` is modelled as 0.
- **`Forecast.GenerateForecast`** excludes `points == 1`. There `0 / 0` gives NaN values, and NaN is not modelled.
- **`Market.FetchUpdatedMarketData`** excludes a product price of 0 (a `0 / 0` change percentage) and an empty commodity chart (a read past the end).
- `Market.UpdateProducts` excludes a product price of 0, as `FetchUpdatedMarketData` does: there the source records a NaN change, which is not modelled.
- `Market.RefreshOne` excludes a price of 0 for the same reason.
- `Market.UpdateCommodities` excludes an empty commodity chart: there the source reads `undefined` past the end and fluctuates it into NaN.
- `Market.RefreshProduct` excludes a price of 0: there the source's change percentage is `0 / 0`, a NaN, which is not modelled.
- `Market.RefreshCommodity` excludes an empty chart: there the source reads `undefined` past the end and fluctuates it into NaN.
- **`Prediction.PredictionResultFor`** is a ghost function: the fallback's "first horizon" is the smallest key of a map, chosen by a proof rather than computed. Non-integer horizon keys, which JavaScript would enumerate in insertion order, are not modelled. A prediction entry that exists but is falsy cannot occur in the model. An empty table, or a first product with no horizons, throws a `TypeError` in the page (`Object.values(undefined)`, or `.forecast` read from `undefined`); it is `None` here.
- **`News.ToggleBookmark`** is a function on sets. The copy-then-`add`/`delete` of the source has the same result, and the copy is not modelled separately.
- **Bookmark and theme persistence** (localStorage), the chat advisor, sharing, and all rendering are not part of this model.
- **`Prediction.InitialWhatIf`** is a constant: the four sliders from index.tsx:1041-1046. `Prediction.DefaultWeights` is the initial weights from pages/PredictionPage.tsx:57-62.
