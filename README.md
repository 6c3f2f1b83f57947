# crypto-forecast-dashboard backend core, modelled in Dafny

The backend of crypto-forecast-dashboard is a Flask service (`backend/app.py`). It works on coin price series, which are lists of `[ts_ms, price]` pairs. It offers:

- lump-sum and dollar-cost-averaging (DCA) backtests, with the maximum drawdown of the resulting value curve;
- a Holt–Winters additive forecast with ±1.96σ bands;
- a DCA plan priced on that forecast;
- Monte-Carlo geometric-Brownian-motion scenarios, giving p10/p50/p90 bands for a price, a lump-sum value or a DCA value;
- portfolio views that sum the holdings' series per timestamp;
- small normalisers for exchange-rate dictionaries and date strings.

This project models that computational core. The HTTP fetchers, caches, the database and the clock are left out. Every series, quote or random draw they would supply becomes a parameter.

Timestamps are integers (seconds or milliseconds, as in the code) and prices are `real`. Each module follows one part of `app.py`:

| file | module | models |
|---|---|---|
| `wrappers.dfy` | `Wrappers` | `Option` / `Result` for `None` answers and error replies |
| `series.dfy` | `Series` | `_nearest_price`, `_first_at_or_after`, `_to_midnight_utc`, `_resample_to_daily`, window clipping, day counts, sorted keys |
| `backtest.dfy` | `Backtest` | the `whatif` and `dca` endpoints: lump-sum metrics, drawdown loop, DCA purchase loop, lump-sum comparison |
| `holt_winters.dfy` | `HoltWinters` | `holt_winters_additive`, as imperative code over a season `array` and as a specification function |
| `monte_carlo.dfy` | `MonteCarlo` | `gbm_scenarios`, `api_whatif_scenario`, `api_dca_scenario`: per-step path buffers, sorting, percentile picks |
| `predict.dfy` | `Predict` | `api_dca_predict`: day-keyed forecast maps and the scheduled purchase loop |
| `portfolio.dfy` | `Portfolio` | `api_portfolio_history`, `api_portfolio_forecast`, `api_portfolio_scenario`: per-timestamp sums and sorted answers |
| `normalize.dfy` | `Normalize` | `_normalize_rates`, the wanted-currency filter of `/api/fx`, the separator clean-up of `_parse_date` |

## How the model is built

- **Loops become methods.** Each loop in the code is a `method` with a loop whose invariant ties the state to a specification function over the input processed so far. For example, `AddInto` is proved equal to `AddSeries`, `RunPlan` to `PlanAfter`, `SmoothAll` to `Fit`, and `SimulatePaths` to `Columns`.
- **Behaviour is proved about the specification functions**, in lemmas. Examples: `HistoryTotals`, `PlanForFacts`, `BandsOrdered`, `DrawdownIsWorst`.
- **Error replies become values.** Each error reply of an endpoint is an `Err` carrying the code's own message. An unhandled exception the code would raise is also an `Err`, named after the exception's message (`"division by zero"`, `"math domain error"`).
- **Randomness is a parameter.** The Monte-Carlo code multiplies a price by `exp(drift + shock)` at each step. This is modelled as an arbitrary function `factor(path, step)`. The log-return mean and σ, `sqrt`, `exp` and `random.gauss` therefore stay outside the model.
- **The Holt–Winters σ is a parameter.** It is `sqrt` of the residual variance in the code. Here it is an input, `sigmaEst`, used when there are at least five residuals; otherwise σ is 0, as in the code.
- **Python arithmetic is written out.** Python's `int(a / b)` on integers is `TruncDiv`. `//` with a positive divisor is Dafny's `/`. `int(x)` of a positive real is `.Floor`.
- **Percentile indices.** The code computes `int(0.1 * (n - 1))` in floating point. The model uses the exact `tenths * (n - 1) / 10`.

### Notes on what the code does

- **DCA value series.** The `dca` value series prices every charted point with the final share count, not the shares held at that date (`backend/app.py:1914`). `DcaChart`/`ScaleSeries` model it that way.
- **Drawdown.** The drawdown is the largest percentage fall below the running peak, reported as a non-negative number (`backend/app.py:1826-1834`).
- **`USD` override.** `_normalize_rates` seeds `USD: 1.0`, but a later usable `usd` item overrides it (`RatesFacts`). Only the wanted-currency filter forces the base back to 1.0.
- **Percentile gap.** In `api_dca_scenario` the `if not vec: continue` branch cannot be taken, because there are at least 50 paths. Every step therefore gets a percentile point.

## Model

| member | source | states |
|---|---|---|
| Series.Closes | backend/app.py:1196 | one price per sample, in order: `y[i]` is the price of sample `i` |
| Series.TakeLast | backend/app.py:1614 | `s[-n:]`: the last `min(len(s), n)` elements, a suffix of `s` |
| Series.ToMidnightUtc | backend/app.py:1150-1154 | the result is a multiple of 86 400 and the day that contains `ts` (`d <= ts < d + 86400`) |
| Series.MidnightIsUnique | backend/app.py:1150-1154 | any midnight `d` with `d <= ts < d + 86400` is the one `_to_midnight_utc` returns |
| Series.MidnightIdempotent | backend/app.py:1150-1154 | a midnight is its own midnight |
| Series.DayMultiple | backend/app.py:1168 | a day start in seconds times 1000 is a multiple of 86 400 000 ms |
| Series.StepDays | backend/app.py:1894 | the step is 7 or 30 days, and 7 exactly when `freq == "weekly"` |
| Series.NearestScan | backend/app.py:1127-1132 | the scan ends on the nearest sample, the earliest one among ties (strict `<`) |
| Series.NearestIsUnique | backend/app.py:1129-1132 | the nearest-earliest sample is unique |
| Series.NearestPrice | backend/app.py:1120-1133 | `None` exactly for an empty list; otherwise the price of the nearest sample, earliest on ties |
| Series.FirstIndexFrom | backend/app.py:1140-1145 | the loop finds the first sample with `ts >= target`, or reports that every sample is earlier |
| Series.FirstAtOrAfter | backend/app.py:1136-1147 | `None` exactly for an empty list; the price of the first sample at or after the target; the nearest price when all are earlier; always a price in the list |
| Series.ClipWindow | backend/app.py:1540 | keeps exactly the samples with `from_ms <= ts <= to_ms` |
| Series.ClipKeepsOrder | backend/app.py:1540 | clipping an ascending series keeps it ascending |
| Series.ClipIdempotent | backend/app.py:1540 | clipping twice to the same window changes nothing |
| Series.CeilDays | backend/app.py:1527 | exactly 1 for an empty or reversed span; otherwise the number of whole days that cover the span (ceiling) |
| Series.InsertSorted | backend/app.py:1168 | inserting a new key keeps the key list increasing and adds exactly that key |
| Series.SortedKeys | backend/app.py:1168 | `sorted(d.keys())`: increasing, each key once, exactly the dictionary's keys |
| Series.MinOf | backend/app.py:856 | `min(keys)` is a key and no larger than any key |
| Series.MinKey | backend/app.py:856 | the scan computes `min(keys)` |
| Series.LastOfDayDays | backend/app.py:1164-1167 | `by_day` holds exactly the UTC days of the samples, each with the price of the last sample of that day |
| Series.LastOfDaySize | backend/app.py:1164-1167 | there are no more days than samples |
| Series.LastOfDayMidnights | backend/app.py:1166 | every key of `by_day` is a UTC midnight |
| Series.EmitDays | backend/app.py:1168 | one `[d * 1000, by_day[d]]` per sorted day, ascending, on multiples of 86 400 000 |
| Series.GroupByDay | backend/app.py:1164-1167 | the grouping loop ends holding, for every sampled day, the price of its last sample (`LastOfDay`) |
| Series.LastOfDay | backend/app.py:1164-1167 | the `by_day` dictionary; no contract of its own: `GroupByDay` is proved equal to it and `LastOfDayDays`, `LastOfDaySize` and `LastOfDayMidnights` carry its properties |
| Series.DayStart | backend/app.py:1166 | `_to_midnight_utc(int(ts / 1000))`; no contract of its own: `DayStartContains` carries its properties |
| Series.DayStartContains | backend/app.py:1166 | the day start of a non-negative millisecond timestamp is a UTC midnight and the day that contains it |
| Series.DayKeyMs | backend/app.py:828 | the millisecond day key `_to_midnight_utc(int(ts / 1000)) * 1000` of the forecast maps; no contract of its own: `DayStartContains`, `DayMultiple` and `Predict.DayMapKeys` carry its properties |
| Series.TruncDiv | backend/app.py:1166 | Python's `int(a / b)` on integers, truncating toward zero; no contract of its own: `TruncDivFacts` carries its properties |
| Series.TruncDivFacts | backend/app.py:1166 | truncating division agrees with floor division on non-negative operands, has magnitude `abs(a) // abs(b)`, is odd in `a`, and differs from Dafny's `/` at `-7 / 2` |
| Series.ResampleToDaily | backend/app.py:1157-1169 | output no longer than the input, strictly ascending day timestamps, each day's last price, every sampled day present |
| Series.AdvanceIs | backend/app.py:1906 | after `k` increments by `step` the cursor is `start + k * step` |
| Backtest.LumpSumMetrics | backend/app.py:1812-1814 | `shares * start_price == amount`; `current_value == amount * current / start`; `roi_pct == (current / start - 1) * 100` |
| Backtest.ScaleSeries | backend/app.py:1823 | the value series has the chart's timestamps and `px * shares` at every point |
| Backtest.LumpValueSeries | backend/app.py:1812-1823 | every lump-sum value point is `amount * px / start_price` |
| Backtest.RunningPeak | backend/app.py:1828-1830 | `peak` is the maximum of the values seen so far, and one of them |
| Backtest.MaxDrawdownPct | backend/app.py:1826-1834 | the loop computes the maximum drawdown, which is never negative |
| Backtest.DeclineAtMost100 | backend/app.py:1831-1832 | a fall from a positive peak to a non-negative value is between 0 and 100 % |
| Backtest.DrawdownBounds | backend/app.py:1826-1834 | drawdown ≥ 0, and ≤ 100 when all values are ≥ 0 |
| Backtest.DrawdownIsWorst | backend/app.py:1829-1834 | no sample falls further below its running peak than the reported drawdown, and a positive drawdown is attained |
| Backtest.NoDrawdownWhenRising | backend/app.py:1826-1834 | a non-decreasing value curve has drawdown 0 |
| Backtest.DrawdownExample | backend/app.py:1826-1834 | values 100, 150, 120 give a 20 % drawdown |
| Backtest.ResolveStart | backend/app.py:1722-1786 | the window price at or after the start when positive, charting the window; otherwise the fallback quote when positive; otherwise none |
| Backtest.WhatIf | backend/app.py:1691-1834 | the error replies in order (amount, date, start price, current price), and on success the lump-sum metrics, the scaled chart and its drawdown |
| Backtest.BuyCount | backend/app.py:1903 | the number of buying dates is at most the number of scheduled dates |
| Backtest.InvestedIsCountTimesAmount | backend/app.py:1903-1905 | `invested == amt_per * number of dates with a positive price` |
| Backtest.PurchaseStep | backend/app.py:1902-1906 | one more date adds `amt_per / price` shares and `amt_per` cash exactly when its price is positive |
| Backtest.SharesSign | backend/app.py:1903-1904 | shares are ≥ 0, and > 0 exactly when something was bought |
| Backtest.SharesAtFlatPrice | backend/app.py:1903-1904 | at one flat price `p` the shares are `count * amt_per / p` |
| Backtest.ScheduleLength | backend/app.py:1901-1941 | the loop visits date `i` exactly when `i < (to_ts - from_ts) // (step_days * 86400) + 1`, the reported `contributions` |
| Backtest.DcaQuotes | backend/app.py:1901-1902 | one looked-up price per scheduled date |
| Backtest.DcaQuotesAt | backend/app.py:1902 | the `k`-th looked-up price is `_first_at_or_after` at `from_ts + k * step` (in ms) |
| Backtest.DcaChart | backend/app.py:1892 | the charted series is non-empty whenever the fetched series is |
| Backtest.LumpComparison | backend/app.py:1923-1933 | a lump-sum comparison exists exactly when the start price exists and is positive |
| Backtest.FlatDcaShares | backend/app.py:1903-1905 | buying at one flat price buys `invested / p` shares |
| Backtest.FlatDcaMatchesLumpSum | backend/app.py:1903-1933 | at a flat price DCA and the lump-sum comparison hold the same shares and value |
| Backtest.DcaOutcomeErrors | backend/app.py:1873-1909 | the error replies in the endpoint's order: amount not positive, start not in the past, no price data, and past those only "No valid contribution points" |
| Backtest.DcaOutcomeFacts | backend/app.py:1895-1941 | past the guards: `contributions ≥ 1`; "No valid contribution points" exactly when no scheduled price buys; on success the cash spent and shares are those of the scheduled purchases; `current_price` is the chart's last price and `current_value == shares * current_price`; `roi_pct == (current_value / invested - 1) * 100`; the lump-sum comparison is the one at the first price at or after the start; and the value series is the chart at the final shares, ending at the reported current value |
| Backtest.InvestedBounds | backend/app.py:1903-1905 | `invested == count * amt`, positive exactly when something was bought, at most `amt` per date |
| Backtest.RoiAsRatio | backend/app.py:1916 | `(value - invested) / invested * 100 == (value / invested - 1) * 100`; `DcaReportOf` uses it to state the reported ROI as a ratio |
| Backtest.DcaReportOf | backend/app.py:1911-1933 | the success reply: `current_price` is the chart's last price, `current_value == shares * current_price`, `roi_pct == (current_value / invested - 1) * 100`, the lump-sum comparison at the start price, and the value series is the chart at the final shares, ending at `current_value` |
| Backtest.DcaOutcome | backend/app.py:1869-1941 | the definition `DcaBacktest` is proved equal to; no contract of its own: `DcaOutcomeErrors` and `DcaOutcomeFacts` state its error replies and its success reply |
| Backtest.CurrentPrice | backend/app.py:1795-1807 | the current price of `whatif`: the last window price, else the last charted price, else the spot quote; no contract of its own: `WhatIf` states that a reply exists exactly when it is positive and that it is the reply's `current_price` |
| Backtest.Contributions | backend/app.py:1941 | the reported `contributions`, `(to_ts - from_ts) // (step_days * 86400) + 1`; no contract of its own: `ScheduleLength` proves the loop visits exactly that many dates and `DcaOutcomeFacts` that it is at least 1 |
| Backtest.MaxDrawdown | backend/app.py:1826-1834 | the drawdown definition `MaxDrawdownPct` is proved equal to; no contract of its own: `DrawdownBounds`, `DrawdownIsWorst` and `NoDrawdownWhenRising` carry its properties |
| Backtest.Purchases | backend/app.py:1895-1906 | the purchase loop leaves the cash spent and the shares bought at the first price at or after each of the `Contributions` scheduled dates (`InvestedFor`, `SharesFor` of `DcaQuotes`) |
| Backtest.DcaBacktest | backend/app.py:1869-1941 | the purchase loop computes `DcaOutcome`, whose properties `DcaOutcomeFacts` states |
| HoltWinters.InitState | backend/app.py:1200-1206 | the initial season has `season_len` entries |
| HoltWinters.Update | backend/app.py:1212-1222 | one smoothing step keeps the season length |
| HoltWinters.Fit | backend/app.py:1212-1222 | the state after `t` steps has `season_len` entries |
| HoltWinters.HwSpec | backend/app.py:1185-1245 | three empty lists below `2 * season_len` samples; otherwise exactly `h` points each, at `last_ts + k * 86 400 000`, with `0 <= low <= max(f, 0) <= high` for σ ≥ 0 |
| HoltWinters.ForecastFrom | backend/app.py:1236-1243 | three lists of exactly `h` points |
| HoltWinters.HoltWintersAdditive | backend/app.py:1185-1245 | the in-place array computation returns `HwSpec` |
| HoltWinters.InitSeason | backend/app.py:1202-1206 | the season array holds the first-season deviations |
| HoltWinters.SmoothAll | backend/app.py:1211-1222 | the in-place loop over `level`, `trend` and `season` ends in the state `Fit` describes |
| HoltWinters.Project | backend/app.py:1234-1245 | the projection loop builds `ForecastFrom` of the fitted state |
| HoltWinters.SeasonStartsBalanced | backend/app.py:1204-1206 | the initial season deviations sum to 0 |
| HoltWinters.FlatFit | backend/app.py:1200-1222 | a constant history keeps level at that price, trend 0 and every season term 0 |
| HoltWinters.FlatHistoryFlatForecast | backend/app.py:1236-1240 | a constant history forecasts that constant on every future day |
| HoltWinters.NoSpreadCollapsesBands | backend/app.py:1226-1243 | with σ = 0 both bands equal `max(f, 0)`. In the code this happens only with fewer than five residuals: with five or more the variance is floored at 1e-12 (`backend/app.py:1229-1231`), so σ ≥ 1e-6 |
| MonteCarlo.Insert | backend/app.py:1298 | inserting into a sorted list keeps it sorted and adds exactly that element |
| MonteCarlo.SortedCopy | backend/app.py:1298 | `sorted(vec)` is sorted and a permutation of `vec` |
| MonteCarlo.RankIndex | backend/app.py:1299-1301 | `int(t/10 * (n - 1))` is a valid index |
| MonteCarlo.RanksOrdered | backend/app.py:1299-1301 | `idx10 <= idx50 <= idx90 < n` |
| MonteCarlo.PriceAt | backend/app.py:1289 | after at least one step the simulated price is ≥ 0 |
| MonteCarlo.Columns | backend/app.py:1279-1291 | one buffer per step, buffer `s` holding every path's value after `s + 1` steps |
| MonteCarlo.ColumnStep | backend/app.py:1291 | simulating one more path appends its value to every step's buffer |
| MonteCarlo.SimulateOnePath | backend/app.py:1281-1291 | one path appends its value after `s + 1` steps to buffer `s`, for every step |
| MonteCarlo.SimulatePaths | backend/app.py:1279-1291 | the buffers after all paths are exactly `Columns` |
| MonteCarlo.Band | backend/app.py:1294-1304 | one band point per step |
| MonteCarlo.BandsOf | backend/app.py:1294-1305 | p10, p50 and p90 each have one point per step |
| MonteCarlo.PercentileBands | backend/app.py:1294-1305 | the percentile loop computes `BandsOf` of the buffers |
| MonteCarlo.PicksOrdered | backend/app.py:1298-1304 | at every step `p10 <= p50 <= p90` |
| MonteCarlo.PickIsValue | backend/app.py:1298-1304 | every percentile is one of the simulated values of its step |
| MonteCarlo.BandsOrdered | backend/app.py:1294-1305 | every step is ordered p10 ≤ p50 ≤ p90, every value is simulated, timestamps are `last_ts + (s + 1) * step_ms` |
| MonteCarlo.PathValueNonNegative | backend/app.py:1028-1036 | simulated prices, lump-sum values and DCA values are ≥ 0 |
| MonteCarlo.DcaSharesNonNegative | backend/app.py:1032-1034 | DCA shares on a path are never negative |
| MonteCarlo.SamePath | backend/app.py:1017-1037 | two paths that draw the same factors have the same prices and shares |
| MonteCarlo.PathValue | backend/app.py:1017-1037 | the value a path reports after `k` steps: the price, the lump-sum holding or the DCA holding at that price; no contract of its own: `PathValueNonNegative` and `SamePath` carry its properties |
| MonteCarlo.DcaShares | backend/app.py:1029-1034 | the shares a DCA path holds after `k` steps, `amt / price` added at every positive step price; no contract of its own: `DcaSharesNonNegative` and `SamePath` carry its properties |
| MonteCarlo.DcaInvested | backend/app.py:1029-1034 | the cash a DCA path invests after `k` steps; no contract of its own: `DcaInvestedBounds` and `InvestedTotalBoundsPaths` carry its properties |
| MonteCarlo.ConstantPick | backend/app.py:1298-1304 | a step where every path agrees has that value at every percentile |
| MonteCarlo.IdenticalColumn | backend/app.py:1279-1291 | if no path differs, every entry of a buffer is path 0's value |
| MonteCarlo.IdenticalPathsCollapseBands | backend/app.py:1279-1305 | with no randomness every band equals the single path's values |
| MonteCarlo.PriceSign | backend/app.py:1289 | with positive factors a positive start stays positive, a non-positive start stays ≤ 0 |
| MonteCarlo.DcaInvestedBounds | backend/app.py:1032-1034 | with positive factors a path invests `amt * steps` from a positive start, nothing from a non-positive one |
| MonteCarlo.ValidReturns | backend/app.py:1260-1264 | the number of usable returns is below the number of closes |
| MonteCarlo.CountReturns | backend/app.py:1260-1264 | the loop counts the pairs with both closes positive |
| MonteCarlo.CalibrationCloses | backend/app.py:1258 | the last 365 closes, ending with the last close |
| MonteCarlo.Steps | backend/app.py:1276 | `max(1, horizon // step)`: at least 1, and exactly 1 when the horizon is shorter than one step |
| MonteCarlo.StepsFit | backend/app.py:1276 | a horizon of at least one step holds exactly `Steps` whole steps: the largest count that fits |
| MonteCarlo.ClampReal | backend/app.py:898 | `max(lo, min(x, hi))` lies in `[lo, hi]` and is `x` inside it |
| MonteCarlo.HorizonDays | backend/app.py:928 | `int(years * 365)` is the floor |
| MonteCarlo.PathCount | backend/app.py:901 | the path count is clamped to 50..1000 and unchanged inside |
| MonteCarlo.HorizonBounds | backend/app.py:897-928 | the clamped horizon is 36..7300 days |
| MonteCarlo.GbmScenarios | backend/app.py:1248-1305 | the simulation returns `GbmSpec`: empty bands for short history or too few returns, else the percentile bands |
| MonteCarlo.GbmSpec | backend/app.py:1248-1305 | the definition `GbmScenarios` is proved equal to; no contract of its own: `GbmBandsShape` and `GbmBandsAligned` carry its properties |
| MonteCarlo.GbmBandsShape | backend/app.py:1276-1305 | with enough history each band has `steps` points, ordered `0 <= p10 <= p50 <= p90` |
| MonteCarlo.GbmBandsAligned | backend/app.py:1294-1305 | every answer's bands share their timestamps point by point and are ordered |
| MonteCarlo.SharesAt | backend/app.py:927 | the shares bought with `amount` at the last close are worth `amount` again at that price |
| MonteCarlo.WhatIfScenario | backend/app.py:892-958 | the endpoint computes `WhatIfScenarioSpec` |
| MonteCarlo.WhatIfScenarioFacts | backend/app.py:894-958 | success exactly when amount, history, returns, last close and step are usable; then `shares * current == amount`, clamped years and paths, `steps` band points |
| MonteCarlo.WhatIfScenarioSpec | backend/app.py:892-958 | the definition `WhatIfScenario` is proved equal to; no contract of its own: `WhatIfScenarioFacts` carries its properties |
| MonteCarlo.DcaScenario | backend/app.py:962-1067 | the endpoint computes `DcaScenarioSpec` |
| MonteCarlo.DcaScenarioSpec | backend/app.py:962-1067 | the definition `DcaScenario` is proved equal to; no contract of its own: `DcaScenarioFacts` and `InvestedTotalBoundsPaths` carry its properties |
| MonteCarlo.DcaScenarioFacts | backend/app.py:976-1067 | "Bad params", "Not enough history" and "Not enough returns" in that order, success exactly when amount, history and returns are usable; then clamped years, a 7- or 30-day step, `steps` band points in each percentile and `invested_total == amt_per * steps` |
| MonteCarlo.InvestedTotalBoundsPaths | backend/app.py:1020-1054 | `invested_total = amt_per * steps` bounds what every path invests, and equals it when the last close is positive |
| Predict.DayMap | backend/app.py:828 | the final point's day carries the final point's price; `DayMapLastOfDay` extends this to every day |
| Predict.DayMapLastOfDay | backend/app.py:828 | the last point of a day decides that day's value: a point with no later point on its day is the map's value for that day |
| Predict.DayMapKeys | backend/app.py:828 | the day map's keys are exactly the UTC days of the forecast points |
| Predict.ClampMonths | backend/app.py:812 | months clamped to 1..6 and unchanged inside |
| Predict.PlanHorizon | backend/app.py:816 | the horizon is 30 days per clamped month, so 30..180 days and the 180-day cap never binds |
| Predict.CentralPrice | backend/app.py:856 | the day's forecast if present and non-zero; else the forecast at the earliest key; 0 for an empty map |
| Predict.BandAppend | backend/app.py:860-863 | a band point is appended exactly when the day is in the band map, with value `max(0, band * shares)` |
| Predict.PlanSeries | backend/app.py:846-865 | after `k` passes the series has `k` points, the `i`-th at `first + i * step` |
| Predict.PlanBands | backend/app.py:860-863 | at most one band point per pass, none negative |
| Predict.PlanCash | backend/app.py:851-853 | `0 <= invested <= amt_per * passes`, shares ≥ 0, and shares > 0 exactly when cash went in |
| Predict.PlanLength | backend/app.py:843-846 | the cursor `today + (i + 1) * step` is within the horizon exactly for `i < horizon // step` |
| Predict.ReportOf | backend/app.py:868-870 | `current_value` is `shares * final_px` when that price is positive, else 0; ROI 0 when nothing invested |
| Predict.LookupCentral | backend/app.py:848-856 | the lookup computes `CentralPrice` |
| Predict.PlanPass | backend/app.py:847-865 | one loop pass computes `PlanStep` |
| Predict.PlanStep | backend/app.py:847-865 | one pass of the plan: buy `amt_per` at a positive central price, append the central point and any band points; no contract of its own: `PlanPass` is proved equal to it and `PlanSeries`, `PlanBands`, `PlanCash` carry its properties over many passes |
| Predict.PlanAfter | backend/app.py:843-865 | the plan after `k` passes; no contract of its own: `RunPlan` is proved equal to it and `PlanShape`, `PlanSeries`, `PlanBands`, `PlanCash` carry its properties |
| Predict.RunPlan | backend/app.py:843-865 | the loop runs `horizon // step` passes, reaching `PlanAfter` |
| Predict.PlanReportFor | backend/app.py:826-888 | with a forecast in hand, the plan loop and the summary give exactly `PlanFor` |
| Predict.DcaPredict | backend/app.py:800-888 | the endpoint computes `DcaPredictSpec` |
| Predict.PlanShape | backend/app.py:843-865 | series length, timestamps, band bounds and investment bound of a plan from `today` |
| Predict.ReportShape | backend/app.py:843-870 | the report keeps the plan's shape; nothing invested means ROI 0 and no shares |
| Predict.PlanForFacts | backend/app.py:816-870 | `horizon // step ≥ 1` central points at `last_ts + (i + 1) * step`; non-negative bands; at most `amt_per` per point; zero investment gives ROI 0 |
| Predict.PlanFor | backend/app.py:826-870 | the plan and its summary for a forecast in hand; no contract of its own: `PlanReportFor` is proved equal to it and `PlanForFacts` carries its properties |
| Predict.DcaPredictErrors | backend/app.py:807-825 | "Bad params", "No history", "Forecast failed" below 14 closes, success otherwise |
| Predict.DcaPredictSpec | backend/app.py:800-888 | the definition `DcaPredict` is proved equal to; no contract of its own: `DcaPredictErrors` and `PlanForFacts` carry its properties |
| Portfolio.Get | backend/app.py:259 | `d.get(k, 0.0)` is 0 for a missing key |
| Portfolio.Weighted | backend/app.py:1620-1623 | the clamped band term is never negative, and `qty * px` for non-negative inputs |
| Portfolio.StampsAre | backend/app.py:258 | a timestamp is stamped exactly when some sample carries it |
| Portfolio.AddSeriesSums | backend/app.py:258-259 | adding a series keeps every key, adds its timestamps, and adds to each key exactly the sum of the weighted samples at it |
| Portfolio.AddSeries | backend/app.py:258-259 | the accumulation `agg[ts] = agg.get(ts, 0.0) + qty * px` over a series; no contract of its own: `AddInto` is proved equal to it and `AddSeriesSums` carries its properties |
| Portfolio.ClampedSumNonNegative | backend/app.py:1620-1623 | sums of `max(0, qty * px)` are ≥ 0 |
| Portfolio.SeriesSumMono | backend/app.py:1661-1666 | two series stamped alike, the first pointwise ≤, sum to no more at every timestamp for `qty ≥ 0` |
| Portfolio.AddInto | backend/app.py:258-259 | the accumulation loop computes `AddSeries` |
| Portfolio.ToSortedSeries | backend/app.py:261 | every dictionary entry once, strictly ascending by timestamp, with its value |
| Portfolio.HistoryTotals | backend/app.py:250-261 | the history holds exactly the days a held coin has a close, each valued at the sum of `qty * px` over the held coins that day |
| Portfolio.HistoryAgg | backend/app.py:250-261 | the summed history dictionary; no contract of its own: `HistoryTotals` carries its properties |
| Portfolio.UnheldRowIgnored | backend/app.py:253-255 | a row with `qty <= 0` changes nothing, wherever it is |
| Portfolio.PortfolioHistory | backend/app.py:246-261 | empty holdings give an empty series; otherwise the sorted view of the summed dictionary |
| Portfolio.Restrict | backend/app.py:1626-1627 | the band list is no longer than the series |
| Portfolio.RestrictValues | backend/app.py:1626-1627 | each band entry carries the band dictionary's value for its day |
| Portfolio.RestrictStamps | backend/app.py:1626-1627 | the band list holds exactly the series' days that are in the band dictionary |
| Portfolio.RestrictAscending | backend/app.py:1626-1627 | the band list stays ascending, so the outer `sorted` changes nothing |
| Portfolio.ForecastBandsNonNegative | backend/app.py:1604-1623 | summed low and high band values are never negative |
| Portfolio.ForecastBandLists | backend/app.py:1600-1627 | the answered bands are ascending, cover exactly the series' days present in the band dictionaries, and hold non-negative values |
| Portfolio.PortfolioForecast | backend/app.py:1579-1627 | empty holdings give empty lists; otherwise the sorted central dictionary and the band lists over its days; `ForecastAnswerSums` states the per-timestamp sums of the answer |
| Portfolio.ForecastTotals | backend/app.py:1600-1623 | the central dictionary holds exactly the days of the held coins' last 60 closes and forecasts, each the sum of `qty * px` over them; the low and high dictionaries hold exactly the forecast days, each the sum of `max(0, qty * band)` |
| Portfolio.ForecastAnswerSums | backend/app.py:1600-1627 | every point of the answered series is such a day with that sum, and every such day is answered; every low and high point carries its band sum |
| Portfolio.ForecastAggsOf | backend/app.py:1604-1623 | the summed central, low and high dictionaries; no contract of its own: `ForecastTotals` and `ForecastBandsNonNegative` carry its properties |
| Portfolio.ScenarioOrdered | backend/app.py:1654-1666 | the summed p10, p50, p90 dictionaries share their keys and stay ordered p10 ≤ p50 ≤ p90 at every timestamp |
| Portfolio.SameStamps | backend/app.py:1661-1666 | bands with the same timestamps add the same keys |
| Portfolio.PortfolioScenario | backend/app.py:1633-1670 | empty holdings give empty bands; a failing simulation fails the request; otherwise the three sorted dictionaries; `ScenarioAnswerSums` states the per-timestamp sums of the answer |
| Portfolio.ScenarioTotals | backend/app.py:1654-1666 | each summed percentile dictionary holds exactly the timestamps of the held coins' bands, each the sum of `qty * value` over the coins at that timestamp |
| Portfolio.ScenarioAnswerSums | backend/app.py:1654-1670 | every answered point of a percentile is such a timestamp with that sum, and every such timestamp is answered |
| Portfolio.ScenarioAggs | backend/app.py:1654-1666 | the summed p10, p50, p90 dictionaries, or `None` once a simulation fails; no contract of its own: `ScenarioTotals`, `ScenarioOrdered` and `ScenarioFailureSticks` carry its properties |
| Portfolio.ScenarioFailureSticks | backend/app.py:1655-1660 | once one held coin's simulation fails, the whole request fails |
| Normalize.UpperChar | backend/app.py:614 | lower-case ASCII letters map to upper case, everything else is unchanged |
| Normalize.Upper | backend/app.py:614 | upper-casing keeps the length |
| Normalize.UpperIsUpper | backend/app.py:614 | upper-cased keys have no lower-case letter, and upper-casing twice changes nothing |
| Normalize.LastFor | backend/app.py:613-618 | the rate of a currency's last usable item is positive |
| Normalize.RatesFacts | backend/app.py:612-619 | `USD` is always present; a key is present exactly when it is `USD` or some usable item names it; its rate is the last usable item's (1.0 for an unnamed `USD`); every rate is positive and every key upper case |
| Normalize.UsableItemKept | backend/app.py:614-618 | every usable item appears under its upper-cased key |
| Normalize.NormalizeRates | backend/app.py:612-619 | the loop computes `RatesOf` |
| Normalize.RatesOf | backend/app.py:612-619 | the normalised rate dictionary; no contract of its own: `NormalizeRates` is proved equal to it and `RatesFacts` carries its properties |
| Normalize.WantedFacts | backend/app.py:652 | the filter forces `USD` to 1.0, keeps exactly the wanted currencies present with their rates, and has more than one entry exactly when a wanted currency is present |
| Normalize.KeepWanted | backend/app.py:652 | the wanted-currency filter; no contract of its own: `WantedFacts` carries its properties |
| Normalize.FxFallbackAccepts | backend/app.py:650-653 | after normalising, the `len(rates) > 1` test passes exactly when a usable item names a wanted currency |
| Normalize.StripLeft | backend/app.py:1311 | `lstrip`: a suffix of the input, starting with a non-space, and everything removed is whitespace |
| Normalize.StripRight | backend/app.py:1311 | `rstrip`: a prefix of the input, ending with a non-space, and everything removed is whitespace |
| Normalize.Strip | backend/app.py:1311 | the stripped string is a slice of the input that neither starts nor ends with whitespace, and everything removed before and after it is whitespace |
| Normalize.Drop | backend/app.py:1313 | the dropped character no longer occurs, and the string does not grow |
| Normalize.DropKeepsOthers | backend/app.py:1313 | `replace(c, "")` keeps every other character exactly as often as in the input |
| Normalize.Replace | backend/app.py:1313 | a character replacement keeps the length |
| Normalize.Canon | backend/app.py:1313 | the one-pass reading does not grow the string |
| Normalize.ChainIsCanon | backend/app.py:1313 | the three chained replacements equal one pass that drops spaces and maps `.` and `/` to `-` |
| Normalize.CanonChars | backend/app.py:1313 | no space, dot or slash remains; every other character except `-` comes from the input |
| Normalize.CanonEnds | backend/app.py:1311-1313 | cleaning a stripped string leaves no whitespace at its ends |
| Normalize.CanonLast | backend/app.py:1313 | a final non-space character survives the clean-up |
| Normalize.SeparatorsNormalized | backend/app.py:1311-1313 | the cleaned date has no space, dot or slash, is no longer than the input, and keeps only input characters or `-` |
| Normalize.StripInside | backend/app.py:1311 | stripping does not grow the string and keeps only its characters |
| Normalize.NormalizeIdempotent | backend/app.py:1311-1313 | cleaning a cleaned date changes nothing |
| Normalize.NormalizeSeparators | backend/app.py:1311-1313 | the strip and separator clean-up of `_parse_date`; no contract of its own: `SeparatorsNormalized` and `NormalizeIdempotent` carry its properties |
| Normalize.CanonFixed | backend/app.py:1313 | a string with no space, dot or slash is already clean |

## Left out

- HTTP routing, request-argument parsing, cookies, sessions, the holdings database and `TimestampSigner`. The endpoints' inputs are the parameters of the modelled methods. A holding's `amount` is assumed numeric.
- All fetchers and their caches: `cached_get_json`, `fetch_history_cached`, `get_series_days`, `get_full_series_days_max`, `fetch_history_cc`, `get_series_any`, `fetch_prices_range_or_days`, `_start_price_fallback` and `get_daily_closes`. The series they return are inputs. `get_daily_closes` fetches a series (not modelled), resamples it with `_resample_to_daily` (modelled as `Series.ResampleToDaily`) and keeps the last `lookback_days` days with `daily[-lookback_days:]` (`backend/app.py:1182`). For a positive lookback that slice is `Series.TakeLast`. The series the endpoints receive as `daily` stand for that result.
- The `whatif` start-price fallback chain (`backend/app.py:1725-1784`), including the `days=max` series, the escalating day windows, the dogecoin retry and `time.sleep`. Its outcome is the `fallback` parameter of `Backtest.WhatIf`. The spot-price request is the `spotPrice` parameter.
- `time.time()`. The present is the `toTs` parameter. In `api_portfolio_forecast` the `today_ms` value is computed but never used, so it is not modelled.
- CAGR (`**` on floats), the `years` field and `realized_volatility`. These are floating-point power and square-root computations, and the core's behaviour does not depend on them.
- The Reddit/HN sentiment endpoints, `/api/prices`, `/api/history`, `/api/forecast`, `/api/scenario` and `api_whatif_predict`. These are thin wrappers around fetchers and the modelled functions.
- `fx_rates` itself, including its three providers and its TTL cache. Only `_normalize_rates` and the wanted-currency filter are modelled.
- `_num` and string-to-float parsing. Each rate item carries the result of `_num` as an `Option<real>`. A missing `rates` dictionary is the empty item list.
- `strptime` and `fromisoformat` in `_parse_date`, which are library behaviour. Only the strip and separator clean-up is modelled. The empty-string check before it is not modelled.
- `Normalize.Upper`: only ASCII letters are upper-cased. Python's `str.upper` also maps other Unicode letters (and `ß` to `SS`).
- `Normalize.Strip`: only ASCII whitespace (space, tab, LF, CR, VT, FF) is stripped. Python's `str.strip` also removes the information separators `\x1c`–`\x1f` and Unicode spaces.
- Floating-point rounding: prices are exact reals. The percentile index `int(0.1 * (n - 1))` is the exact `(n - 1) / 10` (likewise for 0.5 and 0.9).
- The GBM calibration: the mean `mu`, σ, `math.log`, `math.exp`, `math.sqrt` and `random.gauss`. Each step's growth factor `exp(drift + shock)` is an arbitrary input `factor(path, step)`. Consequently `MonteCarlo.PriceSign` and `MonteCarlo.DcaInvestedBounds` assume positive factors, as `exp` always gives.
- The Holt–Winters residual σ (`backend/app.py:1225-1231`): `HoltWinters.HwSpec` takes σ as the input `sigmaEst`. It is used only with at least five residuals, and 0 otherwise, as in the code. The code's floor `max(var, 1e-12)` makes that σ at least 1e-6; the model does not require this of `sigmaEst`.
- Unhandled exceptions (HTTP 500) are error values. A zero `step_days` is `"division by zero"` and a negative one `"math domain error"` in `MonteCarlo.WhatIfScenarioSpec`. In `gbm_scenarios` and `api_portfolio_scenario`, a non-positive `step_days` or path count is `None` (`Portfolio.PortfolioScenario` returns `None`).
- In `api_dca_scenario` the per-path `invested` is computed but never reported. `MonteCarlo.InvestedTotalBoundsPaths` relates it to the reported `invested_total`.
- `Predict.CentralPrice` is a ghost function, because `min(fut_map.keys())` is specified with `MinOf`. The method `Predict.LookupCentral` computes it with `Series.MinKey`.
