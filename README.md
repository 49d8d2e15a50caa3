# Stress forecast prototype: the forecast and classification core in Dafny

The repository is a prototype stress dashboard. It shows an electrodermal
activity (EDA) or stress series, classifies the latest sample as Low,
Moderate or High stress by min-max normalisation, and extrapolates a short
linear trend. It can also take a forecast from a backend over HTTP. The
same arithmetic appears three times, with different constants, and this
project models each copy as its own pure function over exact reals:

- `frontend/app.py` (module `FrontendApp`): the 1-hour delta card, the
  baseline score and label, `simple_forecast`, `call_backend`'s acceptance
  test, and the choice between the backend's reply and the local forecast.
  The forecast uses a window of 30 samples and a damping factor of 0.8.
- `app.py` (module `App`): the EDA column choice, the "1-hr change" card,
  the score and label, its own `simple_forecast`, and the forecast's time
  axis.
- `src/predict.py` (module `Predict`): `_pick_eda`, `simulate_prediction`
  and `call_backend`'s fallback rule. Here the window is 60 samples, there
  is no damping, the probability is clipped, and the labels are lower-case.

Shared modules hold the library behaviour these copies rely on:

- `Numerics`: `np.linspace`, scalar-plus-array broadcasting, `min`, `max`,
  `mean` and `np.clip`.
- `Text`: ASCII `str.lower` and `str.strip`, the EDA column names, and the
  first-match search over column names.
- `Json`: decoded JSON values.
- `Stress`: the ordered scale Low < Moderate < High and its two spellings.
- `Wrappers`: `Option` and `Result`.

The HTTP exchange is an input:

- In frontend/app.py, `reply: Option<Value>` is `None` when the request,
  the status check or the JSON decoding raised. Otherwise it is the decoded
  body, of whatever JSON type.
- In src/predict.py, `reply: Option<map<string, Value>>` is `None` for any
  exception. This includes a body that is not an object, because
  `data.keys()` raises on it. Otherwise it is the decoded object.
  `BACKEND_URL` is the input `backendUrl`, which is `None` when the
  variable is unset.

The exceptions the code can raise become `Failure` values:

- `EmptySeries`: `iloc[-1]` on an empty series.
- `NegativeHorizon`: `np.linspace` with a negative count.
- `InsufficientData`: the page's `st.stop()` when there are fewer than 10
  points.
- `BadForecast`, `BadProbability`, `BadMessage`: the uncaught conversion
  errors on an accepted backend reply.

Behaviour of the code that the proofs make explicit:

- **Trend window.** `simple_forecast` anchors its slope at
  `max(len(series) - 30, 0)` and divides by `max(min(30, n - 1), 1)`. From
  31 samples on, the slope therefore spans 29 steps but is divided by 30.
  `FrontendApp.LinearSeriesTrend` proves the result: on a series rising by
  `c` per sample, the trend is `c` up to 30 samples and `29c/30` beyond
  that. `Predict.LinearSeriesDelta` shows that the window-60 copy divides
  by the exact distance.
- **The two change cards.** The frontend's "1-hour change" is the last
  step alone (`FrontendApp.LinearSeriesDelta1h`). app.py's "1-hr change"
  subtracts `iloc[-60]`, which lies 59 steps back, and is 0 until there
  are more than 60 samples (`App.LinearSeriesHourChange`).
- **Horizon 0.** `np.linspace` returns an empty forecast for a horizon of
  0 and raises only for negative counts.
- **Score range.** The epsilon in the denominator keeps the score strictly
  below 1 (`FrontendApp.BaselineScore`).
- **Simulator probability.** The simulator's probability is
  `clip((last - base + 0.15) * 2, 0, 1)`. On a constant series it is 0.3
  (`Predict.ConstantSeriesPrediction`).

## Model

| member | source | states |
|---|---|---|
| `Numerics.Linspace` | frontend/app.py:150 | `np.linspace(start, stop, num)` has `num` values, starts at `start` and, for two or more values, ends exactly at `stop` |
| `Numerics.LinspaceEvenlySpaced` | frontend/app.py:150 | neighbouring linspace points are exactly `(stop - start)/(num - 1)` apart |
| `Numerics.LinspaceOrdered` | frontend/app.py:150 | a linspace is non-decreasing when `start <= stop` and non-increasing when `stop <= start` |
| `Numerics.Min` | frontend/app.py:127 | `Series.min()` is one of the samples and no sample is smaller |
| `Numerics.Max` | frontend/app.py:127 | `Series.max()` is one of the samples and no sample is larger |
| `Numerics.SumBounds` | src/predict.py:20 | a sum of n terms within [lo, hi] lies within [n·lo, n·hi] |
| `Numerics.Mean` | src/predict.py:20 | `Series.mean()` lies between the series' minimum and maximum |
| `Numerics.Clip` | src/predict.py:21 | `np.clip(x, lo, hi)` lies in [lo, hi], is `x` when `x` is inside, and the nearer bound otherwise |
| `Numerics.ConstantStatistics` | frontend/app.py:127 | a constant series has that constant as its minimum, maximum, mean and last sample |
| `Text.TrimStart` | src/predict.py:10 | `lstrip` returns a suffix, removes only white space, and leaves no leading white space |
| `Text.TrimEnd` | src/predict.py:10 | `rstrip` returns a prefix, removes only white space, and leaves no trailing white space |
| `Text.StripIdempotent` | src/predict.py:10 | stripping a stripped name changes nothing |
| `Text.FirstEdaName` | src/predict.py:9-10 | the first column, in column order, whose lower-cased and stripped name is eda, gsr or electrodermal; no earlier column matches |
| `Text.Lower` | src/predict.py:10 | `str.lower()` keeps the length and lower-cases each character on its own |
| `Text.LowerIdempotent` | src/predict.py:10 | lower-casing a lower-cased name changes nothing |
| `Text.LowerAppend` | src/predict.py:10 | lower-casing distributes over concatenation |
| `Text.LowerSpace` | src/predict.py:10 | lower-casing leaves white space unchanged |
| `Text.TrimStartSpace` | src/predict.py:10 | `lstrip` of white space followed by a string is the `lstrip` of that string |
| `Text.TrimEndSpace` | src/predict.py:10 | `rstrip` of a string followed by white space is the `rstrip` of that string |
| `Text.TrimStartAllSpace` | src/predict.py:10 | `lstrip` of a string made only of white space is empty |
| `Text.StripTrailingSpace` | src/predict.py:10 | `strip` ignores white space appended to a string |
| `Text.StripLeadingSpace` | src/predict.py:10 | `strip` ignores white space prepended to a string |
| `Text.StripSurroundingSpace` | src/predict.py:10 | `strip` ignores white space on both sides of a string |
| `Text.EdaNameIgnoresCase` | app.py:43 | a name matches exactly when its lower-cased form does |
| `Text.EdaNameIgnoresSurroundingSpace` | app.py:43 | a name matches exactly when it does with any white space added on either side |
| `Text.EdaNameIsWholeName` | app.py:43 | "eda1" is not recognised: the whole stripped name must match |
| `FrontendApp.Delta1h` | frontend/app.py:119-122 | the change from the second-latest to the latest sample, and 0 for fewer than two samples |
| `FrontendApp.LinearSeriesDelta1h` | frontend/app.py:119-122 | the "1-hour change" card spans one sample step: on a series rising by c per sample it shows c |
| `FrontendApp.RatioInUnitInterval` | frontend/app.py:127 | a ratio `num/den` with `0 <= num < den` lies in [0, 1) and is 0 exactly when `num` is |
| `FrontendApp.BaselineScore` | frontend/app.py:127 | the score lies in [0, 1) for every non-empty series, and is 0 exactly when the latest sample is the minimum |
| `FrontendApp.BaselineLevel` | frontend/app.py:128-133 | Low below 0.33, Moderate on [0.33, 0.66), High from 0.66 up, in both directions |
| `FrontendApp.BaselineLevelMonotone` | frontend/app.py:128-133 | a higher score never gives a lower level under Low < Moderate < High |
| `FrontendApp.ConstantSeriesIsLow` | frontend/app.py:127-133 | a constant series scores exactly 0 and is Low |
| `FrontendApp.Anchor` | frontend/app.py:147 | `idx_start` is a valid index of any non-empty series |
| `FrontendApp.Divisor` | frontend/app.py:148 | `denom` lies in [1, 30], so the trend never divides by zero |
| `FrontendApp.Trend` | frontend/app.py:147-149 | the trend is non-negative exactly when the latest sample is at least the anchor sample, and it times the divisor is their difference |
| `FrontendApp.SimpleForecast` | frontend/app.py:141-150 | the forecast has `horizon` values, starts at the last sample and, for two or more values, ends at last + 0.8·trend |
| `FrontendApp.TrendWindow` | frontend/app.py:147-148 | up to 30 samples the anchor is 0 and the divisor is n-1 (at least 1); from 31 on, the anchor is n-30 and the divisor is 30, although only 29 steps separate them |
| `FrontendApp.SingleSampleTrend` | frontend/app.py:147-149 | a one-sample series has trend 0 |
| `FrontendApp.LinearSeriesTrend` | frontend/app.py:147-149 | on a series rising by c per sample the trend is c up to 30 samples and 29c/30 from 31 samples on |
| `FrontendApp.ForecastEvenlySpaced` | frontend/app.py:150 | consecutive forecast values are 0.8·trend/(horizon-1) apart |
| `FrontendApp.ForecastDirection` | frontend/app.py:150 | the forecast is non-decreasing when the trend is >= 0 and non-increasing when it is <= 0 |
| `FrontendApp.ConstantSeriesForecast` | frontend/app.py:146-150 | a constant series has trend 0 and forecasts `horizon` copies of the constant |
| `FrontendApp.CallBackend` | frontend/app.py:30-44 | the reply is passed on exactly when it is an object with a list-valued "forecast"; the sidebar warning appears exactly when the request failed or the acceptance test raised (on a number, boolean or null body, on a string body containing "forecast", or on a list body holding the string "forecast") |
| `FrontendApp.ListBodyIgnored` | frontend/app.py:39-41 | a list body without the string "forecast" is turned down with no warning |
| `FrontendApp.StringBodyWarns` | frontend/app.py:39-43 | every string body containing "forecast" makes `data["forecast"]` raise, so the warning shows and nothing is passed on |
| `FrontendApp.StringBodyWarnsExample` | frontend/app.py:39-43 | the body "no forecast" shows the warning |
| `FrontendApp.AsFloats` | frontend/app.py:159 | converting the reply's forecast succeeds with one number per item, or fails on an item that is not convertible |
| `FrontendApp.LocalPanel` | frontend/app.py:114-167 | the local panel holds the last sample, the 1-hour change, the bucketed score as baseline and as level, `simple_forecast`, probability 0 and the offline message, and does not show the risk |
| `FrontendApp.RemotePanel` | frontend/app.py:158-162 | an accepted reply fails with BadForecast exactly when a forecast item does not convert, with BadProbability exactly when the forecast converts and "probability" does not, with BadMessage exactly when both convert and "message" is not a string; when all three convert the result is a success, and the panel holds the converted forecast and probability, the bucketed score as baseline, "level" or else that baseline's label, the stripped message, the current value and the 1-hour change |
| `FrontendApp.Page` | frontend/app.py:106-167 | fewer than 10 points fail with InsufficientData; any other failure comes from an accepted reply; the current value is the last sample, the 1-hour change is `Delta1h`, the baseline is the bucketed score; the risk is shown exactly when the reply was accepted; the warning appears exactly when the call failed or the acceptance test raised |
| `FrontendApp.LocalFallback` | frontend/app.py:158-167 | every failed or unaccepted reply yields exactly the local computation: window-30 forecast, baseline label, probability 0, offline message |
| `FrontendApp.RemoteReplyUsed` | frontend/app.py:158-162 | an accepted reply supplies the forecast (of whatever length it has), the probability and the stripped message; "level" replaces the baseline label when present |
| `FrontendApp.RemoteReplyFails` | frontend/app.py:158-162 | with 10 or more points an accepted reply crashes the page exactly when a field does not convert, at the first such field: forecast, then probability, then message |
| `FrontendApp.StringInForecastFails` | frontend/app.py:159 | with 10 or more points, an accepted reply whose forecast list holds a string crashes the page with BadForecast; in Python this holds for strings `float` cannot parse, such as "x" |
| `App.EdaColumn` | app.py:43 | the first column whose normalised name is eda, gsr or electrodermal; otherwise column 0 with no numeric check; none (IndexError) only for a table without columns |
| `App.HourChange` | app.py:51 | latest minus `iloc[-60]` when there are more than 60 samples, else 0 |
| `App.LinearSeriesHourChange` | app.py:51 | the "1-hr change" card spans 59 sample steps: on a series rising by c per sample it shows 59c from 61 samples on, and 0 up to 60 samples |
| `App.ConstantHourChange` | app.py:51 | the hour change of a constant series is 0 |
| `App.StressScore` | app.py:54 | the score lies in [0, 1) for every non-empty series |
| `App.StressLevel` | app.py:55 | Low below 0.33, Moderate on [0.33, 0.66), High from 0.66 up |
| `App.StressLevelBoundaries` | app.py:55 | the strict `<` puts 0.33 in Moderate and 0.66 in High |
| `App.ScoreAgreesWithFrontend` | app.py:54 | this copy's score equals the frontend's baseline score on every series |
| `App.LevelAgreesWithFrontend` | app.py:55 | this copy's label equals the frontend's baseline label on every score |
| `App.SimpleForecast` | app.py:68-71 | the forecast has `horizon` values and starts at the last sample |
| `App.ForecastAgreesWithFrontend` | app.py:68-71 | this copy of `simple_forecast` equals the frontend's on every input |
| `App.SingleSampleForecast` | app.py:70 | a single sample gives trend 0 and a flat forecast at that sample |
| `App.FutureAxis` | app.py:74 | the time axis has `horizon` consecutive integers starting at last t + 1 |
| `App.Page` | app.py:47-74 | an empty column fails (no length check precedes `iloc[-1]`); otherwise the panel is the last sample, the hour change, the bucketed score, `simple_forecast` and the time axis from t = n, the last two with `horizon` entries |
| `Predict.Numbers` | src/predict.py:11 | `to_numeric(..., errors="coerce").dropna()` keeps only numeric cells, no more of them than there were cells |
| `Predict.NumbersAppend` | src/predict.py:11 | dropping unreadable cells preserves the order of the rest |
| `Predict.NumbersOfNumeric` | src/predict.py:14 | a numeric column is returned unchanged, one value per cell |
| `Predict.FirstNumericFrom` | src/predict.py:12-14 | finds the first numeric column: it is numeric and no earlier column is |
| `Predict.FirstEdaFound` | src/predict.py:9-11 | the name search returns exactly the first EDA-named column |
| `Predict.FirstNumericFound` | src/predict.py:12-14 | the numeric search returns exactly the first numeric column |
| `Predict.PickEda` | src/predict.py:8-15 | the numeric cells of the first EDA-named column; else the first numeric column; else (or with no rows) exactly [0.4, 0.42] |
| `Predict.PickEdaEmpty` | src/predict.py:8-15 | the picked series is empty exactly when the first EDA-named column has no numeric cell |
| `Predict.TailMean` | src/predict.py:20 | `base`, the mean of the last min(60, n) samples, lies within the range of those samples, and so within the whole series' range |
| `Predict.TailMeanWindow` | src/predict.py:20 | samples older than the last 60 do not change `base` |
| `Predict.Prob` | src/predict.py:21 | `prob` lies in [0, 1]; it is 0 exactly when last - base <= -0.15 and 1 exactly when last - base >= 0.35 |
| `Predict.ProbMonotone` | src/predict.py:21 | a wider gap between the last sample and the mean never lowers `prob` |
| `Predict.Label` | src/predict.py:22 | low below 0.33, medium on [0.33, 0.66), high from 0.66 up |
| `Predict.LabelMonotone` | src/predict.py:22 | a higher `prob` never gives a lower label |
| `Predict.Start` | src/predict.py:23 | `start = max(0, n - 60)` is a valid index of any non-empty series |
| `Predict.Span` | src/predict.py:24 | the slope divisor is at least 1, and equals the index distance from `start` to n-1 whenever n >= 2 |
| `Predict.Delta` | src/predict.py:23-24 | the slope is non-negative exactly when the latest sample is at least sample `start`, and it times the divisor is their difference |
| `Predict.LinearSeriesDelta` | src/predict.py:23-24 | on a series rising by c per sample the slope is exactly c at every length from 2 |
| `Predict.DeltaAgreesWithFrontendOnShortSeries` | src/predict.py:23-24 | up to 30 samples this slope equals the frontend's trend, which the frontend only damps |
| `Predict.Simulate` | src/predict.py:17-26 | `prob` is `Prob(last, base)` with `base` the tail mean, so it lies in [0, 1] with the thresholds `Prob` states; the label is its lower-case bucket; the forecast has `horizon` values from `last` to `last + delta` with no damping |
| `Predict.SimulateDirection` | src/predict.py:25 | the forecast is non-decreasing for a rising slope and non-increasing for a falling one |
| `Predict.ConstantSeriesPrediction` | src/predict.py:17-26 | a constant series gives prob 0.3, label "low" and `horizon` copies of the constant |
| `Predict.SimulatePrediction` | src/predict.py:17-26 | fails with EmptySeries exactly when the picked series is empty, with NegativeHorizon exactly for a non-empty series and horizon < 0; otherwise the result is `Simulate` of the picked series; the horizon defaults to 15 |
| `Predict.ToDict` | src/predict.py:26 | the returned dict has exactly the keys prob, label and forecast; the forecast list holds each forecast value, in order, as a number |
| `Predict.CallBackend` | src/predict.py:28-40 | the reply is returned as it came only when BACKEND_URL is set and non-empty, the call succeeded, and the reply has prob, label and forecast; otherwise the result is exactly `simulate_prediction(df, horizon)`; a returned dict always has the three keys; the horizon defaults to 15 |
| `Predict.FallbackDeterminism` | src/predict.py:28-40 | any two calls that do not use the reply (failed, unset URL or missing key) give identical results |

## Left out

- Streamlit rendering is not modelled: page configuration, CSS injection, headers, metric cards, charts, footers and the sidebar widgets. The horizon is taken as an input. `FrontendApp.Page` requires the slider's values, 5 to 60 in steps of 5.
- Network I/O (`requests.post`, timeouts, `raise_for_status`, `resp.json()`) is reduced to its outcome, the `reply` input. The payload sent to the backend is not modelled.
- The per-row backend loop in frontend/app.py:85-95 is not modelled: its substance is one HTTP call per row. As written, a failed call warns "using 0" but never sets 0. On row 0 it leaves `predicted_level` unbound (NameError). On later rows it repeats the previous row's value.
- The Sample/Upload data-source choice and `load_sample` are not modelled, because they depend on numpy's random generator. The series is an input.
- backend/main.py and src/Test_Data.py are not part of this model. They wrap a pickled classifier and scaler whose code is not in the repository.
- CSV parsing and pandas dtype inference are reduced to a rule: a cell is `Option<real>`, and a column counts as numeric when every cell is a number. Columns of NaN only, and NaN or infinite values in general, are not modelled. app.py:44 (`astype(float)` on the chosen column) is not modelled: `App.Page` takes the numeric column.
- `FrontendApp.StringInForecastFails`: stated for every string, because `AsFloat` converts none; a numeric string such as "1.5" would convert in Python and not crash the page.
- `FrontendApp.AsFloat`: treats a JSON string or null as not convertible. Python's `float` parses numeric strings, and numpy turns null into NaN; neither is modelled.
- The frontend's chart axis `future_t` (frontend/app.py:169) is not modelled. It is `App.FutureAxis` with the reply's forecast length in place of the horizon.
- Floating point is not modelled: every property holds over exact reals, and `1e-6` is the real 0.000001. Rounding in IEEE-754 arithmetic, in the score's division and in linspace's interior points, is left out.
- Unicode is not modelled: `str.lower` and `str.strip` are modelled on ASCII only, so non-ASCII case folding and white space such as U+00A0 are left out.
