/**
 * The earlier single-file dashboard, app.py: the EDA column it picks from an
 * uploaded table, its KPI values, its own copy of the window-30 forecast and
 * the time axis the forecast is plotted on.
 */
module App {
  import opened Wrappers
  import opened Numerics
  import opened Stress
  import Text
  import FrontendApp

  /** The lag of the "1-hr change" card, in samples. */
  const HourLag: nat := 60
  const Epsilon: real := 0.000001
  const LowBelow: real := 0.33
  const HighFrom: real := 0.66

  // ---------------------------------------------------------------------
  // Column choice

  /**
   * `eda_col`: the index of the first column whose lower-cased, stripped name
   * is eda, gsr or electrodermal, else of the first column whatever it
   * holds. The default `raw.columns[0]` is evaluated before the search, so a
   * table without columns raises IndexError: `None` here.
   */
  function EdaColumn(names: seq<string>): (r: Option<nat>)
    ensures r.None? <==> names == []
    ensures r.Some? ==> r.value < |names|
    ensures r.Some? && Text.IsEdaName(names[r.value]) ==>
      forall j :: 0 <= j < r.value ==> !Text.IsEdaName(names[j])
    ensures r.Some? && !Text.IsEdaName(names[r.value]) ==>
      r.value == 0 && forall j :: 0 <= j < |names| ==> !Text.IsEdaName(names[j])
  {
    if names == [] then None
    else
      var i := Text.FirstEdaName(names);
      if i < |names| then Some(i) else Some(0)
  }

  // ---------------------------------------------------------------------
  // KPI cards

  /** `delta`: latest sample minus `iloc[-60]` when there are more than 60 samples, else 0. */
  function HourChange(s: seq<real>): (d: real)
    ensures |s| <= HourLag ==> d == 0.0
    ensures |s| > HourLag ==> s[|s| - HourLag] + d == Last(s)
  {
    if |s| > HourLag then s[|s| - 1] - s[|s| - HourLag] else 0.0
  }

  /**
   * The "1-hr change" card spans 59 sample steps, not 60: on a series that
   * rises by `c` per sample it shows `59c` once there are more than 60
   * samples, and 0 before that, although 60 samples would already span 59
   * steps.
   */
  lemma LinearSeriesHourChange(s: seq<real>, a: real, c: real)
    requires forall i :: 0 <= i < |s| ==> s[i] == a + c * (i as real)
    ensures |s| > HourLag ==> HourChange(s) == 59.0 * c
    ensures |s| <= HourLag ==> HourChange(s) == 0.0
  {
    var n := |s|;
    if n > HourLag {
      assert s[n - 1] - s[n - HourLag] == c * ((n - 1) as real) - c * ((n - HourLag) as real);
    }
  }

  /** The hour change of a constant series is 0, whatever its length. */
  lemma ConstantHourChange(s: seq<real>, c: real)
    requires Constant(s, c)
    ensures HourChange(s) == 0.0
  {
  }

  /** `lvl_raw`: the latest sample's place in the series' range, in [0, 1). */
  function StressScore(s: seq<real>): (score: real)
    requires |s| > 0
    ensures 0.0 <= score < 1.0
  {
    var num := Last(s) - Min(s);
    var den := Max(s) - Min(s) + Epsilon;
    FrontendApp.RatioInUnitInterval(num, den);
    num / den
  }

  /** `lvl`: "Low" below 0.33, "Moderate" below 0.66, "High" otherwise. */
  function StressLevel(score: real): (l: Level)
    ensures l == Low <==> score < LowBelow
    ensures l == Moderate <==> LowBelow <= score < HighFrom
    ensures l == High <==> HighFrom <= score
  {
    if score < LowBelow then Low else if score < HighFrom then Moderate else High
  }

  /** The thresholds belong to the upper band: 0.33 is Moderate and 0.66 is High. */
  lemma StressLevelBoundaries()
    ensures StressLevel(0.33) == Moderate && StressLevel(0.66) == High
    ensures StressLevel(0.0) == Low
  {
  }

  /** This copy scores a series exactly as the frontend's baseline. */
  lemma ScoreAgreesWithFrontend(s: seq<real>)
    requires |s| > 0
    ensures StressScore(s) == FrontendApp.BaselineScore(s)
  {
  }

  /** This copy labels a score exactly as the frontend's baseline. */
  lemma LevelAgreesWithFrontend(score: real)
    ensures StressLevel(score) == FrontendApp.BaselineLevel(score)
  {
  }

  // ---------------------------------------------------------------------
  // Forecast

  /** `simple_forecast`: `last + np.linspace(0, trend * 0.8, horizon)` with the window-30 trend. */
  function SimpleForecast(s: seq<real>, horizon: nat): (r: seq<real>)
    requires |s| > 0
    ensures |r| == horizon
    ensures horizon >= 1 ==> r[0] == Last(s)
  {
    var n := |s|;
    var lo := if n - 30 > 0 then n - 30 else 0;
    var window := if 30 < n - 1 then 30 else n - 1;
    var trend := (Last(s) - s[lo]) / ((if window > 1 then window else 1) as real);
    Shift(Last(s), Linspace(0.0, trend * 0.8, horizon))
  }

  /** This copy forecasts exactly as the frontend's `simple_forecast`. */
  lemma ForecastAgreesWithFrontend(s: seq<real>, horizon: nat)
    requires |s| > 0
    ensures SimpleForecast(s, horizon) == FrontendApp.SimpleForecast(s, horizon)
  {
    var n := |s|;
    var lo := if n - 30 > 0 then n - 30 else 0;
    var window := if 30 < n - 1 then 30 else n - 1;
    assert lo == FrontendApp.Anchor(n);
    assert (if window > 1 then window else 1) == FrontendApp.Divisor(n);
    assert (Last(s) - s[lo]) / ((if window > 1 then window else 1) as real) == FrontendApp.Trend(s);
  }

  /** A single sample gives trend 0, so a flat forecast at that sample. */
  lemma SingleSampleForecast(s: seq<real>, horizon: nat)
    requires |s| == 1
    ensures SimpleForecast(s, horizon) == seq(horizon, i => s[0])
  {
    ForecastAgreesWithFrontend(s, horizon);
    FrontendApp.ConstantSeriesForecast(s, s[0], horizon);
  }

  /** `future_t = np.arange(last_t + 1, last_t + 1 + horizon)`. */
  function FutureAxis(lastT: int, horizon: nat): (t: seq<int>)
    ensures |t| == horizon
    ensures horizon >= 1 ==> t[0] == lastT + 1
    ensures forall i :: 0 <= i < horizon - 1 ==> t[i + 1] == t[i] + 1
  {
    seq(horizon, i requires 0 <= i < horizon => lastT + 1 + i)
  }

  // ---------------------------------------------------------------------
  // The page

  datatype PageError = EmptySeries

  datatype Panel = Panel(current: real, hourChange: real, level: Level, forecast: seq<real>, futureT: seq<int>)

  /**
   * The page from the KPI cards to the forecast chart, for the chosen EDA
   * column with `t = 0 .. n-1`. There is no length check: an empty column
   * raises IndexError at `iloc[-1]`.
   */
  function Page(eda: seq<real>, horizon: nat): (r: Result<Panel, PageError>)
    ensures r.Failure? <==> eda == []
    ensures r.Success? ==> |r.value.forecast| == |r.value.futureT| == horizon
    ensures r.Success? && horizon >= 1 ==> r.value.futureT[0] == |eda| && r.value.forecast[0] == Last(eda)
    ensures r.Success? ==> r.value == Panel(Last(eda), HourChange(eda), StressLevel(StressScore(eda)),
                                            SimpleForecast(eda, horizon), FutureAxis(|eda| - 1, horizon))
  {
    if eda == [] then Failure(EmptySeries)
    else
      var s := StressScore(eda);
      Success(Panel(Last(eda), HourChange(eda), StressLevel(s), SimpleForecast(eda, horizon),
                    FutureAxis(|eda| - 1, horizon)))
  }
}
