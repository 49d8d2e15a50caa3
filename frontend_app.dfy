/**
 * The Streamlit dashboard in frontend/app.py: the KPI values, the baseline
 * stress level, the local window-30 trend forecast, and the choice between
 * the backend's reply and that local forecast.
 */
module FrontendApp {
  import opened Wrappers
  import opened Json
  import opened Numerics
  import opened Stress
  import Text

  /** Fewer samples than this stop the page with an error. */
  const MinPoints: nat := 10
  /** The trend window of `simple_forecast`. */
  const Window: nat := 30
  /** The forecast ramps to this fraction of the trend. */
  const Damping: real := 0.8
  /** Added to the range so that a constant series does not divide by zero. */
  const Epsilon: real := 0.000001
  /** Scores below this are Low. */
  const LowBelow: real := 0.33
  /** Scores from this up are High. */
  const HighFrom: real := 0.66
  const OfflineMessage: string := "Local baseline forecast (backend offline)."

  /** The values the sidebar slider offers: 5 to 60 in steps of 5. */
  predicate SliderHorizon(h: int)
  {
    5 <= h <= 60 && h % 5 == 0
  }

  // ---------------------------------------------------------------------
  // KPI cards

  /** `delta_1h`: the change from the second-latest to the latest sample, 0 with fewer than two. */
  function Delta1h(s: seq<real>): (d: real)
    ensures |s| < 2 ==> d == 0.0
    ensures |s| >= 2 ==> s[|s| - 2] + d == Last(s)
  {
    if |s| >= 2 then s[|s| - 1] - s[|s| - 2] else 0.0
  }

  /**
   * The "1-hour change" card spans a single sample step: on a series that
   * rises by `c` per sample it shows `c`, from two samples on.
   */
  lemma LinearSeriesDelta1h(s: seq<real>, a: real, c: real)
    requires |s| >= 2
    requires forall i :: 0 <= i < |s| ==> s[i] == a + c * (i as real)
    ensures Delta1h(s) == c
  {
    var n := |s|;
    assert s[n - 1] - s[n - 2] == c * ((n - 1) as real) - c * ((n - 2) as real);
  }

  /** `num / den` lies in [0, 1) when 0 <= num < den, and is 0 exactly when num is. */
  lemma RatioInUnitInterval(num: real, den: real)
    requires 0.0 <= num < den
    ensures 0.0 <= num / den < 1.0
    ensures num / den == 0.0 <==> num == 0.0
  {
    var q := num / den;
    QuotientBounds(num, den, 0.0, 1.0);
    assert q * den == num < den == 1.0 * den;
    assert q != 1.0;
  }

  /** `lvl_raw`: where the latest sample sits between the series' minimum and maximum. */
  function BaselineScore(s: seq<real>): (score: real)
    requires |s| > 0
    ensures 0.0 <= score < 1.0
    ensures score == 0.0 <==> Last(s) == Min(s)
  {
    var num := Last(s) - Min(s);
    var den := Max(s) - Min(s) + Epsilon;
    RatioInUnitInterval(num, den);
    num / den
  }

  /** `baseline_level`: the score bucketed at 0.33 and 0.66. */
  function BaselineLevel(score: real): (l: Level)
    ensures l == Low <==> score < LowBelow
    ensures l == Moderate <==> LowBelow <= score < HighFrom
    ensures l == High <==> HighFrom <= score
  {
    if score < LowBelow then Low
    else if score < HighFrom then Moderate
    else High
  }

  /** A higher score never gives a lower level. */
  lemma BaselineLevelMonotone(x: real, y: real)
    requires x <= y
    ensures Rank(BaselineLevel(x)) <= Rank(BaselineLevel(y))
  {
  }

  /** A constant series scores exactly 0 and is Low. */
  lemma ConstantSeriesIsLow(s: seq<real>, c: real)
    requires |s| > 0 && Constant(s, c)
    ensures BaselineScore(s) == 0.0
    ensures BaselineLevel(BaselineScore(s)) == Low
  {
    ConstantStatistics(s, c);
  }

  // ---------------------------------------------------------------------
  // simple_forecast

  /** `idx_start = max(len(series) - 30, 0)`. */
  function Anchor(n: nat): (a: nat)
    ensures n >= 1 ==> a < n
  {
    if n >= Window then n - Window else 0
  }

  /** `denom = max(min(30, len(series) - 1), 1)`. */
  function Divisor(n: nat): (d: nat)
    ensures 1 <= d <= Window
  {
    var m := if Window < n - 1 then Window as int else n - 1;
    if m > 1 then m else 1
  }

  /** The slope from the anchor sample to the latest one. */
  function Trend(s: seq<real>): (t: real)
    requires |s| > 0
    ensures t >= 0.0 <==> Last(s) >= s[Anchor(|s|)]
    ensures t * (Divisor(|s|) as real) + s[Anchor(|s|)] == Last(s)
  {
    var rise := Last(s) - s[Anchor(|s|)];
    ScaledQuotient(rise, Divisor(|s|) as real);
    rise / (Divisor(|s|) as real)
  }

  /** `simple_forecast(series, horizon)`: `last + np.linspace(0, trend * 0.8, horizon)`. */
  function SimpleForecast(s: seq<real>, horizon: nat): (r: seq<real>)
    requires |s| > 0
    ensures |r| == horizon
    ensures horizon >= 1 ==> r[0] == Last(s)
    ensures horizon >= 2 ==> r[horizon - 1] == Last(s) + Trend(s) * Damping
  {
    Shift(Last(s), Linspace(0.0, Trend(s) * Damping, horizon))
  }

  /**
   * The window: up to 30 samples the slope runs from the first sample over
   * the exact distance; from 31 samples it runs from sample n-30, 29 steps
   * back, but is still divided by 30.
   */
  lemma TrendWindow(n: nat)
    requires n >= 1
    ensures Divisor(n) >= 1
    ensures n <= Window ==> Anchor(n) == 0 && Divisor(n) == (if n >= 2 then n - 1 else 1)
    ensures n > Window ==> Anchor(n) == n - Window && Divisor(n) == Window && (n - 1) - Anchor(n) == Window - 1
  {
  }

  /** A single sample has trend 0. */
  lemma SingleSampleTrend(s: seq<real>)
    requires |s| == 1
    ensures Trend(s) == 0.0
  {
  }

  /**
   * On a series that rises by `c` per sample the trend is `c` up to 30
   * samples, and `29c/30` from 31 samples on.
   */
  lemma LinearSeriesTrend(s: seq<real>, a: real, c: real)
    requires |s| >= 2
    requires forall i :: 0 <= i < |s| ==> s[i] == a + c * (i as real)
    ensures |s| <= Window ==> Trend(s) == c
    ensures |s| > Window ==> Trend(s) == c * 29.0 / 30.0
  {
    var n := |s|;
    var k := Anchor(n);
    assert Last(s) - s[k] == c * ((n - 1) as real) - c * (k as real);
    assert c * ((n - 1) as real) - c * (k as real) == c * ((n - 1 - k) as real);
  }

  /** For two or more steps the forecast is evenly spaced by `0.8 * trend / (horizon - 1)`. */
  lemma ForecastEvenlySpaced(s: seq<real>, horizon: nat, i: nat)
    requires |s| > 0 && horizon >= 2 && i + 1 < horizon
    ensures SimpleForecast(s, horizon)[i + 1] - SimpleForecast(s, horizon)[i]
         == Trend(s) * Damping / ((horizon - 1) as real)
  {
    LinspaceEvenlySpaced(0.0, Trend(s) * Damping, horizon, i);
  }

  /** The forecast never falls on a rising trend and never rises on a falling one. */
  lemma ForecastDirection(s: seq<real>, horizon: nat)
    requires |s| > 0
    ensures Trend(s) >= 0.0 ==> NonDecreasing(SimpleForecast(s, horizon))
    ensures Trend(s) <= 0.0 ==> NonIncreasing(SimpleForecast(s, horizon))
  {
    var t := Trend(s) * Damping;
    assert Trend(s) >= 0.0 ==> t >= 0.0;
    assert Trend(s) <= 0.0 ==> t <= 0.0;
    LinspaceOrdered(0.0, t, horizon);
    ShiftKeepsOrder(Last(s), Linspace(0.0, t, horizon));
  }

  /** A constant series has trend 0 and forecasts `horizon` copies of the constant. */
  lemma ConstantSeriesForecast(s: seq<real>, c: real, horizon: nat)
    requires |s| > 0 && Constant(s, c)
    ensures Trend(s) == 0.0
    ensures SimpleForecast(s, horizon) == seq(horizon, i => c)
  {
    assert Trend(s) == 0.0;
    FlatRamp(c, horizon);
  }

  // ---------------------------------------------------------------------
  // Backend call and result selection

  /** `t` occurs in `s` as a contiguous piece: Python's `t in s` on two strings. */
  predicate Substring(t: string, s: string)
  {
    exists i :: 0 <= i <= |s| && t <= s[i..]
  }

  /** `"forecast" in data and isinstance(data["forecast"], list)`, on an object body. */
  predicate Accepts(data: Value)
  {
    data.Obj? && "forecast" in data.fields && data.fields["forecast"].List?
  }

  /**
   * Whether the acceptance test itself raises on a decoded body: `in` on a
   * number, a boolean or null raises TypeError; on a string it is a
   * substring test and on a list a membership test, and when either holds
   * `data["forecast"]` raises TypeError.
   */
  predicate TestRaises(data: Value)
  {
    match data
    case Obj(_) => false
    case Str(t) => Substring("forecast", t)
    case List(items) => Str("forecast") in items
    case _ => true
  }

  /** What `call_backend` returns, and whether it showed the sidebar warning. */
  datatype BackendCall = BackendCall(data: Option<map<string, Value>>, warned: bool)

  /**
   * `call_backend`. The HTTP exchange is the parameter `reply`: `None` when
   * the request raised, timed out, returned a non-2xx status or a body that
   * is not JSON; otherwise the decoded body, of whatever JSON type. The
   * warning is shown whenever the `except` branch runs.
   */
  function CallBackend(reply: Option<Value>): (call: BackendCall)
    ensures call.warned <==> reply.None? || TestRaises(reply.value)
    ensures call.data.Some? <==> reply.Some? && Accepts(reply.value)
    ensures call.data.Some? ==> reply == Some(Obj(call.data.value))
  {
    match reply
    case None => BackendCall(None, true)
    case Some(data) =>
      if Accepts(data) then BackendCall(Some(data.fields), false)
      else BackendCall(None, TestRaises(data))
  }

  /** A list body that does not hold the string "forecast" is turned down without a warning. */
  lemma ListBodyIgnored(items: seq<Value>)
    requires forall i :: 0 <= i < |items| ==> items[i] != Str("forecast")
    ensures CallBackend(Some(List(items))) == BackendCall(None, false)
  {
  }

  /** A string body that contains "forecast" raises at `data["forecast"]`, so the warning shows. */
  lemma StringBodyWarns(t: string)
    requires Substring("forecast", t)
    ensures CallBackend(Some(Str(t))) == BackendCall(None, true)
  {
  }

  /** For instance the body "no forecast" shows the warning. */
  lemma StringBodyWarnsExample()
    ensures CallBackend(Some(Str("no forecast"))) == BackendCall(None, true)
  {
    assert "forecast" <= "no forecast"[3..];
    StringBodyWarns("no forecast");
  }

  /** `data.get(key, default)`. */
  function Get(data: map<string, Value>, key: string, default: Value): Value
  {
    if key in data then data[key] else default
  }

  /** `float(v)` for the JSON values it accepts: numbers and booleans. */
  function AsFloat(v: Value): Option<real>
  {
    match v
    case Num(x) => Some(x)
    case Bool(b) => Some(if b then 1.0 else 0.0)
    case _ => None
  }

  /** `np.array(items, dtype=float)`: every item converted, or none when one cannot be. */
  function AsFloats(items: seq<Value>): (r: Option<seq<real>>)
    ensures r.Some? ==> |r.value| == |items| && forall i :: 0 <= i < |items| ==> AsFloat(items[i]) == Some(r.value[i])
    ensures r.None? ==> exists i :: 0 <= i < |items| && AsFloat(items[i]).None?
  {
    if items == [] then Some([])
    else
      match AsFloat(items[0])
      case None => None
      case Some(x) =>
        match AsFloats(items[1..])
        case None => None
        case Some(rest) => Some([x] + rest)
  }

  /** The exceptions the result selection can raise on a reply it accepted. */
  datatype PageError = InsufficientData | BadForecast | BadProbability | BadMessage

  /** What the page shows below its header. */
  datatype Panel = Panel(
    current: real,
    delta1h: real,
    baseline: Level,
    forecast: seq<real>,
    level: Value,
    prob: real,
    message: string,
    showsRisk: bool,
    warned: bool)

  /** The panel built from the local forecast when the backend gave nothing usable. */
  function LocalPanel(s: seq<real>, horizon: nat, warned: bool): (p: Panel)
    requires |s| > 0
    ensures p.current == Last(s) && p.delta1h == Delta1h(s) && p.baseline == BaselineLevel(BaselineScore(s))
    ensures p.forecast == SimpleForecast(s, horizon) && p.prob == 0.0 && p.message == OfflineMessage
    ensures p.level == Str(TitleName(p.baseline)) && !p.showsRisk && p.warned == warned
  {
    var baseline := BaselineLevel(BaselineScore(s));
    Panel(Last(s), Delta1h(s), baseline, SimpleForecast(s, horizon), Str(TitleName(baseline)),
          0.0, OfflineMessage, false, warned)
  }

  /**
   * The panel built from an accepted reply, or the exception converting it
   * raises: `np.array(..., dtype=float)` on the forecast, then `float` on
   * "probability" (default 0.0), then `.strip()` on "message" (default "").
   */
  function RemotePanel(s: seq<real>, data: map<string, Value>): (r: Result<Panel, PageError>)
    requires |s| > 0 && Accepts(Obj(data))
    ensures r.Success? <==>
      && AsFloats(data["forecast"].items).Some?
      && AsFloat(Get(data, "probability", Num(0.0))).Some?
      && Get(data, "message", Str("")).Str?
    ensures r == Failure(BadForecast) <==> AsFloats(data["forecast"].items).None?
    ensures r == Failure(BadProbability) <==>
      AsFloats(data["forecast"].items).Some? && AsFloat(Get(data, "probability", Num(0.0))).None?
    ensures r == Failure(BadMessage) <==>
      AsFloats(data["forecast"].items).Some? && AsFloat(Get(data, "probability", Num(0.0))).Some?
      && !Get(data, "message", Str("")).Str?
    ensures r.Success? ==>
      && r.value.current == Last(s) && r.value.delta1h == Delta1h(s)
      && r.value.baseline == BaselineLevel(BaselineScore(s))
      && Some(r.value.forecast) == AsFloats(data["forecast"].items)
      && Some(r.value.prob) == AsFloat(Get(data, "probability", Num(0.0)))
      && r.value.message == Text.Strip(Get(data, "message", Str("")).s)
      && r.value.level == Get(data, "level", Str(TitleName(r.value.baseline)))
      && r.value.showsRisk && !r.value.warned
  {
    var baseline := BaselineLevel(BaselineScore(s));
    match AsFloats(data["forecast"].items)
    case None => Failure(BadForecast)
    case Some(forecast) =>
      match AsFloat(Get(data, "probability", Num(0.0)))
      case None => Failure(BadProbability)
      case Some(prob) =>
        match Get(data, "message", Str(""))
        case Str(m) =>
          Success(Panel(Last(s), Delta1h(s), baseline, forecast, Get(data, "level", Str(TitleName(baseline))),
                        prob, Text.Strip(m), true, false))
        case _ => Failure(BadMessage)
  }

  /**
   * The page from the length check to the forecast panel, for a series of
   * stress samples, a slider horizon and the backend's reply.
   */
  function Page(s: seq<real>, horizon: nat, reply: Option<Value>): (r: Result<Panel, PageError>)
    requires SliderHorizon(horizon)
    ensures r == Failure(InsufficientData) <==> |s| < MinPoints
    ensures r.Failure? && |s| >= MinPoints ==> reply.Some? && Accepts(reply.value)
    ensures r.Success? ==> r.value.current == Last(s) && r.value.delta1h == Delta1h(s)
    ensures r.Success? ==> r.value.baseline == BaselineLevel(BaselineScore(s))
    ensures r.Success? ==> (r.value.showsRisk <==> reply.Some? && Accepts(reply.value))
    ensures r.Success? ==> (r.value.warned <==> reply.None? || TestRaises(reply.value))
  {
    if |s| < MinPoints then Failure(InsufficientData)
    else
      var call := CallBackend(reply);
      match call.data
      case None => Success(LocalPanel(s, horizon, call.warned))
      case Some(data) => RemotePanel(s, data)
  }

  /**
   * Whenever the backend fails or replies without a list-valued
   * "forecast", the page is exactly the local computation: the
   * window-30 forecast, the baseline level and probability 0.
   */
  lemma LocalFallback(s: seq<real>, horizon: nat, reply: Option<Value>)
    requires SliderHorizon(horizon) && |s| >= MinPoints
    requires reply.None? || !Accepts(reply.value)
    ensures Page(s, horizon, reply).Success?
    ensures var p := Page(s, horizon, reply).value;
      && p.forecast == SimpleForecast(s, horizon)
      && p.level == Str(TitleName(BaselineLevel(BaselineScore(s))))
      && p.prob == 0.0
      && p.message == OfflineMessage
      && !p.showsRisk
  {
  }

  /**
   * An accepted reply whose fields convert replaces the forecast and the
   * probability by the reply's, and the level by its "level" when present.
   */
  lemma RemoteReplyUsed(s: seq<real>, horizon: nat, data: map<string, Value>, forecast: seq<real>, prob: real, m: string)
    requires SliderHorizon(horizon) && |s| >= MinPoints
    requires Accepts(Obj(data)) && AsFloats(data["forecast"].items) == Some(forecast)
    requires AsFloat(Get(data, "probability", Num(0.0))) == Some(prob)
    requires Get(data, "message", Str("")) == Str(m)
    ensures Page(s, horizon, Some(Obj(data))).Success?
    ensures var p := Page(s, horizon, Some(Obj(data))).value;
      && p.forecast == forecast
      && |p.forecast| == |data["forecast"].items|
      && p.prob == prob
      && p.level == Get(data, "level", Str(TitleName(BaselineLevel(BaselineScore(s)))))
      && p.message == Text.Strip(m)
      && p.showsRisk
  {
  }

  /**
   * An accepted reply crashes the page exactly when one of its fields does
   * not convert, at the first field that does not: the forecast, then the
   * probability, then the message.
   */
  lemma RemoteReplyFails(s: seq<real>, horizon: nat, data: map<string, Value>)
    requires SliderHorizon(horizon) && |s| >= MinPoints && Accepts(Obj(data))
    ensures Page(s, horizon, Some(Obj(data))) == Failure(BadForecast)
      <==> AsFloats(data["forecast"].items).None?
    ensures Page(s, horizon, Some(Obj(data))) == Failure(BadProbability)
      <==> AsFloats(data["forecast"].items).Some? && AsFloat(Get(data, "probability", Num(0.0))).None?
    ensures Page(s, horizon, Some(Obj(data))) == Failure(BadMessage)
      <==> AsFloats(data["forecast"].items).Some? && AsFloat(Get(data, "probability", Num(0.0))).Some?
           && !Get(data, "message", Str("")).Str?
  {
    assert Page(s, horizon, Some(Obj(data))) == RemotePanel(s, data);
  }

  /**
   * A forecast list holding a string crashes the page with BadForecast.
   * `AsFloat` converts no string, so this covers every string; in Python it
   * holds for the strings `float` cannot parse, such as "x".
   */
  lemma StringInForecastFails(s: seq<real>, horizon: nat, data: map<string, Value>, k: nat, x: string)
    requires SliderHorizon(horizon) && |s| >= MinPoints && Accepts(Obj(data))
    requires k < |data["forecast"].items| && data["forecast"].items[k] == Str(x)
    ensures Page(s, horizon, Some(Obj(data))) == Failure(BadForecast)
  {
    assert AsFloat(data["forecast"].items[k]).None?;
    RemoteReplyFails(s, horizon, data);
  }
}
