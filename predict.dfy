/**
 * The offline predictor in src/predict.py: pick the EDA series out of a
 * table, simulate a prediction from it (a clipped probability, its label and
 * an undamped window-60 trend forecast), and prefer a configured backend's
 * reply when it has the expected keys.
 */
module Predict {
  import opened Wrappers
  import opened Json
  import opened Numerics
  import opened Stress
  import Text
  import FrontendApp

  /** The series `_pick_eda` falls back to when the table has nothing usable. */
  const DefaultSeries: seq<real> := [0.4, 0.42]
  /** The window of the mean and of the trend. */
  const Window: nat := 60
  /** `prob = clip((last - base + Bias) * Gain, 0, 1)`. */
  const Bias: real := 0.15
  const Gain: real := 2.0
  const LowBelow: real := 0.33
  const HighFrom: real := 0.66

  // ---------------------------------------------------------------------
  // _pick_eda

  /** A column of a parsed CSV; a cell is `None` when pandas cannot read it as a number. */
  datatype Column = Column(name: string, cells: seq<Option<real>>)

  /** A column pandas types as numeric: every cell is a number. */
  predicate IsNumeric(c: Column)
  {
    forall i :: 0 <= i < |c.cells| ==> c.cells[i].Some?
  }

  /** `pd.to_numeric(col, errors="coerce").dropna()`: the numeric cells, in order. */
  function Numbers(cells: seq<Option<real>>): (r: seq<real>)
    ensures |r| <= |cells|
    ensures forall i :: 0 <= i < |r| ==> Some(r[i]) in cells
  {
    if cells == [] then []
    else
      var rest := Numbers(cells[1..]);
      match cells[0]
      case Some(x) => [x] + rest
      case None => rest
  }

  /** Dropping unreadable cells keeps the order of the rest: it distributes over concatenation. */
  lemma {:induction false} NumbersAppend(a: seq<Option<real>>, b: seq<Option<real>>)
    ensures Numbers(a + b) == Numbers(a) + Numbers(b)
  {
    if a == [] {
      assert a + b == b;
    } else {
      assert (a + b)[0] == a[0];
      assert (a + b)[1..] == a[1..] + b;
      NumbersAppend(a[1..], b);
      match a[0]
      case Some(x) => assert [x] + Numbers(a[1..]) + Numbers(b) == [x] + (Numbers(a[1..]) + Numbers(b));
      case None =>
    }
  }

  /** A numeric column loses nothing: its numbers are its cells, one for one. */
  lemma {:induction false} NumbersOfNumeric(cells: seq<Option<real>>)
    requires forall i :: 0 <= i < |cells| ==> cells[i].Some?
    ensures |Numbers(cells)| == |cells|
    ensures forall i :: 0 <= i < |cells| ==> cells[i] == Some(Numbers(cells)[i])
  {
    if cells != [] {
      NumbersOfNumeric(cells[1..]);
    }
  }

  /** The column names, in order. */
  function Names(frame: seq<Column>): (names: seq<string>)
    ensures |names| == |frame|
    ensures forall i :: 0 <= i < |frame| ==> names[i] == frame[i].name
  {
    seq(|frame|, i requires 0 <= i < |frame| => frame[i].name)
  }

  /** The first numeric column from index `k` on: column 0 of `select_dtypes(include="number")`. */
  function FirstNumericFrom(frame: seq<Column>, k: nat): (r: Option<nat>)
    requires k <= |frame|
    ensures r.Some? ==> k <= r.value < |frame| && IsNumeric(frame[r.value])
    ensures r.Some? ==> forall j :: k <= j < r.value ==> !IsNumeric(frame[j])
    ensures r.None? ==> forall j :: k <= j < |frame| ==> !IsNumeric(frame[j])
    decreases |frame| - k
  {
    if k == |frame| then None
    else if IsNumeric(frame[k]) then Some(k)
    else FirstNumericFrom(frame, k + 1)
  }

  /** Column `i` is the first one whose name marks an EDA channel. */
  predicate FirstEda(frame: seq<Column>, i: int)
  {
    0 <= i < |frame| && Text.IsEdaName(frame[i].name) && forall j :: 0 <= j < i ==> !Text.IsEdaName(frame[j].name)
  }

  /** Column `i` is the first numeric one. */
  predicate FirstNumeric(frame: seq<Column>, i: int)
  {
    0 <= i < |frame| && IsNumeric(frame[i]) && forall j :: 0 <= j < i ==> !IsNumeric(frame[j])
  }

  /** The shared name search finds exactly the first EDA-named column, when there is one. */
  lemma FirstEdaFound(frame: seq<Column>)
    ensures forall i :: FirstEda(frame, i) ==> Text.FirstEdaName(Names(frame)) == i
    ensures Text.FirstEdaName(Names(frame)) < |frame| ==> FirstEda(frame, Text.FirstEdaName(Names(frame)))
  {
    var names := Names(frame);
    forall i | FirstEda(frame, i) ensures Text.FirstEdaName(names) == i {
      assert names[i] == frame[i].name;
    }
  }

  /** `FirstNumericFrom` finds exactly the first numeric column, when there is one. */
  lemma FirstNumericFound(frame: seq<Column>)
    ensures forall i :: FirstNumeric(frame, i) ==> FirstNumericFrom(frame, 0) == Some(i)
  {
    forall i | FirstNumeric(frame, i) ensures FirstNumericFrom(frame, 0) == Some(i) {
      var r := FirstNumericFrom(frame, 0);
      assert r.Some?;
    }
  }

  /**
   * `_pick_eda`: the numbers of the first EDA-named column; without one, the
   * first numeric column; without one (or when the table has no rows, which
   * makes `num.empty` true), `[0.4, 0.42]`.
   */
  function PickEda(frame: seq<Column>): (r: seq<real>)
    ensures forall i :: FirstEda(frame, i) ==> r == Numbers(frame[i].cells)
    ensures (forall i :: 0 <= i < |frame| ==> !Text.IsEdaName(frame[i].name)) ==>
      (forall i :: FirstNumeric(frame, i) && frame[i].cells != [] ==> r == Numbers(frame[i].cells)) &&
      (forall i :: FirstNumeric(frame, i) && frame[i].cells == [] ==> r == DefaultSeries) &&
      ((forall i :: 0 <= i < |frame| ==> !IsNumeric(frame[i])) ==> r == DefaultSeries)
  {
    var e := Text.FirstEdaName(Names(frame));
    FirstEdaFound(frame);
    FirstNumericFound(frame);
    if e < |frame| then Numbers(frame[e].cells)
    else
      match FirstNumericFrom(frame, 0)
      case Some(i) => if frame[i].cells != [] then Numbers(frame[i].cells) else DefaultSeries
      case None => DefaultSeries
  }

  /** The picked series is empty only when the EDA-named column it chose has no numeric cell. */
  lemma PickEdaEmpty(frame: seq<Column>)
    ensures PickEda(frame) == [] <==> exists i :: FirstEda(frame, i) && Numbers(frame[i].cells) == []
  {
    var e := Text.FirstEdaName(Names(frame));
    FirstEdaFound(frame);
    if e < |frame| {
      assert FirstEda(frame, e);
    } else {
      match FirstNumericFrom(frame, 0)
      case Some(i) =>
        if frame[i].cells != [] {
          NumbersOfNumeric(frame[i].cells);
        }
      case None =>
    }
  }

  // ---------------------------------------------------------------------
  // simulate_prediction

  /** `base`: the mean of the last `min(60, n)` samples. */
  function TailMean(s: seq<real>): (base: real)
    requires |s| > 0
    ensures Min(s[Start(|s|)..]) <= base <= Max(s[Start(|s|)..])
    ensures Min(s) <= base <= Max(s)
  {
    var k := if |s| < Window then 0 else |s| - Window;
    var tail := s[k..];
    assert tail[|tail| - 1] == Last(s);
    var lo := Min(tail);
    var hi := Max(tail);
    assert exists j :: 0 <= j < |tail| && tail[j] == lo;
    assert exists j :: 0 <= j < |tail| && tail[j] == hi;
    Mean(tail)
  }

  /** Samples older than the last 60 do not change `base`. */
  lemma TailMeanWindow(p: seq<real>, s: seq<real>)
    requires |s| >= Window
    ensures TailMean(p + s) == TailMean(s)
  {
    assert (p + s)[|p + s| - Window..] == s[|s| - Window..];
  }

  /** `prob`: the gap between the latest sample and the recent mean, shifted by 0.15, doubled and clipped. */
  function Prob(last: real, base: real): (p: real)
    ensures 0.0 <= p <= 1.0
    ensures p == 0.0 <==> last - base <= -Bias
    ensures p == 1.0 <==> last - base >= 1.0 / Gain - Bias
  {
    Clip((last - base + Bias) * Gain, 0.0, 1.0)
  }

  /** A wider gap never lowers the probability. */
  lemma ProbMonotone(last1: real, base1: real, last2: real, base2: real)
    requires last1 - base1 <= last2 - base2
    ensures Prob(last1, base1) <= Prob(last2, base2)
  {
  }

  /** `label`: "low" below 0.33, "medium" below 0.66, "high" otherwise. */
  function Label(prob: real): (l: Level)
    ensures l == Low <==> prob < LowBelow
    ensures l == Moderate <==> LowBelow <= prob < HighFrom
    ensures l == High <==> HighFrom <= prob
  {
    if prob < LowBelow then Low else if prob < HighFrom then Moderate else High
  }

  /** A higher probability never gives a lower label. */
  lemma LabelMonotone(x: real, y: real)
    requires x <= y
    ensures Rank(Label(x)) <= Rank(Label(y))
  {
  }

  /** `start = max(0, n - 60)`. */
  function Start(n: nat): (k: nat)
    ensures n >= 1 ==> k < n
  {
    if n > Window then n - Window else 0
  }

  /** `max(1, (n - 1) - start)`: the distance from `start` to the latest sample, at least 1. */
  function Span(n: nat): (d: nat)
    requires n >= 1
    ensures d >= 1
    ensures n >= 2 ==> d == (n - 1) - Start(n)
    ensures d <= Window - 1 || n <= 1
  {
    if (n - 1) - Start(n) > 1 then (n - 1) - Start(n) else 1
  }

  /** `delta`: the slope from sample `start` to the latest one. */
  function Delta(s: seq<real>): (d: real)
    requires |s| > 0
    ensures d >= 0.0 <==> Last(s) >= s[Start(|s|)]
    ensures d * (Span(|s|) as real) + s[Start(|s|)] == Last(s)
  {
    var rise := Last(s) - s[Start(|s|)];
    ScaledQuotient(rise, Span(|s|) as real);
    rise / (Span(|s|) as real)
  }

  /** On a series that rises by `c` per sample the slope is exactly `c`, at every length from 2. */
  lemma LinearSeriesDelta(s: seq<real>, a: real, c: real)
    requires |s| >= 2
    requires forall i :: 0 <= i < |s| ==> s[i] == a + c * (i as real)
    ensures Delta(s) == c
  {
    var n := |s|;
    var k := Start(n);
    assert Last(s) - s[k] == c * ((n - 1) as real) - c * (k as real);
    assert c * ((n - 1) as real) - c * (k as real) == c * ((n - 1 - k) as real);
  }

  /** Up to 30 samples this slope is the frontend's trend; the frontend only damps it. */
  lemma DeltaAgreesWithFrontendOnShortSeries(s: seq<real>)
    requires 2 <= |s| <= FrontendApp.Window
    ensures Delta(s) == FrontendApp.Trend(s)
  {
  }

  /** What `simulate_prediction` returns as a dict. */
  datatype Prediction = Prediction(prob: real, riskLabel: string, forecast: seq<real>)

  /** `simulate_prediction` on the picked series, once it is known to be non-empty. */
  function Simulate(s: seq<real>, horizon: nat): (p: Prediction)
    requires |s| > 0
    ensures p.prob == Prob(Last(s), TailMean(s)) && 0.0 <= p.prob <= 1.0
    ensures p.riskLabel == LowerName(Label(p.prob))
    ensures |p.forecast| == horizon
    ensures horizon >= 1 ==> p.forecast[0] == Last(s)
    ensures horizon >= 2 ==> p.forecast[horizon - 1] == Last(s) + Delta(s)
  {
    var last := Last(s);
    var prob := Prob(last, TailMean(s));
    Prediction(prob, LowerName(Label(prob)), Shift(last, Linspace(0.0, Delta(s), horizon)))
  }

  /** The forecast keeps the direction of the slope. */
  lemma SimulateDirection(s: seq<real>, horizon: nat)
    requires |s| > 0
    ensures Delta(s) >= 0.0 ==> NonDecreasing(Simulate(s, horizon).forecast)
    ensures Delta(s) <= 0.0 ==> NonIncreasing(Simulate(s, horizon).forecast)
  {
    LinspaceOrdered(0.0, Delta(s), horizon);
    ShiftKeepsOrder(Last(s), Linspace(0.0, Delta(s), horizon));
  }

  /** A constant series has probability 0.3, label "low" and a flat forecast at the constant. */
  lemma ConstantSeriesPrediction(s: seq<real>, c: real, horizon: nat)
    requires |s| > 0 && Constant(s, c)
    ensures Simulate(s, horizon) == Prediction(0.3, "low", seq(horizon, i => c))
  {
    var p := Simulate(s, horizon);
    ConstantStatistics(s, c);
    assert TailMean(s) == c;
    assert p.prob == 0.3 by {
      assert Prob(c, c) == 0.3;
    }
    assert p.riskLabel == "low";
    assert Delta(s) == 0.0 by {
      assert s[Start(|s|)] == c;
    }
    FlatRamp(c, horizon);
    assert p.forecast == Shift(c, Linspace(0.0, 0.0, horizon));
  }

  /** The exceptions `simulate_prediction` raises. */
  datatype PredictError =
    | EmptySeries      // `eda.iloc[-1]` on an empty series: IndexError
    | NegativeHorizon  // `np.linspace` with a negative count: ValueError

  /** `simulate_prediction(df, horizon=15)`. */
  function SimulatePrediction(frame: seq<Column>, horizon: int := 15): (r: Result<Prediction, PredictError>)
    ensures r == Failure(EmptySeries) <==> PickEda(frame) == []
    ensures r == Failure(NegativeHorizon) <==> PickEda(frame) != [] && horizon < 0
    ensures r.Success? ==> |r.value.forecast| == horizon
    ensures r.Success? && horizon >= 1 ==> r.value.forecast[0] == Last(PickEda(frame))
    ensures r.Success? ==> r.value == Simulate(PickEda(frame), horizon)
  {
    var eda := PickEda(frame);
    if eda == [] then Failure(EmptySeries)
    else if horizon < 0 then Failure(NegativeHorizon)
    else Success(Simulate(eda, horizon))
  }

  // ---------------------------------------------------------------------
  // call_backend

  /** The keys `call_backend` requires of a reply. */
  const ReplyKeys: set<string> := {"prob", "label", "forecast"}

  /** `{"prob": prob, "label": label, "forecast": forecast.tolist()}`. */
  function ToDict(p: Prediction): (d: map<string, Value>)
    ensures d.Keys == ReplyKeys
    ensures d["prob"] == Num(p.prob) && d["label"] == Str(p.riskLabel)
    ensures d["forecast"].List? && |d["forecast"].items| == |p.forecast|
    ensures forall i :: 0 <= i < |p.forecast| ==> d["forecast"].items[i] == Num(p.forecast[i])
  {
    map["prob" := Num(p.prob), "label" := Str(p.riskLabel), "forecast" := NumList(p.forecast)]
  }

  /** `simulate_prediction(df, horizon)` as the dict `call_backend` returns. */
  function Local(frame: seq<Column>, horizon: int := 15): Result<map<string, Value>, PredictError>
  {
    match SimulatePrediction(frame, horizon)
    case Success(p) => Success(ToDict(p))
    case Failure(e) => Failure(e)
  }

  /** `if BACKEND_URL:`: the variable is set and not empty. */
  predicate Configured(backendUrl: Option<string>)
  {
    backendUrl.Some? && backendUrl.value != ""
  }

  /**
   * `call_backend(df, horizon=15)`. The environment variable is `backendUrl`
   * (`None` when unset); the HTTP exchange is `reply`: `None` when the
   * request raised, timed out, returned a non-2xx status or a body that is
   * not a JSON object, otherwise the decoded object. The reply is returned
   * as it came when the backend is configured and the reply carries prob,
   * label and forecast; in every other case the result is exactly the local
   * simulation, and either way a returned dict has those three keys.
   */
  function CallBackend(frame: seq<Column>, backendUrl: Option<string>, reply: Option<map<string, Value>>,
                       horizon: int := 15): (r: Result<map<string, Value>, PredictError>)
    ensures Configured(backendUrl) && reply.Some? && ReplyKeys <= reply.value.Keys ==> r == Success(reply.value)
    ensures !(Configured(backendUrl) && reply.Some? && ReplyKeys <= reply.value.Keys) ==> r == Local(frame, horizon)
    ensures r.Success? ==> ReplyKeys <= r.value.Keys
  {
    if Configured(backendUrl) && reply.Some? && ReplyKeys <= reply.value.Keys then Success(reply.value)
    else Local(frame, horizon)
  }

  /** A failed call, an unset URL or a reply missing a key all give the same result. */
  lemma FallbackDeterminism(frame: seq<Column>, horizon: int, url1: Option<string>, url2: Option<string>,
                            reply1: Option<map<string, Value>>, reply2: Option<map<string, Value>>)
    requires reply1.None? || !Configured(url1) || !(ReplyKeys <= reply1.value.Keys)
    requires reply2.None? || !Configured(url2) || !(ReplyKeys <= reply2.value.Keys)
    ensures CallBackend(frame, url1, reply1, horizon) == CallBackend(frame, url2, reply2, horizon)
  {
  }
}
