/**
  `build_predicted(steps)`: every raw input column is forecast `steps`
  values ahead. Step s assembles a query from the forecasts, blocks in
  order and columns in order within a block, and predicts it with
  `calculate_value`. The predictions are written over the last `steps`
  rows of a copy of the raw outputs `Y_`.

  The forecaster (an ARIMA model) is a parameter: all that is known of it
  is that it returns `horizon` values.
 */
module Forecast {
  import opened Wrappers
  import opened LinAlg
  import opened Layout
  import opened Links
  import opened Normalize
  import opened Target
  import opened Design
  import opened Layers
  import opened Engine
  import opened Predict

  /** `forecast(series, horizon)`: some `horizon` values continuing the series. */
  type Forecaster = f: (Vector, nat) -> Vector | forall series: Vector, horizon: nat :: |f(series, horizon)| == horizon
    witness (series: Vector, horizon: nat) => seq(horizon, _ => 0.0)

  /** What `build_predicted` reads of a fit: the queried layers and the raw blocks `X_`, `Y_`. */
  predicate Forecastable(fit: Fit) {
    && Predictable(fit)
    && |fit.views.rawY| > 0
    && IsMatrix(fit.views.rawY, |fit.views.rawY|, DimY(fit.cfg))
    && InputBlocks(fit.cfg, fit.views.rawX, |fit.views.rawY|)
  }

  /** Every fit with the shapes of a successful one can forecast. */
  lemma ShapedIsForecastable(fit: Fit, n: nat)
    requires FitShape(fit, n)
    ensures Forecastable(fit)
  {
    ShapedIsPredictable(fit, n);
  }

  /** `XF`: per input block, per column of the block, the forecasts of dimension `steps`. */
  predicate ForecastShape(cfg: Config, XF: seq<seq<Vector>>, steps: nat)
    requires Valid(cfg)
  {
    && |XF| == 3
    && (forall k :: 0 <= k < 3 ==> |XF[k]| == cfg.dim[k])
    && (forall k, j :: 0 <= k < 3 && 0 <= j < |XF[k]| ==> |XF[k][j]| == steps)
  }

  /** `XF[i][j] = forecast(X_i[:, j], steps)` for every raw input block i and column j. */
  function ForecastInputs(fc: Forecaster, cfg: Config, rawX: seq<Matrix>, n: nat, steps: nat): (XF: seq<seq<Vector>>)
    requires Valid(cfg) && InputBlocks(cfg, rawX, n)
    ensures ForecastShape(cfg, XF, steps)
    ensures forall k, j :: 0 <= k < 3 && 0 <= j < cfg.dim[k] ==> XF[k][j] == fc(Column(rawX[k], j), steps)
  {
    var XF := seq(3, k requires 0 <= k < 3 =>
      seq(cfg.dim[k], j requires 0 <= j < cfg.dim[k] => fc(Column(rawX[k], j), steps)));
    assert forall k, j :: 0 <= k < 3 && 0 <= j < |XF[k]| ==> |fc(Column(rawX[k], j), steps)| == steps;
    XF
  }

  /**
    The query of step s (1 <= s <= steps): `xfc[-s]`, position `steps - s`,
    of every forecast, blocks in order and columns in order within a block,
    so input column j of block k lands at its flat position `ColIndex(k, j)`.
   */
  function StepQuery(cfg: Config, XF: seq<seq<Vector>>, steps: nat, s: nat): (x: Vector)
    requires Valid(cfg) && ForecastShape(cfg, XF, steps) && 1 <= s <= steps
    ensures |x| == MX(cfg)
    ensures forall t :: 0 <= t < MX(cfg) ==> x[t] == StepEntry(cfg, XF, steps, s, t)
    ensures forall k, j :: 0 <= k < 3 && 0 <= j < cfg.dim[k] ==>
      ColIndex(cfg, k, j) < MX(cfg) && x[ColIndex(cfg, k, j)] == XF[k][j][steps - s]
  {
    var x := seq(MX(cfg), t requires 0 <= t < MX(cfg) => StepEntry(cfg, XF, steps, s, t));
    StepEntriesAt(cfg, XF, steps, s, x);
    x
  }

  /** A vector of the step entries holds `XF[k][j][steps - s]` at the flat position of column j of block k. */
  lemma StepEntriesAt(cfg: Config, XF: seq<seq<Vector>>, steps: nat, s: nat, x: Vector)
    requires Valid(cfg) && ForecastShape(cfg, XF, steps) && 1 <= s <= steps
    requires |x| == MX(cfg) && forall t :: 0 <= t < MX(cfg) ==> x[t] == StepEntry(cfg, XF, steps, s, t)
    ensures forall k, j :: 0 <= k < 3 && 0 <= j < cfg.dim[k] ==>
      ColIndex(cfg, k, j) < MX(cfg) && x[ColIndex(cfg, k, j)] == XF[k][j][steps - s]
  {
    forall k, j | 0 <= k < 3 && 0 <= j < cfg.dim[k]
      ensures ColIndex(cfg, k, j) < MX(cfg) && x[ColIndex(cfg, k, j)] == XF[k][j][steps - s]
    {
      StepEntryAt(cfg, XF, steps, s, k, j);
    }
  }

  /** Entry t of the query of step s: `xfc[-s]` of the forecast of the input column at flat position t. */
  function StepEntry(cfg: Config, XF: seq<seq<Vector>>, steps: nat, s: nat, t: nat): real
    requires Valid(cfg) && ForecastShape(cfg, XF, steps) && 1 <= s <= steps && t < MX(cfg)
  {
    var k := BlockOf(cfg, t);
    ColStartStep(cfg, k);
    XF[k][t - ColStart(cfg, k)][steps - s]
  }

  /** The entry at the flat position of input column j of block k comes from that column's forecast. */
  lemma StepEntryAt(cfg: Config, XF: seq<seq<Vector>>, steps: nat, s: nat, k: nat, j: nat)
    requires Valid(cfg) && ForecastShape(cfg, XF, steps) && 1 <= s <= steps && k < 3 && j < cfg.dim[k]
    ensures ColIndex(cfg, k, j) < MX(cfg)
    ensures StepEntry(cfg, XF, steps, s, ColIndex(cfg, k, j)) == XF[k][j][steps - s]
  {
    BlockOfColIndex(cfg, k, j);
  }

  /** The first l entries of the query of step s. */
  predicate QuerySoFar(cfg: Config, XF: seq<seq<Vector>>, steps: nat, s: nat, x: Vector, l: nat)
    requires Valid(cfg) && ForecastShape(cfg, XF, steps) && 1 <= s <= steps
  {
    |x| == l <= MX(cfg) && forall t :: 0 <= t < l ==> x[t] == StepEntry(cfg, XF, steps, s, t)
  }

  /**
    The inner loop of `build_predicted` over the forecasts of block k: the
    value `xfc[-s]` of each, appended in column order.
   */
  method AssembleBlock(cfg: Config, XF: seq<seq<Vector>>, steps: nat, s: nat, k: nat, x: Vector) returns (x': Vector)
    requires Valid(cfg) && ForecastShape(cfg, XF, steps) && 1 <= s <= steps && k < 3
    requires QuerySoFar(cfg, XF, steps, s, x, ColStart(cfg, k))
    ensures QuerySoFar(cfg, XF, steps, s, x', ColStart(cfg, k + 1))
  {
    ColStartStep(cfg, k);
    x' := x;
    for j := 0 to cfg.dim[k]
      invariant QuerySoFar(cfg, XF, steps, s, x', ColStart(cfg, k) + j)
    {
      var value := XF[k][j][steps - s];
      QuerySoFarExtend(cfg, XF, steps, s, x', k, j);
      x' := x' + [value];
    }
  }

  /** Appending `xfc[-s]` of input column j of block k extends the query of step s by one entry. */
  lemma QuerySoFarExtend(cfg: Config, XF: seq<seq<Vector>>, steps: nat, s: nat, x: Vector, k: nat, j: nat)
    requires Valid(cfg) && ForecastShape(cfg, XF, steps) && 1 <= s <= steps && k < 3 && j < cfg.dim[k]
    requires QuerySoFar(cfg, XF, steps, s, x, ColStart(cfg, k) + j)
    ensures QuerySoFar(cfg, XF, steps, s, x + [XF[k][j][steps - s]], ColStart(cfg, k) + j + 1)
  {
    StepEntryAt(cfg, XF, steps, s, k, j);
  }

  /**
    The loop of `build_predicted` that assembles the query of step s,
    block after block. It builds `StepQuery`.
   */
  method AssembleQuery(cfg: Config, XF: seq<seq<Vector>>, steps: nat, s: nat) returns (x: Vector)
    requires Valid(cfg) && ForecastShape(cfg, XF, steps) && 1 <= s <= steps
    ensures x == StepQuery(cfg, XF, steps, s)
  {
    x := [];
    for k := 0 to 3
      invariant QuerySoFar(cfg, XF, steps, s, x, ColStart(cfg, k))
    {
      x := AssembleBlock(cfg, XF, steps, s, k, x);
    }
  }

  /**
    `yf`: the predictions of steps 1 to s in order, each from its step
    query; the first failing prediction stops the loop.
   */
  function StepPredictions(R: Reals, fit: Fit, XF: seq<seq<Vector>>, steps: nat, s: nat): (r: Result<seq<Vector>, Fault>)
    requires Forecastable(fit) && ForecastShape(fit.cfg, XF, steps) && s <= steps
    ensures r.Success? ==> |r.value| == s
    ensures r.Success? ==> forall i :: 0 <= i < s ==>
      CalculateValue(R, fit, StepQuery(fit.cfg, XF, steps, i + 1)) == Success(r.value[i])
    ensures r.Failure? ==> s > 0 && CalculateValue(R, fit, StepQuery(fit.cfg, XF, steps, 1)) == Failure(r.error)
    ensures s > 0 ==> (r.Success? <==> CalculateValue(R, fit, StepQuery(fit.cfg, XF, steps, 1)).Success?)
    ensures s == 0 ==> r == Success([])
  {
    if s == 0 then Success([])
    else
      var prev :- StepPredictions(R, fit, XF, steps, s - 1);
      var y :- CalculateValue(R, fit, StepQuery(fit.cfg, XF, steps, s));
      Success(prev + [y])
  }

  /**
    `YF = Y_.copy(); YF[-steps:] = yf`: the first `|Y| - |rows|` rows are
    kept and the rows after them are replaced, in order, by `rows`.
   */
  function Splice(Y: Matrix, rows: seq<Vector>): (YF: Matrix)
    requires |rows| <= |Y|
    ensures |YF| == |Y|
    ensures forall i :: 0 <= i < |Y| - |rows| ==> YF[i] == Y[i]
    ensures forall i :: |Y| - |rows| <= i < |Y| ==> YF[i] == rows[i - (|Y| - |rows|)]
  {
    Y[..|Y| - |rows|] + rows
  }

  /**
    `build_predicted(steps)`, returning `(XF, YF)`. For a positive horizon
    the step predictions come first and fail as `calculate_value` fails.
    The write-back then needs `steps` to be at most the number of rows; a
    horizon of zero writes an empty block over all of `Y_`, which numpy
    accepts only when there is no output column.
   */
  function BuildPredicted(R: Reals, fit: Fit, fc: Forecaster, steps: nat): (r: Result<(seq<seq<Vector>>, Matrix), Fault>)
    requires Forecastable(fit)
    ensures r == Failure(UnknownPolyType) <==> steps > 0 && fit.poly.None?
    ensures r == Failure(NoInputColumns) <==> steps > 0 && fit.poly.Some? && MX(fit.cfg) == 0 && DimY(fit.cfg) > 0
    ensures r == Failure(BadHorizon) <==>
      (steps == 0 || (fit.poly.Some? && (MX(fit.cfg) > 0 || DimY(fit.cfg) == 0))) &&
      (steps > |fit.views.rawY| || (steps == 0 && DimY(fit.cfg) > 0))
    ensures r.Success? ==> r.value.0 == ForecastInputs(fc, fit.cfg, fit.views.rawX, |fit.views.rawY|, steps)
    ensures r.Success? ==>
      var n := |fit.views.rawY|;
      && steps <= n
      && IsMatrix(r.value.1, n, DimY(fit.cfg))
      && forall i :: 0 <= i < n - steps ==> r.value.1[i] == fit.views.rawY[i]
  {
    var n := |fit.views.rawY|;
    var XF := ForecastInputs(fc, fit.cfg, fit.views.rawX, n, steps);
    var yf :- StepPredictions(R, fit, XF, steps, steps);
    if steps > n || (steps == 0 && DimY(fit.cfg) > 0) then Failure(BadHorizon)
    else Success((XF, Splice(fit.views.rawY, yf)))
  }

  /** Input column j of block k in the query of step s is forecast position `steps - s` of that raw column. */
  lemma StepQueryOfForecasts(fc: Forecaster, cfg: Config, rawX: seq<Matrix>, n: nat, steps: nat, s: nat)
    requires Valid(cfg) && InputBlocks(cfg, rawX, n) && 1 <= s <= steps
    ensures var XF := ForecastInputs(fc, cfg, rawX, n, steps);
      forall k, j :: 0 <= k < 3 && 0 <= j < cfg.dim[k] ==>
        ColIndex(cfg, k, j) < MX(cfg) &&
        StepQuery(cfg, XF, steps, s)[ColIndex(cfg, k, j)] == fc(Column(rawX[k], j), steps)[steps - s]
  {
    var XF := ForecastInputs(fc, cfg, rawX, n, steps);
    forall k, j | 0 <= k < 3 && 0 <= j < cfg.dim[k]
      ensures ColIndex(cfg, k, j) < MX(cfg) &&
        StepQuery(cfg, XF, steps, s)[ColIndex(cfg, k, j)] == fc(Column(rawX[k], j), steps)[steps - s]
    {
      assert XF[k][j] == fc(Column(rawX[k], j), steps);
    }
  }

  /** Row i among the last `steps` rows of `YF` is the prediction of step `i - (n - steps) + 1`. */
  lemma PredictedRowIsStep(R: Reals, fit: Fit, fc: Forecaster, steps: nat, i: nat)
    requires Forecastable(fit) && BuildPredicted(R, fit, fc, steps).Success?
    requires |fit.views.rawY| - steps <= i < |fit.views.rawY|
    ensures var n, out := |fit.views.rawY|, BuildPredicted(R, fit, fc, steps).value;
      var s := i - (n - steps) + 1;
      && 1 <= s <= steps && out.0 == ForecastInputs(fc, fit.cfg, fit.views.rawX, n, steps)
      && CalculateValue(R, fit, StepQuery(fit.cfg, out.0, steps, s)) == Success(out.1[i])
  {
    var n := |fit.views.rawY|;
    var XF := ForecastInputs(fc, fit.cfg, fit.views.rawX, n, steps);
    var yf := StepPredictions(R, fit, XF, steps, steps);
    assert BuildPredicted(R, fit, fc, steps) == Success((XF, Splice(fit.views.rawY, yf.value)));
    SplicedStep(R, fit, XF, steps, i);
  }

  /** Row i among the last `steps` rows of the spliced predictions is the prediction of its step. */
  lemma SplicedStep(R: Reals, fit: Fit, XF: seq<seq<Vector>>, steps: nat, i: nat)
    requires Forecastable(fit) && ForecastShape(fit.cfg, XF, steps) && steps <= |fit.views.rawY|
    requires StepPredictions(R, fit, XF, steps, steps).Success?
    requires |fit.views.rawY| - steps <= i < |fit.views.rawY|
    ensures var n := |fit.views.rawY|;
      CalculateValue(R, fit, StepQuery(fit.cfg, XF, steps, i - (n - steps) + 1)) ==
        Success(Splice(fit.views.rawY, StepPredictions(R, fit, XF, steps, steps).value)[i])
  {
  }

  /**
    The query predicted for row i among the last `steps` rows of n, that of
    step `s = i - (n - steps) + 1`, holds forecast position `n - 1 - i` of
    every input column: the forecasts are laid over the rows in reverse,
    the first forecast value on the last row and the last one on row
    `n - steps`.
   */
  lemma ReversedForecastOrder(fc: Forecaster, cfg: Config, rawX: seq<Matrix>, n: nat, steps: nat, i: nat)
    requires Valid(cfg) && InputBlocks(cfg, rawX, n) && steps <= n && n - steps <= i < n
    ensures var s := i - (n - steps) + 1;
      && 1 <= s <= steps && steps - s == n - 1 - i
      && var x := StepQuery(cfg, ForecastInputs(fc, cfg, rawX, n, steps), steps, s);
        forall k, j :: 0 <= k < 3 && 0 <= j < cfg.dim[k] ==>
          ColIndex(cfg, k, j) < MX(cfg) && x[ColIndex(cfg, k, j)] == fc(Column(rawX[k], j), steps)[n - 1 - i]
  {
    StepQueryOfForecasts(fc, cfg, rawX, n, steps, i - (n - steps) + 1);
  }

  /**
    With a horizon of one, only the last row of `Y_` is replaced, by the
    prediction from the first forecast value of every input column.
   */
  lemma HorizonOne(R: Reals, fit: Fit, fc: Forecaster)
    requires Forecastable(fit) && BuildPredicted(R, fit, fc, 1).Success?
    ensures var n, YF := |fit.views.rawY|, BuildPredicted(R, fit, fc, 1).value.1;
      var XF := ForecastInputs(fc, fit.cfg, fit.views.rawX, n, 1);
      && YF[..n - 1] == fit.views.rawY[..n - 1]
      && CalculateValue(R, fit, StepQuery(fit.cfg, XF, 1, 1)) == Success(YF[n - 1])
      && forall k, j :: 0 <= k < 3 && 0 <= j < fit.cfg.dim[k] ==>
        ColIndex(fit.cfg, k, j) < MX(fit.cfg) &&
        StepQuery(fit.cfg, XF, 1, 1)[ColIndex(fit.cfg, k, j)] == fc(Column(fit.views.rawX[k], j), 1)[0]
  {
    var n := |fit.views.rawY|;
    PredictedRowIsStep(R, fit, fc, 1, n - 1);
    ReversedForecastOrder(fc, fit.cfg, fit.views.rawX, n, 1, n - 1);
  }
}
