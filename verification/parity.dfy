/**
  What `calculate_value` gives back on the inputs of a training row, layer
  by layer, compared with what the fit computed for that row.

  Its first layer reuses the polynomial orders and the lambda runs of the
  design. In `SolveExpTh` every `aggregate` is then exactly one fitting
  layer, so the prediction of a training row is the fitted `F_` plus the
  OFFSET that `built_F` subtracts, rescaled. The base class differs from
  its fit already in the first layer, by the OFFSET that `built_psi`
  subtracts. `SolveExpTh1` predicts with the logarithmic `aggregate` of the
  base class after fitting with arctan, so its layers do not line up.
 */
module Parity {
  import opened Wrappers
  import opened LinAlg
  import opened Layout
  import opened Links
  import opened Normalize
  import opened Target
  import opened Design
  import opened Layers
  import opened Engine
  import opened FitFacts
  import opened Predict

  /**
    Input t of training row r, rescaled as `calculate_value` rescales a
    query, is the entry of row r of the normalised block holding column t.
   */
  lemma TrainingQueryAt(datas: Matrix, cfg: Config, r: nat, t: nat)
    requires Valid(cfg) && RawData(datas, Total(cfg)) && r < |datas| && t < MX(cfg)
    ensures MX(cfg) <= |datas[r]|
    ensures var vw := DefineNormVectors(datas, cfg);
      && (forall t' :: 0 <= t' < MX(cfg) ==> vw.minX[t'] < vw.maxX[t'])
      && InputBlocks(cfg, vw.X, |datas|)
      && NormQuery(datas[r][..MX(cfg)], vw.minX, vw.maxX)[t] == vw.X[BlockOf(cfg, t)][r][t - ColStart(cfg, BlockOf(cfg, t))]
  {
    var vw := DefineNormVectors(datas, cfg);
    ViewsShape(datas, cfg);
    ColStartStep(cfg, 3);
    var k := BlockOf(cfg, t);
    ColStartStep(cfg, k);
    BlockEntry(datas, cfg, r, k, t - ColStart(cfg, k));
    NormVectorsExtrema(datas, cfg);
  }

  /**
    The inputs of training row r, rescaled as `calculate_value` rescales a
    query, are the entries of row r of the normalised blocks.
   */
  lemma TrainingQuery(datas: Matrix, cfg: Config, r: nat)
    requires Valid(cfg) && RawData(datas, Total(cfg)) && r < |datas|
    ensures MX(cfg) <= |datas[r]|
    ensures var vw := DefineNormVectors(datas, cfg);
      && InputBlocks(cfg, vw.X, |datas|)
      && (forall t :: 0 <= t < MX(cfg) ==> vw.minX[t] < vw.maxX[t])
      && forall t :: 0 <= t < MX(cfg) ==>
        NormQuery(datas[r][..MX(cfg)], vw.minX, vw.maxX)[t] == vw.X[BlockOf(cfg, t)][r][t - ColStart(cfg, BlockOf(cfg, t))]
  {
    ViewsShape(datas, cfg);
    ColStartStep(cfg, 3);
    forall t | 0 <= t < MX(cfg)
      ensures var vw := DefineNormVectors(datas, cfg);
        NormQuery(datas[r][..MX(cfg)], vw.minX, vw.maxX)[t] == vw.X[BlockOf(cfg, t)][r][t - ColStart(cfg, BlockOf(cfg, t))]
    {
      TrainingQueryAt(datas, cfg, r, t);
    }
  }

  /**
    The design column of order d of input column t in row r holds the
    pre-transformed order d of the rescaled entry.
   */
  lemma DesignEntryOfQuery(R: Reals, v: Variant, e: Evaluator, cfg: Config, X: seq<Matrix>, n: nat,
                           ALog: Matrix, r: nat, xn: Vector, t: nat, d: nat)
    requires Valid(cfg) && InputBlocks(cfg, X, n) && r < n && |xn| == MX(cfg) && t < MX(cfg)
    requires ALog == DesignLog(R, v, PolyMatrix(R, e, cfg, X, n))
    requires xn[t] == X[BlockOf(cfg, t)][r][t - ColStart(cfg, BlockOf(cfg, t))]
    requires d < DegOf(cfg, BlockOf(cfg, t))
    ensures DesignStart(cfg, t) + d < |ALog[r]|
    ensures ALog[r][DesignStart(cfg, t) + d] == DesignLink(R, v, PolyEval(R, e, d, xn[t]))
  {
    var k := BlockOf(cfg, t);
    ColStartStep(cfg, k);
    assert PolyMatrix(R, e, cfg, X, n)[r] == DesignRow(R, e, cfg, X, n, r);
    DesignRowEntry(R, e, cfg, X, n, r, k, t - ColStart(cfg, k), d);
  }

  /**
    The design columns of input column t in row r hold the pre-transformed
    orders of the rescaled entry: the values `calculate_value` recomputes.
   */
  lemma DesignSliceOfQuery(R: Reals, v: Variant, e: Evaluator, cfg: Config, X: seq<Matrix>, n: nat,
                           ALog: Matrix, r: nat, xn: Vector, t: nat)
    requires Valid(cfg) && InputBlocks(cfg, X, n) && r < n && |xn| == MX(cfg) && t < MX(cfg)
    requires ALog == DesignLog(R, v, PolyMatrix(R, e, cfg, X, n))
    requires xn[t] == X[BlockOf(cfg, t)][r][t - ColStart(cfg, BlockOf(cfg, t))]
    ensures var q, p := DesignStart(cfg, t), DegOf(cfg, BlockOf(cfg, t));
      ALog[r][q .. q + p] == Map(x => DesignLink(R, v, x), Orders(R, e, xn[t], p))
  {
    var q, p := DesignStart(cfg, t), DegOf(cfg, BlockOf(cfg, t));
    forall d | 0 <= d < p
      ensures ALog[r][q + d] == DesignLink(R, v, PolyEval(R, e, d, xn[t]))
    {
      DesignEntryOfQuery(R, v, e, cfg, X, n, ALog, r, xn, t, d);
    }
  }

  /**
    For `Solve` and `SolveExpTh`, the first-layer value of input column t
    is the layer value of the fitted weighted sum, plus OFFSET in `Solve`.
   */
  lemma PsiOfQuery(R: Reals, v: Variant, cfg: Config, e: Evaluator, ALog: Matrix, lamb: Vector,
                   xn: Vector, r: nat, t: nat)
    requires v != ExpTh1 && Valid(cfg) && IsMatrix(ALog, |ALog|, DesignWidth(cfg)) && |lamb| == DesignWidth(cfg)
    requires r < |ALog| && |xn| == MX(cfg) && t < MX(cfg)
    requires var q, p := DesignStart(cfg, t), DegOf(cfg, BlockOf(cfg, t));
      ALog[r][q .. q + p] == Map(x => DesignLink(R, v, x), Orders(R, e, xn[t], p))
    ensures QueryPsi(R, v, cfg, e, lamb, xn, t) ==
      LayerValue(R, v, PsiSum(cfg, ALog[r], lamb, t)) + (if v == Base then Offset else 0.0)
  {
    var q, p := DesignStart(cfg, t), DegOf(cfg, BlockOf(cfg, t));
    AggregateIsLayer(R, v, Orders(R, e, xn[t], p), lamb[q .. q + p]);
  }

  /**
    For `Solve` and `SolveExpTh`, the first-layer values of a training row
    are the fitted Psi row, plus OFFSET in `Solve`.
   */
  lemma FirstLayerOfRow(R: Reals, v: Variant, cfg: Config, e: Evaluator, X: seq<Matrix>, n: nat,
                        ALog: Matrix, L: Layer, xn: Vector, r: nat)
    requires v != ExpTh1 && Valid(cfg) && InputBlocks(cfg, X, n) && r < n && |xn| == MX(cfg)
    requires ALog == DesignLog(R, v, PolyMatrix(R, e, cfg, X, n))
    requires forall t :: 0 <= t < MX(cfg) ==> xn[t] == X[BlockOf(cfg, t)][r][t - ColStart(cfg, BlockOf(cfg, t))]
    requires |L.lamb| == DesignWidth(cfg) && L.psiLog == PsiMatrix(cfg, ALog, L.lamb)
    requires L.psi == MapM(x => LayerValue(R, v, x), L.psiLog)
    ensures |L.psi[r]| == MX(cfg)
    ensures forall t :: 0 <= t < MX(cfg) ==>
      QueryPsiRow(R, v, cfg, e, L.lamb, xn)[t] == L.psi[r][t] + (if v == Base then Offset else 0.0)
    ensures v == ExpTh ==> QueryPsiRow(R, v, cfg, e, L.lamb, xn) == L.psi[r]
  {
    forall t | 0 <= t < MX(cfg)
      ensures QueryPsiRow(R, v, cfg, e, L.lamb, xn)[t] == L.psi[r][t] + (if v == Base then Offset else 0.0)
    {
      DesignSliceOfQuery(R, v, e, cfg, X, n, ALog, r, xn, t);
      PsiOfQuery(R, v, cfg, e, ALog, L.lamb, xn, r, t);
    }
  }

  /** In `SolveExpTh` the second-layer value of block j of a training row is its fitted Fi entry. */
  lemma BlockOfRow(R: Reals, cfg: Config, n: nat, L: Layer, r: nat, j: nat)
    requires Valid(cfg) && LayerShape(cfg, n, L) && LayerLinks(R, ExpTh, L) && r < n && j < 3
    requires L.fiSums == FiSums(cfg, L.psiIn, L.a)
    ensures BlockAggregate(R, ExpTh, cfg, L.psi[r], L.a, j) == L.fi[r][j]
  {
    ColStartStep(cfg, j);
    var lo, hi := ColStart(cfg, j), ColStart(cfg, j + 1);
    var linked := Map(x => AggregateLink(R, ExpTh, x), L.psi[r][lo .. hi]);
    forall k | 0 <= k < hi - lo
      ensures linked[k] == L.psiIn[r][lo .. hi][k]
    {
      assert L.psi[r][lo + k] == LayerValue(R, ExpTh, L.psiLog[r][lo + k]);
      assert L.psiIn[r][lo + k] == LayerInput(R, ExpTh, L.psiLog[r][lo + k]);
    }
    assert linked == L.psiIn[r][lo .. hi];
    assert L.fiSums[r][j] == BlockSum(cfg, L.psiIn[r], L.a, j);
  }

  /** In `SolveExpTh` the second-layer values of a training row are its fitted Fi row. */
  lemma SecondLayerOfRow(R: Reals, cfg: Config, n: nat, L: Layer, r: nat)
    requires Valid(cfg) && LayerShape(cfg, n, L) && LayerLinks(R, ExpTh, L) && r < n
    requires L.fiSums == FiSums(cfg, L.psiIn, L.a)
    ensures QueryBigPhi(R, ExpTh, cfg, L.psi[r], L.a) == L.fi[r]
  {
    forall j | 0 <= j < 3
      ensures BlockAggregate(R, ExpTh, cfg, L.psi[r], L.a, j) == L.fi[r][j]
    {
      BlockOfRow(R, cfg, n, L, r, j);
    }
  }

  /** In `SolveExpTh` the last `aggregate` of a training row is its fitted F entry plus OFFSET. */
  lemma OutputOfRow(R: Reals, n: nat, L: Layer, r: nat)
    requires LayerLinks(R, ExpTh, L) && IsMatrix(L.fiSums, n, 3) && |L.c| == 3 && r < n
    ensures IsMatrix(L.fiIn, n, 3) && |L.fi[r]| == 3
    ensures Aggregate(R, ExpTh, L.fi[r], L.c) == FinalValue(R, ExpTh, FinalSum(L.fiIn, L.c, r)) + Offset
  {
    assert Map(x => AggregateLink(R, ExpTh, x), L.fi[r]) == L.fiIn[r];
  }

  /** Rescaling back a value shifted by d shifts the result by d times the range. */
  lemma DenormShift(y: real, d: real, lo: real, hi: real)
    ensures DenormValue(y + d, lo, hi) == DenormValue(y, lo, hi) + Times(d, hi - lo)
  {
  }

  /**
    What a fit of n rows records about its design and the layers of
    output k: the design is the transformed polynomial matrix of the
    normalised blocks, and the layers follow `built_psi` and `built_Fi`.
   */
  predicate LayerFacts(R: Reals, fit: Fit, n: nat, k: nat) {
    && Valid(fit.cfg) && k < |fit.layers| && InputBlocks(fit.cfg, fit.views.X, n)
    && fit.ALog == DesignLog(R, fit.variant, PolyMatrix(R, DesignEvaluator(fit.poly), fit.cfg, fit.views.X, n))
    && LayerShape(fit.cfg, n, fit.layers[k]) && LayerLinks(R, fit.variant, fit.layers[k])
    && fit.layers[k].psiLog == PsiMatrix(fit.cfg, fit.ALog, fit.layers[k].lamb)
    && fit.layers[k].fiSums == FiSums(fit.cfg, fit.layers[k].psiIn, fit.layers[k].a)
  }

  /** What a fit of n rows records about its prediction of output k at row r. */
  predicate PredictionFacts(R: Reals, fit: Fit, n: nat, r: nat, k: nat) {
    && Valid(fit.cfg) && k < DimY(fit.cfg) && k < |fit.layers| && r < n
    && LayerShape(fit.cfg, n, fit.layers[k])
    && |fit.views.minY| == |fit.views.maxY| == DimY(fit.cfg)
    && IsMatrix(fit.F, n, DimY(fit.cfg)) && IsMatrix(fit.FRaw, n, DimY(fit.cfg))
    && fit.F[r][k] == FinalValue(R, fit.variant, FinalSum(fit.layers[k].fiIn, fit.layers[k].c, r))
    && fit.FRaw[r][k] == DenormValue(fit.F[r][k], fit.views.minY[k], fit.views.maxY[k])
  }

  /** The query x, rescaled as `calculate_value` rescales it, is row r of the normalised blocks. */
  predicate RowQuery(fit: Fit, x: Vector, r: nat, n: nat) {
    && Predictable(fit) && |x| == MX(fit.cfg) && r < n && InputBlocks(fit.cfg, fit.views.X, n)
    && forall t :: 0 <= t < MX(fit.cfg) ==>
      NormQuery(x, fit.views.minX, fit.views.maxX)[t] ==
        fit.views.X[BlockOf(fit.cfg, t)][r][t - ColStart(fit.cfg, BlockOf(fit.cfg, t))]
  }

  /** A successful fit records its design and the layers of output k as `Solve` builds them. */
  lemma FittedLayer(R: Reals, solve: Solver, v: Variant, cfg: Config, datas: Matrix,
                    weights: string, polyType: string, split: bool, fit: Fit, k: nat)
    requires Valid(cfg) && RawData(datas, Total(cfg))
    requires FitModel(R, solve, v, cfg, datas, weights, polyType, split) == Success(fit)
    requires k < DimY(cfg)
    ensures fit.cfg == cfg && fit.variant == v && (MX(cfg) > 0 ==> fit.poly.Some?)
    ensures fit.views == DefineNormVectors(datas, cfg)
    ensures LayerFacts(R, fit, |datas|, k)
  {
  }

  /** A successful fit has the shape `calculate_value` needs. */
  lemma FittedPredictable(R: Reals, solve: Solver, v: Variant, cfg: Config, datas: Matrix,
                          weights: string, polyType: string, split: bool, fit: Fit)
    requires Valid(cfg) && RawData(datas, Total(cfg))
    requires FitModel(R, solve, v, cfg, datas, weights, polyType, split) == Success(fit)
    ensures Predictable(fit)
  {
    ShapedIsPredictable(fit, |datas|);
  }

  /** A successful fit records its prediction of output k at row r as `built_F` and `built_F_` compute it. */
  lemma FittedPrediction(R: Reals, solve: Solver, v: Variant, cfg: Config, datas: Matrix,
                         weights: string, polyType: string, split: bool, fit: Fit, r: nat, k: nat)
    requires Valid(cfg) && RawData(datas, Total(cfg))
    requires FitModel(R, solve, v, cfg, datas, weights, polyType, split) == Success(fit)
    requires r < |datas| && k < DimY(cfg)
    ensures PredictionFacts(R, fit, |datas|, r, k)
  {
    var n, vw := |datas|, fit.views;
    assert fit.F == Predictions(R, v, cfg, fit.layers, n) && fit.FRaw == DenormM(fit.F, vw.minY, vw.maxY);
    PredictionEntry(R, v, cfg, fit.layers, n, fit.F, fit.FRaw, vw.minY, vw.maxY, r, k);
  }

  /** Entry (r, k) of the predictions and of their rescaled copy. */
  lemma PredictionEntry(R: Reals, v: Variant, cfg: Config, layers: seq<Layer>, n: nat,
                        F: Matrix, FRaw: Matrix, minY: Vector, maxY: Vector, r: nat, k: nat)
    requires Valid(cfg) && (forall i :: 0 <= i < |layers| ==> LayerShape(cfg, n, layers[i]))
    requires |minY| == |maxY| == |layers| && r < n && k < |layers|
    requires F == Predictions(R, v, cfg, layers, n) && FRaw == DenormM(F, minY, maxY)
    ensures LayerShape(cfg, n, layers[k])
    ensures F[r][k] == FinalValue(R, v, FinalSum(layers[k].fiIn, layers[k].c, r))
    ensures FRaw[r][k] == DenormValue(F[r][k], minY[k], maxY[k])
  {
  }

  /** The inputs of training row r, rescaled by a fit of the same data, are row r of its blocks. */
  lemma TrainingRowQuery(datas: Matrix, cfg: Config, fit: Fit, r: nat)
    requires Valid(cfg) && RawData(datas, Total(cfg)) && r < |datas|
    requires Predictable(fit) && fit.cfg == cfg && fit.views == DefineNormVectors(datas, cfg)
    ensures MX(cfg) <= |datas[r]|
    ensures RowQuery(fit, datas[r][..MX(cfg)], r, |datas|)
  {
    TrainingQuery(datas, cfg, r);
  }

  /**
    For `Solve` and `SolveExpTh`, once a query rescales to row r of the
    blocks, its first-layer values are the fitted Psi row of output k,
    plus OFFSET in `Solve`.
   */
  lemma FirstLayerMatches(R: Reals, fit: Fit, n: nat, x: Vector, r: nat, k: nat)
    requires fit.variant != ExpTh1 && LayerFacts(R, fit, n, k) && RowQuery(fit, x, r, n)
    ensures var xn := NormQuery(x, fit.views.minX, fit.views.maxX);
      && |fit.layers[k].psi[r]| == MX(fit.cfg)
      && (forall t :: 0 <= t < MX(fit.cfg) ==>
        QueryPsiRow(R, fit.variant, fit.cfg, DesignEvaluator(fit.poly), fit.layers[k].lamb, xn)[t] ==
          fit.layers[k].psi[r][t] + (if fit.variant == Base then Offset else 0.0))
      && (fit.variant == ExpTh ==>
        QueryPsiRow(R, fit.variant, fit.cfg, DesignEvaluator(fit.poly), fit.layers[k].lamb, xn) == fit.layers[k].psi[r])
  {
    var xn := NormQuery(x, fit.views.minX, fit.views.maxX);
    FirstLayerOfRow(R, fit.variant, fit.cfg, DesignEvaluator(fit.poly), fit.views.X, n, fit.ALog, fit.layers[k], xn, r);
  }

  /**
    `Solve` and `SolveExpTh`: on the inputs of training row r the first
    layer of `calculate_value` gives back the fitted Psi row of output k,
    plus the OFFSET that the base `built_psi` subtracts.
   */
  lemma FirstLayerOnTrainingRow(R: Reals, solve: Solver, v: Variant, cfg: Config, datas: Matrix,
                                weights: string, polyType: string, split: bool, fit: Fit, r: nat, k: nat)
    requires v != ExpTh1 && Valid(cfg) && RawData(datas, Total(cfg))
    requires FitModel(R, solve, v, cfg, datas, weights, polyType, split) == Success(fit)
    requires r < |datas| && k < DimY(cfg)
    ensures Predictable(fit) && MX(cfg) <= |datas[r]| && k < |fit.layers| && r < |fit.layers[k].psi|
    ensures var xn := NormQuery(datas[r][..MX(cfg)], fit.views.minX, fit.views.maxX);
      && |fit.layers[k].psi[r]| == MX(cfg)
      && forall t :: 0 <= t < MX(cfg) ==>
        QueryPsiRow(R, v, cfg, DesignEvaluator(fit.poly), fit.layers[k].lamb, xn)[t] ==
          fit.layers[k].psi[r][t] + (if v == Base then Offset else 0.0)
  {
    FittedLayer(R, solve, v, cfg, datas, weights, polyType, split, fit, k);
    FittedPredictable(R, solve, v, cfg, datas, weights, polyType, split, fit);
    TrainingRowQuery(datas, cfg, fit, r);
    FirstLayerMatches(R, fit, |datas|, datas[r][..MX(cfg)], r, k);
  }

  /**
    `SolveExpTh`, once the first layer of a query matches row r of the fit:
    the prediction of output k is its fitted `F_[r, k]` plus OFFSET times
    the range of output column k.
   */
  lemma ExpThPredictsRow(R: Reals, fit: Fit, n: nat, x: Vector, r: nat, k: nat)
    requires Predictable(fit) && |x| == MX(fit.cfg) && fit.variant == ExpTh && fit.poly.Some?
    requires MX(fit.cfg) > 0 && LayerFacts(R, fit, n, k) && PredictionFacts(R, fit, n, r, k)
    requires QueryPsiRow(R, ExpTh, fit.cfg, DesignEvaluator(fit.poly), fit.layers[k].lamb,
      NormQuery(x, fit.views.minX, fit.views.maxX)) == fit.layers[k].psi[r]
    ensures var y := CalculateValue(R, fit, x);
      y.Success? && |y.value| == DimY(fit.cfg) &&
      y.value[k] == fit.FRaw[r][k] + Times(Offset, Spread(fit.views.minY, fit.views.maxY, k))
  {
    var L := fit.layers[k];
    var xn := NormQuery(x, fit.views.minX, fit.views.maxX);
    SecondLayerOfRow(R, fit.cfg, n, L, r);
    OutputOfRow(R, n, L, r);
    assert QueryOutputs(R, fit, xn)[k] == fit.F[r][k] + Offset;
    DenormShift(fit.F[r][k], Offset, fit.views.minY[k], fit.views.maxY[k]);
  }

  /**
    `SolveExpTh`: `calculate_value` on the inputs of training row r gives
    the fitted raw prediction `F_[r, k]`, up to the OFFSET that `built_F`
    subtracts, rescaled by the range of output column k.
   */
  lemma ExpThPredictsTrainingRow(R: Reals, solve: Solver, cfg: Config, datas: Matrix,
                                 weights: string, polyType: string, split: bool, fit: Fit, r: nat, k: nat)
    requires Valid(cfg) && RawData(datas, Total(cfg))
    requires FitModel(R, solve, ExpTh, cfg, datas, weights, polyType, split) == Success(fit)
    requires r < |datas| && k < DimY(cfg) && MX(cfg) > 0
    ensures Predictable(fit) && MX(cfg) <= |datas[r]| && r < |fit.FRaw| && k < |fit.FRaw[r]|
    ensures var y := CalculateValue(R, fit, datas[r][..MX(cfg)]);
      y.Success? && |y.value| == DimY(cfg) &&
      y.value[k] == fit.FRaw[r][k] + Times(Offset, Spread(fit.views.minY, fit.views.maxY, k))
  {
    var n := |datas|;
    FittedLayer(R, solve, ExpTh, cfg, datas, weights, polyType, split, fit, k);
    FittedPredictable(R, solve, ExpTh, cfg, datas, weights, polyType, split, fit);
    FittedPrediction(R, solve, ExpTh, cfg, datas, weights, polyType, split, fit, r, k);
    TrainingRowQuery(datas, cfg, fit, r);
    var x := datas[r][..MX(cfg)];
    FirstLayerMatches(R, fit, n, x, r, k);
    ExpThPredictsRow(R, fit, n, x, r, k);
  }
}
