/**
  The whole fit (`prepare` without its input file, display and workbook
  steps): normalisation, target, design, the three layers for every output
  column, the predictions F and the four error reports.
 */
module Engine {
  import opened Wrappers
  import opened LinAlg
  import opened Layout
  import opened Links
  import opened Normalize
  import opened Metrics
  import opened Target
  import opened Design
  import opened Layers

  /** The fitted objects of one output column i. */
  datatype Layer = Layer(
    lamb: Vector,    // column i of `Lamb`
    psiLog: Matrix,  // `built_psi(Lamb[:, i])`: the weighted sums
    psi: Matrix,     // `Psi[i]`, the reported layer values
    psiIn: Matrix,   // what `built_a` solves against (`Psi_log[i]`, `Psi_tanh[i]`, `Psi_arctan[i]`)
    a: Vector,       // column i of `a`
    fiSums: Matrix,  // `built_F1i(psiIn, a[:, i])`
    fi: Matrix,      // `Fi[i]`, the reported layer values
    fiIn: Matrix,    // what `built_c` solves against
    c: Vector)       // column i of `c`

  predicate LayerShape(cfg: Config, n: nat, L: Layer)
    requires Valid(cfg)
  {
    && |L.lamb| == DesignWidth(cfg)
    && IsMatrix(L.psiLog, n, MX(cfg)) && IsMatrix(L.psi, n, MX(cfg)) && IsMatrix(L.psiIn, n, MX(cfg))
    && |L.a| == MX(cfg)
    && IsMatrix(L.fiSums, n, 3) && IsMatrix(L.fi, n, 3) && IsMatrix(L.fiIn, n, 3)
    && |L.c| == 3
  }

  /** The reported layers and the matrices the next solves use are the two maps of the sums. */
  predicate LayerLinks(R: Reals, v: Variant, L: Layer) {
    && L.psi == MapM(x => LayerValue(R, v, x), L.psiLog)
    && L.psiIn == MapM(x => LayerInput(R, v, x), L.psiLog)
    && L.fi == MapM(x => LayerValue(R, v, x), L.fiSums)
    && L.fiIn == MapM(x => LayerInput(R, v, x), L.fiSums)
  }

  /**
    The three layers for one output column with target column b (of
    `B_log`) and log outputs y: lambda against the design, Psi from lambda,
    a against Psi, Fi from a, c against Fi.
   */
  function OutputLayer(R: Reals, solve: Solver, v: Variant, cfg: Config, ALog: Matrix,
                       b: Vector, y: Vector, split: bool): (L: Layer)
    requires Valid(cfg) && |ALog| > 0 && IsMatrix(ALog, |ALog|, DesignWidth(cfg))
    ensures LayerShape(cfg, |ALog|, L) && LayerLinks(R, v, L)
    ensures L.lamb == Lambda(cfg, solve, ALog, b, split)
    ensures L.psiLog == PsiMatrix(cfg, ALog, L.lamb)
    ensures L.a == Coefficients(cfg, solve, L.psiIn, y)
    ensures L.fiSums == FiSums(cfg, L.psiIn, L.a)
    ensures L.c == solve(L.fiIn, y)
  {
    var lamb := Lambda(cfg, solve, ALog, b, split);
    var psiLog := PsiMatrix(cfg, ALog, lamb);
    var psiIn := MapM(x => LayerInput(R, v, x), psiLog);
    var a := Coefficients(cfg, solve, psiIn, y);
    var sums := FiSums(cfg, psiIn, a);
    var fiIn := MapM(x => LayerInput(R, v, x), sums);
    Layer(lamb, psiLog, MapM(x => LayerValue(R, v, x), psiLog), psiIn, a,
          sums, MapM(x => LayerValue(R, v, x), sums), fiIn, solve(fiIn, y))
  }

  /**
    Every layer solves against the pre-transform of the values it reports
    (for the base engine, when log inverts exp at the sums); the base engine
    passes the raw sums on.
   */
  lemma LayerSolvesAgainstLinkOfValues(R: Reals, v: Variant, L: Layer, i: nat, t: nat, j: nat)
    requires LayerLinks(R, v, L)
    requires i < |L.psiLog| && t < |L.psiLog[i]| && i < |L.fiSums| && j < |L.fiSums[i]|
    ensures v == Base ==> L.psiIn[i][t] == L.psiLog[i][t] && L.fiIn[i][j] == L.fiSums[i][j]
    ensures v != Base ==>
      L.psiIn[i][t] == DesignLink(R, v, L.psi[i][t]) && L.fiIn[i][j] == DesignLink(R, v, L.fi[i][j])
  {
    if v != Base {
      LayerInputIsLinkOfValue(R, v, L.psiLog[i][t]);
      LayerInputIsLinkOfValue(R, v, L.fiSums[i][j]);
    }
  }

  /** `F[i, j] = exp(Fi_log[j][i, :] c[:, j]) - 1` (less OFFSET in the custom engines). */
  function Predictions(R: Reals, v: Variant, cfg: Config, layers: seq<Layer>, n: nat): (F: Matrix)
    requires Valid(cfg) && forall i :: 0 <= i < |layers| ==> LayerShape(cfg, n, layers[i])
    ensures IsMatrix(F, n, |layers|)
  {
    seq(n, r requires 0 <= r < n =>
      seq(|layers|, i requires 0 <= i < |layers| =>
        assert LayerShape(cfg, n, layers[i]);
        FinalValue(R, v, FinalSum(layers[i].fiIn, layers[i].c, r))))
  }

  /** What `norm_error_a` holds after the fit: the per-column means, or the initial 0.0 left untouched. */
  datatype MeanReport = Untouched(init: real) | PerColumn(means: Vector)

  datatype Fit = Fit(
    cfg: Config,
    variant: Variant,
    poly: Option<Evaluator>,
    views: Views,
    B: Matrix,
    A: Matrix,
    ALog: Matrix,
    layers: seq<Layer>,
    F: Matrix,
    normError: Vector,
    normErrorA: MeanReport,
    FRaw: Matrix,      // `F_`
    error: Vector,
    errorA: Vector)

  /** The shapes every successful fit has, on n data rows. */
  predicate FitShape(fit: Fit, n: nat) {
    && Valid(fit.cfg)
    && n > 0
    && IsMatrix(fit.views.Y, n, DimY(fit.cfg)) && IsMatrix(fit.views.rawY, n, DimY(fit.cfg))
    && InputBlocks(fit.cfg, fit.views.X, n) && InputBlocks(fit.cfg, fit.views.rawX, n)
    && |fit.views.minX| == |fit.views.maxX| == MX(fit.cfg)
    && (forall t :: 0 <= t < MX(fit.cfg) ==> fit.views.minX[t] < fit.views.maxX[t])
    && |fit.views.minY| == |fit.views.maxY| == DimY(fit.cfg)
    && IsMatrix(fit.ALog, n, DesignWidth(fit.cfg))
    && |fit.layers| == DimY(fit.cfg)
    && (forall i :: 0 <= i < DimY(fit.cfg) ==> LayerShape(fit.cfg, n, fit.layers[i]))
    && IsMatrix(fit.F, n, DimY(fit.cfg)) && IsMatrix(fit.FRaw, n, DimY(fit.cfg))
    && |fit.normError| == |fit.error| == |fit.errorA| == DimY(fit.cfg)
    && (fit.normErrorA.PerColumn? <==> fit.variant == Base)
    && (fit.normErrorA.PerColumn? ==> |fit.normErrorA.means| == DimY(fit.cfg))
    && (fit.poly.None? ==> MX(fit.cfg) == 0)
  }

  /** The shapes of the views `define_norm_vectors` produces. */
  lemma ViewsShape(datas: Matrix, cfg: Config)
    requires Valid(cfg) && RawData(datas, Total(cfg))
    ensures var vw := DefineNormVectors(datas, cfg);
      && InputBlocks(cfg, vw.X, |datas|) && InputBlocks(cfg, vw.rawX, |datas|)
      && IsMatrix(vw.Y, |datas|, DimY(cfg)) && IsMatrix(vw.rawY, |datas|, DimY(cfg))
      && (forall t :: 0 <= t < MX(cfg) ==> vw.minX[t] < vw.maxX[t])
  {
    var vw := DefineNormVectors(datas, cfg);
    ColStartStep(cfg, 2);
    ColStartStep(cfg, 3);
    forall t | 0 <= t < MX(cfg) ensures vw.minX[t] < vw.maxX[t] {
      assert vw.minX[t] == ColMin(datas, t) && vw.maxX[t] == ColMax(datas, t);
    }
  }

  /** With no input columns the design has no columns, whatever the evaluator. */
  lemma PolyMatrixNoInputs(R: Reals, e1: Evaluator, e2: Evaluator, cfg: Config, X: seq<Matrix>, n: nat)
    requires Valid(cfg) && InputBlocks(cfg, X, n) && MX(cfg) == 0
    ensures PolyMatrix(R, e1, cfg, X, n) == PolyMatrix(R, e2, cfg, X, n)
  {
    ColStartStep(cfg, 0);
    ColStartStep(cfg, 1);
    ColStartStep(cfg, 2);
    assert cfg.dim[0] == 0 && cfg.dim[1] == 0 && cfg.dim[2] == 0;
    assert BlockOffset(cfg, 1) == BlockOffset(cfg, 0) + cfg.dim[0] * DegOf(cfg, 0) == 0;
    assert BlockOffset(cfg, 2) == BlockOffset(cfg, 1) + cfg.dim[1] * DegOf(cfg, 1) == 0;
    assert DesignWidth(cfg) == BlockOffset(cfg, 2) + cfg.dim[2] * DegOf(cfg, 2) == 0;
    var P1, P2 := PolyMatrix(R, e1, cfg, X, n), PolyMatrix(R, e2, cfg, X, n);
    assert forall i :: 0 <= i < n ==> P1[i] == [] == P2[i];
  }

  /**
    The fit, for the engine `v` on raw data `datas` (n rows of
    `dim_integral[3]` columns, none constant).

    It stops, in this order, when the weighting strategy is unknown
    (`exit`), when 'average' reduces over an empty output block, and when
    the polynomial type is unknown and the design has a column to fill.
    With no input column an unknown type goes unnoticed: the design is
    empty (`PolyMatrixNoInputs`), and `poly` is None.
   */
  function FitModel(R: Reals, solve: Solver, v: Variant, cfg: Config, datas: Matrix,
                    weights: string, polyType: string, split: bool): (r: Result<Fit, Fault>)
    requires Valid(cfg) && RawData(datas, Total(cfg))
    ensures r == Failure(UnknownWeights) <==> !KnownWeights(weights)
    ensures r == Failure(EmptyReduction) <==> weights == "average" && DimY(cfg) == 0
    ensures r == Failure(UnknownPolyType) <==>
      KnownWeights(weights) && !(weights == "average" && DimY(cfg) == 0) &&
      !KnownPolyType(polyType) && MX(cfg) > 0
    ensures r.Failure? ==> r.error != NoInputColumns && r.error != BadHorizon
    ensures r.Success? ==>
      r.value.cfg == cfg && r.value.variant == v && r.value.poly == PolyFunc(polyType) &&
      r.value.views == DefineNormVectors(datas, cfg) && r.value.B == BuildB(weights, r.value.views.Y, DimY(cfg)).value &&
      FitShape(r.value, |datas|) && FitComputed(R, solve, split, |datas|, r.value)
  {
    var n := |datas|;
    var vw := DefineNormVectors(datas, cfg);
    ViewsShape(datas, cfg);
    var B :- BuildB(weights, vw.Y, DimY(cfg));
    var poly := PolyFunc(polyType);
    if poly.None? && MX(cfg) > 0 then Failure(UnknownPolyType)
    else Success(FitFrom(R, solve, v, cfg, datas, vw, B, poly, split))
  }

  /** The evaluator the design uses; with no input column it is never applied. */
  function DesignEvaluator(poly: Option<Evaluator>): Evaluator {
    if poly.Some? then poly.value else ShChebyT
  }

  /** `log(Y[:, i] + 1 + OFFSET)`, what a and c are solved against. */
  function LogOutputs(R: Reals, Y: Matrix, i: nat): (y: Vector)
    requires HasCols(Y, i + 1)
    ensures |y| == |Y| && forall r :: 0 <= r < |Y| ==> y[r] == LogShift(R, Y[r][i])
  {
    Map(x => LogShift(R, x), Column(Y, i))
  }

  /** How each part of a fit on n rows follows from the views, the target and the evaluator. */
  predicate FitComputed(R: Reals, solve: Solver, split: bool, n: nat, fit: Fit)
    requires FitShape(fit, n)
  {
    var cfg, v, vw, m := fit.cfg, fit.variant, fit.views, DimY(fit.cfg);
    && fit.ALog == DesignLog(R, v, PolyMatrix(R, DesignEvaluator(fit.poly), cfg, vw.X, n))
    && IsMatrix(fit.B, n, m)
    && (forall i :: 0 <= i < m ==>
         fit.layers[i] == OutputLayer(R, solve, v, cfg, fit.ALog, Column(BLog(R, fit.B), i), LogOutputs(R, vw.Y, i), split))
    && (forall i :: 0 <= i < m ==> LayerLinks(R, v, fit.layers[i]))
    && fit.F == Predictions(R, v, cfg, fit.layers, n)
    && fit.FRaw == DenormM(fit.F, vw.minY, vw.maxY)
    && fit.normError == MaxErrors(vw.Y, fit.F, m)
    && fit.normErrorA == (if v == Base then PerColumn(MeanErrors(vw.Y, fit.F, m)) else Untouched(0.0))
    && fit.error == MaxErrors(vw.rawY, fit.FRaw, m)
    && fit.errorA == MeanErrors(vw.rawY, fit.FRaw, m)
  }

  /** The layers of every output column, each solving against its column of `B_log` and of the log outputs. */
  function AllLayers(R: Reals, solve: Solver, v: Variant, cfg: Config, ALog: Matrix, BL: Matrix,
                     Y: Matrix, split: bool): (layers: seq<Layer>)
    requires Valid(cfg) && |ALog| > 0 && IsMatrix(ALog, |ALog|, DesignWidth(cfg))
    requires IsMatrix(BL, |ALog|, DimY(cfg)) && IsMatrix(Y, |ALog|, DimY(cfg))
    ensures |layers| == DimY(cfg)
    ensures forall i :: 0 <= i < DimY(cfg) ==>
      LayerShape(cfg, |ALog|, layers[i]) && LayerLinks(R, v, layers[i]) &&
      layers[i] == OutputLayer(R, solve, v, cfg, ALog, Column(BL, i), LogOutputs(R, Y, i), split)
  {
    var m := DimY(cfg);
    seq(m, i requires 0 <= i < m => OutputLayer(R, solve, v, cfg, ALog, Column(BL, i), LogOutputs(R, Y, i), split))
  }

  /** The numerical part of a fit whose target B was built and whose evaluator is known or unused. */
  function FitFrom(R: Reals, solve: Solver, v: Variant, cfg: Config, datas: Matrix, vw: Views,
                   B: Matrix, poly: Option<Evaluator>, split: bool): (fit: Fit)
    requires Valid(cfg) && RawData(datas, Total(cfg)) && vw == DefineNormVectors(datas, cfg)
    requires IsMatrix(B, |datas|, DimY(cfg)) && (poly.None? ==> MX(cfg) == 0)
    ensures fit.cfg == cfg && fit.variant == v && fit.poly == poly && fit.views == vw
    ensures fit.B == B && FitShape(fit, |datas|) && FitComputed(R, solve, split, |datas|, fit)
  {
    var n := |datas|;
    var m := DimY(cfg);
    ViewsShape(datas, cfg);
    var P := PolyMatrix(R, DesignEvaluator(poly), cfg, vw.X, n);
    var ALog := DesignLog(R, v, P);
    var layers := AllLayers(R, solve, v, cfg, ALog, BLog(R, B), vw.Y, split);
    var F := Predictions(R, v, cfg, layers, n);
    var FRaw := DenormM(F, vw.minY, vw.maxY);
    Fit(
      cfg, v, poly, vw, B, DesignReported(R, v, P), ALog, layers, F,
      MaxErrors(vw.Y, F, m),
      if v == Base then PerColumn(MeanErrors(vw.Y, F, m)) else Untouched(0.0),
      FRaw,
      MaxErrors(vw.rawY, FRaw, m),
      MeanErrors(vw.rawY, FRaw, m))
  }
}
