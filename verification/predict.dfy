/**
  Prediction with a fitted model (`calculate_value`). A query of raw input
  values is rescaled with the stored input extrema and split into the
  blocks X1, X2, X3. It then passes through the three fitted layers of
  every output column, each layer an `aggregate`. The result is rescaled
  with the stored output extrema.
 */
module Predict {
  import opened Wrappers
  import opened LinAlg
  import opened Layout
  import opened Links
  import opened Normalize
  import opened Target
  import opened Design
  import opened Layers
  import opened Engine

  /** What `calculate_value` reads of a fit, with the shapes it relies on. */
  predicate Predictable(fit: Fit) {
    && Valid(fit.cfg)
    && |fit.views.minX| == |fit.views.maxX| == MX(fit.cfg)
    && (forall t :: 0 <= t < MX(fit.cfg) ==> fit.views.minX[t] < fit.views.maxX[t])
    && |fit.views.minY| == |fit.views.maxY| == DimY(fit.cfg)
    && |fit.layers| == DimY(fit.cfg)
    && (forall k :: 0 <= k < DimY(fit.cfg) ==>
          |fit.layers[k].lamb| == DesignWidth(fit.cfg) && |fit.layers[k].a| == MX(fit.cfg) && |fit.layers[k].c| == 3)
  }

  /** Every fit with the shapes of a successful one can be queried. */
  lemma ShapedIsPredictable(fit: Fit, n: nat)
    requires FitShape(fit, n)
    ensures Predictable(fit)
  {
    forall k | 0 <= k < DimY(fit.cfg)
      ensures |fit.layers[k].lamb| == DesignWidth(fit.cfg) && |fit.layers[k].a| == MX(fit.cfg) && |fit.layers[k].c| == 3
    {
      assert LayerShape(fit.cfg, n, fit.layers[k]);
    }
  }

  /**
    `(X - minX) / (maxX - minX)`: the query rescaled with the extrema of
    the training inputs; rescaling back recovers the query.
   */
  function NormQuery(x: Vector, mins: Vector, maxs: Vector): (xn: Vector)
    requires |x| == |mins| == |maxs| && forall t :: 0 <= t < |x| ==> mins[t] < maxs[t]
    ensures |xn| == |x|
    ensures forall t :: 0 <= t < |x| ==> DenormValue(xn[t], mins[t], maxs[t]) == x[t]
    ensures forall t :: 0 <= t < |x| ==> xn[t] == NormValue(x[t], mins[t], maxs[t])
  {
    var xn := seq(|x|, t requires 0 <= t < |x| => NormValue(x[t], mins[t], maxs[t]));
    assert forall t :: 0 <= t < |x| ==> DenormValue(xn[t], mins[t], maxs[t]) == x[t] by {
      forall t | 0 <= t < |x| ensures DenormValue(xn[t], mins[t], maxs[t]) == x[t] {
        NormRoundTrip(x[t], mins[t], maxs[t]);
      }
    }
    xn
  }

  /**
    `np.split(X, dim_integral[:2])`: three consecutive pieces of widths
    `dim[0..2]` that concatenate back to the query.
   */
  function SplitQuery(cfg: Config, x: Vector): (pieces: seq<Vector>)
    requires Valid(cfg) && |x| == MX(cfg)
    ensures |pieces| == 3
    ensures forall k :: 0 <= k < 3 ==>
      ColStart(cfg, k) + cfg.dim[k] <= |x| && pieces[k] == x[ColStart(cfg, k) .. ColStart(cfg, k) + cfg.dim[k]]
    ensures pieces[0] + pieces[1] + pieces[2] == x
  {
    var di := DI(cfg);
    ColStartStep(cfg, 0);
    ColStartStep(cfg, 1);
    ColStartStep(cfg, 2);
    assert x == x[..di[0]] + x[di[0] .. di[1]] + x[di[1]..];
    [x[..di[0]], x[di[0] .. di[1]], x[di[1]..]]
  }

  /** Piece k has width `dim[k]` and holds input column s of block k at position s. */
  lemma SplitQueryEntry(cfg: Config, x: Vector, k: nat, s: nat)
    requires Valid(cfg) && |x| == MX(cfg) && k < 3 && s < cfg.dim[k]
    ensures |SplitQuery(cfg, x)[k]| == cfg.dim[k]
    ensures ColIndex(cfg, k, s) < |x| && SplitQuery(cfg, x)[k][s] == x[ColIndex(cfg, k, s)]
  {
  }

  /**
    The first-layer value of flat input column t for one output column:
    `aggregate` of the `deg[k]` polynomial orders of the rescaled value
    with the matching run of lambda, `Lamb[shift : shift + deg[k]]`.
   */
  function QueryPsi(R: Reals, v: Variant, cfg: Config, e: Evaluator, lamb: Vector, xn: Vector, t: nat): real
    requires Valid(cfg) && |lamb| == DesignWidth(cfg) && |xn| == MX(cfg) && t < MX(cfg)
  {
    var q, p := DesignStart(cfg, t), DegOf(cfg, BlockOf(cfg, t));
    Aggregate(R, v, Orders(R, e, xn[t], p), lamb[q .. q + p])
  }

  /** The first-layer values of all input columns for one output column (`psi[k, :]`). */
  function QueryPsiRow(R: Reals, v: Variant, cfg: Config, e: Evaluator, lamb: Vector, xn: Vector): (row: Vector)
    requires Valid(cfg) && |lamb| == DesignWidth(cfg) && |xn| == MX(cfg)
    ensures |row| == MX(cfg)
  {
    seq(MX(cfg), t requires 0 <= t < MX(cfg) => QueryPsi(R, v, cfg, e, lamb, xn, t))
  }

  /**
    Input column j of block i has the first-layer value of the `deg[i]`
    orders of its rescaled value with the run of lambda that the design
    gives to input column j of block i.
   */
  lemma QueryPsiAt(R: Reals, v: Variant, cfg: Config, e: Evaluator, lamb: Vector, xn: Vector, i: nat, j: nat)
    requires Valid(cfg) && |lamb| == DesignWidth(cfg) && |xn| == MX(cfg) && i < 3 && j < cfg.dim[i]
    ensures ColIndex(cfg, i, j) < MX(cfg) && DesignIndex(cfg, i, j, 0) + DegOf(cfg, i) <= DesignWidth(cfg)
    ensures var q, p := DesignIndex(cfg, i, j, 0), DegOf(cfg, i);
      QueryPsi(R, v, cfg, e, lamb, xn, ColIndex(cfg, i, j)) ==
        Aggregate(R, v, Orders(R, e, xn[ColIndex(cfg, i, j)], p), lamb[q .. q + p])
  {
    BlockOfColIndex(cfg, i, j);
    DesignIndexInBlock(cfg, i, j, 0);
  }

  /** The lambda cursor `shift` of `calculate_value` before input column j of block i. */
  function Cursor(cfg: Config, i: nat, j: nat): nat
    requires Valid(cfg) && i < 3
  {
    if j == 0 then BlockOffset(cfg, i) else Cursor(cfg, i, j - 1) + DegOf(cfg, i)
  }

  /** The cursor before input column j of block i is the design column of its order 0. */
  lemma {:induction false} CursorAt(cfg: Config, i: nat, j: nat)
    requires Valid(cfg) && i < 3
    ensures Cursor(cfg, i, j) == DesignIndex(cfg, i, j, 0)
  {
    if j > 0 {
      CursorAt(cfg, i, j - 1);
      DesignIndexNext(cfg, i, j - 1);
    }
  }

  /** After the last input column of block i the cursor is at the start of design block i + 1. */
  lemma CursorEnd(cfg: Config, i: nat)
    requires Valid(cfg) && i < 3
    ensures Cursor(cfg, i, cfg.dim[i]) == BlockOffset(cfg, i + 1)
  {
    CursorAt(cfg, i, cfg.dim[i]);
    DesignIndexNext(cfg, i, 0);
  }

  /**
    One pass of the inner loop of `calculate_value`: the value computed
    for input column j of block i from the lambda run at `shift` extends
    the first-layer values by one, and `shift + deg[i]` is the run of the
    next input column.
   */
  lemma PsiBlockStep(R: Reals, v: Variant, cfg: Config, e: Evaluator, lamb: Vector, xn: Vector,
                     i: nat, j: nat, y: real, psi: Vector, shift: nat)
    requires Valid(cfg) && |lamb| == DesignWidth(cfg) && |xn| == MX(cfg) && i < 3 && j < cfg.dim[i]
    requires ColIndex(cfg, i, j) < MX(cfg) && y == xn[ColIndex(cfg, i, j)]
    requires shift == Cursor(cfg, i, j) && PsiSoFar(R, v, cfg, e, lamb, xn, psi, ColStart(cfg, i) + j)
    ensures shift + DegOf(cfg, i) == Cursor(cfg, i, j + 1) <= |lamb|
    ensures var p := DegOf(cfg, i);
      PsiSoFar(R, v, cfg, e, lamb, xn, psi + [Aggregate(R, v, Orders(R, e, y, p), lamb[shift .. shift + p])],
        ColStart(cfg, i) + j + 1)
  {
    CursorStep(cfg, i, j);
    QueryPsiStep(R, v, cfg, e, lamb, xn, i, j, y);
    var p := DegOf(cfg, i);
    PsiSoFarExtend(R, v, cfg, e, lamb, xn, psi, Aggregate(R, v, Orders(R, e, y, p), lamb[shift .. shift + p]), ColIndex(cfg, i, j));
  }

  /** Before input column j of block i the cursor is at its order-0 design column, and it advances by `deg[i]`. */
  lemma CursorStep(cfg: Config, i: nat, j: nat)
    requires Valid(cfg) && i < 3 && j < cfg.dim[i]
    ensures Cursor(cfg, i, j) == DesignIndex(cfg, i, j, 0)
    ensures Cursor(cfg, i, j) + DegOf(cfg, i) == Cursor(cfg, i, j + 1) <= DesignWidth(cfg)
  {
    CursorAt(cfg, i, j);
    CursorAt(cfg, i, j + 1);
    DesignIndexNext(cfg, i, j);
    DesignIndexInBlock(cfg, i, j, 0);
  }

  /** The value computed from the rescaled input column j of block i and its lambda run is `QueryPsi` there. */
  lemma QueryPsiStep(R: Reals, v: Variant, cfg: Config, e: Evaluator, lamb: Vector, xn: Vector, i: nat, j: nat, y: real)
    requires Valid(cfg) && |lamb| == DesignWidth(cfg) && |xn| == MX(cfg) && i < 3 && j < cfg.dim[i]
    requires ColIndex(cfg, i, j) < MX(cfg) && y == xn[ColIndex(cfg, i, j)]
    ensures ColIndex(cfg, i, j) == ColStart(cfg, i) + j
    ensures var q, p := DesignIndex(cfg, i, j, 0), DegOf(cfg, i);
      q + p <= |lamb| &&
      Aggregate(R, v, Orders(R, e, y, p), lamb[q .. q + p]) == QueryPsi(R, v, cfg, e, lamb, xn, ColIndex(cfg, i, j))
  {
    QueryPsiAt(R, v, cfg, e, lamb, xn, i, j);
  }

  /** The first l first-layer values of one output column. */
  predicate PsiSoFar(R: Reals, v: Variant, cfg: Config, e: Evaluator, lamb: Vector, xn: Vector, psi: Vector, l: nat)
    requires Valid(cfg) && |lamb| == DesignWidth(cfg) && |xn| == MX(cfg)
  {
    l <= MX(cfg) && psi == QueryPsiRow(R, v, cfg, e, lamb, xn)[..l]
  }

  lemma PsiSoFarExtend(R: Reals, v: Variant, cfg: Config, e: Evaluator, lamb: Vector, xn: Vector,
                        psi: Vector, value: real, t: nat)
    requires Valid(cfg) && |lamb| == DesignWidth(cfg) && |xn| == MX(cfg) && t < MX(cfg)
    requires PsiSoFar(R, v, cfg, e, lamb, xn, psi, t) && value == QueryPsi(R, v, cfg, e, lamb, xn, t)
    ensures PsiSoFar(R, v, cfg, e, lamb, xn, psi + [value], t + 1)
  {
    var row := QueryPsiRow(R, v, cfg, e, lamb, xn);
    assert row[..t + 1] == row[..t] + [row[t]];
  }

  /**
    The inner loop of `calculate_value` over the input columns of piece i:
    one value per input column, the lambda cursor `shift` advancing by
    `deg[i]` from the start of design block i to the start of block i + 1.
   */
  method CalculatePsiBlock(R: Reals, v: Variant, cfg: Config, e: Evaluator, lamb: Vector, xn: Vector,
                           piece: Vector, i: nat, psi: Vector, shift: nat)
      returns (psi': Vector, shift': nat)
    requires Valid(cfg) && |lamb| == DesignWidth(cfg) && |xn| == MX(cfg) && i < 3
    requires |piece| == cfg.dim[i] && ColStart(cfg, i) + |piece| <= |xn| && piece == xn[ColStart(cfg, i) .. ColStart(cfg, i) + |piece|]
    requires shift == BlockOffset(cfg, i) && PsiSoFar(R, v, cfg, e, lamb, xn, psi, ColStart(cfg, i))
    ensures shift' == BlockOffset(cfg, i + 1) && PsiSoFar(R, v, cfg, e, lamb, xn, psi', ColStart(cfg, i + 1))
  {
    ColStartStep(cfg, i);
    var p := DegOf(cfg, i);
    psi', shift' := psi, shift;
    for j := 0 to cfg.dim[i]
      invariant shift' == Cursor(cfg, i, j)
      invariant PsiSoFar(R, v, cfg, e, lamb, xn, psi', ColStart(cfg, i) + j)
    {
      assert piece[j] == xn[ColStart(cfg, i) + j];
      PsiBlockStep(R, v, cfg, e, lamb, xn, i, j, piece[j], psi', shift');
      var value := Aggregate(R, v, Orders(R, e, piece[j], p), lamb[shift' .. shift' + p]);
      psi' := psi' + [value];
      shift' := shift' + p;
    }
    CursorEnd(cfg, i);
  }

  /**
    The loop of `calculate_value` that fills `psi`, for one output column:
    the pieces X1, X2, X3 in turn. It computes `QueryPsiRow`.
   */
  method CalculatePsi(R: Reals, v: Variant, cfg: Config, e: Evaluator, lamb: Vector, xn: Vector)
      returns (psi: Vector)
    requires Valid(cfg) && |lamb| == DesignWidth(cfg) && |xn| == MX(cfg)
    ensures psi == QueryPsiRow(R, v, cfg, e, lamb, xn)
  {
    var pieces := SplitQuery(cfg, xn);
    psi := [];
    var shift := 0;
    for i := 0 to 3
      invariant shift == BlockOffset(cfg, i) && PsiSoFar(R, v, cfg, e, lamb, xn, psi, ColStart(cfg, i))
    {
      psi, shift := CalculatePsiBlock(R, v, cfg, e, lamb, xn, pieces[i], i, psi, shift);
    }
  }

  /**
    `big_phi[k, i]`: `aggregate` of block i of the first-layer values with
    the same block of the coefficient column a.
   */
  function BlockAggregate(R: Reals, v: Variant, cfg: Config, psiRow: Vector, a: Vector, j: nat): real
    requires Valid(cfg) && j < 3 && |psiRow| == |a| == MX(cfg)
  {
    ColStartStep(cfg, j);
    Aggregate(R, v, psiRow[ColStart(cfg, j) .. ColStart(cfg, j + 1)], a[ColStart(cfg, j) .. ColStart(cfg, j + 1)])
  }

  /** The three second-layer values of one output column. */
  function QueryBigPhi(R: Reals, v: Variant, cfg: Config, psiRow: Vector, a: Vector): (phi: Vector)
    requires Valid(cfg) && |psiRow| == |a| == MX(cfg)
    ensures |phi| == 3
  {
    seq(3, j requires 0 <= j < 3 => BlockAggregate(R, v, cfg, psiRow, a, j))
  }

  /** The rescaled prediction of one output column: the last `aggregate`, with the column c. */
  function QueryOutput(R: Reals, v: Variant, cfg: Config, e: Evaluator, L: Layer, xn: Vector): real
    requires Valid(cfg) && |L.lamb| == DesignWidth(cfg) && |L.a| == MX(cfg) && |L.c| == 3 && |xn| == MX(cfg)
  {
    Aggregate(R, v, QueryBigPhi(R, v, cfg, QueryPsiRow(R, v, cfg, e, L.lamb, xn), L.a), L.c)
  }

  /** The rescaled predictions of every output column. */
  function QueryOutputs(R: Reals, fit: Fit, xn: Vector): (y: Vector)
    requires Predictable(fit) && |xn| == MX(fit.cfg)
    ensures |y| == DimY(fit.cfg)
  {
    var m := DimY(fit.cfg);
    seq(m, k requires 0 <= k < m =>
      QueryOutput(R, fit.variant, fit.cfg, DesignEvaluator(fit.poly), fit.layers[k], xn))
  }

  /**
    `calculate_value(X)` for a query of `mX` raw input values. It fails
    when the polynomial evaluator was never set (no input column and an
    unknown type), and when there is no input column but some output
    column, whose first-layer values it then cannot index. Otherwise each
    output is the rescaled prediction mapped back with `maxY - minY` and
    `minY`, and rescaling it again gives the prediction of the layers.
   */
  function CalculateValue(R: Reals, fit: Fit, x: Vector): (r: Result<Vector, Fault>)
    requires Predictable(fit) && |x| == MX(fit.cfg)
    ensures r == Failure(UnknownPolyType) <==> fit.poly.None?
    ensures r == Failure(NoInputColumns) <==> fit.poly.Some? && MX(fit.cfg) == 0 && DimY(fit.cfg) > 0
    ensures r.Success? <==> fit.poly.Some? && (MX(fit.cfg) > 0 || DimY(fit.cfg) == 0)
    ensures r.Success? ==> |r.value| == DimY(fit.cfg)
    ensures r.Success? ==> forall k :: 0 <= k < DimY(fit.cfg) ==>
      r.value[k] == DenormValue(QueryOutputs(R, fit, NormQuery(x, fit.views.minX, fit.views.maxX))[k], fit.views.minY[k], fit.views.maxY[k])
    ensures r.Success? ==> forall k :: 0 <= k < DimY(fit.cfg) && fit.views.minY[k] < fit.views.maxY[k] ==>
      NormValue(r.value[k], fit.views.minY[k], fit.views.maxY[k]) ==
        QueryOutputs(R, fit, NormQuery(x, fit.views.minX, fit.views.maxX))[k]
  {
    var cfg := fit.cfg;
    if fit.poly.None? then Failure(UnknownPolyType)
    else if MX(cfg) == 0 && DimY(cfg) > 0 then Failure(NoInputColumns)
    else
      var y := QueryOutputs(R, fit, NormQuery(x, fit.views.minX, fit.views.maxX));
      var m := DimY(cfg);
      var res := seq(m, k requires 0 <= k < m => DenormValue(y[k], fit.views.minY[k], fit.views.maxY[k]));
      assert forall k :: 0 <= k < m && fit.views.minY[k] < fit.views.maxY[k] ==>
        NormValue(res[k], fit.views.minY[k], fit.views.maxY[k]) == y[k] by {
        forall k | 0 <= k < m && fit.views.minY[k] < fit.views.maxY[k]
          ensures NormValue(res[k], fit.views.minY[k], fit.views.maxY[k]) == y[k]
        {
          NormRoundTrip(y[k], fit.views.minY[k], fit.views.maxY[k]);
        }
      }
      Success(res)
  }

  /** `SolveExpTh1` predicts exactly as the base class would with the same fitted layers. */
  lemma ExpTh1PredictsLikeBase(R: Reals, fit: Fit, x: Vector)
    requires Predictable(fit) && |x| == MX(fit.cfg) && fit.variant == ExpTh1
    ensures CalculateValue(R, fit, x) == CalculateValue(R, fit.(variant := Base), x)
  {
    var fit' := fit.(variant := Base);
    var cfg, e := fit.cfg, DesignEvaluator(fit.poly);
    var xn := NormQuery(x, fit.views.minX, fit.views.maxX);
    forall k | 0 <= k < DimY(cfg)
      ensures QueryOutputs(R, fit, xn)[k] == QueryOutputs(R, fit', xn)[k]
    {
      var L := fit.layers[k];
      forall t | 0 <= t < MX(cfg)
        ensures QueryPsi(R, ExpTh1, cfg, e, L.lamb, xn, t) == QueryPsi(R, Base, cfg, e, L.lamb, xn, t)
      {
        var q, p := DesignStart(cfg, t), DegOf(cfg, BlockOf(cfg, t));
        ExpTh1AggregatesLikeBase(R, Orders(R, e, xn[t], p), L.lamb[q .. q + p]);
      }
      var row := QueryPsiRow(R, ExpTh1, cfg, e, L.lamb, xn);
      assert row == QueryPsiRow(R, Base, cfg, e, L.lamb, xn);
      forall j | 0 <= j < 3
        ensures BlockAggregate(R, ExpTh1, cfg, row, L.a, j) == BlockAggregate(R, Base, cfg, row, L.a, j)
      {
        ColStartStep(cfg, j);
        ExpTh1AggregatesLikeBase(R, row[ColStart(cfg, j) .. ColStart(cfg, j + 1)], L.a[ColStart(cfg, j) .. ColStart(cfg, j + 1)]);
      }
      assert QueryBigPhi(R, ExpTh1, cfg, row, L.a) == QueryBigPhi(R, Base, cfg, row, L.a);
      ExpTh1AggregatesLikeBase(R, QueryBigPhi(R, Base, cfg, row, L.a), L.c);
    }
    assert QueryOutputs(R, fit, xn) == QueryOutputs(R, fit', xn);
  }
}
