/**
  The design matrix of `built_A`: every input column of block k is expanded
  into `deg[k]` columns holding the polynomial of orders 0..deg[k]-1 at
  that column's values, blocks X1, X2, X3 in order; then the elementwise
  pre-transform that the first layer solves against (`A_log`).
 */
module Design {
  import opened LinAlg
  import opened Layout
  import opened Links

  /** `poly_f(d, x)` for the orders `d = 0..p-1`. */
  function Orders(R: Reals, e: Evaluator, x: real, p: nat): (o: Vector)
    ensures |o| == p
    ensures forall d :: 0 <= d < p ==> o[d] == PolyEval(R, e, d, x)
  {
    seq(p, d requires 0 <= d < p => PolyEval(R, e, d, x))
  }

  /**
    One row of `vector(vec, p)`: the input values in column order, each
    followed by its `p` orders, so value s occupies positions `s*p .. s*p+p`
    (`ExpandBlockEntry`).
   */
  function ExpandBlock(R: Reals, e: Evaluator, xs: Vector, p: nat): (r: Vector)
    ensures |r| == |xs| * p
  {
    if |xs| == 0 then []
    else
      var n := |xs| - 1;
      var front := ExpandBlock(R, e, xs[..n], p);
      assert |front| + p == |xs| * p;
      front + Orders(R, e, xs[n], p)
  }

  /** Position `s*p + d` of an expanded block holds order d of value s. */
  lemma {:induction false} ExpandBlockEntry(R: Reals, e: Evaluator, xs: Vector, p: nat, s: nat, d: nat)
    requires s < |xs| && d < p
    ensures s * p + d < |xs| * p
    ensures ExpandBlock(R, e, xs, p)[s * p + d] == PolyEval(R, e, d, xs[s])
  {
    var n := |xs| - 1;
    var front := ExpandBlock(R, e, xs[..n], p);
    MulBound(s, p, d, |xs|);
    if s < n {
      MulBound(s, p, d, n);
      ExpandBlockEntry(R, e, xs[..n], p, s, d);
      assert xs[..n][s] == xs[s];
    } else {
      assert s * p == |front|;
    }
  }

  /** The input blocks X1, X2, X3: n rows each, of widths `dim[0..2]`. */
  predicate InputBlocks(cfg: Config, X: seq<Matrix>, n: nat)
    requires Valid(cfg)
  {
    && |X| == 3
    && (forall k :: 0 <= k < 3 ==> |X[k]| == n)
    && (forall k, i :: 0 <= k < 3 && 0 <= i < n ==> |X[k][i]| == cfg.dim[k])
  }

  /**
    One row of the polynomial design: the expansions of X1, X2, X3 side by
    side (`DesignRowEntry` says where each order lands).
   */
  function DesignRow(R: Reals, e: Evaluator, cfg: Config, X: seq<Matrix>, n: nat, i: nat): (row: Vector)
    requires Valid(cfg) && InputBlocks(cfg, X, n) && i < n
    ensures |row| == DesignWidth(cfg)
  {
    var b0 := ExpandBlock(R, e, X[0][i], DegOf(cfg, 0));
    var b1 := ExpandBlock(R, e, X[1][i], DegOf(cfg, 1));
    var b2 := ExpandBlock(R, e, X[2][i], DegOf(cfg, 2));
    BlockWidths(cfg, |b0|, |b1|, |b2|);
    b0 + b1 + b2
  }

  /** Design column `DesignIndex(k, s, d)` of row i is order d of `X_k[i, s]`. */
  lemma DesignRowEntry(R: Reals, e: Evaluator, cfg: Config, X: seq<Matrix>, n: nat, i: nat,
                       k: nat, s: nat, d: nat)
    requires Valid(cfg) && InputBlocks(cfg, X, n) && i < n
    requires k < 3 && s < cfg.dim[k] && d < DegOf(cfg, k)
    ensures DesignIndex(cfg, k, s, d) < DesignWidth(cfg)
    ensures DesignRow(R, e, cfg, X, n, i)[DesignIndex(cfg, k, s, d)] == PolyEval(R, e, d, X[k][i][s])
  {
    var b0 := ExpandBlock(R, e, X[0][i], DegOf(cfg, 0));
    var b1 := ExpandBlock(R, e, X[1][i], DegOf(cfg, 1));
    var b2 := ExpandBlock(R, e, X[2][i], DegOf(cfg, 2));
    BlockWidths(cfg, |b0|, |b1|, |b2|);
    DesignIndexInBlock(cfg, k, s, d);
    if k == 0 {
      ExpandBlockEntry(R, e, X[0][i], DegOf(cfg, 0), s, d);
    } else if k == 1 {
      ExpandBlockEntry(R, e, X[1][i], DegOf(cfg, 1), s, d);
    } else {
      ExpandBlockEntry(R, e, X[2][i], DegOf(cfg, 2), s, d);
    }
  }

  /** Block k of a design row is `dim[k] * deg[k]` wide, and the blocks start at `BlockOffset`. */
  lemma BlockWidths(cfg: Config, w0: nat, w1: nat, w2: nat)
    requires Valid(cfg)
    requires w0 == cfg.dim[0] * DegOf(cfg, 0)
    requires w1 == cfg.dim[1] * DegOf(cfg, 1)
    requires w2 == cfg.dim[2] * DegOf(cfg, 2)
    ensures BlockOffset(cfg, 0) == 0
    ensures BlockOffset(cfg, 1) == w0
    ensures BlockOffset(cfg, 2) == w0 + w1
    ensures DesignWidth(cfg) == w0 + w1 + w2
  {
  }

  /**
    The polynomial design matrix (`A` before any transform): n rows of
    `DesignWidth` entries (`DesignColumn` gives their contents).
   */
  function PolyMatrix(R: Reals, e: Evaluator, cfg: Config, X: seq<Matrix>, n: nat): (P: Matrix)
    requires Valid(cfg) && InputBlocks(cfg, X, n)
    ensures IsMatrix(P, n, DesignWidth(cfg))
  {
    seq(n, i requires 0 <= i < n => DesignRow(R, e, cfg, X, n, i))
  }

  /**
    Design column `DesignIndex(k, s, d)` is `poly_f(d, X_k[:, s])`, the
    column `coordinate(vec[:, s], d)` appends.
   */
  lemma DesignColumn(R: Reals, e: Evaluator, cfg: Config, X: seq<Matrix>, n: nat, k: nat, s: nat, d: nat)
    requires Valid(cfg) && InputBlocks(cfg, X, n)
    requires k < 3 && s < cfg.dim[k] && d < DegOf(cfg, k)
    ensures DesignIndex(cfg, k, s, d) < DesignWidth(cfg)
    ensures forall i :: 0 <= i < n ==>
      PolyMatrix(R, e, cfg, X, n)[i][DesignIndex(cfg, k, s, d)] == PolyEval(R, e, d, X[k][i][s])
  {
    DesignIndexInBlock(cfg, k, s, d);
    forall i | 0 <= i < n
      ensures PolyMatrix(R, e, cfg, X, n)[i][DesignIndex(cfg, k, s, d)] == PolyEval(R, e, d, X[k][i][s])
    {
      DesignRowEntry(R, e, cfg, X, n, i, k, s, d);
    }
  }

  /** The design columns of one input column are consecutive and ordered by ascending order d. */
  lemma DesignColumnsConsecutive(cfg: Config, k: nat, s: nat, d: nat)
    requires Valid(cfg) && k < 3 && s < cfg.dim[k] && d + 1 < DegOf(cfg, k)
    ensures DesignIndex(cfg, k, s, d + 1) == DesignIndex(cfg, k, s, d) + 1
    ensures s + 1 < cfg.dim[k] ==>
      DesignIndex(cfg, k, s + 1, 0) == DesignIndex(cfg, k, s, DegOf(cfg, k) - 1) + 1
  {
  }

  /**
    `A_log`: the base engine takes `log(A + 1 + OFFSET)`; `SolveExpTh` takes
    `tanh(A)` and `SolveExpTh1` `(2/pi) arctan(A)` of the polynomial design.
   */
  function DesignLog(R: Reals, v: Variant, P: Matrix): (L: Matrix)
    ensures |L| == |P|
    ensures forall i :: 0 <= i < |P| ==> |L[i]| == |P[i]|
    ensures forall i, j :: 0 <= i < |P| && 0 <= j < |P[i]| ==> L[i][j] == DesignLink(R, v, P[i][j])
  {
    MapM(x => DesignLink(R, v, x), P)
  }

  /**
    The matrix the engine reports as `A`: the polynomial design itself in
    the base engine, `exp(A_log)` in the custom ones. Only its shape is used.
   */
  function DesignReported(R: Reals, v: Variant, P: Matrix): (A: Matrix)
    ensures |A| == |P|
    ensures forall i :: 0 <= i < |P| ==> |A[i]| == |P[i]|
    ensures v == Base ==> A == P
    ensures v != Base ==> forall i, j :: 0 <= i < |P| && 0 <= j < |P[i]| ==>
      A[i][j] == R.exp(DesignLink(R, v, P[i][j]))
  {
    if v == Base then P else MapM(R.exp, DesignLog(R, v, P))
  }
}
