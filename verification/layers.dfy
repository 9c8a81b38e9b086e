/**
  The three fitted layers of one output column: the coefficients lambda of
  the design (`lamb`), the per-input-column sums Psi (`psi`), the
  coefficients a of Psi (`built_a`), the per-block sums Fi (`built_F1i`,
  `built_Fi`) and the coefficients c of Fi (`built_c`).

  The least-squares routine `_minimize_equation` is a parameter: all that
  is known of it is that it returns one coefficient per matrix column.
 */
module Layers {
  import opened LinAlg
  import opened Layout
  import opened Links

  /** `_minimize_equation(A, b)`: some x with `|Ax - b|` small, one entry per column of A. */
  type Solver = f: (Matrix, Vector) -> Vector | forall A: Matrix, b: Vector :: |f(A, b)| == Width(A)
    witness (A: Matrix, b: Vector) => seq(Width(A), _ => 0.0)

  /** Design block k: the columns `BlockOffset(k) .. BlockOffset(k+1)`. */
  function DesignBlock(cfg: Config, M: Matrix, k: nat): (S: Matrix)
    requires Valid(cfg) && k < 3 && HasCols(M, DesignWidth(cfg))
    ensures IsMatrix(S, |M|, BlockOffset(cfg, k + 1) - BlockOffset(cfg, k))
  {
    BlockOffsetMonotone(cfg, k, k + 1);
    BlockOffsetMonotone(cfg, k + 1, 3);
    SliceCols(M, BlockOffset(cfg, k), BlockOffset(cfg, k + 1))
  }

  /** Block k of the lambda column is the solve against design block k alone. */
  predicate SolvedBlock(cfg: Config, solve: Solver, ALog: Matrix, b: Vector, lamb: Vector, k: nat)
    requires Valid(cfg) && k < 3 && HasCols(ALog, DesignWidth(cfg))
  {
    BlockOffset(cfg, k) <= BlockOffset(cfg, k + 1) <= |lamb| &&
    lamb[BlockOffset(cfg, k) .. BlockOffset(cfg, k + 1)] == solve(DesignBlock(cfg, ALog, k), b)
  }

  /**
    One column of `Lamb` (`lamb`), for the target column b: a single solve
    against the whole design, or (with `lambda_multiblock`) one solve per
    design block, split at `boundary_1` and `boundary_2` and stacked. Split,
    block k of lambda depends on design block k alone.
   */
  function Lambda(cfg: Config, solve: Solver, ALog: Matrix, b: Vector, split: bool): (lamb: Vector)
    requires Valid(cfg) && |ALog| > 0 && IsMatrix(ALog, |ALog|, DesignWidth(cfg))
    ensures |lamb| == DesignWidth(cfg)
    ensures !split ==> lamb == solve(ALog, b)
    ensures split ==> forall k :: 0 <= k < 3 ==> SolvedBlock(cfg, solve, ALog, b, lamb, k)
  {
    if split then
      var (boundary1, boundary2) := LambdaBoundaries(cfg);
      var w := DesignWidth(cfg);
      var l1 := solve(SliceCols(ALog, 0, boundary1), b);
      var l2 := solve(SliceCols(ALog, boundary1, boundary2), b);
      var l3 := solve(SliceCols(ALog, boundary2, w), b);
      assert DesignBlock(cfg, ALog, 0) == SliceCols(ALog, 0, boundary1);
      assert DesignBlock(cfg, ALog, 2) == SliceCols(ALog, boundary2, w);
      assert |l1| == boundary1 && |l2| == boundary2 - boundary1 && |l3| == w - boundary2;
      assert (l1 + l2 + l3)[..boundary1] == l1;
      assert (l1 + l2 + l3)[boundary1 .. boundary2] == l2;
      assert (l1 + l2 + l3)[boundary2 .. w] == l3;
      l1 + l2 + l3
    else
      solve(ALog, b)
  }

  /**
    Split or not, the lambda column has one coefficient per design column;
    split, two designs that agree on block k give the same block k of lambda.
   */
  lemma LambdaBlockLocal(cfg: Config, solve: Solver, A1: Matrix, A2: Matrix, b: Vector, k: nat)
    requires Valid(cfg) && |A1| > 0 && IsMatrix(A1, |A1|, DesignWidth(cfg))
    requires |A2| > 0 && IsMatrix(A2, |A2|, DesignWidth(cfg)) && k < 3
    requires DesignBlock(cfg, A1, k) == DesignBlock(cfg, A2, k)
    ensures var l1, l2 := Lambda(cfg, solve, A1, b, true), Lambda(cfg, solve, A2, b, true);
      l1[BlockOffset(cfg, k) .. BlockOffset(cfg, k + 1)] == l2[BlockOffset(cfg, k) .. BlockOffset(cfg, k + 1)]
  {
    assert SolvedBlock(cfg, solve, A1, b, Lambda(cfg, solve, A1, b, true), k);
    assert SolvedBlock(cfg, solve, A2, b, Lambda(cfg, solve, A2, b, true), k);
  }

  /** The block of flat input column t (`ColStart(k) <= t < ColStart(k+1)`). */
  function BlockOf(cfg: Config, t: nat): (k: nat)
    requires Valid(cfg) && t < MX(cfg)
    ensures k < 3 && ColStart(cfg, k) <= t < ColStart(cfg, k + 1)
  {
    if t < DI(cfg)[0] then 0 else if t < DI(cfg)[1] then 1 else 2
  }

  /** Input column s of block k is flat column `ColIndex(k, s)`, and it lies in block k. */
  lemma BlockOfColIndex(cfg: Config, k: nat, s: nat)
    requires Valid(cfg) && k < 3 && s < cfg.dim[k]
    ensures ColIndex(cfg, k, s) < MX(cfg)
    ensures BlockOf(cfg, ColIndex(cfg, k, s)) == k
  {
    ColStartStep(cfg, k);
    if k < 2 {
      ColStartStep(cfg, k + 1);
    }
  }

  /** First design column of flat input column t. */
  function DesignStart(cfg: Config, t: nat): (q: nat)
    requires Valid(cfg) && t < MX(cfg)
    ensures q + DegOf(cfg, BlockOf(cfg, t)) <= DesignWidth(cfg)
  {
    var k := BlockOf(cfg, t);
    ColStartStep(cfg, k);
    DesignIndexInBlock(cfg, k, t - ColStart(cfg, k), 0);
    DesignIndex(cfg, k, t - ColStart(cfg, k), 0)
  }

  /** Entry (i, t) of `Psi_log`: lambda-weighted sum of the design orders of input column t. */
  function PsiSum(cfg: Config, row: Vector, lamb: Vector, t: nat): real
    requires Valid(cfg) && t < MX(cfg) && |row| == |lamb| == DesignWidth(cfg)
  {
    var q := DesignStart(cfg, t);
    var p := DegOf(cfg, BlockOf(cfg, t));
    Dot(row[q .. q + p], lamb[q .. q + p])
  }

  /** `built_psi(lamb)`: the n x mX matrix of weighted sums (`PsiEntry` locates them). */
  function PsiMatrix(cfg: Config, ALog: Matrix, lamb: Vector): (P: Matrix)
    requires Valid(cfg) && IsMatrix(ALog, |ALog|, DesignWidth(cfg)) && |lamb| == DesignWidth(cfg)
    ensures IsMatrix(P, |ALog|, MX(cfg))
  {
    seq(|ALog|, i requires 0 <= i < |ALog| =>
      seq(MX(cfg), t requires 0 <= t < MX(cfg) => PsiSum(cfg, ALog[i], lamb, t)))
  }

  /**
    Psi column `ColIndex(k, s)` is the dot product of the `deg[k]` design
    columns of input s of block k with the matching lambda entries.
   */
  lemma PsiEntry(cfg: Config, ALog: Matrix, lamb: Vector, i: nat, k: nat, s: nat)
    requires Valid(cfg) && IsMatrix(ALog, |ALog|, DesignWidth(cfg)) && |lamb| == DesignWidth(cfg)
    requires i < |ALog| && k < 3 && s < cfg.dim[k]
    ensures ColIndex(cfg, k, s) < MX(cfg)
    ensures DesignIndex(cfg, k, s, 0) + DegOf(cfg, k) <= DesignWidth(cfg)
    ensures var q, p := DesignIndex(cfg, k, s, 0), DegOf(cfg, k);
      PsiMatrix(cfg, ALog, lamb)[i][ColIndex(cfg, k, s)] == Dot(ALog[i][q .. q + p], lamb[q .. q + p])
  {
    PsiSumAt(cfg, ALog[i], lamb, k, s);
  }

  lemma PsiSumAt(cfg: Config, row: Vector, lamb: Vector, k: nat, s: nat)
    requires Valid(cfg) && |row| == |lamb| == DesignWidth(cfg) && k < 3 && s < cfg.dim[k]
    ensures ColIndex(cfg, k, s) < MX(cfg)
    ensures DesignIndex(cfg, k, s, 0) + DegOf(cfg, k) <= DesignWidth(cfg)
    ensures var q, p := DesignIndex(cfg, k, s, 0), DegOf(cfg, k);
      PsiSum(cfg, row, lamb, ColIndex(cfg, k, s)) == Dot(row[q .. q + p], lamb[q .. q + p])
  {
    BlockOfColIndex(cfg, k, s);
    DesignIndexInBlock(cfg, k, s, 0);
  }

  lemma DesignIndexNext(cfg: Config, k: nat, s: nat)
    requires Valid(cfg) && k < 3
    ensures DesignIndex(cfg, k, s + 1, 0) == DesignIndex(cfg, k, s, 0) + DegOf(cfg, k)
    ensures DesignIndex(cfg, k, cfg.dim[k], 0) == BlockOffset(cfg, k + 1)
  {
    assert (s + 1) * DegOf(cfg, k) == s * DegOf(cfg, k) + DegOf(cfg, k);
  }

  /** One column of `built_psi`, row by row as the innermost loop of the source fills it. */
  method PsiColumn(cfg: Config, ALog: Matrix, lamb: Vector, q: nat, p: nat) returns (col: Vector)
    requires IsMatrix(ALog, |ALog|, |lamb|) && q + p <= |lamb|
    ensures |col| == |ALog|
    ensures forall i :: 0 <= i < |ALog| ==> col[i] == Dot(ALog[i][q .. q + p], lamb[q .. q + p])
  {
    col := [];
    var i := 0;
    while i < |ALog|
      invariant i <= |ALog| && |col| == i
      invariant forall i' :: 0 <= i' < i ==> col[i'] == Dot(ALog[i'][q .. q + p], lamb[q .. q + p])
    {
      col := col + [Dot(ALog[i][q .. q + p], lamb[q .. q + p])];
      i := i + 1;
    }
  }

  /** The first l columns of `Psi_log`, each a column of n weighted sums. */
  predicate PsiColumnsSoFar(cfg: Config, ALog: Matrix, lamb: Vector, cols: seq<Vector>, l: nat)
    requires Valid(cfg) && IsMatrix(ALog, |ALog|, DesignWidth(cfg)) && |lamb| == DesignWidth(cfg)
  {
    && |cols| == l <= MX(cfg)
    && (forall t :: 0 <= t < l ==> |cols[t]| == |ALog|)
    && (forall t, i :: 0 <= t < l && 0 <= i < |ALog| ==> cols[t][i] == PsiSum(cfg, ALog[i], lamb, t))
  }

  /**
    The loop over the input columns of block k in `built_psi`: the design
    cursor q advances by `deg[k]` and the Psi cursor by one per input column,
    from the start of block k to the start of block k + 1.
   */
  method PsiBlock(cfg: Config, ALog: Matrix, lamb: Vector, k: nat, cols: seq<Vector>, q: nat)
      returns (cols': seq<Vector>, q': nat)
    requires Valid(cfg) && IsMatrix(ALog, |ALog|, DesignWidth(cfg)) && |lamb| == DesignWidth(cfg) && k < 3
    requires q == BlockOffset(cfg, k) && PsiColumnsSoFar(cfg, ALog, lamb, cols, ColStart(cfg, k))
    ensures q' == BlockOffset(cfg, k + 1) && PsiColumnsSoFar(cfg, ALog, lamb, cols', ColStart(cfg, k + 1))
  {
    var n := |ALog|;
    var p := DegOf(cfg, k);
    ColStartStep(cfg, k);
    cols', q' := cols, q;
    for s := 0 to cfg.dim[k]
      invariant q' == DesignIndex(cfg, k, s, 0)
      invariant PsiColumnsSoFar(cfg, ALog, lamb, cols', ColStart(cfg, k) + s)
    {
      DesignIndexInBlock(cfg, k, s, 0);
      var col := PsiColumn(cfg, ALog, lamb, q', p);
      PsiColumnsExtend(cfg, ALog, lamb, cols', col, k, s);
      DesignIndexNext(cfg, k, s);
      cols', q' := cols' + [col], q' + p;
    }
    DesignIndexNext(cfg, k, 0);
  }

  /** Appending the column of input s of block k extends the Psi columns by one. */
  lemma PsiColumnsExtend(cfg: Config, ALog: Matrix, lamb: Vector, cols: seq<Vector>, col: Vector, k: nat, s: nat)
    requires Valid(cfg) && IsMatrix(ALog, |ALog|, DesignWidth(cfg)) && |lamb| == DesignWidth(cfg)
    requires k < 3 && s < cfg.dim[k] && PsiColumnsSoFar(cfg, ALog, lamb, cols, ColIndex(cfg, k, s))
    requires DesignIndex(cfg, k, s, 0) + DegOf(cfg, k) <= DesignWidth(cfg)
    requires |col| == |ALog|
    requires var q, p := DesignIndex(cfg, k, s, 0), DegOf(cfg, k);
      forall i :: 0 <= i < |ALog| ==> col[i] == Dot(ALog[i][q .. q + p], lamb[q .. q + p])
    ensures PsiColumnsSoFar(cfg, ALog, lamb, cols + [col], ColIndex(cfg, k, s) + 1)
  {
    var l := ColIndex(cfg, k, s);
    forall i | 0 <= i < |ALog| ensures col[i] == PsiSum(cfg, ALog[i], lamb, l) {
      PsiSumAt(cfg, ALog[i], lamb, k, s);
    }
  }

  /**
    `built_psi` as written: the blocks X1, X2, X3 in turn, each input column
    producing one column of Psi. It computes `PsiMatrix`.
   */
  method BuildPsi(cfg: Config, ALog: Matrix, lamb: Vector) returns (psi: Matrix)
    requires Valid(cfg) && IsMatrix(ALog, |ALog|, DesignWidth(cfg)) && |lamb| == DesignWidth(cfg)
    ensures psi == PsiMatrix(cfg, ALog, lamb)
  {
    var n := |ALog|;
    var cols: seq<Vector> := [];
    var q := 0;
    for k := 0 to 3
      invariant q == BlockOffset(cfg, k) && PsiColumnsSoFar(cfg, ALog, lamb, cols, ColStart(cfg, k))
    {
      cols, q := PsiBlock(cfg, ALog, lamb, k, cols, q);
    }
    var m := MX(cfg);
    psi := seq(n, i requires 0 <= i < n => seq(m, t requires 0 <= t < m => cols[t][i]));
    assert forall i :: 0 <= i < n ==> psi[i] == PsiMatrix(cfg, ALog, lamb)[i];
  }

  /** Flat input block j: the columns `ColStart(j) .. ColStart(j+1)` of a matrix n x mX. */
  function InputBlock(cfg: Config, M: Matrix, j: nat): (S: Matrix)
    requires Valid(cfg) && j < 3 && HasCols(M, MX(cfg))
    ensures IsMatrix(S, |M|, cfg.dim[j])
  {
    ColStartStep(cfg, j);
    SliceCols(M, ColStart(cfg, j), ColStart(cfg, j + 1))
  }

  /** Block j of the coefficient column is the solve against Psi block j alone. */
  predicate SolvedInputBlock(cfg: Config, solve: Solver, Psi: Matrix, y: Vector, a: Vector, j: nat)
    requires Valid(cfg) && j < 3 && HasCols(Psi, MX(cfg))
  {
    ColStart(cfg, j) <= ColStart(cfg, j + 1) <= |a| &&
    a[ColStart(cfg, j) .. ColStart(cfg, j + 1)] == solve(InputBlock(cfg, Psi, j), y)
  }

  /**
    One column of `a` (`built_a`): one solve per input block of the Psi
    matrix the layer solves against, stacked; block j of a depends on Psi
    block j alone.
   */
  function Coefficients(cfg: Config, solve: Solver, Psi: Matrix, y: Vector): (a: Vector)
    requires Valid(cfg) && |Psi| > 0 && IsMatrix(Psi, |Psi|, MX(cfg))
    ensures |a| == MX(cfg)
    ensures forall j :: 0 <= j < 3 ==> SolvedInputBlock(cfg, solve, Psi, y, a, j)
  {
    var di := DI(cfg);
    var a1 := solve(SliceCols(Psi, 0, di[0]), y);
    var a2 := solve(SliceCols(Psi, di[0], di[1]), y);
    var a3 := solve(SliceCols(Psi, di[1], MX(cfg)), y);
    assert InputBlock(cfg, Psi, 0) == SliceCols(Psi, 0, di[0]);
    assert InputBlock(cfg, Psi, 2) == SliceCols(Psi, di[1], MX(cfg));
    assert |a1| == di[0] && |a2| == di[1] - di[0] && |a3| == MX(cfg) - di[1];
    assert (a1 + a2 + a3)[..di[0]] == a1;
    assert (a1 + a2 + a3)[di[0] .. di[1]] == a2;
    assert (a1 + a2 + a3)[di[1] .. MX(cfg)] == a3;
    a1 + a2 + a3
  }

  /** The weighted sum of flat input block j of one Psi row. */
  function BlockSum(cfg: Config, row: Vector, a: Vector, j: nat): real
    requires Valid(cfg) && j < 3 && |row| == |a| == MX(cfg)
  {
    ColStartStep(cfg, j);
    Dot(row[ColStart(cfg, j) .. ColStart(cfg, j + 1)], a[ColStart(cfg, j) .. ColStart(cfg, j + 1)])
  }

  /** `built_F1i(psi, a)`: n x 3, entry (i, j) the a-weighted sum of block j of Psi row i. */
  function FiSums(cfg: Config, Psi: Matrix, a: Vector): (F: Matrix)
    requires Valid(cfg) && IsMatrix(Psi, |Psi|, MX(cfg)) && |a| == MX(cfg)
    ensures IsMatrix(F, |Psi|, 3)
  {
    seq(|Psi|, i requires 0 <= i < |Psi| => seq(3, j requires 0 <= j < 3 => BlockSum(cfg, Psi[i], a, j)))
  }

  /**
    The three block sums of a row add up to the full a-weighted sum of the
    row: the blocks partition the input columns.
   */
  lemma FiSumsPartition(cfg: Config, Psi: Matrix, a: Vector, i: nat)
    requires Valid(cfg) && IsMatrix(Psi, |Psi|, MX(cfg)) && |a| == MX(cfg) && i < |Psi|
    ensures var F := FiSums(cfg, Psi, a);
      F[i][0] + F[i][1] + F[i][2] == Dot(Psi[i], a)
  {
    var row := Psi[i];
    var d0, d1, m := DI(cfg)[0], DI(cfg)[1], MX(cfg);
    assert row == row[..d0] + row[d0 .. d1] + row[d1 .. m];
    assert a == a[..d0] + a[d0 .. d1] + a[d1 .. m];
    DotAppend(row[..d0] + row[d0 .. d1], row[d1 .. m], a[..d0] + a[d0 .. d1], a[d1 .. m]);
    DotAppend(row[..d0], row[d0 .. d1], a[..d0], a[d0 .. d1]);
    assert row[..d0] == row[0 .. d0] && a[..d0] == a[0 .. d0];
  }

  /**
    `built_F1i` as written: the start cursor k moves to `dim_integral[j]`
    after block j. It computes `FiSums`.
   */
  method BuildF1i(cfg: Config, Psi: Matrix, a: Vector) returns (F: Matrix)
    requires Valid(cfg) && IsMatrix(Psi, |Psi|, MX(cfg)) && |a| == MX(cfg)
    ensures F == FiSums(cfg, Psi, a)
  {
    var n := |Psi|;
    var di := DI(cfg);
    var cols: seq<Vector> := [];
    var k := 0;
    for j := 0 to 3
      invariant k == ColStart(cfg, j) && |cols| == j
      invariant forall j' :: 0 <= j' < j ==> |cols[j']| == n
      invariant forall j', i :: 0 <= j' < j && 0 <= i < n ==> cols[j'][i] == BlockSum(cfg, Psi[i], a, j')
    {
      ColStartStep(cfg, j);
      var col := seq(n, i requires 0 <= i < n => Dot(Psi[i][k .. di[j]], a[k .. di[j]]));
      assert forall i :: 0 <= i < n ==> col[i] == BlockSum(cfg, Psi[i], a, j);
      cols := cols + [col];
      k := di[j];
    }
    F := seq(n, i requires 0 <= i < n => seq(3, j requires 0 <= j < 3 => cols[j][i]));
    assert forall i :: 0 <= i < n ==> F[i] == FiSums(cfg, Psi, a)[i];
  }

  /**
    The weighted sum behind one final prediction: the c-weighted sum of the
    row of Fi that the last layer solves against.
   */
  function FinalSum(FiIn: Matrix, c: Vector, i: nat): real
    requires IsMatrix(FiIn, |FiIn|, 3) && |c| == 3 && i < |FiIn|
  {
    Dot(FiIn[i], c)
  }
}
