/**
  The fit's error metrics (`built_F`, `built_F_`): per output column, the
  infinity norm and the mean of the signed residual `Y[:, i] - F[:, i]`,
  on the normalised scale and on the raw scale.
 */
module Metrics {
  import opened LinAlg
  import opened Normalize

  /** The residual column `Y[:, i] - F[:, i]`. */
  function Residual(Y: Matrix, F: Matrix, i: nat): (d: Vector)
    requires |Y| == |F| && HasCols(Y, i + 1) && HasCols(F, i + 1)
    ensures |d| == |Y|
    ensures forall r :: 0 <= r < |Y| ==> d[r] == Y[r][i] - F[r][i]
  {
    Sub(Column(Y, i), Column(F, i))
  }

  /** `norm_error` / `error`: one entry per output column, the infinity norm of its residual. */
  function MaxErrors(Y: Matrix, F: Matrix, m: nat): (e: Vector)
    requires IsMatrix(Y, |Y|, m) && IsMatrix(F, |Y|, m)
    ensures |e| == m
  {
    seq(m, i requires 0 <= i < m => MaxAbs(Residual(Y, F, i)))
  }

  /**
    Each maximum error is non-negative, bounds every residual of its column,
    and (for a non-empty column) is attained by some row.
   */
  lemma MaxErrorBounds(Y: Matrix, F: Matrix, m: nat, i: nat)
    requires IsMatrix(Y, |Y|, m) && IsMatrix(F, |Y|, m) && i < m
    ensures MaxErrors(Y, F, m)[i] >= 0.0
    ensures forall r :: 0 <= r < |Y| ==> Abs(Y[r][i] - F[r][i]) <= MaxErrors(Y, F, m)[i]
    ensures |Y| > 0 ==> exists r :: 0 <= r < |Y| && Abs(Y[r][i] - F[r][i]) == MaxErrors(Y, F, m)[i]
  {
    var d := Residual(Y, F, i);
    if |Y| > 0 {
      var r := MaxAbsAttained(d);
    }
  }

  /**
    `norm_error_a` / `error_a`: one entry per output column, the mean signed
    residual of that column.
   */
  function MeanErrors(Y: Matrix, F: Matrix, m: nat): (e: Vector)
    requires |Y| > 0 && IsMatrix(Y, |Y|, m) && IsMatrix(F, |Y|, m)
    ensures |e| == m
  {
    seq(m, i requires 0 <= i < m => Mean(Residual(Y, F, i)))
  }

  /**
    The two error reports of a column agree: the mean error is no larger in
    magnitude than the maximum error, so it vanishes when the fit
    reproduces the column.
   */
  lemma MeanErrorWithinMaxError(Y: Matrix, F: Matrix, m: nat, i: nat)
    requires |Y| > 0 && IsMatrix(Y, |Y|, m) && IsMatrix(F, |Y|, m) && i < m
    ensures Abs(MeanErrors(Y, F, m)[i]) <= MaxErrors(Y, F, m)[i]
    ensures (forall r :: 0 <= r < |Y| ==> Y[r][i] == F[r][i]) ==> MeanErrors(Y, F, m)[i] == 0.0
  {
    MeanWithinMaxAbs(Residual(Y, F, i));
    MaxErrorsEntry(Y, F, m, i);
    MeanErrorsEntry(Y, F, m, i);
    MaxErrorZeroIff(Y, F, m, i);
  }

  /** A column's maximum error vanishes exactly when the fit reproduces that column. */
  lemma MaxErrorZeroIff(Y: Matrix, F: Matrix, m: nat, i: nat)
    requires |Y| > 0 && IsMatrix(Y, |Y|, m) && IsMatrix(F, |Y|, m) && i < m
    ensures MaxErrors(Y, F, m)[i] == 0.0 <==> forall r :: 0 <= r < |Y| ==> Y[r][i] == F[r][i]
  {
    var d := Residual(Y, F, i);
    MaxAbsZeroIff(d);
    assert forall r :: 0 <= r < |Y| ==> (d[r] == 0.0 <==> Y[r][i] == F[r][i]);
  }

  /**
    Denormalising outputs and predictions with the same extrema scales every
    residual of column i by `max_i - min_i`. With `MaxAbsScaled` and
    `SumScaled` this makes the raw errors `error[i]` and `error_a[i]` the
    normalised ones times the column's range.
   */
  lemma RawResidualScale(Y: Matrix, F: Matrix, lo: Vector, hi: Vector, i: nat)
      returns (d: Vector, d_: Vector)
    requires |lo| == |hi| && IsMatrix(Y, |Y|, |lo|) && IsMatrix(F, |Y|, |lo|) && i < |lo|
    ensures d == Residual(Y, F, i)
    ensures d_ == Residual(DenormM(Y, lo, hi), DenormM(F, lo, hi), i)
    ensures |d_| == |d| && forall r :: 0 <= r < |d| ==> d_[r] == (hi[i] - lo[i]) * d[r]
  {
    d := Residual(Y, F, i);
    d_ := Residual(DenormM(Y, lo, hi), DenormM(F, lo, hi), i);
    forall r | 0 <= r < |d| ensures d_[r] == (hi[i] - lo[i]) * d[r] {
      DenormDifference(Y[r][i], F[r][i], lo[i], hi[i]);
    }
  }

  /**
    The maximum error of the denormalised outputs and predictions is the
    normalised one scaled by the column's range `hi[i] - lo[i]`.
   */
  lemma DenormMaxErrorScale(Y: Matrix, F: Matrix, lo: Vector, hi: Vector, i: nat)
    requires |Y| > 0 && |lo| == |hi| && IsMatrix(Y, |Y|, |lo|) && IsMatrix(F, |Y|, |lo|) && i < |lo|
    requires lo[i] <= hi[i]
    ensures MaxErrors(DenormM(Y, lo, hi), DenormM(F, lo, hi), |lo|)[i] == Times(Spread(lo, hi, i), MaxErrors(Y, F, |lo|)[i])
  {
    var Y_, F_ := DenormM(Y, lo, hi), DenormM(F, lo, hi);
    forall r | 0 <= r < |Y| ensures Y_[r][i] - F_[r][i] == Spread(lo, hi, i) * (Y[r][i] - F[r][i]) {
      DenormDifference(Y[r][i], F[r][i], lo[i], hi[i]);
    }
    ScaledResidualNorm(Y, F, Y_, F_, Spread(lo, hi, i), i);
    MaxErrorsEntry(Y, F, |lo|, i);
    MaxErrorsEntry(Y_, F_, |lo|, i);
  }

  /** Residuals of column i that are all k times the others have k times their infinity norm. */
  lemma ScaledResidualNorm(Y: Matrix, F: Matrix, Y_: Matrix, F_: Matrix, k: real, i: nat)
    requires |Y| > 0 && |F| == |Y| && |Y_| == |Y| && |F_| == |Y| && k >= 0.0
    requires HasCols(Y, i + 1) && HasCols(F, i + 1) && HasCols(Y_, i + 1) && HasCols(F_, i + 1)
    requires forall r :: 0 <= r < |Y| ==> Y_[r][i] - F_[r][i] == k * (Y[r][i] - F[r][i])
    ensures MaxAbs(Residual(Y_, F_, i)) == Times(k, MaxAbs(Residual(Y, F, i)))
  {
    var w := Residual(Y_, F_, i);
    var v := Residual(Y, F, i);
    assert forall r :: 0 <= r < |v| ==> w[r] == k * v[r];
    MaxAbsScaledNorm(w, v, k);
  }

  lemma MaxErrorsEntry(Y: Matrix, F: Matrix, m: nat, i: nat)
    requires IsMatrix(Y, |Y|, m) && IsMatrix(F, |Y|, m) && i < m
    ensures MaxErrors(Y, F, m)[i] == MaxAbs(Residual(Y, F, i))
  {
  }

  lemma MeanErrorsEntry(Y: Matrix, F: Matrix, m: nat, i: nat)
    requires |Y| > 0 && IsMatrix(Y, |Y|, m) && IsMatrix(F, |Y|, m) && i < m
    ensures MeanErrors(Y, F, m)[i] == Mean(Residual(Y, F, i))
  {
  }

  /** Likewise the mean error is the mean normalised residual scaled by the range. */
  lemma DenormMeanErrorScale(Y: Matrix, F: Matrix, lo: Vector, hi: Vector, i: nat)
    requires |Y| > 0 && |lo| == |hi| && IsMatrix(Y, |Y|, |lo|) && IsMatrix(F, |Y|, |lo|) && i < |lo|
    ensures MeanErrors(DenormM(Y, lo, hi), DenormM(F, lo, hi), |lo|)[i] == Times(Spread(lo, hi, i), MeanErrors(Y, F, |lo|)[i])
  {
    var d, d_ := RawResidualScale(Y, F, lo, hi, i);
    MeanScaled(d_, d, Spread(lo, hi, i));
    MeanErrorsEntry(Y, F, |lo|, i);
  }

  lemma DenormDifference(y: real, f: real, lo: real, hi: real)
    ensures DenormValue(y, lo, hi) - DenormValue(f, lo, hi) == (hi - lo) * (y - f)
  {
  }

  lemma DivScale(k: real, s: real, n: real)
    requires n > 0.0
    ensures (k * s) / n == k * (s / n)
  {
  }

  /** Scaling every entry scales the mean. */
  lemma MeanScaled(w: Vector, v: Vector, k: real)
    requires |v| > 0
    requires |w| == |v| && forall i :: 0 <= i < |v| ==> w[i] == k * v[i]
    ensures Mean(w) == Times(k, Mean(v))
  {
    SumScaled(w, v, k);
    DivScale(k, Sum(v), |v| as real);
  }

  /** Scaling every entry scales the sum. */
  lemma {:induction false} SumScaled(w: Vector, v: Vector, k: real)
    requires |w| == |v| && forall i :: 0 <= i < |v| ==> w[i] == k * v[i]
    ensures Sum(w) == k * Sum(v)
  {
    if |v| > 0 {
      var n := |v| - 1;
      assert forall i :: 0 <= i < n ==> w[..n][i] == w[i] && v[..n][i] == v[i];
      SumScaled(w[..n], v[..n], k);
    }
  }

  /** The infinity norm is the unique bound on the magnitudes that one entry attains. */
  lemma MaxAbsUnique(v: Vector, r: real, i: nat)
    requires forall i :: 0 <= i < |v| ==> Abs(v[i]) <= r
    requires i < |v| && Abs(v[i]) == r
    ensures MaxAbs(v) == r
  {
    var j := MaxAbsAttained(v);
  }

  /** Scaling every entry by a non-negative factor scales the infinity norm. */
  lemma MaxAbsScaledNorm(w: Vector, v: Vector, k: real)
    requires k >= 0.0 && |v| > 0
    requires |w| == |v| && forall i :: 0 <= i < |v| ==> w[i] == k * v[i]
    ensures MaxAbs(w) == Times(k, MaxAbs(v))
  {
    var j := MaxAbsAttained(v);
    MaxAbsScaledAt(w, v, k, j);
  }

  /** As `MaxAbsScaledNorm`, given an entry j of `v` attaining its norm. */
  lemma MaxAbsScaledAt(w: Vector, v: Vector, k: real, j: nat)
    requires k >= 0.0 && j < |v| && Abs(v[j]) == MaxAbs(v)
    requires |w| == |v| && forall i :: 0 <= i < |v| ==> w[i] == k * v[i]
    ensures MaxAbs(w) == Times(k, MaxAbs(v))
  {
    ScaledBound(w, v, k, MaxAbs(v), j);
    MaxAbsUnique(w, Times(k, MaxAbs(v)), j);
  }

  lemma ScaledBound(w: Vector, v: Vector, k: real, r: real, j: nat)
    requires k >= 0.0 && j < |v| && Abs(v[j]) == r
    requires forall i :: 0 <= i < |v| ==> Abs(v[i]) <= r
    requires |w| == |v| && forall i :: 0 <= i < |v| ==> w[i] == k * v[i]
    ensures forall i :: 0 <= i < |w| ==> Abs(w[i]) <= Times(k, r)
    ensures Abs(w[j]) == Times(k, r)
  {
    forall i | 0 <= i < |v| ensures Abs(w[i]) <= Times(k, r) {
      AbsScale(v[i], k);
      MulMonotone(k, Abs(v[i]), r);
    }
    AbsScale(v[j], k);
  }

  lemma MulMonotone(k: real, x: real, y: real)
    requires k >= 0.0 && x <= y
    ensures k * x <= k * y
  {
  }

  lemma AbsScale(x: real, k: real)
    requires k >= 0.0
    ensures Abs(k * x) == k * Abs(x)
  {
  }
}
