/**
  Properties of a successful fit, stated in terms of the raw data: how the
  raw-scale errors relate to the normalised ones, what the transformed
  design holds, and what 'average' weights imply for the first layer.
 */
module FitFacts {
  import opened Wrappers
  import opened LinAlg
  import opened Layout
  import opened Links
  import opened Normalize
  import opened Metrics
  import opened Target
  import opened Design
  import opened Layers
  import opened Engine

  /** The output column i of the raw data has a positive range `maxY[i] - minY[i]`. */
  lemma OutputRangePositive(datas: Matrix, cfg: Config, i: nat)
    requires Valid(cfg) && RawData(datas, Total(cfg)) && i < DimY(cfg)
    ensures var vw := DefineNormVectors(datas, cfg);
      vw.minY[i] < vw.maxY[i]
  {
    ColStartStep(cfg, 3);
    var vw := DefineNormVectors(datas, cfg);
    assert vw.minY[i] == ColMin(datas, MX(cfg) + i) && vw.maxY[i] == ColMax(datas, MX(cfg) + i);
  }

  /**
    `built_F_`: the raw maximum error of output column i is the normalised
    one, `norm_error[i]`, scaled by the column's range `maxY[i] - minY[i]`.
   */
  lemma RawMaxErrorScale(R: Reals, solve: Solver, v: Variant, cfg: Config, datas: Matrix,
                         weights: string, polyType: string, split: bool, fit: Fit, i: nat)
    requires Valid(cfg) && RawData(datas, Total(cfg))
    requires FitModel(R, solve, v, cfg, datas, weights, polyType, split) == Success(fit)
    requires i < DimY(cfg)
    ensures var range := Spread(fit.views.minY, fit.views.maxY, i);
      range > 0.0 && fit.error[i] == Times(range, fit.normError[i])
  {
    OutputRangePositive(datas, cfg, i);
    OutputRoundTrip(datas, cfg);
    DenormMaxErrorScale(fit.views.Y, fit.F, fit.views.minY, fit.views.maxY, i);
  }

  /** Likewise the raw mean error is the mean normalised residual scaled by the range. */
  lemma RawMeanErrorScale(R: Reals, solve: Solver, v: Variant, cfg: Config, datas: Matrix,
                          weights: string, polyType: string, split: bool, fit: Fit, i: nat)
    requires Valid(cfg) && RawData(datas, Total(cfg))
    requires FitModel(R, solve, v, cfg, datas, weights, polyType, split) == Success(fit)
    requires i < DimY(cfg)
    ensures fit.errorA[i] == Times(Spread(fit.views.minY, fit.views.maxY, i), MeanErrors(fit.views.Y, fit.F, DimY(cfg))[i])
  {
    OutputRoundTrip(datas, cfg);
    DenormMeanErrorScale(fit.views.Y, fit.F, fit.views.minY, fit.views.maxY, i);
  }

  /**
    The base engine reports the mean normalised residual of column i as
    `norm_error_a[i]`; the custom engines never compute it and leave the
    initial 0.0 in place.
   */
  lemma NormMeanReport(R: Reals, solve: Solver, v: Variant, cfg: Config, datas: Matrix,
                       weights: string, polyType: string, split: bool, fit: Fit, i: nat)
    requires Valid(cfg) && RawData(datas, Total(cfg))
    requires FitModel(R, solve, v, cfg, datas, weights, polyType, split) == Success(fit)
    requires i < DimY(cfg)
    ensures v == Base ==>
      fit.normErrorA.PerColumn? && |fit.normErrorA.means| == DimY(cfg) &&
      fit.normErrorA.means[i] == Mean(Residual(fit.views.Y, fit.F, i))
    ensures v != Base ==> fit.normErrorA == Untouched(0.0)
  {
    if v == Base {
      MeanErrorsEntry(fit.views.Y, fit.F, DimY(cfg), i);
    }
  }

  /** Column i of `B_log` is the log-shifted column i of B. */
  lemma BLogColumn(R: Reals, B: Matrix, m: nat, i: nat)
    requires IsMatrix(B, |B|, m) && i < m
    ensures Column(BLog(R, B), i) == Map(x => LogShift(R, x), Column(B, i))
  {
    var L := BLog(R, B);
    assert forall r :: 0 <= r < |B| ==> Column(L, i)[r] == LogShift(R, B[r][i]);
  }

  /**
    With 'average' weights every output column has the same target column,
    so every output column gets the same lambda and the same Psi.
   */
  lemma AverageSharesFirstLayer(R: Reals, solve: Solver, v: Variant, cfg: Config, datas: Matrix,
                                polyType: string, split: bool, fit: Fit, i: nat, j: nat)
    requires Valid(cfg) && RawData(datas, Total(cfg))
    requires FitModel(R, solve, v, cfg, datas, "average", polyType, split) == Success(fit)
    requires i < DimY(cfg) && j < DimY(cfg)
    ensures fit.layers[i].lamb == fit.layers[j].lamb
    ensures fit.layers[i].psiLog == fit.layers[j].psiLog
    ensures fit.layers[i].psi == fit.layers[j].psi
  {
    var m := DimY(cfg);
    AverageColumnsAgree(fit.views.Y, m, i, j);
    BLogColumn(R, fit.B, m, i);
    BLogColumn(R, fit.B, m, j);
  }

  /** Normalised entry (r, t) of the data is `(datas[r, t] - min_t) / (max_t - min_t)`. */
  lemma NormDataEntry(datas: Matrix, T: nat, r: nat, t: nat)
    requires RawData(datas, T) && r < |datas| && t < T
    ensures ColMin(datas, t) < ColMax(datas, t)
    ensures NormData(datas, T)[r][t] == NormValue(datas[r][t], ColMin(datas, t), ColMax(datas, t))
  {
    NormEntry(datas, T, r, t);
    NormRoundTrip(NormData(datas, T)[r][t], ColMin(datas, t), ColMax(datas, t));
  }

  /** Entry (r, s) of normalised block k is the normalised raw entry at flat column `ColIndex(k, s)`. */
  lemma BlockEntry(datas: Matrix, cfg: Config, r: nat, k: nat, s: nat)
    requires Valid(cfg) && RawData(datas, Total(cfg)) && r < |datas| && k < 3 && s < cfg.dim[k]
    ensures ColIndex(cfg, k, s) < MX(cfg) <= Total(cfg)
    ensures var t := ColIndex(cfg, k, s);
      ColMin(datas, t) < ColMax(datas, t) &&
      DefineNormVectors(datas, cfg).X[k][r][s] == NormValue(datas[r][t], ColMin(datas, t), ColMax(datas, t))
  {
    var T := Total(cfg);
    ColStartStep(cfg, 3);
    BlockAt(NormData(datas, T), cfg, k, r, s);
    NormDataEntry(datas, T, r, ColIndex(cfg, k, s));
  }

  /**
    The transformed design `A_log` at row r, column `DesignIndex(k, s, d)`
    is the pre-transform of the order-d polynomial of the normalised raw
    entry (r, `ColIndex(k, s)`).
   */
  lemma DesignOfData(R: Reals, solve: Solver, v: Variant, cfg: Config, datas: Matrix,
                     weights: string, polyType: string, split: bool, fit: Fit,
                     r: nat, k: nat, s: nat, d: nat)
    requires Valid(cfg) && RawData(datas, Total(cfg))
    requires FitModel(R, solve, v, cfg, datas, weights, polyType, split) == Success(fit)
    requires r < |datas| && k < 3 && s < cfg.dim[k] && d < DegOf(cfg, k)
    ensures fit.poly.Some? && DesignIndex(cfg, k, s, d) < DesignWidth(cfg)
    ensures var t := ColIndex(cfg, k, s);
      ColIndex(cfg, k, s) < Total(cfg) &&
      ColMin(datas, t) < ColMax(datas, t) &&
      fit.ALog[r][DesignIndex(cfg, k, s, d)] ==
        DesignLink(R, v, PolyEval(R, fit.poly.value, d, NormValue(datas[r][t], ColMin(datas, t), ColMax(datas, t))))
  {
    var n := |datas|;
    BlockEntry(datas, cfg, r, k, s);
    var e := DesignEvaluator(fit.poly);
    DesignRowEntry(R, e, cfg, fit.views.X, n, r, k, s, d);
    assert PolyMatrix(R, e, cfg, fit.views.X, n)[r] == DesignRow(R, e, cfg, fit.views.X, n, r);
  }
}
