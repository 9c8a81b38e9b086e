/**
  Column-wise min/max rescaling of the data (`norm_data`), its inverse
  (`built_F_`, `calculate_value`), and the views of `define_norm_vectors`:
  the three input blocks, the output block, and the per-column extrema.
 */
module Normalize {
  import opened LinAlg
  import opened Layout

  function ColMin(M: Matrix, j: nat): real
    requires |M| > 0 && HasCols(M, j + 1)
  {
    MinOf(Column(M, j))
  }

  function ColMax(M: Matrix, j: nat): real
    requires |M| > 0 && HasCols(M, j + 1)
  {
    MaxOf(Column(M, j))
  }

  /**
    Every one of the first `m` columns takes at least two values. `norm_data`
    divides by `max - min` unguarded, so a constant column is outside the
    model.
   */
  predicate NonConstant(M: Matrix, m: nat)
    requires |M| > 0 && HasCols(M, m)
  {
    forall j :: 0 <= j < m ==> ColMin(M, j) < ColMax(M, j)
  }

  /** The raw data: `n >= 1` rows of `m` columns, none constant. */
  predicate RawData(datas: Matrix, m: nat) {
    |datas| > 0 && IsMatrix(datas, |datas|, m) && NonConstant(datas, m)
  }

  function NormValue(x: real, lo: real, hi: real): real
    requires lo < hi
  {
    (x - lo) / (hi - lo)
  }

  function DenormValue(y: real, lo: real, hi: real): real {
    y * (hi - lo) + lo
  }

  /** Rescaling and its inverse undo each other, in both orders. */
  lemma NormRoundTrip(x: real, lo: real, hi: real)
    requires lo < hi
    ensures DenormValue(NormValue(x, lo, hi), lo, hi) == x
    ensures NormValue(DenormValue(x, lo, hi), lo, hi) == x
  {
  }

  /** A value between the extrema rescales into [0, 1]; the extrema go to 0 and 1. */
  lemma NormValueBounds(x: real, lo: real, hi: real)
    requires lo < hi && lo <= x <= hi
    ensures 0.0 <= NormValue(x, lo, hi) <= 1.0
    ensures x == lo ==> NormValue(x, lo, hi) == 0.0
    ensures x == hi ==> NormValue(x, lo, hi) == 1.0
  {
    DivBounds(x - lo, hi - lo);
  }

  lemma DivBounds(a: real, b: real)
    requires b > 0.0 && 0.0 <= a <= b
    ensures 0.0 <= a / b <= 1.0
  {
  }

  /**
    `norm_data`: entry (i, j) becomes `(datas[i,j] - min_j) / (max_j - min_j)`.
    Every normalised entry lies in [0, 1] and scaling back by the column's
    extrema recovers the raw entry.
   */
  function NormData(datas: Matrix, m: nat): (data: Matrix)
    requires RawData(datas, m)
    ensures IsMatrix(data, |datas|, m)
    ensures forall i, j :: 0 <= i < |datas| && 0 <= j < m ==> 0.0 <= data[i][j] <= 1.0
    ensures forall i, j :: 0 <= i < |datas| && 0 <= j < m ==>
      DenormValue(data[i][j], ColMin(datas, j), ColMax(datas, j)) == datas[i][j]
  {
    var data := seq(|datas|, i requires 0 <= i < |datas| =>
      seq(m, j requires 0 <= j < m => NormValue(datas[i][j], ColMin(datas, j), ColMax(datas, j))));
    assert forall i, j :: 0 <= i < |datas| && 0 <= j < m ==>
      data[i][j] == NormValue(datas[i][j], ColMin(datas, j), ColMax(datas, j));
    NormDataFacts(datas, m, data);
    data
  }

  lemma NormDataFacts(datas: Matrix, m: nat, data: Matrix)
    requires RawData(datas, m) && IsMatrix(data, |datas|, m)
    requires forall i, j :: 0 <= i < |datas| && 0 <= j < m ==>
      data[i][j] == NormValue(datas[i][j], ColMin(datas, j), ColMax(datas, j))
    ensures forall i, j :: 0 <= i < |datas| && 0 <= j < m ==> 0.0 <= data[i][j] <= 1.0
    ensures forall i, j :: 0 <= i < |datas| && 0 <= j < m ==>
      DenormValue(data[i][j], ColMin(datas, j), ColMax(datas, j)) == datas[i][j]
  {
    forall i, j | 0 <= i < |datas| && 0 <= j < m
      ensures 0.0 <= data[i][j] <= 1.0
    {
      NormEntry(datas, m, i, j);
    }
    forall i, j | 0 <= i < |datas| && 0 <= j < m
      ensures DenormValue(data[i][j], ColMin(datas, j), ColMax(datas, j)) == datas[i][j]
    {
      NormEntry(datas, m, i, j);
    }
  }

  lemma NormEntry(datas: Matrix, m: nat, i: nat, j: nat)
    requires RawData(datas, m) && i < |datas| && j < m
    ensures var lo, hi := ColMin(datas, j), ColMax(datas, j);
      lo < hi && 0.0 <= NormValue(datas[i][j], lo, hi) <= 1.0 &&
      DenormValue(NormValue(datas[i][j], lo, hi), lo, hi) == datas[i][j]
  {
    var lo, hi := ColMin(datas, j), ColMax(datas, j);
    assert Column(datas, j)[i] == datas[i][j];
    assert lo <= datas[i][j] <= hi && lo < hi;
    NormValueBounds(datas[i][j], lo, hi);
    NormRoundTrip(datas[i][j], lo, hi);
  }

  /** Each normalised column reaches both 0 (at its minimum) and 1 (at its maximum). */
  lemma NormDataAttainsExtremes(datas: Matrix, m: nat, j: nat)
    requires RawData(datas, m) && j < m
    ensures exists i :: 0 <= i < |datas| && NormData(datas, m)[i][j] == 0.0
    ensures exists i :: 0 <= i < |datas| && NormData(datas, m)[i][j] == 1.0
  {
    var data := NormData(datas, m);
    var lo, hi := ColMin(datas, j), ColMax(datas, j);
    var col := Column(datas, j);
    var i0 :| 0 <= i0 < |col| && col[i0] == lo;
    var i1 :| 0 <= i1 < |col| && col[i1] == hi;
    NormValueBounds(datas[i0][j], lo, hi);
    NormValueBounds(datas[i1][j], lo, hi);
    NormRoundTrip(datas[i0][j], lo, hi);
    NormRoundTrip(datas[i1][j], lo, hi);
    assert DenormValue(data[i0][j], lo, hi) == lo;
    assert DenormValue(data[i1][j], lo, hi) == hi;
    ZeroOneFromDenorm(data[i0][j], data[i1][j], lo, hi);
  }

  lemma ZeroOneFromDenorm(y0: real, y1: real, lo: real, hi: real)
    requires lo < hi
    requires DenormValue(y0, lo, hi) == lo && DenormValue(y1, lo, hi) == hi
    ensures y0 == 0.0 && y1 == 1.0
  {
    NormRoundTrip(y0, lo, hi);
    NormRoundTrip(y1, lo, hi);
    NormValueBounds(lo, lo, hi);
    NormValueBounds(hi, lo, hi);
  }

  /** Per-column minima of the first `m` raw columns (`minX`, `minY`). */
  function ColMins(datas: Matrix, lo: nat, hi: nat): (mins: Vector)
    requires |datas| > 0 && HasCols(datas, hi) && lo <= hi
    ensures |mins| == hi - lo
    ensures forall j :: 0 <= j < hi - lo ==> mins[j] == ColMin(datas, lo + j)
  {
    seq(hi - lo, j requires 0 <= j < hi - lo => ColMin(datas, lo + j))
  }

  function ColMaxs(datas: Matrix, lo: nat, hi: nat): (maxs: Vector)
    requires |datas| > 0 && HasCols(datas, hi) && lo <= hi
    ensures |maxs| == hi - lo
    ensures forall j :: 0 <= j < hi - lo ==> maxs[j] == ColMax(datas, lo + j)
  {
    seq(hi - lo, j requires 0 <= j < hi - lo => ColMax(datas, lo + j))
  }

  /** The range `maxs[j] - mins[j]` of column j, the factor denormalisation scales by. */
  function Spread(mins: Vector, maxs: Vector, j: nat): real
    requires j < |mins| && j < |maxs|
  {
    maxs[j] - mins[j]
  }

  /** `F * (maxY - minY) + minY`, column by column. */
  function DenormM(F: Matrix, mins: Vector, maxs: Vector): (G: Matrix)
    requires |mins| == |maxs| && IsMatrix(F, |F|, |mins|)
    ensures IsMatrix(G, |F|, |mins|)
    ensures forall i, j :: 0 <= i < |F| && 0 <= j < |mins| ==>
      G[i][j] == DenormValue(F[i][j], mins[j], maxs[j])
  {
    seq(|F|, i requires 0 <= i < |F| =>
      seq(|mins|, j requires 0 <= j < |mins| => DenormValue(F[i][j], mins[j], maxs[j])))
  }

  /**
    Denormalisation undoes `norm_data`: a matrix whose entries are the
    rescaled entries of G, column by column with the extrema of G's
    columns, is mapped back to G.
   */
  lemma DenormMUndoesNorm(F: Matrix, G: Matrix, mins: Vector, maxs: Vector)
    requires |mins| == |maxs| && IsMatrix(G, |G|, |mins|) && IsMatrix(F, |G|, |mins|)
    requires forall j :: 0 <= j < |mins| ==> mins[j] < maxs[j]
    requires forall i, j :: 0 <= i < |G| && 0 <= j < |mins| ==> F[i][j] == NormValue(G[i][j], mins[j], maxs[j])
    ensures DenormM(F, mins, maxs) == G
  {
    var H := DenormM(F, mins, maxs);
    forall i | 0 <= i < |G| ensures H[i] == G[i] {
      forall j | 0 <= j < |mins| ensures H[i][j] == G[i][j] {
        NormRoundTrip(G[i][j], mins[j], maxs[j]);
      }
    }
  }

  /** The views built by `define_norm_vectors`. */
  datatype Views = Views(
    X: seq<Matrix>,    // normalised blocks X1, X2, X3
    Y: Matrix,         // normalised outputs
    rawX: seq<Matrix>, // raw blocks X_
    rawY: Matrix,      // raw outputs Y_
    minX: Vector, maxX: Vector, minY: Vector, maxY: Vector)

  /** The block `M[:, dim_integral[k-1]:dim_integral[k]]` (from 0 for k = 0). */
  function Block(M: Matrix, cfg: Config, k: nat): (B: Matrix)
    requires Valid(cfg) && k < 4 && HasCols(M, Total(cfg))
    ensures IsMatrix(B, |M|, cfg.dim[k])
  {
    ColStartStep(cfg, k);
    SliceCols(M, ColStart(cfg, k), ColStart(cfg, k + 1))
  }

  /** Entry (r, s) of block k is entry (r, `ColIndex(k, s)`) of the whole matrix. */
  lemma BlockAt(M: Matrix, cfg: Config, k: nat, r: nat, s: nat)
    requires Valid(cfg) && k < 3 && HasCols(M, Total(cfg)) && r < |M| && s < cfg.dim[k]
    ensures ColIndex(cfg, k, s) < MX(cfg)
    ensures Block(M, cfg, k)[r][s] == M[r][ColIndex(cfg, k, s)]
  {
    ColStartStep(cfg, k);
    ColStartStep(cfg, 3);
    if k < 2 {
      ColStartStep(cfg, k + 1);
    }
    assert M[r][ColStart(cfg, k)..ColStart(cfg, k + 1)][s] == M[r][ColStart(cfg, k) + s];
  }

  /** `define_norm_vectors`, on raw data whose width is `dim_integral[3]`. */
  function DefineNormVectors(datas: Matrix, cfg: Config): (vw: Views)
    requires Valid(cfg) && RawData(datas, Total(cfg))
    ensures |vw.X| == 3 && |vw.rawX| == 3
    ensures forall k :: 0 <= k < 3 ==> vw.X[k] == Block(NormData(datas, Total(cfg)), cfg, k)
    ensures forall k :: 0 <= k < 3 ==> vw.rawX[k] == Block(datas, cfg, k)
    ensures vw.Y == Block(NormData(datas, Total(cfg)), cfg, 3)
    ensures vw.rawY == Block(datas, cfg, 3)
    ensures |vw.minX| == |vw.maxX| == MX(cfg) && |vw.minY| == |vw.maxY| == DimY(cfg)
  {
    var data := NormData(datas, Total(cfg));
    ColStartStep(cfg, 3);
    Views(
      [Block(data, cfg, 0), Block(data, cfg, 1), Block(data, cfg, 2)],
      Block(data, cfg, 3),
      [Block(datas, cfg, 0), Block(datas, cfg, 1), Block(datas, cfg, 2)],
      Block(datas, cfg, 3),
      ColMins(datas, 0, MX(cfg)), ColMaxs(datas, 0, MX(cfg)),
      ColMins(datas, MX(cfg), Total(cfg)), ColMaxs(datas, MX(cfg), Total(cfg)))
  }

  /**
    The views of `define_norm_vectors`, entry by entry: `X_[k]` and `Y_` read
    the raw data at the flat column of the entry, and `X[k]` and `Y` read the
    rescaled data there.
   */
  lemma ViewsEntries(datas: Matrix, cfg: Config, r: nat, k: nat, s: nat, i: nat)
    requires Valid(cfg) && RawData(datas, Total(cfg)) && r < |datas|
    requires k < 3 && s < cfg.dim[k] && i < DimY(cfg)
    ensures ColIndex(cfg, k, s) < MX(cfg) && MX(cfg) + i < Total(cfg)
    ensures var vw := DefineNormVectors(datas, cfg);
      && vw.rawX[k][r][s] == datas[r][ColIndex(cfg, k, s)]
      && vw.X[k][r][s] == NormData(datas, Total(cfg))[r][ColIndex(cfg, k, s)]
      && vw.rawY[r][i] == datas[r][MX(cfg) + i]
      && vw.Y[r][i] == NormData(datas, Total(cfg))[r][MX(cfg) + i]
  {
    ColStartStep(cfg, 3);
    assert ColStart(cfg, 3) == MX(cfg) && ColStart(cfg, 4) == Total(cfg);
    var vw := DefineNormVectors(datas, cfg);
    var data := NormData(datas, Total(cfg));
    BlockAt(datas, cfg, k, r, s);
    BlockAt(data, cfg, k, r, s);
    OutputBlockAt(datas, cfg, r, i);
    OutputBlockAt(data, cfg, r, i);
    assert vw.rawX[k] == Block(datas, cfg, k) && vw.X[k] == Block(data, cfg, k);
  }

  /** Entry (r, i) of the output block is entry (r, `mX + i`) of the whole matrix. */
  lemma OutputBlockAt(M: Matrix, cfg: Config, r: nat, i: nat)
    requires Valid(cfg) && HasCols(M, Total(cfg)) && r < |M| && i < DimY(cfg)
    ensures MX(cfg) + i < Total(cfg)
    ensures Block(M, cfg, 3)[r][i] == M[r][MX(cfg) + i]
  {
    ColStartStep(cfg, 3);
    assert ColStart(cfg, 3) == MX(cfg) && ColStart(cfg, 4) == Total(cfg);
    assert M[r][MX(cfg)..Total(cfg)][i] == M[r][MX(cfg) + i];
  }

  /**
    The extrema `define_norm_vectors` stores are the minimum and maximum of
    each raw input column and of each raw output column, the minimum below
    the maximum.
   */
  lemma NormVectorsExtrema(datas: Matrix, cfg: Config)
    requires Valid(cfg) && RawData(datas, Total(cfg))
    ensures var vw := DefineNormVectors(datas, cfg);
      forall t :: 0 <= t < MX(cfg) ==>
        vw.minX[t] == ColMin(datas, t) && vw.maxX[t] == ColMax(datas, t) && vw.minX[t] < vw.maxX[t]
    ensures var vw := DefineNormVectors(datas, cfg);
      forall i :: 0 <= i < DimY(cfg) ==>
        MX(cfg) + i < Total(cfg) &&
        vw.minY[i] == ColMin(datas, MX(cfg) + i) && vw.maxY[i] == ColMax(datas, MX(cfg) + i) &&
        vw.minY[i] < vw.maxY[i]
  {
    ColStartStep(cfg, 3);
    assert ColStart(cfg, 3) == MX(cfg) && ColStart(cfg, 4) == Total(cfg);
    StoredExtrema(datas, cfg);
    BlockExtremaOrdered(datas, Total(cfg), 0, MX(cfg));
    BlockExtremaOrdered(datas, Total(cfg), MX(cfg), Total(cfg));
  }

  /** The stored extrema are the per-column extrema of the raw input and output blocks. */
  lemma StoredExtrema(datas: Matrix, cfg: Config)
    requires Valid(cfg) && RawData(datas, Total(cfg))
    ensures var vw := DefineNormVectors(datas, cfg);
      && vw.minX == ColMins(datas, 0, MX(cfg)) && vw.maxX == ColMaxs(datas, 0, MX(cfg))
      && vw.minY == ColMins(datas, MX(cfg), Total(cfg)) && vw.maxY == ColMaxs(datas, MX(cfg), Total(cfg))
  {
    ColStartStep(cfg, 3);
  }

  /** Over a non-constant block of columns, each column minimum is below its maximum. */
  lemma BlockExtremaOrdered(datas: Matrix, T: nat, lo: nat, hi: nat)
    requires RawData(datas, T) && lo <= hi <= T
    ensures forall j :: 0 <= j < hi - lo ==> ColMins(datas, lo, hi)[j] < ColMaxs(datas, lo, hi)[j]
  {
    forall j | 0 <= j < hi - lo
      ensures ColMins(datas, lo, hi)[j] < ColMaxs(datas, lo, hi)[j]
    {
      assert ColMin(datas, lo + j) < ColMax(datas, lo + j);
    }
  }

  /**
    Denormalising the normalised outputs with the stored output extrema gives
    back the raw outputs `Y_`.
   */
  lemma OutputRoundTrip(datas: Matrix, cfg: Config)
    requires Valid(cfg) && RawData(datas, Total(cfg))
    ensures var vw := DefineNormVectors(datas, cfg);
      DenormM(vw.Y, vw.minY, vw.maxY) == vw.rawY
  {
    ColStartStep(cfg, 3);
    var T := Total(cfg);
    BlockRoundTrip(datas, NormData(datas, T), T, MX(cfg));
  }

  lemma BlockRoundTrip(datas: Matrix, data: Matrix, T: nat, lo: nat)
    requires RawData(datas, T) && lo <= T
    requires data == NormData(datas, T)
    ensures DenormM(SliceCols(data, lo, T), ColMins(datas, lo, T), ColMaxs(datas, lo, T))
      == SliceCols(datas, lo, T)
  {
    var G := DenormM(SliceCols(data, lo, T), ColMins(datas, lo, T), ColMaxs(datas, lo, T));
    var H := SliceCols(datas, lo, T);
    forall i | 0 <= i < |datas| ensures G[i] == H[i] {
      forall j | 0 <= j < T - lo ensures G[i][j] == H[i][j] {
        assert SliceCols(data, lo, T)[i][j] == data[i][lo + j];
        assert H[i][j] == datas[i][lo + j];
      }
    }
  }
}
