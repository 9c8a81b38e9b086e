/**
  Block partitioning of the data columns and of the design matrix.

  The raw data has four contiguous column groups X1, X2, X3, Y of widths
  `dim[0..3]`; `dim_integral` holds their running end positions. Every input
  column of block k is expanded into `deg[k] = degrees[k] + 1` design
  columns (polynomial orders 0..degrees[k]), so block k occupies
  `dim[k] * deg[k]` consecutive design columns.
 */
module Layout {

  /** The configured widths `dim` (X1, X2, X3, Y) and maximum degrees (X1, X2, X3). */
  datatype Config = Config(dim: seq<nat>, degrees: seq<nat>)

  predicate Valid(cfg: Config) {
    |cfg.dim| == 4 && |cfg.degrees| == 3
  }

  function NatSum(s: seq<nat>): nat {
    if |s| == 0 then 0 else NatSum(s[..|s| - 1]) + s[|s| - 1]
  }

  /**
    `dim_integral[i] = sum(dim[:i+1])`, built as in the source from the
    prefix sums; it is the running sum of `dim` and never decreases.
   */
  function DimIntegral(dim: seq<nat>): (di: seq<nat>)
    ensures |di| == |dim|
    ensures |dim| > 0 ==> di[0] == dim[0]
    ensures forall i :: 0 < i < |dim| ==> di[i] == di[i - 1] + dim[i]
    ensures forall i, j :: 0 <= i <= j < |dim| ==> di[i] <= di[j]
  {
    var di := seq(|dim|, i requires 0 <= i < |dim| => NatSum(dim[..i + 1]));
    assert forall i :: 0 < i < |dim| ==> dim[..i + 1][..i] == dim[..i];
    assert |dim| > 0 ==> dim[..1][..0] == [] && di[0] == NatSum(dim[..1][..0]) + dim[0];
    RunningSumMonotone(di, dim);
    di
  }

  lemma RunningSumMonotone(di: seq<nat>, dim: seq<nat>)
    requires |di| == |dim|
    requires forall i :: 0 < i < |dim| ==> di[i] == di[i - 1] + dim[i]
    ensures forall i, j :: 0 <= i <= j < |dim| ==> di[i] <= di[j]
  {
    forall i, j | 0 <= i <= j < |dim| ensures di[i] <= di[j] {
      var k := i;
      while k < j
        invariant i <= k <= j
        invariant di[i] <= di[k]
      {
        k := k + 1;
      }
    }
  }

  /** The last entry of `dim_integral` is the total width. */
  lemma {:induction false} DimIntegralTotal(dim: seq<nat>)
    requires |dim| > 0
    ensures DimIntegral(dim)[|dim| - 1] == NatSum(dim)
  {
    assert dim[..|dim|] == dim;
  }

  /** `deg = [d + 1 for d in degrees]`: orders 0..degrees[k] give degrees[k] + 1 columns. */
  function Deg(degrees: seq<nat>): (deg: seq<nat>)
    ensures |deg| == |degrees|
  {
    seq(|degrees|, i requires 0 <= i < |degrees| => degrees[i] + 1)
  }

  /** With one column per order 0..degrees[k], exactly the orders up to `degrees[k]` get a column. */
  lemma DegCoversOrders(degrees: seq<nat>, k: nat, d: nat)
    requires k < |degrees|
    ensures d < Deg(degrees)[k] <==> d <= degrees[k]
  {
  }

  function DI(cfg: Config): seq<nat> { DimIntegral(cfg.dim) }

  function DegOf(cfg: Config, k: nat): nat
    requires Valid(cfg) && k < 3
  {
    Deg(cfg.degrees)[k]
  }

  /** First data column of group k: `dim_integral[k-1]`, or 0 for k = 0. */
  function ColStart(cfg: Config, k: nat): nat
    requires Valid(cfg) && k <= 4
  {
    if k == 0 then 0 else DI(cfg)[k - 1]
  }

  /** Number of input columns `mX = dim_integral[2]`. */
  function MX(cfg: Config): nat
    requires Valid(cfg)
  {
    DI(cfg)[2]
  }

  /** Number of output columns `dim[3]`. */
  function DimY(cfg: Config): nat
    requires Valid(cfg)
  {
    cfg.dim[3]
  }

  /** Total data width `dim_integral[3]`. */
  function Total(cfg: Config): nat
    requires Valid(cfg)
  {
    DI(cfg)[3]
  }

  /** Group k spans exactly `dim[k]` columns, and groups follow each other. */
  lemma ColStartStep(cfg: Config, k: nat)
    requires Valid(cfg) && k < 4
    ensures ColStart(cfg, k + 1) == ColStart(cfg, k) + cfg.dim[k]
    ensures ColStart(cfg, k) <= ColStart(cfg, k + 1) <= Total(cfg)
  {
  }

  /** Index of input column s of block k in a flat feature vector. */
  function ColIndex(cfg: Config, k: nat, s: nat): nat
    requires Valid(cfg) && k < 3
  {
    ColStart(cfg, k) + s
  }

  /** Position of block k in the design matrix: the widths of the blocks before it. */
  function BlockOffset(cfg: Config, k: nat): nat
    requires Valid(cfg) && k <= 3
  {
    if k == 0 then 0 else BlockOffset(cfg, k - 1) + cfg.dim[k - 1] * DegOf(cfg, k - 1)
  }

  /** Width of the design matrix: sum over blocks of dim[k] * deg[k]. */
  function DesignWidth(cfg: Config): nat
    requires Valid(cfg)
  {
    BlockOffset(cfg, 3)
  }

  /** Design column holding order d of input column s of block k. */
  function DesignIndex(cfg: Config, k: nat, s: nat, d: nat): nat
    requires Valid(cfg) && k < 3
  {
    BlockOffset(cfg, k) + s * DegOf(cfg, k) + d
  }

  lemma MulBound(s: nat, p: nat, d: nat, m: nat)
    requires s < m && d < p
    ensures s * p + d < m * p
    ensures s * p + p <= m * p
  {
    assert (s + 1) * p <= m * p;
  }

  /** Every (block, column, order) triple addresses a column inside its block. */
  lemma DesignIndexInBlock(cfg: Config, k: nat, s: nat, d: nat)
    requires Valid(cfg) && k < 3 && s < cfg.dim[k] && d < DegOf(cfg, k)
    ensures BlockOffset(cfg, k) <= DesignIndex(cfg, k, s, d) < BlockOffset(cfg, k + 1)
    ensures DesignIndex(cfg, k, s, 0) + DegOf(cfg, k) <= BlockOffset(cfg, k + 1)
    ensures BlockOffset(cfg, k + 1) <= DesignWidth(cfg)
  {
    MulBound(s, DegOf(cfg, k), d, cfg.dim[k]);
    assert cfg.dim[k] * DegOf(cfg, k) == DegOf(cfg, k) * cfg.dim[k];
    BlockOffsetMonotone(cfg, k + 1, 3);
  }

  lemma BlockOffsetMonotone(cfg: Config, k: nat, k': nat)
    requires Valid(cfg) && k <= k' <= 3
    ensures BlockOffset(cfg, k) <= BlockOffset(cfg, k')
    decreases k' - k
  {
    if k < k' {
      BlockOffsetMonotone(cfg, k, k' - 1);
    }
  }

  /**
    The split points of the multiblock lambda option:
    `boundary_1 = deg[0]*dim[0]`, `boundary_2 = deg[1]*dim[1] + boundary_1`.
    They are where blocks 2 and 3 start in the design matrix.
   */
  function LambdaBoundaries(cfg: Config): (b: (nat, nat))
    requires Valid(cfg)
    ensures b.0 == BlockOffset(cfg, 1) && b.1 == BlockOffset(cfg, 2)
    ensures b.0 <= b.1 <= DesignWidth(cfg)
  {
    var deg := Deg(cfg.degrees);
    var boundary1 := deg[0] * cfg.dim[0];
    var boundary2 := deg[1] * cfg.dim[1] + boundary1;
    (boundary1, boundary2)
  }

  /**
    The unused helper `mA` counts `dim[k] * (deg[k] + 1)` columns per block,
    adding one column too many per input column.
   */
  function MA(cfg: Config): nat
    requires Valid(cfg)
  {
    var deg := Deg(cfg.degrees);
    cfg.dim[0] * (deg[0] + 1) + cfg.dim[1] * (deg[1] + 1) + cfg.dim[2] * (deg[2] + 1)
  }

  /** `mA` exceeds the real design width by exactly the number of input columns. */
  lemma MAOverstatesWidth(cfg: Config)
    requires Valid(cfg)
    ensures MA(cfg) == DesignWidth(cfg) + MX(cfg)
    ensures MX(cfg) > 0 ==> MA(cfg) != DesignWidth(cfg)
  {
    var deg := Deg(cfg.degrees);
    var di := DI(cfg);
    assert di[2] == cfg.dim[0] + cfg.dim[1] + cfg.dim[2];
    assert BlockOffset(cfg, 1) == cfg.dim[0] * deg[0];
    assert BlockOffset(cfg, 2) == cfg.dim[0] * deg[0] + cfg.dim[1] * deg[1];
    assert DesignWidth(cfg) == cfg.dim[0] * deg[0] + cfg.dim[1] * deg[1] + cfg.dim[2] * deg[2];
    assert cfg.dim[0] * (deg[0] + 1) == cfg.dim[0] * deg[0] + cfg.dim[0];
    assert cfg.dim[1] * (deg[1] + 1) == cfg.dim[1] * deg[1] + cfg.dim[1];
    assert cfg.dim[2] * (deg[2] + 1) == cfg.dim[2] * deg[2] + cfg.dim[2];
  }
}
