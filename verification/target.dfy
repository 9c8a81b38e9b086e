/**
  The ways a fit or a forecast can stop, and the target matrix B
  (`built_B`, identical in `Solve`, `SolveExpTh` and `SolveExpTh1`).
 */
module Target {
  import opened Wrappers
  import opened LinAlg
  import opened Links

  /**
    Why the pipeline stops:
    - `UnknownWeights`: `built_B` calls `exit('B not defined')`;
    - `UnknownPolyType`: `poly_func` leaves `poly_f` unset, so `built_A` fails;
    - `EmptyReduction`: the row maximum of an output block with no columns;
    - `NoInputColumns`: `calculate_value` indexes its first-layer values by
      output and input column, but with no input column that array is
      one-dimensional;
    - `BadHorizon`: `build_predicted` cannot write its rows back into `Y_`.
   */
  datatype Fault = UnknownWeights | UnknownPolyType | EmptyReduction | NoInputColumns | BadHorizon

  predicate KnownWeights(weights: string) {
    weights == "average" || weights == "scaled"
  }

  /** `(max(Y[r, :]) + min(Y[r, :])) / 2`, the midpoint of one output row. */
  function RowMidpoint(row: Vector): (mid: real)
    requires |row| > 0
    ensures MinOf(row) <= mid <= MaxOf(row)
  {
    (MaxOf(row) + MinOf(row)) / 2.0
  }

  /**
    `built_B`: 'average' puts each row's midpoint in every one of its `dim[3]`
    columns, 'scaled' is a copy of the normalised outputs, and any other
    strategy stops the fit. A row maximum over zero columns is a numpy error.
   */
  function BuildB(weights: string, Y: Matrix, dimY: nat): (r: Result<Matrix, Fault>)
    requires IsMatrix(Y, |Y|, dimY)
    ensures !KnownWeights(weights) <==> r == Failure(UnknownWeights)
    ensures weights == "average" && dimY == 0 <==> r == Failure(EmptyReduction)
    ensures r.Success? ==> IsMatrix(r.value, |Y|, dimY)
    ensures weights == "scaled" ==> r == Success(Y)
    ensures weights == "average" && r.Success? ==>
      forall i, j :: 0 <= i < |Y| && 0 <= j < dimY ==>
        MinOf(Y[i]) <= r.value[i][j] <= MaxOf(Y[i]) &&
        r.value[i][j] == r.value[i][0]
  {
    if weights == "average" then
      if dimY == 0 then Failure(EmptyReduction)
      else Success(seq(|Y|, i requires 0 <= i < |Y| => seq(dimY, _ => RowMidpoint(Y[i]))))
    else if weights == "scaled" then Success(Y)
    else Failure(UnknownWeights)
  }

  /** Under 'average', entry (i, j) of B is `(max(Y[i]) + min(Y[i])) / 2`. */
  lemma AverageTargetMidpoint(Y: Matrix, dimY: nat, i: nat, j: nat)
    requires IsMatrix(Y, |Y|, dimY) && i < |Y| && j < dimY
    ensures BuildB("average", Y, dimY).Success?
    ensures BuildB("average", Y, dimY).value[i][j] == (MaxOf(Y[i]) + MinOf(Y[i])) / 2.0
  {
  }

  /** The 'average' target is the same for every output column. */
  lemma AverageColumnsAgree(Y: Matrix, dimY: nat, j1: nat, j2: nat)
    requires IsMatrix(Y, |Y|, dimY) && j1 < dimY && j2 < dimY
    ensures var B := BuildB("average", Y, dimY).value;
      Column(B, j1) == Column(B, j2)
  {
  }

  /** `B_log = log(B + 1 + OFFSET)`, entrywise. */
  function BLog(R: Reals, B: Matrix): (L: Matrix)
    ensures |L| == |B|
    ensures forall i :: 0 <= i < |B| ==> |L[i]| == |B[i]|
    ensures forall i, j :: 0 <= i < |B| && 0 <= j < |B[i]| ==> L[i][j] == LogShift(R, B[i][j])
  {
    MapM(x => LogShift(R, x), B)
  }
}
