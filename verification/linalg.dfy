/**
  Dense real vectors and row-major matrices, with the reductions the
  regression pipeline uses: dot products over index ranges, column
  extraction and slicing, minimum, maximum, infinity norm and mean.
 */
module LinAlg {

  type Vector = seq<real>
  type Matrix = seq<seq<real>>

  /** `M` has `rows` rows of `cols` entries each. */
  predicate IsMatrix(M: Matrix, rows: nat, cols: nat) {
    |M| == rows && forall i :: 0 <= i < rows ==> |M[i]| == cols
  }

  /** Every row of `M` has at least `cols` entries. */
  predicate HasCols(M: Matrix, cols: nat) {
    forall i :: 0 <= i < |M| ==> cols <= |M[i]|
  }

  /** Number of columns, read off the first row (numpy's `shape[1]`). */
  function Width(M: Matrix): nat {
    if |M| == 0 then 0 else |M[0]|
  }

  function Column(M: Matrix, j: nat): (col: Vector)
    requires HasCols(M, j + 1)
    ensures |col| == |M|
    ensures forall i :: 0 <= i < |M| ==> col[i] == M[i][j]
  {
    seq(|M|, i requires 0 <= i < |M| => M[i][j])
  }

  /** The sub-matrix `M[:, lo:hi]`. */
  function SliceCols(M: Matrix, lo: nat, hi: nat): (S: Matrix)
    requires lo <= hi && HasCols(M, hi)
    ensures IsMatrix(S, |M|, hi - lo)
    ensures forall i :: 0 <= i < |M| ==> S[i] == M[i][lo..hi]
  {
    seq(|M|, i requires 0 <= i < |M| => M[i][lo..hi])
  }

  /** Elementwise application of a scalar map. */
  function Map(f: real -> real, v: Vector): (w: Vector)
    ensures |w| == |v|
    ensures forall i :: 0 <= i < |v| ==> w[i] == f(v[i])
  {
    seq(|v|, i requires 0 <= i < |v| => f(v[i]))
  }

  function MapM(f: real -> real, M: Matrix): (W: Matrix)
    ensures |W| == |M|
    ensures forall i :: 0 <= i < |M| ==> W[i] == Map(f, M[i])
  {
    seq(|M|, i requires 0 <= i < |M| => Map(f, M[i]))
  }

  function Sub(u: Vector, v: Vector): (w: Vector)
    requires |u| == |v|
    ensures |w| == |u|
    ensures forall i :: 0 <= i < |u| ==> w[i] == u[i] - v[i]
  {
    seq(|u|, i requires 0 <= i < |u| => u[i] - v[i])
  }

  function Sum(v: Vector): real {
    if |v| == 0 then 0.0 else Sum(v[..|v| - 1]) + v[|v| - 1]
  }

  function Dot(u: Vector, v: Vector): real
    requires |u| == |v|
  {
    if |u| == 0 then 0.0 else u[0] * v[0] + Dot(u[1..], v[1..])
  }

  /** A dot product over a concatenation splits into the dot products of the parts. */
  lemma {:induction false} DotAppend(u1: Vector, u2: Vector, v1: Vector, v2: Vector)
    requires |u1| == |v1| && |u2| == |v2|
    ensures Dot(u1 + u2, v1 + v2) == Dot(u1, v1) + Dot(u2, v2)
  {
    if |u1| > 0 {
      assert (u1 + u2)[1..] == u1[1..] + u2;
      assert (v1 + v2)[1..] == v1[1..] + v2;
      DotAppend(u1[1..], u2, v1[1..], v2);
    } else {
      assert u1 + u2 == u2;
      assert v1 + v2 == v2;
    }
  }

  /**
    The product `k * x` as a named function: products whose factors are
    equal are then equal by congruence alone, without arithmetic.
   */
  function Times(k: real, x: real): real {
    k * x
  }

  function Abs(x: real): real {
    if x < 0.0 then -x else x
  }

  function MinOf(v: Vector): (r: real)
    requires |v| > 0
    ensures forall i :: 0 <= i < |v| ==> r <= v[i]
    ensures exists i :: 0 <= i < |v| && v[i] == r
  {
    if |v| == 1 then v[0]
    else
      var m := MinOf(v[..|v| - 1]);
      assert forall i :: 0 <= i < |v| - 1 ==> v[..|v| - 1][i] == v[i];
      if v[|v| - 1] < m then v[|v| - 1] else m
  }

  function MaxOf(v: Vector): (r: real)
    requires |v| > 0
    ensures forall i :: 0 <= i < |v| ==> v[i] <= r
    ensures exists i :: 0 <= i < |v| && v[i] == r
  {
    if |v| == 1 then v[0]
    else
      var m := MaxOf(v[..|v| - 1]);
      assert forall i :: 0 <= i < |v| - 1 ==> v[..|v| - 1][i] == v[i];
      if v[|v| - 1] > m then v[|v| - 1] else m
  }

  /**
    The infinity norm `max_i |v[i]|` (numpy's `norm(v, inf)`): it bounds
    every entry's magnitude, and `MaxAbsAttained` names an entry attaining it.
   */
  function MaxAbs(v: Vector): (r: real)
    ensures r >= 0.0
    ensures forall i :: 0 <= i < |v| ==> Abs(v[i]) <= r
  {
    if |v| == 0 then 0.0
    else
      var m := MaxAbs(v[..|v| - 1]);
      assert forall i :: 0 <= i < |v| - 1 ==> v[..|v| - 1][i] == v[i];
      if Abs(v[|v| - 1]) > m then Abs(v[|v| - 1]) else m
  }

  /** A non-empty vector has an entry whose magnitude is its infinity norm. */
  lemma {:induction false} MaxAbsAttained(v: Vector) returns (j: nat)
    requires |v| > 0
    ensures j < |v| && Abs(v[j]) == MaxAbs(v)
  {
    var n := |v| - 1;
    assert forall i :: 0 <= i < n ==> v[..n][i] == v[i];
    if n == 0 || Abs(v[n]) > MaxAbs(v[..n]) {
      j := n;
    } else {
      j := MaxAbsAttained(v[..n]);
    }
  }

  /** The infinity norm vanishes exactly on the zero vector. */
  lemma MaxAbsZeroIff(v: Vector)
    requires |v| > 0
    ensures MaxAbs(v) == 0.0 <==> forall i :: 0 <= i < |v| ==> v[i] == 0.0
  {
    if MaxAbs(v) == 0.0 {
      forall i | 0 <= i < |v| ensures v[i] == 0.0 {
        assert Abs(v[i]) <= 0.0;
      }
    } else {
      var i := MaxAbsAttained(v);
    }
  }

  /** Mean of a non-empty vector (numpy's `mean`). */
  function Mean(v: Vector): real
    requires |v| > 0
  {
    Sum(v) / (|v| as real)
  }

  /** Entries of magnitude at most m sum to magnitude at most `|v| * m`. */
  lemma {:induction false} SumBounded(v: Vector, m: real)
    requires forall i :: 0 <= i < |v| ==> Abs(v[i]) <= m
    ensures Abs(Sum(v)) <= (|v| as real) * m
  {
    if |v| > 0 {
      var n := |v| - 1;
      assert forall i :: 0 <= i < n ==> v[..n][i] == v[i];
      SumBounded(v[..n], m);
      AddBound(Sum(v[..n]), v[n], n as real, m);
    }
  }

  lemma AddBound(a: real, b: real, k: real, m: real)
    requires Abs(a) <= k * m && Abs(b) <= m
    ensures Abs(a + b) <= (k + 1.0) * m
  {
    assert (k + 1.0) * m == k * m + m;
  }

  /** The mean of a vector is no larger in magnitude than its infinity norm. */
  lemma MeanWithinMaxAbs(v: Vector)
    requires |v| > 0
    ensures Abs(Mean(v)) <= MaxAbs(v)
  {
    var k := |v| as real;
    SumBounded(v, MaxAbs(v));
    QuotientBound(Sum(v), k, MaxAbs(v));
  }

  lemma QuotientBound(s: real, k: real, m: real)
    requires k > 0.0 && Abs(s) <= k * m
    ensures Abs(s / k) <= m
  {
    assert s / k * k == s;
    if s >= 0.0 {
      assert s / k >= 0.0;
    } else {
      assert s / k < 0.0;
    }
  }
}
