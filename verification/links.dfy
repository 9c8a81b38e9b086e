/**
  The numeric primitives of the model and the two link families.

  The transcendental functions and the scipy orthogonal-polynomial
  evaluators are uninterpreted: they are fields of a `Reals` record that
  every operation receives, so nothing is assumed about their values.

  Three engines share one pipeline and differ only in the elementwise maps
  applied around each weighted sum:
  - `Base`   (class `Solve`): pre-transform `log(x + 1 + OFFSET)`, layer values
    `exp(s) - 1 - OFFSET`, final value `exp(s) - 1`;
  - `ExpTh`  (class `SolveExpTh`): pre-transform `tanh`, layer values
    `exp(s) - 1`, final value `exp(s) - 1 - OFFSET`;
  - `ExpTh1` (class `SolveExpTh1`): as `ExpTh` with `(2/pi) * arctan` in
    place of `tanh`.
 */
module Links {
  import opened Wrappers
  import opened LinAlg

  /** The scipy evaluators and closed-form maps a polynomial type can select. */
  datatype Evaluator = ShChebyT | ChebyT | ChebyU | ShChebyU | CosMap | ArctgMap

  datatype Transcendentals = Transcendentals(
    exp: real -> real,
    log: real -> real,
    tanh: real -> real,
    arctan: real -> real,
    cos: real -> real,
    pi: real,
    /** scipy's `eval_sh_chebyt`, `eval_chebyt`, `eval_chebyu`, `eval_sh_chebyu` */
    chebyshev: (Evaluator, nat, real) -> real)

  /** Uninterpreted reals; only the sign of pi is known, so that dividing by it is defined. */
  type Reals = r: Transcendentals | r.pi > 0.0
    witness Transcendentals(x => x, x => x, x => x, x => x, x => x, 1.0, (e, d, x) => x)

  /** `Solve.OFFSET = 1e-10`. */
  const Offset: real := 0.0000000001

  datatype Variant = Base | ExpTh | ExpTh1

  /** The polynomial type names recognised by `poly_func`. */
  predicate KnownPolyType(polyType: string) {
    polyType in {"sh_cheb_t", "cheb_t", "cheb_u", "sh_cheb_u", "cos", "arctg"}
  }

  /**
    `poly_func` as written: 'sh_cheb_u' selects the shifted Chebyshev T
    evaluator, the same one as 'sh_cheb_t'. An unknown name leaves the
    evaluator unset.
   */
  function PolyFuncAsWritten(polyType: string): Option<Evaluator> {
    if polyType == "sh_cheb_t" then Some(ShChebyT)
    else if polyType == "cheb_t" then Some(ChebyT)
    else if polyType == "cheb_u" then Some(ChebyU)
    else if polyType == "sh_cheb_u" then Some(ShChebyT)
    else if polyType == "cos" then Some(CosMap)
    else if polyType == "arctg" then Some(ArctgMap)
    else None
  }

  /** Two names select one evaluator, and shifted Chebyshev U is never selected. */
  lemma PolyFuncAsWrittenConflates()
    ensures PolyFuncAsWritten("sh_cheb_u") == PolyFuncAsWritten("sh_cheb_t")
    ensures "sh_cheb_u" != "sh_cheb_t"
    ensures forall t :: PolyFuncAsWritten(t) != Some(ShChebyU)
  {
  }

  /**
    `poly_func` with 'sh_cheb_u' selecting the shifted Chebyshev U evaluator,
    as its comment says. The rest of the model uses this selector.
   */
  function PolyFunc(polyType: string): (e: Option<Evaluator>)
    ensures e.Some? <==> KnownPolyType(polyType)
    ensures polyType != "sh_cheb_u" ==> e == PolyFuncAsWritten(polyType)
  {
    if polyType == "sh_cheb_u" then Some(ShChebyU) else PolyFuncAsWritten(polyType)
  }

  /** The corrected selector gives every recognised name its own evaluator. */
  lemma PolyFuncInjective(t1: string, t2: string)
    requires PolyFunc(t1).Some? && PolyFunc(t1) == PolyFunc(t2)
    ensures t1 == t2
  {
  }

  /** Every evaluator is reachable from some name under the corrected selector. */
  lemma PolyFuncSurjective(e: Evaluator)
    ensures exists t :: PolyFunc(t) == Some(e)
  {
    match e
    case ShChebyT => assert PolyFunc("sh_cheb_t") == Some(e);
    case ChebyT => assert PolyFunc("cheb_t") == Some(e);
    case ChebyU => assert PolyFunc("cheb_u") == Some(e);
    case ShChebyU => assert PolyFunc("sh_cheb_u") == Some(e);
    case CosMap => assert PolyFunc("cos") == Some(e);
    case ArctgMap => assert PolyFunc("arctg") == Some(e);
  }

  /**
    `poly_f(deg, x)`: the Chebyshev evaluators are scipy's; the 'cos' and
    'arctg' maps are `(cos(x) + pi) / (2 pi)` and `(arctan(x) + pi/2) / pi`.
   */
  function PolyEval(R: Reals, e: Evaluator, d: nat, x: real): real {
    match e
    case CosMap => (R.cos(x) + R.pi) / (2.0 * R.pi)
    case ArctgMap => (R.arctan(x) + R.pi / 2.0) / R.pi
    case _ => R.chebyshev(e, d, x)
  }

  /** The 'cos' and 'arctg' maps ignore the degree: all orders of a column coincide. */
  lemma PolyEvalIgnoresDegree(R: Reals, e: Evaluator, d1: nat, d2: nat, x: real)
    requires e == CosMap || e == ArctgMap
    ensures PolyEval(R, e, d1, x) == PolyEval(R, e, d2, x)
  {
  }

  /** `log(x + 1 + OFFSET)`, applied to B, to Y and (in `Base`) to the design matrix. */
  function LogShift(R: Reals, x: real): real {
    R.log(x + 1.0 + Offset)
  }

  /** The pre-transform applied to the design matrix before solving for lambda. */
  function DesignLink(R: Reals, v: Variant, x: real): real {
    match v
    case Base => LogShift(R, x)
    case ExpTh => R.tanh(x)
    case ExpTh1 => (2.0 / R.pi) * R.arctan(x)
  }

  /** Psi and Fi entries from a weighted sum `s` (`built_psi`, `built_F1i` callers). */
  function LayerValue(R: Reals, v: Variant, s: real): real {
    match v
    case Base => R.exp(s) - 1.0 - Offset
    case _ => R.exp(s) - 1.0
  }

  /** What the next layer solves against, given the weighted sum `s`. */
  function LayerInput(R: Reals, v: Variant, s: real): real {
    match v
    case Base => s
    case _ => DesignLink(R, v, LayerValue(R, v, s))
  }

  /** The final prediction F from its weighted sum (`built_F`). */
  function FinalValue(R: Reals, v: Variant, s: real): real {
    match v
    case Base => R.exp(s) - 1.0
    case _ => R.exp(s) - 1.0 - Offset
  }

  /**
    The OFFSET conventions of the two families are opposite: the base engine
    subtracts it from Psi and Fi but not from F, the custom engines from F
    but not from Psi and Fi.
   */
  lemma OffsetConventionsOpposite(R: Reals, v: Variant, s: real)
    requires v != Base
    ensures LayerValue(R, Base, s) + Offset == LayerValue(R, v, s)
    ensures FinalValue(R, Base, s) == FinalValue(R, v, s) + Offset
  {
  }

  /**
    Every layer solves against the pre-transform of the values it reports.
    For the custom engines this holds as written; for the base engine, whose
    next layer takes the raw sum, it holds when log inverts exp at that sum,
    because the subtracted OFFSET is added back by the pre-transform.
   */
  lemma LayerInputIsLinkOfValue(R: Reals, v: Variant, s: real)
    requires v == Base ==> R.log(R.exp(s)) == s
    ensures LayerInput(R, v, s) == DesignLink(R, v, LayerValue(R, v, s))
  {
    if v == Base {
      assert LayerValue(R, v, s) + 1.0 + Offset == R.exp(s);
    }
  }

  /** The elementwise map `aggregate` applies before its dot product. */
  function AggregateLink(R: Reals, v: Variant, x: real): real {
    match v
    case ExpTh => R.tanh(x)
    case _ => LogShift(R, x)
  }

  /**
    `aggregate(values, coeffs) = exp(link(values) . coeffs) - 1`: the
    logarithmic link of `Solve.aggregate`, or `tanh` in `SolveExpTh`;
    `SolveExpTh1` does not override it.
   */
  function Aggregate(R: Reals, v: Variant, values: Vector, coeffs: Vector): real
    requires |values| == |coeffs|
  {
    R.exp(Dot(Map(x => AggregateLink(R, v, x), values), coeffs)) - 1.0
  }

  /** `SolveExpTh1` predicts with the logarithmic aggregate of the base class. */
  lemma ExpTh1AggregatesLikeBase(R: Reals, values: Vector, coeffs: Vector)
    requires |values| == |coeffs|
    ensures Aggregate(R, ExpTh1, values, coeffs) == Aggregate(R, Base, values, coeffs)
  {
    assert Map(x => AggregateLink(R, ExpTh1, x), values) == Map(x => AggregateLink(R, Base, x), values);
  }

  /**
    `aggregate` relates to the fitting layers: for `SolveExpTh` it is one
    fitting layer (pre-transform, weighted sum, layer value); for `Solve` it
    is a fitting layer without the OFFSET subtraction.
   */
  lemma AggregateIsLayer(R: Reals, v: Variant, values: Vector, coeffs: Vector)
    requires v != ExpTh1 && |values| == |coeffs|
    ensures var s := Dot(Map(x => DesignLink(R, v, x), values), coeffs);
      Aggregate(R, v, values, coeffs) == LayerValue(R, v, s) + (if v == Base then Offset else 0.0)
  {
    assert Map(x => AggregateLink(R, v, x), values) == Map(x => DesignLink(R, v, x), values);
  }
}
