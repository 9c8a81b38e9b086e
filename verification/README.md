# Additive three-layer regression (sa_lab3), modelled in Dafny

This project models the numeric pipeline of the `Solve` class (`solve.py`)
and of its two overrides, `SolveExpTh` and `SolveExpTh1` (`solve_custom.py`).
The pipeline fits a three-layer additive regression. The raw data has three
input blocks X1, X2, X3 and one output block Y. Each input column is rescaled
to [0, 1] and expanded into polynomial orders 0..degrees[k]. Three layers of
least-squares coefficients are then fitted:

- lambda, against the transformed design `A_log`;
- a, against the per-input-column sums Psi;
- c, against the per-block sums Fi.

The fitted model predicts a query (`calculate_value`). It also predicts from
per-column forecasts written over the tail of the outputs (`build_predicted`).

Numbers are Dafny `real`s. exp, log, tanh, arctan, cos, pi and the scipy
Chebyshev evaluators are uninterpreted fields of a `Reals` record. The
least-squares routine `_minimize_equation` is a `Solver` parameter: all that
is known of it is one coefficient per matrix column. The ARIMA `forecast` is
a `Forecaster` parameter that returns `horizon` values. The three engines are
the constructors `Base`, `ExpTh` and `ExpTh1` of `Links.Variant`. They share
one pipeline and differ only in the elementwise maps around each weighted sum
and in where `OFFSET = 1e-10` is subtracted.

Modules, in dependency order:

- `Wrappers`: `Option` and `Result`.
- `LinAlg`: vectors, matrices, dot products, the infinity norm and the mean.
- `Layout`: `dim_integral`, `deg`, block offsets and design indices.
- `Links`: `poly_func` and the link maps of the three engines.
- `Normalize`: `norm_data` and `define_norm_vectors`.
- `Target`: `built_B` and the failure reasons.
- `Design`: `built_A`.
- `Layers`: `lamb`, `psi`, `built_a`, `built_F1i`.
- `Metrics`: `built_F` and `built_F_` errors.
- `Engine`: `prepare`, the whole fit.
- `FitFacts`: properties of a fit.
- `Predict`: `calculate_value`.
- `Forecast`: `build_predicted`.
- `Parity`: prediction of a training row against the fit.

## Model

| member | source | states |
|---|---|---|
| Layout.DimIntegral | solve.py:36 | `dim_integral[0] = dim[0]`, and each later entry adds the next width, so it is the running sum. It never decreases. |
| Layout.LambdaBoundaries | solve.py:188-193 | `boundary_1` and `boundary_2` are the design positions where blocks 2 and 3 start. They are ordered and within the design width. |
| Layout.MAOverstatesWidth | solve.py:144-153 | The unused helper `mA` exceeds the real design width by exactly `mX`. It is therefore wrong whenever there is an input column. |
| Layout.DesignIndexInBlock | solve.py:166-186 | Every (block, input column, order) position lies inside its block's range of design columns, and the blocks lie within the design. |
| Links.PolyFuncAsWrittenConflates | solve.py:119-134 | As written, 'sh_cheb_u' selects the same evaluator as 'sh_cheb_t', and no name selects shifted Chebyshev U. |
| Links.PolyFunc | solve.py:114-134 | An evaluator is chosen exactly for the six known names. Every name except 'sh_cheb_u' gets the source's choice. |
| Links.PolyFuncInjective | solve.py:114-134 | The corrected selector gives different names different evaluators. |
| Links.PolyFuncSurjective | solve.py:114-134 | Every evaluator is reachable from some name. |
| Links.PolyEvalIgnoresDegree | solve.py:131-134 | The 'cos' and 'arctg' maps give the same value for every order, so all design columns of one input coincide. |
| Links.OffsetConventionsOpposite | solve.py:226 | Psi and Fi of the custom engines exceed the base ones by OFFSET; the base F exceeds the custom F by OFFSET. Also cited: solve.py:263, solve.py:277 and solve_custom.py:125, 164, 177. |
| Links.LayerInputIsLinkOfValue | solve_custom.py:120-126 | Each custom layer solves against the tanh or arctan of the values it reports. The base engine does the same when log inverts exp. |
| Links.ExpTh1AggregatesLikeBase | solve.py:458-459 | `SolveExpTh1` does not override `aggregate`, so its aggregate equals the base one on every input. |
| Links.AggregateIsLayer | solve_custom.py:182-183 | `aggregate` is one fitting layer: exactly for `SolveExpTh`, and for `Solve` up to the OFFSET that fitting subtracts. |
| Design.ExpandBlockEntry | solve.py:166-178 | In an expanded block row, position `s*p + d` holds order d of input value s. |
| Design.DesignRowEntry | solve.py:166-186 | Design row i, column `DesignIndex(k, s, d)`, holds order d of `X_k[i, s]`. The row is `DesignWidth` long. |
| Design.DesignColumn | solve.py:166-186 | The whole design column `DesignIndex(k, s, d)` is `poly_f(d, X_k[:, s])`. |
| Design.DesignColumnsConsecutive | solve.py:166-178 | The orders of one input are consecutive columns. The next input's order 0 follows the last order of the previous one. |
| Target.RowMidpoint | solve.py:91-97 | The 'average' target value of a row lies between the row's minimum and maximum. |
| Target.BuildB | solve.py:90-112 | An unknown strategy fails, and an empty 'average' fails. 'scaled' gives Y. 'average' gives n x dim[3] rows; each row is constant and lies between the row's extrema. Also cited: solve_custom.py:12-34 and 240-262. |
| Target.AverageTargetMidpoint | solve.py:91-97 | With at least one output column, 'average' succeeds, and entry (i, j) of B is `(max(Y[i]) + min(Y[i])) / 2`. |
| Target.AverageColumnsAgree | solve.py:91-97 | Every output column of the 'average' target is the same column. |
| Normalize.NormRoundTrip | solve.py:59-66 | Rescaling and `x*(max-min)+min` undo each other, in both orders. |
| Normalize.NormValueBounds | solve.py:59-66 | A value between the extrema rescales into [0, 1]; the minimum goes to 0 and the maximum to 1. |
| Normalize.NormData | solve.py:54-66 | Normalised data keeps the shape, every entry is in [0, 1], and denormalising an entry recovers the raw entry. |
| Normalize.NormDataAttainsExtremes | solve.py:54-66 | Every normalised column takes the value 0 in some row and the value 1 in some row. |
| Normalize.DenormMUndoesNorm | solve.py:284-287 | `F*(maxY-minY)+minY` undoes the column rescaling: applied to the rescaled entries of a matrix, with that matrix's column extrema, it gives the matrix back. |
| Normalize.ViewsEntries | solve.py:68-88 | `X_[k][r, s]` and `Y_[r, i]` are the raw entries at flat columns `dim_integral[k-1] + s` (0 + s for the first block) and `mX + i`, and `X[k][r, s]` and `Y[r, i]` the rescaled entries there: the views are the `dim_integral` column blocks of the raw and the rescaled data. |
| Normalize.NormVectorsExtrema | solve.py:78-81 | `minX[t]`, `maxX[t]` are the minimum and maximum of raw input column t, and `minY[i]`, `maxY[i]` those of raw column `mX + i`; every output column index lies inside the data, and each minimum is strictly below its maximum. |
| Normalize.BlockAt | solve.py:83-88 | Entry (r, s) of block k is entry (r, `dim_integral[k-1] + s`) of the whole matrix. |
| Normalize.OutputRoundTrip | solve.py:284-287 | Denormalising the normalised outputs with `minY` and `maxY` gives back `Y_` exactly. |
| Layers.Lambda | solve.py:188-200 | The lambda column has one entry per design column. Unsplit, it is the solve against the whole design. Split, each block of it is the solve against that design block alone. Also cited: solve_custom.py:88-100 and 316-328. |
| Layers.LambdaBlockLocal | solve.py:188-200 | Split, two designs that agree on block k give the same block k of lambda. |
| Layers.BlockOf | solve.py:203-220 | The block of flat input column t is the k with `ColStart(k) <= t < ColStart(k+1)`. |
| Layers.BlockOfColIndex | solve.py:203-220 | Input column s of block k sits at flat position `ColIndex(k, s)`, and that position lies in block k. |
| Layers.PsiEntry | solve.py:203-220 | Psi column `ColIndex(k, s)` is the dot product of the `deg[k]` design columns of that input with the same run of lambda. |
| Layers.BuildPsi | solve.py:203-220 | The loop over blocks and input columns, with its `q` and `l` cursors, computes exactly the Psi sums matrix. |
| Layers.Coefficients | solve.py:228-239 | The a column has length mX. Its block j is the solve against Psi block j alone. Also cited: solve_custom.py:129-140 and 357-369. |
| Layers.FiSumsPartition | solve.py:241-256 | The three Fi sums of a row add up to the full a-weighted sum of the Psi row, because the blocks partition the input columns. |
| Layers.BuildF1i | solve.py:241-256 | The loop with cursor `k = dim_integral[j]` computes exactly the n x 3 block sums. Also cited: solve_custom.py:142-157. |
| Metrics.MaxErrorBounds | solve.py:280-281 | `norm_error[i]` is non-negative, bounds every residual of column i, and is attained by some row. |
| Metrics.MaxErrorZeroIff | solve.py:280-281 | `norm_error[i]` is 0 exactly when every row of column i is reproduced. |
| Metrics.MeanErrorWithinMaxError | solve.py:280-282 | The magnitude of `norm_error_a[i]` never exceeds `norm_error[i]`, so the mean error is 0 when the column is reproduced exactly. |
| Metrics.DenormMaxErrorScale | solve.py:284-291 | The raw infinity-norm error is the normalised one scaled by `maxY[i] - minY[i]`. |
| Metrics.DenormMeanErrorScale | solve.py:284-292 | The raw mean error is the normalised mean error scaled by `maxY[i] - minY[i]`. |
| Engine.LayerSolvesAgainstLinkOfValues | solve_custom.py:124-126 | In the custom engines a and c are solved against the pre-transform of the reported Psi and Fi. The base engine passes on the raw sums. Also cited: solve_custom.py:162-164. |
| Engine.Predictions | solve.py:271-277 | F is n x dim[3]. Also cited: solve_custom.py:172-177. |
| Engine.FitModel | solve.py:441-456 | Failures come in this order: unknown weights, an empty 'average' reduction, then an unknown polynomial type when a design column exists. Each happens exactly when its cause holds. A success records the configuration, the normalised views, the target B, the layers built from `A_log` and `B_log`, F, `F_` and all four error reports. |
| FitFacts.OutputRangePositive | solve.py:83-86 | Every output column of the raw data has a positive range `maxY[i] - minY[i]`. |
| FitFacts.RawMaxErrorScale | solve.py:284-291 | For a successful fit, `error[i]` is `norm_error[i]` scaled by the positive range of output column i. |
| FitFacts.RawMeanErrorScale | solve.py:284-292 | For a successful fit, `error_a[i]` is the mean normalised residual scaled by the range of output column i. |
| FitFacts.NormMeanReport | solve.py:282 | The base engine reports the mean normalised residual of each column. The custom engines leave the initial 0.0 in place. Also cited: solve_custom.py:178-180. |
| FitFacts.AverageSharesFirstLayer | solve.py:91-97 | With 'average' weights every output column gets the same lambda, the same Psi sums and the same Psi. |
| FitFacts.BlockEntry | solve.py:54-88 | Entry (r, s) of normalised block k is the raw entry at flat column `ColIndex(k, s)`, rescaled with that column's extrema. |
| FitFacts.DesignOfData | solve.py:136-186 | `A_log` at row r, column `DesignIndex(k, s, d)`, is the engine's pre-transform of the order-d polynomial of the rescaled raw entry. The pre-transform is the log shift, tanh or (2/pi) arctan. Also cited: solve_custom.py:85 and 313. |
| Predict.NormQuery | solve.py:466 | The rescaled query has the query's length. Rescaling back with the stored input extrema recovers the query. |
| Predict.SplitQuery | solve.py:467 | The pieces are three consecutive slices of widths dim[0..2], at the `dim_integral` positions. They concatenate back to the query. |
| Predict.QueryPsiAt | solve.py:469-475 | The first-layer value of input j of block i is `aggregate` of its rescaled value's orders, with the lambda run the design gives that input. |
| Predict.CalculatePsi | solve.py:469-475 | The loop over pieces with the `shift` cursor computes exactly the first-layer row. |
| Predict.CalculateValue | solve.py:461-484 | It fails exactly when the evaluator was never set, or when there is no input column but some output. Otherwise there is one value per output column. Each value is the denormalised layer prediction, and rescaling it gives that prediction back. |
| Predict.ExpTh1PredictsLikeBase | solve_custom.py:238-405 | A `SolveExpTh1` fit predicts exactly as the base class would with the same layers. Also cited: solve.py:458-459. |
| Parity.FirstLayerOfRow | solve.py:469-475 | On the rescaled inputs of a training row, the first-layer values are that row of the fitted Psi. `Solve` adds OFFSET; `SolveExpTh` matches exactly. Also cited: solve.py:202-226. |
| Parity.SecondLayerOfRow | solve_custom.py:159-164 | In `SolveExpTh`, the second-layer values of a training row are its fitted Fi row. |
| Parity.FirstLayerOnTrainingRow | solve.py:461-475 | After a successful `Solve` or `SolveExpTh` fit, `calculate_value`'s first layer on training row r gives the fitted Psi row of output k. In `Solve` that is plus OFFSET. |
| Parity.ExpThPredictsTrainingRow | solve_custom.py:172-183 | After a successful `SolveExpTh` fit, `calculate_value` on training row r succeeds. Output k is `F_[r, k]` plus OFFSET times the range of output column k. Also cited: solve.py:461-484. |
| Forecast.ForecastInputs | solve.py:487-492 | `XF` has one list per input block and one forecast per column. Each forecast is of that raw column and has `steps` values. |
| Forecast.StepQuery | solve.py:494-498 | The step-s query has mX entries. Input j of block k sits at its flat position and holds `xfc[-s]` of that column's forecast. |
| Forecast.AssembleQuery | solve.py:494-498 | The nested loop over blocks and columns builds exactly the step query. |
| Forecast.StepPredictions | solve.py:493-499 | On success there is one prediction per step, each `calculate_value` of its step query. It fails exactly when step 1 fails, with the same fault. |
| Forecast.Splice | solve.py:500-501 | The result has Y's shape. Its leading rows are unchanged, and its last `|rows|` rows are `rows`, in order. |
| Forecast.BuildPredicted | solve.py:486-502 | It fails exactly when prediction fails or the write-back cannot fit. On success it returns the forecasts, and the first `n - steps` rows of `YF` are those of `Y_`. |
| Forecast.PredictedRowIsStep | solve.py:493-501 | Row i among the last `steps` rows of `YF` is the prediction of step `i - (n - steps) + 1`. |
| Forecast.ReversedForecastOrder | solve.py:493-501 | The query for row i holds forecast position `n - 1 - i` of every input column, so the forecasts land on the rows in reverse order. |
| Forecast.HorizonOne | solve.py:486-502 | With one step, only the last row changes. It becomes the prediction from the first forecast value of every input column. |

## Left out

- Least squares: `_minimize_equation` and `system_solve` are the `Solver` parameter. No accuracy of a solve is modelled or proved.
- Transcendentals: exp, log, tanh, arctan, cos, pi and scipy's Chebyshev evaluators are uninterpreted. No numeric property of them is used, except `log(exp(s)) = s` where `Links.LayerInputIsLinkOfValue` asks for it.
- Floating point: values are exact reals and OFFSET is exactly 1e-10. Rounding is not modelled.
- Constant columns: `norm_data` divides by `max - min` without a guard. Raw data must therefore have no constant column (`Normalize.RawData`); the NaNs numpy would produce are not modelled.
- Data width: the data is taken to have exactly `dim_integral[3]` columns. The file reading of `define_data` is left out, together with its data-width check.
- `forecast` (ARIMA) is the `Forecaster` parameter, known only to return `horizon` values.
- Output and glue: `save_to_file`, `show`, the display steps of `prepare`, plotting and main.py (the PyQt dialog) are left out as I/O.
- Engine.FitModel: the fit uses the corrected selector `Links.PolyFunc`, so the name 'sh_cheb_u' fits with shifted Chebyshev U. The source's `poly_func` gives that name shifted Chebyshev T (see "## Findings"). The source's 'sh_cheb_u' fit is therefore the model's 'sh_cheb_t' fit (`Links.PolyFuncAsWrittenConflates`). Predictions and forecasts inherit the choice.
- Engine.FitModel: the source stops in `exit()` or in a numpy exception. These become `Failure` values with a named `Target.Fault`; the message text is not modelled.
- Engine.DesignEvaluator: with no input column and an unknown polynomial type, the fit carries no evaluator. A placeholder evaluator fills the empty design; it is never applied.
- The matrix the custom engines report as `A`, `exp(A_log)`, is computed but nothing reads it; only its shape is stated.
- Target.BuildB: for 'average' its own contract states only that each row is constant and lies between the row's extrema. The value `(max + min) / 2` is stated by `Target.AverageTargetMidpoint`, which keeps that arithmetic out of the contract every fit carries.
- Engine.Predictions: its contract states only the shape of F. Its entries are stated through `Parity.PredictionFacts` and the error lemmas.
- Psi, Fi and F are computed per output column, as sums over index ranges. The source's vectorised numpy expressions are not modelled as such.
- Parity.FirstLayerOnTrainingRow: this states the first layer only. For `Solve`, the OFFSET added at the first layer passes through the nonlinear aggregates, so later layers do not line up exactly. `SolveExpTh1` predicts with the logarithmic aggregate after an arctan fit, so no parity holds for it.
- Metrics.DenormMaxErrorScale: the scaling factor is written `Times(range, e)` rather than `range * e`. This is the same product, kept in a named function to spare the solver.

## Findings

| source | as written | input that shows it | evidently intended | confidence | as-written member | corrected member |
|---|---|---|---|---|---|---|
| solve.py:129-130 | the 'sh_cheb_u' branch (commented "Chebyshev Shifted U") selects `special.eval_sh_chebyt` | `poly_type = 'sh_cheb_u'` yields the same design as `'sh_cheb_t'` | select `special.eval_sh_chebyu` | not executed | Links.PolyFuncAsWrittenConflates | Links.PolyFuncInjective |
