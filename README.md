# Ion-trap optimisation scripts: parameter mapping, inscribed-sphere corrector and trial scoring

The scripts in `Comsol_Optimization/` drive an external field solver. They push trap-geometry
and voltage parameters into a model, solve it, read back three metrics (trap depth `depth_eV`,
offset `offset_mm`, estimated power `P_est_mW`), score the trial, and hand the negated score to
a Nelder-Mead minimiser. This project models the part of that logic the scripts compute
themselves. All of it is over Dafny `real`, with no IEEE-754 rounding.

- `mapper.dfy` (module `ParameterMapper`) holds the unit conversion of
  `Hardhaq_Optimization_Easy.py`. `normalize` and `denormalize` are per-component affine maps
  zipped over the ten-entry bounds table. Both round trips are proved, both maps take the length
  `zip` gives, and each map takes its box into the other's box.
- `inscribed.dfy` (module `Inscribed`) holds `enforce_inscribed_constraint` of
  `Comsol_Optimize.py`. The cylinder has radius `rod_spacing/2 + rod_radius` and half height
  `(rod_length + 2(endcap_offset + endcap_thick))/2`. It must fit in a sphere of radius
  `20·rod_radius`. The method follows the source: it copies the list, computes `lhs`/`rhs`,
  returns early, and otherwise overwrites three slots. It is proved against the function
  `Corrected`. The lemmas state what the result is: the length is kept, only `rod_spacing`,
  `rod_length` and `endcap_offset` can change, and they change by one common factor.
  `math.sqrt` is a function parameter that must satisfy `IsSqrt`, that is, it gives a
  non-negative root on the non-negative reals.
- `scoring.dfy` (module `Scoring`) holds the weighted objective that both scripts share,
  each with its own targets and weights (`ComsolConfig`, `EasyConfig`), together with its
  monotonicity. It also holds the data a trial produces: the engine outcome, the three
  optional readings, the logged row, and whether `run_trial` returned or raised.
- `comsol_trial.dfy` and `easy_trial.dfy` hold the two versions of `run_trial`. Each is a method
  that updates the score step by step as the source does. Each is proved equal to a one-shot
  decision function `Trial`, and lemmas about `Trial` state the penalty rules.
  `normalized_objective` is `EasyTrial.NormalizedObjective`.

The docstring of the corrector (`Comsol_Optimization/Comsol_Optimize.py:22-33`) describes less
than the code does. The model follows the code.
- The docstring takes the cylinder radius as `rod_spacing/2`, the height as `rod_length`, and
  scales only those two. The code adds `rod_radius` to the radius and the endcaps to the height,
  and it also scales `endcap_offset`.
- The docstring says the scaled cylinder fits exactly on the sphere. It does not, because
  `rod_radius` (and `endcap_thick`) enter the cylinder but are not scaled. With a positive rod
  radius and non-negative dimensions the corrected geometry still sticks out of the sphere, so
  the corrector is not idempotent: a second application fires again
  (`Inscribed.SecondPassFiresAgain`).
- The "Easy" script has no plausibility bound on power. Only a missing power reading is
  penalised.
- The factor `min(1, 20·rod_radius / sqrt(lhs))` is positive only when `rod_radius` is positive.
  The Comsol script's minimiser is unbounded, and for a negative `rod_radius` the factor lies
  in (-1, 0), so the three slots change sign. `Inscribed.ShrinkFactor` states this case
  exactly: the factor is non-zero, lies strictly between -1 and 1, and has the sign of
  `rod_radius`.

## Model

| member | source | states |
|---|---|---|
| `ParameterMapper.Normalize` | Comsol_Optimization/Hardhaq_Optimization_Easy.py:52-53 | the result has `min(len(x), len(bounds))` entries (zip truncation), and entry i is `(x_i - low_i)/(high_i - low_i)` |
| `ParameterMapper.Denormalize` | Comsol_Optimization/Hardhaq_Optimization_Easy.py:55-56 | the result has `min(len(y), len(bounds))` entries, and entry i is `low_i + y_i·(high_i - low_i)` |
| `ParameterMapper.ComponentRoundTrips` | Comsol_Optimization/Hardhaq_Optimization_Easy.py:52-56 | on a bound of non-zero width, the two component maps undo each other in both orders |
| `ParameterMapper.DenormalizeOneInBound` | Comsol_Optimization/Hardhaq_Optimization_Easy.py:55-56 | on a proper bound, a value in [0,1] maps into [low, high] |
| `ParameterMapper.NormalizeOneInUnit` | Comsol_Optimization/Hardhaq_Optimization_Easy.py:52-53 | on a proper bound, a value in [low, high] maps into [0,1] |
| `ParameterMapper.EasyBoundsProper` | Comsol_Optimization/Hardhaq_Optimization_Easy.py:38-49 | the bounds table has ten entries, and each has low < high |
| `ParameterMapper.EasyBaselineInBounds` | Comsol_Optimization/Hardhaq_Optimization_Easy.py:10-49 | the ten baseline values lie inside their bounds |
| `ParameterMapper.DenormalizeNormalize` | Comsol_Optimization/Hardhaq_Optimization_Easy.py:52-56 | `denormalize(normalize(x))` is x cut to the zip length, for any x whose paired bounds have non-zero width |
| `ParameterMapper.NormalizeDenormalize` | Comsol_Optimization/Hardhaq_Optimization_Easy.py:52-56 | `normalize(denormalize(y))` is y cut to the zip length |
| `ParameterMapper.RoundTrips` | Comsol_Optimization/Hardhaq_Optimization_Easy.py:52-56 | for proper bounds and a vector of the table's length, both round trips are the identity |
| `ParameterMapper.DenormalizeInBounds` | Comsol_Optimization/Hardhaq_Optimization_Easy.py:38-56 | denormalize maps every point of the unit cube into the physical box |
| `ParameterMapper.NormalizeInUnitCube` | Comsol_Optimization/Hardhaq_Optimization_Easy.py:52-53 | normalize maps every point of the physical box into the unit cube |
| `Inscribed.IndexOf` | Comsol_Optimization/Comsol_Optimize.py:37-40 | `list.index` returns the first position holding the name |
| `Inscribed.ParamIndices` | Comsol_Optimization/Comsol_Optimize.py:10-18 | `PARAM_ORDER` has seven names, and each is found at slots 0 to 6 in the listed order |
| `Inscribed.GeometryOf` | Comsol_Optimization/Comsol_Optimize.py:56-61 | the sphere radius of the derived geometry is zero exactly when `rod_radius` is zero, and positive exactly when `rod_radius` is positive |
| `Inscribed.FlatRodNeverExceeds` | Comsol_Optimization/Comsol_Optimize.py:56-66 | for the derived geometry (`GeometryOf`) with `rod_radius == 0`, `rhs` is 0 and the corrector never fires |
| `Inscribed.RoundRodHasSphere` | Comsol_Optimization/Comsol_Optimize.py:56-66 | for the derived geometry with any other `rod_radius`, `rhs > 0`, so the corrector fires exactly when `lhs > rhs` |
| `Inscribed.ShrinkFactor` | Comsol_Optimization/Comsol_Optimize.py:68-71 | `scale·sqrt(lhs) == R_sphere`, and `scale` is non-zero, strictly between -1 and 1, and positive exactly when `R_sphere` is |
| `Inscribed.ShrinkFactorSquared` | Comsol_Optimization/Comsol_Optimize.py:68-71 | `scale²·lhs == rhs` and `0 < scale² < 1`, so scaling the whole cylinder would put its corner exactly on the sphere |
| `Inscribed.ScaledByShape` | Comsol_Optimization/Comsol_Optimize.py:72-78 | the scaled list (`ScaledBy`) keeps its length and every other slot, and holds `x·scale` in the three adjusted slots |
| `Inscribed.ScaledByNoGrowth` | Comsol_Optimization/Comsol_Optimize.py:72-78 | scaling by a factor in (-1, 1) never grows the magnitude of an adjusted slot, and strictly shrinks a non-zero one |
| `Inscribed.Corrected` | Comsol_Optimization/Comsol_Optimize.py:35-78 | the corrected list has the input's length and keeps every slot but the three adjusted ones. It is the input itself when the geometry fits. When the geometry sticks out, each adjusted slot is multiplied by the one common factor `ShrinkFactor` |
| `Inscribed.CorrectedShape` | Comsol_Optimization/Comsol_Optimize.py:35-78 | the corrected list has the input's length; `V_rf`, `V_dc`, `V_endcap` and `rod_radius` are never changed; no adjusted slot grows in magnitude, and each non-zero one shrinks when the corrector fires |
| `Inscribed.EnforceInscribedConstraint` | Comsol_Optimization/Comsol_Optimize.py:21-79 | returns `Corrected(params)`. The flag is true exactly when `lhs > rhs && rhs > 0`. A false flag returns the input unchanged. The length and all non-adjusted slots are always kept. `endcap_thick` is the model's value when one was read, and 0 otherwise |
| `Inscribed.ScaledGeometry` | Comsol_Optimization/Comsol_Optimize.py:56-78 | after scaling, the cylinder radius is `scale·spacing/2 + rod_radius`, the half height is `scale·(length/2 + offset) + endcap_thick`, and the sphere is unchanged |
| `Inscribed.ScaledStillExceeds` | Comsol_Optimization/Comsol_Optimize.py:56-78 | for a positive rod radius and non-negative dimensions, shrinking by the factor leaves the cylinder outside the sphere |
| `Inscribed.SecondPassFiresAgain` | Comsol_Optimization/Comsol_Optimize.py:56-78 | the corrector is not idempotent: for a positive rod radius and non-negative dimensions, the corrected geometry still exceeds the sphere |
| `Inscribed.BaselineExamples` | Comsol_Optimization/Comsol_Optimize.py:57-90 | the baseline geometry fits (no correction), and the baseline with `rod_length = 5.0` makes the corrector fire |
| `Scoring.ComsolConfigPositive` | Comsol_Optimization/Comsol_Optimize.py:93-104 | every target and weight of the Comsol script (9.0/0.005/2000.0 and 2.0/200.0/0.5) is positive |
| `Scoring.EasyConfigPositive` | Comsol_Optimization/Hardhaq_Optimization_Easy.py:23-35 | every target and weight of the "Easy" script (5.0/0.001/1000.0 and 1.0/10.0/0.8) is positive |
| `Scoring.Objective` | Comsol_Optimization/Comsol_Optimize.py:131-146 | with positive targets and weights, a non-negative `depth_eV`, and offset and power above `-1e-9`, the score is positive. Hardhaq_Optimization_Easy.py:98-113 is the same function |
| `Scoring.DefinedAboveGuard` | Comsol_Optimization/Comsol_Optimize.py:133-135 | with positive targets and offset and power above `-1e-9`, no denominator of the objective is zero |
| `Scoring.ObjectiveIncreasingInDepth` | Comsol_Optimization/Comsol_Optimize.py:131-146 | the objective strictly increases in `depth_eV` |
| `Scoring.ObjectiveDecreasingInOffset` | Comsol_Optimization/Comsol_Optimize.py:131-146 | above `-1e-9`, the objective strictly decreases in `offset_mm`, for any power with a non-zero denominator |
| `Scoring.ObjectiveDecreasingInPower` | Comsol_Optimization/Hardhaq_Optimization_Easy.py:98-113 | above `-1e-9`, the objective strictly decreases in `P_est_mW`, for any offset with a non-zero denominator |
| `ComsolTrial.RunTrial` | Comsol_Optimization/Comsol_Optimize.py:148-203 | the step-by-step trial equals `Trial`. It finishes exactly for seven parameters, and it returns the negated logged score. A raised push or solve gives score `-1e6`, cost `1e6` and no metrics |
| `ComsolTrial.Trial` | Comsol_Optimization/Comsol_Optimize.py:148-203 | a trial finishes exactly for seven parameters, and then costs minus its logged score. That score is the penalty, or else the engine solved, all three metrics were read with non-zero denominators, and the score is their objective. A trial whose push or solve raised logs no metrics and the penalty. A solved trial logs its three readings as read, even when one is missing or a denominator is zero |
| `ComsolTrial.SolvedTrialScoresObjective` | Comsol_Optimization/Comsol_Optimize.py:171-180 | a solved trial with three readings and non-zero denominators logs those readings and costs `-objective(depth, offset, power)` |
| `ComsolTrial.MissingMetricPenalized` | Comsol_Optimization/Comsol_Optimize.py:174-184 | a `None` metric makes the score `-1e6` and the cost `1e6` |
| `ComsolTrial.NonPenaltyMeansObjective` | Comsol_Optimization/Comsol_Optimize.py:162-184 | a score other than the penalty implies the engine solved and all three metrics were read with non-zero denominators, and the score is then their objective |
| `ComsolTrial.LoggedParamsCorrected` | Comsol_Optimization/Comsol_Optimize.py:150-194 | the logged row holds exactly `Corrected(params)` computed with `endcap_thick = 0` (the corrector is called without a model): the same length, the same non-adjusted slots, the input itself when the geometry fits, and otherwise the three slots scaled by the common factor |
| `EasyTrial.Trial` | Comsol_Optimization/Hardhaq_Optimization_Easy.py:115-188 | a trial finishes exactly when there are ten parameters, no push raised and the objective does not divide by zero. A finished trial logs the parameters and readings as given and costs minus its score. That score is the penalty, or else the engine solved, the three readings pass the sanity bounds, and the score is their objective |
| `EasyTrial.RunTrial` | Comsol_Optimization/Hardhaq_Optimization_Easy.py:115-188 | the step-by-step trial equals `Trial`. A finished trial logs the parameters and readings as given and returns the negated score. A failed solve, or a missing metric, gives the penalty |
| `EasyTrial.NormalizedObjective` | Comsol_Optimization/Hardhaq_Optimization_Easy.py:190-193 | `normalized_objective(y)` is `run_trial(denormalize(y, bounds))`. It finishes only when y has at least ten entries, and it logs the denormalised point |
| `EasyTrial.SolveFailurePenalized` | Comsol_Optimization/Hardhaq_Optimization_Easy.py:134-149 | a raised solve gives score `-1e6` and cost `1e6` whatever the metrics read afterwards |
| `EasyTrial.MissingMetricPenalized` | Comsol_Optimization/Hardhaq_Optimization_Easy.py:148-167 | any `None` metric gives the penalty, and such a trial with ten parameters whose pushes returned always finishes |
| `EasyTrial.ThresholdsPenalize` | Comsol_Optimization/Hardhaq_Optimization_Easy.py:158-164 | `offset_mm > 19.13` or `depth_eV < 0.00001` gives the penalty even though the objective was computed |
| `EasyTrial.PlausibleTrialScoresObjective` | Comsol_Optimization/Hardhaq_Optimization_Easy.py:148-188 | a solved trial whose three readings have `offset_mm <= 19.13`, `depth_eV >= 0.00001` and non-zero denominators is scored by the objective with weights 1.0/10.0/0.8 and targets 5.0/0.001/1000.0, and the cost is its negation |
| `EasyTrial.NonPenaltyMeansPlausible` | Comsol_Optimization/Hardhaq_Optimization_Easy.py:130-167 | a score other than the penalty implies a solved engine and three readings within the sanity bounds, and the score is then their objective |
| `EasyTrial.NormalizedPointInBounds` | Comsol_Optimization/Hardhaq_Optimization_Easy.py:190-193 | a unit-cube point gives a physical point inside the bounds table. It has ten entries exactly when y has at least ten, and a shorter y raises at the unpacking |
| `EasyTrial.BaselineRoundTrip` | Comsol_Optimization/Hardhaq_Optimization_Easy.py:210-218 | the normalised baseline denormalises back to the baseline itself |

## Left out

- The simulation engine. `mph` start/load/save/remove, `model.parameter`, `model.solve` and
  `model.evaluate` are outside the model. Their effect enters only as an `EngineOutcome` (a push
  raised, the solve raised, or both returned) and as three `Option<real>` readings.
- The value coercion of `try_eval` (numpy scalars, one-element arrays, `float` conversion). The
  function is reduced to "a real or `None`".
- The `model.parameter("endcap_thick")` read in the corrector is a foreign call. It is reduced
  to an `Option<real>` argument, where `None` stands for no model, a `None` value or a raised
  read. `run_trial` always passes `None`.
- `math.sqrt`. It is an argument that must be a non-negative square root on the non-negative
  reals, and nothing else about it is assumed.
- IEEE-754 rounding. The `1e-9` guards, `19.13` and `0.00001` are exact reals.
  `ParameterMapper.Normalize` requires non-zero bound widths, where Python would raise
  `ZeroDivisionError`. Every entry of the real bounds table has positive width.
- `Inscribed.EnforceInscribedConstraint` requires at least seven parameters, where the source
  raises `IndexError`. `ComsolTrial.RunTrial` turns a shorter list into `Raised` before calling it.
- CSV writing, `flush`/`fsync` and every `print`. The logged row is the value that `run_trial`
  returns. A failed write is caught and printed in both scripts, so it changes neither the row
  contents nor the return value.
- `ComsolTrial.RunTrial` always returns `-score`. The source's `else 1e6` branch of
  `-score if score is not None else 1e6` is unreachable, because every path assigns a real score.
- `find_model_file` (filesystem), `main`, the header row and the `scipy.optimize.minimize`
  driver loop (a black-box optimiser).
- `Comsol_Optimization/streamlit_graph.py` (plotting UI) and
  `Comsol_Optimization/Comsol_Optimize copy.py` are not part of this model.
