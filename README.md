# Soil cores calculator — sampling model

A Dafny model of the core of a small Streamlit calculator. The calculator
estimates how many soil cores are needed for a target sampling error (%),
or what error a given number of cores achieves, from a soil property's
coefficient of variation (CV).

The model has two modules:

- `SamplingModel` (`sampling_model.dfy`) covers the pure calculations.
  - The calibration polynomial `a(cv) = 4.80 cv² − 86.97 cv + 1782.71` is `ScaleFactor`.
  - The forward power law `max(a(cv) · error^−1.98, 0)` is `CoresFromError`.
  - The inline inverse `(cores / a(cv))^(1 / −1.98)` is `ErrorFromCores`.
  - Arithmetic is exact `real`, so the decimal constants are exact.
  - Real exponentiation `x ** e` is a parameter `pow: (real, real) -> real`.
  - Lemmas that need facts about `pow` state them as named hypotheses.
    `PositiveOnPositive` says a positive base gives a positive power.
    `InverseLaw` says `(x^e)^(1/e) = x` for `x > 0`, as in exact real arithmetic.
    Only the exact round-trip and on-curve lemmas use `InverseLaw`.
  - A computation with no real result returns a tagged `Err`:
    `ZeroToNegativePower` where the script raises a division-by-zero error, and `NonRealPower` for a negative base.
- `CalcLog` (`calc_log.dfy`) covers the calculation log kept in the session state.
  - The log is an ordered sequence of `CalcRecord(kind, errorValue, cv, coreValue)` tuples.
  - Each rerun of the script is an `Event`: `Idle`, `Calculate` or `ClearData`.
  - `Step` and `Replay` give the log after one rerun and after a series of reruns.
  - The class `Session` holds the session state, with `calcData` as `None` while no log exists.
    Its methods are proved against `Step`, and the method `Reruns` against `Replay`.

The scale factor is never below `1388.763078125`, the value at `cv = 9.059375`,
because the polynomial's discriminant is negative. So the inverse never divides
by zero or a negative number, for any CV. Its only failing input reachable from
the sliders is `cores = 0`.

## Model

| member | source | states |
|---|---|---|
| `SamplingModel.ScaleFactor` | soil_cores_calculator.py:7-8 | The scale factor is total, and for every real CV it is at least `MinScale`, which is positive. |
| `SamplingModel.ScaleFactorMinimum` | soil_cores_calculator.py:8 | The discriminant is negative, and the bound is attained at the vertex `cv = 86.97/9.6 = 9.059375`, so the minimum is exactly `1388.763078125`. |
| `SamplingModel.ScaleFactorAt30` | soil_cores_calculator.py:7-8 | At the default CV of 30 the scale factor is exactly `4320 − 2609.1 + 1782.71 = 3493.61`. |
| `SamplingModel.CoresFromError` | soil_cores_calculator.py:11-14 | The result is a value exactly when the error is positive, and that value is never negative; error 0 is the division-by-zero error; a negative error has no real power. |
| `SamplingModel.ClampInactive` | soil_cores_calculator.py:12-14 | For a positive error and a positive power, the clamp at 0 never changes the value: the result is `a(cv) · error^B` and it is positive. |
| `SamplingModel.ErrorFromCores` | soil_cores_calculator.py:47-48 | The inverse is defined exactly when the cores are positive (the ratio to `a(cv)` is positive); 0 cores is the division-by-zero error; with a positive power the error is positive. |
| `SamplingModel.SharedScaleFactor` | soil_cores_calculator.py:47-48 | Both directions depend on CV only through `a(cv)`, the same polynomial that line 12 evaluates. |
| `SamplingModel.ErrorRoundTrip` | soil_cores_calculator.py:11-14 | Under exact exponentiation, the inverse of the forward result gives back the positive error it started from. |
| `SamplingModel.CoresRoundTrip` | soil_cores_calculator.py:47-48 | Under exact exponentiation, the forward model applied to the inverse's error gives back the positive core count. This is where the two directions are shown to use the same scale factor `a(cv)` (lines 12 and 47): the round trip fails for any other divisor. |
| `CalcLog.Submit` | soil_cores_calculator.py:40-49 | A calculation yields a record exactly when its input is positive, and 0 gives the division-by-zero error. A cores calculation's record is `("Soil Cores", input error, cv, computed cores)`. An error calculation's record is `("Error", computed error, cv, input cores)`. The kind's label is the literal string of lines 43 and 49. Both agree with the model. |
| `CalcLog.Step` | soil_cores_calculator.py:40-55 | One rerun. "Clear Data" gives the empty log. Otherwise the old log is kept as a prefix and at most one entry is added. An entry is added exactly when the event is an accepted calculation, and it is that calculation's record. Idle and a raising calculation add nothing. |
| `CalcLog.Replay` | soil_cores_calculator.py:17-55 | A series of reruns adds at most one entry per rerun. Without a clear among them, the starting log stays a prefix of the result. |
| `CalcLog.SubmittedPositive` | soil_cores_calculator.py:40-49 | With a positive power, every record a calculation produces has positive error and positive cores. |
| `CalcLog.SubmittedOnCurve` | soil_cores_calculator.py:40-49 | Under exact exponentiation, records of both kinds satisfy `cores = a(cv) · error^B`. |
| `CalcLog.ReplayWithoutClear` | soil_cores_calculator.py:43-49 | Without a clear, the reruns keep the old entries unchanged and add the records of the accepted calculations at the end, in the order performed. |
| `CalcLog.ProducedByAccepted` | soil_cores_calculator.py:43-49 | N accepted calculations produce exactly N records, the i-th from the i-th calculation. |
| `CalcLog.NCalculations` | soil_cores_calculator.py:17-49 | From an empty log, N accepted calculations with no clear give a log of length N whose i-th entry is the i-th calculation's record. |
| `CalcLog.DefaultScenario` | soil_cores_calculator.py:29-49 | Defaults (error 10, CV 30), then 0 cores, then 20 cores: the log holds the cores record with `a = 3493.61` and the error record. The 0-cores press appends nothing. |
| `CalcLog.ReplayConcat` | soil_cores_calculator.py:17-55 | Replaying two series of reruns one after the other is replaying their concatenation. |
| `CalcLog.ClearForgetsHistory` | soil_cores_calculator.py:54-55 | After "Clear Data" the log depends only on the reruns after it, whatever it held before. |
| `CalcLog.ReplayKeepsPositive` | soil_cores_calculator.py:43-55 | With a positive power, "every entry is positive" holds after any series of reruns. |
| `CalcLog.ReplayKeepsOnCurve` | soil_cores_calculator.py:43-55 | Under exact exponentiation, "every entry lies on the calibration curve" holds after any series of reruns. |
| `CalcLog.Session.constructor` | soil_cores_calculator.py:17 | A new session holds no log. |
| `CalcLog.Session.InitLog` | soil_cores_calculator.py:17-18 | Creates the empty log only if none exists; an existing log is kept as it is. |
| `CalcLog.Session.Calculate` | soil_cores_calculator.py:40-49 | Returns the calculation's outcome. On success it appends exactly that record at the end. On a domain error the log is unchanged, because the script raises before the append. |
| `CalcLog.Session.Clear` | soil_cores_calculator.py:54-55 | The log becomes the empty sequence whatever it held. |
| `CalcLog.Reruns` | soil_cores_calculator.py:17-56 | A series of reruns on one session leaves exactly the `Replay` of its old log, so the log lemmas about `Replay` (N calculations give N entries in order, a clear forgets history) hold of the session itself. |
| `CalcLog.Session.Rerun` | soil_cores_calculator.py:17-56 | One rerun creates the log if it is absent, then handles the pressed button. The new log is `Step` of the old one. |

## Left out

- The Streamlit widgets are not modelled: title, radio, sliders, buttons and the HTML result strings (lines 21-37, 44, 51, 56). The slider values are plain `real` inputs. The stray "%" after the core count on line 44 is presentation only.
- The Matplotlib plot is not modelled, including `round(y_val)`, the markers and the labels (lines 59-71). It is rendering.
- The values of the fractional powers are not modelled. `pow` is a parameter, so the worked values ≈36.58 cores and ≈13.56 % are not derived.
- IEEE-754 floating point is not modelled. All arithmetic is exact `real`.
- SamplingModel.ErrorRoundTrip and SamplingModel.CoresRoundTrip state the round trips only under the exact-exponentiation hypothesis `InverseLaw`. They say nothing about the floating-point error of the script's result.
- SamplingModel.CoresFromError: for a negative error, Python produces a complex power and `max` then raises a type error. The model returns `Err(NonRealPower)` instead. No slider reaches this input (the error slider starts at 5).
- SamplingModel.ErrorFromCores: for negative cores, Python produces a complex error and the script logs it. The model returns `Err(NonRealPower)` instead. No slider reaches this input (the cores slider starts at 0).
- How the framework shows an exception to the user is out of scope. The model only records that the rerun stops before the append.
- Advisory ranges for inputs outside the slider bounds are not modelled. The script has no such check.
- The upward-opening parabola never reaches zero, so the scale factor cannot be zero or negative at any CV. The model proves this (`ScaleFactor`) and has no error path for `a ≤ 0`.
