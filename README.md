# PI-AutoTune numeric core in Dafny

PI-AutoTune is a pair of Streamlit scripts for tuning a PI controller from a
log of `Time, Feedback, Setpoint` rows. Under the widgets, both scripts do the
same numeric work:

- they suggest gains from the log, `Kp` from the mean absolute change of the
  error and of the feedback, and `Ki` as a tenth of `Kp`;
- they classify the average error and both gains into advisory bands.

Each script then also simulates a loop:

- `app.py` runs a clamped PI output simulation against the first row's setpoint.
- `appr1.py` replays a first-order plant driven by the suggested gains.

This project models that core and proves properties of it. It has four modules:

- `Numeric` (numeric.dfy) holds the library primitives the scripts use, over
  exact reals. A pandas float that may be NaN is `Scalar`. Also here are
  `Series.diff()`, `abs()`, `mean()`, `np.clip` and Python's `round(x, ndigits)`,
  which rounds halves to even.
- `GainAdvisor` (gain_advisor.dfy) holds the gain suggestion and the advisory
  bands, shared by both scripts, as pure functions. `Analyze` gathers
  everything one log yields.
- `OutputSimulation` (output_simulation.dfy) is the loop that builds `I_sim`
  and `Output_sim`. It is a method proved against the recursive function
  `IntegralAt` and the function `OutputAt` built on it.
- `PlantReplay` (plant_replay.dfy) is the loop that builds `sim_feedback` and
  truncates it. It is a method proved against the recursive function
  `StateAt`.

A log is two sequences of equal length, `feedback` and `setpoint`.

Two behaviours of the code are worth stating plainly:

- The scripts do not reject a log with fewer than two rows. pandas' mean of an
  empty difference series is NaN, so both suggested gains are NaN. A NaN fails
  every comparison, so it raises no gain advice, and an empty log's NaN
  average error lands in the "large error" branch.
- The `app.py` loop clips only the accumulated integral, to [-100, 100], and
  never the increment. It measures every row against the first row's setpoint
  (`app.py:74`). With `Ki = 0` the integral simply stays at its initial 0.

## Model

| member | source | states |
|---|---|---|
| Numeric.Diff | app.py:37 | the consecutive differences of a series: one fewer than its length (none for an empty series), the i-th being `s[i+1] - s[i]` |
| Numeric.AbsAll | app.py:37-38 | elementwise absolute value, length kept |
| Numeric.Mean | app.py:37-38 | defined (not NaN) exactly when the series is non-empty; non-negative for a non-negative series |
| Numeric.Clip | app.py:76 | the result lies in `[lo, hi]`, equals `x` inside the range, and equals the bound that `x` crosses outside it |
| Numeric.RoundHalfEven | app.py:40 | an integer within 1/2 of its argument; an exact half goes to the even neighbour |
| Numeric.RoundTwoDigits | app.py:40 | `round(x, 2)` is a whole number of hundredths, within 0.005 of `x`, and non-negative for non-negative `x` |
| Numeric.RoundThreeDigits | app.py:41 | `round(x, 3)` is a whole number of thousandths, within 0.0005 of `x`, and non-negative for non-negative `x` |
| Numeric.RoundThreeOnGrid | app.py:41 | `round(x, 3)` returns a whole number of thousandths unchanged |
| GainAdvisor.Errors | app.py:36 | one error per row, `Setpoint - Feedback` |
| GainAdvisor.MeanAbsChange | app.py:37-38 | `delta_fb` / `delta_error` are defined exactly when the log has at least two rows, and are then non-negative |
| GainAdvisor.RawKp | app.py:40 | the ratio under the `1e-6` guard is total and non-negative |
| GainAdvisor.SuggestedKp | appr1.py:13 | NaN below two rows, otherwise non-negative and within 0.005 of the raw ratio |
| GainAdvisor.SuggestedKi | appr1.py:14 | NaN exactly when Kp is NaN, otherwise within 0.0005 of Kp / 10 |
| GainAdvisor.KiIsTenthOfKp | app.py:40-41 | the second rounding changes nothing, so the suggested Ki is exactly the suggested Kp / 10 |
| GainAdvisor.ConstantSetpoint | app.py:36-40 | with a constant setpoint, `delta_error == delta_fb`, and the raw Kp is `delta_fb / (delta_fb + 1e-6)`, strictly below 1 |
| GainAdvisor.AverageError | app.py:49 | defined exactly when the log is non-empty, and then non-negative |
| GainAdvisor.Band | app.py:52-57 | stable iff the average error is < 0.5, moderate iff it is in [0.5, 2), large iff it is >= 2 or NaN; exactly one band applies |
| GainAdvisor.BandMonotone | appr1.py:25-30 | a larger average error never gets a calmer band |
| GainAdvisor.KpAdvice | app.py:59-62 | strong iff Kp > 5, small iff Kp < 0.5, no advice iff Kp lies in [0.5, 5] or is NaN |
| GainAdvisor.KiAdvice | appr1.py:37-40 | strong iff Ki > 1, small iff Ki < 0.05, no advice iff Ki lies in [0.05, 1] or is NaN |
| GainAdvisor.Analyze | appr1.py:9-40 | both gains are defined iff there are two or more rows; Ki == Kp / 10 exactly; Ki gets "small" exactly when Kp does; a strong Ki implies a strong Kp; an empty log gives a NaN average error and the large-error band |
| GainAdvisor.TemplateAnalysis | app.py:11-15 | the downloadable template log yields Kp 1.0, Ki 0.1, average error 28/15 (moderate) and no gain advice |
| OutputSimulation.IntegralAt | app.py:71-77 | the clipped integral stays within [-100, 100] after every row, starting from 0 |
| OutputSimulation.Simulate | app.py:71-78 | `I_sim` has one entry more than the log and starts at 0; `Output_sim` has one entry per row; every integral is within [-100, 100]; entry k of each follows the recurrence (`E` against the first row's setpoint, the increment `Ki*E/60`, clip, then `Kp*E + I + 50`); with `Ki = 0` every integral is 0 |
| OutputSimulation.IntegralWithoutKi | app.py:75-77 | with `Ki = 0` the integral is 0 after every row |
| OutputSimulation.ZeroErrorHoldsBias | app.py:73-78 | if every feedback equals the first setpoint, the integral stays 0 and every output is exactly 50 |
| OutputSimulation.ClipInactive | app.py:76 | while the unclipped running sum stays inside [-100, 100], the clipped integral equals it |
| OutputSimulation.IntegralNonDecreasing | app.py:74-76 | with a non-negative Ki, a row at or below the first setpoint never lowers the integral |
| PlantReplay.Replay | appr1.py:46-55 | an empty log yields no replay, because `iloc[0]` raises; otherwise the unused `zip` partner makes the loop run once per row, and the truncated result has one entry per row, starts at the first logged feedback, and follows the plant recurrence |
| PlantReplay.IntegralIsIncrementSum | appr1.py:47-51 | after k rows, `I_term` is the plain sum of the k increments |
| PlantReplay.IntegralIsScaledErrorSum | appr1.py:47-51 | after k rows, `I_term` is Ki times the sum of the first k errors: no division by 60 and no clamp |
| PlantReplay.SetpointAtStartIsEquilibrium | appr1.py:46-53 | if every setpoint equals the first feedback, every replayed value stays on it and `I_term` stays 0 |

## Left out

- Streamlit widgets, headers, the template download and the file uploader (app.py:2-33, appr1.py:3-6) are user interface only.
- Reading the CSV and parsing the `Time` column with `pd.to_datetime` are I/O. The `Time` column plays no part in the numbers, so it is not modelled, and neither is the fact that `app.py` parses it before checking the columns.
- The column-presence check and its error message are not modelled. The model receives the two numeric columns as sequences of equal length.
- Matplotlib plotting is rendering only.
- Values are exact reals, not binary floats. `round` is round-half-to-even on exact reals, which can differ from CPython on values that floats cannot represent exactly.
- NaN is modelled only where the scripts produce it from the log's length: the mean of an empty series. NaN entries inside the CSV columns are not modelled.
- OutputSimulation.Simulate: takes the gains as reals, so it does not model the NaN outputs that a one-row log's NaN gains would produce.
- PlantReplay.Replay: takes the gains as reals in the same way. With one row, the result is just the first feedback, whatever the gains.
