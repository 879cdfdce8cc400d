# Battery analyzer: a Dafny model

This project models the analysis engine of a battery-telemetry web
application (the class `BattaryAnalizer` in `app/models.py`). For one battery
the engine:

- builds an incremental-capacity (dQ/dV) curve from the battery's ordered
  (charge, voltage) ICA samples;
- smooths the curve, finds its peaks and measures each peak's width at an
  adaptive relative height;
- stores a left and a right voltage border read off that analysis;
- fits a polynomial degradation model to the CCCT samples and inverts the
  fitted first parameter into a stop time.

The model is split into these modules:

- `Common` (common.dfy): `Option`, `Result` and the `Fault` kinds. The faults are
  the pandas/numpy exceptions (KeyError, IndexError) and the degenerate numeric cases.
- `Indexing` (indexing.dfy): three Python/numpy conventions the code depends on:
  - negative indices count from the end (`At`);
  - slices clamp at the end (`Slice`);
  - numpy rounds halves to even (`RoundHalfEven`), on the fractional left edge
    of a peak width.
- `Config` (config.dfy): the `Parameters` record, and the parameters that
  registration assigns to each battery type.
- `External` (external.dfy): the foreign floating-point routines, given as
  function values. These are the 3-decimal voltage rounding, `gaussian_filter`,
  `find_peaks`, `peak_prominences`, `peak_widths`, the lmfit fit, `sqrt` and
  `cbrt`. Every property below holds whatever they return.
- `IncCurve` (inc_curve.dfy): `make_inc_curve` as a chain of pure sequence
  transforms: count guard and stage window, drop duplicates on rounded voltage,
  `diff` with `fillna(0)`, and the `dQ/dV >= 0` filter. It also holds the
  lookup of a row by its pandas index label.
- `Peaks` (peaks.dfy): `detect_peak_width`, the loop that appends one width per
  peak. It is a method proved equal to a specification function, with lemmas
  about that function.
- `Fitting` (fitting.dfy): the time sort, the model-family dispatch, the
  initial parameters (the `params.add` loop as a method), and the stop-time
  inversion.
- `Analyzer` (analyzer.dfy):
  - the estimations as functions of the battery's data;
  - the `Battery` class with its stored fields;
  - the `BatteryAnalyzer` class, whose methods write `leftBorder`,
    `rightBorder` and `stopTime`. Each method may modify only its own field and
    writes it only when it computes a value.

Row labels versus positions. After the non-negative filter, the rows keep the
labels given by `reset_index`, so a label is no longer a row's position. The
source reads the smoothed peak heights `data['G_Smoothed_dQ/dV'][peaks]` and
the left border `data['Voltage(V)'][...]` by label. It reads the right border
`.iloc[peaks[peak]]` by position. The model keeps this difference: each `Row`
carries its `rowLabel`, `FindLabel` does the label lookup, and
`NoDropLabelIsPosition` shows that the two lookups agree when the filter drops
no row.

Two behaviours are kept exactly as the code has them:

- The dispatch compares against `"linear_"` and `"quadratic_"`, but
  registration stores `"linear"`, `"quadratic"` and `"qubic"`. Every registered
  battery is therefore fitted with the cubic model (`RegisteredBatteriesFitCubic`).
- The first parameter name, which the stop time divides by, means a different
  thing in each family:
  - the intercept for the linear family;
  - `a` for the quadratic family (the coefficient lmfit attaches to x²);
  - the constant `c0` for the cubic family.

Three further behaviours of the code worth noting:

- With 60 samples, the second stage's slice `[30:61]` gives 30 rows (positions
  30 to 59), not 31.
- `fillna(0)` replaces only the NaN of the first row. After deduplication no
  `dV` is 0 (`DistinctKeysDistinctVoltages`), so no other zero division can
  happen. `Differences` therefore requires distinct neighbouring voltages.
- numpy's square root of a negative quotient gives NaN, and the code stores
  that NaN as the stop time.

## Model

| member | source | states |
|---|---|---|
| `Indexing.At` | app/models.py:202 | `w[peak]`, `peaks[peak]` and `.iloc[...]` succeed exactly for -n <= i < n; the element read is always one of the sequence, and for 0 <= i < n it is s[i] |
| `Indexing.AtFromEnd` | app/models.py:217 | a negative index i - n reads the same element as i |
| `Indexing.Slice` | app/models.py:143 | `s[lo:hi]` has the clamped length, and its entry k is s[lo + k] |
| `Indexing.RoundHalfEven` | app/models.py:202 | `.round()` of the left edge is within 1/2 of it, and even when exactly 1/2 away |
| `Indexing.RoundHalfEvenUnique` | app/models.py:202 | those two properties determine the rounded value uniquely |
| `Config.RegisteredParameters` | start.py:28-35 | type "a" gets model name "linear" (last CCCT cycle 10, peak 2, filter 3); type "b" gets "quadratic"; all other types get "qubic" (last CCCT cycle 1, peak 1, filter 1) |
| `IncCurve.StageSamples` | app/models.py:133-144 | samples are present iff the battery has exactly `staps` samples and at least one; they are all samples for stage 30 and entries 30.. of the slice [30:61] otherwise, with the resulting length |
| `IncCurve.SecondStageWindow` | app/models.py:139-143 | with 60 samples the second stage reads exactly positions 30 to 59 (30 rows) |
| `IncCurve.KeptPositions` | app/models.py:146-147 | the positions drop_duplicates keeps are strictly increasing first occurrences of their rounded voltage, and every first occurrence is kept |
| `IncCurve.IncreasingBounded` | app/models.py:147 | a strictly increasing list of positions below n has at most n entries (so deduplication never adds rows) |
| `IncCurve.FirstOccurrenceExists` | app/models.py:147 | every rounded voltage has a first occurrence at or before any sample carrying it |
| `IncCurve.DropDuplicateVoltages` | app/models.py:146-148 | no more rows than samples; no two kept rows share a rounded voltage; every rounded voltage of the input survives |
| `IncCurve.DropDuplicatesKeepsFirst` | app/models.py:147-148 | kept row k is the sample at the k-th first-occurrence position, so the first occurrence is kept and order is preserved |
| `IncCurve.Differences` | app/models.py:149-152 | the table has one row per deduplicated sample, and row k is `DiffRow` k: label k, its voltage and charge, and the `dV`, `Charge_dQ` and `dQ/dV` columns |
| `IncCurve.DistinctKeysDistinctVoltages` | app/models.py:146-151 | distinct rounded voltages imply distinct neighbouring raw voltages, so dV is non-zero after the first row |
| `IncCurve.DiffRow` | app/models.py:149-152 | row k carries label k; row 0 has dV = dQ = dQ/dV = 0; row k >= 1 has dV = V[k]-V[k-1] != 0, dQ = Q[k]-Q[k-1] and dQ/dV * dV = dQ |
| `IncCurve.DifferencesTelescope` | app/models.py:149-150 | the cumulative sums of dV and dQ added to the first voltage and charge give back each row's voltage and charge (diff has an inverse) |
| `IncCurve.KeepNonNegative` | app/models.py:153 | a row is kept iff it is an input row with dQ/dV >= 0; increasing labels stay increasing (order is preserved); a filter that keeps as many rows as it got returns its input |
| `IncCurve.MakeIncCurve` | app/models.py:132-154 | a curve is produced iff the ICA sample count equals `staps` (and is non-zero) |
| `IncCurve.Deduplicated` | app/models.py:146-152 | with the count guard met, the table before the filter has one row per kept first occurrence; row k is labelled k and has the voltage and charge of the k-th first occurrence; no rounded voltage appears twice |
| `IncCurve.CurveFiltersDeduplicated` | app/models.py:146-154 | the curve is the deduplicated, differenced table with negative-dQ/dV rows removed |
| `IncCurve.CurveRowsAreLabelledRows` | app/models.py:148-153 | curve labels increase, and each curve row is the deduplicated row of its own label |
| `IncCurve.CurveProperties` | app/models.py:146-154 | a curve has no more rows than the stage has samples, no two rows with equal rounded voltage, and no negative dQ/dV |
| `IncCurve.CurveFirstRowZero` | app/models.py:149-153 | when the count equals `staps` and the stage window is non-empty (`staps` is 30, or more than 30), the curve starts with the stage's first sample, labelled 0, with dV, dQ and dQ/dV all 0 |
| `IncCurve.CurveVoltagesAreSampled` | app/models.py:140-154 | when the count equals `staps`, every curve voltage is the voltage of one of the stage's samples |
| `IncCurve.SecondStageVoltagesAreSampled` | app/models.py:139-154 | with 60 samples, every second-stage curve voltage is the voltage of one of the samples at positions 30 to 59 |
| `IncCurve.FindLabel` | app/models.py:202 | a label lookup returns a position holding that label, or fails only when no row has it |
| `IncCurve.FindLabelUnique` | app/models.py:202 | with increasing labels, looking up row j's label finds row j |
| `IncCurve.NoDropLabelIsPosition` | app/models.py:153 | when the count equals `staps` and the filter drops no row, looking up label j finds position j for every row |
| `Peaks.RelativeHeight` | app/models.py:124-125 | `1 - (h - p)/h` is defined iff h != 0 and then equals p/h, which lies in [0, 1] when 0 <= p <= h |
| `Peaks.AtLabel` | app/models.py:124 | `[peaks]` reads the smoothed value of the row whose label is the peak position, and fails iff no row has that label |
| `Peaks.WidthAt` | app/models.py:123-127 | one iteration succeeds iff the height exists, is non-zero and has a prominence; its width is `peak_widths` at relative height prominence/height |
| `Peaks.WidthsUpToEntries` | app/models.py:123-127 | the first n iterations succeed iff each does, and then entry i of `w` is iteration i's width |
| `Peaks.FaultPersists` | app/models.py:123-127 | a fault in iteration i is the result of the whole loop |
| `Peaks.AdaptiveWidths` | app/models.py:119-128 | the analysis succeeds iff every peak's label exists, has a prominence and a non-zero height; then it returns the detected peaks with one width per peak, measured at prominence/height |
| `Peaks.PeakWidthsOf` | app/models.py:119-128 | a successful analysis reports exactly the detected peaks with one width per peak; a detected peak position that is no row label makes it a KeyError |
| `Peaks.DetectPeakWidth` | app/models.py:119-128 | the loop returns exactly the specified analysis or fault |
| `Fitting.InsertByTime` | app/models.py:165 | inserting into a time-sorted list keeps it sorted and adds exactly the one sample |
| `Fitting.SortByTime` | app/models.py:165 | `sort_values(by=['x'])` returns the samples sorted by time and as a permutation of the input |
| `Fitting.Times` | app/models.py:167 | the x column has one entry per sorted sample: its time |
| `Fitting.Socs` | app/models.py:166 | the y column has one entry per sorted sample: its state of charge |
| `Fitting.Dispatch` | app/models.py:168-177 | exactly "linear_" selects linear, exactly "quadratic_" selects quadratic, every other name selects cubic; no name is an error |
| `Fitting.ParamNames` | app/models.py:169-177 | a family has degree + 1 (2, 3 or 4) pairwise distinct parameter names |
| `Fitting.InitialParams` | app/models.py:178-180 | one parameter per name, in order, each starting at 0 with bounds -inf and +inf |
| `Fitting.AddParams` | app/models.py:178-180 | the `params.add` loop builds exactly the initial parameter set |
| `Fitting.StopTimeFrom` | app/models.py:183-189 | fails iff the coefficient is 0; NaN iff quadratic with negative coefficient; otherwise 0.8/c itself (linear), its square root (quadratic) or its cube root (cubic) |
| `Fitting.StopTimeSolvesThreshold` | app/models.py:183-189 | the stop time solves c * t^degree = 0.8 whenever the foreign root is exact there |
| `Analyzer.Stored` | app/models.py:190 | a field is overwritten with the computed value, and left unchanged on waiting or a fault |
| `Analyzer.StoredIdempotent` | app/models.py:203 | re-running an estimation on unchanged data leaves the field as one run does |
| `Analyzer.DQDV` | app/models.py:113-114 | the dQ/dV column has one value per curve row |
| `Analyzer.Smooth` | app/models.py:111-116 | smoothing succeeds iff the filter returns one value per row, and then gives the filter's output |
| `Analyzer.AnalyzeStage` | app/models.py:197-200 | waits iff the count guard fails; fails iff the curve exists and smoothing or the peak analysis faults; a computed analysis holds the stage's curve and exactly `detect_peak_width` of its smoothed dQ/dV |
| `Analyzer.LeftBorderOf` | app/models.py:195-207 | the left border waits iff the battery does not have exactly 30 ICA samples |
| `Analyzer.RightBorderOf` | app/models.py:210-222 | the right border waits iff the battery does not have exactly 60 ICA samples |
| `Analyzer.StopTimeOf` | app/models.py:157-161 | the stop time waits iff the CCCT count is not exactly `last_ccctcycle` (or is 0); a NaN result comes only from the quadratic family |
| `Analyzer.LeftBorderReadsWidthEdge` | app/models.py:199-203 | a computed left border means smoothing and the peak analysis of the first-stage curve succeeded, width `peak` exists, and the border is the voltage of the row labelled by the half-even rounded left edge of that width |
| `Analyzer.LeftBorderIsSampledVoltage` | app/models.py:197-203 | a computed left border is the voltage of one of the 30 ICA samples |
| `Analyzer.RightBorderReadsPeak` | app/models.py:214-218 | a computed right border means smoothing and the peak analysis of the second-stage curve succeeded, and the border is the voltage of the row at position `peaks[peak]` (by position, not label; not at a width edge) |
| `Analyzer.RightBorderIsSampledVoltage` | app/models.py:212-218 | a computed right border is the voltage of one of the ICA samples at positions 30 to 59 |
| `Analyzer.FitInputIsSortedAndUnconstrained` | app/models.py:164-181 | `Fitted` is the fit of the dispatched family called with the SOC values as data and the times as x of a time-sorted permutation of the samples, and with the family's degree + 1 parameter names in order, each starting at 0 and unbounded |
| `Analyzer.StopTimeFromFit` | app/models.py:182-189 | never waits; a missing first parameter is a fault; NaN comes only from the quadratic family |
| `Analyzer.StopTimeFromFitInverts` | app/models.py:183-189 | a finite stop time from fitted parameters comes from a present, non-zero first parameter c and solves c * t^degree = 0.8 when the root is exact |
| `Analyzer.StopTimeInvertsFirstParameter` | app/models.py:181-190 | a computed stop time divides by the first fitted parameter, which is present and non-zero; for linear c * t = 0.8, and for quadratic and cubic c * t^d = 0.8 when the root is exact |
| `Analyzer.RegisteredBatteriesFitCubic` | start.py:28-35 | every registered model name dispatches to the cubic family, so every registered battery's stop time is the cube root of 0.8 / qubic_c0 |
| `Analyzer.Battery.constructor` | app/models.py:48-63 | a new battery has its parameters and samples, and no borders or stop time yet |
| `Analyzer.BatteryAnalyzer.constructor` | app/models.py:102-108 | the analyzer works on the given battery |
| `Analyzer.BatteryAnalyzer.EstimateLeftBorder` | app/models.py:195-207 | returns the left-border outcome; only `leftBorder` may change, and it changes only to a computed value |
| `Analyzer.BatteryAnalyzer.EstimateRightBorder` | app/models.py:210-222 | returns the right-border outcome; only `rightBorder` may change, and it changes only to a computed value |
| `Analyzer.BatteryAnalyzer.EstimateStopTime` | app/models.py:157-192 | returns the stop-time outcome; only `stopTime` may change, and it changes only to a computed value |

## Left out

- Web application, login and registration: the routes of `start.py` are not
  modelled. Only the parameter values registration assigns are kept.
- Event wiring: the `event.listen` hooks that start the analyses when samples
  are appended are not modelled, and neither are the two small handler
  functions in `user_page`.
- Database access: the SQL count queries become the length of the sample
  sequences, and the `soc` column property is taken as given in each
  `CcctSample`. Looking up the battery by user name and `session.commit` are
  left out.
- Sample order: the queries have no ORDER BY, so the model assumes insertion
  order. It also assumes the separate charge and voltage queries return rows
  in the same order.
- Nullable columns: `None` or NaN values in samples and parameters are not
  modelled.
- Floating point: all arithmetic is over exact reals. The 3-decimal rounding
  of voltages is the uninterpreted key `round3`. Numpy's half-to-even rounding
  of a left edge is exact over reals but ignores binary representation.
- Foreign routines (`External.Numerics`): `gaussian_filter`, `find_peaks`,
  `peak_prominences`, `peak_widths`, the lmfit fit, `np.sqrt` and `np.cbrt` are
  library code. They are inputs, not models.
- The lmfit call: lmfit's `Model.fit` takes `(data, params, weights, ...)` and
  expects the independent variable as the keyword `x`. The call
  `fit(y, params, x)` therefore passes the times as weights and supplies no
  `x`. On that reading of lmfit's signature, lmfit rejects the call and every
  stop-time estimation ends in an exception before `stop_time` is written.
  lmfit is not part of this model. `Fitted` passes the times as the
  independent variable, which is evidently what was intended, and the model
  does not capture that failure.
- Division by zero, peak height: the height is a value of a float64 column, so
  with height 0 numpy computes `(h - p)/h` as -inf or NaN with a warning, not an
  exception. The loop then calls `peak_widths` with that relative height, and a
  border may still be written. The model turns this case into a `ZeroHeight`
  fault that leaves the field unchanged.
- Division by zero, first coefficient: the code divides 0.8 by the lmfit
  `Parameter` that `result.params.get` returns. What a zero value then gives
  depends on lmfit's value type, which the code does not show: either an
  exception, or inf (whose cube root, inf, would be stored). The model makes it
  a `ZeroCoefficient` fault that leaves the field unchanged.
- State of charge: `soc` is the column property `overal_charge / nominal_charge`
  (app/models.py:73-76). The model takes each sample's `soc` as given, so
  `Battery.nominalCharge` is carried, but nothing in the model reads it.
- DataFrame truthiness: `if data:` on a DataFrame raises in pandas. The model
  reads the guard as "a curve is present", the evident intent.
- Stored types: `left_border`, `right_border` and `stop_time` are Integer
  columns. The model stores the real value assigned; database coercion is not
  modelled.
- Output: print statements, and the commented-out helper functions at the end
  of `app/models.py`.
- Fitting.SortByTime: pandas' default sort is not stable, so samples with equal
  times may come out in any order. The model fixes one order (stable insertion)
  and proves only "sorted and a permutation", which every valid order satisfies.
