/** The floating-point library code the analysis calls into. None of it is
    modelled: each routine is a function the analysis receives, so every
    property proved here holds whatever these routines return. */
module External {
  import opened Fitting

  /** One result of `peak_widths` for a single peak: the width, the height at
      which it was measured, and the left and right interpolated positions. */
  datatype Width = Width(width: real, widthHeight: real, leftIps: real, rightIps: real)

  /** The foreign routines:
      - `round3`: `round(v, 3)` on a voltage, as the key drop_duplicates compares;
      - `gaussianFilter`: `scipy.ndimage.gaussian_filter(values, sigma)`;
      - `findPeaks`: the peak positions from `scipy.signal.find_peaks`;
      - `peakProminences`: the prominences from `scipy.signal.peak_prominences`;
      - `peakWidths`: `scipy.signal.peak_widths` for one peak at a relative height;
      - `fit`: `Model.fit(y, params, x)` of the chosen lmfit family, giving the
        fitted value of each parameter by name;
      - `sqrt`, `cbrt`: `np.sqrt` on non-negative values and `np.cbrt`. */
  datatype Numerics = Numerics(
    round3: real -> int,
    gaussianFilter: (seq<real>, int) -> seq<real>,
    findPeaks: seq<real> -> seq<int>,
    peakProminences: (seq<real>, seq<int>) -> seq<real>,
    peakWidths: (seq<real>, int, real) -> Width,
    fit: (Family, seq<real>, seq<Param>, seq<int>) -> map<string, real>,
    sqrt: real -> real,
    cbrt: real -> real)
}
