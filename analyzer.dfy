/** The battery analyzer: the border and stop-time estimations, each as a
    specification function of the battery's data and parameters, and the
    class whose methods run them and update the battery's stored fields. */
module Analyzer {
  import opened Common
  import opened Indexing
  import opened Config
  import opened IncCurve
  import opened Peaks
  import opened Fitting
  import opened External

  /** What an estimation did: waited for more data, stopped on a fault, or
      computed the value it stores. */
  datatype Outcome<T> = Waiting | Failed(fault: Fault) | Computed(value: T)

  /** A stored field after an estimation with outcome `o`: only a computed
      value is written. */
  function Stored<T>(o: Outcome<T>, previous: Option<T>): (r: Option<T>)
    ensures o.Computed? ==> r == Some(o.value)
    ensures !o.Computed? ==> r == previous
  {
    if o.Computed? then Some(o.value) else previous
  }

  /** Re-running an estimation on unchanged data leaves the field as the first run left it. */
  lemma StoredIdempotent<T>(o: Outcome<T>, previous: Option<T>)
    ensures Stored(o, Stored(o, previous)) == Stored(o, previous)
  {
  }

  /** The `dQ/dV` column of a curve. */
  function DQDV(curve: seq<Row>): (values: seq<real>)
    ensures |values| == |curve| && forall j :: 0 <= j < |curve| ==> values[j] == curve[j].dQdV
  {
    seq(|curve|, j requires 0 <= j < |curve| => curve[j].dQdV)
  }

  /** `gaussian_f`: the smoothed dQ/dV column with sigma `filterParameter`.
      Assigning it as a new column fails unless it has one value per row. */
  function Smooth(curve: seq<Row>, sigma: int, num: Numerics): (r: Result<seq<real>>)
    ensures r.Ok? <==> |num.gaussianFilter(DQDV(curve), sigma)| == |curve|
    ensures r.Ok? ==> r.value == num.gaussianFilter(DQDV(curve), sigma) && |r.value| == |curve|
    ensures r.Err? ==> r.fault == LengthMismatch
  {
    var g := num.gaussianFilter(DQDV(curve), sigma);
    if |g| != |curve| then Err(LengthMismatch) else Ok(g)
  }

  /** A stage's curve together with its peak analysis. */
  datatype Analysis = Analysis(curve: seq<Row>, analysis: PeakAnalysis)

  /** The part both border estimations share: the stage's curve, smoothed,
      and its peaks and widths. */
  function AnalyzeStage(ica: seq<Sample>, staps: int, params: Parameters, num: Numerics): (r: Outcome<Analysis>)
    ensures r.Waiting? <==> !(0 < |ica| && |ica| == staps)
    ensures r.Computed? ==> MakeIncCurve(ica, staps, num.round3) == Some(r.value.curve)
    ensures r.Computed? ==>
      var smoothed := Smooth(r.value.curve, params.filterParameter, num);
      smoothed.Ok? && PeakWidthsOf(r.value.curve, smoothed.value, num) == Ok(r.value.analysis)
    ensures r.Failed? <==>
      MakeIncCurve(ica, staps, num.round3).Some? &&
      var curve := MakeIncCurve(ica, staps, num.round3).value;
      var smoothed := Smooth(curve, params.filterParameter, num);
      smoothed.Err? || PeakWidthsOf(curve, smoothed.value, num).Err?
  {
    match MakeIncCurve(ica, staps, num.round3)
    case None => Waiting
    case Some(curve) =>
      match Smooth(curve, params.filterParameter, num)
      case Err(f) => Failed(f)
      case Ok(smoothed) =>
        match PeakWidthsOf(curve, smoothed, num)
        case Err(f) => Failed(f)
        case Ok(a) => Computed(Analysis(curve, a))
  }

  /** `estimate_left_border`: on the first-stage curve, the voltage of the row
      whose label is the rounded left edge of the width of peak `peak`. */
  function LeftBorderOf(ica: seq<Sample>, params: Parameters, num: Numerics): (r: Outcome<real>)
    ensures r.Waiting? <==> |ica| != FirstStage
  {
    match AnalyzeStage(ica, FirstStage, params, num)
    case Waiting => Waiting
    case Failed(f) => Failed(f)
    case Computed(s) =>
      match At(s.analysis.widths, params.peak)
      case None => Failed(IndexError)
      case Some(w) =>
        match FindLabel(s.curve, RoundHalfEven(w.leftIps))
        case None => Failed(KeyError)
        case Some(j) => Computed(s.curve[j].voltage)
  }

  /** `estimate_right_border`: on the second-stage curve, the voltage of the
      row at the position of peak `peak` itself. */
  function RightBorderOf(ica: seq<Sample>, params: Parameters, num: Numerics): (r: Outcome<real>)
    ensures r.Waiting? <==> |ica| != SecondStage
  {
    match AnalyzeStage(ica, SecondStage, params, num)
    case Waiting => Waiting
    case Failed(f) => Failed(f)
    case Computed(s) =>
      match At(s.analysis.peaks, params.peak)
      case None => Failed(IndexError)
      case Some(p) =>
        match At(s.curve, p)
        case None => Failed(IndexError)
        case Some(row) => Computed(row.voltage)
  }

  // ---------------------------------------------------------------------------
  // Properties of the border estimations
  // ---------------------------------------------------------------------------

  /** A computed left border is read off the first-stage curve: smoothing and
      the peak analysis succeed, width `peak` exists, and the border is the
      voltage of the row labelled by the half-even rounded left edge of that
      width. */
  lemma LeftBorderReadsWidthEdge(ica: seq<Sample>, params: Parameters, num: Numerics)
    ensures LeftBorderOf(ica, params, num).Computed? ==>
      var c := MakeIncCurve(ica, FirstStage, num.round3).value;
      var sm := Smooth(c, params.filterParameter, num);
      sm.Ok? && PeakWidthsOf(c, sm.value, num).Ok? &&
      var ws := PeakWidthsOf(c, sm.value, num).value.widths;
      At(ws, params.peak).Some? &&
      exists j :: 0 <= j < |c| &&
        c[j].rowLabel == RoundHalfEven(At(ws, params.peak).value.leftIps) &&
        c[j].voltage == LeftBorderOf(ica, params, num).value
  {
  }

  /** A computed left border is the voltage of one of the 30 ICA samples. */
  lemma LeftBorderIsSampledVoltage(ica: seq<Sample>, params: Parameters, num: Numerics)
    ensures LeftBorderOf(ica, params, num).Computed? ==>
      exists i :: 0 <= i < |ica| && ica[i].voltage == LeftBorderOf(ica, params, num).value
  {
    if LeftBorderOf(ica, params, num).Computed? {
      var s := AnalyzeStage(ica, FirstStage, params, num).value;
      var w := At(s.analysis.widths, params.peak).value;
      var j := FindLabel(s.curve, RoundHalfEven(w.leftIps)).value;
      CurveVoltagesAreSampled(ica, FirstStage, num.round3);
    }
  }

  /** A computed right border is read off the second-stage curve: smoothing
      and the peak analysis succeed, peak `peak` exists, and the border is the
      voltage of the row at that peak's position (not at a width edge, and by
      position rather than by label). */
  lemma RightBorderReadsPeak(ica: seq<Sample>, params: Parameters, num: Numerics)
    ensures RightBorderOf(ica, params, num).Computed? ==>
      var c := MakeIncCurve(ica, SecondStage, num.round3).value;
      var sm := Smooth(c, params.filterParameter, num);
      sm.Ok? && PeakWidthsOf(c, sm.value, num).Ok? &&
      var pk := PeakWidthsOf(c, sm.value, num).value.peaks;
      At(pk, params.peak).Some? && At(c, At(pk, params.peak).value).Some? &&
      RightBorderOf(ica, params, num).value == At(c, At(pk, params.peak).value).value.voltage
  {
  }

  /** A computed right border is the voltage of one of the ICA samples at
      positions 30 to 59. */
  lemma RightBorderIsSampledVoltage(ica: seq<Sample>, params: Parameters, num: Numerics)
    ensures RightBorderOf(ica, params, num).Computed? ==>
      exists i :: 30 <= i < 60 && ica[i].voltage == RightBorderOf(ica, params, num).value
  {
    if RightBorderOf(ica, params, num).Computed? {
      var s := AnalyzeStage(ica, SecondStage, params, num).value;
      var p := At(s.analysis.peaks, params.peak).value;
      assert At(s.curve, p).value in s.curve;
      SecondStageVoltagesAreSampled(ica, num.round3);
    }
  }

  /** The fitted parameters for the CCCT samples: the chosen family fitted to
      the time-sorted SOC values from its initial parameters. */
  function Fitted(ccct: seq<CcctSample>, params: Parameters, num: Numerics): map<string, real>
  {
    var sorted := SortByTime(ccct);
    var family := Dispatch(params.lmfitModel);
    num.fit(family, Socs(sorted), InitialParams(ParamNames(family)), Times(sorted))
  }

  /** What the fit is called with: the state-of-charge values as data and the
      times as x, both taken from the samples sorted by time (a permutation of
      them), and one parameter per name of the dispatched family, in order,
      each starting at 0 and unbounded. */
  lemma FitInputIsSortedAndUnconstrained(ccct: seq<CcctSample>, params: Parameters, num: Numerics)
    ensures var family := Dispatch(params.lmfitModel);
      exists sorted: seq<CcctSample>, ps: seq<Param> ::
        SortedByTime(sorted) && multiset(sorted) == multiset(ccct) &&
        |ps| == Degree(family) + 1 &&
        (forall i :: 0 <= i < |ps| ==>
          ps[i].name == ParamNames(family)[i] && ps[i].value == 0.0 &&
          ps[i].min == NegInfinity && ps[i].max == PosInfinity) &&
        Fitted(ccct, params, num) == num.fit(family, Socs(sorted), ps, Times(sorted))
  {
    var family := Dispatch(params.lmfitModel);
    var sorted := SortByTime(ccct);
    var ps := InitialParams(ParamNames(family));
    assert Fitted(ccct, params, num) == num.fit(family, Socs(sorted), ps, Times(sorted));
  }

  /** The stop time from a fit's parameters: the family's first parameter
      must be present, and is then inverted as the family says. */
  function StopTimeFromFit(family: Family, fitted: map<string, real>, num: Numerics): (r: Outcome<Float>)
    ensures r.Waiting? == false
    ensures r == Computed(NaN) ==> family == Quadratic
    ensures ParamNames(family)[0] !in fitted ==> r == Failed(MissingParameter)
  {
    var first := ParamNames(family)[0];
    if first !in fitted then Failed(MissingParameter)
    else match StopTimeFrom(family, fitted[first], num.sqrt, num.cbrt)
      case Err(f) => Failed(f)
      case Ok(t) => Computed(t)
  }

  /** `estimate_stop_time`: nothing until the battery has exactly
      `lastCcctCycle` CCCT samples; then the stop time from the family's first
      fitted parameter. */
  function StopTimeOf(ccct: seq<CcctSample>, params: Parameters, num: Numerics): (r: Outcome<Float>)
    ensures r.Waiting? <==> !(0 < |ccct| && |ccct| == params.lastCcctCycle)
    ensures r == Computed(NaN) ==> Dispatch(params.lmfitModel) == Quadratic
  {
    if |ccct| == 0 || |ccct| != params.lastCcctCycle then Waiting
    else StopTimeFromFit(Dispatch(params.lmfitModel), Fitted(ccct, params, num), num)
  }

  /** A computed stop time inverts the first fitted parameter: for the linear
      family it solves `c * t == 0.8`, and for the others `c * t^d == 0.8`
      whenever the foreign root is exact there. */
  lemma StopTimeInvertsFirstParameter(ccct: seq<CcctSample>, params: Parameters, num: Numerics)
    requires StopTimeOf(ccct, params, num).Computed?
    requires StopTimeOf(ccct, params, num).value.Number?
    ensures var family := Dispatch(params.lmfitModel);
      var first := ParamNames(family)[0];
      var fitted := Fitted(ccct, params, num);
      var c := fitted[first];
      var t := StopTimeOf(ccct, params, num).value.value;
      first in fitted && c != 0.0 &&
      (family == Linear ==> c * t == Threshold) &&
      (family == Quadratic && num.sqrt(Threshold / c) * num.sqrt(Threshold / c) == Threshold / c ==>
        c * (t * t) == Threshold) &&
      (family == Cubic && num.cbrt(Threshold / c) * num.cbrt(Threshold / c) * num.cbrt(Threshold / c) == Threshold / c ==>
        c * (t * t * t) == Threshold)
  {
    var fitted := Fitted(ccct, params, num);
    assert StopTimeOf(ccct, params, num) == StopTimeFromFit(Dispatch(params.lmfitModel), fitted, num);
    StopTimeFromFitInverts(Dispatch(params.lmfitModel), fitted, num);
  }

  /** A computed, finite stop time from fitted parameters solves
      `c * t^d == 0.8` for the family's first parameter c (for the root
      families, whenever the foreign root is exact there). */
  lemma StopTimeFromFitInverts(family: Family, fitted: map<string, real>, num: Numerics)
    requires StopTimeFromFit(family, fitted, num).Computed?
    requires StopTimeFromFit(family, fitted, num).value.Number?
    ensures var first := ParamNames(family)[0];
      var c := fitted[first];
      var t := StopTimeFromFit(family, fitted, num).value.value;
      first in fitted && c != 0.0 &&
      (family == Linear ==> c * t == Threshold) &&
      (family == Quadratic && num.sqrt(Threshold / c) * num.sqrt(Threshold / c) == Threshold / c ==>
        c * (t * t) == Threshold) &&
      (family == Cubic && num.cbrt(Threshold / c) * num.cbrt(Threshold / c) * num.cbrt(Threshold / c) == Threshold / c ==>
        c * (t * t * t) == Threshold)
  {
    var c := fitted[ParamNames(family)[0]];
    var t := StopTimeFromFit(family, fitted, num).value.value;
    assert StopTimeFrom(family, c, num.sqrt, num.cbrt).value == Number(t);
    PowSmall(t);
    if family == Linear {
      StopTimeSolvesThreshold(family, c, num.sqrt, num.cbrt);
    } else if family == Quadratic && num.sqrt(Threshold / c) * num.sqrt(Threshold / c) == Threshold / c {
      StopTimeSolvesThreshold(family, c, num.sqrt, num.cbrt);
    } else if family == Cubic && num.cbrt(Threshold / c) * num.cbrt(Threshold / c) * num.cbrt(Threshold / c) == Threshold / c {
      StopTimeSolvesThreshold(family, c, num.sqrt, num.cbrt);
    }
  }

  /** Registration stores "linear", "quadratic" or "qubic", none of which is a
      name the dispatch recognises: every registered battery is fitted with the
      cubic model and its stop time is a cube root. */
  lemma RegisteredBatteriesFitCubic(batType: string, ccct: seq<CcctSample>, num: Numerics)
    ensures Dispatch(RegisteredParameters(batType).lmfitModel) == Cubic
    ensures var params := RegisteredParameters(batType);
      StopTimeOf(ccct, params, num).Computed? ==>
      StopTimeOf(ccct, params, num).value == Number(num.cbrt(Threshold / Fitted(ccct, params, num)["qubic_c0"]))
  {
  }

  // ---------------------------------------------------------------------------
  // The stored state
  // ---------------------------------------------------------------------------

  /** A battery as the analysis sees it: its parameters and samples, and the
      three fields the analysis writes. */
  class Battery {
    const parameters: Parameters
    const nominalCharge: real
    var icaData: seq<Sample>
    var ccctData: seq<CcctSample>
    var leftBorder: Option<real>
    var rightBorder: Option<real>
    var stopTime: Option<Float>

    constructor (parameters: Parameters, nominalCharge: real, icaData: seq<Sample>, ccctData: seq<CcctSample>)
      ensures this.parameters == parameters && this.nominalCharge == nominalCharge
      ensures this.icaData == icaData && this.ccctData == ccctData
      ensures leftBorder == None && rightBorder == None && stopTime == None
    {
      this.parameters := parameters;
      this.nominalCharge := nominalCharge;
      this.icaData := icaData;
      this.ccctData := ccctData;
      leftBorder, rightBorder, stopTime := None, None, None;
    }
  }

  /** The analyzer of one battery. Each estimation writes only its own field
      of the battery, and only when it computes a value. */
  class BatteryAnalyzer {
    const battery: Battery

    constructor (battery: Battery)
      ensures this.battery == battery
    {
      this.battery := battery;
    }

    /** `estimate_left_border`. */
    method EstimateLeftBorder(num: Numerics) returns (status: Outcome<real>)
      modifies battery`leftBorder
      ensures status == LeftBorderOf(battery.icaData, battery.parameters, num)
      ensures battery.leftBorder == Stored(status, old(battery.leftBorder))
    {
      var peak := battery.parameters.peak;
      var data := MakeIncCurve(battery.icaData, FirstStage, num.round3);
      if data.None? {
        return Waiting;
      }
      var curve := data.value;
      var smoothed := Smooth(curve, battery.parameters.filterParameter, num);
      if smoothed.Err? {
        return Failed(smoothed.fault);
      }
      var analysis := DetectPeakWidth(curve, smoothed.value, num);
      if analysis.Err? {
        return Failed(analysis.fault);
      }
      var w := At(analysis.value.widths, peak);
      if w.None? {
        return Failed(IndexError);
      }
      var j := FindLabel(curve, RoundHalfEven(w.value.leftIps));
      if j.None? {
        return Failed(KeyError);
      }
      status := Computed(curve[j.value].voltage);
      battery.leftBorder := Some(curve[j.value].voltage);
    }

    /** `estimate_right_border`. */
    method EstimateRightBorder(num: Numerics) returns (status: Outcome<real>)
      modifies battery`rightBorder
      ensures status == RightBorderOf(battery.icaData, battery.parameters, num)
      ensures battery.rightBorder == Stored(status, old(battery.rightBorder))
    {
      var peak := battery.parameters.peak;
      var data := MakeIncCurve(battery.icaData, SecondStage, num.round3);
      if data.None? {
        return Waiting;
      }
      var curve := data.value;
      var smoothed := Smooth(curve, battery.parameters.filterParameter, num);
      if smoothed.Err? {
        return Failed(smoothed.fault);
      }
      var analysis := DetectPeakWidth(curve, smoothed.value, num);
      if analysis.Err? {
        return Failed(analysis.fault);
      }
      var p := At(analysis.value.peaks, peak);
      if p.None? {
        return Failed(IndexError);
      }
      var row := At(curve, p.value);
      if row.None? {
        return Failed(IndexError);
      }
      status := Computed(row.value.voltage);
      battery.rightBorder := Some(row.value.voltage);
    }

    /** `estimate_stop_time`. */
    method EstimateStopTime(num: Numerics) returns (status: Outcome<Float>)
      modifies battery`stopTime
      ensures status == StopTimeOf(battery.ccctData, battery.parameters, num)
      ensures battery.stopTime == Stored(status, old(battery.stopTime))
    {
      var cyclesCount := |battery.ccctData|;
      if cyclesCount == 0 || cyclesCount != battery.parameters.lastCcctCycle {
        return Waiting;
      }
      var sorted := SortByTime(battery.ccctData);
      var family := Dispatch(battery.parameters.lmfitModel);
      var names := ParamNames(family);
      var params := AddParams(names);
      var fitted := num.fit(family, Socs(sorted), params, Times(sorted));
      if names[0] !in fitted {
        return Failed(MissingParameter);
      }
      var stopTime := StopTimeFrom(family, fitted[names[0]], num.sqrt, num.cbrt);
      if stopTime.Err? {
        return Failed(stopTime.fault);
      }
      status := Computed(stopTime.value);
      battery.stopTime := Some(stopTime.value);
    }
  }
}
