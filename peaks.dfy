/** `detect_peak_width`: the adaptive relative height of each detected peak
    and the width measured at that height. The peak detection, prominences
    and width measurement themselves are foreign routines. */
module Peaks {
  import opened Common
  import opened IncCurve
  import opened External

  /** The relative height `1 - (h - p) / h` given to `peak_widths` for a peak
      of height h and prominence p; it is p / h, and undefined for h == 0. */
  function RelativeHeight(h: real, p: real): (r: Option<real>)
    ensures r.Some? <==> h != 0.0
    ensures r.Some? ==> r.value == p / h
    ensures r.Some? && 0.0 <= p <= h ==> 0.0 <= r.value <= 1.0
  {
    if h == 0.0 then None else Some(1.0 - (h - p) / h)
  }

  /** `data['G_Smoothed_dQ/dV'][label]`: the smoothed value of the row whose
      index label is `wanted`, which after the non-negative filter need not be
      the row at that position. */
  function AtLabel(curve: seq<Row>, smoothed: seq<real>, wanted: int): (r: Option<real>)
    requires |smoothed| == |curve|
    ensures r.Some? <==> exists j :: 0 <= j < |curve| && curve[j].rowLabel == wanted
    ensures r.Some? ==> exists j :: 0 <= j < |curve| && curve[j].rowLabel == wanted && r.value == smoothed[j]
  {
    match FindLabel(curve, wanted)
    case None => None
    case Some(j) => Some(smoothed[j])
  }

  /** Every detected peak position is also a row label of the curve;
      otherwise the lookup `[peaks]` raises KeyError. */
  predicate AllLabelsPresent(curve: seq<Row>, peaks: seq<int>) {
    forall i :: 0 <= i < |peaks| ==> FindLabel(curve, peaks[i]).Some?
  }

  /** What `detect_peak_width` returns: one width per peak, and the peaks. */
  datatype PeakAnalysis = PeakAnalysis(widths: seq<Width>, peaks: seq<int>)

  /** Iteration i of the loop: the height of peak i looked up by label, its
      prominence, the relative height, and the width at that height. */
  function WidthAt(curve: seq<Row>, smoothed: seq<real>, peaks: seq<int>, proms: seq<real>,
                   num: Numerics, i: nat): (r: Result<Width>)
    requires |smoothed| == |curve| && i < |peaks|
    ensures r.Ok? <==> AtLabel(curve, smoothed, peaks[i]).Some? && i < |proms| &&
                       AtLabel(curve, smoothed, peaks[i]).value != 0.0
    ensures r.Ok? ==>
      r.value == num.peakWidths(smoothed, peaks[i], proms[i] / AtLabel(curve, smoothed, peaks[i]).value)
  {
    match AtLabel(curve, smoothed, peaks[i])
    case None => Err(KeyError)
    case Some(h) =>
      if |proms| <= i then Err(IndexError)
      else match RelativeHeight(h, proms[i])
        case None => Err(ZeroHeight)
        case Some(relH) => Ok(num.peakWidths(smoothed, peaks[i], relH))
  }

  /** The list `w` after the first n iterations, or the first fault. */
  function WidthsUpTo(curve: seq<Row>, smoothed: seq<real>, peaks: seq<int>, proms: seq<real>,
                      num: Numerics, n: nat): Result<seq<Width>>
    requires |smoothed| == |curve| && n <= |peaks|
  {
    if n == 0 then Ok([])
    else match WidthsUpTo(curve, smoothed, peaks, proms, num, n - 1)
      case Err(f) => Err(f)
      case Ok(w) =>
        match WidthAt(curve, smoothed, peaks, proms, num, n - 1)
        case Err(f) => Err(f)
        case Ok(x) => Ok(w + [x])
  }

  /** The first n iterations succeed exactly when each of them does, and then
      entry i of `w` is the width of peak i. */
  lemma {:induction false} WidthsUpToEntries(curve: seq<Row>, smoothed: seq<real>, peaks: seq<int>,
                                             proms: seq<real>, num: Numerics, n: nat)
    requires |smoothed| == |curve| && n <= |peaks|
    ensures WidthsUpTo(curve, smoothed, peaks, proms, num, n).Ok? <==>
      forall i :: 0 <= i < n ==> WidthAt(curve, smoothed, peaks, proms, num, i).Ok?
    ensures WidthsUpTo(curve, smoothed, peaks, proms, num, n).Ok? ==>
      var w := WidthsUpTo(curve, smoothed, peaks, proms, num, n).value;
      |w| == n && forall i :: 0 <= i < n ==> WidthAt(curve, smoothed, peaks, proms, num, i) == Ok(w[i])
  {
    if n > 0 {
      WidthsUpToEntries(curve, smoothed, peaks, proms, num, n - 1);
    }
  }

  /** A fault in iteration i is the result of every later prefix. */
  lemma {:induction false} FaultPersists(curve: seq<Row>, smoothed: seq<real>, peaks: seq<int>,
                                         proms: seq<real>, num: Numerics, i: nat, n: nat)
    requires |smoothed| == |curve| && i < n <= |peaks|
    requires WidthsUpTo(curve, smoothed, peaks, proms, num, i).Ok?
    requires WidthAt(curve, smoothed, peaks, proms, num, i).Err?
    ensures WidthsUpTo(curve, smoothed, peaks, proms, num, n) ==
      Err(WidthAt(curve, smoothed, peaks, proms, num, i).fault)
  {
    if n > i + 1 {
      FaultPersists(curve, smoothed, peaks, proms, num, i, n - 1);
    }
  }

  /** The result of `detect_peak_width` on a curve and its smoothed dQ/dV. */
  function PeakWidthsOf(curve: seq<Row>, smoothed: seq<real>, num: Numerics): (r: Result<PeakAnalysis>)
    requires |smoothed| == |curve|
    ensures r.Ok? ==> r.value.peaks == num.findPeaks(smoothed) && |r.value.widths| == |r.value.peaks|
    ensures 0 < |num.findPeaks(smoothed)| && !AllLabelsPresent(curve, num.findPeaks(smoothed)) ==>
      r == Err(KeyError)
  {
    var peaks := num.findPeaks(smoothed);
    var proms := num.peakProminences(smoothed, peaks);
    WidthsUpToEntries(curve, smoothed, peaks, proms, num, |peaks|);
    if 0 < |peaks| && !AllLabelsPresent(curve, peaks) then Err(KeyError)
    else match WidthsUpTo(curve, smoothed, peaks, proms, num, |peaks|)
      case Err(f) => Err(f)
      case Ok(w) => Ok(PeakAnalysis(w, peaks))
  }

  /** The analysis succeeds exactly when every peak position is a row label,
      every peak has a prominence and a non-zero height; then it reports the
      detected peaks and, for peak i, the width measured at relative height
      prominence / height. */
  lemma AdaptiveWidths(curve: seq<Row>, smoothed: seq<real>, num: Numerics)
    requires |smoothed| == |curve|
    ensures var peaks := num.findPeaks(smoothed);
      var proms := num.peakProminences(smoothed, peaks);
      PeakWidthsOf(curve, smoothed, num).Ok? <==>
        forall i :: 0 <= i < |peaks| ==>
          AtLabel(curve, smoothed, peaks[i]).Some? && i < |proms| && AtLabel(curve, smoothed, peaks[i]).value != 0.0
    ensures var peaks := num.findPeaks(smoothed);
      var proms := num.peakProminences(smoothed, peaks);
      var r := PeakWidthsOf(curve, smoothed, num);
      r.Ok? ==>
        r.value.peaks == peaks && |r.value.widths| == |peaks| &&
        forall i :: 0 <= i < |peaks| ==>
          r.value.widths[i] == num.peakWidths(smoothed, peaks[i], proms[i] / AtLabel(curve, smoothed, peaks[i]).value)
  {
    var peaks := num.findPeaks(smoothed);
    var proms := num.peakProminences(smoothed, peaks);
    WidthsUpToEntries(curve, smoothed, peaks, proms, num, |peaks|);
    if AllLabelsPresent(curve, peaks) {
      forall i | 0 <= i < |peaks|
        ensures WidthAt(curve, smoothed, peaks, proms, num, i).Ok? <==>
          AtLabel(curve, smoothed, peaks[i]).Some? && i < |proms| && AtLabel(curve, smoothed, peaks[i]).value != 0.0
      {
      }
      assert PeakWidthsOf(curve, smoothed, num).Ok? <==>
        WidthsUpTo(curve, smoothed, peaks, proms, num, |peaks|).Ok?;
    } else {
      var i :| 0 <= i < |peaks| && FindLabel(curve, peaks[i]).None?;
      assert AtLabel(curve, smoothed, peaks[i]).None?;
    }
  }

  /** `detect_peak_width`: the loop over the detected peaks that appends one
      width per peak to `w`. */
  method DetectPeakWidth(curve: seq<Row>, smoothed: seq<real>, num: Numerics) returns (r: Result<PeakAnalysis>)
    requires |smoothed| == |curve|
    ensures r == PeakWidthsOf(curve, smoothed, num)
  {
    var peaks := num.findPeaks(smoothed);
    var proms := num.peakProminences(smoothed, peaks);
    var w: seq<Width> := [];
    var i := 0;
    while i < |peaks|
      invariant 0 <= i <= |peaks|
      invariant WidthsUpTo(curve, smoothed, peaks, proms, num, i) == Ok(w)
      invariant 0 < i ==> AllLabelsPresent(curve, peaks)
    {
      if !AllLabelsPresent(curve, peaks) {
        return Err(KeyError);
      }
      var h := AtLabel(curve, smoothed, peaks[i]);
      if |proms| <= i {
        FaultPersists(curve, smoothed, peaks, proms, num, i, |peaks|);
        return Err(IndexError);
      }
      var relH := RelativeHeight(h.value, proms[i]);
      if relH.None? {
        FaultPersists(curve, smoothed, peaks, proms, num, i, |peaks|);
        return Err(ZeroHeight);
      }
      var width := num.peakWidths(smoothed, peaks[i], relH.value);
      w := w + [width];
      i := i + 1;
    }
    return Ok(PeakAnalysis(w, peaks));
  }
}
