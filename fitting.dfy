/** The degradation model: sorting CCCT samples by elapsed time, choosing the
    model family from its configured name, the initial fit parameters, and the
    inversion of the fitted first coefficient to a stop time. */
module Fitting {
  import opened Common

  /** One CCCT sample as the analysis reads it: elapsed time and state of charge. */
  datatype CcctSample = CcctSample(time: int, soc: real)

  predicate SortedByTime(s: seq<CcctSample>) {
    forall i, j :: 0 <= i < j < |s| ==> s[i].time <= s[j].time
  }

  /** Inserts `x` into a time-sorted sequence, after every sample with the same time. */
  function InsertByTime(x: CcctSample, s: seq<CcctSample>): (r: seq<CcctSample>)
    requires SortedByTime(s)
    ensures SortedByTime(r)
    ensures multiset(r) == multiset(s) + multiset{x}
  {
    if |s| == 0 then [x]
    else if x.time < s[0].time then [x] + s
    else
      var rest := InsertByTime(x, s[1..]);
      assert s == [s[0]] + s[1..];
      LaterSamplesNotEarlier(s[0], x, s[1..], rest);
      [s[0]] + rest
  }

  /** Every sample of `rest`, a permutation of `s` plus `x`, is no earlier than `first`. */
  lemma LaterSamplesNotEarlier(first: CcctSample, x: CcctSample, s: seq<CcctSample>, rest: seq<CcctSample>)
    requires first.time <= x.time
    requires forall k :: 0 <= k < |s| ==> first.time <= s[k].time
    requires multiset(rest) == multiset(s) + multiset{x}
    ensures forall k :: 0 <= k < |rest| ==> first.time <= rest[k].time
  {
    forall k | 0 <= k < |rest|
      ensures first.time <= rest[k].time
    {
      assert rest[k] in multiset(rest);
      assert rest[k] == x || rest[k] in s;
    }
  }

  /** `sort_values(by=['x'])`: the samples in ascending time order. */
  function SortByTime(s: seq<CcctSample>): (r: seq<CcctSample>)
    ensures SortedByTime(r)
    ensures multiset(r) == multiset(s)
    ensures |r| == |s|
  {
    if |s| == 0 then []
    else
      assert s == [s[0]] + s[1..];
      InsertByTime(s[0], SortByTime(s[1..]))
  }

  /** The `x` column handed to the fit. */
  function Times(s: seq<CcctSample>): (xs: seq<int>)
    ensures |xs| == |s| && forall i :: 0 <= i < |s| ==> xs[i] == s[i].time
  {
    seq(|s|, i requires 0 <= i < |s| => s[i].time)
  }

  /** The `y` column handed to the fit. */
  function Socs(s: seq<CcctSample>): (ys: seq<real>)
    ensures |ys| == |s| && forall i :: 0 <= i < |s| ==> ys[i] == s[i].soc
  {
    seq(|s|, i requires 0 <= i < |s| => s[i].soc)
  }

  /** The lmfit model families the analysis distinguishes. */
  datatype Family = Linear | Quadratic | Cubic

  /** Polynomial degree of a family. */
  function Degree(f: Family): nat {
    match f
    case Linear => 1
    case Quadratic => 2
    case Cubic => 3
  }

  /** Chooses the family from `lmfit_model`. Only the exact names "linear_" and
      "quadratic_" select the linear and quadratic models; every other name,
      whatever it is, falls back to the cubic model. */
  function Dispatch(name: string): (f: Family)
    ensures f == Linear <==> name == "linear_"
    ensures f == Quadratic <==> name == "quadratic_"
    ensures f == Cubic <==> name != "linear_" && name != "quadratic_"
  {
    if name == "linear_" then Linear
    else if name == "quadratic_" then Quadratic
    else Cubic
  }

  /** The fit parameter names of a family; the stop time reads the first. */
  function ParamNames(f: Family): (names: seq<string>)
    ensures |names| == Degree(f) + 1
    ensures forall i, j :: 0 <= i < j < |names| ==> names[i] != names[j]
  {
    match f
    case Linear => ["linear_intercept", "linear_slope"]
    case Quadratic => ["quadratic_a", "quadratic_b", "quadratic_c"]
    case Cubic => ["qubic_c0", "qubic_c1", "qubic_c2", "qubic_c3"]
  }

  /** A parameter bound: the source gives every bound as plus or minus infinity. */
  datatype Bound = NegInfinity | PosInfinity | Finite(limit: real)

  /** One entry of an lmfit parameter set. */
  datatype Param = Param(name: string, value: real, min: Bound, max: Bound)

  /** The parameter `params.add(name, value=0, min=-inf, max=inf)` creates. */
  function Unconstrained(name: string): Param {
    Param(name, 0.0, NegInfinity, PosInfinity)
  }

  /** The parameter set built by adding every name in order. */
  function InitialParams(names: seq<string>): (ps: seq<Param>)
    ensures |ps| == |names|
    ensures forall i :: 0 <= i < |ps| ==> ps[i].name == names[i] && ps[i].value == 0.0
    ensures forall i :: 0 <= i < |ps| ==> ps[i].min == NegInfinity && ps[i].max == PosInfinity
  {
    seq(|names|, i requires 0 <= i < |names| => Unconstrained(names[i]))
  }

  /** The loop that calls `params.add` once per name. The names of a family are
      distinct, so no call overwrites an earlier parameter. */
  method AddParams(names: seq<string>) returns (ps: seq<Param>)
    ensures ps == InitialParams(names)
  {
    ps := [];
    var i := 0;
    while i < |names|
      invariant 0 <= i <= |names|
      invariant ps == InitialParams(names[..i])
    {
      ps := ps + [Unconstrained(names[i])];
      i := i + 1;
    }
    assert names[..i] == names;
  }

  /** The end-of-life threshold in the inversion. */
  const Threshold: real := 0.8

  /** A float result: the square root of a negative number is NaN in numpy. */
  datatype Float = Number(value: real) | NaN

  /** The stop time from the fitted first coefficient `c`: `0.8 / c`, then its
      square root for the quadratic family and its cube root for the cubic
      one. Dividing by a zero coefficient is a fault; numpy's square root of a
      negative quotient is NaN. The roots are foreign code, given as `sqrt`
      and `cbrt`. */
  function StopTimeFrom(f: Family, c: real, sqrt: real -> real, cbrt: real -> real): (t: Result<Float>)
    ensures t.Err? <==> c == 0.0
    ensures t == Ok(NaN) <==> f == Quadratic && c < 0.0
    ensures t.Ok? && f == Linear ==> t.value == Number(Threshold / c)
    ensures t.Ok? && f == Quadratic && c > 0.0 ==> t.value == Number(sqrt(Threshold / c))
    ensures t.Ok? && f == Cubic ==> t.value == Number(cbrt(Threshold / c))
  {
    if c == 0.0 then Err(ZeroCoefficient)
    else
      var base := Threshold / c;
      match f
      case Linear => Ok(Number(base))
      case Quadratic => if base < 0.0 then Ok(NaN) else Ok(Number(sqrt(base)))
      case Cubic => Ok(Number(cbrt(base)))
  }

  /** The power `t^n`. */
  function Pow(t: real, n: nat): real {
    if n == 0 then 1.0 else t * Pow(t, n - 1)
  }

  /** The stop time solves `c * t^d == 0.8` for the family's degree d, provided
      the foreign root is exact at the value it is applied to. */
  lemma StopTimeSolvesThreshold(f: Family, c: real, sqrt: real -> real, cbrt: real -> real)
    requires c != 0.0
    requires f == Quadratic ==> sqrt(Threshold / c) * sqrt(Threshold / c) == Threshold / c
    requires f == Cubic ==> cbrt(Threshold / c) * cbrt(Threshold / c) * cbrt(Threshold / c) == Threshold / c
    requires StopTimeFrom(f, c, sqrt, cbrt).value.Number?
    ensures c * Pow(StopTimeFrom(f, c, sqrt, cbrt).value.value, Degree(f)) == Threshold
  {
    var t := StopTimeFrom(f, c, sqrt, cbrt).value.value;
    var b := Threshold / c;
    assert c * b == Threshold;
    PowSmall(t);
    if f == Quadratic {
      assert t == sqrt(b);
      assert c * (t * t) == c * b;
    } else if f == Cubic {
      assert t == cbrt(b);
      assert c * (t * t * t) == c * b;
    }
  }

  lemma PowSmall(t: real)
    ensures Pow(t, 1) == t && Pow(t, 2) == t * t && Pow(t, 3) == t * t * t
  {
    assert Pow(t, 1) == t * Pow(t, 0);
    assert Pow(t, 2) == t * Pow(t, 1);
    assert Pow(t, 3) == t * Pow(t, 2);
  }
}
