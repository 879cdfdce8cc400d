/** Python and numpy conventions the analysis relies on: indexing that counts
    from the end for negative indices, clamped slices, and numpy's rounding of
    a fractional position to the nearest integer. */
module Indexing {
  import opened Common

  /** `s[i]` on a Python list or numpy array: a negative index counts from the
      end, anything else out of range is an IndexError (None). */
  function At<T>(s: seq<T>, i: int): (r: Option<T>)
    ensures r.Some? <==> -|s| <= i < |s|
    ensures r.Some? ==> r.value in s
    ensures 0 <= i < |s| ==> r == Some(s[i])
  {
    if 0 <= i < |s| then Some(s[i])
    else if -|s| <= i < 0 then Some(s[|s| + i])
    else None
  }

  /** A negative index reads the same element as the index `|s|` further on. */
  lemma AtFromEnd<T>(s: seq<T>, i: int)
    requires 0 <= i < |s|
    ensures At(s, i - |s|) == At(s, i)
  {
  }

  /** Python slice `s[lo:hi]` with non-negative bounds: bounds beyond the end
      are clamped to the end. */
  function Slice<T>(s: seq<T>, lo: nat, hi: nat): (w: seq<T>)
    requires lo <= hi
    ensures |w| == if |s| <= lo then 0 else if |s| <= hi then |s| - lo else hi - lo
    ensures forall k :: 0 <= k < |w| ==> w[k] == s[lo + k]
  {
    if |s| <= lo then [] else if |s| <= hi then s[lo..] else s[lo..hi]
  }

  /** numpy `round()` to 0 decimals: the nearest integer, ties to the even one. */
  function RoundHalfEven(x: real): (n: int)
    ensures -0.5 <= x - n as real <= 0.5
    ensures (x - n as real == 0.5 || x - n as real == -0.5) ==> n % 2 == 0
  {
    var f := x.Floor;
    var d := x - f as real;
    if d < 0.5 then f
    else if d > 0.5 then f + 1
    else if f % 2 == 0 then f
    else f + 1
  }

  /** The two properties of RoundHalfEven determine it: any integer within 1/2
      of x that is even whenever it is exactly 1/2 away is RoundHalfEven(x). */
  lemma RoundHalfEvenUnique(x: real, m: int)
    requires -0.5 <= x - m as real <= 0.5
    requires (x - m as real == 0.5 || x - m as real == -0.5) ==> m % 2 == 0
    ensures m == RoundHalfEven(x)
  {
    var n := RoundHalfEven(x);
    assert -1.0 <= (m - n) as real <= 1.0;
  }
}
