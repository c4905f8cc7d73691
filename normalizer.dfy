/**
 * `normalizeData`: linear min-max rescaling of a series into [0,1], with a
 * flat series sent to the mid value 0.5. Values are exact reals here.
 */
module Normalizer {

  /** `Math.min(...data)` on a non-empty series: an element that no element is below. */
  function Min(data: seq<real>): (m: real)
    requires |data| > 0
    ensures m in data
    ensures forall i :: 0 <= i < |data| ==> m <= data[i]
  {
    if |data| == 1 then data[0]
    else
      var rest := Min(data[1..]);
      assert forall i :: 1 <= i < |data| ==> data[i] == data[1..][i - 1];
      if data[0] <= rest then data[0] else rest
  }

  /** `Math.max(...data)` on a non-empty series: an element that no element is above. */
  function Max(data: seq<real>): (m: real)
    requires |data| > 0
    ensures m in data
    ensures forall i :: 0 <= i < |data| ==> data[i] <= m
  {
    if |data| == 1 then data[0]
    else
      var rest := Max(data[1..]);
      assert forall i :: 1 <= i < |data| ==> data[i] == data[1..][i - 1];
      if data[0] >= rest then data[0] else rest
  }

  /** A quotient `x / d` with `0 <= x <= d` lies in [0,1]. */
  lemma DivInUnit(x: real, d: real)
    requires d > 0.0 && 0.0 <= x <= d
    ensures 0.0 <= x / d <= 1.0
  {
  }

  /** One point of the min-max rescaling: `(v - lo) / (hi - lo)`, in [0,1] for `v` between the bounds. */
  function Rescale(v: real, lo: real, hi: real): (r: real)
    requires lo <= v <= hi && lo < hi
    ensures 0.0 <= r <= 1.0
    ensures v == lo ==> r == 0.0
    ensures v == hi ==> r == 1.0
  {
    DivInUnit(v - lo, hi - lo);
    (v - lo) / (hi - lo)
  }

  /**
   * `normalizeData(data)`. An empty series maps to the empty series (the
   * source's `data.map` over no elements); a flat one to all 0.5; any other
   * to `(v - min) / (max - min)` pointwise.
   */
  function Normalize(data: seq<real>): (r: seq<real>)
    ensures |r| == |data|
    ensures forall i :: 0 <= i < |r| ==> 0.0 <= r[i] <= 1.0
  {
    if |data| == 0 then []
    else
      var lo, hi := Min(data), Max(data);
      if hi - lo == 0.0 then seq(|data|, _ => 0.5)
      else seq(|data|, i requires 0 <= i < |data| => Rescale(data[i], lo, hi))
  }

  /** The rescaling of one point is monotone in the point. */
  lemma RescaleMonotone(v: real, w: real, lo: real, hi: real)
    requires lo <= v <= w <= hi && lo < hi
    ensures Rescale(v, lo, hi) <= Rescale(w, lo, hi)
  {
    DivMonotone(v - lo, w - lo, hi - lo);
  }

  lemma DivMonotone(x: real, y: real, d: real)
    requires d > 0.0 && x <= y
    ensures x / d <= y / d
  {
  }

  /** One point of the normalization, unfolded. */
  lemma NormalizeAt(data: seq<real>, i: int)
    requires 0 <= i < |data|
    ensures Min(data) == Max(data) ==> Normalize(data)[i] == 0.5
    ensures Min(data) != Max(data) ==> Normalize(data)[i] == Rescale(data[i], Min(data), Max(data))
  {
  }

  /** A flat series (every element equal) normalizes to all 0.5. */
  lemma FlatIsMidScale(data: seq<real>)
    requires forall i, j :: 0 <= i < |data| && 0 <= j < |data| ==> data[i] == data[j]
    ensures forall i :: 0 <= i < |data| ==> Normalize(data)[i] == 0.5
  {
    if |data| > 0 {
      var lo, hi := Min(data), Max(data);
      var a :| 0 <= a < |data| && data[a] == lo;
      var b :| 0 <= b < |data| && data[b] == hi;
      assert hi - lo == 0.0;
    }
  }

  /** A series that is not flat sends its minima to 0 and its maxima to 1. */
  lemma ExtremesMapToBounds(data: seq<real>, i: int)
    requires 0 <= i < |data|
    requires Min(data) != Max(data)
    ensures data[i] == Min(data) ==> Normalize(data)[i] == 0.0
    ensures data[i] == Max(data) ==> Normalize(data)[i] == 1.0
  {
    NormalizeAt(data, i);
  }

  /** The rescaling keeps the order of the values: it is monotone. */
  lemma NormalizeMonotone(data: seq<real>, i: int, j: int)
    requires 0 <= i < |data| && 0 <= j < |data|
    requires data[i] <= data[j]
    ensures Normalize(data)[i] <= Normalize(data)[j]
  {
    NormalizeAt(data, i);
    NormalizeAt(data, j);
    if Min(data) != Max(data) {
      RescaleMonotone(data[i], data[j], Min(data), Max(data));
    }
  }

  /** Rescaling against the bounds 0 and 1 changes nothing. */
  lemma RescaleUnit(v: real)
    requires 0.0 <= v <= 1.0
    ensures Rescale(v, 0.0, 1.0) == v
  {
  }

  /** Normalizing is idempotent on series that are not flat. */
  lemma NormalizeIdempotent(data: seq<real>)
    requires |data| > 0 && Min(data) != Max(data)
    ensures Normalize(Normalize(data)) == Normalize(data)
  {
    var n := Normalize(data);
    var a :| 0 <= a < |data| && data[a] == Min(data);
    var b :| 0 <= b < |data| && data[b] == Max(data);
    ExtremesMapToBounds(data, a);
    ExtremesMapToBounds(data, b);
    assert Min(n) == 0.0 by {
      assert Min(n) <= n[a];
    }
    assert Max(n) == 1.0 by {
      assert n[b] <= Max(n);
    }
    NormalizeSpansUnit(n);
  }

  /** A series in [0,1] whose minimum is 0 and maximum is 1 is its own normalization. */
  lemma NormalizeSpansUnit(n: seq<real>)
    requires |n| > 0 && Min(n) == 0.0 && Max(n) == 1.0
    ensures Normalize(n) == n
  {
    forall i | 0 <= i < |n| ensures Normalize(n)[i] == n[i] {
      NormalizeAt(n, i);
      RescaleUnit(n[i]);
    }
  }
}
