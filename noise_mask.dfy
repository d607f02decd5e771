/** The luma masks of the grain compositor (vardefunc/noise.py): the per-sample
    ramp of `_make_mask` and the cumulative-to-exclusive reduction of `graining`. */
module NoiseMask {
  import opened Wrappers
  import opened Frames
  import opened PyNum

  /** Lower edge of a band's transition zone. */
  function MinThr(thr: real, overflow: real, peak: real): (lo: real)
    ensures overflow * peak >= 0.0 ==> lo <= thr
    ensures lo == thr <==> overflow * peak == 0.0
  {
    thr - (overflow * peak) / 2.0
  }

  /** Upper edge of a band's transition zone: the zone is centred on `thr`
      and `overflow * peak` wide. */
  function MaxThr(thr: real, overflow: real, peak: real): (hi: real)
    ensures hi - MinThr(thr, overflow, peak) == overflow * peak
    ensures (hi + MinThr(thr, overflow, peak)) / 2.0 == thr
  {
    thr + (overflow * peak) / 2.0
  }

  /** The unrounded mask value of one sample `x`: `peak` below the zone, 0
      above it and a linear ramp on the closed zone. The ramp divides by the
      zone's width, so a zero-width zone fails on the sample that hits it. */
  function MaskSample(x: real, thr: real, overflow: real, peak: real): (r: Result<real>)
    requires peak > 0.0
    ensures r.Err? <==> overflow * peak == 0.0 && x == thr
    ensures r.Err? ==> r.error == ZeroDivisionError
    ensures r.Ok? ==> 0.0 <= r.value <= peak
  {
    var lo := MinThr(thr, overflow, peak);
    var hi := MaxThr(thr, overflow, peak);
    if lo <= x <= hi then
      if hi - lo == 0.0 then Err(ZeroDivisionError)
      else
        RampBounds(x, lo, hi, peak);
        Ok(Abs(((x - lo) / (hi - lo)) * peak - peak))
    else if x < lo then Ok(peak)
    else Ok(0.0)
  }

  /** Inside the zone the ramp is `peak` times the distance to the upper edge
      relative to the width. */
  lemma RampBounds(x: real, lo: real, hi: real, peak: real)
    requires lo <= x <= hi && lo < hi && peak > 0.0
    ensures Abs(((x - lo) / (hi - lo)) * peak - peak) == peak - ((x - lo) / (hi - lo)) * peak
    ensures 0.0 <= peak - ((x - lo) / (hi - lo)) * peak <= peak
  {
    var t := (x - lo) / (hi - lo);
    UnitRatio(x - lo, hi - lo);
    MulNonNegative(t, peak);
    MulNonNegative(1.0 - t, peak);
    assert (1.0 - t) * peak == peak - t * peak;
  }

  /** A ratio of a part to a positive whole is in [0, 1]. */
  lemma UnitRatio(a: real, d: real)
    requires 0.0 <= a <= d && d > 0.0
    ensures 0.0 <= a / d <= 1.0
  {
  }

  /** Division by a positive number keeps the order. */
  lemma RatioMonotone(a: real, b: real, d: real)
    requires a <= b && d > 0.0
    ensures a / d <= b / d
  {
  }

  lemma MulPositive(x: real, y: real)
    requires x > 0.0 && y > 0.0
    ensures x * y > 0.0
  {
  }

  /** The mask sample as the source computes it for a format: integer formats
      go through `_func`, which rounds half to even; float formats go through
      the expression, which keeps the value. */
  function MaskValue(x: real, thr: real, overflow: real, peak: real, isFloat: bool): (r: Result<real>)
    requires peak > 0.0
    ensures r.Ok? <==> MaskSample(x, thr, overflow, peak).Ok?
    ensures r.Ok? && isFloat ==> r.value == MaskSample(x, thr, overflow, peak).value
    ensures r.Ok? && !isFloat ==> r.value == RoundHalfEven(MaskSample(x, thr, overflow, peak).value) as real
  {
    var v :- MaskSample(x, thr, overflow, peak);
    if isFloat then Ok(v) else Ok(RoundHalfEven(v) as real)
  }

  /** The edges: full strength where the zone starts, nothing where it ends,
      and the same values outside the zone. */
  lemma MaskEdges(thr: real, overflow: real, peak: real)
    requires peak > 0.0 && overflow * peak > 0.0
    ensures MaskSample(MinThr(thr, overflow, peak), thr, overflow, peak) == Ok(peak)
    ensures MaskSample(MaxThr(thr, overflow, peak), thr, overflow, peak) == Ok(0.0)
    ensures forall x :: x < MinThr(thr, overflow, peak) ==> MaskSample(x, thr, overflow, peak) == Ok(peak)
    ensures forall x :: x > MaxThr(thr, overflow, peak) ==> MaskSample(x, thr, overflow, peak) == Ok(0.0)
  {
    MaskInZone(MinThr(thr, overflow, peak), thr, overflow, peak);
    MaskInZone(MaxThr(thr, overflow, peak), thr, overflow, peak);
    UnitWidth(MinThr(thr, overflow, peak), MaxThr(thr, overflow, peak));
  }

  lemma UnitWidth(lo: real, hi: real)
    requires lo < hi
    ensures (hi - lo) / (hi - lo) == 1.0 && (lo - lo) / (hi - lo) == 0.0
  {
  }

  /** With no overflow the mask is a hard step at the threshold; the sample
      equal to the threshold divides by zero. */
  lemma HardStep(x: real, thr: real, peak: real)
    requires peak > 0.0
    ensures x < thr ==> MaskSample(x, thr, 0.0, peak) == Ok(peak)
    ensures x > thr ==> MaskSample(x, thr, 0.0, peak) == Ok(0.0)
    ensures x == thr ==> MaskSample(x, thr, 0.0, peak) == Err(ZeroDivisionError)
  {
  }

  /** The mask does not increase as the reference sample increases. */
  lemma {:induction false} MaskNonIncreasing(x: real, y: real, thr: real, overflow: real, peak: real)
    requires peak > 0.0 && x <= y
    requires MaskSample(x, thr, overflow, peak).Ok? && MaskSample(y, thr, overflow, peak).Ok?
    ensures MaskSample(x, thr, overflow, peak).value >= MaskSample(y, thr, overflow, peak).value
  {
    if x < MinThr(thr, overflow, peak) {
      assert MaskSample(x, thr, overflow, peak) == Ok(peak);
    } else if x <= MaxThr(thr, overflow, peak) {
      MaskInZone(x, thr, overflow, peak);
      if y <= MaxThr(thr, overflow, peak) {
        MaskInZone(y, thr, overflow, peak);
        RampNonIncreasing(x, y, MinThr(thr, overflow, peak), MaxThr(thr, overflow, peak), peak);
      } else {
        assert MaskSample(y, thr, overflow, peak) == Ok(0.0);
      }
    } else {
      assert MaskSample(x, thr, overflow, peak) == Ok(0.0);
      assert MaskSample(y, thr, overflow, peak) == Ok(0.0);
    }
  }

  /** The ramp of a zone of positive width. */
  function Ramp(x: real, lo: real, hi: real, peak: real): (r: real)
    requires lo < hi
    ensures x == lo ==> r == peak
    ensures x == hi ==> r == 0.0
    ensures lo <= x <= hi && peak > 0.0 ==> 0.0 <= r <= peak
  {
    if lo <= x <= hi && peak > 0.0 then
      RampBounds(x, lo, hi, peak);
      UnitWidth(lo, hi);
      peak - ((x - lo) / (hi - lo)) * peak
    else
      UnitWidth(lo, hi);
      peak - ((x - lo) / (hi - lo)) * peak
  }

  /** Inside the zone the mask is the ramp, and the zone has positive width. */
  lemma MaskInZone(x: real, thr: real, overflow: real, peak: real)
    requires peak > 0.0 && MinThr(thr, overflow, peak) <= x <= MaxThr(thr, overflow, peak)
    requires MaskSample(x, thr, overflow, peak).Ok?
    ensures MinThr(thr, overflow, peak) < MaxThr(thr, overflow, peak)
    ensures MaskSample(x, thr, overflow, peak) == Ok(Ramp(x, MinThr(thr, overflow, peak), MaxThr(thr, overflow, peak), peak))
  {
    RampBounds(x, MinThr(thr, overflow, peak), MaxThr(thr, overflow, peak), peak);
  }

  lemma RampNonIncreasing(x: real, y: real, lo: real, hi: real, peak: real)
    requires lo <= x <= y <= hi && lo < hi && peak > 0.0
    ensures Ramp(x, lo, hi, peak) >= Ramp(y, lo, hi, peak)
  {
    var tx, ty := (x - lo) / (hi - lo), (y - lo) / (hi - lo);
    RatioMonotone(x - lo, y - lo, hi - lo);
    MulNonNegative(ty - tx, peak);
    assert (ty - tx) * peak == ty * peak - tx * peak;
  }

  /** The rounded (integer-format) mask is non-increasing too and stays in
      [0, peak] when `peak` is an integer. */
  lemma MaskValueIntegerBounds(x: real, y: real, thr: real, overflow: real, peak: nat)
    requires peak > 0 && x <= y
    requires MaskSample(x, thr, overflow, peak as real).Ok? && MaskSample(y, thr, overflow, peak as real).Ok?
    ensures 0.0 <= MaskValue(x, thr, overflow, peak as real, false).value <= peak as real
    ensures MaskValue(x, thr, overflow, peak as real, false).value >= MaskValue(y, thr, overflow, peak as real, false).value
  {
    var vx := MaskSample(x, thr, overflow, peak as real).value;
    var vy := MaskSample(y, thr, overflow, peak as real).value;
    RoundHalfEvenBounds(vx, peak);
    MaskNonIncreasing(x, y, thr, overflow, peak as real);
    RoundHalfEvenMonotone(vy, vx);
  }

  /** `_make_mask` over a whole reference plane. */
  function MaskPlane(reference: Plane, thr: real, overflow: real, peak: real, isFloat: bool): (r: Result<Plane>)
    requires peak > 0.0
    ensures r.Err? <==> exists i :: 0 <= i < |reference| && MaskSample(reference[i], thr, overflow, peak).Err?
    ensures r.Ok? ==> |r.value| == |reference|
    ensures r.Ok? ==> forall i :: 0 <= i < |reference| ==>
      Ok(r.value[i]) == MaskValue(reference[i], thr, overflow, peak, isFloat)
  {
    if forall i | 0 <= i < |reference| :: MaskValue(reference[i], thr, overflow, peak, isFloat).Ok? then
      Ok(seq(|reference|, i requires 0 <= i < |reference| => MaskValue(reference[i], thr, overflow, peak, isFloat).value))
    else Err(ZeroDivisionError)
  }

  /** One cumulative mask per band, for the pairs of `zip(thrs, overflows)`. */
  function CumulativeMasks(reference: Plane, thrs: seq<real>, overflows: seq<real>, peak: real, isFloat: bool)
    : (r: Result<seq<Plane>>)
    requires peak > 0.0
    ensures r.Ok? ==> |r.value| == (if |thrs| <= |overflows| then |thrs| else |overflows|)
    ensures r.Ok? ==> SameSize(r.value, |reference|)
    ensures r.Ok? ==> forall k :: 0 <= k < |r.value| ==>
      MaskPlane(reference, thrs[k], overflows[k], peak, isFloat) == Ok(r.value[k])
    ensures r.Err? <==> (exists k :: 0 <= k < |thrs| && k < |overflows| &&
                                     MaskPlane(reference, thrs[k], overflows[k], peak, isFloat).Err?)
  {
    if |thrs| == 0 || |overflows| == 0 then Ok([])
    else
      var first :- MaskPlane(reference, thrs[0], overflows[0], peak, isFloat);
      var rest := CumulativeMasks(reference, thrs[1..], overflows[1..], peak, isFloat);
      if rest.Err? then
        var k' :| 0 <= k' < |thrs| - 1 && k' < |overflows| - 1 &&
          MaskPlane(reference, thrs[1..][k'], overflows[1..][k'], peak, isFloat).Err?;
        assert MaskPlane(reference, thrs[k' + 1], overflows[k' + 1], peak, isFloat).Err?;
        Err(rest.error)
      else Ok([first] + rest.value)
  }

  function Sub(a: Plane, b: Plane): (d: Plane)
    requires |a| == |b|
    ensures |d| == |a| && forall i :: 0 <= i < |a| ==> d[i] == a[i] - b[i]
  {
    seq(|a|, i requires 0 <= i < |a| => a[i] - b[i])
  }

  /** Every plane of `ms` has `n` samples. */
  predicate SameSize(ms: seq<Plane>, n: nat) {
    forall k :: 0 <= k < |ms| ==> |ms[k]| == n
  }

  /** Lines 158-159: put an all-zero mask in front, then take each mask minus
      the one before it. */
  function ExclusiveMasks(cumulative: seq<Plane>, n: nat): (r: seq<Plane>)
    requires SameSize(cumulative, n)
    ensures |r| == |cumulative| && SameSize(r, n)
  {
    var ms := [Constant(n, 0.0)] + cumulative;
    seq(|ms| - 1, i requires 0 <= i < |ms| - 1 => Sub(ms[i + 1], ms[i]))
  }

  /** The sum over the first `k` planes of `ms` at sample `p`. */
  function SumAt(ms: seq<Plane>, k: nat, p: nat): real
    requires k <= |ms| && forall j :: 0 <= j < k ==> p < |ms[j]|
  {
    if k == 0 then 0.0 else SumAt(ms, k - 1, p) + ms[k - 1][p]
  }

  /** The first exclusive mask is the first cumulative mask, and each later
      one is the increment over its predecessor. */
  lemma ExclusiveMaskAt(cumulative: seq<Plane>, n: nat, k: nat, p: nat)
    requires SameSize(cumulative, n) && k < |cumulative| && p < n
    ensures ExclusiveMasks(cumulative, n)[k][p]
      == cumulative[k][p] - (if k == 0 then 0.0 else cumulative[k - 1][p])
  {
  }

  lemma FirstExclusiveMask(cumulative: seq<Plane>, n: nat)
    requires SameSize(cumulative, n) && |cumulative| > 0
    ensures ExclusiveMasks(cumulative, n)[0] == cumulative[0]
  {
    var e := ExclusiveMasks(cumulative, n)[0];
    forall p | 0 <= p < n ensures e[p] == cumulative[0][p] {
      ExclusiveMaskAt(cumulative, n, 0, p);
    }
  }

  /** Summing the exclusive masks of the first `k` bands gives back the
      cumulative mask of band `k - 1`: the differences telescope. */
  lemma ExclusiveMasksTelescope(cumulative: seq<Plane>, n: nat, k: nat, p: nat)
    requires SameSize(cumulative, n) && 0 < k <= |cumulative| && p < n
    ensures SumAt(ExclusiveMasks(cumulative, n), k, p) == cumulative[k - 1][p]
  {
    var e := ExclusiveMasks(cumulative, n);
    ExclusiveMaskAt(cumulative, n, 0, p);
    forall j | 1 <= j < |e| ensures e[j][p] == cumulative[j][p] - cumulative[j - 1][p] {
      ExclusiveMaskAt(cumulative, n, j, p);
    }
    IncrementsTelescope(e, cumulative, n, k, p);
  }

  /** Any sequence of increments of `cumulative` sums to its entries. */
  lemma {:induction false} IncrementsTelescope(e: seq<Plane>, cumulative: seq<Plane>, n: nat, k: nat, p: nat)
    requires SameSize(e, n) && SameSize(cumulative, n) && |e| == |cumulative| && 0 < k <= |e| && p < n
    requires e[0][p] == cumulative[0][p]
    requires forall j :: 1 <= j < |e| ==> e[j][p] == cumulative[j][p] - cumulative[j - 1][p]
    ensures SumAt(e, k, p) == cumulative[k - 1][p]
  {
    assert SumAt(e, k, p) == SumAt(e, k - 1, p) + e[k - 1][p];
    if k > 1 {
      IncrementsTelescope(e, cumulative, n, k - 1, p);
    }
  }
}
