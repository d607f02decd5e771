/** The two band-selection rules of vardefunc/noise.py outside Graigasm:
    `decsiz`'s plane choice and denoise mask (lines 299-332), and the frame
    selection of `adaptative_regrain` (lines 381-398). */
module NoiseExtras {
  import opened Wrappers
  import opened Frames
  import opened PyNum
  import opened NoiseMask
  import NoiseGrain
  import VdfTypes

  /** The message of the FormatError of line 300. */
  const DecsizFormatMessage := "decsiz: Variable format not allowed!"

  // ---------------------------------------------------------------- decsiz

  /** Lines 306-309: a Gray clip filters its one plane; any other clip the
      planes asked for, all three when none (or an empty list) is given. */
  function DecsizPlanes(f: Format, planes: Option<seq<nat>>): (r: seq<nat>)
    ensures f.family == Gray ==> r == [0]
    ensures f.family != Gray && (planes.None? || planes.value == []) ==> r == [0, 1, 2]
    ensures f.family != Gray && planes.Some? && planes.value != [] ==> r == planes.value
    ensures |r| > 0
  {
    if f.family == Gray then [0]
    else if planes.None? || planes.value == [] then [0, 1, 2]
    else planes.value
  }

  /** Line 304 as written: `peak = (1 << bits) - 1`, for float clips too. */
  function DecsizPeakAsWritten(f: Format): (p: real)
    ensures p + 1.0 == Pow2(f.bits) as real
  {
    (Pow2(f.bits) - 1) as real
  }

  /** The peak the mask is meant to reach: the format's own maximum, 1.0 for
      float clips. */
  function DecsizPeak(f: Format): (p: real)
    ensures f.sampleType == Integer ==> p == DecsizPeakAsWritten(f)
    ensures f.sampleType == Float ==> p == 1.0
  {
    NoiseGrain.Peak(f)
  }

  /** On a 32-bit float clip the peak as written is 2^32 - 1, so a bright
      pixel gets a mask sample far outside the float range [0, 1]. */
  lemma DecsizFloatPeakAsWritten(f: Format, minIn: real, maxIn: real)
    requires f.sampleType == Float && f.bits == 32 && minIn < maxIn
    ensures DecsizPeakAsWritten(f) == 4294967295.0
    ensures DenoiseMaskSample(maxIn, minIn, maxIn, DecsizPeakAsWritten(f), true) == Ok(4294967295.0)
    ensures DenoiseMaskSample(maxIn, minIn, maxIn, DecsizPeak(f), true) == Ok(1.0)
  {
    assert Pow2(32) == 4294967296 by {
      assert Pow2(8) == 256;
      assert Pow2(16) == 65536 by { Pow2Add(8, 8); }
      Pow2Add(16, 16);
    }
    var w := maxIn - minIn;
    assert w / w == 1.0;
  }

  lemma DoubleProduct(x: nat, y: nat)
    ensures 2 * (x * y) == (2 * x) * y
  {
  }

  lemma {:induction false} Pow2Add(a: nat, b: nat)
    ensures Pow2(a + b) == Pow2(a) * Pow2(b)
  {
    if a > 0 {
      Pow2Add(a - 1, b);
      var x, y := Pow2(a - 1), Pow2(b);
      assert Pow2(a + b) == 2 * Pow2(a - 1 + b);
      DoubleProduct(x, y);
    }
  }

  /** What `decsiz` derives from the clip before filtering: the planes, the
      peak and the sample type. DecsizSetupOf uses the corrected peak, and
      DecsizSetupAsWritten the peak of line 304. */
  datatype DecsizSetup = DecsizSetup(planes: seq<nat>, peak: real, isFloat: bool)

  function DecsizSetupOf(clip: Clip, planes: Option<seq<nat>>): (r: Result<DecsizSetup>)
    ensures clip.format.None? ==> r == Err(FormatError(DecsizFormatMessage))
    ensures clip.format.Some? ==> r.Ok? && r.value.planes == DecsizPlanes(clip.format.value, planes)
    ensures clip.format.Some? ==> r.Ok? && r.value.peak == DecsizPeak(clip.format.value)
    ensures clip.format.Some? ==> r.Ok? && r.value.isFloat == (clip.format.value.sampleType == Float)
  {
    if clip.format.None? then Err(FormatError(DecsizFormatMessage))
    else
      var f := clip.format.value;
      Ok(DecsizSetup(DecsizPlanes(f, planes), DecsizPeak(f), f.sampleType == Float))
  }

  /** `decsiz` as written: the setup with the peak of line 304 for every
      format. It differs from DecsizSetupOf only in the peak of float clips. */
  function DecsizSetupAsWritten(clip: Clip, planes: Option<seq<nat>>): (r: Result<DecsizSetup>)
    ensures clip.format.None? ==> r == Err(FormatError(DecsizFormatMessage))
    ensures clip.format.Some? ==> r.Ok? && r.value.peak == DecsizPeakAsWritten(clip.format.value)
    ensures clip.format.Some? ==> r.Ok? && r.value.planes == DecsizSetupOf(clip, planes).value.planes
    ensures clip.format.Some? ==> r.Ok? && r.value.isFloat == DecsizSetupOf(clip, planes).value.isFloat
    ensures clip.format.Some? && clip.format.value.sampleType == Integer ==> r == DecsizSetupOf(clip, planes)
    ensures clip.format.Some? && clip.format.value.sampleType == Float && clip.format.value.bits >= 2 ==>
      r.value.peak != DecsizSetupOf(clip, planes).value.peak
  {
    if clip.format.None? then Err(FormatError(DecsizFormatMessage))
    else
      var f := clip.format.value;
      if f.sampleType == Float && f.bits >= 2 then
        assert Pow2(f.bits) == 4 * Pow2(f.bits - 2);
        Ok(DecsizSetup(DecsizPlanes(f, planes), DecsizPeakAsWritten(f), true))
      else
        Ok(DecsizSetup(DecsizPlanes(f, planes), DecsizPeakAsWritten(f), f.sampleType == Float))
  }

  /** `min(1, max(0, v))`. */
  function Unit(v: real): (r: real)
    ensures 0.0 <= r <= 1.0
    ensures 0.0 <= v <= 1.0 ==> r == v
  {
    Min(1.0, Max(0.0, v))
  }

  /** The normalised level of a sample before scaling by the peak. */
  function Level(x: real, minIn: real, maxIn: real): (t: real)
    requires minIn != maxIn
    ensures 0.0 <= t <= 1.0
  {
    Unit((Min(maxIn, Max(minIn, x)) - minIn) / (maxIn - minIn))
  }

  /** Lines 329-332 with `gamma = 1`: the sample is clamped to
      `[min_in, max_in]`, normalised over that range, clamped to [0, 1] and
      scaled by `peak`; integer clips round the result half to even. Equal
      bounds divide by zero. */
  function DenoiseMaskSample(x: real, minIn: real, maxIn: real, peak: real, isFloat: bool): (r: Result<real>)
    ensures r.Err? <==> minIn == maxIn
    ensures r.Err? ==> r.error == ZeroDivisionError
  {
    if maxIn == minIn then Err(ZeroDivisionError)
    else
      Ok(Quantize(Level(x, minIn, maxIn) * peak, isFloat))
  }

  /** Integer clips go through the lambda, which rounds half to even; float
      clips through the expression, which keeps the value. */
  function Quantize(v: real, isFloat: bool): (r: real)
    ensures isFloat ==> r == v
    ensures !isFloat ==> r == RoundHalfEven(v) as real
  {
    if isFloat then v else RoundHalfEven(v) as real
  }

  /** `min_in` and `max_in` have no default: `None` reaches the lambda (or
      the expression), which cannot compare it with a number. */
  function DenoiseMaskSampleArgs(x: real, minIn: Option<real>, maxIn: Option<real>, peak: real, isFloat: bool)
    : (r: Result<real>)
    ensures minIn.None? || maxIn.None? ==> r == Err(TypeError)
    ensures minIn.Some? && maxIn.Some? ==> r == DenoiseMaskSample(x, minIn.value, maxIn.value, peak, isFloat)
  {
    if minIn.None? || maxIn.None? then Err(TypeError)
    else DenoiseMaskSample(x, minIn.value, maxIn.value, peak, isFloat)
  }

  /** The unrounded value is in [0, peak]: nothing at or below `min_in`, the
      full peak at or above `max_in`, and the linear ramp in between. */
  lemma DenoiseMaskShape(x: real, minIn: real, maxIn: real, peak: real)
    requires minIn < maxIn && peak >= 0.0
    ensures var r := DenoiseMaskSample(x, minIn, maxIn, peak, true);
      r.Ok? && 0.0 <= r.value <= peak
      && (x <= minIn ==> r.value == 0.0)
      && (x >= maxIn ==> r.value == peak)
      && (minIn <= x <= maxIn ==> r.value == (x - minIn) / (maxIn - minIn) * peak)
  {
    var w := maxIn - minIn;
    var t := (Min(maxIn, Max(minIn, x)) - minIn) / w;
    UnitRatio(Min(maxIn, Max(minIn, x)) - minIn, w);
    assert Unit(t) == t;
    MulNonNegative(t, peak);
    MulNonNegative(1.0 - t, peak);
    if x >= maxIn {
      assert Min(maxIn, Max(minIn, x)) - minIn == w;
      SelfRatio(w);
    }
  }

  /** The mask never decreases as the pixel gets brighter. */
  lemma DenoiseMaskMonotone(x: real, y: real, minIn: real, maxIn: real, peak: real)
    requires x <= y && minIn < maxIn && peak >= 0.0
    ensures DenoiseMaskSample(x, minIn, maxIn, peak, true).value
      <= DenoiseMaskSample(y, minIn, maxIn, peak, true).value
  {
    LevelMonotone(x, y, minIn, maxIn);
    ScaleMonotone(Level(x, minIn, maxIn), Level(y, minIn, maxIn), peak);
  }

  /** The integer path is the float path rounded half to even. */
  lemma DenoiseMaskRounded(x: real, minIn: real, maxIn: real, peak: real)
    requires minIn < maxIn
    ensures DenoiseMaskSample(x, minIn, maxIn, peak, false).value
      == RoundHalfEven(DenoiseMaskSample(x, minIn, maxIn, peak, true).value) as real
  {
  }

  /** Rounding keeps the order, so the integer mask is monotone too. */
  lemma DenoiseMaskIntegerMonotone(x: real, y: real, minIn: real, maxIn: real, peak: real)
    requires x <= y && minIn < maxIn && peak >= 0.0
    ensures DenoiseMaskSample(x, minIn, maxIn, peak, false).value
      <= DenoiseMaskSample(y, minIn, maxIn, peak, false).value
  {
    DenoiseMaskMonotone(x, y, minIn, maxIn, peak);
    DenoiseMaskRounded(x, minIn, maxIn, peak);
    DenoiseMaskRounded(y, minIn, maxIn, peak);
    RoundHalfEvenMonotone(DenoiseMaskSample(x, minIn, maxIn, peak, true).value,
                          DenoiseMaskSample(y, minIn, maxIn, peak, true).value);
  }

  lemma ScaleMonotone(a: real, b: real, p: real)
    requires a <= b && p >= 0.0
    ensures a * p <= b * p
  {
    MulNonNegative(b - a, p);
    assert (b - a) * p == b * p - a * p;
  }

  lemma LevelMonotone(x: real, y: real, minIn: real, maxIn: real)
    requires x <= y && minIn < maxIn
    ensures Level(x, minIn, maxIn) <= Level(y, minIn, maxIn)
  {
    RatioMonotone(Min(maxIn, Max(minIn, x)) - minIn, Min(maxIn, Max(minIn, y)) - minIn, maxIn - minIn);
  }

  /** On an integer clip the rounded sample stays in [0, peak]. */
  lemma DenoiseMaskIntegerBounds(x: real, minIn: real, maxIn: real, peak: nat)
    requires minIn < maxIn
    ensures var r := DenoiseMaskSample(x, minIn, maxIn, peak as real, false);
      r.Ok? && 0.0 <= r.value <= peak as real && r.value.Floor as real == r.value
  {
    var v := Level(x, minIn, maxIn) * peak as real;
    DenoiseMaskShape(x, minIn, maxIn, peak as real);
    assert DenoiseMaskSample(x, minIn, maxIn, peak as real, true) == Ok(v);
    assert DenoiseMaskSample(x, minIn, maxIn, peak as real, false) == Ok(RoundHalfEven(v) as real);
    RoundHalfEvenBounds(v, peak);
    assert (RoundHalfEven(v) as real).Floor == RoundHalfEven(v);
  }

  /** Bounds given the wrong way round make the mask the full peak
      everywhere: the clamp pins every sample to `max_in`. */
  lemma DenoiseMaskSwappedBounds(x: real, minIn: real, maxIn: real, peak: real)
    requires maxIn < minIn
    ensures DenoiseMaskSample(x, minIn, maxIn, peak, true) == Ok(peak)
  {
    assert Min(maxIn, Max(minIn, x)) == maxIn;
    SelfRatio(maxIn - minIn);
  }

  lemma SelfRatio(w: real)
    requires w != 0.0
    ensures w / w == 1.0
  {
  }

  // ---------------------------------------------------- adaptative_regrain

  /** The clip `_diff` returns for a frame: the new grain, the adaptive one,
      or `Merge(adaptGrain, newGrain, [weight])`. */
  datatype RegrainChoice = UseNew | UseAdapt | MergeWeighted(weight: real)

  /** Lines 385-398, for a frame whose `PlaneStatsAverage` is `psa`. */
  function SelectRegrain(psa: real, rangeAvg: (real, real)): (r: Result<RegrainChoice>)
    ensures var hi := Max(rangeAvg.0, rangeAvg.1); var lo := Min(rangeAvg.0, rangeAvg.1);
      (psa > hi ==> r == Ok(UseNew))
      && (psa < lo ==> r == Ok(UseAdapt))
      && (lo <= psa <= hi && lo < hi ==>
            r.Ok? && r.value.MergeWeighted? && r.value.weight * (hi - lo) == psa - lo)
      && (r.Err? <==> psa == lo == hi)
      && (r.Err? ==> r.error == ZeroDivisionError)
  {
    var avgMax := Max(rangeAvg.0, rangeAvg.1);
    var avgMin := Min(rangeAvg.0, rangeAvg.1);
    if psa > avgMax then Ok(UseNew)
    else if psa < avgMin then Ok(UseAdapt)
    else if avgMax == avgMin then Err(ZeroDivisionError)
    else Ok(MergeWeighted((psa - avgMin) / (avgMax - avgMin)))
  }

  /** The merge weight lies in [0, 1] and grows with the average. */
  lemma RegrainWeightInUnit(psa: real, rangeAvg: (real, real))
    requires SelectRegrain(psa, rangeAvg).Ok? && SelectRegrain(psa, rangeAvg).value.MergeWeighted?
    ensures 0.0 <= SelectRegrain(psa, rangeAvg).value.weight <= 1.0
  {
    var hi := Max(rangeAvg.0, rangeAvg.1);
    var lo := Min(rangeAvg.0, rangeAvg.1);
    UnitRatio(psa - lo, hi - lo);
  }

  lemma RegrainWeightMonotone(p: real, q: real, rangeAvg: (real, real))
    requires p <= q
    requires SelectRegrain(p, rangeAvg).Ok? && SelectRegrain(p, rangeAvg).value.MergeWeighted?
    requires SelectRegrain(q, rangeAvg).Ok? && SelectRegrain(q, rangeAvg).value.MergeWeighted?
    ensures SelectRegrain(p, rangeAvg).value.weight <= SelectRegrain(q, rangeAvg).value.weight
  {
    var hi := Max(rangeAvg.0, rangeAvg.1);
    var lo := Min(rangeAvg.0, rangeAvg.1);
    RatioMonotone(p - lo, q - lo, hi - lo);
  }

  /** The order of the two range values does not matter. */
  lemma RegrainRangeSymmetric(psa: real, a: real, b: real)
    ensures SelectRegrain(psa, (a, b)) == SelectRegrain(psa, (b, a))
  {
  }

  /** `std.Merge(adaptGrain, newGrain, [w])` on one sample. */
  function MergeSample(adaptGrain: real, newGrain: real, weight: real): (r: real)
    ensures weight == 0.0 ==> r == adaptGrain
    ensures weight == 1.0 ==> r == newGrain
    ensures 0.0 <= weight <= 1.0 ==> Min(adaptGrain, newGrain) <= r <= Max(adaptGrain, newGrain)
  {
    assert 0.0 <= weight <= 1.0 ==> Min(adaptGrain, newGrain) <= adaptGrain * (1.0 - weight) + newGrain * weight <= Max(adaptGrain, newGrain) by {
      if 0.0 <= weight <= 1.0 {
        if adaptGrain <= newGrain {
          MulNonNegative(newGrain - adaptGrain, weight);
          MulNonNegative(newGrain - adaptGrain, 1.0 - weight);
        } else {
          MulNonNegative(adaptGrain - newGrain, weight);
          MulNonNegative(adaptGrain - newGrain, 1.0 - weight);
        }
      }
    }
    adaptGrain * (1.0 - weight) + newGrain * weight
  }

  /** The sample of the returned frame. */
  function RegrainSample(choice: RegrainChoice, adaptGrain: real, newGrain: real): (r: real)
    ensures choice.UseNew? ==> r == newGrain
    ensures choice.UseAdapt? ==> r == adaptGrain
    ensures choice.MergeWeighted? ==> r == MergeSample(adaptGrain, newGrain, choice.weight)
  {
    match choice
    case UseNew => newGrain
    case UseAdapt => adaptGrain
    case MergeWeighted(w) => MergeSample(adaptGrain, newGrain, w)
  }

  /** The selection has no jump at either end of the range: at the upper
      average the merge is already all new grain, at the lower one all
      adaptive grain, and in between it stays between the two. */
  lemma RegrainContinuous(psa: real, rangeAvg: (real, real), adaptGrain: real, newGrain: real)
    requires Min(rangeAvg.0, rangeAvg.1) < Max(rangeAvg.0, rangeAvg.1)
    ensures psa == Max(rangeAvg.0, rangeAvg.1) ==> RegrainSample(SelectRegrain(psa, rangeAvg).value, adaptGrain, newGrain) == newGrain
    ensures psa == Min(rangeAvg.0, rangeAvg.1) ==> RegrainSample(SelectRegrain(psa, rangeAvg).value, adaptGrain, newGrain) == adaptGrain
    ensures Min(adaptGrain, newGrain) <= RegrainSample(SelectRegrain(psa, rangeAvg).value, adaptGrain, newGrain) <= Max(adaptGrain, newGrain)
  {
    var hi := Max(rangeAvg.0, rangeAvg.1);
    var lo := Min(rangeAvg.0, rangeAvg.1);
    var choice := SelectRegrain(psa, rangeAvg).value;
    if psa == lo {
      assert choice == MergeWeighted((psa - lo) / (hi - lo));
      assert (psa - lo) / (hi - lo) == 0.0;
      assert RegrainSample(choice, adaptGrain, newGrain) == MergeSample(adaptGrain, newGrain, 0.0);
    } else if psa == hi {
      assert choice == MergeWeighted((psa - lo) / (hi - lo));
      SelfRatio(hi - lo);
      assert (psa - lo) / (hi - lo) == 1.0;
      assert RegrainSample(choice, adaptGrain, newGrain) == MergeSample(adaptGrain, newGrain, 1.0);
    } else if lo < psa < hi {
      RegrainWeightInUnit(psa, rangeAvg);
    }
  }
}
