/** The per-band grain layer of the compositor (vardefunc/noise.py,
    `Graigasm._make_grained`, `_get_mod`, `_m__`) and the format constants of
    `graining`. */
module NoiseGrain {
  import opened Wrappers
  import opened Frames
  import opened PyNum

  /** The messages of `_get_mod` (line 218), of a negative shift, and of the two plugins that check sizes. */
  const FormatUnknownMessage := "Graigasm: Format unknown!"
  const ShiftMessage := "negative shift count"
  const BlankClipMessage := "BlankClip: invalid dimensions"
  const MakeDiffMessage := "MakeDiff: clips must have the same dimensions"

  /** Luma and chroma strength handed to a grainer. */
  type Strength = (real, real)

  /** A grain algorithm, `Grainer.grain`: it receives a blank plane of the
      given width and height and a strength, and returns the noised plane.
      Which noise it adds is not part of this model. */
  type Grainer = (Plane, nat, nat, Strength) -> Plane

  /** The bicubic resampler `resize.Bicubic`: source plane, source width and
      height, target width and height, and the kernel's `b` and `c`. */
  type Resampler = (Plane, nat, nat, nat, nat, real, real) -> Plane

  /** `peak` of line 149: 1.0 for float formats, the largest code value otherwise. */
  function Peak(f: Format): (p: real)
    ensures f.sampleType == Float ==> p == 1.0
    ensures f.sampleType == Integer ==> p + 1.0 == Pow2(f.bits) as real
  {
    if f.sampleType == Float then 1.0 else (Pow2(f.bits) - 1) as real
  }

  /** `neutral` of line 151, one value per plane. An integer format with no
      bits makes Python shift by -1, which raises a ValueError. */
  function Neutral(f: Format): (r: Result<seq<real>>)
    ensures r.Err? <==> f.sampleType == Integer && f.bits == 0
    ensures r.Ok? ==> |r.value| == f.numPlanes
    ensures r.Ok? && f.sampleType == Float ==>
      r.value[0] == Peak(f) / 2.0 && forall i :: 1 <= i < f.numPlanes ==> r.value[i] == 0.0
    ensures r.Ok? && f.sampleType == Integer ==>
      forall i :: 0 <= i < f.numPlanes ==> 2.0 * r.value[i] == Peak(f) + 1.0
  {
    match f.sampleType
    case Float => Ok([0.5] + Constant(f.numPlanes - 1, 0.0))
    case Integer =>
      if f.bits == 0 then Err(ValueError(ShiftMessage))
      else Ok(Constant(f.numPlanes, Pow2(f.bits - 1) as real))
  }

  /** `_get_mod`: the alignment that the chroma subsampling imposes on the
      down-sampled grain clip. */
  function GetMod(subsamplingW: nat, subsamplingH: nat): (r: Result<nat>)
    ensures r.Err? ==> r.error == ValueError(FormatUnknownMessage)
    ensures r.Ok? ==> r.value == Pow2(if subsamplingW >= subsamplingH then subsamplingW else subsamplingH)
  {
    match (subsamplingW, subsamplingH)
    case (0, 0) => Ok(1)
    case (1, 1) => Ok(2)
    case (1, 0) => Ok(2)
    case (0, 1) => Ok(2)
    case (2, 2) => Ok(4)
    case (2, 0) => Ok(4)
    case _ => Err(ValueError(FormatUnknownMessage))
  }

  /** The table knows exactly six subsampling pairs. */
  lemma GetModDomain(subsamplingW: nat, subsamplingH: nat)
    ensures GetMod(subsamplingW, subsamplingH).Ok? <==>
      (subsamplingW, subsamplingH) in {(0, 0), (1, 1), (1, 0), (0, 1), (2, 2), (2, 0)}
  {
  }

  /** The modulus is a multiple of both subsampling factors, so a luma size
      that is a multiple of it gives whole chroma samples. */
  lemma GetModCoversSubsampling(subsamplingW: nat, subsamplingH: nat)
    requires GetMod(subsamplingW, subsamplingH).Ok?
    ensures GetMod(subsamplingW, subsamplingH).value % Pow2(subsamplingW) == 0
    ensures GetMod(subsamplingW, subsamplingH).value % Pow2(subsamplingH) == 0
  {
  }

  /** `_m__`: `x` rounded down to a multiple of `mod` (Python's `%` with a
      positive modulus is Dafny's). */
  function RoundDownToMultiple(x: int, mod: nat): (r: int)
    requires mod > 0
    ensures r % mod == 0
    ensures x - mod < r <= x
  {
    var q := x / mod;
    assert x - x % mod == q * mod;
    MultipleHasNoRemainder(q, mod);
    x - x % mod
  }

  lemma MultipleHasNoRemainder(q: int, mod: nat)
    requires mod > 0
    ensures (q * mod) % mod == 0
  {
    var r := (q * mod) % mod;
    var d := (q * mod) / mod;
    assert (q - d) * mod == r by {
      assert q * mod == d * mod + r;
    }
    SmallMultipleIsZero(q - d, mod);
  }

  /** The only multiple of `m` in [0, m) is 0. */
  lemma SmallMultipleIsZero(k: int, m: nat)
    requires m > 0 && 0 <= k * m < m
    ensures k == 0
  {
    if k >= 1 {
      MulAtLeast(k, m);
    } else if k <= -1 {
      MulAtLeast(-k, m);
    }
  }

  lemma MulAtLeast(k: int, m: nat)
    requires k >= 1
    ensures k * m >= m
  {
  }

  /** There is only one such multiple, so `_m__` gives the largest multiple of
      `mod` that does not exceed `x`. */
  lemma RoundDownToMultipleIsLargest(x: int, mod: nat, k: int)
    requires mod > 0 && k * mod <= x
    ensures k * mod <= RoundDownToMultiple(x, mod)
  {
    var r := RoundDownToMultiple(x, mod);
    var q := x / mod;
    assert r == q * mod;
    if k > q {
      assert (k - q) * mod == k * mod - q * mod;
      MulAtLeast(k - q, mod);
    }
  }

  /** Lines 194-195: the size of the down-sampled blank clip. Python divides
      by `size`, so a zero size raises. */
  function GrainDims(width: nat, height: nat, size: real, mod: nat): (r: Result<(int, int)>)
    requires mod > 0
    ensures r.Err? <==> size == 0.0
    ensures r.Err? ==> r.error == ZeroDivisionError
    ensures r.Ok? ==> r.value.0 % mod == 0 && r.value.1 % mod == 0
    ensures r.Ok? ==>
      RoundHalfEven(width as real / size) - mod < r.value.0 <= RoundHalfEven(width as real / size)
    ensures r.Ok? ==>
      RoundHalfEven(height as real / size) - mod < r.value.1 <= RoundHalfEven(height as real / size)
  {
    if size == 0.0 then Err(ZeroDivisionError)
    else
      Ok((RoundDownToMultiple(RoundHalfEven(width as real / size), mod),
          RoundDownToMultiple(RoundHalfEven(height as real / size), mod)))
  }

  /** A grain size of 1 keeps every size that is already aligned. */
  lemma GrainDimsUnitSize(width: nat, height: nat, mod: nat)
    requires mod > 0 && width % mod == 0 && height % mod == 0
    ensures GrainDims(width, height, 1.0, mod) == Ok((width, height))
  {
    RoundHalfEvenOfInt(width);
    RoundHalfEvenOfInt(height);
  }

  /** Lines 196-197: bicubic `b` and `c` from `sharp`. Every pair lies on the
      line `b + 2c = 1`; 50 is Catmull-Rom and 0 the cubic B-spline. */
  function KernelParams(sharp: real): (r: (real, real))
    ensures r.0 + 2.0 * r.1 == 1.0
    ensures sharp == 50.0 ==> r == (0.0, 0.5)
    ensures sharp == 0.0 ==> r == (1.0, 0.0)
  {
    var b := sharp / -50.0 + 1.0;
    var c := (1.0 - b) / 2.0;
    (b, c)
  }

  /** A larger `sharp` gives a smaller `b` (less blur) and a larger `c`. */
  lemma KernelParamsMonotone(s: real, t: real)
    requires s < t
    ensures KernelParams(t).0 < KernelParams(s).0 && KernelParams(t).1 > KernelParams(s).1
  {
  }

  /** `_make_grained`: the grain layer of one band, with the number of grainer
      calls it made (0 or 1). The layer is `clip - grain` around `neutral`,
      where `grain` is the noised blank clip brought back to the clip's size. */
  function MakeGrained(clip: Clip, strength: Strength, size: real, sharp: real, grainer: Grainer,
                       neutral: real, mod: nat, bicubic: Resampler): (r: (Result<Plane>, nat))
    requires mod > 0
    ensures r.1 <= 1
    ensures r.0.Ok? ==> r.1 == 1 && |r.0.value| == |clip.luma|
    ensures size == 0.0 ==> r == (Err(ZeroDivisionError), 0)
    ensures GrainDims(clip.width, clip.height, size, mod).Err? ==>
      r == (Err(GrainDims(clip.width, clip.height, size, mod).error), 0)
    ensures (GrainDims(clip.width, clip.height, size, mod).Ok? &&
             (GrainDims(clip.width, clip.height, size, mod).value.0 <= 0 || GrainDims(clip.width, clip.height, size, mod).value.1 <= 0))
      ==> r == (Err(ClipError(BlankClipMessage)), 0)
  {
    match GrainDims(clip.width, clip.height, size, mod)
    case Err(e) => (Err(e), 0)
    case Ok((ssW, ssH)) =>
      if ssW <= 0 || ssH <= 0 then (Err(ClipError(BlankClipMessage)), 0)
      else
        var (b, c) := KernelParams(sharp);
        var blank := Constant(ssW * ssH, neutral);
        var grained := bicubic(grainer(blank, ssW, ssH, strength), ssW, ssH, clip.width, clip.height, b, c);
        if |grained| != |clip.luma| then (Err(ClipError(MakeDiffMessage)), 1)
        else (Ok(MakeDiff(clip.luma, grained, neutral)), 1)
  }

  /** The layer of a band that succeeds: `clip - grain` around `neutral`,
      where `grain` is the grainer's output on the flat blank, resized back
      with the band's bicubic kernel. */
  lemma MakeGrainedLayer(clip: Clip, strength: Strength, size: real, sharp: real, grainer: Grainer,
                         neutral: real, mod: nat, bicubic: Resampler)
    requires mod > 0
    requires MakeGrained(clip, strength, size, sharp, grainer, neutral, mod, bicubic).0.Ok?
    ensures GrainDims(clip.width, clip.height, size, mod).Ok?
    ensures var (ssW, ssH) := GrainDims(clip.width, clip.height, size, mod).value;
      var grain := bicubic(grainer(Constant(ssW * ssH, neutral), ssW, ssH, strength), ssW, ssH, clip.width, clip.height,
                           KernelParams(sharp).0, KernelParams(sharp).1);
      var layer := MakeGrained(clip, strength, size, sharp, grainer, neutral, mod, bicubic).0.value;
      ssW > 0 && ssH > 0 && |grain| == |clip.luma|
      && forall i :: 0 <= i < |clip.luma| ==> layer[i] - neutral == clip.luma[i] - grain[i]
  {
  }

  function MinLen(a: nat, b: nat): nat {
    if a <= b then a else b
  }

  /** Line 176: one grain layer per element of
      `zip(strengths, sizes, sharps, grainers)`, in band order, stopping at the
      first error; the second component counts the grainer calls made. */
  function GrainedLayers(clip: Clip, strengths: seq<Strength>, sizes: seq<real>, sharps: seq<real>,
                         grainers: seq<Grainer>, neutral: real, mod: nat, bicubic: Resampler)
    : (r: (Result<seq<Plane>>, nat))
    requires mod > 0
    ensures r.1 <= MinLen(MinLen(|strengths|, |sizes|), MinLen(|sharps|, |grainers|))
    ensures r.0.Ok? ==> |r.0.value| == r.1 == MinLen(MinLen(|strengths|, |sizes|), MinLen(|sharps|, |grainers|))
    ensures r.0.Ok? ==> forall k :: 0 <= k < |r.0.value| ==> |r.0.value[k]| == |clip.luma|
  {
    if |strengths| == 0 || |sizes| == 0 || |sharps| == 0 || |grainers| == 0 then (Ok([]), 0)
    else
      var (first, calls) := MakeGrained(clip, strengths[0], sizes[0], sharps[0], grainers[0], neutral, mod, bicubic);
      if first.Err? then (Err(first.error), calls)
      else
        var (rest, more) := GrainedLayers(clip, strengths[1..], sizes[1..], sharps[1..], grainers[1..], neutral, mod, bicubic);
        if rest.Err? then (Err(rest.error), calls + more)
        else (Ok([first.value] + rest.value), calls + more)
  }

  /** The layers fail exactly when some band's `_make_grained` fails, and
      otherwise layer `k` is the one band `k` makes. */
  lemma {:induction false} GrainedLayersBands(clip: Clip, strengths: seq<Strength>, sizes: seq<real>, sharps: seq<real>,
                                              grainers: seq<Grainer>, neutral: real, mod: nat, bicubic: Resampler)
    requires mod > 0
    ensures var r := GrainedLayers(clip, strengths, sizes, sharps, grainers, neutral, mod, bicubic).0;
      r.Err? <==> (exists k :: 0 <= k < MinLen(MinLen(|strengths|, |sizes|), MinLen(|sharps|, |grainers|)) &&
                               MakeGrained(clip, strengths[k], sizes[k], sharps[k], grainers[k], neutral, mod, bicubic).0.Err?)
    ensures var r := GrainedLayers(clip, strengths, sizes, sharps, grainers, neutral, mod, bicubic).0;
      r.Ok? ==> forall k :: 0 <= k < |r.value| ==>
        MakeGrained(clip, strengths[k], sizes[k], sharps[k], grainers[k], neutral, mod, bicubic).0 == Ok(r.value[k])
  {
    if |strengths| > 0 && |sizes| > 0 && |sharps| > 0 && |grainers| > 0 {
      GrainedLayersBands(clip, strengths[1..], sizes[1..], sharps[1..], grainers[1..], neutral, mod, bicubic);
      BandsShift(clip, strengths, sizes, sharps, grainers, neutral, mod, bicubic);
    }
  }

  /** Band `k` of the lists without their heads is band `k + 1` of the lists. */
  lemma BandsShift(clip: Clip, strengths: seq<Strength>, sizes: seq<real>, sharps: seq<real>,
                   grainers: seq<Grainer>, neutral: real, mod: nat, bicubic: Resampler)
    requires mod > 0 && |strengths| > 0 && |sizes| > 0 && |sharps| > 0 && |grainers| > 0
    ensures MinLen(MinLen(|strengths[1..]|, |sizes[1..]|), MinLen(|sharps[1..]|, |grainers[1..]|))
      == MinLen(MinLen(|strengths|, |sizes|), MinLen(|sharps|, |grainers|)) - 1
    ensures forall k :: 0 <= k < MinLen(MinLen(|strengths[1..]|, |sizes[1..]|), MinLen(|sharps[1..]|, |grainers[1..]|)) ==>
      MakeGrained(clip, strengths[1..][k], sizes[1..][k], sharps[1..][k], grainers[1..][k], neutral, mod, bicubic)
      == MakeGrained(clip, strengths[k + 1], sizes[k + 1], sharps[k + 1], grainers[k + 1], neutral, mod, bicubic)
  {
  }

  /** A grainer that adds nothing. */
  ghost predicate NoOpGrainer(g: Grainer) {
    forall p: Plane, w: nat, h: nat, s: Strength :: g(p, w, h, s) == p
  }

  /** A resampler that maps a flat plane to a flat plane of the target size. */
  ghost predicate KeepsFlatPlanes(bicubic: Resampler) {
    forall n: nat, v: real, sw: nat, sh: nat, dw: nat, dh: nat, b: real, c: real ::
      n > 0 ==> bicubic(Constant(n, v), sw, sh, dw, dh, b, c) == Constant(dw * dh, v)
  }

  /** A resampler that spreads the first sample over the target size. */
  function FlatResize(p: Plane, sw: nat, sh: nat, dw: nat, dh: nat, b: real, c: real): (q: Plane)
    ensures |q| == dw * dh
    ensures |p| > 0 ==> forall i :: 0 <= i < |q| ==> q[i] == p[0]
  {
    Constant(dw * dh, if |p| > 0 then p[0] else 0.0)
  }

  /** Some resampler, and some grainer, meet the two predicates. */
  lemma NoOpPluginsExist()
    ensures KeepsFlatPlanes(FlatResize)
    ensures NoOpGrainer((p: Plane, w: nat, h: nat, s: Strength) => p)
  {
    forall n: nat, v: real, sw: nat, sh: nat, dw: nat, dh: nat, b: real, c: real | n > 0
      ensures FlatResize(Constant(n, v), sw, sh, dw, dh, b, c) == Constant(dw * dh, v)
    {
      assert Constant(n, v)[0] == v;
    }
  }

  /** A grainer that adds nothing yields a layer equal to the clip: the blank
      clip is flat at `neutral`, and the difference is taken around `neutral`. */
  lemma NoOpGrainLayerIsClip(clip: Clip, strength: Strength, size: real, sharp: real, grainer: Grainer,
                             neutral: real, mod: nat, bicubic: Resampler)
    requires mod > 0 && |clip.luma| == clip.width * clip.height
    requires NoOpGrainer(grainer) && KeepsFlatPlanes(bicubic)
    requires MakeGrained(clip, strength, size, sharp, grainer, neutral, mod, bicubic).0.Ok?
    ensures MakeGrained(clip, strength, size, sharp, grainer, neutral, mod, bicubic).0.value == clip.luma
  {
    var (ssW, ssH) := GrainDims(clip.width, clip.height, size, mod).value;
    var (b, c) := KernelParams(sharp);
    var blank := Constant(ssW * ssH, neutral);
    assert grainer(blank, ssW, ssH, strength) == blank;
    assert bicubic(blank, ssW, ssH, clip.width, clip.height, b, c) == Constant(clip.width * clip.height, neutral);
  }

  /** Hence every layer of such grainers is the clip itself. */
  lemma {:induction false} NoOpGrainLayersAreClip(clip: Clip, strengths: seq<Strength>, sizes: seq<real>,
                                                  sharps: seq<real>, grainers: seq<Grainer>, neutral: real,
                                                  mod: nat, bicubic: Resampler)
    requires mod > 0 && |clip.luma| == clip.width * clip.height
    requires (forall k :: 0 <= k < |grainers| ==> NoOpGrainer(grainers[k])) && KeepsFlatPlanes(bicubic)
    requires GrainedLayers(clip, strengths, sizes, sharps, grainers, neutral, mod, bicubic).0.Ok?
    ensures forall k :: 0 <= k < |GrainedLayers(clip, strengths, sizes, sharps, grainers, neutral, mod, bicubic).0.value| ==>
      GrainedLayers(clip, strengths, sizes, sharps, grainers, neutral, mod, bicubic).0.value[k] == clip.luma
  {
    if |strengths| == 0 || |sizes| == 0 || |sharps| == 0 || |grainers| == 0 {
    } else {
      NoOpGrainLayerIsClip(clip, strengths[0], sizes[0], sharps[0], grainers[0], neutral, mod, bicubic);
      NoOpGrainLayersAreClip(clip, strengths[1..], sizes[1..], sharps[1..], grainers[1..], neutral, mod, bicubic);
    }
  }
}
