/** The orchestrator `Graigasm` of vardefunc/noise.py: construction-time
    normalisation of the band lists (lines 98-122) and `graining` (lines
    142-188), which builds the masks, the grain layers and the composite. */
module NoiseGraigasm {
  import opened Wrappers
  import opened Frames
  import opened PyNum
  import opened NoiseMask
  import opened NoiseGrain
  import opened NoiseComposite
  import VdfTypes

  /** The `overflows` argument: omitted, one float, one int (which the
      annotation admits but `isinstance(overflows, float)` does not), or a
      sequence. */
  datatype OverflowsArg = DefaultOverflows | OneOverflow(overflow: real) | IntOverflow(n: int) | Overflows(overflows: seq<real>)

  /** The `grainers` argument: one grainer or a sequence. */
  datatype GrainersArg = OneGrainer(grainer: Grainer) | Grainers(grainers: seq<Grainer>)

  const LengthMessage := "Graigasm: \"thrs\", \"strengths\", \"sizes\" and \"sharps\" must have the same length!"

  /** The message of the FormatError of line 144. */
  const FamilyMessage := "graining: Only YUV and GRAY format are supported!"

  /** Line 105: the constructor refuses the lists only when every one of
      `strengths`, `sizes` and `sharps` has a length other than `thrs`'s. */
  predicate LengthsRejected(length: nat, strengths: nat, sizes: nat, sharps: nat): (r: bool)
    ensures strengths == length || sizes == length || sharps == length ==> !r
    ensures strengths != length && sizes != length && sharps != length ==> r
  {
    var datas := [strengths, sizes, sharps];
    assert datas[0] == strengths && datas[1] == sizes && datas[2] == sharps;
    forall i :: 0 <= i < |datas| ==> datas[i] != length
  }

  /** Lines 113-114 and 120-121: `lst += [lst[-1]] * (n - len(lst))`. */
  function PadWithLast<T>(s: seq<T>, n: nat): (r: seq<T>)
    requires |s| > 0
    ensures |r| == if n <= |s| then |s| else n
    ensures r[..|s|] == s
    ensures forall i :: |s| <= i < |r| ==> r[i] == s[|s| - 1]
  {
    s + seq(if n <= |s| then 0 else n - |s|, _ => s[|s| - 1])
  }

  /** Lines 108-115. */
  function NormalizeOverflows(arg: OverflowsArg, length: nat): (r: Result<seq<real>>)
    ensures r.Err? <==> (arg.DefaultOverflows? && length == 0) || (arg.Overflows? && |arg.overflows| == 0) || arg.IntOverflow?
    ensures arg.DefaultOverflows? && length == 0 ==> r == Err(ZeroDivisionError)
    ensures arg.IntOverflow? ==> r == Err(TypeError)
    ensures arg.Overflows? && |arg.overflows| == 0 ==> r == Err(IndexError)
    ensures r.Ok? ==> |r.value| >= length
    ensures arg.DefaultOverflows? && length > 0 ==> r == Ok(PadWithLast([1.0 / length as real], length))
    ensures arg.OneOverflow? ==> r.Ok? && |r.value| == length && forall i :: 0 <= i < length ==> r.value[i] == arg.overflow
    ensures arg.Overflows? && |arg.overflows| > 0 ==> r == Ok(PadWithLast(arg.overflows, length))
  {
    match arg
    case DefaultOverflows =>
      if length == 0 then Err(ZeroDivisionError) else Ok(PadWithLast([1.0 / length as real], length))
    case OneOverflow(v) => Ok(seq(length, _ => v))
    case IntOverflow(_) => Err(TypeError)
    case Overflows(vs) => if |vs| == 0 then Err(IndexError) else Ok(PadWithLast(vs, length))
  }

  /** Lines 117-122. */
  function NormalizeGrainers(arg: GrainersArg, length: nat): (r: Result<seq<Grainer>>)
    ensures r.Err? <==> arg.Grainers? && |arg.grainers| == 0
    ensures r.Err? ==> r.error == IndexError
    ensures r.Ok? ==> |r.value| >= length
    ensures arg.OneGrainer? ==> r.Ok? && |r.value| == length && forall i :: 0 <= i < length ==> r.value[i] == arg.grainer
    ensures arg.Grainers? && |arg.grainers| > 0 ==> r == Ok(PadWithLast(arg.grainers, length))
  {
    match arg
    case OneGrainer(g) => Ok(seq(length, _ => g))
    case Grainers(gs) => if |gs| == 0 then Err(IndexError) else Ok(PadWithLast(gs, length))
  }

  /** The default overflow gives every band `1 / len(thrs)`. */
  lemma DefaultOverflowsShareTheRange(length: nat)
    requires length > 0
    ensures NormalizeOverflows(DefaultOverflows, length).Ok?
    ensures var ovs := NormalizeOverflows(DefaultOverflows, length).value;
      |ovs| == length && forall i :: 0 <= i < length ==> ovs[i] * length as real == 1.0
  {
    var ovs := NormalizeOverflows(DefaultOverflows, length).value;
    forall i | 0 <= i < length ensures ovs[i] * length as real == 1.0 {
      if i > 0 { assert ovs[i] == ovs[0]; }
    }
  }

  /** A sequence keeps its own entries, and is only ever extended. */
  lemma NormalizedSequenceKeepsPrefix(vs: seq<real>, length: nat)
    requires |vs| > 0
    ensures NormalizeOverflows(Overflows(vs), length).Ok?
    ensures NormalizeOverflows(Overflows(vs), length).value[..|vs|] == vs
    ensures length <= |vs| ==> NormalizeOverflows(Overflows(vs), length).value == vs
  {
  }

  /** What `graining` derives from the clip's format (lines 142-155). */
  datatype Setup = Setup(isFloat: bool, peak: real, neutral: real, mod: nat)

  function GrainSetup(clip: Clip): (r: Result<Setup>)
    ensures clip.format.None? ==> r == Err(FormatError(VdfTypes.VariableFormatMessage))
    ensures clip.format.Some? && clip.format.value.family == RGB ==>
      r == Err(FormatError(FamilyMessage))
    ensures r.Ok? ==> clip.format.Some? && clip.format.value.family != RGB
    ensures r.Ok? ==> r.value.peak > 0.0 && r.value.mod > 0
    ensures r.Ok? ==> r.value.peak == Peak(clip.format.value)
    ensures r.Ok? ==> r.value.isFloat == (clip.format.value.sampleType == Float)
    ensures r.Ok? ==> Neutral(clip.format.value).Ok? && r.value.neutral == Neutral(clip.format.value).value[0]
    ensures r.Ok? ==> GetMod(clip.format.value.subsamplingW, clip.format.value.subsamplingH) == Ok(r.value.mod)
  {
    var c :- VdfTypes.FormatNotNone(clip);
    var f := c.format.value;
    if f.family == RGB then Err(FormatError(FamilyMessage))
    else
      var isFloat := f.sampleType == Float;
      var peak := Peak(f);
      var neutral :- Neutral(f);
      var mod :- GetMod(f.subsamplingW, f.subsamplingH);
      if f.sampleType == Integer then
        assert f.bits >= 1 && Pow2(f.bits) >= 2;
        Ok(Setup(isFloat, peak, neutral[0], mod))
      else Ok(Setup(isFloat, peak, neutral[0], mod))
  }

  /** What `graining` returns: the interleaved masks, or the grained luma. */
  datatype Output = ShownMasks(masks: seq<Plane>) | Grained(luma: Plane)

  /** `graining` on the band lists, with the number of grainer calls made. */
  function GrainingResult(thrs: seq<real>, strengths: seq<Strength>, sizes: seq<real>, sharps: seq<real>,
                          overflows: seq<real>, grainers: seq<Grainer>,
                          clip: Clip, prefilter: Option<Plane>, showMasks: bool, bicubic: Resampler)
    : (r: (Result<Output>, nat))
    ensures r.0.Ok? && !showMasks ==> r.0.value.Grained? && |r.0.value.luma| == |clip.luma|
    ensures r.0.Ok? && showMasks ==> r.0.value.ShownMasks?
    ensures r.0.Ok? ==> (GrainSetup(clip).Ok? &&
      CumulativeMasks(prefilter.GetOr(clip.luma), thrs, overflows, GrainSetup(clip).value.peak, GrainSetup(clip).value.isFloat).Ok?)
    ensures r.0.Ok? && !showMasks ==> (GrainSetup(clip).Ok? &&
      GrainedLayers(clip, strengths, sizes, sharps, grainers, GrainSetup(clip).value.neutral, GrainSetup(clip).value.mod, bicubic).0.Ok?)
  {
    match GrainSetup(clip)
    case Err(e) => (Err(e), 0)
    case Ok(setup) =>
      var reference := prefilter.GetOr(clip.luma);
      match CumulativeMasks(reference, thrs, overflows, setup.peak, setup.isFloat)
      case Err(e) => (Err(e), 0)
      case Ok(cumulative) =>
        var masks := ExclusiveMasks(cumulative, |reference|);
        if showMasks then (Ok(ShownMasks(masks)), 0)
        else
          var (graineds, calls) := GrainedLayers(clip, strengths, sizes, sharps, grainers, setup.neutral, setup.mod, bicubic);
          match graineds
          case Err(e) => (Err(e), calls)
          case Ok(layers) =>
            match BlendLayers(layers, clip.luma, masks, setup.peak)
            case Err(e) => (Err(e), calls)
            case Ok(blended) => (Ok(Grained(Folded(clip.luma, blended, setup.neutral))), calls)
  }

  class Graigasm {
    var thrs: seq<real>
    var strengths: seq<Strength>
    var sizes: seq<real>
    var sharps: seq<real>
    var overflows: seq<real>
    var grainers: seq<Grainer>

    constructor Init(thrs: seq<real>, strengths: seq<Strength>, sizes: seq<real>, sharps: seq<real>,
                     overflows: seq<real>, grainers: seq<Grainer>)
      ensures this.thrs == thrs && this.strengths == strengths && this.sizes == sizes
      ensures this.sharps == sharps && this.overflows == overflows && this.grainers == grainers
    {
      this.thrs := thrs;
      this.strengths := strengths;
      this.sizes := sizes;
      this.sharps := sharps;
      this.overflows := overflows;
      this.grainers := grainers;
    }

    /** `Graigasm(...)`: checks the list lengths, then normalises `overflows`
        and `grainers` to at least one entry per band. */
    static method Create(thrs: seq<real>, strengths: seq<Strength>, sizes: seq<real>, sharps: seq<real>,
                         overflows: OverflowsArg, grainers: GrainersArg) returns (r: Result<Graigasm>)
      ensures r.Err? <==> (LengthsRejected(|thrs|, |strengths|, |sizes|, |sharps|)
                           || NormalizeOverflows(overflows, |thrs|).Err? || NormalizeGrainers(grainers, |thrs|).Err?)
      ensures LengthsRejected(|thrs|, |strengths|, |sizes|, |sharps|) ==> r == Err(ValueError(LengthMessage))
      ensures !LengthsRejected(|thrs|, |strengths|, |sizes|, |sharps|) && NormalizeOverflows(overflows, |thrs|).Err? ==>
        r == Err(NormalizeOverflows(overflows, |thrs|).error)
      ensures (!LengthsRejected(|thrs|, |strengths|, |sizes|, |sharps|) && NormalizeOverflows(overflows, |thrs|).Ok?
               && NormalizeGrainers(grainers, |thrs|).Err?) ==> r.Err? && r.error == IndexError
      ensures r.Ok? ==> fresh(r.value)
      ensures r.Ok? ==> r.value.thrs == thrs && r.value.strengths == strengths
      ensures r.Ok? ==> r.value.sizes == sizes && r.value.sharps == sharps
      ensures r.Ok? ==> r.value.overflows == NormalizeOverflows(overflows, |thrs|).value
      ensures r.Ok? ==> r.value.grainers == NormalizeGrainers(grainers, |thrs|).value
    {
      var length := |thrs|;
      if LengthsRejected(length, |strengths|, |sizes|, |sharps|) {
        return Err(ValueError(LengthMessage));
      }

      var ovs: seq<real>;
      if overflows.OneOverflow? {
        ovs := seq(length, _ => overflows.overflow);
      } else if overflows.IntOverflow? {
        return Err(TypeError);
      } else {
        if overflows.DefaultOverflows? {
          if length == 0 {
            return Err(ZeroDivisionError);
          }
          ovs := [1.0 / length as real];
        } else {
          ovs := overflows.overflows;
        }
        if |ovs| == 0 {
          return Err(IndexError);
        }
        ovs := ovs + seq(if length <= |ovs| then 0 else length - |ovs|, _ => ovs[|ovs| - 1]);
      }

      var gs: seq<Grainer>;
      if grainers.OneGrainer? {
        gs := seq(length, _ => grainers.grainer);
      } else {
        gs := grainers.grainers;
        if |gs| == 0 {
          return Err(IndexError);
        }
        gs := gs + seq(if length <= |gs| then 0 else length - |gs|, _ => gs[|gs| - 1]);
      }

      var g := new Graigasm.Init(thrs, strengths, sizes, sharps, ovs, gs);
      return Ok(g);
    }

    /** `graining`: the masks of the bands, then, unless `showMasks`, each
        band's grain layer blended with the clip under its mask and folded
        onto the clip in band order. */
    method Graining(clip: Clip, prefilter: Option<Plane>, showMasks: bool, bicubic: Resampler)
      returns (r: Result<Output>, grainerCalls: nat)
      ensures (r, grainerCalls)
        == GrainingResult(thrs, strengths, sizes, sharps, overflows, grainers, clip, prefilter, showMasks, bicubic)
    {
      var setupResult := GrainSetup(clip);
      if setupResult.Err? {
        return Err(setupResult.error), 0;
      }
      var setup := setupResult.value;
      var reference := prefilter.GetOr(clip.luma);
      var cumulative := CumulativeMasks(reference, thrs, overflows, setup.peak, setup.isFloat);
      if cumulative.Err? {
        return Err(cumulative.error), 0;
      }
      var masks := ExclusiveMasks(cumulative.value, |reference|);
      if showMasks {
        return Ok(ShownMasks(masks)), 0;
      }

      var grainedResult := GrainedLayers(clip, strengths, sizes, sharps, grainers, setup.neutral, setup.mod, bicubic);
      var graineds, calls := grainedResult.0, grainedResult.1;
      if graineds.Err? {
        return Err(graineds.error), calls;
      }
      var blendResult := BlendLayers(graineds.value, clip.luma, masks, setup.peak);
      if blendResult.Err? {
        return Err(blendResult.error), calls;
      }
      var out := FoldLayers(clip.luma, blendResult.value, setup.neutral);
      return Ok(Grained(out)), calls;
    }
  }

  /** Lines 183-185: `for adg in adgs: out = MergeDiff(adg, MakeDiff(clip, out))`. */
  method FoldLayers(clip: Plane, layers: seq<Plane>, neutral: real) returns (out: Plane)
    requires SameSize(layers, |clip|)
    ensures out == Folded(clip, layers, neutral)
  {
    out := clip;
    var i := 0;
    while i < |layers|
      invariant 0 <= i <= |layers|
      invariant |out| == |clip|
      invariant out == Folded(clip, layers[..i], neutral)
    {
      assert layers[..i + 1][..i] == layers[..i];
      out := MergeDiff(layers[i], MakeDiff(clip, out, neutral), neutral);
      i := i + 1;
    }
    assert layers[..|layers|] == layers;
  }

  /** With `showMasks` the masks are returned before any grainer is called. */
  lemma ShowMasksCallsNoGrainer(thrs: seq<real>, strengths: seq<Strength>, sizes: seq<real>, sharps: seq<real>,
                                overflows: seq<real>, grainers: seq<Grainer>,
                                clip: Clip, prefilter: Option<Plane>, bicubic: Resampler)
    ensures GrainingResult(thrs, strengths, sizes, sharps, overflows, grainers, clip, prefilter, true, bicubic).1 == 0
    ensures var r := GrainingResult(thrs, strengths, sizes, sharps, overflows, grainers, clip, prefilter, true, bicubic).0;
      r.Ok? ==> GrainSetup(clip).Ok? && var reference := prefilter.GetOr(clip.luma);
        var cumulative := CumulativeMasks(reference, thrs, overflows, GrainSetup(clip).value.peak, GrainSetup(clip).value.isFloat);
        cumulative.Ok? && r.value == ShownMasks(ExclusiveMasks(cumulative.value, |reference|))
        && |r.value.masks| == (if |thrs| <= |overflows| then |thrs| else |overflows|)
  {
  }

  /** Otherwise one grainer call is made per band of
      `zip(strengths, sizes, sharps, grainers)`, never more. */
  lemma GrainerCallsPerBand(thrs: seq<real>, strengths: seq<Strength>, sizes: seq<real>, sharps: seq<real>,
                            overflows: seq<real>, grainers: seq<Grainer>,
                            clip: Clip, prefilter: Option<Plane>, bicubic: Resampler)
    ensures var (r, calls) := GrainingResult(thrs, strengths, sizes, sharps, overflows, grainers, clip, prefilter, false, bicubic);
      calls <= MinLen(MinLen(|strengths|, |sizes|), MinLen(|sharps|, |grainers|))
      && (r.Ok? ==> calls == MinLen(MinLen(|strengths|, |sizes|), MinLen(|sharps|, |grainers|)))
  {
  }

  /** The errors checked before any mask is built. */
  lemma GrainingFormatErrors(thrs: seq<real>, strengths: seq<Strength>, sizes: seq<real>, sharps: seq<real>,
                             overflows: seq<real>, grainers: seq<Grainer>,
                             clip: Clip, prefilter: Option<Plane>, showMasks: bool, bicubic: Resampler)
    ensures var r := GrainingResult(thrs, strengths, sizes, sharps, overflows, grainers, clip, prefilter, showMasks, bicubic);
      (clip.format.None? ==> r == (Err(FormatError(VdfTypes.VariableFormatMessage)), 0))
      && (clip.format.Some? && clip.format.value.family == RGB ==>
            r == (Err(FormatError(FamilyMessage)), 0))
      && (clip.format.Some? && clip.format.value.family != RGB && Neutral(clip.format.value).Ok?
          && GetMod(clip.format.value.subsamplingW, clip.format.value.subsamplingH).Err? ==>
            r == (Err(ValueError(FormatUnknownMessage)), 0))
  {
  }

  /** With no bands the clip comes back unchanged. */
  lemma GrainingNoBands(overflows: seq<real>, grainers: seq<Grainer>, clip: Clip, prefilter: Option<Plane>,
                        bicubic: Resampler)
    requires GrainSetup(clip).Ok?
    ensures GrainingResult([], [], [], [], overflows, grainers, clip, prefilter, false, bicubic) == (Ok(Grained(clip.luma)), 0)
  {
  }

  /** Grainers that add nothing (zero strength) leave the clip exactly as it
      was, whatever the masks. */
  lemma GrainingWithNoOpGrainers(thrs: seq<real>, strengths: seq<Strength>, sizes: seq<real>, sharps: seq<real>,
                                 overflows: seq<real>, grainers: seq<Grainer>,
                                 clip: Clip, prefilter: Option<Plane>, bicubic: Resampler)
    requires |clip.luma| == clip.width * clip.height
    requires (forall k :: 0 <= k < |grainers| ==> NoOpGrainer(grainers[k])) && KeepsFlatPlanes(bicubic)
    requires GrainingResult(thrs, strengths, sizes, sharps, overflows, grainers, clip, prefilter, false, bicubic).0.Ok?
    ensures GrainingResult(thrs, strengths, sizes, sharps, overflows, grainers, clip, prefilter, false, bicubic).0
      == Ok(Grained(clip.luma))
  {
    var setup := GrainSetup(clip).value;
    var reference := prefilter.GetOr(clip.luma);
    var cumulative := CumulativeMasks(reference, thrs, overflows, setup.peak, setup.isFloat).value;
    var masks := ExclusiveMasks(cumulative, |reference|);
    var layers := GrainedLayers(clip, strengths, sizes, sharps, grainers, setup.neutral, setup.mod, bicubic).0.value;
    NoOpGrainLayersAreClip(clip, strengths, sizes, sharps, grainers, setup.neutral, setup.mod, bicubic);
    var blended := BlendLayers(layers, clip.luma, masks, setup.peak).value;
    var out := Folded(clip.luma, blended, setup.neutral);
    forall p | 0 <= p < |clip.luma| ensures out[p] == clip.luma[p] {
      forall k | 0 <= k < |blended| ensures blended[k][p] == clip.luma[p] {
        assert BlendPlane(layers[k], clip.luma, masks[k], setup.peak) == Ok(blended[k]);
        BlendOfEqualSamples(clip.luma[p], masks[k][p], setup.peak);
      }
      FoldedKeepsClip(clip.luma, blended, setup.neutral, p);
    }
    assert out == clip.luma;
  }

  /** No sample of the reference falls on a zero-width zone of a band of
      `zip(thrs, overflows)`, so every mask can be built. */
  predicate BandsMaskable(reference: Plane, thrs: seq<real>, overflows: seq<real>, peak: real) {
    peak > 0.0 &&
    forall k, i :: 0 <= k < |thrs| && k < |overflows| && 0 <= i < |reference| ==>
      MaskSample(reference[i], thrs[k], overflows[k], peak).Ok?
  }

  /** Every band of `zip(strengths, sizes, sharps, grainers)` gives a layer. */
  predicate BandsGrainable(clip: Clip, strengths: seq<Strength>, sizes: seq<real>, sharps: seq<real>,
                           grainers: seq<Grainer>, neutral: real, mod: nat, bicubic: Resampler) {
    mod > 0 &&
    forall k :: 0 <= k < MinLen(MinLen(|strengths|, |sizes|), MinLen(|sharps|, |grainers|)) ==>
      MakeGrained(clip, strengths[k], sizes[k], sharps[k], grainers[k], neutral, mod, bicubic).0.Ok?
  }

  /** With a prefilter of the luma's size, `graining` succeeds exactly when
      the format is supported, every mask can be built and every band's
      `_make_grained` succeeds. */
  lemma GrainingSucceeds(thrs: seq<real>, strengths: seq<Strength>, sizes: seq<real>, sharps: seq<real>,
                         overflows: seq<real>, grainers: seq<Grainer>,
                         clip: Clip, prefilter: Option<Plane>, bicubic: Resampler)
    requires |prefilter.GetOr(clip.luma)| == |clip.luma|
    ensures GrainingResult(thrs, strengths, sizes, sharps, overflows, grainers, clip, prefilter, false, bicubic).0.Ok?
      <==> GrainSetup(clip).Ok?
           && BandsMaskable(prefilter.GetOr(clip.luma), thrs, overflows, GrainSetup(clip).value.peak)
           && BandsGrainable(clip, strengths, sizes, sharps, grainers,
                             GrainSetup(clip).value.neutral, GrainSetup(clip).value.mod, bicubic)
  {
    if GrainSetup(clip).Ok? {
      var setup := GrainSetup(clip).value;
      var reference := prefilter.GetOr(clip.luma);
      MasksSucceed(reference, thrs, overflows, setup.peak, setup.isFloat);
      var cumulative := CumulativeMasks(reference, thrs, overflows, setup.peak, setup.isFloat);
      GrainedLayersBands(clip, strengths, sizes, sharps, grainers, setup.neutral, setup.mod, bicubic);
      var graineds := GrainedLayers(clip, strengths, sizes, sharps, grainers, setup.neutral, setup.mod, bicubic).0;
      if cumulative.Ok? && graineds.Ok? {
        BlendsSucceed(graineds.value, clip.luma, ExclusiveMasks(cumulative.value, |reference|), setup.peak);
      }
    }
  }

  /** The masks of `zip(thrs, overflows)` can all be built exactly when no
      reference sample falls on a zero-width zone. */
  lemma MasksSucceed(reference: Plane, thrs: seq<real>, overflows: seq<real>, peak: real, isFloat: bool)
    requires peak > 0.0
    ensures CumulativeMasks(reference, thrs, overflows, peak, isFloat).Ok? <==> BandsMaskable(reference, thrs, overflows, peak)
  {
    if CumulativeMasks(reference, thrs, overflows, peak, isFloat).Err? {
      var k :| 0 <= k < |thrs| && k < |overflows| && MaskPlane(reference, thrs[k], overflows[k], peak, isFloat).Err?;
      var i :| 0 <= i < |reference| && MaskSample(reference[i], thrs[k], overflows[k], peak).Err?;
      assert !BandsMaskable(reference, thrs, overflows, peak);
    } else {
      forall k, i | 0 <= k < |thrs| && k < |overflows| && 0 <= i < |reference|
        ensures MaskSample(reference[i], thrs[k], overflows[k], peak).Ok?
      {
        assert MaskPlane(reference, thrs[k], overflows[k], peak, isFloat).Ok?;
      }
    }
  }

  /** Layers and masks of the clip's size always blend. */
  lemma BlendsSucceed(layers: seq<Plane>, luma: Plane, masks: seq<Plane>, peak: real)
    requires peak > 0.0 && SameSize(layers, |luma|) && SameSize(masks, |luma|)
    ensures BlendLayers(layers, luma, masks, peak).Ok?
  {
    forall k | 0 <= k < |layers| && k < |masks|
      ensures BlendPlane(layers[k], luma, masks[k], peak).Ok?
    {
    }
  }

  /** The value of each output sample: the alternating sum of the blended
      layers, where layer `k` blends band `k`'s grain layer (the one
      `_make_grained` makes, by GrainedLayersBands) with the clip under
      exclusive mask `k`. */
  lemma GrainedSample(thrs: seq<real>, strengths: seq<Strength>, sizes: seq<real>, sharps: seq<real>,
                      overflows: seq<real>, grainers: seq<Grainer>,
                      clip: Clip, prefilter: Option<Plane>, bicubic: Resampler, p: nat)
    requires GrainingResult(thrs, strengths, sizes, sharps, overflows, grainers, clip, prefilter, false, bicubic).0.Ok?
    requires p < |clip.luma|
    ensures var setup := GrainSetup(clip).value;
      var reference := prefilter.GetOr(clip.luma);
      var masks := ExclusiveMasks(CumulativeMasks(reference, thrs, overflows, setup.peak, setup.isFloat).value, |reference|);
      var layers := GrainedLayers(clip, strengths, sizes, sharps, grainers, setup.neutral, setup.mod, bicubic).0.value;
      var blended := BlendLayers(layers, clip.luma, masks, setup.peak).value;
      var out := GrainingResult(thrs, strengths, sizes, sharps, overflows, grainers, clip, prefilter, false, bicubic).0.value.luma;
      |blended| == MinLen(|layers|, |masks|)
      && (forall k :: 0 <= k < |blended| ==>
            blended[k][p] == BlendSample(layers[k][p], clip.luma[p], masks[k][p], setup.peak))
      && out[p] == AlternatingSum(blended, |blended|, p) + (if |blended| % 2 == 0 then clip.luma[p] else 0.0)
  {
    var setup := GrainSetup(clip).value;
    var reference := prefilter.GetOr(clip.luma);
    var masks := ExclusiveMasks(CumulativeMasks(reference, thrs, overflows, setup.peak, setup.isFloat).value, |reference|);
    var layers := GrainedLayers(clip, strengths, sizes, sharps, grainers, setup.neutral, setup.mod, bicubic).0.value;
    var blended := BlendLayers(layers, clip.luma, masks, setup.peak).value;
    forall k | 0 <= k < |blended|
      ensures blended[k][p] == BlendSample(layers[k][p], clip.luma[p], masks[k][p], setup.peak)
    {
      assert BlendPlane(layers[k], clip.luma, masks[k], setup.peak) == Ok(blended[k]);
    }
    FoldedClosedForm(clip.luma, blended, setup.neutral, p);
  }

  /** Blending a sample with itself gives it back, whatever the mask. */
  lemma BlendOfEqualSamples(v: real, mask: real, peak: real)
    requires peak > 0.0
    ensures BlendSample(v, v, mask, peak) == v
  {
    var w := mask / peak;
    assert v * w + v * (1.0 - w) == v;
  }

  /** The lenient length check lets a band without its own strength through;
      `zip` then gives it no grain layer, so it drops out of the composite. */
  lemma LenientLengthCheck(thrs: seq<real>, strengths: seq<Strength>, sizes: seq<real>, sharps: seq<real>,
                           overflows: seq<real>, grainers: seq<Grainer>,
                           clip: Clip, prefilter: Option<Plane>, bicubic: Resampler)
    requires |strengths| < |thrs| && |sizes| == |thrs| && |sharps| == |thrs|
    ensures !LengthsRejected(|thrs|, |strengths|, |sizes|, |sharps|)
    ensures GrainingResult(thrs, strengths, sizes, sharps, overflows, grainers, clip, prefilter, false, bicubic).1 < |thrs|
  {
    GrainerCallsPerBand(thrs, strengths, sizes, sharps, overflows, grainers, clip, prefilter, bicubic);
  }
}
