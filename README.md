# vardefunc grain compositor, in Dafny

This project models the core of vardefunc, a VapourSynth filtering library:

- **The multi-band grain compositor `Graigasm`** (`vardefunc/noise.py`).
  - Each band is defined by a luma threshold, a strength, a grain size, a sharpness and a grainer.
  - The constructor checks and normalises these per-band lists.
  - `graining` does the work:
    - it builds one ramp mask per band from a reference plane;
    - it turns the cumulative masks into exclusive ones;
    - it makes one grain layer per band, by graining a neutral blank clip that was down-sampled to a multiple of the chroma alignment, then scaling it back with a bicubic kernel;
    - it blends each layer with the clip under its mask;
    - it folds the blended layers onto the clip, in band order, through MakeDiff and MergeDiff.
- **The decision logic around it:**
  - `decsiz` (plane choice and denoise mask) and the frame selection of `adaptative_regrain`, also in `noise.py`;
  - the limit expressions, profile checks and sizes of `fsrcnnx_upscale` and `placebo_shader` (`scale.py`);
  - the `DuplicateFrame` integer and `format_not_none` (`types.py`);
  - the super-sampling sizes of `upscaled_sraa` (`aa.py`).

A clip is its format, width, height and luma plane. A plane is a `seq<real>` of samples.

Python's arithmetic is written out in `pynum.dfy`:

- `round` rounds half to even.
- `//` is floor division.
- `& ~1` clears bit 0.

Python's list behaviour is written out where the source uses it:

- `zip` truncates to its shortest input (`NoiseMask.CumulativeMasks`, `NoiseGrain.GrainedLayers`, `NoiseComposite.BlendLayers`).
- `[x] * n` is one copy per band (`NoiseGraigasm.NormalizeOverflows`, `NoiseGraigasm.NormalizeGrainers`).
- `lst[-1]` on an empty list raises `IndexError` (`NoiseGraigasm.PadWithLast`, `NoiseGraigasm.NormalizeGrainers`).

Errors are `Result` values whose `Error` names the Python exception and message. The plugins (grainers, resamplers, shaders, `Repair`, `Minimum`/`Maximum`) appear in one of two ways:

- as function-typed parameters: `Grainer`, `Resampler`, `getW`;
- as the sizes and choices handed to them: `FsrcnnxPlan`, `PlaceboPlan`, `SraaPlan`.

How the files map to the source:

- `wrappers.dfy`, `frames.dfy` and `pynum.dfy` hold the shared types and Python arithmetic.
- `noise_mask.dfy`, `noise_grain.dfy`, `noise_composite.dfy` and `graigasm.dfy` follow the compositor's parts: masks, grain layers, blending and fold, then the class itself.
- `noise_extras.dfy`, `scale.dfy`, `types.dfy` and `aa.dfy` cover the rest.

`Graigasm` is a class:

- `Create` checks and pads the lists into the object's fields.
- `Graining` computes with a loop for the fold. Its postcondition ties the result to the function `GrainingResult`. The lemmas beside that function state what `graining` promises: when it succeeds (`NoiseGraigasm.GrainingSucceeds`) and the value of every output sample (`NoiseGraigasm.GrainedSample`).

Every grain-producing function also returns how many times it called a grainer. This makes "no grainer is called when the masks are shown" and "one call per band" provable.

The fold of `vardefunc/noise.py:181-186` alternates signs:

- Each step computes `out = core.std.MergeDiff(adg, core.std.MakeDiff(clip, out))`, which is `adg + clip - out`.
- Its closed form is an alternating sum: the last layer enters with `+`, the one before it with `-`, and so on. The clip survives only for an even number of layers (`NoiseComposite.FoldedClosedForm`).
- The order of the bands therefore matters (`NoiseComposite.FoldOrderMatters`).
- Because the grain is zero-mean noise, the flipped sign of earlier bands is not reported as a defect.

The constructor's length check is lenient, and the model reproduces it as written:

- It raises only when *all* of `strengths`, `sizes` and `sharps` differ in length from `thrs`.
- `zip` then silently drops the bands that lack parameters (`NoiseGraigasm.LenientLengthCheck`).

## Model

| member | source | states |
|---|---|---|
| Frames.Pow2 | vardefunc/noise.py:149-151 | `1 << n` is at least 1 |
| Frames.Pow2Grows | vardefunc/noise.py:149-151 | `1 << n` exceeds `n` and is even for `n > 0` |
| Frames.Constant | vardefunc/noise.py:199 | `BlankClip(color=v)`: `n` samples, each `v` |
| Frames.MakeDiff | vardefunc/noise.py:202 | each sample of the difference, less the offset, is the difference of the two inputs |
| Frames.MergeDiff | vardefunc/noise.py:185 | each merged sample exceeds the base by the difference, less the offset |
| Frames.MergeDiffOfMakeDiff | vardefunc/noise.py:183-185 | MergeDiff undoes MakeDiff for every offset |
| PyNum.Abs | vardefunc/noise.py:229 | `abs(x)` is non-negative and is `x` or `-x` |
| PyNum.Min | vardefunc/noise.py:331 | `min(a, b)` is at most both and is one of them |
| PyNum.Max | vardefunc/noise.py:331 | `max(a, b)` is at least both and is one of them |
| PyNum.RoundHalfEven | vardefunc/noise.py:234 | the result is within 1/2 of the input and is even on a tie (Python's `round`) |
| PyNum.RoundHalfEvenUnique | vardefunc/noise.py:234 | an integer strictly within 1/2 of `x` is `round(x)` |
| PyNum.RoundHalfEvenMonotone | vardefunc/noise.py:234 | rounding keeps the order of its inputs |
| PyNum.RoundHalfEvenBounds | vardefunc/noise.py:234 | rounding a value of [0, p] stays in [0, p] |
| PyNum.FloorDiv | vardefunc/types.py:63-64 | `q` satisfies the floor-division bounds for both signs of the divisor |
| PyNum.FloorDivIsFloor | vardefunc/types.py:63-64 | `a // b` is the floor of the exact quotient |
| PyNum.ClearLowBit | vardefunc/aa.py:225 | `v & ~1` is even and is `v` or `v - 1` |
| NoiseMask.MinThr | vardefunc/noise.py:226 | the lower edge of the zone is at most `thr` for a non-negative overflow, and equals it iff the zone has zero width |
| NoiseMask.MaxThr | vardefunc/noise.py:227 | the zone is `overflow * peak` wide and centred on `thr` |
| NoiseMask.MaskSample | vardefunc/noise.py:225-233 | fails (ZeroDivisionError) exactly when the zone has zero width and `x` is the threshold; otherwise in [0, peak] |
| NoiseMask.RampBounds | vardefunc/noise.py:229 | on the zone the `abs` ramp equals `peak - t*peak` and lies in [0, peak] |
| NoiseMask.MaskValue | vardefunc/noise.py:225-245 | fails exactly when the unrounded sample does; float formats give MaskSample's value, integer formats its RoundHalfEven |
| NoiseMask.MaskEdges | vardefunc/noise.py:226-233 | `peak` at and below `min_thr`, 0 at and above `max_thr` |
| NoiseMask.HardStep | vardefunc/noise.py:225-234 | with `overflow = 0`: a step from `peak` to 0, and a division by zero at `x == thr` |
| NoiseMask.MaskNonIncreasing | vardefunc/noise.py:225-233 | the mask does not increase as the sample increases |
| NoiseMask.MaskInZone | vardefunc/noise.py:228-229 | a sample inside a zone that does not fail means the zone has positive width, and the mask is the ramp there |
| NoiseMask.RampNonIncreasing | vardefunc/noise.py:229 | the ramp does not increase as `x` grows across the zone |
| NoiseMask.Ramp | vardefunc/noise.py:229 | `peak` at the lower edge, 0 at the upper edge, in [0, peak] between |
| NoiseMask.MaskValueIntegerBounds | vardefunc/noise.py:225-234 | the rounded mask is in [0, peak] and non-increasing |
| NoiseMask.MaskPlane | vardefunc/noise.py:245 | fails iff some sample fails; otherwise one mask value per reference sample |
| NoiseMask.CumulativeMasks | vardefunc/noise.py:157 | fails iff the MaskPlane of some pair of `zip(thrs, overflows)` fails; otherwise one mask per pair, each the band's MaskPlane, all of the reference's size |
| NoiseMask.Sub | vardefunc/noise.py:159 | the sample-wise difference |
| NoiseMask.ExclusiveMasks | vardefunc/noise.py:158-159 | as many exclusive masks as cumulative ones, all of the same size |
| NoiseMask.ExclusiveMaskAt | vardefunc/noise.py:158-159 | mask `k` is the cumulative mask `k` minus the cumulative mask `k-1` (minus 0 for the first) |
| NoiseMask.FirstExclusiveMask | vardefunc/noise.py:158-159 | the first exclusive mask is the first cumulative mask |
| NoiseMask.ExclusiveMasksTelescope | vardefunc/noise.py:157-159 | the first `k` exclusive masks sum to cumulative mask `k-1` |
| NoiseGrain.Peak | vardefunc/noise.py:149 | 1.0 for float formats, `2^bits - 1` for integer ones |
| NoiseGrain.Neutral | vardefunc/noise.py:151 | one value per plane: 0.5, then zeros, for float formats; `2^(bits-1)` for integer ones; a 0-bit integer format raises |
| NoiseGrain.GetMod | vardefunc/noise.py:205-218 | the table's value is `2^max(ss_w, ss_h)`; an unknown pair raises `Graigasm: Format unknown!` |
| NoiseGrain.GetModDomain | vardefunc/noise.py:206-213 | the table accepts exactly the six listed pairs |
| NoiseGrain.GetModCoversSubsampling | vardefunc/noise.py:205-216 | the modulus is a multiple of both subsampling factors |
| NoiseGrain.RoundDownToMultiple | vardefunc/noise.py:248-249 | `_m__(x, mod)` is a multiple of `mod` in `(x - mod, x]` |
| NoiseGrain.RoundDownToMultipleIsLargest | vardefunc/noise.py:248-249 | no multiple of `mod` that is at most `x` exceeds `_m__(x, mod)` |
| NoiseGrain.GrainDims | vardefunc/noise.py:194-195 | both sizes are multiples of `mod` just below the rounded quotients; size 0 raises ZeroDivisionError |
| NoiseGrain.GrainDimsUnitSize | vardefunc/noise.py:194-195 | grain size 1 keeps aligned sizes |
| NoiseGrain.KernelParams | vardefunc/noise.py:196-197 | `b + 2c = 1`; sharp 50 gives Catmull-Rom (0, 1/2); sharp 0 gives the B-spline (1, 0) |
| NoiseGrain.KernelParamsMonotone | vardefunc/noise.py:196-197 | a larger `sharp` lowers `b` and raises `c` |
| NoiseGrain.MakeGrained | vardefunc/noise.py:190-202 | at most one grainer call; a layer of the clip's size comes from exactly one call; size 0 fails (GrainDims's ZeroDivisionError) and a zero-sized blank fails with ClipError, both before any call |
| NoiseGrain.MakeGrainedLayer | vardefunc/noise.py:194-202 | a layer that succeeds is `clip - grain` around `neutral`, `grain` being the grainer's output on the positive-sized flat blank, resized back with the band's kernel to the clip's size |
| NoiseGrain.GrainedLayers | vardefunc/noise.py:176-177 | at most one call per element of the four-way zip; on success exactly that many layers and calls, each layer of the clip's size |
| NoiseGrain.GrainedLayersBands | vardefunc/noise.py:176-177 | fails iff some band of the four-way zip fails in `_make_grained`; otherwise layer `k` is band `k`'s layer |
| NoiseGrain.FlatResize | vardefunc/noise.py:200 | a resampler that returns a flat plane of the target size holding the source's first sample |
| NoiseGrain.NoOpPluginsExist | vardefunc/noise.py:199-200 | the two plugin hypotheses of the no-op lemmas can be met: FlatResize keeps flat planes, the identity grainer adds nothing |
| NoiseGrain.NoOpGrainLayerIsClip | vardefunc/noise.py:199-202 | a grainer that adds nothing yields a layer equal to the clip |
| NoiseGrain.NoOpGrainLayersAreClip | vardefunc/noise.py:176-177 | every layer of such grainers equals the clip |
| NoiseComposite.BlendSample | vardefunc/noise.py:179 | the clip where the mask is 0, the grain where it is `peak`, in between otherwise |
| NoiseComposite.ConvexCombination | vardefunc/noise.py:179 | a weight in [0,1] mixes two values into their range |
| NoiseComposite.BlendPlane | vardefunc/noise.py:179 | succeeds iff the three planes have equal sizes; then sample-wise BlendSample |
| NoiseComposite.BlendLayers | vardefunc/noise.py:179-180 | fails iff the BlendPlane of some pair of `zip(graineds, masks)` fails; otherwise one blended layer per pair, each the pair's BlendPlane |
| NoiseComposite.FoldStep | vardefunc/noise.py:185 | each new sample is `layer + clip - out` (the offsets cancel) |
| NoiseComposite.Folded | vardefunc/noise.py:183-185 | the fold keeps the clip's size |
| NoiseComposite.FoldedClosedForm | vardefunc/noise.py:183-185 | the fold is the alternating sum of the layers, plus the clip for an even count |
| NoiseComposite.AlternatingSumAgree | vardefunc/noise.py:183-185 | the alternating sum of a prefix reads only that prefix |
| NoiseComposite.FoldedNoLayers | vardefunc/noise.py:183 | no bands: the output is the clip |
| NoiseComposite.FoldedTwoLayers | vardefunc/noise.py:183-185 | two bands give `adg2 + clip - adg1` |
| NoiseComposite.Plus | vardefunc/noise.py:185 | the sample-wise sum |
| NoiseComposite.FoldOrderMatters | vardefunc/noise.py:184-185 | swapping two bands changes a sample iff their layers differ there |
| NoiseComposite.FoldedKeepsClip | vardefunc/noise.py:183-185 | where every layer equals the clip, the fold equals the clip |
| NoiseComposite.FoldedIgnoresOffset | vardefunc/noise.py:185 | the MakeDiff/MergeDiff offset cancels out of the fold |
| NoiseGraigasm.PadWithLast | vardefunc/noise.py:114 | keeps the list as a prefix, pads to `n` with its last element, never shortens |
| NoiseGraigasm.LengthsRejected | vardefunc/noise.py:104-106 | `all(len(lst) != length ...)`: refused iff none of the three lists has the length of `thrs` |
| NoiseGraigasm.NormalizeOverflows | vardefunc/noise.py:108-115 | the default with no bands raises ZeroDivisionError, an empty list raises IndexError, an `int` (not a `float`, so taken for a sequence) raises TypeError; the default is `[1/len(thrs)]` padded, one float is copied once per band, a list is padded with its last element |
| NoiseGraigasm.NormalizeGrainers | vardefunc/noise.py:117-122 | an empty list raises IndexError; one grainer is copied once per band; a list is padded with its last element |
| NoiseGraigasm.DefaultOverflowsShareTheRange | vardefunc/noise.py:108-109 | the default gives every band `1/len(thrs)` |
| NoiseGraigasm.NormalizedSequenceKeepsPrefix | vardefunc/noise.py:113-114 | a given list keeps its entries and is left as is when long enough |
| NoiseGraigasm.GrainSetup | vardefunc/noise.py:142-155 | variable format and RGB raise FormatError; otherwise peak, float flag, luma neutral and modulus of the format |
| NoiseGraigasm.GrainingResult | vardefunc/noise.py:142-188 | the shown masks, or a grained luma of the clip's size; success means the format is supported and the masks (and, when grained, the layers) were built |
| NoiseGraigasm.GrainingSucceeds | vardefunc/noise.py:142-188 | with a prefilter of the luma's size, graining succeeds iff the format is supported, no reference sample hits a zero-width zone and every band's `_make_grained` succeeds |
| NoiseGraigasm.MasksSucceed | vardefunc/noise.py:157 | the masks can all be built iff no reference sample hits a zero-width zone of a band |
| NoiseGraigasm.BlendsSucceed | vardefunc/noise.py:179-180 | layers and masks of the clip's size always blend |
| NoiseGraigasm.GrainedSample | vardefunc/noise.py:176-188 | each output sample is the alternating sum of the blended samples, plus the clip's for an even count; blended layer `k` mixes band `k`'s layer with the clip under exclusive mask `k` |
| NoiseGraigasm.Graigasm.Init | vardefunc/noise.py:98-101 | the fields hold the given lists |
| NoiseGraigasm.Graigasm.Create | vardefunc/noise.py:98-122 | raises iff the length check, the overflows or the grainers fail, in that order (ValueError, the overflows' error including the TypeError of an `int`, IndexError); otherwise a fresh object with the lists and their normalisation |
| NoiseGraigasm.Graigasm.Graining | vardefunc/noise.py:142-188 | the result and the grainer-call count are GrainingResult's |
| NoiseGraigasm.FoldLayers | vardefunc/noise.py:183-185 | the loop computes Folded |
| NoiseGraigasm.ShowMasksCallsNoGrainer | vardefunc/noise.py:157-173 | showing masks calls no grainer and returns the `len(zip(thrs, overflows))` exclusive masks |
| NoiseGraigasm.GrainerCallsPerBand | vardefunc/noise.py:176-177 | never more grainer calls than four-way-zip bands; exactly that many on success |
| NoiseGraigasm.GrainingFormatErrors | vardefunc/noise.py:142-144 | variable format, RGB and an unknown subsampling fail before any grainer call |
| NoiseGraigasm.GrainingNoBands | vardefunc/noise.py:183-188 | with no bands the clip's luma comes back unchanged |
| NoiseGraigasm.GrainingWithNoOpGrainers | vardefunc/noise.py:176-188 | grainers that add nothing leave the clip unchanged |
| NoiseGraigasm.BlendOfEqualSamples | vardefunc/noise.py:179 | blending a sample with itself gives it back |
| NoiseGraigasm.LenientLengthCheck | vardefunc/noise.py:103-106 | a band without its strength passes the check and gets no grain layer |
| NoiseExtras.DecsizPlanes | vardefunc/noise.py:306-309 | Gray gives [0]; a missing or empty list gives [0, 1, 2]; otherwise the given planes |
| NoiseExtras.DecsizPeakAsWritten | vardefunc/noise.py:304 | `2^bits - 1` whatever the sample type |
| NoiseExtras.DecsizPeak | vardefunc/noise.py:304 | the format's maximum: as written for integer clips, 1.0 for float ones |
| NoiseExtras.DecsizFloatPeakAsWritten | vardefunc/noise.py:304 | on 32-bit float the peak as written is 4294967295 and the mask reaches it |
| NoiseExtras.DecsizSetupOf | vardefunc/noise.py:299-309 | variable format raises FormatError; otherwise the planes, the corrected peak (DecsizPeak) and the float flag |
| NoiseExtras.DecsizSetupAsWritten | vardefunc/noise.py:299-309 | as DecsizSetupOf, but with the peak of line 304 for every format; equal on integer clips, a different peak on float ones |
| NoiseExtras.Unit | vardefunc/noise.py:331 | `min(1, max(0, v))` is in [0, 1] and keeps values already there |
| NoiseExtras.Level | vardefunc/noise.py:331 | the normalised level is in [0, 1] |
| NoiseExtras.DenoiseMaskSample | vardefunc/noise.py:329-332 | fails (ZeroDivisionError) iff `min_in == max_in` |
| NoiseExtras.Quantize | vardefunc/noise.py:329-331 | integer clips round half to even, float clips keep the value |
| NoiseExtras.DenoiseMaskSampleArgs | vardefunc/noise.py:253-256 | `min_in`/`max_in` default to `None`, which raises TypeError; given bounds behave as DenoiseMaskSample |
| NoiseExtras.DenoiseMaskShape | vardefunc/noise.py:330-331 | in [0, peak]: 0 at and below `min_in`, `peak` at and above `max_in`, the linear ramp between |
| NoiseExtras.DenoiseMaskMonotone | vardefunc/noise.py:330 | the mask never decreases with the sample |
| NoiseExtras.DenoiseMaskRounded | vardefunc/noise.py:331 | the integer path is the float path rounded half to even |
| NoiseExtras.DenoiseMaskIntegerMonotone | vardefunc/noise.py:331 | the rounded mask never decreases either |
| NoiseExtras.DenoiseMaskIntegerBounds | vardefunc/noise.py:331 | the rounded mask is a whole number in [0, peak] |
| NoiseExtras.DenoiseMaskSwappedBounds | vardefunc/noise.py:330-331 | `max_in < min_in` makes the mask `peak` everywhere |
| NoiseExtras.SelectRegrain | vardefunc/noise.py:385-398 | `new` above `max(range_avg)`, `adapt` below the min, else a weight with `w*(max-min) = psa-min`; fails iff `psa == min == max` |
| NoiseExtras.RegrainWeightInUnit | vardefunc/noise.py:396 | the merge weight lies in [0, 1] |
| NoiseExtras.RegrainWeightMonotone | vardefunc/noise.py:396 | the weight grows with the average |
| NoiseExtras.RegrainRangeSymmetric | vardefunc/noise.py:385-386 | the order of the two range values does not matter |
| NoiseExtras.MergeSample | vardefunc/noise.py:397 | weight 0 gives `adapt`, 1 gives `new`, in between lies in their range |
| NoiseExtras.RegrainSample | vardefunc/noise.py:391-398 | new, adapt, or their merge, as chosen |
| NoiseExtras.RegrainContinuous | vardefunc/noise.py:391-398 | no jump at either end of the range; the output stays between the two grains |
| Scale.LowerAscii | vardefunc/scale.py:212 | only upper-case letters change |
| Scale.IndexOf | vardefunc/scale.py:213 | `list.index`: the position of the first occurrence |
| Scale.ProfileNumber | vardefunc/scale.py:210-213 | raises iff the name is not one of the four (case-sensitive); otherwise its index |
| Scale.ProfileIsLowerCase | vardefunc/scale.py:211-212 | `lower()` leaves an accepted name unchanged |
| Scale.ProfileCaseSensitive | vardefunc/scale.py:210-213 | "Slow" is refused although its lower case is accepted |
| Scale.ProfileNumberIsIndex | vardefunc/scale.py:210-213 | each accepted name's number is its position in the list |
| Scale.ProfileNumbers | vardefunc/scale.py:210-213 | fast, old, slow and zastin are 0 to 3 |
| Scale.LimitDefaults | vardefunc/scale.py:205-208 | `overshoot` defaults to `strength/100`, `undershoot` to `overshoot` |
| Scale.LimitOf | vardefunc/scale.py:220-249 | the limit of each profile; on slow, lmode < 0 is Repair, 0 none, 1 the clamp with limits times 256, other values raise |
| Scale.FsrcnnxPlanOf | vardefunc/scale.py:199-257 | errors in the source's order (aspect division, profile, shader file, lmode); the shader doubles the clip; the limit is LimitOf's |
| Scale.SlowClampLimits | vardefunc/scale.py:205-242 | slow with lmode 1 clamps with 256 times the defaulted limits, equal by default |
| Scale.LmodeIgnoredOutsideSlow | vardefunc/scale.py:220-249 | `lmode` only matters on the slow profile |
| Scale.OldSample | vardefunc/scale.py:225 | `x y min` is the smaller of the two |
| Scale.SlowBlendSample | vardefunc/scale.py:228 | strength 0 gives the smooth clip, 100 the FSRCNNX one, in between their range |
| Scale.ClampExpr | vardefunc/scale.py:241 | one of `x`, `y + o` and `z - u`, never below `z - u`, and `z - u` where `x` is below it |
| Scale.ClampExprBounds | vardefunc/scale.py:239-242 | the RPN is `max(min(x, y+o), z-u)`: never below `z-u`, not above `y+o` unless the limits cross, unchanged in between |
| Scale.ClampExprCrossed | vardefunc/scale.py:239-242 | crossed limits give `z-u` everywhere |
| Scale.Median3 | vardefunc/scale.py:248 | the median is one of the three |
| Scale.ZastinSample | vardefunc/scale.py:248 | one of the three inputs, between `fsrcnnx` and `sharp`, and `smooth` when it already lies there |
| Scale.ZastinIsMedian | vardefunc/scale.py:248 | `x y z min max y z max min` is the median, symmetric in `y` and `z` |
| Scale.LimitSample | vardefunc/scale.py:220-249 | the sample of each limit: the shader output, `x y min`, the median of three, the blend, or the clamp of the blend; none for Repair |
| Scale.BlankSize | vardefunc/scale.py:290-295 | /4 when both targets are divisible by 4, else /2 when both are even, else full size |
| Scale.BlankSizeAsWritten | vardefunc/scale.py:290-295 | the full-size branch takes the format constant as its width |
| Scale.BlankSizeAsWrittenMismatch | vardefunc/scale.py:294 | an odd target makes the blank 269484032 wide, not the clip's width |
| Scale.PlaceboPlanOf | vardefunc/scale.py:283-301 | variable format raises; `box` iff `luma_only`; Point-to-444 iff one plane and upscaling; otherwise blanks of the corrected BlankSize |
| Scale.PlaceboPlanAsWritten | vardefunc/scale.py:283-301 | the same plan as PlaceboPlanOf except the blank of the full-size branch, which is BlankSizeAsWritten's; equal for even targets |
| Scale.FsrcnnxShaderUpscales | vardefunc/scale.py:283-287 | the doubled luma clip takes the Point-to-444 path |
| VdfTypes.FormatNotNone | vardefunc/types.py:71-74 | raises FormatError iff format is None, else returns the same clip |
| VdfTypes.NewDuplicateFrame | vardefunc/types.py:43-46 | keeps `x`; `dup` defaults to 1 |
| VdfTypes.Add | vardefunc/types.py:54-55 | keeps the frame; `dup` grows by `n` |
| VdfTypes.Sub | vardefunc/types.py:57-58 | keeps the frame; `dup` shrinks by `n` |
| VdfTypes.Mul | vardefunc/types.py:60-61 | keeps the frame; `dup` is multiplied by `n` |
| VdfTypes.FloorDiv | vardefunc/types.py:63-64 | raises iff `n == 0`; otherwise keeps the frame with `dup // n` (floor bounds for both signs) |
| VdfTypes.SubUndoesAdd | vardefunc/types.py:54-58 | `(df + n) - n == df` and `(df - n) + n == df` |
| VdfTypes.FloorDivUndoesMul | vardefunc/types.py:60-64 | `(df * n) // n == df` for `n != 0` |
| VdfTypes.FloorDivOfMultiple | vardefunc/types.py:63-64 | `(a*b) // b == a` |
| VdfTypes.FloorDivNegativeDivisor | vardefunc/types.py:63-64 | `7 // -2` is -4 (Dafny's `/` gives -3) |
| VdfTypes.NatToString | vardefunc/types.py:49 | a non-empty string of digits |
| VdfTypes.IntToString | vardefunc/types.py:49 | a non-empty string without spaces |
| VdfTypes.ParseNatToString | vardefunc/types.py:49 | decimal digits read back to the number |
| VdfTypes.ParseIntToString | vardefunc/types.py:49 | `int(repr(i)) == i` |
| VdfTypes.Repr | vardefunc/types.py:48-49 | starts with `<DuplicateFrame ` |
| VdfTypes.StrAsWritten | vardefunc/types.py:51-52 | starts with the repr |
| VdfTypes.Str | vardefunc/types.py:51-52 | `<frame> * <dup>` reads back to the same DuplicateFrame |
| VdfTypes.StrOfParts | vardefunc/types.py:51-52 | frame and count read back from `<frame> * <dup>` |
| VdfTypes.FirstSpace | vardefunc/types.py:52 | the first space, with none before it |
| VdfTypes.FirstSpaceAfter | vardefunc/types.py:52 | the first space of `a + " ..."` is at `|a|` when `a` has none |
| VdfTypes.StrAsWrittenIsNotStr | vardefunc/types.py:51-52 | the string as written differs from `<frame> * <dup>` and does not read back |
| Antialias.Truthy | vardefunc/aa.py:229-232 | `not v`: `None` and 0 are falsy, every other integer is truthy |
| Antialias.SupersampleSize | vardefunc/aa.py:224-227 | even, and `round(v*rfactor)` or one more |
| Antialias.SupersampleSizeParity | vardefunc/aa.py:224-227 | an even rounded size is kept, an odd one goes up by one |
| Antialias.SupersampleSizeUnitFactor | vardefunc/aa.py:224-227 | factor 1 rounds an odd size up to even |
| Antialias.SraaPlanOf | vardefunc/aa.py:221-231 | variable format raises ValueError first; even super-sampled sizes; a falsy height is the clip's; a falsy width is `get_w(height)` |
| Antialias.OutputSize | vardefunc/aa.py:238 | the requested size with a down-scaler, the super-sampled one without |
| Antialias.DefaultFactorSizes | vardefunc/aa.py:224-227 | factor 1.5: 1080 to 1620, 720 to 1080, 1 to 2 |

## Left out

- Every VapourSynth plugin call is left out; only what is handed to them is modelled. This covers grainers, `resize.*`, placebo, nnedi3, `Repair`, `Minimum`/`Maximum`, `BoxBlur`, `Bilateral`, `adg.Mask`, `PlaneStats`, `Interleave`, `text.Text` and `join`.
  - Grainers and the bicubic resampler are function parameters.
  - `get_w` is a parameter.
  - `get_depth`, `depth`, `get_y` and `pick_px_op` are assumed to do what their names say: take the luma, convert the depth, and choose the lambda for integer formats or the expression for float ones.
- Which plugin runs at each step is not modelled, so the model does not see plugin-side errors. The exceptions are the size checks the model does state: `Expr`/`MakeDiff` on mismatched sizes and `BlankClip` with a non-positive size, both as `ClipError`. Their message texts are illustrative.
- Chroma is not modelled: the chroma planes, the chroma mask resizing (`vardefunc/noise.py:162-167`), and the non-luma planes of `decsiz` and `placebo_shader`. A clip is its luma plane.
- The clamping that the expression evaluator applies to integer output formats is not modelled. Samples are unbounded reals.
- `NoiseComposite.BlendSample`: for integer formats `std.Expr` also rounds its output to an integer code. The model keeps the exact real blend, so for 8-bit inputs `BlendSample(100, 101, 128, 255)` is 25627/255 where the program stores a whole code value.
- `Frames.MakeDiff`, `Frames.MergeDiff`: these plugins are modelled as `a - b + n` and `a + d - n`, with `n` the luma neutral of `vardefunc/noise.py:151`. For float clips that takes `n = 0.5`, which is an assumption about the plugins' float convention. `NoiseGrain.MakeGrained` and the fold (`NoiseComposite.Folded`) rely on it; the fold itself does not depend on `n` (`NoiseComposite.FoldedIgnoresOffset`).
- `NoiseMask.MaskSample`: for integer formats `pick_px_op` plausibly builds a lookup table over every code value when the filter is created. The ZeroDivisionError of a zero-width zone would then be raised for any integer `thr` in range, not only when a frame sample equals `thr`. The model places the error per sample.
- `NoiseExtras.DecsizSetupOf`, `Scale.PlaceboPlanOf`: these use the corrected halves of two findings below (`NoiseExtras.DecsizPeak`, `Scale.BlankSize`). The behaviour as written is `NoiseExtras.DecsizSetupAsWritten` and `Scale.PlaceboPlanAsWritten`.
- `NoiseMask.MaskValue`: where a band has zero width, the float path's expression divides 0 by 0. In VapourSynth that yields NaN, not an exception. Reals have no NaN, so the model reports the same ZeroDivisionError as the integer `_func`.
- `NoiseExtras.DenoiseMaskSample`: the same applies to the float path with `min_in == max_in`.
- `NoiseExtras.DenoiseMaskSampleArgs`: a missing bound is reported as TypeError in both paths. The float path in fact fails in the evaluator, which cannot parse the text `None`.
- `decsiz` is modelled only with the default `gamma = 1`, where `pow` drops out. The protect mask and the final `y x -` combine external masks (`vardefunc/noise.py:312-320, 334-338`) and are left out, as are the prefilter and the Bilateral itself.
- `show_masks` returns the masks in the model; their text overlay (`text.Text`) and interleaving are plugin calls.
- `NoiseGraigasm.Graigasm.Graining`: the float format's chroma neutral (0) is not used. The model composites luma only, with the luma neutral.
- `Scale.FsrcnnxPlanOf`: the final `depth(scaled, bits)` and the smooth upscale choice (`upscaled_smooth` or `nnedi3_upscale`) are plugin calls and are not modelled.
- `Scale.LimitSample` has no value for the `Repair` limit, because `rgvs.Repair` is a plugin.
- `adaptative_regrain`: `adapt_grained` is a MaskedMerge with an `adg.Mask`. Both are plugins, so the model takes `adapt` and `new` as given samples.
- `setup.py` is packaging that reads files, and is not part of this model.
- `Antialias.SupersampleSize`, `NoiseGrain.GrainDims`: Python floats are modelled as exact reals, so a `round` near a .5 tie can go the other way. In `upscaled_sraa`, `55 * 1.1` is 60.50000000000001 as a float, which rounds to 61 and gives `ssw = 62`; the exact 60.5 rounds to the even 60 and the model gives 60. In `_make_grained`, `33 / 4.4` is 7.499999999999999 as a float, which rounds to 7; the exact 7.5 rounds to 8, so with `mod = 2` the grain width is 6 in the program and 8 in the model.
- There is no concurrency in the core.

## Findings

| source | as written | input that shows it | evidently intended | confidence | as-written member | corrected member |
|---|---|---|---|---|---|---|
| vardefunc/types.py:51-52 | `super().__str__()` in an `int` subclass resolves to `object.__str__`, which calls the overridden `__repr__` | `str(DuplicateFrame(5, dup=2))` gives `<DuplicateFrame object: 'x:5, dup:2'> * 2` | `5 * 2`, the documented `<x> * <dup>` | not executed; medium | VdfTypes.StrAsWritten, VdfTypes.StrAsWrittenIsNotStr | VdfTypes.Str |
| vardefunc/scale.py:294 | `BlankClip(clip, vs.GRAY16)` passes the format constant as the positional `width` | a one-plane clip downscaled to an odd width: the blank is 269484032 samples wide (the API 4 value of `GRAY16`) | `BlankClip(clip, format=vs.GRAY16)`, a blank of the clip's size | not executed; high | Scale.BlankSizeAsWritten, Scale.BlankSizeAsWrittenMismatch, Scale.PlaceboPlanAsWritten | Scale.BlankSize, Scale.PlaceboPlanOf |
| vardefunc/noise.py:304 | `peak = (1 << bits) - 1` also for float clips | a 32-bit float clip: the mask reaches 4294967295 instead of 1.0 | `1.0` for float clips, as `graining` does on line 149 | not executed; medium | NoiseExtras.DecsizPeakAsWritten, NoiseExtras.DecsizFloatPeakAsWritten, NoiseExtras.DecsizSetupAsWritten | NoiseExtras.DecsizPeak, NoiseExtras.DecsizSetupOf |
