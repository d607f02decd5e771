/** The size computation of `upscaled_sraa` in vardefunc/aa.py (lines
    214-238); the super-sampler, single-rater and down-scaler are plugins
    and appear only as the sizes handed to them. */
module Antialias {
  import opened Wrappers
  import opened Frames
  import opened PyNum

  /** The message of the ValueError of line 222. */
  const SraaFormatMessage := "upscaled_sraa: 'Variable-format clips not supported'"

  /** Lines 224-227: `(round(v * rfactor) + 1) & ~1`. */
  function SupersampleSize(v: nat, rfactor: real): (s: int)
    ensures s % 2 == 0
    ensures RoundHalfEven(v as real * rfactor) <= s <= RoundHalfEven(v as real * rfactor) + 1
  {
    ClearLowBit(RoundHalfEven(v as real * rfactor) + 1)
  }

  /** An even rounded size is kept, an odd one goes up by one. */
  lemma SupersampleSizeParity(v: nat, rfactor: real)
    ensures RoundHalfEven(v as real * rfactor) % 2 == 0 ==> SupersampleSize(v, rfactor) == RoundHalfEven(v as real * rfactor)
    ensures RoundHalfEven(v as real * rfactor) % 2 == 1 ==> SupersampleSize(v, rfactor) == RoundHalfEven(v as real * rfactor) + 1
  {
  }

  /** The factor 1 (no super-sampling) still rounds an odd size up. */
  lemma SupersampleSizeUnitFactor(v: nat)
    ensures SupersampleSize(v, 1.0) == v + v % 2
  {
    RoundHalfEvenOfInt(v);
  }

  /** The sizes of one call: the super-sampled size, and the final size
      (which the down-scaler produces when there is one). */
  datatype SraaPlan = SraaPlan(ssw: int, ssh: int, width: int, height: int, downscale: bool)

  /** Python's truthiness of an optional integer. */
  predicate Truthy(v: Option<int>): (r: bool)
    ensures v.None? ==> !r
    ensures v == Some(0) ==> !r
    ensures v.Some? && v.value != 0 ==> r
  {
    v.Some? && v.value != 0
  }

  /** `upscaled_sraa` up to the plugin calls; `getW` is `get_w`, which
      derives a 16:9 width from a height. */
  function SraaPlanOf(clip: Clip, rfactor: real, width: Option<int>, height: Option<int>,
                      getW: int -> int, hasDownscaler: bool): (r: Result<SraaPlan>)
    ensures clip.format.None? <==> r.Err?
    ensures r.Err? ==> r.error == ValueError(SraaFormatMessage)
    ensures r.Ok? ==> r.value.ssw == SupersampleSize(clip.width, rfactor)
    ensures r.Ok? ==> r.value.ssh == SupersampleSize(clip.height, rfactor)
    ensures r.Ok? ==> r.value.ssw % 2 == 0 && r.value.ssh % 2 == 0
    ensures r.Ok? ==> r.value.height == (if Truthy(height) then height.value else clip.height)
    ensures r.Ok? ==> r.value.width == (if Truthy(width) then width.value else getW(r.value.height))
    ensures r.Ok? ==> r.value.downscale == hasDownscaler
  {
    if clip.format.None? then Err(ValueError(SraaFormatMessage))
    else
      var ssw := SupersampleSize(clip.width, rfactor);
      var ssh := SupersampleSize(clip.height, rfactor);
      var h := if Truthy(height) then height.value else clip.height;
      var w := if Truthy(width) then width.value else getW(h);
      Ok(SraaPlan(ssw, ssh, w, h, hasDownscaler))
  }

  /** Without a down-scaler the output keeps the super-sampled size, so the
      requested size only matters when one is given. */
  function OutputSize(plan: SraaPlan): (wh: (int, int))
    ensures !plan.downscale ==> wh == (plan.ssw, plan.ssh)
    ensures plan.downscale ==> wh == (plan.width, plan.height)
  {
    if plan.downscale then (plan.width, plan.height) else (plan.ssw, plan.ssh)
  }

  /** The default factor 1.5 on a 1080-line clip super-samples to 1620
      lines, and on 720 lines to 1080. */
  lemma DefaultFactorSizes()
    ensures SupersampleSize(1080, 1.5) == 1620
    ensures SupersampleSize(720, 1.5) == 1080
    ensures SupersampleSize(1, 1.5) == 2
  {
    RoundHalfEvenOfInt(1620);
    RoundHalfEvenOfInt(1080);
    assert RoundHalfEven(1.5) == 2;
  }
}
