/** The decision logic and per-pixel expressions of vardefunc/scale.py:
    `fsrcnnx_upscale` (lines 135-257) and `placebo_shader` (lines 260-301).
    The shader, the resizers, `Minimum`/`Maximum`, `Repair` and the
    sharpener are plugins; the model states which of them is called with
    which sizes and what the expressions combine. */
module Scale {
  import opened Wrappers
  import opened Frames
  import opened PyNum
  import VdfTypes

  // -------------------------------------------------------------- profiles

  /** Line 210. */
  const Profiles: seq<string> := ["fast", "old", "slow", "zastin"]

  /** The messages of the three ValueErrors (lines 212, 216 and 244). */
  const ProfileMessage := "fsrcnnx_upscale: \"profile\" must be \"fast\", \"old\", \"slow\" or \"zastin\""
  const ShaderFileMessage := "fsrcnnx_upscale: You must set a string path for \"shader_file\""
  const LmodeMessage := "fsrcnnx_upscale: \"lmode\" must be < 0, 0 or 1"

  /** `str.lower()` on ASCII letters. */
  function LowerAscii(s: string): (r: string)
    ensures |r| == |s|
    ensures forall i :: 0 <= i < |s| ==> ('A' <= s[i] <= 'Z' <==> r[i] != s[i])
  {
    seq(|s|, i requires 0 <= i < |s| => if 'A' <= s[i] <= 'Z' then (s[i] as int + 32) as char else s[i])
  }

  /** `profiles.index(x)`; x must be in the list. */
  function IndexOf(xs: seq<string>, x: string): (k: nat)
    requires x in xs
    ensures k < |xs| && xs[k] == x && x !in xs[..k]
  {
    if xs[0] == x then 0
    else
      var k := 1 + IndexOf(xs[1..], x);
      assert xs[..k] == [xs[0]] + xs[1..][..k - 1];
      k
  }

  /** Lines 210-213: the membership check is case-sensitive and comes first,
      so `lower()` only ever sees a lower-case name. */
  function ProfileNumber(profile: string): (r: Result<nat>)
    ensures r.Err? <==> profile !in Profiles
    ensures r.Err? ==> r.error == ValueError(ProfileMessage)
    ensures r.Ok? ==> r.value < 4 && Profiles[r.value] == profile
  {
    if profile !in Profiles then
      Err(ValueError(ProfileMessage))
    else
      assert LowerAscii(profile) == profile by { ProfileIsLowerCase(profile); }
      Ok(IndexOf(Profiles, LowerAscii(profile)))
  }

  lemma ProfileIsLowerCase(profile: string)
    requires profile in Profiles
    ensures LowerAscii(profile) == profile
  {
    var r := LowerAscii(profile);
    forall i | 0 <= i < |profile| ensures r[i] == profile[i] {
      assert !('A' <= profile[i] <= 'Z');
    }
  }

  /** A capitalised profile name is refused although `lower()` would have
      accepted it. */
  lemma ProfileCaseSensitive()
    ensures ProfileNumber("Slow").Err?
    ensures LowerAscii("Slow") == "slow" && ProfileNumber("slow") == Ok(2)
  {
    assert "Slow" != "fast" && "Slow" != "old" && "Slow" != "slow" && "Slow" != "zastin";
    assert LowerAscii("Slow")[0] == 's';
  }

  // -------------------------------------------------------------- the plan

  /** What the `slow` profile does to the blend (lines 229-244). */
  datatype SlowLimit =
    | RepairLimit(mode: nat)                       // lmode < 0: rgvs.Repair(upscaled, smooth, abs(lmode))
    | NoLimit                                      // lmode == 0
    | ClampLimit(overshoot: real, undershoot: real) // lmode == 1, both scaled to 16 bits

  /** Which clip the profile limits the FSRCNNX output with. */
  datatype Limit =
    | Plain                                    // fast: the shader output itself
    | SmoothMin                                // old: x y min
    | SlowBlend(weight: real, limit: SlowLimit) // slow: weight = strength / 100
    | ZastinMedian                             // zastin

  /** The sizes and the choices of one call. The shader doubles the clip;
      the down-scaler, when there is one, brings it to `width` x `height`. */
  datatype FsrcnnxPlan = FsrcnnxPlan(shaderWidth: int, shaderHeight: int, limit: Limit,
                                     width: int, height: int, downscale: bool)

  /** Lines 205-208: the defaults of the limits. */
  function LimitDefaults(strength: real, overshoot: Option<real>, undershoot: Option<real>): (r: (real, real))
    ensures overshoot.Some? ==> r.0 == overshoot.value
    ensures overshoot.None? ==> r.0 * 100.0 == strength
    ensures undershoot.Some? ==> r.1 == undershoot.value
    ensures undershoot.None? ==> r.1 == r.0
  {
    var o := overshoot.GetOr(strength / 100.0);
    (o, undershoot.GetOr(o))
  }

  /** Lines 220-249: the limit of each profile; only `slow` reads `lmode`. */
  function LimitOf(num: nat, strength: real, lmode: int, overshoot: real, undershoot: real): (r: Result<Limit>)
    requires num < 4
    ensures num == 0 ==> r == Ok(Plain)
    ensures num == 1 ==> r == Ok(SmoothMin)
    ensures num == 3 ==> r == Ok(ZastinMedian)
    ensures num == 2 ==> (r.Err? <==> lmode > 1)
    ensures r.Err? ==> r.error == ValueError(LmodeMessage)
    ensures num == 2 && r.Ok? ==> r.value.SlowBlend? && r.value.weight * 100.0 == strength
    ensures num == 2 && lmode < 0 ==> r.Ok? && r.value.limit == RepairLimit(-lmode)
    ensures num == 2 && lmode == 0 ==> r.Ok? && r.value.limit == NoLimit
    ensures num == 2 && lmode == 1 ==>
      r.Ok? && r.value.limit == ClampLimit(256.0 * overshoot, 256.0 * undershoot)
  {
    if num == 0 then Ok(Plain)
    else if num == 1 then Ok(SmoothMin)
    else if num == 2 then
      if lmode < 0 then Ok(SlowBlend(strength / 100.0, RepairLimit(-lmode)))
      else if lmode == 0 then Ok(SlowBlend(strength / 100.0, NoLimit))
      else if lmode == 1 then Ok(SlowBlend(strength / 100.0, ClampLimit(overshoot * 256.0, undershoot * 256.0)))
      else Err(ValueError(LmodeMessage))
    else Ok(ZastinMedian)
  }

  /** The profile numbers of the four names. */
  lemma ProfileNumbers()
    ensures ProfileNumber("fast") == Ok(0) && ProfileNumber("old") == Ok(1)
    ensures ProfileNumber("slow") == Ok(2) && ProfileNumber("zastin") == Ok(3)
  {
    ProfileNumberIsIndex(0);
    ProfileNumberIsIndex(1);
    ProfileNumberIsIndex(2);
    ProfileNumberIsIndex(3);
  }

  /** The four names are distinct, so each one's number is its position. */
  lemma ProfileNumberIsIndex(k: nat)
    requires k < 4
    ensures ProfileNumber(Profiles[k]) == Ok(k)
  {
    assert Profiles[k] in Profiles;
    assert "fast" != "old" && "fast" != "slow" && "fast" != "zastin";
    assert "old" != "slow" && "old" != "zastin" && "slow" != "zastin";
  }

  /** `fsrcnnx_upscale` up to the plugin calls, on a luma clip of
      `clipWidth` x `clipHeight`; `getW` is `get_w(height, aspect)`. The
      checks come in the source's order: the aspect ratio (when no width is
      given), the profile, the shader file, then `lmode`. */
  function FsrcnnxPlanOf(clipWidth: nat, clipHeight: nat, width: Option<int>, height: int,
                         shaderFile: Option<string>, hasDownscaler: bool,
                         strength: real, profile: string, lmode: int,
                         overshoot: Option<real>, undershoot: Option<real>,
                         getW: (int, real) -> int): (r: Result<FsrcnnxPlan>)
    ensures width.None? && clipHeight == 0 ==> r == Err(ZeroDivisionError)
    ensures (width.Some? || clipHeight > 0) && ProfileNumber(profile).Err? ==> r == Err(ProfileNumber(profile).error)
    ensures (width.Some? || clipHeight > 0) && ProfileNumber(profile).Ok? && (shaderFile.None? || shaderFile.value == "") ==>
      r == Err(ValueError(ShaderFileMessage))
    ensures (width.Some? || clipHeight > 0) && ProfileNumber(profile).Ok? && shaderFile.Some? && shaderFile.value != "" ==>
      var limit := LimitOf(ProfileNumber(profile).value, strength, lmode,
                           LimitDefaults(strength, overshoot, undershoot).0, LimitDefaults(strength, overshoot, undershoot).1);
      (limit.Err? ==> r == Err(limit.error)) && (limit.Ok? ==> r.Ok? && r.value.limit == limit.value)
    ensures r.Ok? ==> ProfileNumber(profile).Ok? && shaderFile.Some? && shaderFile.value != ""
    ensures r.Ok? ==> r.value.shaderWidth == 2 * clipWidth && r.value.shaderHeight == 2 * clipHeight
    ensures r.Ok? ==> r.value.height == height && r.value.downscale == hasDownscaler
    ensures r.Ok? && width.Some? ==> r.value.width == width.value
  {
    if width.None? && clipHeight == 0 then Err(ZeroDivisionError)
    else
      var w := if width.Some? then width.value else getW(height, clipWidth as real / clipHeight as real);
      var limits := LimitDefaults(strength, overshoot, undershoot);
      var num :- ProfileNumber(profile);
      if shaderFile.None? || shaderFile.value == "" then
        Err(ValueError(ShaderFileMessage))
      else
        var limit :- LimitOf(num, strength, lmode, limits.0, limits.1);
        Ok(FsrcnnxPlan(2 * clipWidth, 2 * clipHeight, limit, w, height, hasDownscaler))
  }

  /** On the `slow` profile with `lmode = 1` the limits are the defaults (or
      the given values) scaled by 2^8 to 16-bit units. */
  lemma SlowClampLimits(clipWidth: nat, clipHeight: nat, width: Option<int>, height: int,
                        shaderFile: Option<string>, hasDownscaler: bool,
                        strength: real, overshoot: Option<real>, undershoot: Option<real>,
                        getW: (int, real) -> int)
    requires width.Some? || clipHeight > 0
    requires shaderFile.Some? && shaderFile.value != ""
    ensures var r := FsrcnnxPlanOf(clipWidth, clipHeight, width, height, shaderFile, hasDownscaler,
                                   strength, "slow", 1, overshoot, undershoot, getW);
      r.Ok? && r.value.limit.SlowBlend? && r.value.limit.limit.ClampLimit?
      && r.value.limit.limit.overshoot == 256.0 * LimitDefaults(strength, overshoot, undershoot).0
      && r.value.limit.limit.undershoot == 256.0 * LimitDefaults(strength, overshoot, undershoot).1
      && (overshoot.None? && undershoot.None? ==>
            r.value.limit.limit.overshoot == r.value.limit.limit.undershoot
            && 100.0 * r.value.limit.limit.overshoot == 256.0 * strength)
  {
    ProfileNumbers();
  }

  /** `lmode` is only read on the `slow` profile: any value passes elsewhere. */
  lemma LmodeIgnoredOutsideSlow(clipWidth: nat, clipHeight: nat, width: Option<int>, height: int,
                                shaderFile: Option<string>, hasDownscaler: bool,
                                strength: real, profile: string, lmode: int, lmode': int,
                                overshoot: Option<real>, undershoot: Option<real>,
                                getW: (int, real) -> int)
    requires profile != "slow"
    ensures FsrcnnxPlanOf(clipWidth, clipHeight, width, height, shaderFile, hasDownscaler,
                          strength, profile, lmode, overshoot, undershoot, getW)
         == FsrcnnxPlanOf(clipWidth, clipHeight, width, height, shaderFile, hasDownscaler,
                          strength, profile, lmode', overshoot, undershoot, getW)
  {
    if profile in Profiles {
      ProfileNumbers();
    }
  }

  // ----------------------------------------------------- the expressions

  /** `old`: `x y min`. */
  function OldSample(fsrcnnx: real, smooth: real): (r: real)
    ensures r <= fsrcnnx && r <= smooth && (r == fsrcnnx || r == smooth)
  {
    Min(fsrcnnx, smooth)
  }

  /** `slow`: `x w * y 1 w - * +` with `w = strength / 100`. */
  function SlowBlendSample(fsrcnnx: real, smooth: real, weight: real): (r: real)
    ensures weight == 0.0 ==> r == smooth
    ensures weight == 1.0 ==> r == fsrcnnx
    ensures 0.0 <= weight <= 1.0 ==> Min(fsrcnnx, smooth) <= r <= Max(fsrcnnx, smooth)
  {
    assert 0.0 <= weight <= 1.0 ==> Min(fsrcnnx, smooth) <= fsrcnnx * weight + smooth * (1.0 - weight) <= Max(fsrcnnx, smooth) by {
      if 0.0 <= weight <= 1.0 {
        if smooth <= fsrcnnx {
          MulNonNegative(fsrcnnx - smooth, weight);
          MulNonNegative(fsrcnnx - smooth, 1.0 - weight);
        } else {
          MulNonNegative(smooth - fsrcnnx, weight);
          MulNonNegative(smooth - fsrcnnx, 1.0 - weight);
        }
      }
    }
    fsrcnnx * weight + smooth * (1.0 - weight)
  }

  /** Line 241, operator by operator:
      `x y o + > y o + x ? z u - < z u - x y o + > y o + x ? ?`. */
  function ClampExpr(x: real, y: real, z: real, o: real, u: real): (r: real)
    ensures r == x || r == y + o || r == z - u
    ensures r >= z - u
    ensures x < z - u ==> r == z - u
  {
    var capped := if x > y + o then y + o else x;
    if capped < z - u then z - u else capped
  }

  /** The expression is `max(min(x, bright + o), dark - u)`: never below the
      dark limit, never above the bright limit when the two limits do not
      cross, and untouched in between. */
  lemma ClampExprBounds(x: real, bright: real, dark: real, o: real, u: real)
    ensures ClampExpr(x, bright, dark, o, u) == Max(Min(x, bright + o), dark - u)
    ensures ClampExpr(x, bright, dark, o, u) >= dark - u
    ensures dark - u <= bright + o ==> ClampExpr(x, bright, dark, o, u) <= bright + o
    ensures dark - u <= x <= bright + o ==> ClampExpr(x, bright, dark, o, u) == x
  {
  }

  /** With crossed limits the dark limit wins everywhere. */
  lemma ClampExprCrossed(x: real, bright: real, dark: real, o: real, u: real)
    requires bright + o < dark - u
    ensures ClampExpr(x, bright, dark, o, u) == dark - u
  {
  }

  /** `zastin`: `x y z min max y z max min` with x = smooth, y = fsrcnnx,
      z = the sharpened smooth clip. */
  function ZastinSample(smooth: real, fsrcnnx: real, sharp: real): (r: real)
    ensures r == smooth || r == fsrcnnx || r == sharp
    ensures Min(fsrcnnx, sharp) <= r <= Max(fsrcnnx, sharp)
    ensures Min(fsrcnnx, sharp) <= smooth <= Max(fsrcnnx, sharp) ==> r == smooth
  {
    Min(Max(smooth, Min(fsrcnnx, sharp)), Max(fsrcnnx, sharp))
  }

  /** The middle value of three, by cases. */
  function Median3(a: real, b: real, c: real): (m: real)
    ensures m == a || m == b || m == c
  {
    if (a <= b && b <= c) || (c <= b && b <= a) then b
    else if (b <= a && a <= c) || (c <= a && a <= b) then a
    else c
  }

  lemma ZastinIsMedian(smooth: real, fsrcnnx: real, sharp: real)
    ensures ZastinSample(smooth, fsrcnnx, sharp) == Median3(smooth, fsrcnnx, sharp)
    ensures ZastinSample(smooth, fsrcnnx, sharp) == ZastinSample(smooth, sharp, fsrcnnx)
  {
  }

  /** One output sample of the limit step, where it is an expression; the
      `Repair` limit is a plugin and has none. */
  function LimitSample(limit: Limit, fsrcnnx: real, smooth: real, bright: real, dark: real, sharp: real)
    : (r: Option<real>)
    ensures r.None? <==> limit.SlowBlend? && limit.limit.RepairLimit?
    ensures limit.Plain? ==> r == Some(fsrcnnx)
    ensures limit.SlowBlend? && limit.limit.NoLimit? ==> r == Some(SlowBlendSample(fsrcnnx, smooth, limit.weight))
    ensures limit.SmoothMin? ==> r == Some(OldSample(fsrcnnx, smooth))
    ensures limit.ZastinMedian? ==> r == Some(ZastinSample(smooth, fsrcnnx, sharp))
    ensures limit.ZastinMedian? ==> r == Some(Median3(smooth, fsrcnnx, sharp))
    ensures limit.SlowBlend? && limit.limit.ClampLimit? ==>
      r == Some(ClampExpr(SlowBlendSample(fsrcnnx, smooth, limit.weight), bright, dark,
                          limit.limit.overshoot, limit.limit.undershoot))
    ensures limit.SlowBlend? && limit.limit.ClampLimit? ==>
      r.Some? && r.value >= dark - limit.limit.undershoot
  {
    match limit
    case Plain => Some(fsrcnnx)
    case SmoothMin => Some(OldSample(fsrcnnx, smooth))
    case ZastinMedian =>
      ZastinIsMedian(smooth, fsrcnnx, sharp);
      Some(ZastinSample(smooth, fsrcnnx, sharp))
    case SlowBlend(w, l) =>
      var upscaled := SlowBlendSample(fsrcnnx, smooth, w);
      match l
      case RepairLimit(_) => None
      case NoLimit => Some(upscaled)
      case ClampLimit(o, u) => Some(ClampExpr(upscaled, bright, dark, o, u))
  }

  // -------------------------------------------------------- placebo_shader

  /** How the clip is prepared for the shader. */
  datatype Prep =
    | AsIs                               // luma_only off, or a clip with chroma
    | PointTo444                         // resize.Point(format=YUV444P16)
    | JoinBlanks(blankWidth: int, blankHeight: int) // join([clip, blank, blank])

  datatype PlaceboPlan = PlaceboPlan(prep: Prep, filter: string, lumaOut: bool)

  /** The width and height of the blank chroma planes (lines 290-295), with
      the full-size branch passing the format as the format. */
  function BlankSize(clipWidth: nat, clipHeight: nat, width: int, height: int): (wh: (nat, nat))
    ensures width % 4 == 0 && height % 4 == 0 ==> wh == (clipWidth / 4, clipHeight / 4)
    ensures !(width % 4 == 0 && height % 4 == 0) && width % 2 == 0 && height % 2 == 0 ==>
      wh == (clipWidth / 2, clipHeight / 2)
    ensures !(width % 2 == 0 && height % 2 == 0) ==> wh == (clipWidth, clipHeight)
    ensures wh.0 <= clipWidth && wh.1 <= clipHeight
  {
    if width % 4 == 0 && height % 4 == 0 then
      assert width % 2 == 0 && height % 2 == 0 by { QuarterIsEven(width); QuarterIsEven(height); }
      (clipWidth / 4, clipHeight / 4)
    else if width % 2 == 0 && height % 2 == 0 then (clipWidth / 2, clipHeight / 2)
    else (clipWidth, clipHeight)
  }

  lemma QuarterIsEven(v: int)
    requires v % 4 == 0
    ensures v % 2 == 0
  {
    var k := v / 4;
    assert v == 2 * (2 * k);
  }

  /** Line 294 as written: `BlankClip(clip, vs.GRAY16)` hands the format
      constant to the first positional parameter, the width; the height and
      the format come from the clip. */
  function BlankSizeAsWritten(clipWidth: nat, clipHeight: nat, width: int, height: int, gray16: nat)
    : (wh: (nat, nat))
    ensures !(width % 2 == 0 && height % 2 == 0) ==> wh == (gray16, clipHeight)
    ensures width % 2 == 0 && height % 2 == 0 ==> wh == BlankSize(clipWidth, clipHeight, width, height)
  {
    if width % 4 == 0 && height % 4 == 0 then
      assert width % 2 == 0 && height % 2 == 0 by { QuarterIsEven(width); QuarterIsEven(height); }
      (clipWidth / 4, clipHeight / 4)
    else if width % 2 == 0 && height % 2 == 0 then (clipWidth / 2, clipHeight / 2)
    else (gray16, clipHeight)
  }

  /** `vs.GRAY16` in the VapourSynth API 4 format encoding:
      family 1 (Gray) << 28 | integer << 24 | 16 bits << 16. */
  const Gray16: nat := 0x1010_0000

  /** An odd target size makes the as-written blank 269484032 pixels wide,
      so it cannot be joined with the clip's own plane. */
  lemma BlankSizeAsWrittenMismatch(clipWidth: nat, clipHeight: nat)
    requires clipWidth < Gray16
    ensures BlankSizeAsWritten(clipWidth, clipHeight, 1, 1, Gray16).0 == 269484032
    ensures BlankSizeAsWritten(clipWidth, clipHeight, 1, 1, Gray16) != BlankSize(clipWidth, clipHeight, 1, 1)
    ensures BlankSize(clipWidth, clipHeight, 1, 1) == (clipWidth, clipHeight)
  {
  }

  /** `placebo_shader` up to the plugin calls, with the blank of the intended
      size (BlankSize). The 16-bit conversion `depth` is a plugin and is not
      modelled, so a variable-format clip fails with `format_not_none`'s
      FormatError. */
  function PlaceboPlanOf(clip: Clip, width: int, height: int, lumaOnly: bool): (r: Result<PlaceboPlan>)
    ensures r.Err? <==> clip.format.None?
    ensures r.Ok? ==> (r.value.filter == "box" <==> lumaOnly)
    ensures r.Ok? ==> (r.value.filter == "ewa_lanczos" <==> !lumaOnly)
    ensures r.Ok? ==> r.value.lumaOut == lumaOnly
    ensures r.Ok? ==> (r.value.prep.PointTo444? <==>
      lumaOnly && clip.format.value.numPlanes == 1 && (width > clip.width || height > clip.height))
    ensures r.Ok? && r.value.prep.JoinBlanks? ==>
      (r.value.prep.blankWidth, r.value.prep.blankHeight) == BlankSize(clip.width, clip.height, width, height)
  {
    var c :- VdfTypes.FormatNotNone(clip);
    if lumaOnly then
      if c.format.value.numPlanes == 1 then
        if width > c.width || height > c.height then Ok(PlaceboPlan(PointTo444, "box", true))
        else
          var (bw, bh) := BlankSize(c.width, c.height, width, height);
          Ok(PlaceboPlan(JoinBlanks(bw, bh), "box", true))
      else Ok(PlaceboPlan(AsIs, "box", true))
    else Ok(PlaceboPlan(AsIs, "ewa_lanczos", false))
  }

  /** `placebo_shader` as written: the same plan, except that the blank of
      the full-size branch is BlankSizeAsWritten's, 269484032 wide. */
  function PlaceboPlanAsWritten(clip: Clip, width: int, height: int, lumaOnly: bool): (r: Result<PlaceboPlan>)
    ensures r.Err? <==> PlaceboPlanOf(clip, width, height, lumaOnly).Err?
    ensures r.Ok? ==> r.value.filter == PlaceboPlanOf(clip, width, height, lumaOnly).value.filter
    ensures r.Ok? ==> r.value.lumaOut == PlaceboPlanOf(clip, width, height, lumaOnly).value.lumaOut
    ensures r.Ok? ==> (r.value.prep.JoinBlanks? <==> PlaceboPlanOf(clip, width, height, lumaOnly).value.prep.JoinBlanks?)
    ensures r.Ok? && r.value.prep.JoinBlanks? ==>
      (r.value.prep.blankWidth, r.value.prep.blankHeight) == BlankSizeAsWritten(clip.width, clip.height, width, height, Gray16)
    ensures width % 2 == 0 && height % 2 == 0 ==> r == PlaceboPlanOf(clip, width, height, lumaOnly)
  {
    var c :- VdfTypes.FormatNotNone(clip);
    if lumaOnly then
      if c.format.value.numPlanes == 1 then
        if width > c.width || height > c.height then Ok(PlaceboPlan(PointTo444, "box", true))
        else
          var (bw, bh) := BlankSizeAsWritten(c.width, c.height, width, height, Gray16);
          Ok(PlaceboPlan(JoinBlanks(bw, bh), "box", true))
      else Ok(PlaceboPlan(AsIs, "box", true))
    else Ok(PlaceboPlan(AsIs, "ewa_lanczos", false))
  }

  /** `fsrcnnx_upscale` doubles a luma clip, so whenever the clip is not
      empty the shader takes the Point-to-444 path. */
  lemma FsrcnnxShaderUpscales(clip: Clip)
    requires clip.format.Some? && clip.format.value.numPlanes == 1 && clip.width > 0
    ensures PlaceboPlanOf(clip, 2 * clip.width, 2 * clip.height, true) == Ok(PlaceboPlan(PointTo444, "box", true))
  {
  }
}
