/** Video formats, clips and planes as the modelled code sees them.
    A clip is represented by its format, its geometry and its luma plane;
    a plane is the sequence of its sample values in raster order. */
module Frames {
  import opened Wrappers

  type Plane = seq<real>

  datatype ColorFamily = Gray | RGB | YUV

  datatype SampleType = Integer | Float

  type PlaneCount = n: nat | 1 <= n witness 1

  /** A fixed VapourSynth video format. */
  datatype Format = Format(
    family: ColorFamily,
    sampleType: SampleType,
    bits: nat,
    numPlanes: PlaneCount,
    subsamplingW: nat,
    subsamplingH: nat)

  /** A clip: `format` is `None` for a variable-format clip. */
  datatype Clip = Clip(format: Option<Format>, width: nat, height: nat, luma: Plane)

  /** `1 << n`. */
  function Pow2(n: nat): (r: nat)
    ensures r >= 1
  {
    if n == 0 then 1 else 2 * Pow2(n - 1)
  }

  /** `1 << n` exceeds `n`, and is even once `n > 0`. */
  lemma {:induction false} Pow2Grows(n: nat)
    ensures Pow2(n) > n
    ensures n > 0 ==> Pow2(n) % 2 == 0
  {
    if n > 0 {
      Pow2Grows(n - 1);
      var h := Pow2(n - 1);
      assert Pow2(n) == h + h;
      assert (h + h) % 2 == 0;
    }
  }

  /** The plane of `n` samples that all hold `v` (a blank clip's plane). */
  function Constant(n: nat, v: real): (p: Plane)
    ensures |p| == n && forall i :: 0 <= i < n ==> p[i] == v
  {
    seq(n, _ => v)
  }

  /** `MakeDiff(a, b)` of VapourSynth, sample by sample, around the offset `n`. */
  function MakeDiff(a: Plane, b: Plane, n: real): (d: Plane)
    requires |a| == |b|
    ensures |d| == |a| && forall i :: 0 <= i < |a| ==> d[i] - n == a[i] - b[i]
  {
    seq(|a|, i requires 0 <= i < |a| => a[i] - b[i] + n)
  }

  /** `MergeDiff(a, d)` of VapourSynth, sample by sample, around the offset `n`. */
  function MergeDiff(a: Plane, d: Plane, n: real): (m: Plane)
    requires |a| == |d|
    ensures |m| == |a| && forall i :: 0 <= i < |a| ==> m[i] - a[i] == d[i] - n
  {
    seq(|a|, i requires 0 <= i < |a| => a[i] + d[i] - n)
  }

  /** MergeDiff undoes MakeDiff whatever the offset. */
  lemma MergeDiffOfMakeDiff(a: Plane, b: Plane, n: real)
    requires |a| == |b|
    ensures MergeDiff(b, MakeDiff(a, b, n), n) == a
  {
  }
}
