/** Layer compositing of `Graigasm.graining` (vardefunc/noise.py:179-185):
    the per-sample blend of each grain layer with the clip under its mask, and
    the sequential fold of the blended layers through MakeDiff and MergeDiff. */
module NoiseComposite {
  import opened Wrappers
  import opened Frames
  import opened PyNum
  import opened NoiseMask

  /** What the expression evaluator reports for inputs of different sizes. */
  const ExprSizeMessage := "Expr: all inputs must have the same dimensions"

  /** Line 179, one sample: `x z peak / * y 1 z peak / - * +` with `x` the
      grain layer, `y` the clip and `z` the mask. */
  function BlendSample(grained: real, clip: real, mask: real, peak: real): (r: real)
    requires peak > 0.0
    ensures mask == 0.0 ==> r == clip
    ensures mask == peak ==> r == grained
    ensures 0.0 <= mask <= peak ==> Min(grained, clip) <= r <= Max(grained, clip)
  {
    var w := mask / peak;
    assert 0.0 <= mask <= peak ==> Min(grained, clip) <= grained * w + clip * (1.0 - w) <= Max(grained, clip) by {
      if 0.0 <= mask <= peak {
        UnitRatio(mask, peak);
        ConvexCombination(grained, clip, w);
      }
    }
    grained * w + clip * (1.0 - w)
  }

  lemma ConvexCombination(a: real, b: real, w: real)
    requires 0.0 <= w <= 1.0
    ensures Min(a, b) <= a * w + b * (1.0 - w) <= Max(a, b)
  {
    var lo, hi := Min(a, b), Max(a, b);
    MulNonNegative(a - lo, w);
    MulNonNegative(b - lo, 1.0 - w);
    MulNonNegative(hi - a, w);
    MulNonNegative(hi - b, 1.0 - w);
    assert a * w + b * (1.0 - w) - lo == (a - lo) * w + (b - lo) * (1.0 - w);
    assert hi - (a * w + b * (1.0 - w)) == (hi - a) * w + (hi - b) * (1.0 - w);
  }

  /** Line 179 over planes. The expression evaluator refuses inputs of
      different sizes. */
  function BlendPlane(grained: Plane, clip: Plane, mask: Plane, peak: real): (r: Result<Plane>)
    requires peak > 0.0
    ensures r.Ok? <==> |grained| == |clip| == |mask|
    ensures r.Ok? ==> |r.value| == |clip|
    ensures r.Ok? ==> forall i :: 0 <= i < |clip| ==> r.value[i] == BlendSample(grained[i], clip[i], mask[i], peak)
  {
    if |grained| == |clip| == |mask| then
      Ok(seq(|clip|, i requires 0 <= i < |clip| => BlendSample(grained[i], clip[i], mask[i], peak)))
    else Err(ClipError(ExprSizeMessage))
  }

  /** Lines 179-180: one blended layer per pair of `zip(graineds, masks)`. */
  function BlendLayers(graineds: seq<Plane>, clip: Plane, masks: seq<Plane>, peak: real): (r: Result<seq<Plane>>)
    requires peak > 0.0
    ensures r.Ok? ==> |r.value| == (if |graineds| <= |masks| then |graineds| else |masks|)
    ensures r.Ok? ==> SameSize(r.value, |clip|)
    ensures r.Ok? ==> forall k :: 0 <= k < |r.value| ==> BlendPlane(graineds[k], clip, masks[k], peak) == Ok(r.value[k])
    ensures r.Err? <==> (exists k :: 0 <= k < |graineds| && k < |masks| && BlendPlane(graineds[k], clip, masks[k], peak).Err?)
  {
    if |graineds| == 0 || |masks| == 0 then Ok([])
    else
      var first :- BlendPlane(graineds[0], clip, masks[0], peak);
      var rest := BlendLayers(graineds[1..], clip, masks[1..], peak);
      if rest.Err? then
        var k' :| 0 <= k' < |graineds| - 1 && k' < |masks| - 1 && BlendPlane(graineds[1..][k'], clip, masks[1..][k'], peak).Err?;
        assert BlendPlane(graineds[k' + 1], clip, masks[k' + 1], peak).Err?;
        Err(rest.error)
      else Ok([first] + rest.value)
  }

  /** Line 185: `MergeDiff(clip_adg, MakeDiff(clip, out))`. */
  function FoldStep(out: Plane, layer: Plane, clip: Plane, neutral: real): (r: Plane)
    requires |out| == |clip| == |layer|
    ensures |r| == |clip|
    ensures forall i :: 0 <= i < |clip| ==> r[i] == layer[i] + clip[i] - out[i]
  {
    MergeDiff(layer, MakeDiff(clip, out, neutral), neutral)
  }

  /** Lines 183-185: the output after folding `layers` in order, starting from
      the clip. */
  function Folded(clip: Plane, layers: seq<Plane>, neutral: real): (r: Plane)
    requires SameSize(layers, |clip|)
    ensures |r| == |clip|
  {
    if |layers| == 0 then clip
    else FoldStep(Folded(clip, layers[..|layers| - 1], neutral), layers[|layers| - 1], clip, neutral)
  }

  /** The alternating sum `l[k-1] - l[k-2] + l[k-3] - ...` at sample `p`. */
  function AlternatingSum(layers: seq<Plane>, k: nat, p: nat): real
    requires k <= |layers| && forall j :: 0 <= j < k ==> p < |layers[j]|
  {
    if k == 0 then 0.0 else layers[k - 1][p] - AlternatingSum(layers, k - 1, p)
  }

  /** The closed form of the fold: the last layer enters with a plus sign, the
      one before it with a minus sign and so on, and the clip itself survives
      only for an even number of layers. It is not the sum of the layers'
      differences from the clip. */
  lemma {:induction false} FoldedClosedForm(clip: Plane, layers: seq<Plane>, neutral: real, p: nat)
    requires SameSize(layers, |clip|) && p < |clip|
    ensures Folded(clip, layers, neutral)[p]
      == AlternatingSum(layers, |layers|, p) + (if |layers| % 2 == 0 then clip[p] else 0.0)
  {
    if |layers| > 0 {
      var init := layers[..|layers| - 1];
      FoldedClosedForm(clip, init, neutral, p);
      AlternatingSumAgree(init, layers, |init|, p);
    }
  }

  /** The alternating sum of the first `k` layers reads only those layers. */
  lemma {:induction false} AlternatingSumAgree(l1: seq<Plane>, l2: seq<Plane>, k: nat, p: nat)
    requires k <= |l1| && k <= |l2|
    requires forall j :: 0 <= j < k ==> p < |l1[j]| && l1[j] == l2[j]
    ensures AlternatingSum(l1, k, p) == AlternatingSum(l2, k, p)
  {
    if k > 0 {
      AlternatingSumAgree(l1, l2, k - 1, p);
    }
  }

  /** With no bands the output is the clip. */
  lemma FoldedNoLayers(clip: Plane, neutral: real)
    ensures Folded(clip, [], neutral) == clip
  {
  }

  /** Two bands give `adg2 + clip - adg1`. */
  lemma FoldedTwoLayers(clip: Plane, a: Plane, b: Plane, neutral: real)
    requires |a| == |b| == |clip|
    ensures Folded(clip, [a, b], neutral) == Sub(Plus(b, clip), a)
  {
    var layers := [a, b];
    assert layers[..1] == [a];
    assert [a][..0] == [];
    var one := Folded(clip, [a], neutral);
    assert Folded(clip, [a][..0], neutral) == clip;
    assert one == FoldStep(clip, a, clip, neutral);
    forall i | 0 <= i < |clip| ensures one[i] == a[i] { }
    assert one == a;
    var two := Folded(clip, layers, neutral);
    assert two == FoldStep(a, b, clip, neutral);
    forall i | 0 <= i < |clip| ensures two[i] == Sub(Plus(b, clip), a)[i] { }
  }

  function Plus(a: Plane, b: Plane): (s: Plane)
    requires |a| == |b|
    ensures |s| == |a| && forall i :: 0 <= i < |a| ==> s[i] == a[i] + b[i]
  {
    seq(|a|, i requires 0 <= i < |a| => a[i] + b[i])
  }

  /** The order of the bands matters: exchanging two layers changes every
      sample where they differ. */
  lemma FoldOrderMatters(clip: Plane, a: Plane, b: Plane, neutral: real, p: nat)
    requires |a| == |b| == |clip| && p < |clip|
    ensures Folded(clip, [a, b], neutral)[p] == Folded(clip, [b, a], neutral)[p] <==> a[p] == b[p]
  {
    FoldedTwoLayers(clip, a, b, neutral);
    FoldedTwoLayers(clip, b, a, neutral);
  }

  /** Where every layer equals the clip, the output equals the clip. */
  lemma {:induction false} FoldedKeepsClip(clip: Plane, layers: seq<Plane>, neutral: real, p: nat)
    requires SameSize(layers, |clip|) && p < |clip|
    requires forall k :: 0 <= k < |layers| ==> layers[k][p] == clip[p]
    ensures Folded(clip, layers, neutral)[p] == clip[p]
  {
    if |layers| > 0 {
      FoldedKeepsClip(clip, layers[..|layers| - 1], neutral, p);
    }
  }

  /** The offset that MakeDiff and MergeDiff use cancels out of the fold. */
  lemma {:induction false} FoldedIgnoresOffset(clip: Plane, layers: seq<Plane>, n: real, m: real)
    requires SameSize(layers, |clip|)
    ensures Folded(clip, layers, n) == Folded(clip, layers, m)
  {
    if |layers| > 0 {
      FoldedIgnoresOffset(clip, layers[..|layers| - 1], n, m);
    }
  }
}
