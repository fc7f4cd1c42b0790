/**
 * Whether an image carries enough supervision to be used for training:
 * `_count_visible_keypoints`, `_has_only_empty_bbox` and
 * `has_valid_annotation` of maskrcnn_benchmark/data/datasets/coco.py.
 */
module ValidityFilter {
  import opened Wrappers
  import opened Annotations

  /** `min_keypoints_per_image`. */
  const MinKeypointsPerImage := 10

  /** `keypoints[2::3]`: the visibility entry of each (x, y, v) triple. */
  function Visibilities(kps: seq<int>): (vs: seq<int>)
    ensures |vs| == |kps| / 3
    ensures forall j :: 0 <= j < |vs| ==> vs[j] == kps[3 * j + 2]
    decreases |kps|
  {
    if |kps| < 3 then []
    else
      var rest := Visibilities(kps[3..]);
      assert forall j :: 0 <= j < |rest| ==> kps[3..][3 * j + 2] == kps[3 * (j + 1) + 2];
      [kps[2]] + rest
  }

  /** `sum(1 for v in vs if v > 0)`. */
  function CountPositive(vs: seq<int>): (n: nat)
    ensures n <= |vs|
  {
    if vs == [] then 0
    else (if vs[0] > 0 then 1 else 0) + CountPositive(vs[1..])
  }

  /** Visible keypoints of one annotation's keypoint list. */
  function VisibleKeypoints(kps: seq<int>): (n: nat)
    ensures n <= |kps| / 3
  {
    CountPositive(Visibilities(kps))
  }

  lemma {:induction false} CountPositiveZero(vs: seq<int>)
    ensures CountPositive(vs) == 0 <==> forall j :: 0 <= j < |vs| ==> vs[j] <= 0
  {
    if vs != [] {
      CountPositiveZero(vs[1..]);
      assert forall j :: 1 <= j < |vs| ==> vs[j] == vs[1..][j - 1];
    }
  }

  lemma {:induction false} CountPositiveAll(vs: seq<int>)
    ensures CountPositive(vs) == |vs| <==> forall j :: 0 <= j < |vs| ==> vs[j] > 0
  {
    if vs != [] {
      CountPositiveAll(vs[1..]);
      assert forall j :: 1 <= j < |vs| ==> vs[j] == vs[1..][j - 1];
    }
  }

  /**
   * `_count_visible_keypoints`: visible keypoints summed over all
   * annotations. Every annotation is indexed with "keypoints", so one
   * without them raises.
   */
  function CountVisibleKeypoints(anno: seq<Annotation>): (r: Result<nat, Error>)
    ensures r.Success? <==> forall i :: 0 <= i < |anno| ==> anno[i].keypoints.Some?
    ensures r.Failure? ==> r.error == MissingKeypoints
  {
    if anno == [] then Success(0)
    else
      match anno[0].keypoints
      case None => Failure(MissingKeypoints)
      case Some(kps) =>
        var rest := CountVisibleKeypoints(anno[1..]);
        assert forall i :: 1 <= i < |anno| ==> anno[i] == anno[1..][i - 1];
        if rest.Failure? then rest else Success(VisibleKeypoints(kps) + rest.value)
  }

  /** Total visible keypoints over a list where every annotation has them. */
  function TotalVisible(anno: seq<Annotation>): nat
    requires forall i :: 0 <= i < |anno| ==> anno[i].keypoints.Some?
  {
    if anno == [] then 0
    else VisibleKeypoints(anno[0].keypoints.value) + TotalVisible(anno[1..])
  }

  /** The visible count is a sum over the annotations. */
  lemma {:induction false} CountVisibleIsTotal(anno: seq<Annotation>)
    requires forall i :: 0 <= i < |anno| ==> anno[i].keypoints.Some?
    ensures CountVisibleKeypoints(anno) == Success(TotalVisible(anno))
  {
    if anno != [] {
      assert forall i :: 0 <= i < |anno[1..]| ==> anno[1..][i] == anno[i + 1];
      CountVisibleIsTotal(anno[1..]);
    }
  }

  /** The total over two lists of annotations is the sum of their totals. */
  lemma {:induction false} TotalVisibleAppend(a: seq<Annotation>, b: seq<Annotation>)
    requires forall i :: 0 <= i < |a| ==> a[i].keypoints.Some?
    requires forall i :: 0 <= i < |b| ==> b[i].keypoints.Some?
    ensures forall i :: 0 <= i < |a + b| ==> (a + b)[i].keypoints.Some?
    ensures TotalVisible(a + b) == TotalVisible(a) + TotalVisible(b)
  {
    if a == [] {
      assert a + b == b;
    } else {
      assert (a + b)[0] == a[0] && (a + b)[1..] == a[1..] + b;
      TotalVisibleAppend(a[1..], b);
    }
  }

  /** A box of at most one pixel in width or height counts as empty. */
  predicate IsEmptyBox(b: Bbox) {
    b.width <= 1.0 || b.height <= 1.0
  }

  /** `_has_only_empty_bbox`: `all(any(o <= 1 for o in bbox[2:]))`. */
  function HasOnlyEmptyBbox(anno: seq<Annotation>): (r: bool)
    ensures r <==> forall i :: 0 <= i < |anno| ==> anno[i].bbox.width <= 1.0 || anno[i].bbox.height <= 1.0
  {
    if anno == [] then true
    else
      assert forall i :: 1 <= i < |anno| ==> anno[i] == anno[1..][i - 1];
      IsEmptyBox(anno[0].bbox) && HasOnlyEmptyBbox(anno[1..])
  }

  /** Some annotation has a box wider and taller than one pixel. */
  ghost predicate SomeUsableBox(anno: seq<Annotation>) {
    exists i :: 0 <= i < |anno| && anno[i].bbox.width > 1.0 && anno[i].bbox.height > 1.0
  }

  ghost predicate AllHaveKeypoints(anno: seq<Annotation>) {
    forall i :: 0 <= i < |anno| ==> anno[i].keypoints.Some?
  }

  /**
   * `has_valid_annotation`. An image is valid when it has an annotation,
   * some box is not degenerate, and either the first annotation has no
   * keypoints (a box/mask task) or at least `MinKeypointsPerImage`
   * keypoints are visible in total. Counting keypoints raises when the
   * first annotation has keypoints and a later one does not.
   */
  function HasValidAnnotation(anno: seq<Annotation>): (r: Result<bool, Error>)
    ensures |anno| == 0 ==> r == Success(false)
    ensures !SomeUsableBox(anno) ==> r == Success(false)
    ensures r.Failure? <==>
      SomeUsableBox(anno) && anno[0].keypoints.Some? && !AllHaveKeypoints(anno)
    ensures r.Failure? ==> r.error == MissingKeypoints
    ensures r == Success(true) <==>
      SomeUsableBox(anno) &&
      (anno[0].keypoints.None? ||
       (AllHaveKeypoints(anno) && TotalVisible(anno) >= MinKeypointsPerImage))
  {
    if |anno| == 0 then Success(false)
    else if HasOnlyEmptyBbox(anno) then Success(false)
    else if anno[0].keypoints.None? then Success(true)
    else
      var count := CountVisibleKeypoints(anno);
      if count.Failure? then Failure(count.error)
      else
        CountVisibleIsTotal(anno);
        Success(count.value >= MinKeypointsPerImage)
  }
}
