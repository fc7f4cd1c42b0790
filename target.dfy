/**
 * The per-image target built by `COCODataset.__getitem__`: crowd
 * annotations dropped, boxes converted to corner form, `labels`, `masks`
 * and (optionally) `keypoints` attached row by row, then boxes clipped to
 * the image and empty ones removed from every field at once.
 *
 * `BoxList.convert`, `BoxList.clip_to_image` and the box-emptiness test
 * are not part of this model: they are the per-box operations in `BoxOps`.
 */
module TargetBuilder {
  import opened Wrappers
  import opened Annotations
  import opened RowSelection

  /**
   * The per-box geometry of `BoxList`: conversion from `xywh` to `xyxy`,
   * clamping a box to the image, and whether a clamped box is kept by
   * `remove_empty`.
   */
  datatype BoxOps = BoxOps(
    toXyxy: Bbox -> Corners,
    clamp: (Corners, ImageSize) -> Corners,
    nonEmpty: Corners -> bool)

  /** A `BoxList` in mode "xyxy" with its extra fields. */
  datatype Target = Target(
    boxes: seq<Corners>,
    size: ImageSize,
    labels: seq<int>,
    masks: seq<Segmentation>,
    keypoints: Option<seq<seq<int>>>)

  /** Every attached field has one entry per box. */
  predicate Aligned(t: Target) {
    && |t.labels| == |t.boxes|
    && |t.masks| == |t.boxes|
    && (t.keypoints.Some? ==> |t.keypoints.value| == |t.boxes|)
  }

  /** Mask of the annotations with `iscrowd == 0`. */
  function NotCrowdMask(anno: seq<Annotation>): (keep: seq<bool>)
  {
    seq(|anno|, i requires 0 <= i < |anno| => anno[i].iscrowd == 0)
  }

  /** `[obj for obj in anno if obj["iscrowd"] == 0]`. */
  function CrowdFree(anno: seq<Annotation>): (kept: seq<Annotation>)
    ensures |kept| == CountTrue(NotCrowdMask(anno))
    ensures forall j :: 0 <= j < |kept| ==> kept[j].iscrowd == 0
    ensures forall i :: 0 <= i < |anno| && anno[i].iscrowd == 0 ==> anno[i] in kept
    ensures forall a :: a in kept ==> a in anno
  {
    var keep := NotCrowdMask(anno);
    var kept := Select(anno, keep);
    assert forall j :: 0 <= j < |kept| ==> kept[j].iscrowd == 0 by {
      forall j | 0 <= j < |kept| ensures kept[j].iscrowd == 0 {
        SelectAt(anno, keep, j);
      }
    }
    assert forall a :: a in kept <==> exists i :: 0 <= i < |anno| && keep[i] && anno[i] == a by {
      forall a ensures a in kept <==> exists i :: 0 <= i < |anno| && keep[i] && anno[i] == a {
        SelectMembership(anno, keep, a);
      }
    }
    kept
  }

  /** The crowd-free list keeps the non-crowd annotations in their original order. */
  lemma CrowdFreeAt(anno: seq<Annotation>, j: nat)
    requires j < |CrowdFree(anno)|
    ensures var ix := KeptIndices(NotCrowdMask(anno));
      j < |ix| && ix[j] < |anno| && CrowdFree(anno)[j] == anno[ix[j]]
  {
    SelectAt(anno, NotCrowdMask(anno), j);
  }

  /** `BoxList(boxes, img.size, mode="xywh").convert("xyxy")`, one box per annotation. */
  function XyxyBoxes(kept: seq<Annotation>, ops: BoxOps): (boxes: seq<Corners>)
    ensures |boxes| == |kept|
    ensures forall i :: 0 <= i < |kept| ==> boxes[i] == ops.toXyxy(kept[i].bbox)
  {
    seq(|kept|, i requires 0 <= i < |kept| => ops.toXyxy(kept[i].bbox))
  }

  /**
   * `[json_category_id_to_contiguous_id[c] for c in classes]`: the first
   * category id missing from the map raises.
   */
  function Labels(kept: seq<Annotation>, fwd: map<int, int>): (r: Result<seq<int>, Error>)
    ensures r.Success? <==> forall i :: 0 <= i < |kept| ==> kept[i].categoryId in fwd
    ensures r.Success? ==>
      |r.value| == |kept| && forall i :: 0 <= i < |kept| ==> r.value[i] == fwd[kept[i].categoryId]
    ensures r.Failure? ==>
      exists i :: 0 <= i < |kept| && kept[i].categoryId !in fwd &&
        r.error == UnknownCategory(kept[i].categoryId) &&
        forall k :: 0 <= k < i ==> kept[k].categoryId in fwd
  {
    if kept == [] then Success([])
    else
      var c := kept[0].categoryId;
      if c !in fwd then Failure(UnknownCategory(c))
      else
        var rest := Labels(kept[1..], fwd);
        assert forall i :: 1 <= i < |kept| ==> kept[i] == kept[1..][i - 1];
        if rest.Failure? then
          var i :| 0 <= i < |kept[1..]| && kept[1..][i].categoryId !in fwd &&
            rest.error == UnknownCategory(kept[1..][i].categoryId) &&
            forall k :: 0 <= k < i ==> kept[1..][k].categoryId in fwd;
          assert forall k :: 0 <= k < i + 1 ==> kept[k].categoryId in fwd by {
            forall k | 0 <= k < i + 1 ensures kept[k].categoryId in fwd {
              if k > 0 { assert kept[k] == kept[1..][k - 1]; }
            }
          }
          rest
        else Success([fwd[c]] + rest.value)
  }

  /** `[obj["segmentation"] for obj in anno]`. */
  function Masks(kept: seq<Annotation>): (masks: seq<Segmentation>)
    ensures |masks| == |kept|
    ensures forall i :: 0 <= i < |kept| ==> masks[i] == kept[i].segmentation
  {
    seq(|kept|, i requires 0 <= i < |kept| => kept[i].segmentation)
  }

  /** `[obj["keypoints"] for obj in anno]`: an annotation without keypoints raises. */
  function AllKeypoints(kept: seq<Annotation>): (r: Result<seq<seq<int>>, Error>)
    ensures r.Success? <==> forall i :: 0 <= i < |kept| ==> kept[i].keypoints.Some?
    ensures r.Success? ==>
      |r.value| == |kept| && forall i :: 0 <= i < |kept| ==> kept[i].keypoints == Some(r.value[i])
    ensures r.Failure? ==> r.error == MissingKeypoints
  {
    if kept == [] then Success([])
    else
      assert forall i :: 1 <= i < |kept| ==> kept[i] == kept[1..][i - 1];
      match kept[0].keypoints
      case None => Failure(MissingKeypoints)
      case Some(kps) =>
        var rest := AllKeypoints(kept[1..]);
        if rest.Failure? then rest else Success([kps] + rest.value)
  }

  /**
   * The `keypoints` field: attached only when the first crowd-free
   * annotation has keypoints, and then built from every annotation.
   */
  function KeypointsField(kept: seq<Annotation>): (r: Result<Option<seq<seq<int>>>, Error>)
    ensures r.Failure? <==>
      (|kept| > 0 && kept[0].keypoints.Some? && exists i :: 0 <= i < |kept| && kept[i].keypoints.None?)
    ensures r.Success? ==> (r.value.Some? <==> |kept| > 0 && kept[0].keypoints.Some?)
    ensures r.Success? && r.value.Some? ==>
      |r.value.value| == |kept| && forall i :: 0 <= i < |kept| ==> kept[i].keypoints == Some(r.value.value[i])
  {
    if |kept| > 0 && kept[0].keypoints.Some? then
      var all := AllKeypoints(kept);
      if all.Failure? then Failure(all.error) else Success(Some(all.value))
    else Success(None)
  }

  /**
   * Keeps the rows a mask selects, in every field together: the single
   * row-removal used by `clip_to_image(remove_empty=True)`.
   */
  function RemoveRows(t: Target, keep: seq<bool>): (r: Target)
    requires Aligned(t) && |keep| == |t.boxes|
    ensures Aligned(r) && r.size == t.size
    ensures |r.boxes| == CountTrue(keep)
    ensures r.keypoints.Some? <==> t.keypoints.Some?
    ensures forall j :: 0 <= j < |r.boxes| ==>
      var i := KeptIndices(keep)[j];
      && i < |t.boxes| && keep[i]
      && r.boxes[j] == t.boxes[i]
      && r.labels[j] == t.labels[i]
      && r.masks[j] == t.masks[i]
      && (t.keypoints.Some? ==> r.keypoints.value[j] == t.keypoints.value[i])
  {
    var kps := if t.keypoints.Some? then Some(Select(t.keypoints.value, keep)) else None;
    var r := Target(Select(t.boxes, keep), t.size, Select(t.labels, keep), Select(t.masks, keep), kps);
    assert forall j :: 0 <= j < |r.boxes| ==>
      var i := KeptIndices(keep)[j];
      && i < |t.boxes| && keep[i]
      && r.boxes[j] == t.boxes[i]
      && r.labels[j] == t.labels[i]
      && r.masks[j] == t.masks[i]
      && (t.keypoints.Some? ==> r.keypoints.value[j] == t.keypoints.value[i])
    by {
      forall j | 0 <= j < |r.boxes|
        ensures var i := KeptIndices(keep)[j];
          && i < |t.boxes| && keep[i]
          && r.boxes[j] == t.boxes[i]
          && r.labels[j] == t.labels[i]
          && r.masks[j] == t.masks[i]
          && (t.keypoints.Some? ==> r.keypoints.value[j] == t.keypoints.value[i])
      {
        SelectAt(t.boxes, keep, j);
        SelectAt(t.labels, keep, j);
        SelectAt(t.masks, keep, j);
        if t.keypoints.Some? { SelectAt(t.keypoints.value, keep, j); }
      }
    }
    r
  }

  /** Clamps every box to the image. */
  function ClampAll(boxes: seq<Corners>, size: ImageSize, ops: BoxOps): (r: seq<Corners>)
  {
    seq(|boxes|, i requires 0 <= i < |boxes| => ops.clamp(boxes[i], size))
  }

  /** Which clamped boxes `remove_empty` keeps. */
  function NonEmptyMask(boxes: seq<Corners>, ops: BoxOps): (keep: seq<bool>)
  {
    seq(|boxes|, i requires 0 <= i < |boxes| => ops.nonEmpty(boxes[i]))
  }

  /** `target.clip_to_image(remove_empty=True)`. */
  function ClipToImage(t: Target, ops: BoxOps): (r: Target)
    requires Aligned(t)
    ensures Aligned(r) && r.size == t.size
    ensures r.keypoints.Some? <==> t.keypoints.Some?
    ensures forall j :: 0 <= j < |r.boxes| ==> ops.nonEmpty(r.boxes[j])
    ensures var keep := NonEmptyMask(ClampAll(t.boxes, t.size, ops), ops);
      && |r.boxes| == CountTrue(keep)
      && (forall i :: 0 <= i < |t.boxes| && ops.nonEmpty(ops.clamp(t.boxes[i], t.size)) ==>
            i in KeptIndices(keep))
      && forall j :: 0 <= j < |r.boxes| ==>
        var i := KeptIndices(keep)[j];
        && i < |t.boxes|
        && r.boxes[j] == ops.clamp(t.boxes[i], t.size)
        && r.labels[j] == t.labels[i]
        && r.masks[j] == t.masks[i]
        && (t.keypoints.Some? ==> r.keypoints.value[j] == t.keypoints.value[i])
  {
    var clamped := ClampAll(t.boxes, t.size, ops);
    var keep := NonEmptyMask(clamped, ops);
    RemoveRows(t.(boxes := clamped), keep)
  }

  /** Rows of the crowd-free list that survive clipping, as positions in that list. */
  function Survivors(anno: seq<Annotation>, size: ImageSize, ops: BoxOps): seq<nat> {
    var kept := CrowdFree(anno);
    KeptIndices(NonEmptyMask(ClampAll(XyxyBoxes(kept, ops), size, ops), ops))
  }

  /** Position `i` holds the first category id the remap lacks. */
  predicate FirstUnknownCategory(kept: seq<Annotation>, fwd: map<int, int>, i: int) {
    && 0 <= i < |kept| && kept[i].categoryId !in fwd
    && forall k :: 0 <= k < i ==> kept[k].categoryId in fwd
  }

  /**
   * Lines 89-112 of `__getitem__`. Raises when a crowd-free annotation's
   * category is not in the remap, or when the first crowd-free annotation
   * has keypoints and another does not. The labels are built first, so an
   * unknown category is the error reported when both happen.
   */
  function BuildTarget(anno: seq<Annotation>, size: ImageSize, fwd: map<int, int>, ops: BoxOps)
    : (r: Result<Target, Error>)
    ensures r.Failure? <==>
      var kept := CrowdFree(anno);
      || (exists i :: 0 <= i < |kept| && kept[i].categoryId !in fwd)
      || (|kept| > 0 && kept[0].keypoints.Some? && exists i :: 0 <= i < |kept| && kept[i].keypoints.None?)
    ensures forall i :: FirstUnknownCategory(CrowdFree(anno), fwd, i) ==>
      r == Failure(UnknownCategory(CrowdFree(anno)[i].categoryId))
    ensures r.Failure? && (forall i :: 0 <= i < |CrowdFree(anno)| ==> CrowdFree(anno)[i].categoryId in fwd) ==>
      r.error == MissingKeypoints
    ensures r.Success? ==> Aligned(r.value) && r.value.size == size
    ensures r.Success? ==> |r.value.boxes| <= |CrowdFree(anno)|
    ensures r.Success? ==>
      (r.value.keypoints.Some? <==> |CrowdFree(anno)| > 0 && CrowdFree(anno)[0].keypoints.Some?)
  {
    var kept := CrowdFree(anno);
    var boxes := XyxyBoxes(kept, ops);
    var labels := Labels(kept, fwd);
    if labels.Failure? then Failure(labels.error)
    else
      var keypoints := KeypointsField(kept);
      if keypoints.Failure? then Failure(keypoints.error)
      else Success(ClipToImage(Target(boxes, size, labels.value, Masks(kept), keypoints.value), ops))
  }

  /** Row `j` of a target comes, in every field, from annotation `a`. */
  ghost predicate RowFrom(t: Target, j: nat, a: Annotation, fwd: map<int, int>, ops: BoxOps)
    requires Aligned(t) && j < |t.boxes|
  {
    && t.boxes[j] == ops.clamp(ops.toXyxy(a.bbox), t.size)
    && a.categoryId in fwd && t.labels[j] == fwd[a.categoryId]
    && t.masks[j] == a.segmentation
    && (t.keypoints.Some? ==> a.keypoints == Some(t.keypoints.value[j]))
  }

  /**
   * A built target has one row per crowd-free annotation that survives
   * clipping, in input order, and each row's box, label, mask and
   * keypoints all come from that same annotation.
   */
  lemma BuildTargetRows(anno: seq<Annotation>, size: ImageSize, fwd: map<int, int>, ops: BoxOps)
    requires BuildTarget(anno, size, fwd, ops).Success?
    ensures var t := BuildTarget(anno, size, fwd, ops).value;
      var s := Survivors(anno, size, ops);
      && |t.boxes| == |s|
      && StrictlyIncreasing(s)
      && forall j :: 0 <= j < |s| ==> s[j] < |CrowdFree(anno)| && RowFrom(t, j, CrowdFree(anno)[s[j]], fwd, ops)
  {
  }

  /** An image whose annotations are all crowd (or absent) yields zero boxes, not an error. */
  lemma NoInstancesGivesEmptyTarget(anno: seq<Annotation>, size: ImageSize, fwd: map<int, int>, ops: BoxOps)
    requires forall i :: 0 <= i < |anno| ==> anno[i].iscrowd != 0
    ensures BuildTarget(anno, size, fwd, ops) == Success(Target([], size, [], [], None))
  {
    SelectNone(anno, NotCrowdMask(anno));
  }

  /**
   * When no box is removed by clipping, the target has exactly one row
   * per annotation with `iscrowd == 0`.
   */
  lemma NothingClippedKeepsAllInstances(anno: seq<Annotation>, size: ImageSize, fwd: map<int, int>, ops: BoxOps)
    requires BuildTarget(anno, size, fwd, ops).Success?
    requires forall a :: a in CrowdFree(anno) ==> ops.nonEmpty(ops.clamp(ops.toXyxy(a.bbox), size))
    ensures |BuildTarget(anno, size, fwd, ops).value.boxes| == CountTrue(NotCrowdMask(anno))
  {
    var kept := CrowdFree(anno);
    var keep := NonEmptyMask(ClampAll(XyxyBoxes(kept, ops), size, ops), ops);
    forall i | 0 <= i < |keep| ensures keep[i] {
      assert kept[i] in kept;
    }
    SelectAll(XyxyBoxes(kept, ops), keep);
  }
}
