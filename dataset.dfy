/**
 * `COCODataset`: construction (sorted ids, optional validity filtering,
 * category remap, index map), per-index target retrieval and
 * `get_img_info`.
 */
module Dataset {
  import opened Wrappers
  import opened Annotations
  import opened RowSelection
  import opened ValidityFilter
  import opened CategoryRemap
  import opened TargetBuilder

  /** Inserts one id into an ascending list. */
  function Insert(x: int, s: seq<int>): (r: seq<int>)
    requires SortedAsc(s)
    ensures forall y :: y in r <==> y == x || y in s
    ensures SortedAsc(r)
    ensures multiset(r) == multiset(s) + multiset{x}
  {
    if s == [] || x <= s[0] then [x] + s
    else
      var rest := Insert(x, s[1..]);
      assert s == [s[0]] + s[1..];
      var r := [s[0]] + rest;
      assert SortedAsc(r) by {
        forall i, j | 0 <= i < j < |r| ensures r[i] <= r[j] {
          assert r[j] == rest[j - 1] && rest[j - 1] in rest;
          if i > 0 {
            assert r[i] == rest[i - 1];
          }
        }
      }
      assert multiset(r) == multiset(s) + multiset{x} by {
        assert multiset(r) == multiset{s[0]} + multiset(rest);
        assert multiset(s) == multiset{s[0]} + multiset(s[1..]);
      }
      assert forall y :: y in r <==> y in multiset(r);
      assert forall y :: y in s <==> y in multiset(s);
      r
  }

  /** `sorted(ids)`: an ascending permutation. */
  function SortIds(ids: seq<int>): (r: seq<int>)
    ensures SortedAsc(r) && multiset(r) == multiset(ids)
  {
    if ids == [] then []
    else
      assert ids == [ids[0]] + ids[1..];
      Insert(ids[0], SortIds(ids[1..]))
  }

  /** `has_valid_annotation` on all annotations of an image, crowd ones included. */
  function ImageCheck(coco: Catalog): int -> Result<bool, Error> {
    imgId => HasValidAnnotation(AnnsOf(coco, imgId))
  }

  /** Which ids a check keeps. */
  function PassMask(check: int -> Result<bool, Error>, ids: seq<int>): (keep: seq<bool>)
    ensures |keep| == |ids|
    ensures forall i :: 0 <= i < |ids| ==> keep[i] == (check(ids[i]) == Success(true))
  {
    seq(|ids|, i requires 0 <= i < |ids| => check(ids[i]) == Success(true))
  }

  /**
   * The filtering pass of `__init__` as a value: the ids the check
   * accepts, in order, or the error of the first id whose check raises.
   */
  function FilterIds(check: int -> Result<bool, Error>, ids: seq<int>): (r: Result<seq<int>, Error>)
    ensures r.Success? ==> |r.value| <= |ids|
    ensures r.Failure? ==>
      exists i :: 0 <= i < |ids| && check(ids[i]).Failure? && r.error == check(ids[i]).error
  {
    if ids == [] then Success([])
    else
      var n := |ids| - 1;
      var prefix := FilterIds(check, ids[..n]);
      if prefix.Failure? then prefix
      else
        var v := check(ids[n]);
        if v.Failure? then Failure(v.error)
        else Success(prefix.value + (if v.value then [ids[n]] else []))
  }

  /**
   * The pass raises exactly when some id's check raises; otherwise it keeps
   * the accepted ids, in order.
   */
  lemma {:induction false} FilterIdsSelects(check: int -> Result<bool, Error>, ids: seq<int>)
    ensures FilterIds(check, ids).Success? <==> forall i :: 0 <= i < |ids| ==> check(ids[i]).Success?
    ensures FilterIds(check, ids).Success? ==> FilterIds(check, ids).value == Select(ids, PassMask(check, ids))
  {
    if ids != [] {
      var n := |ids| - 1;
      FilterIdsSelects(check, ids[..n]);
      assert forall i :: 0 <= i < n ==> ids[..n][i] == ids[i];
      assert PassMask(check, ids)[..n] == PassMask(check, ids[..n]);
    }
  }

  /** A failure is the error of the first id whose check raises. */
  lemma {:induction false} FilterIdsFirstError(check: int -> Result<bool, Error>, ids: seq<int>, i: nat)
    requires i < |ids|
    requires FilterIds(check, ids[..i]).Success?
    requires check(ids[i]).Failure?
    ensures FilterIds(check, ids) == Failure(check(ids[i]).error)
  {
    var n := |ids| - 1;
    if i < n {
      assert ids[..n][..i] == ids[..i];
      assert ids[..n][i] == ids[i];
      FilterIdsFirstError(check, ids[..n], i);
    } else {
      assert ids[..n] == ids[..i];
    }
  }

  /**
   * The kept ids are exactly the accepted ones, and an ascending input
   * stays ascending.
   */
  lemma FilteredIds(check: int -> Result<bool, Error>, ids: seq<int>)
    requires FilterIds(check, ids).Success?
    ensures forall x :: x in FilterIds(check, ids).value <==> x in ids && check(x) == Success(true)
    ensures SortedAsc(ids) ==> SortedAsc(FilterIds(check, ids).value)
  {
    var keep := PassMask(check, ids);
    FilterIdsSelects(check, ids);
    forall x ensures x in FilterIds(check, ids).value <==> x in ids && check(x) == Success(true) {
      SelectMembership(ids, keep, x);
    }
    if SortedAsc(ids) {
      SelectSorted(ids, keep);
    }
  }

  /**
   * The loop of `__init__`: fetch each image's annotations, crowd ones
   * included, and append its id to `ids` when `has_valid_annotation`
   * accepts them; an exception ends the loop.
   */
  method FilterValidIds(coco: Catalog, imgIds: seq<int>) returns (r: Result<seq<int>, Error>)
    ensures r == FilterIds(ImageCheck(coco), imgIds)
  {
    ghost var check := ImageCheck(coco);
    var ids: seq<int> := [];
    var i := 0;
    while i < |imgIds|
      invariant 0 <= i <= |imgIds|
      invariant FilterIds(check, imgIds[..i]) == Success(ids)
    {
      var anno := AnnsOf(coco, imgIds[i]);
      var valid := HasValidAnnotation(anno);
      assert valid == check(imgIds[i]);
      if valid.Failure? {
        FilterIdsFirstError(check, imgIds, i);
        return Failure(valid.error);
      }
      assert imgIds[..i + 1][..i] == imgIds[..i] && imgIds[..i + 1][i] == imgIds[i];
      assert FilterIds(check, imgIds[..i + 1]) == Success(ids + (if valid.value then [imgIds[i]] else []));
      if valid.value {
        ids := ids + [imgIds[i]];
      } else {
        assert ids + [] == ids;
      }
      i := i + 1;
    }
    assert imgIds[..i] == imgIds;
    r := Success(ids);
  }

  /** `{k: v for k, v in enumerate(ids)}`. */
  function IndexMap(ids: seq<int>): (m: map<int, int>)
    ensures forall k :: k in m <==> 0 <= k < |ids|
    ensures forall k :: 0 <= k < |ids| ==> m[k] == ids[k]
  {
    map k | 0 <= k < |ids| :: ids[k]
  }

  /** `self.ids[idx]` on a Python list: a negative index counts from the end. */
  function LookupId(ids: seq<int>, idx: int): (r: Result<int, Error>)
    ensures r.Success? <==> -|ids| <= idx < |ids|
    ensures r.Failure? ==> r.error == IndexOutOfRange(idx)
    ensures 0 <= idx < |ids| ==> r == Success(ids[idx])
    ensures -|ids| <= idx < 0 ==> r == Success(ids[|ids| + idx])
  {
    if 0 <= idx < |ids| then Success(ids[idx])
    else if -|ids| <= idx < 0 then Success(ids[|ids| + idx])
    else Failure(IndexOutOfRange(idx))
  }

  /**
   * The labels of a target built with the dataset's remap are contiguous
   * labels in 1..K, and mapping each back gives the category id of the
   * annotation its row came from.
   */
  lemma TargetLabelsContiguous(anno: seq<Annotation>, size: ImageSize, catIds: seq<int>, ops: BoxOps)
    requires BuildTarget(anno, size, BuildRemap(catIds).jsonToContiguous, ops).Success?
    ensures var t := BuildTarget(anno, size, BuildRemap(catIds).jsonToContiguous, ops).value;
      var s := Survivors(anno, size, ops);
      forall j :: 0 <= j < |t.labels| ==>
        && 1 <= t.labels[j] <= |catIds|
        && j < |s| && s[j] < |CrowdFree(anno)|
        && t.labels[j] in BuildRemap(catIds).contiguousToJson
        && BuildRemap(catIds).contiguousToJson[t.labels[j]] == CrowdFree(anno)[s[j]].categoryId
  {
    var remap := BuildRemap(catIds);
    var t := BuildTarget(anno, size, remap.jsonToContiguous, ops).value;
    var s := Survivors(anno, size, ops);
    BuildTargetRows(anno, size, remap.jsonToContiguous, ops);
    RemapRoundTrips(catIds);
    forall j | 0 <= j < |t.labels|
      ensures && 1 <= t.labels[j] <= |catIds|
        && j < |s| && s[j] < |CrowdFree(anno)|
        && t.labels[j] in remap.contiguousToJson
        && remap.contiguousToJson[t.labels[j]] == CrowdFree(anno)[s[j]].categoryId
    {
      var c := CrowdFree(anno)[s[j]].categoryId;
      assert RowFrom(t, j, CrowdFree(anno)[s[j]], remap.jsonToContiguous, ops);
      assert c in catIds;
      LabelsPositive(catIds, c);
    }
  }

  /**
   * torchvision takes the dataset's starting id list from the keys of
   * `coco.imgs`, so every listed id has a metadata record.
   */
  predicate CatalogWellFormed(coco: Catalog) {
    forall x :: x in coco.imgIds ==> x in coco.imgs
  }

  /** What `__getitem__` returns besides the decoded image: the target and the index. */
  datatype Item = Item(target: Target, index: int)

  class COCODataset {
    // Built once in `__init__` and only read afterwards.
    const coco: Catalog
    const ids: seq<int>
    const jsonCategoryIdToContiguousId: map<int, int>
    const contiguousCategoryIdToJsonId: map<int, int>
    const idToImgMap: map<int, int>

    /**
     * The tables built at construction agree with the catalog and the id
     * list, and every id comes from the catalog's image list.
     */
    ghost predicate Valid()
      reads this
    {
      && (forall x :: x in ids ==> x in coco.imgIds)
      && jsonCategoryIdToContiguousId == BuildRemap(coco.catIds).jsonToContiguous
      && contiguousCategoryIdToJsonId == BuildRemap(coco.catIds).contiguousToJson
      && idToImgMap == IndexMap(ids)
    }

    /** Lines 57-64 of `__init__`, once the id list is final. */
    constructor (coco: Catalog, ids: seq<int>)
      requires forall x :: x in ids ==> x in coco.imgIds
      ensures Valid()
      ensures this.coco == coco && this.ids == ids
    {
      this.coco := coco;
      this.ids := ids;
      var remap := BuildRemap(coco.catIds);
      jsonCategoryIdToContiguousId := remap.jsonToContiguous;
      contiguousCategoryIdToJsonId := remap.contiguousToJson;
      idToImgMap := IndexMap(ids);
    }

    /**
     * `COCODataset.__init__`: the sorted catalog ids, filtered when
     * `removeImagesWithoutAnnotations` is set. Filtering can raise, so
     * construction yields a dataset or the error.
     */
    static method Create(coco: Catalog, removeImagesWithoutAnnotations: bool)
      returns (r: Result<COCODataset, Error>)
      ensures !removeImagesWithoutAnnotations ==> r.Success?
      ensures removeImagesWithoutAnnotations ==>
        (r.Failure? <==> FilterIds(ImageCheck(coco), SortIds(coco.imgIds)).Failure?)
      ensures r.Failure? ==> r.error == FilterIds(ImageCheck(coco), SortIds(coco.imgIds)).error
      ensures r.Success? ==> fresh(r.value) && r.value.Valid() && r.value.coco == coco
      ensures r.Success? ==> SortedAsc(r.value.ids)
      ensures r.Success? && !removeImagesWithoutAnnotations ==> r.value.ids == SortIds(coco.imgIds)
      ensures r.Success? && removeImagesWithoutAnnotations ==>
        r.value.ids == FilterIds(ImageCheck(coco), SortIds(coco.imgIds)).value &&
        forall x :: x in r.value.ids <==> x in coco.imgIds && ImageCheck(coco)(x) == Success(true)
    {
      var ids := SortIds(coco.imgIds);
      forall x ensures x in ids <==> x in coco.imgIds {
        assert x in ids <==> x in multiset(ids);
      }
      if removeImagesWithoutAnnotations {
        var kept := FilterValidIds(coco, ids);
        if kept.Failure? {
          return Failure(kept.error);
        }
        FilteredIds(ImageCheck(coco), ids);
        ids := kept.value;
      }
      var ds := new COCODataset(coco, ids);
      r := Success(ds);
    }

    /**
     * `get_img_info`: the catalog record of the image at `index`. Only
     * 0 <= index < |ids| is a key of the index map; any other index,
     * negative ones included, raises.
     */
    function GetImgInfo(index: int): (r: Result<ImageInfo, Error>)
      reads this
      requires Valid()
      ensures !(0 <= index < |ids|) ==> r == Failure(UnknownIndex(index))
      ensures 0 <= index < |ids| && ids[index] in coco.imgs ==> r == Success(coco.imgs[ids[index]])
      ensures 0 <= index < |ids| && ids[index] !in coco.imgs ==> r == Failure(UnknownImage(ids[index]))
      ensures CatalogWellFormed(coco) ==> (r.Success? <==> 0 <= index < |ids|)
    {
      if index !in idToImgMap then Failure(UnknownIndex(index))
      else
        var imgId := idToImgMap[index];
        if imgId !in coco.imgs then Failure(UnknownImage(imgId))
        else Success(coco.imgs[imgId])
    }

    /**
     * `__getitem__` without the image: the image id at `idx`, all of its
     * annotations, and the target built from them for an image of size
     * `imgSize`; the index is echoed back.
     */
    method GetItem(idx: int, imgSize: ImageSize, ops: BoxOps) returns (r: Result<Item, Error>)
      requires Valid()
      ensures !(-|ids| <= idx < |ids|) ==> r == Failure(IndexOutOfRange(idx))
      ensures r.Success? ==> r.value.index == idx && Aligned(r.value.target) && r.value.target.size == imgSize
      ensures -|ids| <= idx < |ids| ==>
        var imgId := if idx >= 0 then ids[idx] else ids[|ids| + idx];
        var built := BuildTarget(AnnsOf(coco, imgId), imgSize, jsonCategoryIdToContiguousId, ops);
        && (r.Success? <==> built.Success?)
        && (r.Success? ==> r.value.target == built.value)
        && (r.Failure? ==> r.error == built.error)
    {
      var imgId := LookupId(ids, idx);
      if imgId.Failure? {
        return Failure(imgId.error);
      }
      var anno := AnnsOf(coco, imgId.value);
      var target := BuildTarget(anno, imgSize, jsonCategoryIdToContiguousId, ops);
      if target.Failure? {
        return Failure(target.error);
      }
      r := Success(Item(target.value, idx));
    }
  }
}
