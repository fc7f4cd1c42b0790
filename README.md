# COCO dataset core of maskrcnn-benchmark, modelled in Dafny

This project models `maskrcnn_benchmark/data/datasets/coco.py`, the part of
maskrcnn-benchmark that decides which COCO images are used for training and
turns each image's raw annotation list into an aligned per-image target.

- `ValidityFilter` (validity.dfy): `_count_visible_keypoints`,
  `_has_only_empty_bbox`, `has_valid_annotation` and
  `min_keypoints_per_image`. Pure functions; the result is a `Result` because
  counting keypoints raises `KeyError` when the first annotation has
  keypoints and a later one does not.
- `CategoryRemap` (category_remap.dfy): the two dict comprehensions that map
  catalog category ids to contiguous labels 1..K and back. The forward map
  keeps Python's overwrite semantics (an id listed twice keeps its last
  position); it is injective in every case, so the inverse is exact without
  assuming the enumeration is duplicate-free.
- `TargetBuilder` (target.dfy): lines 87-112 of `__getitem__`. Crowd
  exclusion, box conversion, the `labels`, `masks` and optional `keypoints`
  fields, and `clip_to_image(remove_empty=True)` as one row-removal applied
  to every field together.
- `Dataset` (dataset.dfy): `COCODataset`. `sorted(self.ids)` as an insertion
  sort with a sortedness and permutation contract; the filtering loop as a
  method proved against the function `FilterIds`; the class with the fields
  `ids`, `jsonCategoryIdToContiguousId`, `contiguousCategoryIdToJsonId` and
  `idToImgMap`; `get_img_info`; and `__getitem__` without the image.
- `RowSelection` (rows.dfy): the one "keep these rows" operation that both
  the crowd filter and `BoxList` indexing by a boolean mask perform, with the
  lemmas that make row alignment provable.
- `Annotations` (annotations.dfy), `Wrappers` (wrappers.dfy): the catalog's
  records and the exceptions (`KeyError`, `IndexError`) as an `Error` datatype.

Behaviour that follows the code rather than a plainer reading of it:

- Validity looks at width and height separately. A box 0.5 wide and 4 tall
  has area 2 but is still empty for the filter.
- `has_valid_annotation` raises when some box is wider and taller than 1,
  the first annotation has keypoints and a later one has none. `__init__` does not catch this, so construction
  fails (`COCODataset.Create` returns the error).
- `__getitem__` resolves the index with `self.ids[idx]` in torchvision's
  `CocoDetection.__getitem__`, which is Python list indexing. A negative
  index therefore counts from the end, and only an index outside
  `[-len, len)` raises `IndexError`. `get_img_info` goes through the dict
  `id_to_img_map` and rejects every negative index. Both behaviours are
  modelled as written (`LookupId`, `GetImgInfo`).
- The `keypoints` field depends only on the first crowd-free annotation. If
  that annotation has keypoints and a later one does not, building the field
  raises `KeyError`.

## Model

| member | source | states |
|---|---|---|
| ValidityFilter.Visibilities | maskrcnn_benchmark/data/datasets/coco.py:14 | `keypoints[2::3]` has `len // 3` entries, and entry j is the value at index 3j+2 |
| ValidityFilter.CountPositive | maskrcnn_benchmark/data/datasets/coco.py:14 | the count of entries > 0 never exceeds the length |
| ValidityFilter.CountPositiveZero | maskrcnn_benchmark/data/datasets/coco.py:14 | the count is 0 exactly when no visibility value is > 0 |
| ValidityFilter.CountPositiveAll | maskrcnn_benchmark/data/datasets/coco.py:14 | the count equals the length exactly when every visibility value is > 0 |
| ValidityFilter.VisibleKeypoints | maskrcnn_benchmark/data/datasets/coco.py:14 | one annotation contributes at most one visible keypoint per (x, y, v) triple |
| ValidityFilter.CountVisibleKeypoints | maskrcnn_benchmark/data/datasets/coco.py:13-14 | succeeds exactly when every annotation has keypoints; otherwise raises the missing-keypoints KeyError |
| ValidityFilter.CountVisibleIsTotal | maskrcnn_benchmark/data/datasets/coco.py:13-14 | when all annotations have keypoints, the count is the per-annotation visible counts summed |
| ValidityFilter.TotalVisibleAppend | maskrcnn_benchmark/data/datasets/coco.py:13-14 | the total over two lists of annotations is the sum of their totals |
| ValidityFilter.HasOnlyEmptyBbox | maskrcnn_benchmark/data/datasets/coco.py:17-18 | true exactly when every box has width <= 1 or height <= 1 (so true for an empty list) |
| ValidityFilter.HasValidAnnotation | maskrcnn_benchmark/data/datasets/coco.py:10-36 | false for an empty list or when no box is wider and taller than 1; raises the missing-keypoints KeyError exactly when some box is usable, the first annotation has keypoints and some annotation lacks them; true exactly when some box is usable and either the first annotation has no keypoints or at least 10 keypoints are visible over all annotations |
| CategoryRemap.ContiguousIds | maskrcnn_benchmark/data/datasets/coco.py:57-59 | the forward map is defined on exactly the enumerated category ids |
| CategoryRemap.ContiguousIdAt | maskrcnn_benchmark/data/datasets/coco.py:57-59 | every enumerated id maps to a label in 1..K; the enumeration holds that id at the label's position and at no later position |
| CategoryRemap.ContiguousIdsInjective | maskrcnn_benchmark/data/datasets/coco.py:57-59 | two different category ids never get the same label |
| CategoryRemap.ContiguousIdsOfDistinct | maskrcnn_benchmark/data/datasets/coco.py:57-59 | with a duplicate-free enumeration, the i-th id maps to i + 1 |
| CategoryRemap.LabelsPositive | maskrcnn_benchmark/data/datasets/coco.py:57-59 | every label is in 1..K, so 0 (background) is never assigned |
| CategoryRemap.JsonIds | maskrcnn_benchmark/data/datasets/coco.py:60-62 | the inverse is defined on exactly the labels of the enumerated ids |
| CategoryRemap.JsonIdsInverts | maskrcnn_benchmark/data/datasets/coco.py:57-62 | the inverse sends the label of each enumerated id back to that id |
| CategoryRemap.RemapRoundTrips | maskrcnn_benchmark/data/datasets/coco.py:57-62 | `contiguous_to_json[json_to_contiguous[c]] == c` for every enumerated c and `json_to_contiguous[contiguous_to_json[d]] == d` for every label d |
| CategoryRemap.BuildRemap | maskrcnn_benchmark/data/datasets/coco.py:57-62 | the forward map is defined on exactly the enumerated category ids, and the inverse on exactly the labels they receive |
| CategoryRemap.LabelsAreOneToK | maskrcnn_benchmark/data/datasets/coco.py:57-62 | with a duplicate-free enumeration, the inverse is defined on 1..K and nowhere else |
| RowSelection.CountTrue | maskrcnn_benchmark/data/datasets/coco.py:112 | a mask keeps at most as many rows as it has |
| RowSelection.Select | maskrcnn_benchmark/data/datasets/coco.py:89 | a selection has one row per true mask entry |
| RowSelection.KeptIndices | maskrcnn_benchmark/data/datasets/coco.py:112 | the kept positions are strictly increasing, each within range and true in the mask, and every true position is among them |
| RowSelection.SelectAt | maskrcnn_benchmark/data/datasets/coco.py:89 | row j of a selection is the input row at the j-th kept position, so every field selected with one mask stays aligned and in order |
| RowSelection.SelectMembership | maskrcnn_benchmark/data/datasets/coco.py:89 | a value is selected exactly when it sits at some kept position |
| RowSelection.SelectSorted | maskrcnn_benchmark/data/datasets/coco.py:49-55 | selecting from an ascending list leaves it ascending |
| RowSelection.SelectAll | maskrcnn_benchmark/data/datasets/coco.py:112 | a mask keeping every row changes nothing |
| RowSelection.SelectNone | maskrcnn_benchmark/data/datasets/coco.py:89 | a mask keeping no row leaves nothing |
| TargetBuilder.CrowdFree | maskrcnn_benchmark/data/datasets/coco.py:89 | one entry per annotation with `iscrowd == 0` (the count of such annotations); every kept annotation has `iscrowd == 0`, every annotation with `iscrowd == 0` is kept, and nothing else appears |
| TargetBuilder.CrowdFreeAt | maskrcnn_benchmark/data/datasets/coco.py:89 | the kept annotations appear in their input order |
| TargetBuilder.XyxyBoxes | maskrcnn_benchmark/data/datasets/coco.py:91-93 | one converted box per annotation, row i being the xyxy form of annotation i's box |
| TargetBuilder.Masks | maskrcnn_benchmark/data/datasets/coco.py:102-104 | one mask per annotation, row i being annotation i's segmentation |
| TargetBuilder.Labels | maskrcnn_benchmark/data/datasets/coco.py:96-97 | succeeds exactly when every category id is in the remap, and then has one label per annotation in order; otherwise raises for the first unknown category id |
| TargetBuilder.AllKeypoints | maskrcnn_benchmark/data/datasets/coco.py:108 | succeeds exactly when every annotation has keypoints, and then holds each annotation's keypoints in order |
| TargetBuilder.KeypointsField | maskrcnn_benchmark/data/datasets/coco.py:107-110 | the field is attached exactly when the list is non-empty and its first annotation has keypoints; it raises exactly when that holds and some annotation lacks keypoints |
| TargetBuilder.RemoveRows | maskrcnn_benchmark/data/datasets/coco.py:112 | one removal applied to boxes, labels, masks and keypoints together: all fields keep equal length, and row j of each comes from the same kept input row |
| TargetBuilder.ClipToImage | maskrcnn_benchmark/data/datasets/coco.py:112 | clipping keeps the fields aligned, keeps the image size and keypoints presence, and leaves only non-empty boxes; a row is kept exactly when its clamped box is non-empty, and kept row j is input row i's clamped box with row i's label, mask and keypoints |
| TargetBuilder.BuildTarget | maskrcnn_benchmark/data/datasets/coco.py:87-112 | raises exactly when a crowd-free annotation's category is unknown or the first crowd-free annotation has keypoints and another lacks them; an unknown category is reported first (the id of the first such annotation), the missing-keypoints KeyError only when every category is known; otherwise the target is aligned, has the image size, has no more rows than crowd-free annotations, and has keypoints exactly when the first crowd-free annotation does |
| TargetBuilder.BuildTargetRows | maskrcnn_benchmark/data/datasets/coco.py:89-112 | one row per crowd-free annotation that survives clipping, in input order; each row's box, label, mask and keypoints come from that same annotation |
| TargetBuilder.NoInstancesGivesEmptyTarget | maskrcnn_benchmark/data/datasets/coco.py:89-93 | an image whose annotations are all crowd (or that has none) gets an empty target, not an error |
| TargetBuilder.NothingClippedKeepsAllInstances | maskrcnn_benchmark/data/datasets/coco.py:89-112 | when the target is built and every crowd-free annotation's clamped box is non-empty, the target has one row per annotation with `iscrowd == 0` |
| Dataset.Insert | maskrcnn_benchmark/data/datasets/coco.py:45 | inserting into an ascending list gives an ascending list with the same elements plus the new one |
| Dataset.SortIds | maskrcnn_benchmark/data/datasets/coco.py:45 | `sorted(ids)` is ascending and a permutation of its input |
| Dataset.FilterIds | maskrcnn_benchmark/data/datasets/coco.py:49-55 | the filter pass keeps at most as many ids as it is given, and a failure carries the error of some image's check |
| Dataset.FilterIdsSelects | maskrcnn_benchmark/data/datasets/coco.py:49-55 | the pass raises exactly when some image's check raises; otherwise it keeps the accepted ids as an order-preserving subsequence |
| Dataset.FilterIdsFirstError | maskrcnn_benchmark/data/datasets/coco.py:49-55 | a failing pass reports the error of the first image whose check raises |
| Dataset.FilteredIds | maskrcnn_benchmark/data/datasets/coco.py:49-55 | an id is kept exactly when it is in the input and passes the check, and an ascending input stays ascending |
| Dataset.FilterValidIds | maskrcnn_benchmark/data/datasets/coco.py:49-55 | the loop computes exactly `FilterIds` over the full annotation lists, crowd entries included |
| Dataset.IndexMap | maskrcnn_benchmark/data/datasets/coco.py:63 | `id_to_img_map` is defined on exactly the positions 0..len-1 and sends position k to `ids[k]` |
| Dataset.LookupId | maskrcnn_benchmark/data/datasets/coco.py:67 | Python list indexing: defined exactly on `-len <= idx < len`, with a negative index counting from the end; otherwise IndexError |
| Dataset.TargetLabelsContiguous | maskrcnn_benchmark/data/datasets/coco.py:57-59 | with the dataset's remap, every label of a target is in 1..K and maps back to the category id of its row's annotation |
| Dataset.COCODataset.constructor | maskrcnn_benchmark/data/datasets/coco.py:57-64 | the category maps and the index map are built from the catalog enumeration and the final id list |
| Dataset.COCODataset.Create | maskrcnn_benchmark/data/datasets/coco.py:40-64 | without filtering, ids are the sorted catalog ids; with filtering, ids are the sorted ids whose full annotation list passes `has_valid_annotation`, in order, or construction raises the first filter error; ids are ascending in both cases and every kept id comes from the catalog's image list |
| Dataset.COCODataset.GetImgInfo | maskrcnn_benchmark/data/datasets/coco.py:119-122 | returns `coco.imgs[ids[index]]` for `0 <= index < len(ids)`; any other index, negatives included, raises KeyError; when every catalog id has a metadata record, it succeeds exactly on `0 <= index < len(ids)` |
| Dataset.COCODataset.GetItem | maskrcnn_benchmark/data/datasets/coco.py:66-117 | an out-of-range index raises IndexError; otherwise the result is the target built from all the annotations of the image at that index, and the index is echoed back |

## Left out

- Image decoding, the COCO API (`super().__init__`, `getAnnIds`, `loadAnns`, `getCatIds`, `coco.imgs`) and the PIL image: their results are the `Catalog` value and the `imgSize` parameter. An image with no annotations gets the empty list.
- `BoxList.convert("xyxy")`, `clip_to_image` and `remove_empty`: their source is not part of this model, so the per-box conversion, clamp and emptiness test are the functions in `BoxOps`. The box (10, 20, 5, 8) becoming (10, 20, 15, 28) is therefore not stated.
- `SegmentationMask` and `PersonKeypoints`: masks and keypoints are carried as opaque per-row payloads.
- torch tensors: sequences stand for them. The `reshape(-1, 4)` guard is the empty sequence of boxes.
- The `transforms` call (line 115): an arbitrary callable, left out. `GetItem` returns the target before any transform.
- The decoded image returned by `__getitem__`: `GetItem` returns only the target and the index.
- `add_field` growing the target in place: the target is built as one value, so no partly built target is observable.
- The annotation fields `area`, `id` and `image_id`: the code never reads them.
- A record missing `bbox`, `segmentation`, `category_id` or `iscrowd`: every `Annotation` carries these four fields, so the `KeyError` such a record raises (lines 18, 89, 91, 96, 102) is not modelled.
