/**
 * The records the COCO catalog supplies and the errors the dataset code
 * raises.  Only the fields the dataset code reads are modelled.
 */
module Annotations {
  import opened Wrappers

  /** An annotation's `bbox`: corner and extent, `[x, y, width, height]`. */
  datatype Bbox = Bbox(x: real, y: real, width: real, height: real)

  /** A box in two-corner form, `[x1, y1, x2, y2]` (BoxList mode "xyxy"). */
  datatype Corners = Corners(x1: real, y1: real, x2: real, y2: real)

  /** An instance mask as the catalog stores it; never inspected here. */
  datatype Segmentation =
    | Polygons(polygons: seq<seq<real>>)
    | Rle(counts: seq<int>, rleHeight: int, rleWidth: int)

  /** One object instance of an image. `keypoints` is absent for box/mask-only catalogs. */
  datatype Annotation = Annotation(
    bbox: Bbox,
    segmentation: Segmentation,
    categoryId: int,
    iscrowd: int,
    keypoints: Option<seq<int>>)

  /** `img.size` of a decoded image: (width, height). */
  datatype ImageSize = ImageSize(width: int, height: int)

  /** An entry of `coco.imgs`. */
  datatype ImageInfo = ImageInfo(id: int, width: int, height: int, fileName: string)

  /**
   * What the dataset reads from the COCO API object: the image id list it
   * starts from, `coco.imgs`, the annotations of each image (all of them,
   * crowd ones included) and the `getCatIds()` enumeration.
   */
  datatype Catalog = Catalog(
    imgIds: seq<int>,
    imgs: map<int, ImageInfo>,
    anns: map<int, seq<Annotation>>,
    catIds: seq<int>)

  /** `loadAnns(getAnnIds(imgIds=id, iscrowd=None))`: an image without annotations has none. */
  function AnnsOf(coco: Catalog, imgId: int): seq<Annotation> {
    if imgId in coco.anns then coco.anns[imgId] else []
  }

  /** The exceptions the dataset code lets escape. */
  datatype Error =
    | MissingKeypoints             // KeyError: 'keypoints' on an annotation without them
    | UnknownCategory(categoryId: int) // KeyError on json_category_id_to_contiguous_id
    | UnknownIndex(index: int)     // KeyError on id_to_img_map
    | UnknownImage(imgId: int)     // KeyError on coco.imgs
    | IndexOutOfRange(index: int)  // IndexError on the id list
}
