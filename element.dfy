/** The per-image record that ingestion creates and inference fills in
    (elements/Element.py). */
module Elements {
  import opened Wrappers

  /** A decoded image: its shape and its pixel buffer, which this model never inspects. */
  datatype Image = Image(height: nat, width: nat, pixels: seq<int>)

  /** A box in COCO form: top-left corner, width, height. */
  datatype Box = Box(x: real, y: real, w: real, h: real)

  /** The value of every field of an `Element` at one moment. */
  datatype Record = Record(
    image: Image,
    imageId: int,
    fileName: string,
    width: int,
    height: int,
    categoryId: Option<seq<int>>,
    bbox: Option<seq<Box>>,
    detectedMasks: seq<seq<real>>,
    annotationsId: Option<seq<int>>,
    areas: Option<seq<real>>,
    iscrowd: int,
    isscrowd: Option<int>)

  /** The state of a freshly constructed element. */
  function Initial(image: Image, imageId: int, fileName: string, width: int, height: int): Record {
    Record(image, imageId, fileName, width, height, None, None, [], None, None, 0, None)
  }

  class Element {
    var image: Image
    var imageId: int
    var fileName: string
    var width: int
    var height: int
    /** 1-based class ids, one per kept detection; `None` until inference. */
    var categoryId: Option<seq<int>>
    var bbox: Option<seq<Box>>
    var detectedMasks: seq<seq<real>>
    var annotationsId: Option<seq<int>>
    var areas: Option<seq<real>>
    var iscrowd: int
    /** The attribute that inference assigns under the misspelt name `isscrowd`;
        `None` while the object has no such attribute. */
    var isscrowd: Option<int>

    constructor (image: Image, imageId: int, fileName: string, width: int, height: int)
      ensures this.image == image && this.imageId == imageId && this.fileName == fileName
      ensures this.width == width && this.height == height
      ensures categoryId == None && bbox == None && annotationsId == None && areas == None
      ensures detectedMasks == [] && iscrowd == 0 && isscrowd == None
      ensures Snapshot() == Initial(image, imageId, fileName, width, height)
    {
      this.image := image;
      this.imageId := imageId;
      this.fileName := fileName;
      this.width := width;
      this.height := height;
      categoryId := None;
      bbox := None;
      detectedMasks := [];
      annotationsId := None;
      areas := None;
      iscrowd := 0;
      isscrowd := None;
    }

    function Snapshot(): Record
      reads this
    {
      Record(image, imageId, fileName, width, height, categoryId, bbox, detectedMasks,
             annotationsId, areas, iscrowd, isscrowd)
    }
  }

  function Records(es: seq<Element>): (r: seq<Record>)
    reads es
    ensures |r| == |es|
    ensures forall k :: 0 <= k < |es| ==> r[k] == es[k].Snapshot()
  {
    seq(|es|, k reads es requires 0 <= k < |es| => es[k].Snapshot())
  }

  predicate Distinct(es: seq<Element>) {
    forall a, b :: 0 <= a < b < |es| ==> es[a] != es[b]
  }
}
