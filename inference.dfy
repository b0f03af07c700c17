/** Inference post-processing (nodes/Inference.py): per image, filter the predictor's
    detections by confidence, convert boxes to COCO form, shift class ids, number the
    detections across the corpus, and choose masks and areas. The predictor, the
    FastSAM box prompt, the cv2 contour simplification and the shapely polygon area
    are collaborators given as functions. */
module Inference {
  import opened Wrappers
  import opened Seqs
  import opened Elements

  /** A box in corner form `x1, y1, x2, y2`. */
  datatype Corner = Corner(x1: real, y1: real, x2: real, y2: real)

  /** One row of `predictions.boxes`: corner box, class index and confidence. */
  datatype Detection = Detection(box: Corner, cls: int, conf: real)

  datatype Point = Point(x: real, y: real)

  /** A boundary polygon as the predictor gives it (`masks.xy[i]`, an n x 2 array). */
  type Polygon = seq<Point>

  /** A raster mask (`masks.data[i]`). */
  type RawMask = seq<seq<real>>

  /** `predictions.masks`: raster masks and their boundary polygons. */
  datatype Masks = Masks(data: seq<RawMask>, xy: seq<Polygon>)

  /** The predictor's result for one image; `masks` is `None` for a model that
      cannot segment (where the source catches the `AttributeError`). */
  datatype Prediction = Prediction(dets: seq<Detection>, masks: Option<Masks>)

  /** The first mask of the first annotation returned by a FastSAM box prompt. */
  datatype SamMask = SamMask(data: RawMask, xy: Polygon)

  /** The arguments passed to every `predict` call. */
  datatype PredictOptions = PredictOptions(imgsz: int, conf: real, iou: real, classes: Option<seq<int>>)

  /** The external collaborators. `simplify` stands for resize, findContours, the
      largest contour, approxPolyDP at 0.002 of the perimeter and the cast to int. */
  datatype Backend = Backend(
    predict: (Image, PredictOptions) -> Prediction,
    boxPrompt: (Image, seq<int>) -> SamMask,
    simplify: (RawMask, Image) -> seq<int>,
    polygonArea: Polygon -> real)

  /** The configuration of an `Inferencer`. */
  datatype Settings = Settings(
    segment: bool,
    minimizePoints: bool,
    useBoxPromptSam: bool,
    confDict: map<int, real>,
    options: PredictOptions)

  // ---------------------------------------------------------------- filtering

  /** A non-empty threshold map has a key for every predicted class. */
  predicate ConfCovers(confDict: map<int, real>, dets: seq<Detection>) {
    |confDict| != 0 ==> forall i :: 0 <= i < |dets| ==> dets[i].cls in confDict
  }

  /** The positions whose confidence reaches their class's threshold. */
  function KeepConfident(confDict: map<int, real>, dets: seq<Detection>): (r: seq<nat>)
    requires forall i :: 0 <= i < |dets| ==> dets[i].cls in confDict
    ensures StrictlyIncreasing(r)
    ensures AllBelow(r, |dets|)
  {
    if |dets| == 0 then []
    else
      var n := |dets| - 1;
      KeepConfident(confDict, dets[..n]) + (if confDict[dets[n].cls] <= dets[n].conf then [n] else [])
  }

  lemma {:induction false} KeepConfidentMembers(confDict: map<int, real>, dets: seq<Detection>, i: int)
    requires forall i :: 0 <= i < |dets| ==> dets[i].cls in confDict
    ensures i in KeepConfident(confDict, dets) <==> 0 <= i < |dets| && confDict[dets[i].cls] <= dets[i].conf
  {
    if |dets| > 0 {
      var n := |dets| - 1;
      KeepConfidentMembers(confDict, dets[..n], i);
    }
  }

  /** `filtered_indices`: with a threshold map, the confident positions; without one, all. */
  function FilteredIndices(confDict: map<int, real>, dets: seq<Detection>): (r: seq<nat>)
    requires ConfCovers(confDict, dets)
    ensures StrictlyIncreasing(r)
    ensures AllBelow(r, |dets|)
  {
    if |confDict| != 0 then KeepConfident(confDict, dets)
    else seq(|dets|, i requires 0 <= i < |dets| => i)
  }

  lemma FilteredIndicesMembers(confDict: map<int, real>, dets: seq<Detection>, i: int)
    requires ConfCovers(confDict, dets)
    ensures i in FilteredIndices(confDict, dets) <==>
      0 <= i < |dets| && (|confDict| != 0 ==> confDict[dets[i].cls] <= dets[i].conf)
  {
    if |confDict| != 0 {
      KeepConfidentMembers(confDict, dets, i);
    } else if 0 <= i < |dets| {
      assert FilteredIndices(confDict, dets)[i] == i;
    }
  }

  // ------------------------------------------------ boxes, classes and ids

  /** `[x1, y1, x2 - x1, y2 - y1]`: the COCO box with the same corners. */
  function ToCoco(c: Corner): (b: Box)
    ensures b.x == c.x1 && b.y == c.y1
    ensures b.x + b.w == c.x2 && b.y + b.h == c.y2
  {
    Box(c.x1, c.y1, c.x2 - c.x1, c.y2 - c.y1)
  }

  /** Python's `int()` on a float: truncation toward zero. */
  function Trunc(r: real): (i: int)
    ensures 0.0 <= r ==> i as real <= r < i as real + 1.0
    ensures r < 0.0 ==> i as real - 1.0 < r <= i as real
  {
    if r >= 0.0 then r.Floor else -((-r).Floor)
  }

  /** The integer corner box handed to the FastSAM box prompt. */
  function PromptBox(b: Box): seq<int> {
    [Trunc(b.x), Trunc(b.y), Trunc(b.w + b.x), Trunc(b.h + b.y)]
  }

  /** The prompt box recovers the predictor's corners, truncated. */
  lemma PromptBoxOfConverted(c: Corner)
    ensures PromptBox(ToCoco(c)) == [Trunc(c.x1), Trunc(c.y1), Trunc(c.x2), Trunc(c.y2)]
  {
    var b := ToCoco(c);
    assert b.w + b.x == c.x2 && b.h + b.y == c.y2;
  }

  /** Every predicted box in COCO form. */
  function AllBoxes(dets: seq<Detection>): (r: seq<Box>)
    ensures |r| == |dets| && forall i :: 0 <= i < |dets| ==> r[i] == ToCoco(dets[i].box)
  {
    seq(|dets|, i requires 0 <= i < |dets| => ToCoco(dets[i].box))
  }

  /** Every predicted class, shifted to 1-based. */
  function AllClasses(dets: seq<Detection>): (r: seq<int>)
    ensures |r| == |dets| && forall i :: 0 <= i < |dets| ==> r[i] == dets[i].cls + 1
  {
    seq(|dets|, i requires 0 <= i < |dets| => dets[i].cls + 1)
  }

  function KeptBoxes(dets: seq<Detection>, filt: seq<nat>): seq<Box> {
    Select(AllBoxes(dets), filt)
  }

  function KeptClasses(dets: seq<Detection>, filt: seq<nat>): seq<int> {
    Select(AllClasses(dets), filt)
  }

  /** Boxes and class ids are kept for exactly the filtered positions, aligned. */
  lemma KeptAligned(dets: seq<Detection>, filt: seq<nat>)
    requires StrictlyIncreasing(filt) && AllBelow(filt, |dets|)
    ensures |KeptBoxes(dets, filt)| == |filt| == |KeptClasses(dets, filt)|
    ensures forall k :: 0 <= k < |filt| ==>
      KeptBoxes(dets, filt)[k] == ToCoco(dets[filt[k]].box) &&
      KeptClasses(dets, filt)[k] == dets[filt[k]].cls + 1
  {
    SelectAt(AllBoxes(dets), filt);
    SelectAt(AllClasses(dets), filt);
  }

  // ---------------------------------------------------------- masks and areas

  /** `[box[2] * box[3] for box in bbox]`. */
  function BoxAreas(bbox: seq<Box>): seq<real> {
    seq(|bbox|, i requires 0 <= i < |bbox| => bbox[i].w * bbox[i].h)
  }

  /** `mask.flatten()` of an n x 2 point array. */
  function Flatten(p: Polygon): (r: seq<real>)
    ensures |r| == 2 * |p|
    ensures forall k :: 0 <= k < |p| ==> r[2 * k] == p[k].x && r[2 * k + 1] == p[k].y
  {
    if |p| == 0 then []
    else Flatten(p[..|p| - 1]) + [p[|p| - 1].x, p[|p| - 1].y]
  }

  /** The `float(m[j]) if j % 2 == 1 else float(m[j])` comprehension: both branches
      are the same, so the coordinates are unchanged. */
  function AsFloats(m: seq<real>): (r: seq<real>)
    ensures r == m
  {
    seq(|m|, j requires 0 <= j < |m| => if j % 2 == 1 then m[j] else m[j])
  }

  function IntsAsReals(m: seq<int>): (r: seq<real>)
    ensures |r| == |m|
    ensures forall j :: 0 <= j < |m| ==> r[j] == m[j] as real
  {
    seq(|m|, j requires 0 <= j < |m| => m[j] as real)
  }

  function AllAsReals(cs: seq<seq<int>>): (r: seq<seq<real>>)
    ensures |r| == |cs|
    ensures forall i :: 0 <= i < |cs| ==> r[i] == IntsAsReals(cs[i])
  {
    seq(|cs|, i requires 0 <= i < |cs| => IntsAsReals(cs[i]))
  }

  /** The mask stored for one kept box on the box-prompt path. */
  function PromptMaskPoints(minimize: bool, b: Backend, img: Image, box: Box): seq<real> {
    var ann := b.boxPrompt(img, PromptBox(box));
    AsFloats(if minimize then IntsAsReals(b.simplify(ann.data, img)) else Flatten(ann.xy))
  }

  /** The simplified contour of every raster mask. */
  function AllContours(b: Backend, data: seq<RawMask>, img: Image): (r: seq<seq<int>>)
    ensures |r| == |data| && forall i :: 0 <= i < |data| ==> r[i] == b.simplify(data[i], img)
  {
    seq(|data|, i requires 0 <= i < |data| => b.simplify(data[i], img))
  }

  /** Every boundary polygon, flattened. */
  function AllFlattened(xy: seq<Polygon>): (r: seq<seq<real>>)
    ensures |r| == |xy| && forall i :: 0 <= i < |xy| ==> r[i] == Flatten(xy[i])
  {
    seq(|xy|, i requires 0 <= i < |xy| => AsFloats(Flatten(xy[i])))
  }

  /** The area of every boundary polygon. */
  function AllPolygonAreas(b: Backend, xy: seq<Polygon>): (r: seq<real>)
    ensures |r| == |xy| && forall i :: 0 <= i < |xy| ==> r[i] == b.polygonArea(xy[i])
  {
    seq(|xy|, i requires 0 <= i < |xy| => b.polygonArea(xy[i]))
  }

  /** The simplified contours of the raster masks at the kept positions. */
  function MinimizedMasks(b: Backend, data: seq<RawMask>, filt: seq<nat>, img: Image): seq<seq<int>> {
    Select(AllContours(b, data, img), filt)
  }

  /** The masks of a segmentation model's own output at the kept positions. */
  function NativeMasks(minimize: bool, b: Backend, m: Masks, filt: seq<nat>, img: Image): seq<seq<real>> {
    if minimize then AllAsReals(MinimizedMasks(b, m.data, filt, img))
    else Select(AllFlattened(m.xy), filt)
  }

  /** `[Polygon(mask).area for i, mask in enumerate(masks.xy) if i in filtered_indices]`. */
  function NativeAreas(b: Backend, m: Masks, filt: seq<nat>): seq<real> {
    Select(AllPolygonAreas(b, m.xy), filt)
  }

  // -------------------------------------------------------- one image

  /** The fields inference derives for one image; `isscrowd` is `None` where the
      source leaves that attribute alone. */
  datatype Derived = Derived(
    bbox: seq<Box>,
    categoryId: seq<int>,
    annotationsId: seq<int>,
    masks: seq<seq<real>>,
    areas: seq<real>,
    isscrowd: Option<int>)

  predicate Covers(s: Settings, b: Backend, img: Image) {
    ConfCovers(s.confDict, b.predict(img, s.options).dets)
  }

  function Kept(s: Settings, b: Backend, img: Image): seq<nat>
    requires Covers(s, b, img)
  {
    FilteredIndices(s.confDict, b.predict(img, s.options).dets)
  }

  predicate UsesBoxPrompt(s: Settings) {
    s.segment && s.useBoxPromptSam
  }

  predicate UsesNativeMasks(s: Settings, p: Prediction) {
    s.segment && !s.useBoxPromptSam && p.masks.Some?
  }

  /** The mask fields of one element: masks, areas and the `isscrowd` value, if set. */
  datatype MaskFields = MaskFields(masks: seq<seq<real>>, areas: seq<real>, isscrowd: Option<int>)

  /** The mask fields `process` assigns for the kept detections `filt` of `pred`. */
  function DeriveMasks(s: Settings, b: Backend, img: Image, pred: Prediction, filt: seq<nat>): MaskFields {
    var bbox := KeptBoxes(pred.dets, filt);
    if UsesBoxPrompt(s) then
      var masks := seq(|bbox|, i requires 0 <= i < |bbox| => PromptMaskPoints(s.minimizePoints, b, img, bbox[i]));
      MaskFields(masks, seq(|masks|, _ => 0.0), Some(0))
    else if UsesNativeMasks(s, pred) then
      var m := pred.masks.value;
      MaskFields(NativeMasks(s.minimizePoints, b, m, filt, img), NativeAreas(b, m, filt), Some(0))
    else
      MaskFields([], BoxAreas(bbox), None)
  }

  /** What `process` assigns to one element whose first annotation id is `maskId`. */
  function Derive(s: Settings, b: Backend, img: Image, maskId: int): Derived
    requires Covers(s, b, img)
  {
    var pred := b.predict(img, s.options);
    var filt := Kept(s, b, img);
    var mf := DeriveMasks(s, b, img, pred, filt);
    Derived(KeptBoxes(pred.dets, filt), KeptClasses(pred.dets, filt), IdRange(maskId, |filt|),
            mf.masks, mf.areas, mf.isscrowd)
  }

  /** The element after inference: identity fields kept, derived fields replaced. */
  function Populate(r: Record, d: Derived): Record {
    r.(categoryId := Some(d.categoryId), bbox := Some(d.bbox), annotationsId := Some(d.annotationsId),
       detectedMasks := d.masks, areas := Some(d.areas),
       isscrowd := if d.isscrowd.Some? then d.isscrowd else r.isscrowd)
  }

  /** An element after inference, its first annotation id being `maskId`. */
  function ProcessedRecord(s: Settings, b: Backend, r: Record, maskId: int): Record
    requires Covers(s, b, r.image)
  {
    Populate(r, Derive(s, b, r.image, maskId))
  }

  /** The predictor gives one raster mask and one polygon per detection. */
  predicate MasksAligned(p: Prediction) {
    p.masks.Some? ==> |p.masks.value.data| == |p.dets| && |p.masks.value.xy| == |p.dets|
  }

  /** Every kept detection contributes its box, its 1-based class and the next id,
      in detection order. */
  lemma DeriveKeeps(s: Settings, b: Backend, img: Image, maskId: int)
    requires Covers(s, b, img)
    ensures var d := Derive(s, b, img, maskId);
      var dets := b.predict(img, s.options).dets;
      var filt := Kept(s, b, img);
      |d.bbox| == |d.categoryId| == |d.annotationsId| == |filt| &&
      (forall k :: 0 <= k < |filt| ==>
        d.bbox[k] == ToCoco(dets[filt[k]].box) && d.categoryId[k] == dets[filt[k]].cls + 1 &&
        d.annotationsId[k] == maskId + k)
  {
    var dets := b.predict(img, s.options).dets;
    KeptAligned(dets, Kept(s, b, img));
  }

  /** Box-only mode, and a model without masks: no masks, and the area of each
      kept detection is that of its corner box. */
  lemma BoxOnlyAreas(s: Settings, b: Backend, img: Image, maskId: int)
    requires Covers(s, b, img)
    requires !UsesBoxPrompt(s) && !UsesNativeMasks(s, b.predict(img, s.options))
    ensures var d := Derive(s, b, img, maskId);
      var dets := b.predict(img, s.options).dets;
      var filt := Kept(s, b, img);
      d.masks == [] && d.isscrowd == None && |d.areas| == |filt| &&
      forall k :: 0 <= k < |filt| ==>
        var c := dets[filt[k]].box;
        d.areas[k] == (c.x2 - c.x1) * (c.y2 - c.y1)
  {
    DeriveKeeps(s, b, img, maskId);
  }

  /** Box-prompt path: one prompted mask per kept box, every area 0, `isscrowd` 0. */
  lemma BoxPromptShape(s: Settings, b: Backend, img: Image, maskId: int)
    requires Covers(s, b, img)
    requires UsesBoxPrompt(s)
    ensures var d := Derive(s, b, img, maskId);
      |d.masks| == |d.areas| == |d.bbox| == |Kept(s, b, img)| && d.isscrowd == Some(0) &&
      forall k :: 0 <= k < |d.bbox| ==>
        d.areas[k] == 0.0 && d.masks[k] == PromptMaskPoints(s.minimizePoints, b, img, d.bbox[k])
  {
    DeriveKeeps(s, b, img, maskId);
  }

  lemma NativeAreasAt(b: Backend, m: Masks, filt: seq<nat>)
    requires StrictlyIncreasing(filt) && AllBelow(filt, |m.xy|)
    ensures |NativeAreas(b, m, filt)| == |filt|
    ensures forall k :: 0 <= k < |filt| ==> NativeAreas(b, m, filt)[k] == b.polygonArea(m.xy[filt[k]])
  {
    SelectAt(AllPolygonAreas(b, m.xy), filt);
  }

  lemma NativeMasksAt(minimize: bool, b: Backend, m: Masks, filt: seq<nat>, img: Image)
    requires StrictlyIncreasing(filt) && AllBelow(filt, |m.xy|) && AllBelow(filt, |m.data|)
    ensures |NativeMasks(minimize, b, m, filt, img)| == |filt|
    ensures forall k :: 0 <= k < |filt| ==>
      NativeMasks(minimize, b, m, filt, img)[k] ==
        (if minimize then IntsAsReals(b.simplify(m.data[filt[k]], img)) else Flatten(m.xy[filt[k]]))
  {
    if minimize {
      SelectAt(AllContours(b, m.data, img), filt);
    } else {
      SelectAt(AllFlattened(m.xy), filt);
    }
  }

  /** Native segmentation path: the mask and area of each kept detection come from
      the predictor's mask at the same position; unminimized masks are the polygon's
      coordinates flattened, unchanged. */
  lemma NativeShape(s: Settings, b: Backend, img: Image, maskId: int)
    requires Covers(s, b, img)
    requires UsesNativeMasks(s, b.predict(img, s.options)) && MasksAligned(b.predict(img, s.options))
    ensures var d := Derive(s, b, img, maskId);
      var m := b.predict(img, s.options).masks.value;
      var filt := Kept(s, b, img);
      |d.masks| == |d.areas| == |d.bbox| == |filt| && d.isscrowd == Some(0) &&
      forall k :: 0 <= k < |filt| ==>
        d.areas[k] == b.polygonArea(m.xy[filt[k]]) &&
        d.masks[k] == (if s.minimizePoints then IntsAsReals(b.simplify(m.data[filt[k]], img))
                       else Flatten(m.xy[filt[k]]))
  {
    var m := b.predict(img, s.options).masks.value;
    var filt := Kept(s, b, img);
    DeriveKeeps(s, b, img, maskId);
    NativeAreasAt(b, m, filt);
    NativeMasksAt(s.minimizePoints, b, m, filt, img);
  }

  /** The record invariant: boxes, classes, areas and ids have one entry per kept
      detection, and there are either no masks or one per detection. */
  lemma DerivedShape(s: Settings, b: Backend, img: Image, maskId: int)
    requires Covers(s, b, img) && MasksAligned(b.predict(img, s.options))
    ensures var d := Derive(s, b, img, maskId);
      |d.bbox| == |d.categoryId| == |d.areas| == |d.annotationsId| &&
      (|d.masks| == 0 || |d.masks| == |d.bbox|)
  {
    if UsesBoxPrompt(s) {
      DeriveKeeps(s, b, img, maskId);
      BoxPromptShape(s, b, img, maskId);
    } else if UsesNativeMasks(s, b.predict(img, s.options)) {
      DeriveKeeps(s, b, img, maskId);
      NativeShape(s, b, img, maskId);
    } else {
      DeriveKeeps(s, b, img, maskId);
      BoxOnlyAreas(s, b, img, maskId);
    }
  }

  // -------------------------------------------------------- the whole corpus

  predicate CoversAll(s: Settings, b: Backend, imgs: seq<Image>) {
    forall k :: 0 <= k < |imgs| ==> Covers(s, b, imgs[k])
  }

  /** The number of kept detections of each image. */
  function KeptCounts(s: Settings, b: Backend, imgs: seq<Image>): (r: seq<nat>)
    requires CoversAll(s, b, imgs)
    ensures |r| == |imgs|
    ensures forall k :: 0 <= k < |imgs| ==> r[k] == |Kept(s, b, imgs[k])|
  {
    seq(|imgs|, k requires 0 <= k < |imgs| => |Kept(s, b, imgs[k])|)
  }

  /** The first annotation id of image `k`: all detections kept before it. */
  function FirstId(s: Settings, b: Backend, imgs: seq<Image>, k: nat): nat
    requires CoversAll(s, b, imgs) && k <= |imgs|
  {
    Sum(KeptCounts(s, b, imgs)[..k])
  }

  /** The annotation ids of every image, in image order. */
  function CorpusIds(s: Settings, b: Backend, imgs: seq<Image>): seq<seq<int>>
    requires CoversAll(s, b, imgs)
  {
    seq(|imgs|, k requires 0 <= k < |imgs| => Derive(s, b, imgs[k], FirstId(s, b, imgs, k)).annotationsId)
  }

  lemma {:induction false} ConcatBlocks(c: seq<nat>)
    ensures Concat(seq(|c|, k requires 0 <= k < |c| => IdRange(Sum(c[..k]), c[k]))) == IdRange(0, Sum(c))
  {
    var blocks := seq(|c|, k requires 0 <= k < |c| => IdRange(Sum(c[..k]), c[k]));
    if |c| > 0 {
      var n := |c| - 1;
      var c0 := c[..n];
      var blocks0 := seq(|c0|, k requires 0 <= k < |c0| => IdRange(Sum(c0[..k]), c0[k]));
      assert blocks[..n] == blocks0 by {
        forall k | 0 <= k < n
          ensures blocks[k] == blocks0[k]
        {
          assert c0[..k] == c[..k];
        }
      }
      ConcatBlocks(c0);
      assert c[..n] == c0;
      IdRangeAppend(0, Sum(c0), c[n]);
    }
  }

  /** Across the corpus the annotation ids are exactly 0, 1, ..., N-1 in
      image-then-detection order, where N is the number of kept detections:
      strictly increasing and free of duplicates. */
  lemma CorpusIdsContiguous(s: Settings, b: Backend, imgs: seq<Image>)
    requires CoversAll(s, b, imgs)
    ensures Concat(CorpusIds(s, b, imgs)) == IdRange(0, Sum(KeptCounts(s, b, imgs)))
    ensures StrictlyIncreasing(Concat(CorpusIds(s, b, imgs)))
  {
    var c := KeptCounts(s, b, imgs);
    var ids := CorpusIds(s, b, imgs);
    var blocks := seq(|c|, k requires 0 <= k < |c| => IdRange(Sum(c[..k]), c[k]));
    assert ids == blocks by {
      forall k | 0 <= k < |imgs|
        ensures ids[k] == blocks[k]
      {
        DeriveKeeps(s, b, imgs[k], FirstId(s, b, imgs, k));
      }
    }
    ConcatBlocks(c);
  }

  function RecordImages(rs: seq<Record>): (r: seq<Image>)
    ensures |r| == |rs|
    ensures forall k :: 0 <= k < |rs| ==> r[k] == rs[k].image
  {
    seq(|rs|, k requires 0 <= k < |rs| => rs[k].image)
  }

  /** The elements from position `k` on after inference, the first of them numbered
      from `firstId`: each is populated from its own image, and the ids continue
      after those of the element before it. */
  function ProcessedFrom(s: Settings, b: Backend, before: seq<Record>, k: nat, firstId: int): (r: seq<Record>)
    requires CoversAll(s, b, RecordImages(before)) && k <= |before|
    ensures |r| == |before| - k
    decreases |before| - k
  {
    if k == |before| then []
    else
      var img := before[k].image;
      [ProcessedRecord(s, b, before[k], firstId)] +
        ProcessedFrom(s, b, before, k + 1, firstId + |Kept(s, b, img)|)
  }

  /** The corpus after inference. */
  function Processed(s: Settings, b: Backend, before: seq<Record>): (r: seq<Record>)
    requires CoversAll(s, b, RecordImages(before))
    ensures |r| == |before|
  {
    ProcessedFrom(s, b, before, 0, 0)
  }

  lemma {:induction false} ProcessedFromAt(s: Settings, b: Backend, before: seq<Record>, j: nat, k: nat)
    requires CoversAll(s, b, RecordImages(before)) && j <= k < |before|
    ensures ProcessedFrom(s, b, before, j, FirstId(s, b, RecordImages(before), j))[k - j] ==
      ProcessedRecord(s, b, before[k], FirstId(s, b, RecordImages(before), k))
    decreases k - j
  {
    var imgs := RecordImages(before);
    var f := FirstId(s, b, imgs, j);
    if j < k {
      FirstIdStep(s, b, imgs, j);
      ProcessedFromTail(s, b, before, j, k, f);
      ProcessedFromAt(s, b, before, j + 1, k);
    } else {
      ProcessedFromHead(s, b, before, j, f);
    }
  }

  /** The processed suffix from `j` starts with record `j`, numbered from `firstId`. */
  lemma ProcessedFromHead(s: Settings, b: Backend, before: seq<Record>, j: nat, firstId: int)
    requires CoversAll(s, b, RecordImages(before)) && j < |before|
    ensures ProcessedFrom(s, b, before, j, firstId)[0] == ProcessedRecord(s, b, before[j], firstId)
  {
  }

  /** The first id of the next image is past the detections kept in this one. */
  lemma FirstIdStep(s: Settings, b: Backend, imgs: seq<Image>, j: nat)
    requires CoversAll(s, b, imgs) && j < |imgs|
    ensures FirstId(s, b, imgs, j + 1) == FirstId(s, b, imgs, j) + |Kept(s, b, imgs[j])|
  {
    var counts := KeptCounts(s, b, imgs);
    assert counts[..j + 1] == counts[..j] + [counts[j]];
  }

  /** Past its head, the processed suffix from `j` is the processed suffix from `j + 1`. */
  lemma ProcessedFromTail(s: Settings, b: Backend, before: seq<Record>, j: nat, k: nat, firstId: int)
    requires CoversAll(s, b, RecordImages(before)) && j < k < |before|
    ensures ProcessedFrom(s, b, before, j, firstId)[k - j] ==
      ProcessedFrom(s, b, before, j + 1, firstId + |Kept(s, b, RecordImages(before)[j])|)[k - j - 1]
  {
  }

  lemma ProcessedAt(s: Settings, b: Backend, before: seq<Record>, k: nat)
    requires CoversAll(s, b, RecordImages(before)) && k < |before|
    ensures Processed(s, b, before)[k] ==
      ProcessedRecord(s, b, before[k], FirstId(s, b, RecordImages(before), k))
  {
    ProcessedFromAt(s, b, before, 0, k);
  }

  /** After inference every element keeps its image, identity fields and
      `iscrowd`, and carries the annotation ids of its image in the corpus-wide
      numbering. */
  lemma ProcessedKeeps(s: Settings, b: Backend, before: seq<Record>, k: nat)
    requires CoversAll(s, b, RecordImages(before)) && k < |before|
    ensures var r := Processed(s, b, before)[k];
      r.image == before[k].image && r.imageId == before[k].imageId && r.fileName == before[k].fileName &&
      r.width == before[k].width && r.height == before[k].height && r.iscrowd == before[k].iscrowd &&
      r.annotationsId == Some(CorpusIds(s, b, RecordImages(before))[k])
  {
    ProcessedAt(s, b, before, k);
  }

  /** One iteration of `process` moves element `i` to its processed state and
      `mask_id` past its kept detections. */
  lemma ProcessStep(s: Settings, b: Backend, before: seq<Record>, i: nat, maskId: int,
                    pre: Record, post: Record, count: nat)
    requires CoversAll(s, b, RecordImages(before)) && i < |before|
    requires maskId == Sum(KeptCounts(s, b, RecordImages(before))[..i])
    requires pre == before[i] && Covers(s, b, pre.image)
    requires post == ProcessedRecord(s, b, pre, maskId)
    requires count == |Kept(s, b, pre.image)|
    ensures post == Processed(s, b, before)[i]
    ensures maskId + count == Sum(KeptCounts(s, b, RecordImages(before))[..i + 1])
  {
    var counts := KeptCounts(s, b, RecordImages(before));
    ProcessedAt(s, b, before, i);
    assert counts[..i + 1][..i] == counts[..i];
  }

  /** Replacing position `i` of a part-processed corpus by its processed record. */
  lemma PrefixStep(target: seq<Record>, before: seq<Record>, i: nat)
    requires i < |target| == |before|
    ensures (target[..i] + before[i..])[i := target[i]] == target[..i + 1] + before[i + 1..]
  {
  }

  class Inferencer {
    const elements: seq<Element>
    const segment: bool
    const imgsz: int
    const conf: real
    const iou: real
    const classes: Option<seq<int>>
    const confDict: map<int, real>
    const minimizePoints: bool
    const useBoxPromptSam: bool
    /** The loaded models (detector and, on the box-prompt path, FastSAM) and the
        geometry routines they are used with. */
    const backend: Backend

    /** Every setting but the models has the source's default. */
    constructor (elements: seq<Element>, backend: Backend, segment: bool := false,
                 imgsz: int := 640, conf: real := 0.4, iou: real := 0.8,
                 classes: Option<seq<int>> := None, minimizePoints: bool := true,
                 useBoxPromptSam: bool := false, confDict: map<int, real> := map[])
      ensures this.elements == elements && this.segment == segment && this.imgsz == imgsz
      ensures this.conf == conf && this.iou == iou && this.backend == backend
      ensures this.classes == classes && this.minimizePoints == minimizePoints
      ensures this.useBoxPromptSam == useBoxPromptSam && this.confDict == confDict
    {
      this.elements := elements;
      this.segment := segment;
      this.imgsz := imgsz;
      this.conf := conf;
      this.iou := iou;
      this.backend := backend;
      this.classes := classes;
      this.minimizePoints := minimizePoints;
      this.useBoxPromptSam := useBoxPromptSam;
      this.confDict := confDict;
    }

    function Configuration(): Settings
    {
      Settings(segment, minimizePoints, useBoxPromptSam, confDict, PredictOptions(imgsz, conf, iou, classes))
    }

    /** `minimize_contours`: the simplified contour of every mask whose position is
        in `filteredIndices`, in mask order. */
    method MinimizeContours(masks: seq<RawMask>, filteredIndices: seq<nat>, image: Image)
      returns (minimized: seq<seq<int>>)
      ensures minimized == MinimizedMasks(backend, masks, filteredIndices, image)
      ensures StrictlyIncreasing(filteredIndices) && AllBelow(filteredIndices, |masks|) ==>
        |minimized| == |filteredIndices| &&
        forall k :: 0 <= k < |minimized| ==> minimized[k] == backend.simplify(masks[filteredIndices[k]], image)
    {
      var simplify := backend.simplify;
      ghost var all := AllContours(backend, masks, image);
      minimized := [];
      var i := 0;
      while i < |masks|
        invariant 0 <= i <= |masks|
        invariant minimized == Select(all[..i], filteredIndices)
      {
        assert all[..i + 1][..i] == all[..i];
        if i in filteredIndices {
          var contour := simplify(masks[i], image);
          minimized := minimized + [contour];
        }
        i := i + 1;
      }
      assert all[..i] == all;
      if StrictlyIncreasing(filteredIndices) && AllBelow(filteredIndices, |masks|) {
        SelectAt(all, filteredIndices);
      }
    }

    /** The box-prompt loop: one FastSAM mask per box, in box order. */
    method BoxPromptMasks(image: Image, bbox: seq<Box>) returns (masks: seq<seq<real>>)
      ensures |masks| == |bbox|
      ensures forall i :: 0 <= i < |bbox| ==> masks[i] == PromptMaskPoints(minimizePoints, backend, image, bbox[i])
    {
      var detected: seq<seq<real>> := [];
      var i := 0;
      while i < |bbox|
        invariant 0 <= i <= |bbox|
        invariant |detected| == i
        invariant forall j :: 0 <= j < i ==> detected[j] == PromptMaskPoints(minimizePoints, backend, image, bbox[j])
      {
        var box := bbox[i];
        var ann := backend.boxPrompt(image, PromptBox(box));
        var mask: seq<real>;
        if minimizePoints {
          var contours := MinimizeContours([ann.data], [0], image);
          mask := IntsAsReals(contours[0]);
        } else {
          mask := Flatten(ann.xy);
        }
        detected := detected + [mask];
        i := i + 1;
      }
      masks := seq(|detected|, i requires 0 <= i < |detected| => AsFloats(detected[i]));
    }

    /** One iteration of `process`: predicts, filters and fills `element` in place;
        returns the number of kept detections, by which `mask_id` advances. */
    method ProcessOne(element: Element, maskId: int) returns (count: nat)
      requires Covers(Configuration(), backend, element.image)
      modifies element
      ensures element.image == old(element.image)
      ensures count == |Kept(Configuration(), backend, element.image)|
      ensures element.Snapshot() == ProcessedRecord(Configuration(), backend, old(element.Snapshot()), maskId)
    {
      var options := PredictOptions(imgsz, conf, iou, classes);
      var predictions := backend.predict(element.image, options);
      var filteredIndices := FilteredIndices(confDict, predictions.dets);
      var bbox := KeptBoxes(predictions.dets, filteredIndices);
      element.bbox := Some(bbox);
      element.categoryId := Some(KeptClasses(predictions.dets, filteredIndices));
      element.annotationsId := Some(IdRange(maskId, |filteredIndices|));
      FillMasks(element, predictions, filteredIndices, bbox);
      count := |element.annotationsId.value|;
    }

    /** The segmentation branch of one iteration of `process`: sets the masks,
        the areas and, where the source does, `isscrowd`. */
    method FillMasks(element: Element, predictions: Prediction, filteredIndices: seq<nat>, bbox: seq<Box>)
      requires bbox == KeptBoxes(predictions.dets, filteredIndices)
      modifies element
      ensures var mf := DeriveMasks(Configuration(), backend, element.image, predictions, filteredIndices);
        element.Snapshot() == old(element.Snapshot()).(detectedMasks := mf.masks, areas := Some(mf.areas),
          isscrowd := if mf.isscrowd.Some? then mf.isscrowd else old(element.isscrowd))
    {
      if segment && useBoxPromptSam {
        var masks := BoxPromptMasks(element.image, bbox);
        element.detectedMasks := masks;
        element.areas := Some(seq(|masks|, _ => 0.0));
        element.isscrowd := Some(0);
      } else if segment && predictions.masks.Some? {
        var m := predictions.masks.value;
        if minimizePoints {
          var contours := MinimizeContours(m.data, filteredIndices, element.image);
          element.detectedMasks := AllAsReals(contours);
        } else {
          element.detectedMasks := Select(AllFlattened(m.xy), filteredIndices);
        }
        element.areas := Some(NativeAreas(backend, m, filteredIndices));
        element.isscrowd := Some(0);
      } else {
        // box-only mode, or a model without masks (the source's AttributeError handler)
        element.detectedMasks := [];
        element.areas := Some(BoxAreas(bbox));
      }
    }

    /** Processes element `i` of a list of distinct elements; the others keep their state. */
    method ProcessAt(es: seq<Element>, i: nat, maskId: int) returns (count: nat)
      requires Distinct(es) && i < |es|
      requires Covers(Configuration(), backend, es[i].image)
      modifies es[i]
      ensures es[i].image == old(es[i].image)
      ensures count == |Kept(Configuration(), backend, es[i].image)|
      ensures Records(es) == old(Records(es))[i := ProcessedRecord(Configuration(), backend, old(es[i].Snapshot()), maskId)]
    {
      count := ProcessOne(es[i], maskId);
      forall k | 0 <= k < |es| && k != i
        ensures Records(es)[k] == old(Records(es))[k]
      {
        assert es[k] != es[i];
      }
    }

    /** The state of the loop of `process` after `i` elements: those are processed,
        the others untouched, and `maskId` counts the detections kept so far. */
    ghost predicate Progress(es: seq<Element>, i: nat, maskId: int, before: seq<Record>, target: seq<Record>)
      reads es
    {
      && i <= |es| == |before|
      && CoversAll(Configuration(), backend, RecordImages(before))
      && target == Processed(Configuration(), backend, before)
      && maskId == Sum(KeptCounts(Configuration(), backend, RecordImages(before))[..i])
      && Records(es) == target[..i] + before[i..]
    }

    /** One turn of the loop of `process`: element `i` goes to its processed state
        and `mask_id` advances by its kept detections. */
    method Advance(es: seq<Element>, i: nat, maskId: int, ghost before: seq<Record>, ghost target: seq<Record>)
      returns (next: int)
      requires Distinct(es) && i < |es|
      requires Progress(es, i, maskId, before, target)
      modifies es[i]
      ensures Progress(es, i + 1, next, before, target)
    {
      ghost var pre := es[i].Snapshot();
      assert pre == before[i] by {
        assert Records(es)[i] == (target[..i] + before[i..])[i];
      }
      var count := ProcessAt(es, i, maskId);
      ProcessStep(Configuration(), backend, before, i, maskId, pre, es[i].Snapshot(), count);
      PrefixStep(target, before, i);
      next := maskId + count;
    }

    /** `process`: fills every element in place, numbering the kept detections of the
        whole corpus from 0, and returns the same list. */
    method Process() returns (r: seq<Element>)
      requires Distinct(elements)
      requires CoversAll(Configuration(), backend, RecordImages(Records(elements)))
      modifies elements
      ensures r == elements
      ensures Records(elements) == Processed(Configuration(), backend, old(Records(elements)))
    {
      var es := elements;
      ghost var before := Records(es);
      ghost var target := Processed(Configuration(), backend, before);
      var maskId := 0;
      var i := 0;
      while i < |es|
        invariant i <= |es|
        invariant Progress(es, i, maskId, before, target)
      {
        maskId := Advance(es, i, maskId, before, target);
        i := i + 1;
      }
      assert target[..|es|] + before[|es|..] == target;
      r := elements;
    }
  }
}
