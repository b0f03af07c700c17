/** Worked examples: the model evaluated on small concrete inputs. */
module Scenarios {
  import opened Wrappers
  import opened Seqs
  import opened Elements
  import opened DataGen
  import opened Inference
  import opened AnnotMaker

  /** A corner box `10, 20, 50, 80` becomes the COCO box `10, 20, 40, 60`, whose
      box-only area is 2400; its box prompt is the original corners. */
  lemma CornerBoxExample()
    ensures ToCoco(Corner(10.0, 20.0, 50.0, 80.0)) == Box(10.0, 20.0, 40.0, 60.0)
    ensures BoxAreas([ToCoco(Corner(10.0, 20.0, 50.0, 80.0))]) == [2400.0]
    ensures PromptBox(ToCoco(Corner(10.5, 20.0, 50.9, 80.0))) == [10, 20, 50, 80]
  {
    assert Trunc(10.5) == 10 && Trunc(50.9) == 50;
  }

  /** Python's `int()` truncates a negative coordinate toward zero. */
  lemma TruncExample()
    ensures Trunc(-2.5) == -2 && Trunc(2.5) == 2
  {
  }

  function FilterDets(): seq<Detection> {
    var c := Corner(0.0, 0.0, 1.0, 1.0);
    [Detection(c, 0, 0.6), Detection(c, 1, 0.8), Detection(c, 0, 0.5)]
  }

  /** Per-class thresholds keep a detection whose confidence reaches its class's
      threshold: 0.6 and 0.5 reach class 0's 0.5, 0.8 misses class 1's 0.9. */
  lemma ConfidenceFilterExample()
    ensures FilteredIndices(map[0 := 0.5, 1 := 0.9], FilterDets()) == [0, 2]
  {
    var dets := FilterDets();
    var d0, d1 := dets[0], dets[1];
    var m := map[0 := 0.5, 1 := 0.9];
    assert dets[..2] == [d0, d1] && [d0, d1][..1] == [d0] && [d0][..0] == [];
    assert KeepConfident(m, [d0]) == [0];
    assert KeepConfident(m, [d0, d1]) == [0];
  }

  /** Without thresholds every detection is kept. */
  lemma NoThresholdsExample()
    ensures FilteredIndices(map[], FilterDets()) == [0, 1, 2]
  {
    var all := FilteredIndices(map[], FilterDets());
    assert all[0] == 0 && all[1] == 1 && all[2] == 2;
  }

  /** A detector that finds a confident box of class 0 and a weak one of class 2. */
  function ExamplePredict(img: Image, o: PredictOptions): (p: Prediction)
    ensures |p.dets| == 2 && p.masks == None
  {
    Prediction([Detection(Corner(10.0, 20.0, 50.0, 80.0), 0, 0.9), Detection(Corner(0.0, 0.0, 1.0, 1.0), 2, 0.3)], None)
  }

  function ExamplePrompt(img: Image, box: seq<int>): SamMask {
    SamMask([], [])
  }

  function ExampleSimplify(m: RawMask, img: Image): seq<int> {
    []
  }

  function ExampleArea(p: Polygon): real {
    0.0
  }

  function ExampleBackend(): Backend {
    Backend(ExamplePredict, ExamplePrompt, ExampleSimplify, ExampleArea)
  }

  /** Box-only mode with a threshold of 0.5 for classes 0 and 2. */
  function ExampleSettings(): Settings {
    Settings(false, true, false, map[0 := 0.5, 2 := 0.5], PredictOptions(640, 0.4, 0.8, None))
  }

  /** Only the confident detection is kept. */
  lemma ExampleKept(img: Image)
    ensures Covers(ExampleSettings(), ExampleBackend(), img)
    ensures Kept(ExampleSettings(), ExampleBackend(), img) == [0]
  {
    var dets := ExamplePredict(img, ExampleSettings().options).dets;
    var m := ExampleSettings().confDict;
    assert 0 in m;
    assert dets[..1] == [dets[0]] && [dets[0]][..0] == [];
    assert KeepConfident(m, [dets[0]]) == [0];
    assert KeepConfident(m, dets) == [0];
  }

  /** The fields derived from the kept position 0. */
  lemma ExampleFields(dets: seq<Detection>)
    requires dets == ExamplePredict(Image(0, 0, []), ExampleSettings().options).dets
    ensures KeptBoxes(dets, [0]) == [Box(10.0, 20.0, 40.0, 60.0)]
    ensures KeptClasses(dets, [0]) == [1]
    ensures BoxAreas(KeptBoxes(dets, [0])) == [2400.0]
    ensures IdRange(5, 1) == [5]
  {
    SelectAt(AllBoxes(dets), [0]);
    SelectAt(AllClasses(dets), [0]);
    var areas := BoxAreas(KeptBoxes(dets, [0]));
    assert areas[0] == 40.0 * 60.0;
  }

  /** Box-only inference of one image numbered from 5: the low-confidence
      detection is dropped, the kept one gets class id 1, id 5 and its box area. */
  lemma DetectOnlyExample(img: Image)
    ensures Covers(ExampleSettings(), ExampleBackend(), img)
    ensures Derive(ExampleSettings(), ExampleBackend(), img, 5) ==
      Derived([Box(10.0, 20.0, 40.0, 60.0)], [1], [5], [], [2400.0], None)
  {
    ExampleKept(img);
    var dets := ExamplePredict(img, ExampleSettings().options).dets;
    assert dets == ExamplePredict(Image(0, 0, []), ExampleSettings().options).dets;
    ExampleFields(dets);
  }

  /** Names are matched case-insensitively on their extension. */
  lemma ExtensionExample()
    ensures HasImageExtension("photo.JPG") && HasImageExtension("scan.jpeg")
    ensures !HasImageExtension("notes.txt") && !HasImageExtension("png")
  {
    assert Lower("photo.JPG")[5..] == ".jpg";
    assert Lower("scan.jpeg")[4..] == ".jpeg";
    assert Lower("notes.txt")[5..] == ".txt";
  }

  function ExampleListing(img: Image): seq<Entry> {
    [Entry("a.png", true, Decoded(img)), Entry("notes.txt", true, NotAnImage),
     Entry("b.JPG", true, ReadRaises), Entry("c.jpg", true, Decoded(img))]
  }

  /** Of a listing with an image, a text file, a file whose read raises and a
      second image, the two images are accepted. */
  lemma ListingAccepted(img: Image)
    ensures AcceptedPositions(ExampleListing(img)) == [0, 3]
  {
    var listing := ExampleListing(img);
    var e0, e1, e2, e3 := listing[0], listing[1], listing[2], listing[3];
    ListingNames();
    assert listing[..3] == [e0, e1, e2] && [e0, e1, e2][..2] == [e0, e1];
    assert [e0, e1][..1] == [e0] && [e0][..0] == [];
    assert AcceptedPositions([e0]) == [0];
    assert AcceptedPositions([e0, e1]) == [0];
    assert AcceptedPositions([e0, e1, e2]) == [0];
  }

  /** Skipped and failing files leave gaps in the image ids: the two decodable
      images at listing positions 0 and 3 get ids 1 and 4. */
  lemma ListingExample(img: Image)
    ensures BuiltFrom(ExampleListing(img),
      [Initial(img, 1, "a.png", img.width, img.height), Initial(img, 4, "c.jpg", img.width, img.height)])
  {
    var listing := ExampleListing(img);
    var rs := [Initial(img, 1, "a.png", img.width, img.height), Initial(img, 4, "c.jpg", img.width, img.height)];
    ListingAccepted(img);
    ListingNames();
    assert Accepted(listing[0]) && rs[0] == ElementFor(listing[0], 0);
    assert Accepted(listing[3]) && rs[1] == ElementFor(listing[3], 3);
  }

  lemma ListingNames()
    ensures HasImageExtension("a.png") && HasImageExtension("c.jpg")
  {
    assert Lower("a.png")[1..] == ".png";
    assert Lower("c.jpg")[1..] == ".jpg";
  }

  /** `cat` is listed with ids 0 and 3 and `dog` with 1: the dictionary keeps the
      names in order of first appearance and the ids in zip order. */
  lemma CategoryExample()
    ensures Grouped(Zip(["cat", "dog", "cat"], [0, 1, 3])) == [Group("cat", [0, 3]), Group("dog", [1])]
    ensures Categories([Group("cat", [0, 3]), Group("dog", [1])]) == [Category(1, "cat", ""), Category(2, "dog", "")]
  {
    var ps := Zip(["cat", "dog", "cat"], [0, 1, 3]);
    assert ps == [("cat", 0), ("dog", 1), ("cat", 3)];
    assert ps[..2] == [("cat", 0), ("dog", 1)];
    assert ps[..2][..1] == [("cat", 0)];
    assert [("cat", 0)][..0] == [];
    assert Grouped([("cat", 0)]) == [Group("cat", [0])];
    assert IndexOfName([Group("cat", [0])], "dog") == None;
    assert Grouped(ps[..2]) == [Group("cat", [0]), Group("dog", [1])];
    assert IndexOfName([Group("cat", [0]), Group("dog", [1])], "cat") == Some(0);
    assert Grouped(ps) == AddToGroup(Grouped(ps[..2]), "cat", 3);
    var g := [Group("cat", [0]), Group("dog", [1])];
    assert g[0].ids + [3] == [0, 3];
    assert g[0 := g[0].(ids := g[0].ids + [3])] == [Group("cat", [0, 3]), Group("dog", [1])];
  }

  /** In that dictionary class id 4 (id 3 + 1) is reported as `cat`'s category 1;
      class id 3 (id 2) belongs to no alias list, and the lookup raises. */
  lemma ResolveExample()
    ensures Resolve([Group("cat", [0, 3]), Group("dog", [1])], 4) == Ok(1)
    ensures Resolve([Group("cat", [0, 3]), Group("dog", [1])], 3) == Err(CategoryNotFound(3))
  {
    var d := [Group("cat", [0, 3]), Group("dog", [1])];
    assert FirstHolding(d, 3) == Some(0);
    assert 2 !in d[0].ids && d[1..] == [Group("dog", [1])];
    assert FirstHolding(d[1..], 2) == None by {
      assert d[1..][1..] == [];
    }
  }

  /** The category of a name is its FIRST-listed id + 1, not its smallest. */
  lemma FirstListedAliasExample()
    ensures Grouped(Zip(["cat", "cat"], [3, 0])) == [Group("cat", [3, 0])]
    ensures Categories([Group("cat", [3, 0])]) == [Category(4, "cat", "")]
    ensures Resolve([Group("cat", [3, 0])], 1) == Ok(4)
  {
    var ps := Zip(["cat", "cat"], [3, 0]);
    assert ps == [("cat", 3), ("cat", 0)];
    assert ps[..1] == [("cat", 3)];
    assert [("cat", 3)][..0] == [];
    assert Grouped(ps[..1]) == [Group("cat", [3])];
    assert IndexOfName([Group("cat", [3])], "cat") == Some(0);
    assert Grouped(ps) == AddToGroup(Grouped(ps[..1]), "cat", 0);
    var g := [Group("cat", [3])];
    assert g[0].ids + [0] == [3, 0];
    assert g[0 := g[0].(ids := g[0].ids + [0])] == [Group("cat", [3, 0])];
  }

  /** One element with two detections and no masks: two annotations numbered 1
      and 2, each with an empty segmentation and `{occluded, rotation: 0}`. */
  lemma BoxOnlyDocumentExample()
    ensures var r := Record(Image(100, 200, []), 7, "a.png", 200, 100,
                            Some([2, 1]), Some([Box(1.0, 2.0, 3.0, 4.0), Box(5.0, 6.0, 7.0, 8.0)]), [],
                            Some([0, 1]), Some([12.0, 56.0]), 0, None);
      var d := [Group("cat", [0]), Group("dog", [1])];
      AllAnnotations(d, [r]) == Ok([
        Annotation(1, 7, 2, [], Box(1.0, 2.0, 3.0, 4.0), 12.0, 0, Attributes(false, Some(0))),
        Annotation(2, 7, 1, [], Box(5.0, 6.0, 7.0, 8.0), 56.0, 0, Attributes(false, Some(0)))])
  {
    var r := Record(Image(100, 200, []), 7, "a.png", 200, 100,
                    Some([2, 1]), Some([Box(1.0, 2.0, 3.0, 4.0), Box(5.0, 6.0, 7.0, 8.0)]), [],
                    Some([0, 1]), Some([12.0, 56.0]), 0, None);
    var d := [Group("cat", [0]), Group("dog", [1])];
    assert [r][..0] == [];
    assert DetectionCount(r) == 2;
    assert FirstHolding(d, 1) == Some(1) by {
      assert d[1..] == [Group("dog", [1])];
    }
    assert FirstHolding(d, 0) == Some(0);
    assert Resolve(d, 2) == Ok(2);
    assert Resolve(d, 1) == Ok(1);
    var a1 := Annotation(1, 7, 2, [], Box(1.0, 2.0, 3.0, 4.0), 12.0, 0, Attributes(false, Some(0)));
    var a2 := Annotation(2, 7, 1, [], Box(5.0, 6.0, 7.0, 8.0), 56.0, 0, Attributes(false, Some(0)));
    assert MakeAnnotation(d, r, 0, 1) == Ok(a1);
    assert MakeAnnotation(d, r, 1, 2) == Ok(a2);
    assert DetectionAnnotations(d, r, 0, 1) == Ok([]);
    assert [] + [a1] == [a1] && [a1] + [a2] == [a1, a2];
    assert DetectionAnnotations(d, r, 1, 1) == Ok([a1]);
    assert DetectionAnnotations(d, r, 2, 1) == Ok([a1, a2]);
    assert ElementAnnotations(d, r, 1) == Ok([a1, a2]);
    assert AllAnnotations(d, [r][..0]) == Ok([]);
    assert [] + [a1, a2] == [a1, a2];
  }

  /** An element whose detection fields were never set raises `TypeError`. */
  lemma UnsetElementExample()
    ensures var r := Initial(Image(1, 1, []), 1, "a.png", 1, 1);
      AllAnnotations([], [r]) == Err(NotIterable(1))
  {
    var r := Initial(Image(1, 1, []), 1, "a.png", 1, 1);
    assert [r][..0] == [];
  }

  /** An inferencer built from elements and models alone detects without
      segmenting, at 640 pixels, confidence 0.4 and IoU 0.8, for every class,
      simplifying contours, without box prompts and with no per-class thresholds. */
  method DefaultInferencer(elements: seq<Element>, backend: Backend) returns (inf: Inferencer)
    ensures inf.elements == elements && inf.backend == backend
    ensures inf.Configuration() == Settings(false, true, false, map[], PredictOptions(640, 0.4, 0.8, None))
  {
    inf := new Inferencer(elements, backend);
  }
}
