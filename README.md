# AutoCVAT detection-to-COCO core, modelled in Dafny

AutoCVAT pre-annotates a folder of images for CVAT. Three stages run one after another:

- **`DataGen.process`** turns a directory listing into `Element` records.
- **`Inferencer.process`** runs a detector on each image and fills each record in place:
  - it keeps the detections that reach their class's confidence threshold;
  - it stores their boxes in COCO form and their class ids shifted to 1-based;
  - it numbers them across the whole corpus;
  - it chooses masks and areas along one of four paths: box-only, native segmentation, FastSAM box prompt, or the fallback for a model without masks.
- **`COCOConverter`** groups the category ids by name and assembles the COCO document from the filled records. The document has categories, images and annotations; each annotation is numbered from 1, and its category is resolved by a reverse lookup over the alias lists.

Modules and files:

| file | module | models |
|---|---|---|
| `wrappers.dfy` | `Wrappers` | `Option` and `Result` |
| `seqs.dfy` | `Seqs` | positional selection (`[x for i, x in enumerate(s) if i in idx]`), sums, concatenation and id ranges |
| `element.dfy` | `Elements` | the `Element` class and `Record`, the value of all its fields at one moment |
| `datagen.dfy` | `DataGen` | folder ingestion |
| `inference.dfy` | `Inference` | the `Inferencer` class |
| `annot_maker.dfy` | `AnnotMaker` | the category dictionary, the document and the `COCOConverter` class |
| `scenarios.dfy` | `Scenarios` | worked examples on concrete inputs |

How the model is built:

- **Mutable objects are classes.** `Element`, `DataGen`, `Inferencer` and `COCOConverter` are classes. `Inferencer.Process` updates the elements in place.
- **Specification functions.** Each loop is proved against a function of the old state: `Processed`, `BuiltFrom`, `Grouped`, `AllAnnotations`/`CocoDocument`. Lemmas then prove what the source promises about that function.
- **Collaborators are given functions.** The YOLO predictor, the FastSAM box prompt, the OpenCV contour simplification and the shapely polygon area are function-valued fields of a `Backend` datatype. The directory listing, `os.path.isfile` and `cv2.imread` are a `map` from folder path to a sequence of `Entry` values. Each entry says whether the name is a regular file and whether reading it decodes, returns `None`, or raises.
- **Numbers.** Coordinates, confidences and areas are exact `real`s. Python's `int()` on a float is modelled as truncation toward zero (`Trunc`).
- **Errors are values.** The converter's exceptions are a `Result` error:
  - `IndexError` when no alias list holds a class (`CategoryNotFound`);
  - `IndexError` when an element has fewer masks than detections (`MaskMissing`);
  - `TypeError` when an element's detection fields were never set (`NotIterable`).

The model follows the code as written:

- **Category id.** A category's id is its name's *first-listed* id + 1 (nodes/AnnotMaker.py:39 and :74). `Scenarios.FirstListedAliasExample` shows a name whose first-listed id is not its smallest.
- **Annotation ids.** The assembler numbers annotations 1, 2, 3, … and ignores the ids inference attached to the elements (nodes/AnnotMaker.py:60 and :88). Inference's own ids start at 0 (nodes/Inference.py:67 and :108).
- **The misspelt `isscrowd`.** Inference sets a field `isscrowd` (nodes/Inference.py:162 and :196), which the assembler never reads. The assembler reads `iscrowd`, which stays at its initial 0. The model keeps both fields.
- **Empty masks.** `minimize_contours` has no empty-mask case: `max` over no contours raises. The model's `simplify` collaborator is total, and the raise is listed under "Left out".
- **Unresolvable classes.** An unresolvable class raises `IndexError` from `[0]` on an empty filter result, and the model returns that as an error value.

## Model

| member | source | states |
|---|---|---|
| Elements.Element.constructor | elements/Element.py:6-19 | the image, id, file name, width and height are stored unchanged; category ids, boxes, annotation ids and areas are unset; masks are empty; `iscrowd` is 0 |
| DataGen.AcceptedPositions | nodes/Datagen.py:34-43 | the accepted listing positions are strictly increasing and inside the listing |
| DataGen.AcceptedPositionsMembers | nodes/Datagen.py:37-43 | position p is accepted iff the entry is a regular file, its lower-cased name ends in `.jpg`, `.jpeg` or `.png`, and it decodes |
| DataGen.Lower | nodes/Datagen.py:38 | the result has the input's length and no upper-case ASCII letter; each upper-case letter becomes its lower-case letter (code point + 32) and every other character is kept |
| DataGen.ExtensionIgnoresCase | nodes/Datagen.py:38 | the image-extension test gives the same answer on a name and on its lower-cased form |
| DataGen.BuiltFromStep | nodes/Datagen.py:34-58 | one more listing entry appends exactly its element when accepted, and otherwise (not a file, wrong extension, `None` read, or a caught exception) changes nothing |
| DataGen.BuiltFromIds | nodes/Datagen.py:34-44 | built image ids lie in 1..len(listing) and strictly increase, so they are unique |
| DataGen.Ingest | nodes/Datagen.py:35-58 | one loop turn keeps the elements built so far and appends a fresh element for an accepted entry, numbered position + 1 and sized by the decoded image |
| DataGen.DataGen.constructor | nodes/Datagen.py:13-20 | stores the folder path |
| DataGen.DataGen.Process | nodes/Datagen.py:22-60 | `None` iff the folder does not exist; otherwise one fresh, distinct element per accepted entry, in listing order, with the listed name, the listing position + 1 as id and the image's shape; ids are in range and strictly increasing |
| Inference.KeepConfident | nodes/Inference.py:83-92 | the kept positions are strictly increasing and below the detection count |
| Inference.KeepConfidentMembers | nodes/Inference.py:83-92 | i is kept iff it is a detection position and `conf_dict[cls_i] <= conf_i` |
| Inference.FilteredIndices | nodes/Inference.py:82-94 | the filtered positions are strictly increasing and valid |
| Inference.FilteredIndicesMembers | nodes/Inference.py:82-94 | with a non-empty threshold map, i is kept iff its confidence reaches its class's threshold; with an empty map, every position is kept |
| Inference.ToCoco | nodes/Inference.py:96-100 | the COCO box has the same top-left corner, and x + w, y + h are the far corner |
| Inference.Trunc | nodes/Inference.py:131-134 | `int()` truncates toward zero: within 1 below a non-negative value, within 1 above a negative one |
| Inference.PromptBoxOfConverted | nodes/Inference.py:129-136 | the integer box prompt is the predictor's corners, truncated |
| Inference.KeptAligned | nodes/Inference.py:96-106 | boxes and 1-based class ids are kept for exactly the filtered positions, aligned and in order |
| Inference.Flatten | nodes/Inference.py:173-177 | flattening a point array gives 2n values, x then y for each point |
| Inference.AsFloats | nodes/Inference.py:178-188 | the `j % 2` comprehension leaves every coordinate unchanged (its two branches are identical) |
| Inference.DeriveKeeps | nodes/Inference.py:96-108 | each kept detection k of an image gets its COCO box, class + 1, and annotation id `mask_id + k` |
| Inference.BoxOnlyAreas | nodes/Inference.py:197-203 | in box-only mode and for a model without masks, there are no masks, `isscrowd` is left alone, and each area is the kept box's w * h |
| Inference.BoxPromptShape | nodes/Inference.py:113-162 | on the box-prompt path there is one prompted mask per kept box, every area is 0, and `isscrowd` is 0 |
| Inference.NativeAreasAt | nodes/Inference.py:190-194 | each area is the polygon area of the predictor's mask at the kept position |
| Inference.NativeMasksAt | nodes/Inference.py:166-188 | each mask is the simplified contour, or the flattened polygon, of the predictor's mask at the kept position |
| Inference.NativeShape | nodes/Inference.py:164-196 | on the native segmentation path, masks and areas are one per kept detection, taken from the same position, and `isscrowd` is 0 |
| Inference.DerivedShape | nodes/Inference.py:96-203 | boxes, class ids, areas and annotation ids have equal length, and there are either no masks or one per box |
| Inference.ConcatBlocks | nodes/Inference.py:204 | ranges of consecutive sizes starting at running sums concatenate to 0..N-1 |
| Inference.CorpusIdsContiguous | nodes/Inference.py:67-204 | across the corpus, the annotation ids are exactly 0..N-1 in image-then-detection order, strictly increasing and without duplicates |
| Inference.ProcessedAt | nodes/Inference.py:69-204 | element k after inference is its old record populated with ids starting at the count of detections kept before it |
| Inference.ProcessedKeeps | nodes/Inference.py:69-205 | inference keeps each element's image, id, file name, size and `iscrowd`, and gives it its slice of the corpus-wide ids |
| Inference.ProcessStep | nodes/Inference.py:69-204 | one iteration produces element i's processed state and advances `mask_id` to the kept count of the first i + 1 images |
| Inference.Inferencer.constructor | nodes/Inference.py:21-49 | stores the elements, the options, the threshold map and the collaborators; every option left out takes the source's default |
| Scenarios.DefaultInferencer | nodes/Inference.py:21-33 | an inferencer given only elements and models does not segment, predicts at 640 pixels with confidence 0.4 and IoU 0.8 for every class, simplifies contours, uses no box prompts and has no per-class thresholds |
| Inference.Inferencer.MinimizeContours | nodes/Inference.py:207-241 | one simplified contour per mask whose position is listed, in mask order |
| Inference.Inferencer.BoxPromptMasks | nodes/Inference.py:113-158 | one mask per box, in box order: the box prompt's mask, simplified or flattened |
| Inference.Inferencer.FillMasks | nodes/Inference.py:109-203 | sets masks, areas and (except on the box-only and no-mask paths) `isscrowd` as the mask-handling branch chosen for this image does, and changes nothing else |
| Inference.Inferencer.ProcessOne | nodes/Inference.py:70-204 | one element is filled in place with its processed record; the returned count is its kept detections |
| Inference.Inferencer.ProcessAt | nodes/Inference.py:69-204 | processing element i of distinct elements leaves every other element unchanged |
| Inference.Inferencer.Advance | nodes/Inference.py:69-204 | one loop turn preserves the loop state: i elements processed, the rest untouched, `mask_id` = detections kept so far |
| Inference.Inferencer.Process | nodes/Inference.py:60-205 | returns the same list, with every element filled in place as `Processed` describes |
| AnnotMaker.AddToGroupEffect | nodes/AnnotMaker.py:28 | appending to the dictionary extends an existing name's list in place, or adds a one-id entry at the end |
| AnnotMaker.DedupMembers | nodes/AnnotMaker.py:26-29 | the dictionary's reference key list has exactly the listed names, each once |
| AnnotMaker.DedupOrder | nodes/AnnotMaker.py:26-29 | the reference key list is in order of first appearance |
| AnnotMaker.GroupedSpec | nodes/AnnotMaker.py:26-29 | `category_dict` maps each distinct name, in order of first appearance, to the ids paired with it in zip order |
| AnnotMaker.GroupedFirstIds | nodes/AnnotMaker.py:26-29 | every entry is non-empty, the names are distinct, and each entry's first id is the one paired with its name's first occurrence |
| AnnotMaker.CategoriesOfGrouped | nodes/AnnotMaker.py:26-41 | one category per distinct name, in order of first appearance, numbered by the id of that name's first occurrence + 1 |
| AnnotMaker.FirstHolding | nodes/AnnotMaker.py:68-74 | finds the first alias list holding an id, or proves that none does |
| AnnotMaker.ResolveSpec | nodes/AnnotMaker.py:68-76 | the lookup succeeds iff some list holds `category_id - 1`, giving the first such list's first id + 1, which is some category's id; otherwise it raises |
| AnnotMaker.ResolveAlias | nodes/AnnotMaker.py:68-76 | when all zipped ids are distinct, a pair's class id + 1 resolves to the id of its name's first occurrence + 1 |
| AnnotMaker.DetectionCount | nodes/AnnotMaker.py:64 | the zip over boxes, areas and class ids yields as many detections as the shortest of the three |
| AnnotMaker.MakeAnnotation | nodes/AnnotMaker.py:65-86 | an annotation is built iff its class resolves and the element has no masks or a mask at this position; it carries the given id |
| AnnotMaker.DetectionAnnotationsOk | nodes/AnnotMaker.py:63-89 | an element's first n detections assemble iff none of them raises |
| AnnotMaker.DetectionAnnotationsValues | nodes/AnnotMaker.py:63-89 | n assembled detections give n annotations, each the one made from its detection, with consecutive ids |
| AnnotMaker.DetectionAnnotationsFirstError | nodes/AnnotMaker.py:64-87 | a failing element raises the error of its first failing detection |
| AnnotMaker.DetectionErrorStops | nodes/AnnotMaker.py:64-89 | once a detection raises, the element raises that error |
| AnnotMaker.ElementAnnotationsSpec | nodes/AnnotMaker.py:61-89 | an element converts iff its fields are set, every class resolves, and it has no masks or enough masks; it then yields one annotation per zipped detection |
| AnnotMaker.ElementErrorStops | nodes/AnnotMaker.py:61-89 | once an element raises, the whole assembly raises that error |
| AnnotMaker.AllAnnotationsOk | nodes/AnnotMaker.py:59-89 | the assembly succeeds iff every element converts |
| AnnotMaker.AllAnnotationsLength | nodes/AnnotMaker.py:59-64 | a successful assembly yields one annotation per zipped detection of every element |
| AnnotMaker.AllAnnotationsAt | nodes/AnnotMaker.py:59-89 | detection c of element e becomes the annotation at its image-then-detection position |
| AnnotMaker.AnnotationIdsFromOne | nodes/AnnotMaker.py:59-89 | annotation ids are 1, 2, 3, … across the document, whatever ids inference assigned |
| AnnotMaker.AnnotationAt | nodes/AnnotMaker.py:65-86 | each annotation copies its element's image id and `iscrowd` and its detection's box and area, carries the resolved category, and has the element's mask with `{occluded}`, or an empty segmentation with `{occluded, rotation: 0}` |
| AnnotMaker.DocumentShape | nodes/AnnotMaker.py:36-105 | the document exists iff every element converts (otherwise it is the first element's error), and then carries the constant licenses and info blocks; one category per dictionary entry, in order, numbered by its first-listed id + 1 with supercategory ""; one image per element, in order, copying its id, width, height and file name with constant placeholders; and every annotation, as many as the elements' detections |
| AnnotMaker.AppendAnnotations | nodes/AnnotMaker.py:63-89 | the inner loop appends exactly the element's annotations, numbered on from the count so far, or stops with the first detection's error |
| AnnotMaker.COCOConverter.constructor | nodes/AnnotMaker.py:18-29 | the append loop builds the grouped dictionary, whose entries are all non-empty |
| AnnotMaker.COCOConverter.ConvertToCoco | nodes/AnnotMaker.py:31-105 | the nested loops produce exactly the specified document, or the first exception |
| Scenarios.CornerBoxExample | nodes/Inference.py:96-100 | box `10,20,50,80` becomes `10,20,40,60` with area 2400, and its prompt box truncates to the corners |
| Scenarios.TruncExample | nodes/Inference.py:131-134 | `int(-2.5)` is -2 and `int(2.5)` is 2 |
| Scenarios.ConfidenceFilterExample | nodes/Inference.py:83-92 | thresholds 0.5 and 0.9 keep confidences 0.6 and 0.5 and drop 0.8 |
| Scenarios.NoThresholdsExample | nodes/Inference.py:94 | with no threshold map, all detections are kept |
| Scenarios.ExampleKept | nodes/Inference.py:82-92 | a weak detection is dropped by its class threshold |
| Scenarios.ExampleFields | nodes/Inference.py:96-108 | the kept detection's box, class + 1, id and area |
| Scenarios.DetectOnlyExample | nodes/Inference.py:82-108 | the whole box-only derivation of one image, numbered from 5 |
| Scenarios.ExtensionExample | nodes/Datagen.py:37-39 | `photo.JPG` and `scan.jpeg` pass the extension check; `notes.txt` and `png` fail it |
| Scenarios.ListingNames | nodes/Datagen.py:37-39 | `a.png` and `c.jpg` pass the extension check |
| Scenarios.ListingAccepted | nodes/Datagen.py:34-58 | of an image, a text file, a read that raises and a second image, positions 0 and 3 are accepted |
| Scenarios.ListingExample | nodes/Datagen.py:34-58 | those two images get ids 1 and 4 |
| Scenarios.CategoryExample | nodes/AnnotMaker.py:26-41 | names cat, dog, cat with ids 0, 1, 3 group as {cat: [0, 3], dog: [1]} with category ids 1 and 2 |
| Scenarios.ResolveExample | nodes/AnnotMaker.py:68-76 | class id 4 resolves to cat's 1; class id 3 raises |
| Scenarios.FirstListedAliasExample | nodes/AnnotMaker.py:38-41 | names cat, cat with ids 3, 0 give category id 4, not 1 |
| Scenarios.BoxOnlyDocumentExample | nodes/AnnotMaker.py:59-89 | one element with two detections and no masks gives annotations 1 and 2, with empty segmentations and `{occluded, rotation: 0}` |
| Scenarios.UnsetElementExample | nodes/AnnotMaker.py:64 | an element never filled in raises `TypeError` |

## Left out

- Model loading and prediction (`YOLO(...)`, FastSAM, `FastSAMPrompt`, nodes/Inference.py:40-43,50-58,70-80,116-136) are external. The predictor's output and the box prompt's first mask are given by `Backend`.
- The OpenCV geometry of `minimize_contours` (resize, findContours, the largest contour, approxPolyDP, the cast to int; nodes/Inference.py:222-239) is one collaborator, `simplify`. It is total, so the `ValueError` that `max` raises for a mask with no contour is not modelled.
- The shapely polygon area (nodes/Inference.py:191) is the collaborator `polygonArea`, which is total. shapely's `Polygon` raises `ValueError` for a polygon of one or two points, which `except AttributeError` does not catch; that raise is not modelled.
- Inference.NativeShape: requires `MasksAligned`, that the predictor gives one raster mask and one polygon per detection. A prediction with fewer masks than detections is not covered.
- Inference.DerivedShape: requires `MasksAligned`, as `Inference.NativeShape` does, for the same reason.
- `json.dumps` (nodes/AnnotMaker.py:108) is not modelled. The result is the `Document` value, not its JSON text, so the int-versus-float distinction between mask coordinates is dropped (all are `real`).
- The FastSAM path's `[0]` on an empty box-prompt result (an `IndexError`) is not modelled: `boxPrompt` always returns a mask.
- Printing (nodes/Datagen.py:29,58; nodes/Inference.py:54-57) is not modelled.
- Which exceptions `cv2.imread` can raise is not modelled: every failure is the single outcome `ReadRaises`, caught and skipped.
- `os.listdir` order is taken as given.
- `Lower` handles ASCII letters only; other characters' case mappings are not modelled.
- Inference.Inferencer.Process: requires the elements to be distinct objects, so aliasing of one `Element` twice in the list is not modelled.
- Inference.Inferencer.Process: requires a non-empty `conf_dict` to hold every predicted class. The source would raise `KeyError` otherwise; its caller checks the keys beforehand (AutoCvat.py:93-96).
- The `AttributeError` raised for a model without masks is modelled as `masks == None` in the prediction, not as an exception.
- The configuration fields of `Inferencer` are `const`, because the source never reassigns them after the constructor. `model_path` is not stored: it only names the file loaded.
- AnnotMaker.ResolveAlias: requires that all zipped ids are distinct (as they are when the ids come from dictionary keys, AutoCvat.py:89-90). Without that, the lookup returns the first name (in dictionary order) whose list holds the id; that case is what `ResolveSpec` states.
- AutoCvat.py (command line, YAML loading, file copying, archiving, random colours) is not part of this model.
