# Blueprint symbol detection — a verified model

The application detects architectural elements (walls, doors, windows, rooms) on uploaded blueprint images.

- **Backend (FastAPI).**
  - Endpoints: upload an image (`POST /upload`), run YOLO detection on it (`POST /detect/{id}`), read the stored results back (`GET /results/{id}`), and fetch the image (`GET /blueprints/{id}`).
  - Behind them:
    - a lazily loading YOLO wrapper (`BlueprintDetector`);
    - an inference service that wraps every failure in a `RuntimeError` and computes statistics;
    - a post-processing service: confidence filter, record validation, and a JSON results store;
    - file handling: extension check, stored names, lookup and age-based cleanup;
    - the pydantic response records.
- **Frontend (React).**
  - An upload zone with MIME-type and size checks.
  - A dashboard that loads stored results and falls back to running detection on a 404.
  - A viewer that fits, centres, zooms and pans the image.
  - An overlay canvas on which the boxes are drawn at the fit scale.
  - The drawing helpers and a statistics panel.

The Dafny project models both halves, one module per source file:

| source file | module |
|---|---|
| `response.py` | `Schemas` |
| `postprocess.py` | `Postprocess` |
| `inference.py` | `Inference` |
| `detector.py` | `Detector` |
| `file_handler.py` | `FileHandler` |
| `routes.py` | `Routes` |
| `drawBoxes.js` | `DrawBoxes` |
| `DetectionOverlay.jsx` | `Overlay` |
| `BlueprintViewer.jsx` | `Viewer` |
| `StatsPanel.jsx` | `StatsPanel` |
| `Dashboard.jsx` | `Dashboard` |
| `UploadZone.jsx` | `UploadZone` |

Shared vocabulary lives in five helper modules:

- `Common`: options, results, Python exceptions, ASCII case mapping, `toFixed(0)`, the `pathlib` suffix rule, and ordered filtering.
- `Tally`: the label-count dictionary and its sum.
- `Config`: the settings values.
- `ClientTypes`: the client's detection, point, image data and request error.
- `Canvas`: the browser canvas.

**How state is modelled.**

- The two storage directories are maps held by a `Disk` object, which the endpoint methods update in place.
- The detector and the viewer are classes whose fields change as in the source. So are the dashboard page and the upload zone.
- A 2D context records every drawing call in an append-only trace, with the style it used.
- Loops in the source are `while`/`for` loops in methods, each proved equal to a function on the input:
  - the statistics passes;
  - the box conversion in `predict`;
  - the extension lookup;
  - the cleanup;
  - `drawAllDetections`.
- Each endpoint is a method that runs the pipeline. It is specified by a function that decides the reply from the outcomes of its steps.

**What the environment supplies.** Several inputs are parameters of the model:

- YOLO's loader and prediction;
- whether the model file exists;
- `uuid4`;
- the clock and file modification times;
- I/O faults;
- `measureText`;
- the replies of the backend as the client sees them.

**Where the model follows the code rather than the intended behaviour:**

- The wheel zooms out by 0.9 and in by 1.1, so one step out and one step in loses 1% (`Viewer.ZoomOutThenInLoses`).
- A detection without a `bbox` is not skipped by the overlay. Scaling throws, and no box is drawn at all (`Overlay.MissingBboxDrawsNothing`).
- The label chip is not clamped to the surface (`DrawBoxes.ChipNotClamped`).
- `run_inference` turns a missing model file into a `RuntimeError`. So the `FileNotFoundError → 404` branch of `detect_elements` is never taken for it, and the answer is 500 (`Routes.MissingModelAnswers500`).
- FastAPI error bodies carry `detail`, while the client reads `message`. Every backend error therefore shows the client's fallback text (`ClientTypes.BackendDetailNeverShown`, `UploadZone.RefusalShowsFallback`, `Dashboard.BackendErrorsShowFallbacks`).
- The stored statistics describe the raw detections, while the reply counts the filtered ones (`Routes.StatisticsCountUnfilteredDetections`). YOLO already drops boxes below `CONFIDENCE_THRESHOLD` (0.25 by default, backend/app/core/config.py:22), so the two differ only when that setting is lowered below the 0.25 filter.
- A results write that fails after `open("w")` leaves an empty results file. The earlier results are lost, and `GET /results` then answers 500 rather than 404, so the dashboard shows its error card instead of running detection again (`Routes.FailedSaveAnswers500`).
- Backend statistics count labels case-sensitively (`Inference.LabelsAreCaseSensitive`). The panel lower-cases them (`StatsPanel.KeysAreLowerCase`).

## Model

| member | source | states |
|---|---|---|
| Schemas.ValidateDetection | backend/app/schemas/response.py:11-15 | a `Detection` record exists exactly when 0 ≤ confidence ≤ 1, and then carries the same label, confidence and bbox (of any length) |
| Schemas.ValidateDetections | backend/app/schemas/response.py:11-15 | a `List[Detection]` field validates exactly when every confidence lies in [0, 1], and then holds the list unchanged; otherwise the validation error |
| Schemas.NewDetectionResponse | backend/app/schemas/response.py:23-28 | the detection response is built exactly when all its detections validate, and then holds the given fields |
| Schemas.NewResultsResponse | backend/app/schemas/response.py:30-34 | the results response is built exactly when all its detections validate, and then holds the given fields |
| Schemas.ResponseDefaults | backend/app/schemas/response.py:17-39 | the upload message defaults to "File uploaded successfully", the detection message to "Detection completed successfully", and an error's detail to None |
| Postprocess.FilterDetections | backend/app/services/postprocess.py:7-24 | the kept list is no longer than the input and holds only input detections whose confidence reaches the threshold |
| Postprocess.FilterDetectionsExactly | backend/app/services/postprocess.py:21-24 | every detection at or above the threshold is kept as often as it occurs, every other one is dropped, and the input order is kept (a subsequence) |
| Postprocess.FilterDetectionsIdempotent | backend/app/services/postprocess.py:21-24 | filtering the filtered list changes nothing |
| Postprocess.FilterDetectionsAppend | backend/app/services/postprocess.py:21-24 | filtering a concatenation filters each part |
| Postprocess.FormatDetections | backend/app/services/postprocess.py:26-36 | a successful conversion yields one record per input |
| Postprocess.FormatDetectionsValidates | backend/app/services/postprocess.py:26-36 | converting dictionaries to records left to right is validating the whole list: it succeeds exactly when every confidence is in [0, 1], with the records equal to the inputs in order |
| Postprocess.Store | backend/app/services/postprocess.py:38-55 | saving adds or overwrites the blueprint's `.json` file and leaves every other results file as it was |
| Postprocess.SaveResults | backend/app/services/postprocess.py:38-55 | a failure to open the file changes nothing and raises; a failure of the write after opening raises and leaves the blueprint's results file emptied and unparsable; otherwise the results directory becomes the saved store; the uploads are untouched |
| Postprocess.FailedWriteLosesResults | backend/app/services/postprocess.py:53-55 | after a write that fails once the file is open, loading the blueprint's results fails with an error other than `FileNotFoundError`, whatever was stored before |
| Postprocess.LoadResults | backend/app/services/postprocess.py:57-76 | a missing file raises `FileNotFoundError("Results not found for blueprint ID: " + id)`, an unparsable one fails, and otherwise the stored document is returned |
| Postprocess.LoadAfterSave | backend/app/services/postprocess.py:47-55 | loading what was just saved returns the id, detections and statistics as saved |
| Postprocess.LoadAfterSaveOther | backend/app/services/postprocess.py:53-55 | saving one blueprint's results does not change what loading another's returns |
| Postprocess.ProcessAndSaveResults | backend/app/services/postprocess.py:78-105 | filters at 0.25 and saves the kept detections with the statistics passed through (a failed save raises and leaves the directory as saving left it); on success returns them with `total_detections` equal to their number, and loading then returns exactly what was returned |
| Inference.Wrapped | backend/app/services/inference.py:16-24 | a successful prediction passes through; a failure becomes a `RuntimeError` whose message is "Inference failed: " followed by the original message |
| Inference.RunInference | backend/app/services/inference.py:6-24 | predicts with the configured thresholds and returns the wrapped outcome; the detector keeps a model once one has loaded |
| Inference.InferenceErrorIsRuntimeError | backend/app/services/inference.py:23-24 | no failure of inference is ever a `FileNotFoundError`, and the original message follows the prefix |
| Inference.Labels | backend/app/services/inference.py:47-48 | the labels of the list, one per detection, in order |
| Inference.StatisticsMeaning | backend/app/services/inference.py:26-55 | the total is the list length; the keys are exactly the labels that occur, each counting its occurrences; an empty list gives no keys and a mean of 0.0 |
| Inference.GetDetectionStatistics | backend/app/services/inference.py:26-55 | the loop computes the statistics of the list |
| Inference.CountAndSum | backend/app/services/inference.py:46-50 | the loop's dictionary is the label count of the list and its accumulator the sum of the confidences |
| Inference.StatisticsCountsSumToTotal | backend/app/services/inference.py:37-49 | the per-label counts add up to the total |
| Inference.AverageInRange | backend/app/services/inference.py:50-53 | when every confidence lies in [0, 1], so does the average |
| Inference.SumConfidenceBounds | backend/app/services/inference.py:46-50 | the sum of n confidences in [0, 1] lies in [0, n] |
| Inference.LabelsAreCaseSensitive | backend/app/services/inference.py:48-49 | "Wall" and "wall" are counted under two keys |
| Tally.CountsMeaning | backend/app/services/inference.py:49 | the dictionary built by `d[k] = d.get(k, 0) + 1` has exactly the keys seen, each mapped to its positive number of occurrences |
| Tally.CountsTotal | backend/app/services/inference.py:49 | the counts add up to the number of keys counted |
| Tally.CountsStep | backend/app/services/inference.py:49 | one more key adds one to its count and leaves the others |
| Detector.EffectiveThreshold | backend/app/models/detector.py:54-55 | `None` and 0.0 both fall back on the setting; any other value is used as given |
| Detector.ToDetection | backend/app/models/detector.py:71-88 | a box converts exactly when its class id is known, giving that class name, the box's confidence and a four-entry bbox; otherwise `KeyError(class_id)` |
| Detector.BoxRoundTrip | backend/app/models/detector.py:71-77 | the corners x1, y1, x2, y2 are recovered from the bbox `[x1, y1, x2-x1, y2-y1]`, and width and height are non-negative exactly when the corners are ordered |
| Detector.ConvertBoxesSucceeds | backend/app/models/detector.py:66-88 | the conversion succeeds exactly when every class id is known |
| Detector.ConvertBoxesOneEach | backend/app/models/detector.py:66-88 | on success there is exactly one detection per box, the i-th being the i-th box's conversion |
| Detector.ConvertBoxesFirstUnknown | backend/app/models/detector.py:80-82 | on failure the error is the `KeyError` of the first box with an unknown class id |
| Detector.ConvertBoxesErrExtends | backend/app/models/detector.py:66-88 | once a prefix raises, further boxes do not change the error |
| Detector.FlattenAppend | backend/app/models/detector.py:67-69 | the boxes of concatenated results are the concatenated boxes |
| Detector.ParseResults | backend/app/models/detector.py:65-90 | the nested loop over results and boxes yields the conversion of all boxes in result/box order, or the first `KeyError` |
| Detector.ConvertResult | backend/app/models/detector.py:68-88 | the inner loop continues the conversion of the boxes before it with the boxes of one result |
| Detector.LoadOutcome | backend/app/models/detector.py:21-32 | a held model is kept; without one, a missing file gives `FileNotFoundError`, otherwise the loader's result |
| Detector.PredictOutcome | backend/app/models/detector.py:34-90 | a load failure is raised before YOLO is called |
| Detector.BlueprintDetector.constructor | backend/app/models/detector.py:10-19 | a missing path falls back on the configured one; model and class names start unset |
| Detector.BlueprintDetector.LoadModel | backend/app/models/detector.py:21-32 | a missing file raises `FileNotFoundError` and changes nothing, a failing loader raises its error and changes nothing, and a successful load sets the model and its class names |
| Detector.BlueprintDetector.Predict | backend/app/models/detector.py:34-90 | loads the model only when none is held, keeps the class names those of the model, and returns the predicted outcome |
| Detector.BlueprintDetector.NumClasses | backend/app/models/detector.py:100 | the number of class names, 0 when they are unset or empty |
| Detector.BlueprintDetector.GetModelInfo | backend/app/models/detector.py:92-101 | loads the model when none is held, then reports the path, the class names and their number; a load failure is raised |
| FileHandler.ValidateFileExtension | backend/app/utils/file_handler.py:12-15 | when some dot of the final path component is neither its first nor its last character and has no dot after it, the name is accepted exactly when the text from that dot, lower-cased, is an allowed extension; when no dot qualifies, exactly when the empty extension is allowed |
| Common.NameSuffixFromDot | backend/app/utils/file_handler.py:14 | `Path.suffix` of a name starts at the dot that is neither first nor last and has no dot after it, and is empty when no dot qualifies |
| FileHandler.ExtensionCheckIgnoresCase | backend/app/utils/file_handler.py:14 | lower-casing the file name first does not change the verdict |
| FileHandler.UpperCaseExtensionAccepted | backend/app/utils/file_handler.py:14-15 | "A.PNG" is accepted |
| FileHandler.DotNameRefused | backend/app/utils/file_handler.py:14-15 | a name that is only an extension, like ".png", has no suffix and is refused |
| FileHandler.DotlessNameRefused | backend/app/utils/file_handler.py:14-15 | a name without a dot is refused |
| FileHandler.StoredName | backend/app/utils/file_handler.py:29-32 | the stored name is the blueprint id followed by the lower-cased suffix of the original name |
| FileHandler.SaveUploadFile | backend/app/utils/file_handler.py:17-39 | a failure to open the file, or a sub-directory under that name, raises and changes nothing; once the file is open it exists under its stored name as a regular file written now, and a failure of the copy then raises with that file left behind; otherwise the stored name is returned; the results are untouched |
| FileHandler.FirstExisting | backend/app/utils/file_handler.py:51-55 | nothing is found exactly when no `id + ext` exists; otherwise the first existing one in iteration order |
| FileHandler.GetBlueprintPath | backend/app/utils/file_handler.py:41-55 | the search loop returns the first existing `id + ext`, or nothing |
| FileHandler.SavedUploadIsFound | backend/app/utils/file_handler.py:29-55 | after an upload with an allowed extension is saved, the lookup finds exactly the stored name (when no other file for the id comes earlier) |
| FileHandler.GetResultsPath | backend/app/utils/file_handler.py:57-59 | the results file of an id is the id followed by ".json" |
| FileHandler.ResultsPathInjective | backend/app/utils/file_handler.py:57-59 | two blueprints never share a results file |
| FileHandler.KeptUploads | backend/app/utils/file_handler.py:74-78 | the cleanup keeps exactly the upload entries that are not regular files older than the cutoff, unchanged |
| FileHandler.KeptResults | backend/app/utils/file_handler.py:81-84 | the cleanup keeps exactly the results entries that are not `.json` files older than the cutoff, unchanged |
| FileHandler.CleanupGuarantees | backend/app/utils/file_handler.py:71-84 | every regular upload and `.json` result left is at least as new as the cutoff, and nothing newer, no sub-directory and no non-`.json` result is removed |
| FileHandler.CleanupOldFiles | backend/app/utils/file_handler.py:61-84 | the two deleting loops leave exactly the kept uploads and kept results for the cutoff `now - max_age_hours` (`max_age_hours` is a parameter; its default of 24 is `FileHandler.DefaultMaxAgeHours`) |
| Routes.UploadReplies | backend/app/api/routes.py:23-52 | 400 exactly when the extension is refused, 500 exactly when it is allowed and the save fails, and otherwise the new id, the original file name and the success message |
| Routes.UploadBlueprint | backend/app/api/routes.py:23-52 | a refused extension leaves the uploads untouched; an allowed one stores the upload under its stored name whenever the file could be opened; the reply is decided by what saving did; results are never touched |
| Routes.DetectFailure | backend/app/api/routes.py:92-98 | `FileNotFoundError` answers 404 and any other exception 500 |
| Routes.DetectSuccess | backend/app/api/routes.py:71-90 | detection succeeds exactly when the blueprint is found, inference and saving succeed, and the kept detections validate; it then reports the detections at or above 0.25 and their number |
| Routes.DetectStatusCodes | backend/app/api/routes.py:64-98 | every error is 404 or 500, and an unknown blueprint answers 404 "Blueprint not found: " + id |
| Routes.MissingModelAnswers500 | backend/app/api/routes.py:92-98 | a missing model file answers 500 with both prefixes in front of the loader's message, never 404 |
| Routes.DetectElements | backend/app/api/routes.py:54-98 | the endpoint's reply and the new results directory are those decided from whether the blueprint exists, what inference did and whether saving failed; an unknown blueprint leaves the detector as it was, and a found one leaves it holding the loaded model when loading succeeded, or its previous model otherwise |
| Routes.InferAndRespond | backend/app/api/routes.py:71-98 | the `try` block: inference and then the response and the store it decides; the detector holds the loaded model afterwards when loading succeeded, so a later detection reuses it |
| Routes.Respond | backend/app/api/routes.py:76-98 | statistics of the raw detections, filtering, saving and the response, or the `except` replies |
| Routes.StatisticsCountUnfilteredDetections | backend/app/api/routes.py:73-89 | a single detection below 0.25 is reported as 0 detections while the stored statistics count 1; YOLO itself drops boxes below `CONFIDENCE_THRESHOLD`, so this needs that setting below 0.25 |
| Routes.GetResults | backend/app/api/routes.py:100-126 | 404 exactly when no results file exists, 500 for an unreadable or invalid one; a readable document whose detections all have confidences in [0, 1] answers success, with the stored id, detections and statistics |
| Routes.ResultsAfterDetect | backend/app/api/routes.py:54-126 | after a successful detection, the results endpoint returns the detections the detection endpoint answered with, and the raw statistics |
| Routes.FailedSaveAnswers500 | backend/app/api/routes.py:100-126 | when saving the results fails after the file was opened, the detection answers with that error and a later `GET /results` answers 500, not 404 |
| Routes.GetBlueprintImage | backend/app/api/routes.py:128-144 | found exactly when some `id + ext` exists, then the first such name; otherwise 404 "Blueprint image not found: " + id |
| ClientTypes.ErrorText | frontend/src/pages/Dashboard.jsx:53 | the server's `message` when present and non-empty, the fallback otherwise |
| ClientTypes.BackendDetailNeverShown | frontend/src/components/UploadZone.jsx:72 | for any error reply of the backend the client shows its own fallback text |
| Canvas.SizeAssignedTruncates | frontend/src/components/DetectionOverlay.jsx:15-16 | assigning a size up to 2^31 - 1 truncates it: the surface is never larger than asked and less than one pixel smaller |
| Canvas.OversizeTakesDefault | frontend/src/components/DetectionOverlay.jsx:15-16 | a size of 2^31 or more, or of -1, is not reflected and the dimension takes its default |
| Canvas.Element.SetWidth | frontend/src/components/DetectionOverlay.jsx:15 | assigning the width sets it, resets the context's style and records the reset |
| Canvas.Element.SetHeight | frontend/src/components/DetectionOverlay.jsx:16 | assigning the height sets it, resets the context's style and records the reset |
| Canvas.Element.SetOffset | frontend/src/components/DetectionOverlay.jsx:19-20 | the overlay's CSS offset becomes the given position |
| Canvas.Context2D.StrokeRect | frontend/src/utils/drawBoxes.js:36 | a stroke with finite arguments is recorded with the current colour and line width; one with NaN draws nothing |
| DrawBoxes.ColorForLabel | frontend/src/utils/drawBoxes.js:4-19 | wall, door, window and room, in any case, get their fixed colours; every other label the default `#f59e0b` |
| DrawBoxes.ColorIgnoresCase | frontend/src/utils/drawBoxes.js:18 | labels equal up to case get the same colour |
| DrawBoxes.WallsAreRed | frontend/src/utils/drawBoxes.js:4-19 | "wall" and "WALL" are both red |
| DrawBoxes.BoxColor | frontend/src/utils/drawBoxes.js:31 | an explicit non-empty colour wins over the label's colour |
| DrawBoxes.LabelTextPercent | frontend/src/utils/drawBoxes.js:43 | for a confidence in [0, 1] the chip shows the label, a space, a whole percentage n ≤ 100 within 0.5 of the confidence times 100, and "%" |
| DrawBoxes.Coord | frontend/src/utils/drawBoxes.js:30 | destructuring reads the bbox entry, or NaN past its end |
| DrawBoxes.FullBoxCommands | frontend/src/utils/drawBoxes.js:29-55 | a full bbox gives exactly four commands: the outline at the bbox with line width 3, the fill at the bbox in the colour plus "20", a chip of height 26 and width text+12 whose bottom edge is the box's top edge, and the white text at (x+6, y-10) |
| DrawBoxes.ChipNotClamped | frontend/src/utils/drawBoxes.js:50 | a box less than 26 from the top gets a chip starting above the surface |
| DrawBoxes.ShortBboxCommands | frontend/src/utils/drawBoxes.js:30-54 | a bbox of two or three entries draws only the chip and the text; a shorter one draws nothing |
| DrawBoxes.DrawBoundingBox | frontend/src/utils/drawBoxes.js:29-55 | the commands recorded are those of the box, and the context ends in the box's style |
| DrawBoxes.ClearCanvas | frontend/src/utils/drawBoxes.js:63-65 | clears the rectangle from (0, 0) to (width, height), style unchanged |
| DrawBoxes.FirstMissing | frontend/src/utils/drawBoxes.js:75-82 | the position of the first detection without a bbox, every one before it having one |
| DrawBoxes.DrawAllDetections | frontend/src/utils/drawBoxes.js:72-83 | nothing for a null or empty list; otherwise the boxes of every detection up to the first one without a bbox, in order, after which the destructuring throws |
| DrawBoxes.DrawNext | frontend/src/utils/drawBoxes.js:75-82 | one turn of the `forEach` appends the next detection's box to those already drawn |
| DrawBoxes.BoxesOnePerDetection | frontend/src/utils/drawBoxes.js:72-83 | with every bbox full, exactly one block of four commands per detection, the i-th block being the i-th detection's box |
| DrawBoxes.BoxesLength | frontend/src/utils/drawBoxes.js:72-83 | with every bbox full, four commands per detection |
| DrawBoxes.BoxesOnlyDraw | frontend/src/utils/drawBoxes.js:72-83 | drawing a list only strokes, fills and writes text; it never clears |
| Overlay.ScaleBbox | frontend/src/components/DetectionOverlay.jsx:30 | every coordinate, and no other, is multiplied by the scale |
| Overlay.Render | frontend/src/components/DetectionOverlay.jsx:7-36 | without image data nothing changes; otherwise the overlay is sized to the scaled image, placed at the image's offset, reset and cleared, and then the scaled boxes drawn, unless scaling threw |
| Overlay.OverlayCommandsCases | frontend/src/components/DetectionOverlay.jsx:23-33 | a run only clears for an absent or empty list or when scaling throws, and otherwise clears and then draws the scaled list |
| Overlay.Prepare | frontend/src/components/DetectionOverlay.jsx:14-23 | sizing, placing and clearing the overlay |
| Overlay.DrawScaled | frontend/src/components/DetectionOverlay.jsx:32 | every detection of a scaled list is drawn |
| Overlay.ClearedBeforeBoxes | frontend/src/components/DetectionOverlay.jsx:15-33 | the whole surface is cleared before anything is drawn, and nothing after that clears or resets it |
| Overlay.MissingBboxDrawsNothing | frontend/src/components/DetectionOverlay.jsx:28-31 | one detection without a bbox anywhere in the list means no box is drawn at all |
| Overlay.NoDetectionsOnlyClears | frontend/src/components/DetectionOverlay.jsx:26 | an empty or absent list leaves only the two resets and the clearing |
| Overlay.ServerDetectionsScale | frontend/src/components/DetectionOverlay.jsx:28-31 | detections from the backend always have a bbox, so scaling them never throws |
| Overlay.ScaledAllFull | frontend/src/components/DetectionOverlay.jsx:28-31 | scaling keeps every bbox present and at least four long |
| Overlay.BoxesAtScale | frontend/src/components/DetectionOverlay.jsx:26-33 | with every bbox full, the overlay draws after the clearing exactly one block of four per detection, in order, each the box of the detection with its bbox scaled |
| Overlay.ScaledBoxOutline | frontend/src/components/DetectionOverlay.jsx:28-32 | a scaled box is outlined at the scaled bbox in its label's colour, with its chip on the scaled top edge |
| Overlay.OverlayOverImage | frontend/src/components/DetectionOverlay.jsx:14-20 | with the viewer's fit and centring, the overlay lies inside the container and is less than a pixel narrower and shorter than the drawn image |
| Overlay.CentredOverlayInside | frontend/src/components/DetectionOverlay.jsx:14-20 | the same for any scale at which the centred image fits |
| Overlay.HalfSizeFit | frontend/src/components/BlueprintViewer.jsx:26-37 | a 1000×800 image in a 500×700 container is drawn at scale 0.5, 150 from the top, under a 500×400 overlay |
| Overlay.HalfSizeWallOutline | frontend/src/components/DetectionOverlay.jsx:28-32 | a wall at (100, 100) of size 50×20 is then outlined at (50, 50) of size 25×10 on the overlay, (50, 200) in the container |
| Viewer.FitScaleIsLargestFit | frontend/src/components/BlueprintViewer.jsx:26-28 | the fit scale is the largest scale, at most 1, at which the whole image fits the container |
| Viewer.FitIsCentred | frontend/src/components/BlueprintViewer.jsx:34-37 | at the fit scale both margins of each axis are equal and non-negative |
| Viewer.Zoomed | frontend/src/components/BlueprintViewer.jsx:56-60 | scrolling down multiplies by 0.9, anything else by 1.1, clamped to [0.1, 5] |
| Viewer.ZoomOutThenInLoses | frontend/src/components/BlueprintViewer.jsx:58 | one step out and one step in leaves 99% of the scale |
| Viewer.DragPansByPointerDelta | frontend/src/components/BlueprintViewer.jsx:62-73 | after a press and any moves, the image has moved by the pointer's displacement since the press, and the zoom is unchanged |
| Viewer.DragKeepsStart | frontend/src/components/BlueprintViewer.jsx:67-73 | moves never change the dragging flag, the drag start or the zoom |
| Viewer.ReleasedIgnoresMoves | frontend/src/components/BlueprintViewer.jsx:67-77 | after release, moves do not move the image |
| Viewer.ZoomAndPanIndependent | frontend/src/components/BlueprintViewer.jsx:7-73 | zooming never pans, panning never zooms, and a load overwrites any earlier zoom |
| Viewer.BlueprintViewer.constructor | frontend/src/components/BlueprintViewer.jsx:6-10 | not loaded, scale 1, at the origin, not dragging |
| Viewer.BlueprintViewer.OnLoad | frontend/src/components/BlueprintViewer.jsx:19-51 | sizes the canvas to the container, clears it, draws the image centred at the fit scale, records fit and position, and hands the same scale and position to the callback when there is one |
| Viewer.BlueprintViewer.Wheel | frontend/src/components/BlueprintViewer.jsx:56-60 | updates only the zoom, without redrawing |
| Viewer.BlueprintViewer.MouseDown | frontend/src/components/BlueprintViewer.jsx:62-65 | starts dragging and records the pointer's offset from the image |
| Viewer.BlueprintViewer.MouseMove | frontend/src/components/BlueprintViewer.jsx:67-73 | while dragging, keeps the pointer's offset from the image; otherwise nothing; no redraw |
| Viewer.BlueprintViewer.MouseUp | frontend/src/components/BlueprintViewer.jsx:75-77 | stops dragging |
| Viewer.BlueprintViewer.MouseLeave | frontend/src/components/BlueprintViewer.jsx:121 | leaving the canvas is releasing the button |
| StatsPanel.LowerLabels | frontend/src/components/StatsPanel.jsx:18 | the lower-cased label of every detection, in order |
| StatsPanel.ComputeStats | frontend/src/components/StatsPanel.jsx:5-28 | an absent or empty list gives the zero statistics; otherwise the loop's counts and average |
| StatsPanel.CountAndSum | frontend/src/components/StatsPanel.jsx:14-21 | the `forEach` builds the count of the lower-cased labels and the sum of the confidences |
| StatsPanel.ByTypeCountsLabels | frontend/src/components/StatsPanel.jsx:17-20 | the keys are exactly the lower-cased labels that occur, each counting the detections with that label up to case |
| StatsPanel.KeysAreLowerCase | frontend/src/components/StatsPanel.jsx:18-19 | every key is lower case |
| StatsPanel.CountsAddUpToTotal | frontend/src/components/StatsPanel.jsx:17-24 | the per-label counts add up to the total |
| StatsPanel.PercentSumScales | frontend/src/components/StatsPanel.jsx:52-54 | summing the percentages of all keys is the percentage of the summed counts |
| StatsPanel.PercentagesAddUpTo100 | frontend/src/components/StatsPanel.jsx:52-54 | for a non-empty list the bars' percentages add up to 100 |
| StatsPanel.AverageInRange | frontend/src/components/StatsPanel.jsx:20-26 | confidences in [0, 1] give an average in [0, 1] |
| StatsPanel.ConfidenceSumBounds | frontend/src/components/StatsPanel.jsx:20 | the sum of n confidences in [0, 1] lies in [0, n] |
| StatsPanel.PanelColorMatchesBoxes | frontend/src/components/StatsPanel.jsx:53 | each detection's key is present, and its colour dot is the colour its boxes are drawn in |
| Dashboard.FilteredDetections | frontend/src/pages/Dashboard.jsx:22-24 | without a selection the full list; with one, only detections whose label equals it up to case |
| Dashboard.FilteredExactly | frontend/src/pages/Dashboard.jsx:23 | with a selection, every detection of that class is kept as often as it occurs, in order, and no other |
| Dashboard.FilterTwiceIsFilterOnce | frontend/src/pages/Dashboard.jsx:22-24 | filtering is idempotent |
| Dashboard.SelectionIgnoresCase | frontend/src/pages/Dashboard.jsx:23 | selections equal up to case select the same detections |
| Dashboard.ViewTitle | frontend/src/pages/Dashboard.jsx:180 | "Full Blueprint View" without a selection, otherwise the selection followed by " View" |
| Dashboard.TitleKeepsSelection | frontend/src/pages/Dashboard.jsx:180 | the heading upper-cases the first letter of the selection and keeps the rest |
| Dashboard.MockStats | frontend/src/pages/Dashboard.jsx:29-34 | the demo counts one each of wall, door, window and room, with an average confidence of 0.9075 |
| Dashboard.FetchSettles | frontend/src/pages/Dashboard.jsx:40-72 | a fetch leaves no request in flight and touches neither the image data nor the selection |
| Dashboard.StoredResultsShown | frontend/src/pages/Dashboard.jsx:44-47 | stored results are shown as they are (or an empty list), without an error |
| Dashboard.OnlyNotFoundRunsDetection | frontend/src/pages/Dashboard.jsx:48-53 | only a 404 runs detection: otherwise the detection reply plays no part |
| Dashboard.NotFoundRunsDetection | frontend/src/pages/Dashboard.jsx:48-72 | after a 404 the page shows what detection produced, or the detection error over the previous detections |
| Dashboard.OtherFailureReported | frontend/src/pages/Dashboard.jsx:53 | any other failure keeps the previous detections and reports the server message or "Failed to load results" |
| Dashboard.ErrorIffFailed | frontend/src/pages/Dashboard.jsx:40-72 | an error is left exactly when the results request failed other than with 404, or with 404 and detection then failed; the text is never empty |
| Dashboard.BackendErrorsShowFallbacks | frontend/src/pages/Dashboard.jsx:53-68 | backend error replies show "Failed to load results" or "Detection failed" |
| Dashboard.PanelsSeeWholeList | frontend/src/pages/Dashboard.jsx:174-201 | the viewer and the overlay receive the same filtered list, a subsequence of the one the statistics and export panels receive, which is the whole list |
| Dashboard.UnselectedShowsAll | frontend/src/pages/Dashboard.jsx:180-188 | with no selection the viewer shows every detection under "Full Blueprint View" |
| Dashboard.FetchEndsOnCardOrResults | frontend/src/pages/Dashboard.jsx:146-201 | after a fetch the spinner is gone: the error card exactly when there is an error, the results otherwise |
| Dashboard.DashboardPage.Mount | frontend/src/pages/Dashboard.jsx:26-38 | without an id the page holds the four demo detections; with one it fetches |
| Dashboard.DashboardPage.FetchResults | frontend/src/pages/Dashboard.jsx:40-58 | the handler's state changes are those of a fetch ended with the given replies |
| Dashboard.DashboardPage.RunDetection | frontend/src/pages/Dashboard.jsx:60-72 | the handler's state changes are those of a detection ended with the given reply |
| Dashboard.DashboardPage.CanvasReady | frontend/src/pages/Dashboard.jsx:74-76 | keeps the viewer's image data and nothing else |
| Dashboard.MountedPage | frontend/src/pages/Dashboard.jsx:26-201 | a page mounted with an id ends on the error card or on the results, the viewer showing the whole list under the full-view heading |
| UploadZone.Rejection | frontend/src/components/UploadZone.jsx:29-41 | a file passes exactly when its type is JPEG or PNG and its size at most 10 MiB; a wrong type reports the type message, whatever the size |
| UploadZone.SizeLimitInclusive | frontend/src/components/UploadZone.jsx:35 | exactly 10 MiB passes, one byte more fails with the size message |
| UploadZone.TypeReportedFirst | frontend/src/components/UploadZone.jsx:31-38 | a wrong type is reported as such for every size |
| UploadZone.OfferedReplacesOnlyValid | frontend/src/components/UploadZone.jsx:48-57 | an offered file replaces the held one exactly when it passes; a rejected one leaves it and reports why |
| UploadZone.OnlyFirstFileCounts | frontend/src/components/UploadZone.jsx:48-55 | only the first of several files is looked at |
| UploadZone.HandlersKeepValidFile | frontend/src/components/UploadZone.jsx:12-76 | every handler keeps the held file a valid one |
| UploadZone.DragFlag | frontend/src/components/UploadZone.jsx:12-46 | entering sets the drag flag, leaving and dropping clear it |
| UploadZone.UploadNeedsFile | frontend/src/components/UploadZone.jsx:62 | uploading without a file changes nothing |
| UploadZone.UploadEnds | frontend/src/components/UploadZone.jsx:61-76 | an upload ends not uploading, and either navigates to the new blueprint's dashboard without an error or stays with a non-empty error |
| UploadZone.RefusalShowsFallback | frontend/src/components/UploadZone.jsx:72 | a refused upload shows "Upload failed. Please try again." |
| UploadZone.LocationCarriesId | frontend/src/components/UploadZone.jsx:70 | the navigation target is "/dashboard/" followed by the new id |
| UploadZone.Zone.ValidateFile | frontend/src/components/UploadZone.jsx:29-41 | returns true exactly for an acceptable file, and sets the error to the rejection message or clears it |
| UploadZone.Zone.FileSelect | frontend/src/components/UploadZone.jsx:54-59 | the first selected file is checked and kept only when valid |
| UploadZone.Zone.Drop | frontend/src/components/UploadZone.jsx:43-52 | clears the drag flag, then offers the first dropped file |
| UploadZone.Zone.DragEnter | frontend/src/components/UploadZone.jsx:12-16 | sets the drag flag |
| UploadZone.Zone.DragLeave | frontend/src/components/UploadZone.jsx:18-22 | clears the drag flag |
| UploadZone.Zone.DragOver | frontend/src/components/UploadZone.jsx:24-27 | changes no state |
| UploadZone.Zone.Upload | frontend/src/components/UploadZone.jsx:61-76 | the handler's state changes are those of an upload ended with the given reply |

## Left out

- **I/O and the environment.** Network, file system and HTTP transport are not modelled. Their results are parameters:
  - YOLO's loader and prediction, and whether the model file exists;
  - `uuid4`, the clock and file modification times;
  - write faults, either when a file is opened or when it is written after opening;
  - `measureText`;
  - the backend replies the client receives.
- **Image contents.** Decoding, pixels and `FileResponse` streaming are not modelled. `GetBlueprintImage` returns the stored name.
- **React scheduling.** Effect re-runs, state batching, the stale image-load race and the spinner's intermediate renders are not modelled. The page and zone handlers are modelled at the state they settle in.
- **Floating point.** Numbers are exact reals, and IEEE rounding is not modelled.
- **`toFixed(0)`.** It is modelled as rounding half up on exact values (`Common.ToFixed0`).
- **Two displays.** The average's `toFixed(1)` display (frontend/src/components/StatsPanel.jsx:44) and the zoom percentage display (frontend/src/components/BlueprintViewer.jsx:126) are not modelled.
- **`pathlib`.** `Path.suffix` is modelled by its last-dot rule on the final `/`-separated component. Windows separators and the other `PurePath` rules are not modelled.
- **Set order.** The iteration order of the `ALLOWED_EXTENSIONS` set is unspecified in Python. It is a sequence parameter.
- **JavaScript lookups.** Object-prototype quirks of the `labelColors` and `byType` lookups (a label named `constructor`, say) are not modelled. Both are finite maps.
- **pydantic.** Its machinery and the text of its errors are not modelled. Only the confidence constraint is.
- **Other error texts.** Some messages are fixed texts where the source's vary:
  - Postprocess.LoadResults: a file that does not parse fails with one fixed message, while the JSON decoder's message depends on the file's content.
  - Postprocess.LoadResults: a document that parses but lacks `id`, `detections` or `statistics` raises `KeyError` in `get_results` (backend/app/api/routes.py:112-116); the model folds it into the unparsable case, which answers 500 like the source.
  - FileHandler.IsADirectory: Python's message carries the full `UPLOAD_DIR / filename` path, while the model's carries the stored name only.
- **Case mapping.** Python's `str.lower()` and JavaScript's `toLowerCase()`/`toUpperCase()` map all of Unicode (`Ä` to `ä`), and can change a string's length (`İ`). Non-ASCII labels and file names therefore differ from the source in the panel keys, the dashboard filter and title, the colour lookup and the extension check:
  - Common.LowerChar: maps `A`-`Z` only.
  - Common.UpperChar: maps `a`-`z` only.
  - Common.Lower: lower-cases ASCII letters only and keeps the length.
- **Upload contents.** The bytes of an upload are not modelled. After a failed copy the file exists, but what part of the upload it holds is not captured.
- **Extra fields.** Extra keys in detection dictionaries are not modelled.
- **`MAX_UPLOAD_SIZE`.** The setting (backend/app/core/config.py:26) is never enforced by the backend and is not modelled.
- **Health endpoint.** The `/health` endpoint (backend/app/api/routes.py:146-153) returns configuration constants and is not modelled.
- **Files not modelled:**
  - `main.py`, `verify_deployment.py` and `pdf (1).py`;
  - `api.js`, `App.jsx`, `Home.jsx` and `ExportPanel.jsx`.

  They are wiring, HTTP plumbing, static pages or Blob/clipboard plumbing. The export panel appears only as the list the dashboard hands it.
- **Weaker or narrower contracts:**
  - Viewer.FitScale: requires a positive image size. The source divides by the image's width and height, so a zero size would give Infinity or NaN there; that case is not modelled.
  - Viewer.BlueprintViewer.OnLoad: requires a positive image size, for the same reason.
  - Overlay.OverlayOverImage: requires a container of at most 2^31 - 1 pixels on each side. Past that, a size assignment is not reflected and the overlay takes the default 300 by 150 (`Canvas.OversizeTakesDefault`).
  - Inference.StatisticsMeaning: states the average for an empty list only. For a non-empty list it is the confidence sum divided by the length, as the definition says; `Inference.AverageInRange` bounds it.
