/** The YOLO wrapper: lazy loading of the model, the threshold defaults, and
    the conversion of the model's corner boxes into detection dictionaries.
    The model file's presence, the YOLO loader and YOLO's prediction are
    parameters. */
module Detector {
  import opened Common
  import opened Schemas
  import opened Config

  /** One box of a YOLO result, moved to the CPU: the corners `xyxy`, the
      class id and the confidence. */
  datatype RawBox = RawBox(x1: real, y1: real, x2: real, y2: real, classId: int, confidence: real)

  /** A loaded YOLO model, as far as this code looks into it: its class names. */
  datatype Weights = Weights(names: map<int, string>)

  /** What YOLO's `predict` returns: one list of boxes per result. */
  type Prediction = seq<seq<RawBox>>

  /** The dictionary `get_model_info` returns. */
  datatype ModelInfo = ModelInfo(modelPath: string, classes: Option<map<int, string>>, numClasses: nat)

  /** `conf_threshold or settings.CONFIDENCE_THRESHOLD`: Python's `or` falls
      back on `None` and on `0.0` alike. */
  function EffectiveThreshold(given: Option<real>, fallback: real): (t: real)
    ensures given.None? ==> t == fallback
    ensures given.Some? && given.value == 0.0 ==> t == fallback
    ensures given.Some? && given.value != 0.0 ==> t == given.value
  {
    if given.Some? && given.value != 0.0 then given.value else fallback
  }

  /** The message of the `FileNotFoundError` for a missing model file. */
  function MissingModelMessage(modelPath: string): string
  {
    "YOLO model not found at " + modelPath + ". " +
    "Please place your trained YOLOv8 model (best.pt) in the models/ directory."
  }

  /** One box as a detection: the bbox `[x, y, width, height]` from the
      corners, the label looked up by class id (`KeyError` when the class is
      unknown). */
  function ToDetection(box: RawBox, names: map<int, string>): (r: Result<Detection, Exception>)
    ensures r.Ok? <==> box.classId in names
    ensures r.Err? ==> r.error == KeyError(IntToString(box.classId))
    ensures r.Ok? ==> r.value.kind == names[box.classId] && r.value.confidence == box.confidence
    ensures r.Ok? ==> |r.value.bbox| == 4
  {
    if box.classId !in names then Err(KeyError(IntToString(box.classId)))
    else Ok(Detection(names[box.classId], box.confidence, [box.x1, box.y1, box.x2 - box.x1, box.y2 - box.y1]))
  }

  /** Reading an `[x, y, width, height]` bbox back as corners. */
  function Corners(bbox: seq<real>): (c: (real, real, real, real))
    requires |bbox| == 4
  {
    (bbox[0], bbox[1], bbox[0] + bbox[2], bbox[1] + bbox[3])
  }

  /** The conversion loses nothing: the corners can be read back from the
      bbox, and width and height are non-negative exactly when the corners
      are ordered. */
  lemma BoxRoundTrip(box: RawBox, names: map<int, string>)
    requires box.classId in names
    ensures Corners(ToDetection(box, names).value.bbox) == (box.x1, box.y1, box.x2, box.y2)
    ensures ToDetection(box, names).value.bbox[2] >= 0.0 <==> box.x2 >= box.x1
    ensures ToDetection(box, names).value.bbox[3] >= 0.0 <==> box.y2 >= box.y1
  {
  }

  /** The boxes of all results, result by result. */
  function Flatten(results: Prediction): (boxes: seq<RawBox>)
  {
    if results == [] then [] else Flatten(results[..|results| - 1]) + results[|results| - 1]
  }

  /** Converting a list of boxes left to right; the first unknown class id
      raises. */
  function ConvertBoxes(boxes: seq<RawBox>, names: map<int, string>): (r: Result<seq<Detection>, Exception>)
  {
    if boxes == [] then Ok([])
    else
      match ConvertBoxes(boxes[..|boxes| - 1], names)
      case Err(e) => Err(e)
      case Ok(init) =>
        match ToDetection(boxes[|boxes| - 1], names)
        case Err(e) => Err(e)
        case Ok(d) => Ok(init + [d])
  }

  /** The conversion succeeds exactly when every class id is known. */
  lemma {:induction false} ConvertBoxesSucceeds(boxes: seq<RawBox>, names: map<int, string>)
    ensures ConvertBoxes(boxes, names).Ok? <==> forall i :: 0 <= i < |boxes| ==> boxes[i].classId in names
  {
    if boxes != [] {
      var n := |boxes| - 1;
      ConvertBoxesSucceeds(boxes[..n], names);
      assert forall j :: 0 <= j < n ==> boxes[j] == boxes[..n][j];
    }
  }

  /** On success there is one detection per box, in box order. */
  lemma {:induction false} ConvertBoxesOneEach(boxes: seq<RawBox>, names: map<int, string>)
    requires ConvertBoxes(boxes, names).Ok?
    ensures |ConvertBoxes(boxes, names).value| == |boxes|
    ensures forall i :: 0 <= i < |boxes| ==> ToDetection(boxes[i], names) == Ok(ConvertBoxes(boxes, names).value[i])
  {
    if boxes != [] {
      var n := |boxes| - 1;
      ConvertBoxesOneEach(boxes[..n], names);
      assert forall j :: 0 <= j < n ==> boxes[j] == boxes[..n][j];
    }
  }

  /** On failure the error is the `KeyError` of the first unknown class id. */
  lemma {:induction false} ConvertBoxesFirstUnknown(boxes: seq<RawBox>, names: map<int, string>)
    requires ConvertBoxes(boxes, names).Err?
    ensures exists i :: (0 <= i < |boxes| && boxes[i].classId !in names &&
                         (forall j :: 0 <= j < i ==> boxes[j].classId in names) &&
                         ConvertBoxes(boxes, names).error == KeyError(IntToString(boxes[i].classId)))
  {
    var n := |boxes| - 1;
    var init := boxes[..n];
    assert forall j :: 0 <= j < n ==> boxes[j] == init[j];
    if ConvertBoxes(init, names).Err? {
      ConvertBoxesFirstUnknown(init, names);
      var i :| 0 <= i < n && init[i].classId !in names &&
        (forall j :: 0 <= j < i ==> init[j].classId in names) &&
        ConvertBoxes(init, names).error == KeyError(IntToString(init[i].classId));
    } else {
      ConvertBoxesSucceeds(init, names);
      assert boxes[n].classId !in names;
    }
  }

  /** Once a prefix of the boxes raises, appending boxes raises the same. */
  lemma {:induction false} ConvertBoxesErrExtends(a: seq<RawBox>, b: seq<RawBox>, names: map<int, string>)
    requires ConvertBoxes(a, names).Err?
    ensures ConvertBoxes(a + b, names) == ConvertBoxes(a, names)
    decreases |b|
  {
    if b != [] {
      var m := |b| - 1;
      ConvertBoxesErrExtends(a, b[..m], names);
      assert (a + b)[..|a + b| - 1] == a + b[..m];
    } else {
      assert a + b == a;
    }
  }

  /** Flattening splits at any result. */
  lemma {:induction false} FlattenAppend(a: Prediction, b: Prediction)
    ensures Flatten(a + b) == Flatten(a) + Flatten(b)
    decreases |b|
  {
    if b == [] {
      assert a + b == a;
    } else {
      var m := |b| - 1;
      FlattenAppend(a, b[..m]);
      assert (a + b)[..|a + b| - 1] == a + b[..m];
    }
  }

  /** The loop of `predict` over the results and their boxes, appending one
      detection per box; an unknown class id raises `KeyError`. */
  method ParseResults(results: Prediction, names: map<int, string>) returns (r: Result<seq<Detection>, Exception>)
    ensures r == ConvertBoxes(Flatten(results), names)
  {
    var detections: seq<Detection> := [];
    for i := 0 to |results|
      invariant ConvertBoxes(Flatten(results[..i]), names) == Ok(detections)
    {
      FlattenStep(results, i);
      var out := ConvertResult(Flatten(results[..i]), results[i], names, detections);
      if out.Err? {
        FlattenSplit(results, i + 1);
        ConvertBoxesErrExtends(Flatten(results[..i + 1]), Flatten(results[i + 1..]), names);
        return out;
      }
      detections := out.value;
    }
    assert results[..|results|] == results;
    r := Ok(detections);
  }

  /** The inner loop, over the boxes of one result, continuing the
      detections of the boxes `before` it. */
  method ConvertResult(ghost before: seq<RawBox>, boxes: seq<RawBox>, names: map<int, string>,
                       detections: seq<Detection>) returns (r: Result<seq<Detection>, Exception>)
    requires ConvertBoxes(before, names) == Ok(detections)
    ensures r == ConvertBoxes(before + boxes, names)
  {
    var converted := detections;
    assert before + boxes[..0] == before;
    for j := 0 to |boxes|
      invariant ConvertBoxes(before + boxes[..j], names) == Ok(converted)
    {
      var box := boxes[j];
      ConvertStep(before, boxes, j, names);
      if box.classId !in names {
        BoxesSplit(before, boxes, j + 1);
        ConvertBoxesErrExtends(before + boxes[..j + 1], boxes[j + 1..], names);
        return Err(KeyError(IntToString(box.classId)));
      }
      var x, y := box.x1, box.y1;
      var width, height := box.x2 - box.x1, box.y2 - box.y1;
      converted := converted + [Detection(names[box.classId], box.confidence, [x, y, width, height])];
    }
    assert boxes[..|boxes|] == boxes;
    r := Ok(converted);
  }

  /** Converting one more box of a result: the box's detection is appended,
      or its unknown class id raises. */
  lemma ConvertStep(before: seq<RawBox>, boxes: seq<RawBox>, j: int, names: map<int, string>)
    requires 0 <= j < |boxes|
    ensures var seen := before + boxes[..j + 1];
      ConvertBoxes(seen, names) ==
        match ConvertBoxes(before + boxes[..j], names)
        case Err(e) => Err(e)
        case Ok(init) => if boxes[j].classId in names then Ok(init + [ToDetection(boxes[j], names).value])
                         else Err(KeyError(IntToString(boxes[j].classId)))
  {
    var seen := before + boxes[..j + 1];
    assert seen[..|seen| - 1] == before + boxes[..j];
    assert seen[|seen| - 1] == boxes[j];
  }

  lemma BoxesSplit(before: seq<RawBox>, boxes: seq<RawBox>, j: int)
    requires 0 <= j <= |boxes|
    ensures (before + boxes[..j]) + boxes[j..] == before + boxes
  {
    assert boxes[..j] + boxes[j..] == boxes;
  }

  lemma FlattenStep(results: Prediction, i: int)
    requires 0 <= i < |results|
    ensures Flatten(results[..i + 1]) == Flatten(results[..i]) + results[i]
  {
    assert results[..i + 1][..i] == results[..i];
  }

  lemma FlattenSplit(results: Prediction, i: int)
    requires 0 <= i <= |results|
    ensures Flatten(results) == Flatten(results[..i]) + Flatten(results[i..])
  {
    assert results == results[..i] + results[i..];
    FlattenAppend(results[..i], results[i..]);
  }

  /** What loading yields for a detector holding `model`: the model already
      held, or, when none is held, the `FileNotFoundError` for a missing file,
      the loader's own failure, or the freshly loaded weights. */
  function LoadOutcome(model: Option<Weights>, modelPath: string, fileExists: bool,
                       loaded: Result<Weights, Exception>): (r: Result<Weights, Exception>)
    ensures model.Some? ==> r == Ok(model.value)
    ensures model.None? && !fileExists ==> r == Err(FileNotFoundError(MissingModelMessage(modelPath)))
    ensures model.None? && fileExists ==> r == loaded
  {
    if model.Some? then Ok(model.value)
    else if !fileExists then Err(FileNotFoundError(MissingModelMessage(modelPath)))
    else loaded
  }

  /** What `predict` returns or raises: the load failure, YOLO's failure
      with the effective thresholds, or the boxes of all results converted in
      order. */
  function PredictOutcome(model: Option<Weights>, modelPath: string, fileExists: bool,
                          loaded: Result<Weights, Exception>,
                          yolo: (real, real) -> Result<Prediction, Exception>,
                          confThreshold: Option<real>, iouThreshold: Option<real>, settings: Settings)
    : (r: Result<seq<Detection>, Exception>)
    ensures LoadOutcome(model, modelPath, fileExists, loaded).Err? ==>
      r == Err(LoadOutcome(model, modelPath, fileExists, loaded).error)
  {
    var w := LoadOutcome(model, modelPath, fileExists, loaded);
    var out := yolo(EffectiveThreshold(confThreshold, settings.confidenceThreshold),
                    EffectiveThreshold(iouThreshold, settings.iouThreshold));
    if w.Err? then Err(w.error)
    else if out.Err? then Err(out.error)
    else ConvertBoxes(Flatten(out.value), w.value.names)
  }

  /** `BlueprintDetector`: the model path, and the model and class names that
      stay unset until the first load succeeds. */
  class BlueprintDetector {
    const modelPath: string
    var model: Option<Weights>
    var classNames: Option<map<int, string>>

    /** The class names are those of the loaded model, and unset before. */
    ghost predicate Valid()
      reads this
    {
      (model.None? ==> classNames.None?) && (model.Some? ==> classNames == Some(model.value.names))
    }

    /** `BlueprintDetector(model_path)`: a missing path falls back on the
        configured one. */
    constructor (modelPath: Option<string>, settings: Settings)
      ensures this.modelPath == (if modelPath.Some? then modelPath.value else settings.modelPath)
      ensures model.None? && classNames.None?
      ensures Valid()
    {
      this.modelPath := if modelPath.Some? then modelPath.value else settings.modelPath;
      model := None;
      classNames := None;
    }

    /** `load_model`. `fileExists` is whether the model file exists and
        `loaded` what `YOLO(path)` returns or raises. */
    method LoadModel(fileExists: bool, loaded: Result<Weights, Exception>) returns (r: Result<(), Exception>)
      requires Valid()
      modifies this
      ensures Valid()
      ensures !fileExists ==> r == Err(FileNotFoundError(MissingModelMessage(modelPath))) && unchanged(this)
      ensures fileExists && loaded.Err? ==> r == Err(loaded.error) && unchanged(this)
      ensures fileExists && loaded.Ok? ==> r == Ok(()) && model == Some(loaded.value)
    {
      if !fileExists {
        return Err(FileNotFoundError(MissingModelMessage(modelPath)));
      }
      if loaded.Err? {
        return Err(loaded.error);
      }
      model := Some(loaded.value);
      classNames := Some(loaded.value.names);
      r := Ok(());
    }

    /** `predict`: load the model if none is held, run YOLO with the
        effective thresholds (`yolo` stands for the model's prediction on the
        image) and convert every box of every result, in order. */
    method Predict(fileExists: bool, loaded: Result<Weights, Exception>,
                   yolo: (real, real) -> Result<Prediction, Exception>,
                   confThreshold: Option<real>, iouThreshold: Option<real>, settings: Settings)
      returns (r: Result<seq<Detection>, Exception>)
      requires Valid()
      modifies this
      ensures Valid()
      ensures var w := LoadOutcome(old(model), modelPath, fileExists, loaded);
        model == (if w.Ok? then Some(w.value) else old(model))
      ensures r == PredictOutcome(old(model), modelPath, fileExists, loaded, yolo, confThreshold, iouThreshold, settings)
    {
      ghost var w := LoadOutcome(model, modelPath, fileExists, loaded);
      if model.None? {
        var loadResult := LoadModel(fileExists, loaded);
        if loadResult.Err? {
          return Err(loadResult.error);
        }
      }
      assert w.Ok? && model == Some(w.value);
      var names := classNames.value;
      var conf := EffectiveThreshold(confThreshold, settings.confidenceThreshold);
      var iou := EffectiveThreshold(iouThreshold, settings.iouThreshold);
      var out := yolo(conf, iou);
      if out.Err? {
        return Err(out.error);
      }
      r := ParseResults(out.value, names);
    }

    /** The class count `get_model_info` reports: the number of class names,
        with unset or empty names counting 0. */
    function NumClasses(): (n: nat)
      reads this
      ensures classNames.Some? ==> n == |classNames.value|
      ensures classNames.None? ==> n == 0
    {
      if classNames.Some? && |classNames.value| != 0 then |classNames.value| else 0
    }

    /** `get_model_info`: load the model if none is held, then report the
        path, the class names and their number. */
    method GetModelInfo(fileExists: bool, loaded: Result<Weights, Exception>) returns (r: Result<ModelInfo, Exception>)
      requires Valid()
      modifies this
      ensures Valid()
      ensures var w := LoadOutcome(old(model), modelPath, fileExists, loaded);
        model == (if w.Ok? then Some(w.value) else old(model))
      ensures var w := LoadOutcome(old(model), modelPath, fileExists, loaded);
        r == if w.Err? then Err(w.error)
             else Ok(ModelInfo(modelPath, Some(w.value.names), |w.value.names|))
    {
      if model.None? {
        var loadResult := LoadModel(fileExists, loaded);
        if loadResult.Err? {
          return Err(loadResult.error);
        }
      }
      r := Ok(ModelInfo(modelPath, classNames, NumClasses()));
    }
  }
}
