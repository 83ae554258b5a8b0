/** The four API endpoints: what each one does to the stores, and which
    status code and body it answers with. Each endpoint is a method running
    the pipeline, specified by a function deciding the reply from the
    outcomes of the steps. */
module Routes {
  import opened Common
  import opened Schemas
  import opened Config
  import opened FileHandler
  import opened Postprocess
  import opened Detector
  import opened Inference

  /** An endpoint's answer: the response model, or an `HTTPException` with
      its status code and detail. */
  datatype Reply<T> = Success(body: T) | HttpError(status: int, detail: string)

  // ---------------------------------------------------------------------
  // POST /upload
  // ---------------------------------------------------------------------

  function InvalidExtensionDetail(allowed: seq<string>): string
  {
    "Invalid file extension. Allowed: " + Join(allowed, ", ")
  }

  /** The reply of `upload_blueprint`, given what saving the file returned
      or raised (unused when the extension is refused). */
  function UploadReply(filename: string, allowed: seq<string>, blueprintId: string,
                       saved: Result<string, Exception>): (r: Reply<UploadResponse>)
  {
    if !ValidateFileExtension(filename, allowed) then HttpError(400, InvalidExtensionDetail(allowed))
    else if saved.Err? then HttpError(500, "Upload failed: " + saved.error.msg)
    else Success(UploadResponse(blueprintId, filename))
  }

  /** A refused extension answers 400, a failed save 500, and a success
      carries the new id, the original file name and the success message. */
  lemma UploadReplies(filename: string, allowed: seq<string>, blueprintId: string, saved: Result<string, Exception>)
    ensures var r := UploadReply(filename, allowed, blueprintId, saved);
      (r.HttpError? && r.status == 400 <==> Lower(Suffix(filename)) !in allowed) &&
      (r.HttpError? && r.status == 500 <==> Lower(Suffix(filename)) in allowed && saved.Err?) &&
      (r.Success? <==> Lower(Suffix(filename)) in allowed && saved.Ok?) &&
      (r.Success? ==> r.body == UploadResponse(blueprintId, filename, UploadedMessage))
  {
  }

  /** `upload_blueprint`. `newId` is the id `uuid4` would generate, `now`
      the time of the write and `fault` a failure to open or to copy. */
  method UploadBlueprint(disk: Disk, filename: string, newId: string, now: real, fault: Option<WriteFault>,
                         settings: Settings)
    returns (r: Reply<UploadResponse>)
    modifies disk
    ensures disk.results == old(disk.results)
    ensures !ValidateFileExtension(filename, settings.allowedExtensions) ==> disk.uploads == old(disk.uploads)
    ensures var name := StoredName(newId, filename);
      ValidateFileExtension(filename, settings.allowedExtensions) ==>
        disk.uploads == if Opens(old(disk.uploads), name, fault)
                        then old(disk.uploads)[name := UploadEntry(true, now)]
                        else old(disk.uploads)
    ensures var name := StoredName(newId, filename);
      var saved := if fault.Some? && fault.value.OpenFailed? then Err(fault.value.error)
                   else if name in old(disk.uploads) && !old(disk.uploads)[name].isFile
                   then Err(IsADirectory(name))
                   else if fault.Some? then Err(fault.value.error)
                   else Ok(name);
      r == UploadReply(filename, settings.allowedExtensions, newId, saved)
  {
    if !ValidateFileExtension(filename, settings.allowedExtensions) {
      return HttpError(400, InvalidExtensionDetail(settings.allowedExtensions));
    }
    var saved := SaveUploadFile(disk, filename, newId, now, fault);
    if saved.Err? {
      return HttpError(500, "Upload failed: " + saved.error.msg);
    }
    r := Success(UploadResponse(newId, filename));
  }

  // ---------------------------------------------------------------------
  // POST /detect/{blueprint_id}
  // ---------------------------------------------------------------------

  const DetectFailedPrefix := "Detection failed: "

  /** The two `except` clauses of `detect_elements`. */
  function DetectFailure<T>(e: Exception): (r: Reply<T>)
    ensures r.HttpError?
    ensures e.FileNotFoundError? <==> r.status == 404
    ensures !e.FileNotFoundError? <==> r.status == 500
  {
    if e.FileNotFoundError? then HttpError(404, e.msg) else HttpError(500, DetectFailedPrefix + e.msg)
  }

  /** The reply of `detect_elements`, given whether the blueprint was found,
      what inference returned or raised, and whether saving the results
      failed. */
  function DetectReply(found: bool, blueprintId: string, inferred: Result<seq<Detection>, Exception>,
                       saveFault: Option<WriteFault>): (r: Reply<DetectionResponse>)
  {
    if !found then HttpError(404, "Blueprint not found: " + blueprintId)
    else if inferred.Err? then DetectFailure(inferred.error)
    else if saveFault.Some? then DetectFailure(saveFault.value.error)
    else
      var kept := FilterDetections(inferred.value, DefaultMinConfidence);
      match NewDetectionResponse(blueprintId, |kept|, kept, DetectedMessage)
      case Err(e) => DetectFailure(e)
      case Ok(response) => Success(response)
  }

  /** The results directory after `detect_elements`: when the blueprint was
      found and inference succeeded, saving the kept detections and the
      statistics of the raw ones (which a failed write leaves emptied);
      otherwise unchanged. */
  function DetectStored(found: bool, blueprintId: string, inferred: Result<seq<Detection>, Exception>,
                        saveFault: Option<WriteFault>, results: map<string, ResultsFile>, now: real)
    : map<string, ResultsFile>
  {
    if found && inferred.Ok? then
      SavedResults(results, blueprintId, FilterDetections(inferred.value, DefaultMinConfidence),
                   DetectionStatistics(inferred.value), now, saveFault)
    else results
  }

  /** A successful detection reports exactly the detections at or above the
      default threshold, and their number. */
  lemma DetectSuccess(found: bool, blueprintId: string, inferred: Result<seq<Detection>, Exception>,
                      saveFault: Option<WriteFault>)
    ensures var r := DetectReply(found, blueprintId, inferred, saveFault);
      r.Success? <==> (found && inferred.Ok? && saveFault.None? &&
                       forall d :: d in FilterDetections(inferred.value, DefaultMinConfidence) ==>
                                     ConfidenceInRange(d.confidence))
    ensures var r := DetectReply(found, blueprintId, inferred, saveFault);
      r.Success? ==> (r.body.id == blueprintId &&
                      r.body.detections == FilterDetections(inferred.value, DefaultMinConfidence) &&
                      r.body.totalDetections == |r.body.detections| && r.body.message == DetectedMessage)
  {
    var r := DetectReply(found, blueprintId, inferred, saveFault);
    if found && inferred.Ok? && saveFault.None? {
      var kept := FilterDetections(inferred.value, DefaultMinConfidence);
      assert (forall d :: d in kept ==> ConfidenceInRange(d.confidence)) <==>
             (forall i :: 0 <= i < |kept| ==> ConfidenceInRange(kept[i].confidence));
    }
  }

  /** Status codes of `detect_elements`: 404 for an unknown blueprint or a
      `FileNotFoundError`, 500 for anything else. */
  lemma DetectStatusCodes(found: bool, blueprintId: string, inferred: Result<seq<Detection>, Exception>,
                          saveFault: Option<WriteFault>)
    ensures var r := DetectReply(found, blueprintId, inferred, saveFault);
      r.HttpError? ==> r.status == 404 || r.status == 500
    ensures !found ==> DetectReply(found, blueprintId, inferred, saveFault)
                       == HttpError(404, "Blueprint not found: " + blueprintId)
  {
  }

  /** Inference wraps every failure in a `RuntimeError`, so an inference
      failure is never a 404: a missing model file answers 500 with both
      prefixes in front of the loader's message. */
  lemma MissingModelAnswers500(modelPath: string, loaded: Result<Weights, Exception>,
                               yolo: (real, real) -> Result<Prediction, Exception>, settings: Settings,
                               blueprintId: string, saveFault: Option<WriteFault>)
    ensures DetectReply(true, blueprintId, InferenceOutcome(None, modelPath, false, loaded, yolo, settings), saveFault)
         == HttpError(500, DetectFailedPrefix + (InferenceFailedPrefix + MissingModelMessage(modelPath)))
  {
    var msg := MissingModelMessage(modelPath);
    assert LoadOutcome(None, modelPath, false, loaded) == Err(FileNotFoundError(msg));
    var inferred := InferenceOutcome(None, modelPath, false, loaded, yolo, settings);
    assert inferred == Err(RuntimeError(InferenceFailedPrefix + msg));
  }

  /** `detect_elements`: look the blueprint up, run inference, compute the
      statistics of the raw detections, filter and save, and answer with the
      kept detections. */
  method DetectElements(disk: Disk, detector: BlueprintDetector, blueprintId: string,
                        fileExists: bool, loaded: Result<Weights, Exception>,
                        yolo: (real, real) -> Result<Prediction, Exception>,
                        now: real, saveFault: Option<WriteFault>, settings: Settings)
    returns (r: Reply<DetectionResponse>)
    requires detector.Valid()
    modifies disk, detector
    ensures detector.Valid()
    ensures disk.uploads == old(disk.uploads)
    ensures var found := old(FirstExisting(disk.uploads, blueprintId, settings.allowedExtensions)).Some?;
      var inferred := InferenceOutcome(old(detector.model), detector.modelPath, fileExists, loaded, yolo, settings);
      (r, disk.results) == (DetectReply(found, blueprintId, inferred, saveFault),
                            DetectStored(found, blueprintId, inferred, saveFault, old(disk.results), now))
    ensures old(FirstExisting(disk.uploads, blueprintId, settings.allowedExtensions)).None? ==>
      detector.model == old(detector.model)
    ensures old(FirstExisting(disk.uploads, blueprintId, settings.allowedExtensions)).Some? ==>
      detector.model == (var w := LoadOutcome(old(detector.model), detector.modelPath, fileExists, loaded);
                         if w.Ok? then Some(w.value) else old(detector.model))
  {
    var path := GetBlueprintPath(disk, blueprintId, settings.allowedExtensions);
    if path.None? {
      return HttpError(404, "Blueprint not found: " + blueprintId);
    }
    r := InferAndRespond(disk, detector, blueprintId, fileExists, loaded, yolo, now, saveFault, settings);
  }

  /** The `try` block of `detect_elements`: inference, then the response. */
  method InferAndRespond(disk: Disk, detector: BlueprintDetector, blueprintId: string,
                         fileExists: bool, loaded: Result<Weights, Exception>,
                         yolo: (real, real) -> Result<Prediction, Exception>,
                         now: real, saveFault: Option<WriteFault>, settings: Settings)
    returns (r: Reply<DetectionResponse>)
    requires detector.Valid()
    modifies disk, detector
    ensures detector.Valid()
    ensures disk.uploads == old(disk.uploads)
    ensures r == DetectReply(true, blueprintId, InferenceOutcome(old(detector.model), detector.modelPath, fileExists, loaded, yolo, settings), saveFault)
    ensures disk.results == DetectStored(true, blueprintId, InferenceOutcome(old(detector.model), detector.modelPath, fileExists, loaded, yolo, settings), saveFault, old(disk.results), now)
    ensures detector.model == (var w := LoadOutcome(old(detector.model), detector.modelPath, fileExists, loaded);
                               if w.Ok? then Some(w.value) else old(detector.model))
  {
    var raw := RunInference(detector, fileExists, loaded, yolo, settings);
    r := Respond(disk, blueprintId, raw, now, saveFault);
  }

  /** The part of `detect_elements` after inference: on a failure the
      `except` clauses; otherwise the statistics of the raw detections,
      filtering and saving, and the response. */
  method Respond(disk: Disk, blueprintId: string, inferred: Result<seq<Detection>, Exception>, now: real,
                 saveFault: Option<WriteFault>)
    returns (r: Reply<DetectionResponse>)
    modifies disk
    ensures disk.uploads == old(disk.uploads)
    ensures r == DetectReply(true, blueprintId, inferred, saveFault)
    ensures disk.results == DetectStored(true, blueprintId, inferred, saveFault, old(disk.results), now)
  {
    if inferred.Err? {
      return DetectFailure(inferred.error);
    }
    var raw := inferred.value;
    var statistics := GetDetectionStatistics(raw);
    var results := ProcessAndSaveResults(disk, blueprintId, raw, statistics, now, saveFault);
    if results.Err? {
      return DetectFailure(results.error);
    }
    var response := NewDetectionResponse(blueprintId, results.value.totalDetections, results.value.detections,
                                         DetectedMessage);
    if response.Err? {
      return DetectFailure(response.error);
    }
    r := Success(response.value);
  }

  /** The saved statistics describe the raw detections while the reply
      counts the filtered ones: with a single detection below the default
      threshold, the stored total is 1 and the reported total is 0. */
  lemma StatisticsCountUnfilteredDetections(blueprintId: string, results: map<string, ResultsFile>, now: real)
    ensures var raw := [Detection("door", 0.1, [0.0, 0.0, 1.0, 1.0])];
      var stored := Store(results, blueprintId, FilterDetections(raw, DefaultMinConfidence),
                          DetectionStatistics(raw), now);
      DetectReply(true, blueprintId, Result.Ok(raw), None).Success? &&
      DetectReply(true, blueprintId, Result.Ok(raw), None).body.totalDetections == 0 &&
      LoadResults(stored, blueprintId).value.statistics.total == 1
  {
    var raw := [Detection("door", 0.1, [0.0, 0.0, 1.0, 1.0])];
    assert raw[1..] == [];
    assert FilterDetections(raw, DefaultMinConfidence) == [];
  }

  // ---------------------------------------------------------------------
  // GET /results/{blueprint_id}
  // ---------------------------------------------------------------------

  /** `get_results`: a missing results file answers 404; a file that does
      not parse, or a stored detection that fails validation, answers 500;
      otherwise the stored id, detections and statistics. */
  function GetResults(results: map<string, ResultsFile>, blueprintId: string): (r: Reply<ResultsResponse>)
    ensures r.HttpError? ==> r.status == 404 || r.status == 500
    ensures r.HttpError? && r.status == 404 <==> GetResultsPath(blueprintId) !in results
    ensures r.Success? ==> LoadResults(results, blueprintId).Ok?
    ensures r.Success? ==> var doc := LoadResults(results, blueprintId).value;
      r.body == ResultsResponse(doc.id, doc.detections, doc.statistics)
    ensures LoadResults(results, blueprintId).Ok? &&
            (forall d :: d in LoadResults(results, blueprintId).value.detections ==> ConfidenceInRange(d.confidence))
            ==> r.Success?
  {
    match LoadResults(results, blueprintId)
    case Err(e) =>
      if e.FileNotFoundError? then HttpError(404, NotFoundPrefix + blueprintId)
      else HttpError(500, "Failed to load results: " + e.msg)
    case Ok(doc) =>
      match NewResultsResponse(doc.id, doc.detections, doc.statistics)
      case Err(e) => HttpError(500, "Failed to load results: " + e.msg)
      case Ok(response) => Success(response)
  }

  /** After a successful detection, the results endpoint returns the same
      detections the detection endpoint answered with, and the statistics of
      the raw detections. */
  lemma ResultsAfterDetect(results: map<string, ResultsFile>, blueprintId: string, raw: seq<Detection>, now: real)
    requires DetectReply(true, blueprintId, Result.Ok(raw), None).Success?
    ensures var stored := Store(results, blueprintId, FilterDetections(raw, DefaultMinConfidence),
                                DetectionStatistics(raw), now);
      GetResults(stored, blueprintId)
      == Success(ResultsResponse(blueprintId, DetectReply(true, blueprintId, Result.Ok(raw), None).body.detections,
                                 DetectionStatistics(raw)))
  {
    DetectSuccess(true, blueprintId, Result.Ok(raw), None);
    LoadAfterSave(results, blueprintId, FilterDetections(raw, DefaultMinConfidence), DetectionStatistics(raw), now);
  }

  /** A save that fails after opening has emptied the results file: the
      detection answers with the write's error, and the results endpoint
      then answers 500 rather than 404, whatever was stored before. */
  lemma FailedSaveAnswers500(results: map<string, ResultsFile>, blueprintId: string, raw: seq<Detection>,
                             now: real, e: Exception)
    ensures DetectReply(true, blueprintId, Result.Ok(raw), Some(WriteFailed(e))) == DetectFailure(e)
    ensures var stored := DetectStored(true, blueprintId, Result.Ok(raw), Some(WriteFailed(e)), results, now);
      GetResults(stored, blueprintId).HttpError? && GetResults(stored, blueprintId).status == 500
  {
    FailedWriteLosesResults(results, blueprintId, FilterDetections(raw, DefaultMinConfidence),
                            DetectionStatistics(raw), now, e);
  }

  // ---------------------------------------------------------------------
  // GET /blueprints/{blueprint_id}
  // ---------------------------------------------------------------------

  /** `get_blueprint_image`: the stored upload's name, or 404. */
  method GetBlueprintImage(disk: Disk, blueprintId: string, settings: Settings) returns (r: Reply<string>)
    ensures r.Success? <==> exists i :: 0 <= i < |settings.allowedExtensions| &&
                                        blueprintId + settings.allowedExtensions[i] in disk.uploads
    ensures r.Success? ==> r.body == FirstExisting(disk.uploads, blueprintId, settings.allowedExtensions).value
    ensures r.HttpError? ==> r == HttpError(404, "Blueprint image not found: " + blueprintId)
  {
    var path := GetBlueprintPath(disk, blueprintId, settings.allowedExtensions);
    if path.None? {
      return HttpError(404, "Blueprint image not found: " + blueprintId);
    }
    r := Success(path.value);
  }
}
