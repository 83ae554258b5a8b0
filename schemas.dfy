/** The backend's records: the detection dictionary and its validated
    `Detection` model, the statistics dictionary, the stored results document
    and the response models with their defaults. */
module Schemas {
  import opened Common

  /** A detection as the backend passes it around (`kind` is the JSON key
      `label`, a reserved word here). The raw dictionary the
      detector builds and the validated `Detection` model have the same three
      fields; `bbox` is a list of floats of any length. */
  datatype Detection = Detection(kind: string, confidence: real, bbox: seq<real>)

  /** The statistics dictionary `{total, by_type, avg_confidence}`. */
  datatype Statistics = Statistics(total: nat, byType: map<string, nat>, avgConfidence: real)

  /** The JSON document the results store holds: `{id, detections, statistics}`. */
  datatype StoredResults = StoredResults(id: string, detections: seq<Detection>, statistics: Statistics)

  const UploadedMessage := "File uploaded successfully"
  const DetectedMessage := "Detection completed successfully"

  datatype UploadResponse = UploadResponse(id: string, filename: string, message: string := UploadedMessage)

  datatype DetectionResponse = DetectionResponse(
    id: string, totalDetections: int, detections: seq<Detection>, message: string := DetectedMessage)

  datatype ResultsResponse = ResultsResponse(id: string, detections: seq<Detection>, statistics: Statistics)

  datatype ErrorResponse = ErrorResponse(error: string, detail: Option<string> := None)

  /** The field constraint `ge=0.0, le=1.0` on `Detection.confidence`. */
  predicate ConfidenceInRange(c: real)
  {
    0.0 <= c <= 1.0
  }

  /** Stands for the text of pydantic's validation error, which is not modelled. */
  const ConfidenceError := ValidationError("confidence: value must lie in [0.0, 1.0]")

  /** Building one `Detection` model: it exists exactly when the confidence
      constraint holds, and then carries the same fields. */
  function ValidateDetection(d: Detection): (r: Result<Detection, Exception>)
    ensures r.Ok? <==> ConfidenceInRange(d.confidence)
    ensures r.Ok? ==> r.value == d
    ensures r.Err? ==> r.error == ConfidenceError
  {
    if ConfidenceInRange(d.confidence) then Ok(d) else Err(ConfidenceError)
  }

  /** Validating a `List[Detection]`: every entry is validated in order and
      the first invalid one fails the whole list. */
  function ValidateDetections(ds: seq<Detection>): (r: Result<seq<Detection>, Exception>)
    ensures r.Ok? <==> forall i :: 0 <= i < |ds| ==> ConfidenceInRange(ds[i].confidence)
    ensures r.Ok? ==> r.value == ds
    ensures r.Err? ==> r.error == ConfidenceError
  {
    if ds == [] then Ok([])
    else
      match ValidateDetection(ds[0])
      case Err(e) => Err(e)
      case Ok(d) =>
        match ValidateDetections(ds[1..])
        case Err(e) => Err(e)
        case Ok(rest) => Ok([d] + rest)
  }

  /** `DetectionResponse(id=…, total_detections=…, detections=…, message=…)`. */
  function NewDetectionResponse(id: string, total: int, ds: seq<Detection>, message: string): (r: Result<DetectionResponse, Exception>)
    ensures r.Ok? <==> forall i :: 0 <= i < |ds| ==> ConfidenceInRange(ds[i].confidence)
    ensures r.Ok? ==> r.value == DetectionResponse(id, total, ds, message)
  {
    match ValidateDetections(ds)
    case Err(e) => Err(e)
    case Ok(v) => Ok(DetectionResponse(id, total, v, message))
  }

  /** `ResultsResponse(id=…, detections=…, statistics=…)`. */
  function NewResultsResponse(id: string, ds: seq<Detection>, statistics: Statistics): (r: Result<ResultsResponse, Exception>)
    ensures r.Ok? <==> forall i :: 0 <= i < |ds| ==> ConfidenceInRange(ds[i].confidence)
    ensures r.Ok? ==> r.value == ResultsResponse(id, ds, statistics)
  {
    match ValidateDetections(ds)
    case Err(e) => Err(e)
    case Ok(v) => Ok(ResultsResponse(id, v, statistics))
  }

  /** The defaults of the response models. */
  lemma ResponseDefaults(id: string, filename: string, total: int, ds: seq<Detection>, error: string)
    ensures UploadResponse(id, filename).message == "File uploaded successfully"
    ensures DetectionResponse(id, total, ds).message == "Detection completed successfully"
    ensures ErrorResponse(error).detail == None
  {
  }
}
