/** Post-processing of raw detections: the confidence filter, the conversion
    to validated `Detection` records, and the results store that `save_results`
    writes and `load_results` reads. The store is the results directory of a
    `FileHandler.Disk`. */
module Postprocess {
  import opened Common
  import opened Schemas
  import opened FileHandler

  /** The default of `filter_detections`' `min_confidence`. */
  const DefaultMinConfidence: real := 0.25

  function AtLeast(minConfidence: real): Detection -> bool
  {
    (d: Detection) => d.confidence >= minConfidence
  }

  /** `filter_detections`: the detections whose confidence reaches the threshold. */
  function FilterDetections(ds: seq<Detection>, minConfidence: real): (r: seq<Detection>)
    ensures |r| <= |ds|
    ensures forall d :: d in r ==> d in ds && d.confidence >= minConfidence
  {
    Filter(ds, AtLeast(minConfidence))
  }

  /** The filter keeps every detection at or above the threshold, as often as
      it occurs, drops every other one, and keeps the input order. */
  lemma FilterDetectionsExactly(ds: seq<Detection>, minConfidence: real)
    ensures forall d :: multiset(FilterDetections(ds, minConfidence))[d] ==
                        (if d.confidence >= minConfidence then multiset(ds)[d] else 0)
    ensures IsSubsequence(FilterDetections(ds, minConfidence), ds)
  {
    FilterKeepsExactly(ds, AtLeast(minConfidence));
    FilterIsSubsequence(ds, AtLeast(minConfidence));
  }

  lemma FilterDetectionsIdempotent(ds: seq<Detection>, minConfidence: real)
    ensures FilterDetections(FilterDetections(ds, minConfidence), minConfidence) == FilterDetections(ds, minConfidence)
  {
    FilterIdempotent(ds, AtLeast(minConfidence));
  }

  /** Filtering a concatenation filters each part. */
  lemma FilterDetectionsAppend(a: seq<Detection>, b: seq<Detection>, minConfidence: real)
    ensures FilterDetections(a + b, minConfidence) == FilterDetections(a, minConfidence) + FilterDetections(b, minConfidence)
  {
    FilterAppend(a, b, AtLeast(minConfidence));
  }

  /** `format_detections`: `[Detection(**det) for det in detections]`. The
      comprehension builds the records left to right and the first record that
      fails validation raises. */
  function FormatDetections(ds: seq<Detection>): (r: Result<seq<Detection>, Exception>)
    ensures r.Ok? ==> |r.value| == |ds|
  {
    if ds == [] then Ok([])
    else
      match FormatDetections(ds[..|ds| - 1])
      case Err(e) => Err(e)
      case Ok(init) =>
        match ValidateDetection(ds[|ds| - 1])
        case Err(e) => Err(e)
        case Ok(d) => Ok(init + [d])
  }

  /** The conversion yields one record per input, in order, with the same
      fields, exactly when every confidence lies in [0, 1]; this is also what
      validating a `List[Detection]` field does. */
  lemma {:induction false} FormatDetectionsValidates(ds: seq<Detection>)
    ensures FormatDetections(ds) == ValidateDetections(ds)
  {
    if ds != [] {
      var n := |ds| - 1;
      FormatDetectionsValidates(ds[..n]);
      if ValidateDetections(ds[..n]).Ok? && ValidateDetection(ds[n]).Ok? {
        assert ds == ds[..n] + [ds[n]];
      } else if ValidateDetections(ds[..n]).Err? {
        var i :| 0 <= i < n && !ConfidenceInRange(ds[..n][i].confidence);
        assert !ConfidenceInRange(ds[i].confidence);
      }
    }
  }

  // ---------------------------------------------------------------------
  // The results store
  // ---------------------------------------------------------------------

  /** The results directory after `save_results(blueprintId, ds, statistics)`
      at time `now`: the blueprint's JSON file holds the document. */
  function Store(results: map<string, ResultsFile>, blueprintId: string, ds: seq<Detection>,
                 statistics: Statistics, now: real): (after: map<string, ResultsFile>)
    ensures after.Keys == results.Keys + {GetResultsPath(blueprintId)}
    ensures forall n :: n in results && n != GetResultsPath(blueprintId) ==> after[n] == results[n]
  {
    results[GetResultsPath(blueprintId) := ResultsFile(now, Parsed(StoredResults(blueprintId, ds, statistics)))]
  }

  /** The results directory after `open("w")` emptied the blueprint's file
      and the write into it failed: what is left does not parse. */
  function Truncated(results: map<string, ResultsFile>, blueprintId: string, now: real): (after: map<string, ResultsFile>)
    ensures after.Keys == results.Keys + {GetResultsPath(blueprintId)}
    ensures forall n :: n in results && n != GetResultsPath(blueprintId) ==> after[n] == results[n]
    ensures after[GetResultsPath(blueprintId)].content.Unparsable?
  {
    results[GetResultsPath(blueprintId) := ResultsFile(now, Unparsable)]
  }

  /** The results directory after `save_results`: unchanged when the file
      cannot be opened, emptied when the write fails, otherwise the store. */
  function SavedResults(results: map<string, ResultsFile>, blueprintId: string, ds: seq<Detection>,
                        statistics: Statistics, now: real, fault: Option<WriteFault>): map<string, ResultsFile>
  {
    match fault
    case None => Store(results, blueprintId, ds, statistics, now)
    case Some(OpenFailed(_)) => results
    case Some(WriteFailed(_)) => Truncated(results, blueprintId, now)
  }

  /** `save_results`. `fault` stands for a failure to open the file for
      writing, which writes nothing, or a failure of `json.dump` or of the
      close, after opening has emptied the file. */
  method SaveResults(disk: Disk, blueprintId: string, ds: seq<Detection>, statistics: Statistics,
                     now: real, fault: Option<WriteFault>)
    returns (r: Result<(), Exception>)
    modifies disk
    ensures disk.uploads == old(disk.uploads)
    ensures fault.Some? ==> r == Err(fault.value.error)
    ensures fault.Some? && fault.value.OpenFailed? ==> disk.results == old(disk.results)
    ensures fault.Some? && fault.value.WriteFailed? ==> disk.results == Truncated(old(disk.results), blueprintId, now)
    ensures fault.None? ==> r == Ok(()) && disk.results == Store(old(disk.results), blueprintId, ds, statistics, now)
  {
    if fault.Some? && fault.value.OpenFailed? {
      return Err(fault.value.error);
    }
    if fault.Some? {
      disk.results := Truncated(disk.results, blueprintId, now);
      return Err(fault.value.error);
    }
    disk.results := Store(disk.results, blueprintId, ds, statistics, now);
    r := Ok(());
  }

  const NotFoundPrefix := "Results not found for blueprint ID: "

  /** `load_results`: a missing file raises `FileNotFoundError`, a file that
      does not parse raises the decoder's `ValueError`, and otherwise the
      document is returned. */
  function LoadResults(results: map<string, ResultsFile>, blueprintId: string): (r: Result<StoredResults, Exception>)
    ensures GetResultsPath(blueprintId) !in results <==> r == Err(FileNotFoundError(NotFoundPrefix + blueprintId))
    ensures r.Ok? <==> GetResultsPath(blueprintId) in results && results[GetResultsPath(blueprintId)].content.Parsed?
    ensures r.Ok? ==> r.value == results[GetResultsPath(blueprintId)].content.document
  {
    var path := GetResultsPath(blueprintId);
    if path !in results then Err(FileNotFoundError(NotFoundPrefix + blueprintId))
    else match results[path].content
      case Unparsable => Err(ValueError("Expecting value: line 1 column 1 (char 0)"))
      case Parsed(document) => Ok(document)
  }

  /** Loading what was just saved returns it. */
  lemma LoadAfterSave(results: map<string, ResultsFile>, blueprintId: string, ds: seq<Detection>,
                      statistics: Statistics, now: real)
    ensures LoadResults(Store(results, blueprintId, ds, statistics, now), blueprintId)
         == Ok(StoredResults(blueprintId, ds, statistics))
  {
  }

  /** A write that fails after opening loses the earlier results: loading
      then fails, and not with `FileNotFoundError`, whatever was stored
      before. */
  lemma FailedWriteLosesResults(results: map<string, ResultsFile>, blueprintId: string, ds: seq<Detection>,
                                statistics: Statistics, now: real, e: Exception)
    ensures var after := SavedResults(results, blueprintId, ds, statistics, now, Some(WriteFailed(e)));
      LoadResults(after, blueprintId).Err? && !LoadResults(after, blueprintId).error.FileNotFoundError?
  {
  }

  /** Saving one blueprint's results does not change what loading another
      blueprint's returns. */
  lemma LoadAfterSaveOther(results: map<string, ResultsFile>, saved: string, other: string,
                           ds: seq<Detection>, statistics: Statistics, now: real)
    requires saved != other
    ensures LoadResults(Store(results, saved, ds, statistics, now), other) == LoadResults(results, other)
  {
    if GetResultsPath(saved) == GetResultsPath(other) {
      ResultsPathInjective(saved, other);
    }
  }

  /** The dictionary `process_and_save_results` returns. */
  datatype Processed = Processed(id: string, detections: seq<Detection>, statistics: Statistics, totalDetections: nat)

  /** `process_and_save_results`: filter at the default threshold, save the
      kept detections with the statistics as given, and report them. */
  method ProcessAndSaveResults(disk: Disk, blueprintId: string, raw: seq<Detection>, statistics: Statistics,
                               now: real, fault: Option<WriteFault>)
    returns (r: Result<Processed, Exception>)
    modifies disk
    ensures disk.uploads == old(disk.uploads)
    ensures var kept := FilterDetections(raw, DefaultMinConfidence);
      disk.results == SavedResults(old(disk.results), blueprintId, kept, statistics, now, fault) &&
      if fault.Some? then r == Err(fault.value.error)
      else r == Ok(Processed(blueprintId, kept, statistics, |kept|))
    ensures r.Ok? ==> r.value.totalDetections == |r.value.detections|
    ensures r.Ok? ==> LoadResults(disk.results, blueprintId) == Ok(StoredResults(blueprintId, r.value.detections, statistics))
  {
    var kept := FilterDetections(raw, DefaultMinConfidence);
    var saved := SaveResults(disk, blueprintId, kept, statistics, now, fault);
    if saved.Err? {
      return Err(saved.error);
    }
    LoadAfterSave(old(disk.results), blueprintId, kept, statistics, now);
    r := Ok(Processed(blueprintId, kept, statistics, |kept|));
  }
}
