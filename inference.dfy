/** The inference service: running the detector with the configured
    thresholds, and the statistics of a detection list. */
module Inference {
  import opened Common
  import opened Schemas
  import opened Config
  import opened Tally
  import opened Detector

  const InferenceFailedPrefix := "Inference failed: "

  /** What `run_inference` returns or raises, given what predicting with the
      configured thresholds returns or raises. */
  function Wrapped(p: Result<seq<Detection>, Exception>): (r: Result<seq<Detection>, Exception>)
    ensures p.Ok? ==> r == p
    ensures p.Err? ==> r.Err? && r.error.RuntimeError? && r.error.msg == InferenceFailedPrefix + p.error.msg
  {
    if p.Ok? then p else Err(RuntimeError(InferenceFailedPrefix + p.error.msg))
  }

  function InferenceOutcome(model: Option<Weights>, modelPath: string, fileExists: bool,
                            loaded: Result<Weights, Exception>,
                            yolo: (real, real) -> Result<Prediction, Exception>, settings: Settings)
    : Result<seq<Detection>, Exception>
  {
    Wrapped(PredictOutcome(model, modelPath, fileExists, loaded, yolo,
                           Some(settings.confidenceThreshold), Some(settings.iouThreshold), settings))
  }

  /** `run_inference`: predict with the configured thresholds and re-raise
      any failure as `RuntimeError("Inference failed: …")`. */
  method RunInference(detector: BlueprintDetector, fileExists: bool, loaded: Result<Weights, Exception>,
                      yolo: (real, real) -> Result<Prediction, Exception>, settings: Settings)
    returns (r: Result<seq<Detection>, Exception>)
    requires detector.Valid()
    modifies detector
    ensures detector.Valid()
    ensures detector.model == (var w := LoadOutcome(old(detector.model), detector.modelPath, fileExists, loaded);
                              if w.Ok? then Some(w.value) else old(detector.model))
    ensures r == InferenceOutcome(old(detector.model), detector.modelPath, fileExists, loaded, yolo, settings)
  {
    var p := detector.Predict(fileExists, loaded, yolo, Some(settings.confidenceThreshold), Some(settings.iouThreshold), settings);
    if p.Err? {
      return Err(RuntimeError(InferenceFailedPrefix + p.error.msg));
    }
    r := p;
  }

  /** Whatever goes wrong inside, the caller sees a `RuntimeError` carrying
      the original message after the prefix: a missing model file no longer
      surfaces as a `FileNotFoundError`. */
  lemma InferenceErrorIsRuntimeError(p: Result<seq<Detection>, Exception>)
    requires p.Err?
    ensures !Wrapped(p).error.FileNotFoundError?
    ensures StartsWith(Wrapped(p).error.msg, InferenceFailedPrefix)
    ensures Wrapped(p).error.msg[|InferenceFailedPrefix|..] == p.error.msg
  {
    var m := Wrapped(p).error.msg;
    assert m == InferenceFailedPrefix + p.error.msg;
    assert m[..|InferenceFailedPrefix|] == InferenceFailedPrefix;
  }

  // ---------------------------------------------------------------------
  // get_detection_statistics
  // ---------------------------------------------------------------------

  /** The labels of a detection list, in order. */
  function Labels(ds: seq<Detection>): (ls: seq<string>)
    ensures |ls| == |ds|
    ensures forall i :: 0 <= i < |ds| ==> ls[i] == ds[i].kind
  {
    if ds == [] then [] else Labels(ds[..|ds| - 1]) + [ds[|ds| - 1].kind]
  }

  /** The sum of the confidences, added left to right. */
  function SumConfidence(ds: seq<Detection>): real
  {
    if ds == [] then 0.0 else SumConfidence(ds[..|ds| - 1]) + ds[|ds| - 1].confidence
  }

  /** The statistics of a detection list: its length, the count of each
      exact label, and the mean confidence (0.0 for an empty list). */
  function DetectionStatistics(ds: seq<Detection>): Statistics
  {
    if ds == [] then Statistics(0, map[], 0.0)
    else Statistics(|ds|, Counts(Labels(ds)), SumConfidence(ds) / (|ds| as real))
  }

  /** The total is the length; the keys are exactly the labels that occur,
      each counting its occurrences; an empty list has no keys and a mean
      of 0.0. */
  lemma StatisticsMeaning(ds: seq<Detection>)
    ensures var s := DetectionStatistics(ds);
      && s.total == |ds|
      && (forall k :: k in s.byType <==> exists i :: 0 <= i < |ds| && ds[i].kind == k)
      && (forall k :: k in s.byType ==> s.byType[k] == Occurrences(Labels(ds), k))
      && (ds == [] ==> s.byType == map[] && s.avgConfidence == 0.0)
  {
    if ds != [] {
      var labels := Labels(ds);
      CountsMeaning(labels);
      forall k
        ensures k in labels <==> exists i :: 0 <= i < |ds| && ds[i].kind == k
      {
        if k in labels {
          var i :| 0 <= i < |labels| && labels[i] == k;
          assert ds[i].kind == k;
        }
      }
    }
  }

  /** `get_detection_statistics`: one pass over the list, counting each label
      and adding up the confidences. */
  method GetDetectionStatistics(ds: seq<Detection>) returns (s: Statistics)
    ensures s == DetectionStatistics(ds)
  {
    s := Statistics(|ds|, map[], 0.0);
    if |ds| == 0 {
      return;
    }
    var byType, totalConfidence := CountAndSum(ds);
    s := Statistics(|ds|, byType, totalConfidence / (|ds| as real));
  }

  /** The loop of `get_detection_statistics`. */
  method CountAndSum(ds: seq<Detection>) returns (byType: map<string, nat>, totalConfidence: real)
    ensures byType == Counts(Labels(ds)) && totalConfidence == SumConfidence(ds)
  {
    byType, totalConfidence := map[], 0.0;
    for i := 0 to |ds|
      invariant byType == Counts(Labels(ds[..i]))
      invariant totalConfidence == SumConfidence(ds[..i])
    {
      var kind := ds[i].kind;
      StatisticsStep(ds, i, byType, totalConfidence);
      byType := byType[kind := (if kind in byType then byType[kind] else 0) + 1];
      totalConfidence := totalConfidence + ds[i].confidence;
    }
    assert ds[..|ds|] == ds;
  }

  /** One step of the pass: the counts and the sum of a prefix one longer. */
  lemma StatisticsStep(ds: seq<Detection>, i: int, byType: map<string, nat>, sum: real)
    requires 0 <= i < |ds|
    requires byType == Counts(Labels(ds[..i])) && sum == SumConfidence(ds[..i])
    ensures byType[ds[i].kind := (if ds[i].kind in byType then byType[ds[i].kind] else 0) + 1]
      == Counts(Labels(ds[..i + 1]))
    ensures sum + ds[i].confidence == SumConfidence(ds[..i + 1])
  {
    PrefixStep(ds, i);
    CountsStep(Labels(ds[..i]), ds[i].kind);
  }

  /** Extending the prefix by one detection extends its labels by its label
      and its confidence sum by its confidence. */
  lemma PrefixStep(ds: seq<Detection>, i: int)
    requires 0 <= i < |ds|
    ensures Labels(ds[..i + 1]) == Labels(ds[..i]) + [ds[i].kind]
    ensures SumConfidence(ds[..i + 1]) == SumConfidence(ds[..i]) + ds[i].confidence
  {
    assert ds[..i + 1][..i] == ds[..i];
  }

  /** The per-label counts add up to the total. */
  lemma StatisticsCountsSumToTotal(ds: seq<Detection>)
    ensures Total(DetectionStatistics(ds).byType) == DetectionStatistics(ds).total
  {
    if ds != [] {
      CountsTotal(Labels(ds));
    }
  }

  lemma {:induction false} SumConfidenceBounds(ds: seq<Detection>)
    requires forall i :: 0 <= i < |ds| ==> ConfidenceInRange(ds[i].confidence)
    ensures 0.0 <= SumConfidence(ds) <= |ds| as real
  {
    if ds != [] {
      SumConfidenceBounds(ds[..|ds| - 1]);
      assert ConfidenceInRange(ds[|ds| - 1].confidence);
    }
  }

  /** When every confidence lies in [0, 1], so does the mean. */
  lemma AverageInRange(ds: seq<Detection>)
    requires forall i :: 0 <= i < |ds| ==> ConfidenceInRange(ds[i].confidence)
    ensures ConfidenceInRange(DetectionStatistics(ds).avgConfidence)
  {
    if ds != [] {
      SumConfidenceBounds(ds);
      var sum, n := SumConfidence(ds), |ds| as real;
      assert DetectionStatistics(ds).avgConfidence == sum / n;
      QuotientInUnitRange(sum, n);
    }
  }

  lemma QuotientInUnitRange(a: real, n: real)
    requires n > 0.0 && 0.0 <= a <= n
    ensures 0.0 <= a / n <= 1.0
  {
  }

  /** Labels that differ only in case are counted apart. */
  lemma LabelsAreCaseSensitive(c1: real, c2: real, b1: seq<real>, b2: seq<real>)
    ensures var s := DetectionStatistics([Detection("Wall", c1, b1), Detection("wall", c2, b2)]);
      s.byType == map["Wall" := 1, "wall" := 1]
  {
    var ds := [Detection("Wall", c1, b1), Detection("wall", c2, b2)];
    assert ds[..1] == [Detection("Wall", c1, b1)];
    assert Labels(ds) == ["Wall", "wall"];
    assert ["Wall", "wall"][..1] == ["Wall"];
    assert ["Wall"][..0] == [];
    assert Counts(["Wall"]) == map["Wall" := 1];
  }
}
