/** The statistics panel: the number of detections, the count per label
    (labels compared case-insensitively, keyed in lower case), the average
    confidence, and each label's share of the total as a percentage. */
module StatsPanel {
  import opened Common
  import opened ClientTypes
  import Tally
  import DrawBoxes

  /** `{ total, byType, avgConfidence }`. */
  datatype Stats = Stats(total: nat, byType: map<string, nat>, avgConfidence: real)

  /** What the panel shows for an absent or empty list. */
  const NoStats := Stats(0, map[], 0.0)

  /** The lower-cased labels of the list, in order. */
  function LowerLabels(ds: seq<Detection>): (r: seq<string>)
    ensures |r| == |ds|
    ensures forall i :: 0 <= i < |ds| ==> r[i] == Lower(ds[i].kind)
  {
    if ds == [] then [] else LowerLabels(ds[..|ds| - 1]) + [Lower(ds[|ds| - 1].kind)]
  }

  /** The sum of the confidences, added up from the front. */
  function ConfidenceSum(ds: seq<Detection>): real
  {
    if ds == [] then 0.0 else ConfidenceSum(ds[..|ds| - 1]) + ds[|ds| - 1].confidence
  }

  /** The statistics of a list. */
  function StatsOf(detections: Option<seq<Detection>>): Stats
  {
    if detections.None? || detections.value == [] then NoStats
    else
      var ds := detections.value;
      Stats(|ds|, Tally.Counts(LowerLabels(ds)), ConfidenceSum(ds) / |ds| as real)
  }

  /** The memoised computation: one pass over the list that counts each
      lower-cased label and adds up the confidences. */
  method ComputeStats(detections: Option<seq<Detection>>) returns (stats: Stats)
    ensures stats == StatsOf(detections)
  {
    if detections.None? || |detections.value| == 0 {
      return NoStats;
    }
    var ds := detections.value;
    var byType, totalConfidence := CountAndSum(ds);
    stats := Stats(|ds|, byType, totalConfidence / |ds| as real);
  }

  /** The `forEach` pass: count each lower-cased label, add up the
      confidences. */
  method CountAndSum(ds: seq<Detection>) returns (byType: map<string, nat>, totalConfidence: real)
    ensures byType == Tally.Counts(LowerLabels(ds)) && totalConfidence == ConfidenceSum(ds)
  {
    byType, totalConfidence := map[], 0.0;
    for i := 0 to |ds|
      invariant byType == Tally.Counts(LowerLabels(ds[..i]))
      invariant totalConfidence == ConfidenceSum(ds[..i])
    {
      var key := Lower(ds[i].kind);
      StatsStep(ds, i, byType, totalConfidence);
      byType := byType[key := (if key in byType then byType[key] else 0) + 1];
      totalConfidence := totalConfidence + ds[i].confidence;
    }
    assert ds[..|ds|] == ds;
  }

  /** One step of the pass: the counts and the sum of a prefix one longer. */
  lemma StatsStep(ds: seq<Detection>, i: int, byType: map<string, nat>, sum: real)
    requires 0 <= i < |ds|
    requires byType == Tally.Counts(LowerLabels(ds[..i])) && sum == ConfidenceSum(ds[..i])
    ensures var key := Lower(ds[i].kind);
      byType[key := (if key in byType then byType[key] else 0) + 1] == Tally.Counts(LowerLabels(ds[..i + 1]))
    ensures sum + ds[i].confidence == ConfidenceSum(ds[..i + 1])
  {
    assert ds[..i + 1][..i] == ds[..i];
    Tally.CountsStep(LowerLabels(ds[..i]), Lower(ds[i].kind));
  }

  /** A label's share of the total, `(count / total) * 100`. */
  function Percentage(count: nat, total: nat): real
    requires total > 0
  {
    (count as real / total as real) * 100.0
  }

  /** The keys are exactly the lower-cased labels that occur, and each
      counts the detections whose label is that key up to case. */
  lemma ByTypeCountsLabels(ds: seq<Detection>, k: string)
    requires ds != []
    ensures var byType := StatsOf(Some(ds)).byType;
      && (k in byType <==> exists i :: 0 <= i < |ds| && Lower(ds[i].kind) == k)
      && (k in byType ==> byType[k] == Tally.Occurrences(LowerLabels(ds), k))
  {
    var labels := LowerLabels(ds);
    Tally.CountsMeaning(labels);
    if k in labels {
      var i :| 0 <= i < |labels| && labels[i] == k;
      assert Lower(ds[i].kind) == k;
    }
  }

  /** Every key is in lower case, so labels that differ only in case share
      one entry. */
  lemma KeysAreLowerCase(ds: seq<Detection>)
    ensures forall k :: k in StatsOf(Some(ds)).byType ==> Lower(k) == k
  {
    if ds != [] {
      forall k | k in StatsOf(Some(ds)).byType
        ensures Lower(k) == k
      {
        ByTypeCountsLabels(ds, k);
        var i :| 0 <= i < |ds| && Lower(ds[i].kind) == k;
        LowerIdempotent(ds[i].kind);
      }
    }
  }

  /** The per-label counts add up to the total. */
  lemma CountsAddUpToTotal(detections: Option<seq<Detection>>)
    ensures Tally.Total(StatsOf(detections).byType) == StatsOf(detections).total
  {
    if detections.Some? && detections.value != [] {
      Tally.CountsTotal(LowerLabels(detections.value));
    } else {
      assert StatsOf(detections).byType == map[];
    }
  }

  /** The sum of the percentages the bars show, one per key. */
  ghost function PercentSum(m: map<string, nat>, total: nat): real
    requires total > 0
    decreases |m.Keys|
  {
    if m == map[] then 0.0
    else
      var k :| k in m;
      assert |(m - {k}).Keys| < |m.Keys| by { assert (m - {k}).Keys == m.Keys - {k}; }
      Percentage(m[k], total) + PercentSum(m - {k}, total)
  }

  /** Summing the percentages is summing the counts and scaling once. */
  lemma {:induction false} PercentSumScales(m: map<string, nat>, total: nat)
    requires total > 0
    ensures PercentSum(m, total) == Percentage(Tally.Total(m), total)
    decreases |m.Keys|
  {
    if m != map[] {
      var k :| k in m && PercentSum(m, total) == Percentage(m[k], total) + PercentSum(m - {k}, total);
      assert |(m - {k}).Keys| < |m.Keys| by { assert (m - {k}).Keys == m.Keys - {k}; }
      PercentSumScales(m - {k}, total);
      RemovedShare(m, k, total);
    } else {
      NoShare(m, total);
    }
  }

  /** One key's share plus the share of the others is the share of all. */
  lemma RemovedShare(m: map<string, nat>, k: string, total: nat)
    requires total > 0 && k in m
    ensures Percentage(m[k], total) + Percentage(Tally.Total(m - {k}), total) == Percentage(Tally.Total(m), total)
  {
    var c, rest := m[k], Tally.Total(m - {k});
    Tally.TotalRemove(m, k);
    ShareStep(c, rest, total);
  }

  lemma NoShare(m: map<string, nat>, total: nat)
    requires total > 0 && m == map[]
    ensures Percentage(Tally.Total(m), total) == 0.0
  {
    assert Tally.Total(m) == 0;
  }

  /** Adding one key's share to the share of the rest gives the share of
      their sum. */
  lemma ShareStep(c: nat, rest: nat, total: nat)
    requires total > 0
    ensures Percentage(c, total) + Percentage(rest, total) == Percentage(c + rest, total)
  {
    var a, b, t := c as real, rest as real, total as real;
    assert (c + rest) as real == a + b;
    assert a / t + b / t == (a + b) / t;
  }

  /** Shares of a dictionary whose counts add up to the total add up to 100. */
  lemma WholeIsHundred(m: map<string, nat>, total: nat)
    requires total > 0 && Tally.Total(m) == total
    ensures PercentSum(m, total) == 100.0
  {
    PercentSumScales(m, total);
    SelfShare(total as real);
    assert Percentage(total, total) == (total as real / total as real) * 100.0;
  }

  lemma SelfShare(n: real)
    requires n > 0.0
    ensures (n / n) * 100.0 == 100.0
  {
    assert n / n * n == n;
  }

  /** For a non-empty list the bars' percentages add up to 100. */
  lemma PercentagesAddUpTo100(ds: seq<Detection>)
    requires ds != []
    ensures PercentSum(StatsOf(Some(ds)).byType, |ds|) == 100.0
  {
    CountsAddUpToTotal(Some(ds));
    WholeIsHundred(StatsOf(Some(ds)).byType, |ds|);
  }

  /** Confidences in [0, 1] give an average in [0, 1]. */
  lemma AverageInRange(ds: seq<Detection>)
    requires ds != []
    requires forall i :: 0 <= i < |ds| ==> 0.0 <= ds[i].confidence <= 1.0
    ensures 0.0 <= StatsOf(Some(ds)).avgConfidence <= 1.0
  {
    ConfidenceSumBounds(ds);
    UnitQuotient(ConfidenceSum(ds), |ds| as real);
  }

  lemma UnitQuotient(x: real, n: real)
    requires 0.0 <= x <= n && n > 0.0
    ensures 0.0 <= x / n <= 1.0
  {
    assert x / n * n == x;
  }

  lemma {:induction false} ConfidenceSumBounds(ds: seq<Detection>)
    requires forall i :: 0 <= i < |ds| ==> 0.0 <= ds[i].confidence <= 1.0
    ensures 0.0 <= ConfidenceSum(ds) <= |ds| as real
  {
    if ds != [] {
      ConfidenceSumBounds(ds[..|ds| - 1]);
    }
  }

  /** The colour dot of a key is the colour the boxes of its detections are
      drawn in. */
  lemma PanelColorMatchesBoxes(ds: seq<Detection>, i: nat)
    requires i < |ds|
    ensures Lower(ds[i].kind) in StatsOf(Some(ds)).byType
    ensures DrawBoxes.ColorForLabel(Lower(ds[i].kind)) == DrawBoxes.ColorForLabel(ds[i].kind)
  {
    ByTypeCountsLabels(ds, Lower(ds[i].kind));
    LowerIdempotent(ds[i].kind);
    DrawBoxes.ColorIgnoresCase(Lower(ds[i].kind), ds[i].kind);
  }
}
