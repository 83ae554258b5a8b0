/** The dashboard page: it loads the detections of one blueprint (reading
    stored results, or running detection when none are stored), or shows
    four fixed demonstration detections when the address carries no id,
    and hands the list to the viewer, the overlay, the statistics panel
    and the export panel. */
module Dashboard {
  import opened Common
  import opened ClientTypes
  import StatsPanel
  import Tally

  // ---------------------------------------------------------------------
  // The class filter
  // ---------------------------------------------------------------------

  /** A selection is in force when it is a non-empty string (`null` and
      `''` are falsy). */
  predicate Selects(selected: Option<string>)
  {
    selected.Some? && selected.value != ""
  }

  /** The test the filter applies: labels equal up to case. */
  function MatchesClass(selected: string): Detection -> bool
  {
    (d: Detection) => Lower(d.kind) == Lower(selected)
  }

  /** The detections the viewer and the overlay receive. */
  function FilteredDetections(ds: seq<Detection>, selected: Option<string>): (r: seq<Detection>)
    ensures |r| <= |ds|
    ensures forall d :: d in r ==> d in ds
    ensures Selects(selected) ==> forall d :: d in r ==> Lower(d.kind) == Lower(selected.value)
    ensures !Selects(selected) ==> r == ds
  {
    if Selects(selected) then Filter(ds, MatchesClass(selected.value)) else ds
  }

  /** With a selection, the filter keeps every detection of that class, as
      often as it occurs and in its original order, and nothing else. */
  lemma FilteredExactly(ds: seq<Detection>, selected: string)
    requires selected != ""
    ensures IsSubsequence(FilteredDetections(ds, Some(selected)), ds)
    ensures var r := FilteredDetections(ds, Some(selected));
      forall d :: multiset(r)[d] == (if Lower(d.kind) == Lower(selected) then multiset(ds)[d] else 0)
  {
    FilterIsSubsequence(ds, MatchesClass(selected));
    FilterKeepsExactly(ds, MatchesClass(selected));
  }

  /** Filtering the filtered list again changes nothing. */
  lemma FilterTwiceIsFilterOnce(ds: seq<Detection>, selected: Option<string>)
    ensures FilteredDetections(FilteredDetections(ds, selected), selected) == FilteredDetections(ds, selected)
  {
    if Selects(selected) {
      FilterIdempotent(ds, MatchesClass(selected.value));
    }
  }

  /** Selections that differ only in case select the same detections. */
  lemma {:induction false} SelectionIgnoresCase(ds: seq<Detection>, a: string, b: string)
    requires Lower(a) == Lower(b)
    ensures FilteredDetections(ds, Some(a)) == FilteredDetections(ds, Some(b))
  {
    if a != "" && ds != [] {
      SelectionIgnoresCase(ds[1..], a, b);
    }
  }

  /** The heading over the viewer: the selected class with its first letter
      in upper case, or the full-view heading. */
  function ViewTitle(selected: Option<string>): (t: string)
    ensures !Selects(selected) ==> t == "Full Blueprint View"
    ensures Selects(selected) ==> |t| == |selected.value| + 5 && EndsWith(t, " View")
  {
    if Selects(selected) then
      var c := selected.value;
      [UpperChar(c[0])] + c[1..] + " View"
    else "Full Blueprint View"
  }

  /** The heading keeps the selection after its first letter as it is. */
  lemma TitleKeepsSelection(c: string)
    requires c != ""
    ensures ViewTitle(Some(c))[1..|c|] == c[1..]
    ensures ViewTitle(Some(c))[0] == UpperChar(c[0])
  {
    var t := ViewTitle(Some(c));
    assert t == [UpperChar(c[0])] + (c[1..] + " View");
  }

  lemma WallTitle()
    ensures ViewTitle(Some("wall")) == "Wall View"
  {
    assert ViewTitle(Some("wall")) == [UpperChar('w')] + "all" + " View";
  }

  // ---------------------------------------------------------------------
  // Demonstration data
  // ---------------------------------------------------------------------

  /** Without an id (`/dashboard`, or an empty segment) the page is a demo. */
  predicate UsesMockData(id: Option<string>)
  {
    id.None? || id.value == ""
  }

  const MockDetections: seq<Detection> := [
    Detection("wall", 0.95, Some([50.0, 50.0, 200.0, 10.0])),
    Detection("door", 0.89, Some([120.0, 50.0, 40.0, 60.0])),
    Detection("window", 0.92, Some([200.0, 80.0, 50.0, 40.0])),
    Detection("room", 0.87, Some([50.0, 50.0, 200.0, 150.0]))
  ]

  /** The demo panel counts one detection of each of four classes, with an
      average confidence of 0.9075. */
  lemma MockStats()
    ensures StatsPanel.StatsOf(Some(MockDetections)).total == 4
    ensures StatsPanel.StatsOf(Some(MockDetections)).avgConfidence == 0.9075
    ensures StatsPanel.StatsOf(Some(MockDetections)).byType
      == map["wall" := 1, "door" := 1, "window" := 1, "room" := 1]
  {
    MockLabels();
    MockCounts();
    MockConfidenceSum();
  }

  lemma MockLabels()
    ensures StatsPanel.LowerLabels(MockDetections) == ["wall", "door", "window", "room"]
  {
    var labels := StatsPanel.LowerLabels(MockDetections);
    MockKindsLowerCase();
    assert labels[0] == "wall" && labels[1] == "door" && labels[2] == "window" && labels[3] == "room";
  }

  lemma MockKindsLowerCase()
    ensures Lower("wall") == "wall" && Lower("door") == "door"
    ensures Lower("window") == "window" && Lower("room") == "room"
  {
  }

  lemma MockCounts()
    ensures Tally.Counts(["wall", "door", "window", "room"])
      == map["wall" := 1, "door" := 1, "window" := 1, "room" := 1]
  {
    Tally.CountsStep([], "wall");
    Tally.CountsStep(["wall"], "door");
    Tally.CountsStep(["wall", "door"], "window");
    Tally.CountsStep(["wall", "door", "window"], "room");
    assert [] + ["wall"] == ["wall"];
    assert ["wall"] + ["door"] == ["wall", "door"];
    assert ["wall", "door"] + ["window"] == ["wall", "door", "window"];
    assert ["wall", "door", "window"] + ["room"] == ["wall", "door", "window", "room"];
  }

  lemma MockConfidenceSum()
    ensures StatsPanel.ConfidenceSum(MockDetections) == 3.63
  {
    var ds := MockDetections;
    assert ds[..3][..2][..1][..0] == [];
    assert StatsPanel.ConfidenceSum(ds[..1]) == 0.95;
    assert StatsPanel.ConfidenceSum(ds[..2]) == 0.95 + 0.89 by { assert ds[..2][..1] == ds[..1]; }
    assert StatsPanel.ConfidenceSum(ds[..3]) == 0.95 + 0.89 + 0.92 by { assert ds[..3][..2] == ds[..2]; }
    assert ds[..4] == ds && ds[..3] == ds[..|ds| - 1];
  }

  // ---------------------------------------------------------------------
  // Loading the detections
  // ---------------------------------------------------------------------

  /** How a request of the page ended: with a body whose `detections`
      property may be absent, or with a rejected promise. */
  datatype Outcome = Success(detections: Option<seq<Detection>>) | Failure(err: ApiError)

  /** `body.detections || []`. */
  function DetectionsOrEmpty(ds: Option<seq<Detection>>): seq<Detection>
  {
    if ds.Some? then ds.value else []
  }

  const LoadFallback := "Failed to load results"
  const DetectFallback := "Detection failed"

  /** The page's state variables. */
  datatype PageState = PageState(
    loading: bool,
    detecting: bool,
    error: Option<string>,
    imageData: Option<ImageData>,
    detections: seq<Detection>,
    selectedClass: Option<string>)

  const InitialPage := PageState(false, false, None, None, [], None)

  /** Neither request is in flight. */
  predicate Settled(s: PageState)
  {
    !s.loading && !s.detecting
  }

  predicate IsNotFound(o: Outcome)
  {
    o.Failure? && o.err.status == Some(404)
  }

  /** `runDetection`: the state once the detection request has ended. */
  function AfterDetection(s: PageState, detection: Outcome): PageState
  {
    var s1 := s.(detecting := true, error := None);
    var s2 := match detection
      case Success(ds) => s1.(detections := DetectionsOrEmpty(ds))
      case Failure(e) => s1.(error := Some(ErrorText(e, DetectFallback)));
    s2.(detecting := false)
  }

  /** `fetchResults`: the state once the results request, and the detection
      request a 404 starts, have ended. */
  function AfterFetch(s: PageState, results: Outcome, detection: Outcome): PageState
  {
    var s1 := s.(loading := true, error := None);
    var s2 := match results
      case Success(ds) => s1.(detections := DetectionsOrEmpty(ds))
      case Failure(e) =>
        if e.status == Some(404) then AfterDetection(s1, detection)
        else s1.(error := Some(ErrorText(e, LoadFallback)));
    s2.(loading := false)
  }

  /** A fetch leaves no request in flight, and touches neither the loaded
      image nor the selection. */
  lemma FetchSettles(s: PageState, results: Outcome, detection: Outcome)
    requires !s.detecting
    ensures Settled(AfterFetch(s, results, detection))
    ensures AfterFetch(s, results, detection).imageData == s.imageData
    ensures AfterFetch(s, results, detection).selectedClass == s.selectedClass
  {
  }

  /** Stored results are shown as they are, without an error, and no
      detection is run. */
  lemma StoredResultsShown(s: PageState, ds: Option<seq<Detection>>, detection: Outcome)
    ensures var t := AfterFetch(s, Success(ds), detection);
      && t.error.None?
      && t.detections == (if ds.Some? then ds.value else [])
  {
  }

  /** Only a 404 runs detection: for every other outcome of the results
      request, the detection reply plays no part. */
  lemma OnlyNotFoundRunsDetection(s: PageState, results: Outcome, d1: Outcome, d2: Outcome)
    requires !IsNotFound(results)
    ensures AfterFetch(s, results, d1) == AfterFetch(s, results, d2)
  {
  }

  /** After a 404 the page shows what detection produced, or the
      detection error over the previous detections. */
  lemma NotFoundRunsDetection(s: PageState, results: Outcome, detection: Outcome)
    requires IsNotFound(results)
    ensures var t := AfterFetch(s, results, detection);
      && (detection.Success? ==> t.error.None? && t.detections == DetectionsOrEmpty(detection.detections))
      && (detection.Failure? ==> t.error == Some(ErrorText(detection.err, DetectFallback)) && t.detections == s.detections)
  {
  }

  /** Any other failure keeps the previous detections and reports the
      server's message or the load fallback. */
  lemma OtherFailureReported(s: PageState, e: ApiError, detection: Outcome)
    requires e.status != Some(404)
    ensures var t := AfterFetch(s, Failure(e), detection);
      && t.error == Some(ErrorText(e, LoadFallback))
      && t.detections == s.detections
  {
  }

  /** An error is left exactly when the results request failed other than
      with 404, or it was a 404 and detection failed; the text is never
      empty, so the error card always appears. */
  lemma ErrorIffFailed(s: PageState, results: Outcome, detection: Outcome)
    ensures var t := AfterFetch(s, results, detection);
      && (t.error.Some? <==> results.Failure? && (!IsNotFound(results) || detection.Failure?))
      && (t.error.Some? ==> t.error.value != "")
  {
  }

  /** The backend's error replies carry `detail`, not `message`, so the
      page shows its own fallback texts for them. */
  lemma BackendErrorsShowFallbacks(s: PageState, status: int, detail: string, detection: Outcome)
    ensures status != 404 ==>
      AfterFetch(s, Failure(FromHttpError(status, detail)), detection).error == Some(LoadFallback)
    ensures forall st: int, dt: string :: status == 404 && detection == Failure(FromHttpError(st, dt)) ==>
      AfterFetch(s, Failure(FromHttpError(status, detail)), detection).error == Some(DetectFallback)
  {
  }

  // ---------------------------------------------------------------------
  // What the page shows
  // ---------------------------------------------------------------------

  /** The main area: the demo (a placeholder and the two panels), the
      spinner, the error card, or the viewer with its overlay beside the
      two panels; each carries the lists it is given. */
  datatype Screen =
    | Demo(panel: seq<Detection>, exported: seq<Detection>)
    | Spinner(message: string)
    | ErrorCard(message: string)
    | Results(title: string, viewer: seq<Detection>, overlay: seq<Detection>,
              panel: seq<Detection>, exported: seq<Detection>)

  function ScreenOf(id: Option<string>, s: PageState): Screen
  {
    if UsesMockData(id) then Demo(s.detections, s.detections)
    else if s.loading || s.detecting then
      Spinner(if s.detecting then "Running detection..." else "Loading...")
    else if s.error.Some? && s.error.value != "" then ErrorCard(s.error.value)
    else
      var shown := FilteredDetections(s.detections, s.selectedClass);
      Results(ViewTitle(s.selectedClass), shown, shown, s.detections, s.detections)
  }

  /** The viewer and overlay draw the filtered list; the panels count and
      export the whole list. */
  lemma PanelsSeeWholeList(id: Option<string>, s: PageState)
    requires ScreenOf(id, s).Results?
    ensures var r := ScreenOf(id, s);
      && r.viewer == r.overlay
      && IsSubsequence(r.viewer, r.panel)
      && r.panel == r.exported == s.detections
  {
    if Selects(s.selectedClass) {
      FilteredExactly(s.detections, s.selectedClass.value);
    } else {
      SubsequenceOfItself(s.detections);
    }
  }

  lemma {:induction false} SubsequenceOfItself<T>(s: seq<T>)
    ensures IsSubsequence(s, s)
  {
    if s != [] {
      SubsequenceOfItself(s[1..]);
    }
  }

  /** Nothing on the page ever sets a class (the statistics panel ignores
      its selection callback), so the viewer shows every detection under
      the full-view heading. */
  lemma UnselectedShowsAll(id: Option<string>, s: PageState)
    requires s.selectedClass.None? && ScreenOf(id, s).Results?
    ensures ScreenOf(id, s).viewer == s.detections
    ensures ScreenOf(id, s).title == "Full Blueprint View"
  {
  }

  /** Once a fetch has finished the spinner is gone: the page shows the
      error card exactly when there is an error, and the results otherwise. */
  lemma FetchEndsOnCardOrResults(id: Option<string>, s: PageState, results: Outcome, detection: Outcome)
    requires !UsesMockData(id) && !s.detecting
    ensures var t := AfterFetch(s, results, detection);
      && (ScreenOf(id, t).ErrorCard? <==> t.error.Some?)
      && (ScreenOf(id, t).Results? <==> t.error.None?)
  {
    ErrorIffFailed(s, results, detection);
  }

  // ---------------------------------------------------------------------
  // The component
  // ---------------------------------------------------------------------

  /** The page's state variables, updated by its handlers. The replies of
      the backend are parameters of the handlers that wait for them. */
  class DashboardPage {
    const id: Option<string>
    var loading: bool
    var detecting: bool
    var error: Option<string>
    var imageData: Option<ImageData>
    var detections: seq<Detection>
    var selectedClass: Option<string>

    function State(): PageState
      reads this
    {
      PageState(loading, detecting, error, imageData, detections, selectedClass)
    }

    constructor (id: Option<string>)
      ensures this.id == id && State() == InitialPage
    {
      this.id := id;
      loading, detecting, error, imageData, detections, selectedClass := false, false, None, None, [], None;
    }

    /** The effect run on mount: load the demo list, or fetch. */
    method Mount(results: Outcome, detection: Outcome)
      modifies this
      ensures UsesMockData(id) ==> State() == old(State()).(detections := MockDetections)
      ensures !UsesMockData(id) ==> State() == AfterFetch(old(State()), results, detection)
    {
      if UsesMockData(id) {
        detections := MockDetections;
      } else {
        FetchResults(results, detection);
      }
    }

    /** `fetchResults`, also run by the error card's Retry button. */
    method FetchResults(results: Outcome, detection: Outcome)
      modifies this
      ensures State() == AfterFetch(old(State()), results, detection)
    {
      loading := true;
      error := None;
      match results {
        case Success(ds) =>
          detections := DetectionsOrEmpty(ds);
        case Failure(e) =>
          if e.status == Some(404) {
            RunDetection(detection);
          } else {
            error := Some(ErrorText(e, LoadFallback));
          }
      }
      loading := false;
    }

    method RunDetection(detection: Outcome)
      modifies this
      ensures State() == AfterDetection(old(State()), detection)
    {
      detecting := true;
      error := None;
      match detection {
        case Success(ds) =>
          detections := DetectionsOrEmpty(ds);
        case Failure(e) =>
          error := Some(ErrorText(e, DetectFallback));
      }
      detecting := false;
    }

    /** `handleCanvasReady`: keep what the viewer reports for the overlay. */
    method CanvasReady(data: ImageData)
      modifies this
      ensures State() == old(State()).(imageData := Some(data))
    {
      imageData := Some(data);
    }
  }

  /** A page that mounts with an id and fetches ends on the error card or
      on the results, never on the spinner, and still has no selection. */
  method MountedPage(id: string, results: Outcome, detection: Outcome) returns (screen: Screen)
    requires id != ""
    ensures screen.ErrorCard? || screen.Results?
    ensures screen.Results? ==> screen.viewer == screen.panel && screen.title == "Full Blueprint View"
  {
    var page := new DashboardPage(Some(id));
    page.Mount(results, detection);
    FetchEndsOnCardOrResults(Some(id), InitialPage, results, detection);
    screen := ScreenOf(page.id, page.State());
  }
}
