/** The detection overlay: a second canvas laid over the displayed image,
    sized to the image at the fit scale and placed at the image's offset, on
    which the detections' boxes are drawn with their coordinates scaled by
    the same factor. */
module Overlay {
  import opened Common
  import opened Canvas
  import opened ClientTypes
  import opened DrawBoxes
  import Viewer

  /** `bbox.map(coord => coord * scale)`. */
  function ScaleBbox(bbox: seq<real>, s: real): (r: seq<real>)
    ensures |r| == |bbox|
    ensures forall i :: 0 <= i < |bbox| ==> r[i] == bbox[i] * s
  {
    seq(|bbox|, i requires 0 <= i < |bbox| => bbox[i] * s)
  }

  /** `detections.map(det => ({...det, bbox: det.bbox.map(coord => coord * scale)}))`:
      each detection keeps its label and confidence and has its bbox scaled.
      Reading `det.bbox.map` on a detection without a bbox throws, and then
      there is no list at all. */
  function ScaleDetections(ds: seq<Detection>, s: real): Option<seq<Detection>>
  {
    if forall i :: 0 <= i < |ds| ==> ds[i].bbox.Some?
    then Some(seq(|ds|, i requires 0 <= i < |ds| && ds[i].bbox.Some? =>
                          Scaled(ds[i], s)))
    else None
  }

  /** The size the overlay canvas is given: the image's natural size times
      the scale, through the conversion of a size assignment. */
  function OverlayWidth(data: ImageData): nat
  {
    SizeAssigned(ScaledWidth(data), DefaultWidth)
  }

  function OverlayHeight(data: ImageData): nat
  {
    SizeAssigned(ScaledHeight(data), DefaultHeight)
  }

  /** `img.width * scale` and `img.height * scale`. */
  function ScaledWidth(data: ImageData): real
  {
    data.imgWidth as real * data.scale
  }

  function ScaledHeight(data: ImageData): real
  {
    data.imgHeight as real * data.scale
  }

  /** What the start of each run of the overlay's effect draws: the two
      size assignments reset the canvas, and then it is cleared. */
  function Clearing(data: ImageData): seq<Command>
  {
    [Reset, Reset, ClearRect(0.0, 0.0, OverlayWidth(data) as real, OverlayHeight(data) as real)]
  }

  /** The boxes of one run: only for a non-empty list whose scaling did not
      throw. */
  function DrawnBoxes(data: ImageData, detections: Option<seq<Detection>>,
                      measure: (string, string) -> real): seq<Command>
  {
    if detections.Some? && detections.value != [] then
      match ScaleDetections(detections.value, data.scale)
      case Some(sd) => Boxes(sd, measure)
      case None => []
    else []
  }

  /** Everything one run of the overlay's effect draws. */
  function OverlayCommands(data: ImageData, detections: Option<seq<Detection>>,
                           measure: (string, string) -> real): seq<Command>
  {
    Clearing(data) + DrawnBoxes(data, detections, measure)
  }

  /** The overlay's effect. Without image data the component renders no
      canvas and the effect does nothing. `thrown` reports that scaling the
      list threw. */
  method Render(canvas: Element, imageData: Option<ImageData>, detections: Option<seq<Detection>>)
    returns (thrown: bool)
    modifies canvas, canvas.ctx
    ensures imageData.None? ==> !thrown && unchanged(canvas) && unchanged(canvas.ctx)
    ensures imageData.Some? ==>
      var data := imageData.value;
      && canvas.width == OverlayWidth(data) && canvas.height == OverlayHeight(data)
      && canvas.left == data.position.x && canvas.top == data.position.y
      && canvas.ctx.trace == old(canvas.ctx.trace) + OverlayCommands(data, detections, canvas.ctx.measure)
      && thrown == (detections.Some? && detections.value != [] && ScaleDetections(detections.value, data.scale).None?)
  {
    if imageData.None? {
      return false;
    }
    var data := imageData.value;
    Prepare(canvas, data);
    OverlayCommandsCases(data, detections, canvas.ctx.measure);
    ghost var cleared := canvas.ctx.trace;
    thrown := false;
    if detections.Some? && |detections.value| > 0 {
      var scaled := ScaleDetections(detections.value, data.scale);
      if scaled.None? {
        assert canvas.ctx.trace == cleared;
        return true;
      }
      DrawScaled(canvas.ctx, scaled.value);
      AppendAssociates(old(canvas.ctx.trace), Clearing(data), Boxes(scaled.value, canvas.ctx.measure));
    } else {
      assert canvas.ctx.trace == cleared;
    }
  }

  /** The three ways a run can end. */
  lemma OverlayCommandsCases(data: ImageData, detections: Option<seq<Detection>>,
                             measure: (string, string) -> real)
    ensures detections.None? || detections.value == [] ==> OverlayCommands(data, detections, measure) == Clearing(data)
    ensures detections.Some? && detections.value != [] ==>
      var scaled := ScaleDetections(detections.value, data.scale);
      && (scaled.None? ==> OverlayCommands(data, detections, measure) == Clearing(data))
      && (scaled.Some? ==> OverlayCommands(data, detections, measure) == Clearing(data) + Boxes(scaled.value, measure))
  {
  }

  /** Sizing, placing and clearing the overlay canvas. */
  method Prepare(canvas: Element, data: ImageData)
    modifies canvas, canvas.ctx
    ensures canvas.width == OverlayWidth(data) && canvas.height == OverlayHeight(data)
    ensures canvas.left == data.position.x && canvas.top == data.position.y
    ensures canvas.ctx.trace == old(canvas.ctx.trace) + Clearing(data)
  {
    ghost var before := canvas.ctx.trace;
    canvas.SetWidth(ScaledWidth(data));
    canvas.SetHeight(ScaledHeight(data));
    canvas.SetOffset(data.position.x, data.position.y);
    var w, h := canvas.width, canvas.height;
    assert canvas.ctx.trace == before + [Reset, Reset];
    ClearCanvas(canvas.ctx, Fin(w as real), Fin(h as real));
    assert canvas.ctx.trace == before + [Reset, Reset] + [ClearRect(0.0, 0.0, w as real, h as real)];
  }

  /** `drawAllDetections` on a scaled list: every detection has a bbox, so
      all of them are drawn. */
  method DrawScaled(ctx: Context2D, sd: seq<Detection>)
    requires forall i :: 0 <= i < |sd| ==> sd[i].bbox.Some?
    modifies ctx
    ensures ctx.trace == old(ctx.trace) + Boxes(sd, ctx.measure)
  {
    var completed := DrawAllDetections(ctx, Some(sd));
    assert sd[..|sd|] == sd;
  }

  /** The overlay is cleared before anything is drawn on it, and nothing
      after the clearing resets or clears it again: boxes of an earlier run
      never survive a new one. */
  lemma ClearedBeforeBoxes(data: ImageData, detections: Option<seq<Detection>>, measure: (string, string) -> real)
    ensures var cmds := OverlayCommands(data, detections, measure);
      && |cmds| >= 3
      && cmds[2] == ClearRect(0.0, 0.0, OverlayWidth(data) as real, OverlayHeight(data) as real)
      && forall i :: 3 <= i < |cmds| ==> cmds[i].StrokeRect? || cmds[i].FillRect? || cmds[i].FillText?
  {
    if detections.Some? && detections.value != [] {
      var scaled := ScaleDetections(detections.value, data.scale);
      if scaled.Some? {
        BoxesOnlyDraw(scaled.value, measure);
      }
    }
  }

  /** A single detection without a bbox anywhere in the list means no box
      is drawn at all, not even those before it. */
  lemma MissingBboxDrawsNothing(data: ImageData, ds: seq<Detection>, k: nat, measure: (string, string) -> real)
    requires k < |ds| && ds[k].bbox.None?
    ensures OverlayCommands(data, Some(ds), measure)
              == [Reset, Reset, ClearRect(0.0, 0.0, OverlayWidth(data) as real, OverlayHeight(data) as real)]
  {
  }

  /** An empty or absent list only clears the overlay. */
  lemma NoDetectionsOnlyClears(data: ImageData, detections: Option<seq<Detection>>, measure: (string, string) -> real)
    requires detections.None? || detections.value == []
    ensures |OverlayCommands(data, detections, measure)| == 3
  {
  }

  /** Detections received from the backend always have a bbox, so scaling
      them never throws. */
  lemma ServerDetectionsScale(ds: seq<Schemas.Detection>, s: real)
    ensures ScaleDetections(FromServerList(ds), s).Some?
  {
  }

  /** With every bbox complete, the overlay draws, after the clearing, one
      block of four commands per detection, in order: the box of the
      detection with its bbox scaled. */
  lemma BoxesAtScale(data: ImageData, ds: seq<Detection>, measure: (string, string) -> real)
    requires ds != []
    requires forall i :: 0 <= i < |ds| ==> ds[i].bbox.Some? && |ds[i].bbox.value| >= 4
    ensures var cmds := OverlayCommands(data, Some(ds), measure);
      && |cmds| == 3 + 4 * |ds|
      && forall i :: 0 <= i < |ds| ==> cmds[3 + 4 * i .. 7 + 4 * i] == BoxOf(Scaled(ds[i], data.scale), measure)
  {
    OverlayCommandsCases(data, Some(ds), measure);
    ScaledAllFull(ds, data.scale);
    BoxesLength(ScaleDetections(ds, data.scale).value, measure);
    forall i | 0 <= i < |ds|
      ensures OverlayCommands(data, Some(ds), measure)[3 + 4 * i .. 7 + 4 * i]
                == BoxOf(Scaled(ds[i], data.scale), measure)
    {
      FrameInBoxes(ds, i, data.scale, measure);
      BlockBehind(Clearing(data), Boxes(ScaleDetections(ds, data.scale).value, measure), i);
    }
  }

  /** Scaling keeps every bbox present and at least four long. */
  lemma ScaledAllFull(ds: seq<Detection>, s: real)
    requires forall i :: 0 <= i < |ds| ==> ds[i].bbox.Some? && |ds[i].bbox.value| >= 4
    ensures ScaleDetections(ds, s).Some?
    ensures forall i :: 0 <= i < |ScaleDetections(ds, s).value| ==>
      ScaleDetections(ds, s).value[i].bbox.Some? && |ScaleDetections(ds, s).value[i].bbox.value| >= 4
  {
  }

  /** The `i`-th block of four, behind a prefix of three. */
  lemma BlockBehind<T>(c: seq<T>, b: seq<T>, i: nat)
    requires |c| == 3 && 4 * i + 4 <= |b|
    ensures (c + b)[3 + 4 * i .. 7 + 4 * i] == b[4 * i .. 4 * i + 4]
  {
  }

  /** The block of four commands the `i`-th detection draws once the list
      is scaled. */
  lemma FrameInBoxes(ds: seq<Detection>, i: nat, s: real, measure: (string, string) -> real)
    requires forall i :: 0 <= i < |ds| ==> ds[i].bbox.Some? && |ds[i].bbox.value| >= 4
    requires i < |ds|
    ensures var b := ds[i].bbox.value;
      && |Boxes(ScaleDetections(ds, s).value, measure)| == 4 * |ds|
      && Boxes(ScaleDetections(ds, s).value, measure)[4 * i .. 4 * i + 4] == BoxOf(Scaled(ds[i], s), measure)
  {
    ScaledAllFull(ds, s);
    var sd := ScaleDetections(ds, s).value;
    assert sd[i] == Scaled(ds[i], s);
    assert |Boxes(sd, measure)| == 4 * |sd| && Boxes(sd, measure)[4 * i .. 4 * i + 4] == BoxOf(sd[i], measure) by {
      BoxesOnePerDetection(sd, measure);
    }
  }

  /** A detection with its bbox scaled. */
  function Scaled(d: Detection, s: real): Detection
    requires d.bbox.Some?
  {
    d.(bbox := Some(ScaleBbox(d.bbox.value, s)))
  }

  /** The box of a detection with a full bbox, scaled by `s`, is outlined
      at the scaled bbox in the label's colour, with the text chip resting on
      the scaled box's top edge. */
  lemma ScaledBoxOutline(d: Detection, s: real, measure: (string, string) -> real)
    requires d.bbox.Some? && |d.bbox.value| >= 4
    ensures var b := d.bbox.value;
      var cmds := BoxOf(Scaled(d, s), measure);
      && |cmds| == 4
      && cmds[0] == StrokeRect(ColorForLabel(d.kind), BoxLineWidth, b[0] * s, b[1] * s, b[2] * s, b[3] * s)
      && cmds[2].FillRect? && cmds[2].x == b[0] * s && cmds[2].y + cmds[2].h == b[1] * s
  {
    FullBoxCommands(ScaleBbox(d.bbox.value, s), d.kind, d.confidence, None, measure);
  }

  /** When the image data comes from the viewer's load, the overlay lies
      inside the container, starts where the image was drawn, and is less
      than a pixel narrower and shorter than the drawn image. */
  lemma OverlayOverImage(cw: nat, ch: nat, iw: nat, ih: nat)
    requires iw > 0 && ih > 0 && cw <= MaxReflected && ch <= MaxReflected
    ensures var s := Viewer.FitScale(cw, ch, iw, ih);
      OverlayInside(cw, ch, ImageData(iw, ih, s, Viewer.Centre(cw, ch, iw, ih, s)))
  {
    var s := Viewer.FitScale(cw, ch, iw, ih);
    Viewer.FitScaleIsLargestFit(cw, ch, iw, ih);
    Viewer.FitIsCentred(cw, ch, iw, ih);
    CentredOverlayInside(cw, ch, iw, ih, s);
  }

  /** The overlay for `data` lies inside a `cw` by `ch` container and is
      less than a pixel narrower and shorter than the scaled image. */
  predicate OverlayInside(cw: nat, ch: nat, data: ImageData)
  {
    && data.position.x >= 0.0 && data.position.y >= 0.0
    && data.position.x + OverlayWidth(data) as real <= cw as real
    && data.position.y + OverlayHeight(data) as real <= ch as real
    && OverlayWidth(data) as real <= ScaledWidth(data) < OverlayWidth(data) as real + 1.0
    && OverlayHeight(data) as real <= ScaledHeight(data) < OverlayHeight(data) as real + 1.0
  }

  /** The same for any scale at which the centred image fits. */
  lemma CentredOverlayInside(cw: nat, ch: nat, iw: nat, ih: nat, s: real)
    requires cw <= MaxReflected && ch <= MaxReflected && s >= 0.0
    requires var p := Viewer.Centre(cw, ch, iw, ih, s);
      p.x >= 0.0 && p.y >= 0.0
    ensures OverlayInside(cw, ch, ImageData(iw, ih, s, Viewer.Centre(cw, ch, iw, ih, s)))
  {
    var data := ImageData(iw, ih, s, Viewer.Centre(cw, ch, iw, ih, s));
    var w, h := ScaledWidth(data), ScaledHeight(data);
    assert data.position == Point((cw as real - w) / 2.0, (ch as real - h) / 2.0);
    ProductNonNegative(iw as real, s);
    ProductNonNegative(ih as real, s);
    SideInside(cw, w, (cw as real - w) / 2.0, DefaultWidth);
    SideInside(ch, h, (ch as real - h) / 2.0, DefaultHeight);
  }

  lemma ProductNonNegative(a: real, b: real)
    requires a >= 0.0 && b >= 0.0
    ensures a * b >= 0.0
  {
  }

  /** One axis: an image of drawn length `len` centred with margin `m`. */
  lemma SideInside(c: nat, len: real, m: real, default: nat)
    requires c <= MaxReflected && 0.0 <= len && 0.0 <= m && m + len + m == c as real
    ensures m + SizeAssigned(len, default) as real <= c as real
    ensures SizeAssigned(len, default) as real <= len < SizeAssigned(len, default) as real + 1.0
  {
    SizeAssignedTruncates(len, default);
  }

  /** A 1000 by 800 blueprint shown in a 500 by 700 container is drawn at
      half size, 150 pixels from the top, under a 500 by 400 overlay. */
  lemma HalfSizeFit()
    ensures var s := Viewer.FitScale(500, 700, 1000, 800);
      var p := Viewer.Centre(500, 700, 1000, 800, s);
      && s == 0.5 && p == Point(0.0, 150.0)
      && OverlayWidth(ImageData(1000, 800, s, p)) == 500
      && OverlayHeight(ImageData(1000, 800, s, p)) == 400
  {
    var s := Viewer.FitScale(500, 700, 1000, 800);
    assert s == 0.5;
    assert ScaledWidth(ImageData(1000, 800, s, Point(0.0, 150.0))) == 500.0;
    assert ScaledHeight(ImageData(1000, 800, s, Point(0.0, 150.0))) == 400.0;
  }

  /** On that overlay a wall detected at (100, 100) of size 50 by 20 is
      outlined at (50, 50) of size 25 by 10, that is at (50, 200) in the
      container. */
  lemma HalfSizeWallOutline(measure: (string, string) -> real)
    ensures var data := ImageData(1000, 800, 0.5, Point(0.0, 150.0));
      var cmds := OverlayCommands(data, Some([Detection("wall", 0.9, Some([100.0, 100.0, 50.0, 20.0]))]), measure);
      && |cmds| == 7
      && cmds[3] == StrokeRect("#ef4444", 3.0, 50.0, 50.0, 25.0, 10.0)
      && data.position.x + cmds[3].x == 50.0 && data.position.y + cmds[3].y == 200.0
  {
    var d := Detection("wall", 0.9, Some([100.0, 100.0, 50.0, 20.0]));
    var data := ImageData(1000, 800, 0.5, Point(0.0, 150.0));
    BoxesAtScale(data, [d], measure);
    ScaledBoxOutline(d, 0.5, measure);
    DrawBoxes.WallsAreRed();
  }
}
