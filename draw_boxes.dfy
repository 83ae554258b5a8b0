/** The drawing helpers of the client: the label palette, the command
    sequence that draws one detection (outline, tinted fill, label chip,
    label text), clearing a surface, and drawing a whole list. */
module DrawBoxes {
  import opened Common
  import opened Canvas
  import opened ClientTypes

  /** The palette, keyed by lower-case label. */
  const LabelColors: map<string, string> :=
    map["wall" := "#ef4444", "door" := "#22c55e", "window" := "#3b82f6", "room" := "#a855f7",
        "default" := "#f59e0b"]

  const DefaultColor := "#f59e0b"
  /** Appended to a colour for the box's fill: an alpha of 0x20. */
  const FillAlpha := "20"
  const BoxLineWidth := 3.0
  const LabelFont := "bold 14px Inter, sans-serif"
  const LabelTextColor := "#ffffff"
  const TextHeight := 20.0
  const Padding := 6.0

  /** `getColorForLabel`: the palette entry of the lower-cased label, or the
      default colour. */
  function ColorForLabel(kind: string): (c: string)
    ensures c in {"#ef4444", "#22c55e", "#3b82f6", "#a855f7", DefaultColor}
    ensures Lower(kind) == "wall" ==> c == "#ef4444"
    ensures Lower(kind) == "door" ==> c == "#22c55e"
    ensures Lower(kind) == "window" ==> c == "#3b82f6"
    ensures Lower(kind) == "room" ==> c == "#a855f7"
    ensures Lower(kind) !in {"wall", "door", "window", "room"} ==> c == DefaultColor
  {
    if Lower(kind) in LabelColors then LabelColors[Lower(kind)] else LabelColors["default"]
  }

  /** Walls are drawn in red, whatever the case of the label. */
  lemma WallsAreRed()
    ensures ColorForLabel("wall") == "#ef4444" && ColorForLabel("WALL") == "#ef4444"
  {
    assert Lower("wall") == "wall";
    assert Lower("WALL") == "wall";
  }

  /** Labels that differ only in case get the same colour. */
  lemma ColorIgnoresCase(a: string, b: string)
    requires Lower(a) == Lower(b)
    ensures ColorForLabel(a) == ColorForLabel(b)
  {
  }

  /** The colour of a box: an explicit, non-empty colour wins over the
      label's colour. */
  function BoxColor(kind: string, color: Option<string>): (c: string)
    ensures color.Some? && color.value != "" ==> c == color.value
    ensures color.None? || color.value == "" ==> c == ColorForLabel(kind)
  {
    if color.Some? && color.value != "" then color.value else ColorForLabel(kind)
  }

  /** The chip text: the label, a space, the confidence as a whole
      percentage, and a percent sign. */
  function LabelText(kind: string, confidence: real): string
  {
    kind + " " + ToFixed0(confidence * 100.0) + "%"
  }

  /** For a confidence in [0, 1] the chip shows a whole percentage between 0
      and 100, rounded half up. */
  lemma LabelTextPercent(kind: string, confidence: real)
    requires 0.0 <= confidence <= 1.0
    ensures exists n: nat :: n <= 100 && n as real - 0.5 <= confidence * 100.0 < n as real + 0.5
                             && LabelText(kind, confidence) == kind + " " + NatToString(n) + "%"
  {
    var n := (confidence * 100.0 + 0.5).Floor;
    assert 0 <= n <= 100;
    assert LabelText(kind, confidence) == kind + " " + NatToString(n) + "%";
  }

  /** The coordinate a destructuring `[x, y, width, height] = bbox` binds:
      an entry past the end is `undefined`, which the canvas sees as NaN. */
  function Coord(bbox: seq<real>, i: nat): (n: Num)
    ensures n.Fin? <==> i < |bbox|
    ensures n.Fin? ==> n.v == bbox[i]
  {
    if i < |bbox| then Fin(bbox[i]) else NaN
  }

  /** The outline and the tinted fill of a box in colour `c`. */
  function FrameCommands(c: string, x: Num, y: Num, w: Num, h: Num): seq<Command>
  {
    if Finite4(x, y, w, h)
    then [StrokeRect(c, BoxLineWidth, x.v, y.v, w.v, h.v), FillRect(c + FillAlpha, x.v, y.v, w.v, h.v)]
    else []
  }

  /** The label chip in colour `c` and the label text on it, for a box whose
      top-left corner is (x, y). */
  function LabelCommands(c: string, text: string, textWidth: real, x: Num, y: Num): seq<Command>
  {
    if Finite2(x, y)
    then [FillRect(c, x.v, y.v - TextHeight - Padding, textWidth + Padding * 2.0, TextHeight + Padding),
          FillText(LabelTextColor, LabelFont, text, x.v + Padding, y.v - Padding - 4.0)]
    else []
  }

  /** The commands `drawBoundingBox` leaves in the trace. */
  function BoxCommands(bbox: seq<real>, kind: string, confidence: real, color: Option<string>,
                       measure: (string, string) -> real): seq<Command>
  {
    var c := BoxColor(kind, color);
    var text := LabelText(kind, confidence);
    FrameCommands(c, Coord(bbox, 0), Coord(bbox, 1), Coord(bbox, 2), Coord(bbox, 3))
    + LabelCommands(c, text, measure(LabelFont, text), Coord(bbox, 0), Coord(bbox, 1))
  }

  /** The style `drawBoundingBox` leaves the context in. */
  function BoxStyle(kind: string, color: Option<string>): Style
  {
    Style(BoxColor(kind, color), LabelTextColor, BoxLineWidth, LabelFont)
  }

  /** A full bbox gives four commands: the outline and the tinted fill both
      cover exactly the bbox; the chip, of height 26 and of the text's width
      plus 12, sits on the box with its bottom edge on the box's top edge;
      the text is drawn 6 to the right of the box's left edge and 10 above
      its top edge. */
  lemma FullBoxCommands(bbox: seq<real>, kind: string, confidence: real, color: Option<string>,
                        measure: (string, string) -> real)
    requires |bbox| >= 4
    ensures var cmds := BoxCommands(bbox, kind, confidence, color, measure);
      var c := BoxColor(kind, color);
      && |cmds| == 4
      && cmds[0] == StrokeRect(c, 3.0, bbox[0], bbox[1], bbox[2], bbox[3])
      && cmds[1] == FillRect(c + "20", bbox[0], bbox[1], bbox[2], bbox[3])
      && cmds[2].FillRect? && cmds[2].style == c && cmds[2].x == bbox[0]
      && cmds[2].y + cmds[2].h == bbox[1] && cmds[2].h == 26.0
      && cmds[2].w == measure(LabelFont, LabelText(kind, confidence)) + 12.0
      && cmds[3] == FillText("#ffffff", LabelFont, LabelText(kind, confidence), bbox[0] + 6.0, bbox[1] - 10.0)
  {
    assert Finite4(Coord(bbox, 0), Coord(bbox, 1), Coord(bbox, 2), Coord(bbox, 3));
  }

  /** The chip is not clamped to the surface: a box closer than 26 to the top
      edge gets a chip that starts above the surface. */
  lemma ChipNotClamped(bbox: seq<real>, kind: string, confidence: real, color: Option<string>,
                       measure: (string, string) -> real)
    requires |bbox| >= 4 && 0.0 <= bbox[1] < 26.0
    ensures BoxCommands(bbox, kind, confidence, color, measure)[2].y < 0.0
  {
    FullBoxCommands(bbox, kind, confidence, color, measure);
  }

  /** A bbox with two or three entries gives only the chip and the text; one
      with fewer gives nothing. */
  lemma ShortBboxCommands(bbox: seq<real>, kind: string, confidence: real, color: Option<string>,
                          measure: (string, string) -> real)
    requires |bbox| < 4
    ensures var cmds := BoxCommands(bbox, kind, confidence, color, measure);
      && (|bbox| < 2 ==> cmds == [])
      && (|bbox| >= 2 ==> |cmds| == 2 && cmds[0].FillRect? && cmds[1].FillText?)
  {
    assert !Coord(bbox, 3).Fin?;
  }

  /** Stroking and filling the box itself. */
  method DrawFrame(ctx: Context2D, c: string, x: Num, y: Num, w: Num, h: Num)
    modifies ctx
    ensures ctx.trace == old(ctx.trace) + FrameCommands(c, x, y, w, h)
    ensures ctx.CurrentStyle() == old(ctx.CurrentStyle()).(strokeStyle := c, lineWidth := BoxLineWidth, fillStyle := c + FillAlpha)
  {
    ctx.SetStrokeStyle(c);
    ctx.SetLineWidth(BoxLineWidth);
    ctx.StrokeRect(x, y, w, h);
    ctx.SetFillStyle(c + FillAlpha);
    ctx.FillRect(x, y, w, h);
  }

  /** Drawing the chip and the label text on it. */
  method DrawLabel(ctx: Context2D, c: string, text: string, x: Num, y: Num)
    modifies ctx
    ensures ctx.trace == old(ctx.trace) + LabelCommands(c, text, ctx.measure(LabelFont, text), x, y)
    ensures ctx.CurrentStyle() == old(ctx.CurrentStyle()).(font := LabelFont, fillStyle := LabelTextColor)
  {
    ctx.SetFont(LabelFont);
    var textWidth := ctx.MeasureText(text);
    ctx.SetFillStyle(c);
    ctx.FillRect(x, Offset(y, -TextHeight - Padding), Fin(textWidth + Padding * 2.0), Fin(TextHeight + Padding));
    ctx.SetFillStyle(LabelTextColor);
    ctx.FillText(text, Offset(x, Padding), Offset(y, -Padding - 4.0));
  }

  /** `drawBoundingBox(ctx, bbox, label, confidence, color)`. */
  method DrawBoundingBox(ctx: Context2D, bbox: seq<real>, kind: string, confidence: real, color: Option<string>)
    modifies ctx
    ensures ctx.trace == old(ctx.trace) + BoxCommands(bbox, kind, confidence, color, ctx.measure)
    ensures ctx.CurrentStyle() == BoxStyle(kind, color)
  {
    var x, y, w, h := Coord(bbox, 0), Coord(bbox, 1), Coord(bbox, 2), Coord(bbox, 3);
    var boxColor := BoxColor(kind, color);
    DrawFrame(ctx, boxColor, x, y, w, h);
    var labelText := LabelText(kind, confidence);
    DrawLabel(ctx, boxColor, labelText, x, y);
  }

  /** `clearCanvas(ctx, width, height)`. */
  method ClearCanvas(ctx: Context2D, width: Num, height: Num)
    modifies ctx
    ensures ctx.CurrentStyle() == old(ctx.CurrentStyle())
    ensures ctx.trace == old(ctx.trace) + (if Finite2(width, height) then [ClearRect(0.0, 0.0, width.v, height.v)] else [])
  {
    ctx.ClearRect(Fin(0.0), Fin(0.0), width, height);
  }

  // ---------------------------------------------------------------------
  // drawAllDetections
  // ---------------------------------------------------------------------

  /** The commands one detection of the list contributes. */
  function BoxOf(d: Detection, measure: (string, string) -> real): seq<Command>
  {
    match d.bbox
    case Some(b) => BoxCommands(b, d.kind, d.confidence, None, measure)
    case None => []
  }

  /** The commands of a list of detections drawn in order. */
  function Boxes(ds: seq<Detection>, measure: (string, string) -> real): seq<Command>
  {
    if ds == [] then [] else Boxes(ds[..|ds| - 1], measure) + BoxOf(ds[|ds| - 1], measure)
  }

  /** The index of the first detection without a bbox, or the length. */
  function FirstMissing(ds: seq<Detection>): (n: nat)
    ensures n <= |ds|
    ensures forall i :: 0 <= i < n ==> ds[i].bbox.Some?
    ensures n < |ds| ==> ds[n].bbox.None?
  {
    if ds == [] || ds[0].bbox.None? then 0 else 1 + FirstMissing(ds[1..])
  }

  /** The body of the `forEach`, for a detection that has a bbox. */
  method DrawDetection(ctx: Context2D, d: Detection)
    requires d.bbox.Some?
    modifies ctx
    ensures ctx.trace == old(ctx.trace) + BoxOf(d, ctx.measure)
    ensures ctx.CurrentStyle() == BoxStyle(d.kind, None)
  {
    DrawBoundingBox(ctx, d.bbox.value, d.kind, d.confidence, None);
  }

  /** One turn of the `forEach`: drawing the next detection extends the
      trace of the prefix drawn so far. */
  method DrawNext(ctx: Context2D, ds: seq<Detection>, i: nat, ghost base: seq<Command>)
    requires i < |ds| && ds[i].bbox.Some?
    requires ctx.trace == base + Boxes(ds[..i], ctx.measure)
    modifies ctx
    ensures ctx.trace == base + Boxes(ds[..i + 1], ctx.measure)
    ensures ctx.CurrentStyle() == BoxStyle(ds[i].kind, None)
  {
    ghost var drawn, next := Boxes(ds[..i], ctx.measure), BoxOf(ds[i], ctx.measure);
    BoxesPrefixStep(ds, i, ctx.measure);
    DrawDetection(ctx, ds[i]);
    AppendAssociates(base, drawn, next);
  }

  /** `drawAllDetections(ctx, detections)`: nothing for a null or empty
      list; otherwise each detection in turn, until one without a bbox makes
      the destructuring throw. `completed` is false when it threw. */
  method DrawAllDetections(ctx: Context2D, detections: Option<seq<Detection>>) returns (completed: bool)
    modifies ctx
    ensures detections.None? || detections.value == [] ==>
              completed && ctx.trace == old(ctx.trace) && ctx.CurrentStyle() == old(ctx.CurrentStyle())
    ensures detections.Some? ==>
              var ds := detections.value;
              var n := FirstMissing(ds);
              && completed == (n == |ds|)
              && ctx.trace == old(ctx.trace) + Boxes(ds[..n], ctx.measure)
              && ctx.CurrentStyle() == (if n == 0 then old(ctx.CurrentStyle()) else BoxStyle(ds[n - 1].kind, None))
  {
    if detections.None? || |detections.value| == 0 {
      return true;
    }
    var ds := detections.value;
    ghost var n, start, style0 := FirstMissing(ds), ctx.trace, ctx.CurrentStyle();
    var i := 0;
    while i < |ds|
      invariant 0 <= i <= n
      invariant ctx.trace == start + Boxes(ds[..i], ctx.measure)
      invariant ctx.CurrentStyle() == (if i == 0 then style0 else BoxStyle(ds[i - 1].kind, None))
    {
      var d := ds[i];
      if d.bbox.None? {
        assert i == n;
        return false;
      }
      assert i < n;
      DrawNext(ctx, ds, i, start);
      i := i + 1;
    }
    assert i == n;
    completed := true;
  }

  lemma BoxesPrefixStep(ds: seq<Detection>, i: int, measure: (string, string) -> real)
    requires 0 <= i < |ds|
    ensures Boxes(ds[..i + 1], measure) == Boxes(ds[..i], measure) + BoxOf(ds[i], measure)
  {
    assert ds[..i + 1][..i] == ds[..i];
  }

  lemma BoxCommandsLength(bbox: seq<real>, kind: string, confidence: real, color: Option<string>,
                          measure: (string, string) -> real)
    requires |bbox| >= 4
    ensures |BoxCommands(bbox, kind, confidence, color, measure)| == 4
  {
    assert Finite4(Coord(bbox, 0), Coord(bbox, 1), Coord(bbox, 2), Coord(bbox, 3));
  }

  /** Detections that all carry a full bbox give four commands each. */
  lemma {:induction false} BoxesLength(ds: seq<Detection>, measure: (string, string) -> real)
    requires forall i :: 0 <= i < |ds| ==> ds[i].bbox.Some? && |ds[i].bbox.value| >= 4
    ensures |Boxes(ds, measure)| == 4 * |ds|
  {
    if ds != [] {
      var d := ds[|ds| - 1];
      BoxesLength(ds[..|ds| - 1], measure);
      BoxCommandsLength(d.bbox.value, d.kind, d.confidence, None, measure);
    }
  }

  /** Detections that all carry a full bbox are drawn one block of four
      commands each, in list order. */
  lemma {:induction false} BoxesOnePerDetection(ds: seq<Detection>, measure: (string, string) -> real)
    requires forall i :: 0 <= i < |ds| ==> ds[i].bbox.Some? && |ds[i].bbox.value| >= 4
    ensures |Boxes(ds, measure)| == 4 * |ds|
    ensures forall i :: 0 <= i < |ds| ==> Boxes(ds, measure)[4 * i .. 4 * i + 4] == BoxOf(ds[i], measure)
  {
    BoxesLength(ds, measure);
    if ds != [] {
      var init, d := ds[..|ds| - 1], ds[|ds| - 1];
      BoxesOnePerDetection(init, measure);
      var a, b := Boxes(init, measure), BoxOf(d, measure);
      assert Boxes(ds, measure) == a + b;
      forall i | 0 <= i < |ds|
        ensures (a + b)[4 * i .. 4 * i + 4] == BoxOf(ds[i], measure)
      {
        BlockOfAppend(a, b, i, |init|);
        if i < |init| {
          assert init[i] == ds[i];
        }
      }
    }
  }

  lemma BlockOfAppend<T>(a: seq<T>, b: seq<T>, i: nat, k: nat)
    requires |a| == 4 * k && |b| == 4 && i <= k
    ensures (a + b)[4 * i .. 4 * i + 4] == if i < k then a[4 * i .. 4 * i + 4] else b
  {
    if i == k {
      assert (a + b)[|a|..] == b;
    }
  }

  /** Drawing a list only ever strokes and fills: it never clears. */
  lemma {:induction false} BoxesOnlyDraw(ds: seq<Detection>, measure: (string, string) -> real)
    ensures forall i :: 0 <= i < |Boxes(ds, measure)| ==> Draws(Boxes(ds, measure)[i])
  {
    if ds != [] {
      var init := ds[..|ds| - 1];
      BoxesOnlyDraw(init, measure);
      BoxOfOnlyDraws(ds[|ds| - 1], measure);
      AllDrawAppend(Boxes(init, measure), BoxOf(ds[|ds| - 1], measure));
    }
  }

  /** A command that puts something on the surface. */
  predicate Draws(c: Command)
  {
    c.StrokeRect? || c.FillRect? || c.FillText?
  }

  lemma BoxOfOnlyDraws(d: Detection, measure: (string, string) -> real)
    ensures forall i :: 0 <= i < |BoxOf(d, measure)| ==> Draws(BoxOf(d, measure)[i])
  {
  }

  lemma AllDrawAppend(a: seq<Command>, b: seq<Command>)
    requires forall i :: 0 <= i < |a| ==> Draws(a[i])
    requires forall i :: 0 <= i < |b| ==> Draws(b[i])
    ensures forall i :: 0 <= i < |a + b| ==> Draws((a + b)[i])
  {
  }
}
