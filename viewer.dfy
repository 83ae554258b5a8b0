/** The blueprint viewer: fitting and centring the image when it loads, the
    wheel zoom, and the drag state machine that pans the image. */
module Viewer {
  import opened Common
  import opened Canvas
  import opened ClientTypes

  /** For a positive divisor, `t * d <= c` exactly when `t <= c / d`. */
  lemma ScaleBound(t: real, c: real, d: real)
    requires d > 0.0
    ensures t * d <= c <==> t <= c / d
  {
    assert (c / d) * d == c;
    if t <= c / d {
      assert t * d <= (c / d) * d;
    } else {
      assert t * d > (c / d) * d;
    }
  }

  function Min(a: real, b: real): real
  {
    if a <= b then a else b
  }

  function Max(a: real, b: real): real
  {
    if a >= b then a else b
  }

  /** An image of `iw` by `ih` scaled by `t` fits a `cw` by `ch` container,
      and `t` does not enlarge it. */
  predicate Fits(t: real, cw: nat, ch: nat, iw: nat, ih: nat)
  {
    t <= 1.0 && t * iw as real <= cw as real && t * ih as real <= ch as real
  }

  /** `Math.min(containerWidth / img.width, containerHeight / img.height, 1)`. */
  function FitScale(cw: nat, ch: nat, iw: nat, ih: nat): real
    requires iw > 0 && ih > 0
  {
    Min(Min(cw as real / iw as real, ch as real / ih as real), 1.0)
  }

  /** The fit scale is the largest scale, not above 1, at which the whole
      image fits the container. */
  lemma FitScaleIsLargestFit(cw: nat, ch: nat, iw: nat, ih: nat)
    requires iw > 0 && ih > 0
    ensures var s := FitScale(cw, ch, iw, ih);
      && s >= 0.0 && Fits(s, cw, ch, iw, ih)
      && forall t: real :: Fits(t, cw, ch, iw, ih) ==> t <= s
  {
    var s := FitScale(cw, ch, iw, ih);
    ScaleBound(s, cw as real, iw as real);
    ScaleBound(s, ch as real, ih as real);
    forall t: real | Fits(t, cw, ch, iw, ih) ensures t <= s {
      ScaleBound(t, cw as real, iw as real);
      ScaleBound(t, ch as real, ih as real);
    }
  }

  /** The offset that centres an image of the given size, scaled by `s`. */
  function Centre(cw: nat, ch: nat, iw: nat, ih: nat, s: real): Point
  {
    Point((cw as real - iw as real * s) / 2.0, (ch as real - ih as real * s) / 2.0)
  }

  /** At the fit scale the image is centred: equal margins on both sides of
      each axis, and no negative margin. */
  lemma FitIsCentred(cw: nat, ch: nat, iw: nat, ih: nat)
    requires iw > 0 && ih > 0
    ensures var s := FitScale(cw, ch, iw, ih);
      var p := Centre(cw, ch, iw, ih, s);
      && p.x >= 0.0 && p.y >= 0.0
      && p.x + iw as real * s + p.x == cw as real
      && p.y + ih as real * s + p.y == ch as real
  {
    FitScaleIsLargestFit(cw, ch, iw, ih);
  }

  // ---------------------------------------------------------------------
  // Zoom
  // ---------------------------------------------------------------------

  const MinZoom := 0.1
  const MaxZoom := 5.0
  const ZoomOutFactor := 0.9
  const ZoomInFactor := 1.1

  /** The scale after one wheel event: scrolling down (`deltaY > 0`)
      multiplies by 0.9, anything else by 1.1, and the result is clamped to
      [0.1, 5]. */
  function Zoomed(scale: real, deltaY: real): (r: real)
    ensures MinZoom <= r <= MaxZoom
    ensures var t := scale * (if deltaY > 0.0 then ZoomOutFactor else ZoomInFactor);
      && (MinZoom <= t <= MaxZoom ==> r == t)
      && (t < MinZoom ==> r == MinZoom)
      && (t > MaxZoom ==> r == MaxZoom)
  {
    var delta := if deltaY > 0.0 then ZoomOutFactor else ZoomInFactor;
    Min(Max(scale * delta, MinZoom), MaxZoom)
  }

  /** Zooming out one step and back in one step does not restore the scale:
      it leaves 99% of it. */
  lemma ZoomOutThenInLoses(scale: real)
    requires 0.2 <= scale <= 5.0
    ensures Zoomed(Zoomed(scale, 1.0), -1.0) == scale * 0.99
  {
    var once := Zoomed(scale, 1.0);
    assert once == scale * 0.9;
  }

  // ---------------------------------------------------------------------
  // The viewer's state and its transitions
  // ---------------------------------------------------------------------

  datatype ViewState = ViewState(imageLoaded: bool, scale: real, position: Point,
                                 isDragging: bool, dragStart: Point)

  const InitialView := ViewState(false, 1.0, Point(0.0, 0.0), false, Point(0.0, 0.0))

  /** `img.onload`: the one `scale` is overwritten by the fit scale, and the
      image is centred. */
  function Loaded(st: ViewState, cw: nat, ch: nat, iw: nat, ih: nat): ViewState
    requires iw > 0 && ih > 0
  {
    var s := FitScale(cw, ch, iw, ih);
    st.(imageLoaded := true, scale := s, position := Centre(cw, ch, iw, ih, s))
  }

  function Wheeled(st: ViewState, deltaY: real): ViewState
  {
    st.(scale := Zoomed(st.scale, deltaY))
  }

  /** `handleMouseDown`: start dragging and remember the pointer's offset
      from the image position. */
  function Pressed(st: ViewState, pointer: Point): ViewState
  {
    st.(isDragging := true, dragStart := Point(pointer.x - st.position.x, pointer.y - st.position.y))
  }

  /** `handleMouseMove`: only while dragging, move the image so that it keeps
      its offset from the pointer. */
  function Moved(st: ViewState, pointer: Point): ViewState
  {
    if !st.isDragging then st
    else st.(position := Point(pointer.x - st.dragStart.x, pointer.y - st.dragStart.y))
  }

  /** `handleMouseUp`, which is also the mouse-leave handler. */
  function Released(st: ViewState): ViewState
  {
    st.(isDragging := false)
  }

  /** A run of pointer moves. */
  function MovedAlong(st: ViewState, pointers: seq<Point>): ViewState
  {
    if pointers == [] then st else Moved(MovedAlong(st, pointers[..|pointers| - 1]), pointers[|pointers| - 1])
  }

  /** A drag pans the image by the pointer's displacement since the press,
      whatever path the pointer took, and leaves the zoom alone. */
  lemma {:induction false} DragPansByPointerDelta(st: ViewState, start: Point, pointers: seq<Point>)
    requires pointers != []
    ensures var after := MovedAlong(Pressed(st, start), pointers);
      var last := pointers[|pointers| - 1];
      && after.isDragging && after.scale == st.scale
      && after.position == Point(st.position.x + (last.x - start.x), st.position.y + (last.y - start.y))
  {
    var init := pointers[..|pointers| - 1];
    var mid := MovedAlong(Pressed(st, start), init);
    assert mid.isDragging && mid.scale == st.scale && mid.dragStart == Pressed(st, start).dragStart by {
      DragKeepsStart(Pressed(st, start), init);
    }
  }

  /** Moves never change the dragging flag, the drag start or the zoom. */
  lemma {:induction false} DragKeepsStart(st: ViewState, pointers: seq<Point>)
    ensures var after := MovedAlong(st, pointers);
      after.isDragging == st.isDragging && after.dragStart == st.dragStart && after.scale == st.scale
  {
    if pointers != [] {
      DragKeepsStart(st, pointers[..|pointers| - 1]);
    }
  }

  /** Once released, the pointer can wander anywhere without moving the
      image. */
  lemma {:induction false} ReleasedIgnoresMoves(st: ViewState, pointers: seq<Point>)
    ensures MovedAlong(Released(st), pointers) == Released(st)
  {
    if pointers != [] {
      ReleasedIgnoresMoves(st, pointers[..|pointers| - 1]);
    }
  }

  /** Zooming never pans and panning never zooms; and a load discards any
      earlier zoom. */
  lemma ZoomAndPanIndependent(st: ViewState, deltaY: real, pointer: Point, cw: nat, ch: nat, iw: nat, ih: nat)
    requires iw > 0 && ih > 0
    ensures Wheeled(st, deltaY).position == st.position
    ensures Wheeled(st, deltaY).isDragging == st.isDragging
    ensures Moved(st, pointer).scale == st.scale
    ensures Loaded(Wheeled(st, deltaY), cw, ch, iw, ih).scale == Loaded(st, cw, ch, iw, ih).scale
  {
  }

  /** The viewer component's state, its canvas, and its handlers. */
  class BlueprintViewer {
    var imageLoaded: bool
    var scale: real
    var position: Point
    var isDragging: bool
    var dragStart: Point
    const canvas: Element

    function State(): ViewState
      reads this
    {
      ViewState(imageLoaded, scale, position, isDragging, dragStart)
    }

    constructor (canvas: Element)
      ensures State() == InitialView && this.canvas == canvas
    {
      imageLoaded, scale, position := false, 1.0, Point(0.0, 0.0);
      isDragging, dragStart := false, Point(0.0, 0.0);
      this.canvas := canvas;
    }

    /** `img.onload` for a container of `cw` by `ch` and an image of `iw` by
        `ih`: size the canvas to the container, clear it, draw the image
        centred at the fit scale, record the fit, and hand the same scale and
        position to `onCanvasReady` when there is one. */
    method OnLoad(cw: nat, ch: nat, iw: nat, ih: nat, hasCallback: bool) returns (ready: Option<ImageData>)
      requires iw > 0 && ih > 0
      modifies this, canvas, canvas.ctx
      ensures State() == Loaded(old(State()), cw, ch, iw, ih)
      ensures canvas.width == SizeAssigned(cw as real, DefaultWidth) && canvas.height == SizeAssigned(ch as real, DefaultHeight)
      ensures canvas.left == old(canvas.left) && canvas.top == old(canvas.top)
      ensures var s := FitScale(cw, ch, iw, ih);
        var p := Centre(cw, ch, iw, ih, s);
        && canvas.ctx.trace == old(canvas.ctx.trace)
             + [Reset, Reset, ClearRect(0.0, 0.0, canvas.width as real, canvas.height as real),
                DrawImage(p.x, p.y, iw as real * s, ih as real * s)]
        && ready == (if hasCallback then Some(ImageData(iw, ih, s, p)) else None)
    {
      var fitScale := FitScale(cw, ch, iw, ih);
      canvas.SetWidth(cw as real);
      canvas.SetHeight(ch as real);
      var scaledWidth, scaledHeight := iw as real * fitScale, ih as real * fitScale;
      var x, y := (cw as real - scaledWidth) / 2.0, (ch as real - scaledHeight) / 2.0;
      canvas.ctx.ClearRect(Fin(0.0), Fin(0.0), Fin(canvas.width as real), Fin(canvas.height as real));
      canvas.ctx.DrawImage(x, y, scaledWidth, scaledHeight);
      imageLoaded := true;
      scale := fitScale;
      position := Point(x, y);
      ready := if hasCallback then Some(ImageData(iw, ih, fitScale, Point(x, y))) else None;
    }

    /** `handleWheel`. The canvas is not redrawn. */
    method Wheel(deltaY: real)
      modifies this
      ensures State() == Wheeled(old(State()), deltaY)
      ensures canvas.ctx.trace == old(canvas.ctx.trace)
    {
      scale := Zoomed(scale, deltaY);
    }

    method MouseDown(clientX: real, clientY: real)
      modifies this
      ensures State() == Pressed(old(State()), Point(clientX, clientY))
    {
      isDragging := true;
      dragStart := Point(clientX - position.x, clientY - position.y);
    }

    /** `handleMouseMove`. The canvas is not redrawn. */
    method MouseMove(clientX: real, clientY: real)
      modifies this
      ensures State() == Moved(old(State()), Point(clientX, clientY))
      ensures canvas.ctx.trace == old(canvas.ctx.trace)
    {
      if !isDragging {
        return;
      }
      position := Point(clientX - dragStart.x, clientY - dragStart.y);
    }

    method MouseUp()
      modifies this
      ensures State() == Released(old(State()))
    {
      isDragging := false;
    }

    /** The canvas's mouse-leave handler is `handleMouseUp`. */
    method MouseLeave()
      modifies this
      ensures State() == Released(old(State()))
    {
      MouseUp();
    }
  }
}
