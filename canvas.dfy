/** The part of the browser canvas API that the viewer and the overlay use.
    A canvas element has a size and a page offset. Assigning either size
    clears the bitmap and resets its 2D context. The 2D context keeps the
    current drawing style and records every drawing call it performs, in
    order, in an append-only trace. Numbers handed to the drawing calls may
    be NaN (an undefined coordinate); the rectangle and text calls ignore a
    call with a NaN argument, as the canvas API does. */
module Canvas {

  /** A JavaScript number as the drawing calls receive it. */
  datatype Num = Fin(v: real) | NaN

  /** `n + d`; NaN stays NaN. */
  function Offset(n: Num, d: real): (r: Num)
    ensures r.Fin? <==> n.Fin?
    ensures r.Fin? ==> r.v == n.v + d
  {
    if n.Fin? then Fin(n.v + d) else NaN
  }

  predicate Finite2(x: Num, y: Num)
  {
    x.Fin? && y.Fin?
  }

  predicate Finite4(x: Num, y: Num, w: Num, h: Num)
  {
    x.Fin? && y.Fin? && w.Fin? && h.Fin?
  }

  /** One entry of the trace. `Reset` records that a size assignment
      cleared the bitmap; a drawing command carries the style it was drawn
      with. */
  datatype Command =
    | Reset
    | ClearRect(x: real, y: real, w: real, h: real)
    | StrokeRect(style: string, lineWidth: real, x: real, y: real, w: real, h: real)
    | FillRect(style: string, x: real, y: real, w: real, h: real)
    | FillText(style: string, font: string, text: string, x: real, y: real)
    | DrawImage(x: real, y: real, w: real, h: real)

  /** The context attributes the client sets. */
  datatype Style = Style(strokeStyle: string, fillStyle: string, lineWidth: real, font: string)

  /** The attributes of a fresh or reset context. */
  const InitialStyle := Style("#000000", "#000000", 1.0, "10px sans-serif")

  const TwoTo32: int := 0x1_0000_0000

  /** The conversion of a number assigned to `width` or `height` (an
      `unsigned long`): truncate toward zero, then reduce modulo 2^32. */
  function ToUint32(x: real): (n: nat)
    ensures n < TwoTo32
    ensures 0.0 <= x < TwoTo32 as real ==> n == x.Floor
  {
    var t := if x < 0.0 then -((-x).Floor) else x.Floor;
    t % TwoTo32
  }

  /** The largest value a reflected `unsigned long` attribute takes. */
  const MaxReflected: int := 0x7FFF_FFFF

  const DefaultWidth: nat := 300
  const DefaultHeight: nat := 150

  /** What a canvas dimension becomes when `x` is assigned to it: the
      `unsigned long` conversion, kept when it is at most 2^31 - 1, and the
      attribute's default otherwise. */
  function SizeAssigned(x: real, default: nat): (n: nat)
    ensures n <= MaxReflected || n == default
    ensures 0.0 <= x <= MaxReflected as real ==> n == x.Floor
    ensures ToUint32(x) > MaxReflected ==> n == default
  {
    var u := ToUint32(x);
    if u <= MaxReflected then u else default
  }

  /** A size assignment truncates: the surface never exceeds the requested
      size, and is less than one pixel short of it. */
  lemma SizeAssignedTruncates(x: real, default: nat)
    requires 0.0 <= x <= MaxReflected as real
    ensures SizeAssigned(x, default) as real <= x < SizeAssigned(x, default) as real + 1.0
  {
  }

  /** A size of 2^31 or more, or a negative one of at least a pixel, is not
      reflected: the dimension falls back on its default. */
  lemma OversizeTakesDefault(default: nat)
    ensures SizeAssigned(2147483648.0, default) == default
    ensures SizeAssigned(-1.0, default) == default
  {
  }

  class Context2D {
    var strokeStyle: string
    var fillStyle: string
    var lineWidth: real
    var font: string
    var trace: seq<Command>
    /** The width `measureText` reports for a font and a text. */
    const measure: (string, string) -> real

    function CurrentStyle(): Style
      reads this
    {
      Style(strokeStyle, fillStyle, lineWidth, font)
    }

    constructor (measure: (string, string) -> real)
      ensures CurrentStyle() == InitialStyle && trace == [] && this.measure == measure
    {
      strokeStyle, fillStyle, lineWidth, font := InitialStyle.strokeStyle, InitialStyle.fillStyle,
        InitialStyle.lineWidth, InitialStyle.font;
      trace := [];
      this.measure := measure;
    }

    /** What a size assignment on the element does to its context. */
    method ResetAll()
      modifies this
      ensures CurrentStyle() == InitialStyle && trace == old(trace) + [Command.Reset]
    {
      strokeStyle, fillStyle, lineWidth, font := InitialStyle.strokeStyle, InitialStyle.fillStyle,
        InitialStyle.lineWidth, InitialStyle.font;
      trace := trace + [Command.Reset];
    }

    method SetStrokeStyle(s: string)
      modifies this
      ensures CurrentStyle() == old(CurrentStyle()).(strokeStyle := s) && trace == old(trace)
    {
      strokeStyle := s;
    }

    method SetFillStyle(s: string)
      modifies this
      ensures CurrentStyle() == old(CurrentStyle()).(fillStyle := s) && trace == old(trace)
    {
      fillStyle := s;
    }

    /** Zero and negative widths are ignored. */
    method SetLineWidth(w: real)
      modifies this
      ensures CurrentStyle() == if w > 0.0 then old(CurrentStyle()).(lineWidth := w) else old(CurrentStyle())
      ensures trace == old(trace)
    {
      if w > 0.0 {
        lineWidth := w;
      }
    }

    method SetFont(f: string)
      modifies this
      ensures CurrentStyle() == old(CurrentStyle()).(font := f) && trace == old(trace)
    {
      font := f;
    }

    /** `measureText(text).width` in the current font. */
    function MeasureText(text: string): real
      reads this
    {
      measure(font, text)
    }

    method ClearRect(x: Num, y: Num, w: Num, h: Num)
      modifies this
      ensures CurrentStyle() == old(CurrentStyle())
      ensures trace == old(trace) + (if Finite4(x, y, w, h) then [Command.ClearRect(x.v, y.v, w.v, h.v)] else [])
    {
      if Finite4(x, y, w, h) {
        trace := trace + [Command.ClearRect(x.v, y.v, w.v, h.v)];
      }
    }

    method StrokeRect(x: Num, y: Num, w: Num, h: Num)
      modifies this
      ensures CurrentStyle() == old(CurrentStyle())
      ensures trace == old(trace) + (if Finite4(x, y, w, h) then [Command.StrokeRect(strokeStyle, lineWidth, x.v, y.v, w.v, h.v)] else [])
    {
      if Finite4(x, y, w, h) {
        trace := trace + [Command.StrokeRect(strokeStyle, lineWidth, x.v, y.v, w.v, h.v)];
      }
    }

    method FillRect(x: Num, y: Num, w: Num, h: Num)
      modifies this
      ensures CurrentStyle() == old(CurrentStyle())
      ensures trace == old(trace) + (if Finite4(x, y, w, h) then [Command.FillRect(fillStyle, x.v, y.v, w.v, h.v)] else [])
    {
      if Finite4(x, y, w, h) {
        trace := trace + [Command.FillRect(fillStyle, x.v, y.v, w.v, h.v)];
      }
    }

    method FillText(text: string, x: Num, y: Num)
      modifies this
      ensures CurrentStyle() == old(CurrentStyle())
      ensures trace == old(trace) + (if Finite2(x, y) then [Command.FillText(fillStyle, font, text, x.v, y.v)] else [])
    {
      if Finite2(x, y) {
        trace := trace + [Command.FillText(fillStyle, font, text, x.v, y.v)];
      }
    }

    method DrawImage(x: real, y: real, w: real, h: real)
      modifies this
      ensures CurrentStyle() == old(CurrentStyle())
      ensures trace == old(trace) + [Command.DrawImage(x, y, w, h)]
    {
      trace := trace + [Command.DrawImage(x, y, w, h)];
    }
  }

  /** A canvas element: its bitmap size, its CSS `left`/`top` offset in
      pixels, and its 2D context. */
  class Element {
    var width: nat
    var height: nat
    var left: real
    var top: real
    const ctx: Context2D

    /** A new canvas is 300 by 150. */
    constructor (measure: (string, string) -> real)
      ensures width == DefaultWidth && height == DefaultHeight && left == 0.0 && top == 0.0
      ensures fresh(ctx) && ctx.CurrentStyle() == InitialStyle && ctx.trace == [] && ctx.measure == measure
    {
      width, height, left, top := DefaultWidth, DefaultHeight, 0.0, 0.0;
      ctx := new Context2D(measure);
    }

    method SetWidth(x: real)
      modifies this, ctx
      ensures width == SizeAssigned(x, DefaultWidth) && height == old(height) && left == old(left) && top == old(top)
      ensures ctx.CurrentStyle() == InitialStyle && ctx.trace == old(ctx.trace) + [Command.Reset]
    {
      width := SizeAssigned(x, DefaultWidth);
      ctx.ResetAll();
    }

    method SetHeight(x: real)
      modifies this, ctx
      ensures height == SizeAssigned(x, DefaultHeight) && width == old(width) && left == old(left) && top == old(top)
      ensures ctx.CurrentStyle() == InitialStyle && ctx.trace == old(ctx.trace) + [Command.Reset]
    {
      height := SizeAssigned(x, DefaultHeight);
      ctx.ResetAll();
    }

    /** `style.left = x + "px"; style.top = y + "px"`. */
    method SetOffset(x: real, y: real)
      modifies this
      ensures left == x && top == y && width == old(width) && height == old(height)
    {
      left, top := x, y;
    }
  }
}
