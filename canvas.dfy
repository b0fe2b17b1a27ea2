/** The part of the browser's CanvasRenderingContext2D that the core drives.
    Rasterization is not modelled: a context is its drawing-state fields plus a
    log of the fill and fillText calls made on it. A fill is recorded with its
    shape and the paint and shadow in force; a fillText also with the font,
    letter spacing and alignment in force. Angles are in degrees. */
module Canvas {

  datatype Color =
    | Css(text: string)                               // a colour literal such as "#FFFFFF"
    | Rgba(r: int, g: int, b: int, alpha: real)       // `rgba(r, g, b, alpha)`
    | Hsl(hue: int, saturation: int, lightness: int)  // `hsl(h, s%, l%)`

  datatype ColorStop = ColorStop(offset: real, color: Color)

  datatype Paint =
    | Solid(color: Color)
    | RadialGradient(x0: real, y0: real, r0: real, x1: real, y1: real, r1: real, stops: seq<ColorStop>)

  datatype Shadow = Shadow(color: Color, blur: real)

  datatype Align = Start | End | Left | Right | CenterAlign

  datatype Baseline = Alphabetic | Top | Hanging | Middle | Ideographic | Bottom

  datatype Shape =
    | Rect(x: real, y: real, w: real, h: real)
    | Disc(cx: real, cy: real, r: real)
    | Sector(cx: real, cy: real, r: real, startDeg: real, endDeg: real)

  datatype Op =
    | Fill(shape: Shape, paint: Paint, shadow: Shadow)
    | Text(text: string, x: real, y: real, paint: Paint, shadow: Shadow,
           font: string, spacing: real, align: Align, baseline: Baseline)

  /** A font shorthand whose size carries a minus sign: not a valid CSS font. */
  predicate FontRejected(value: string)
  {
    value != [] && value[0] == '-'
  }

  class Context {
    var fillStyle: Paint
    var shadowColor: Color
    var shadowBlur: real
    var font: string
    var letterSpacing: real   // pixels
    var textAlign: Align
    var textBaseline: Baseline
    var ops: seq<Op>

    /** A fresh context carries the HTML canvas defaults and has drawn nothing. */
    constructor ()
      ensures fillStyle == Solid(Css("#000000"))
      ensures shadowColor == Rgba(0, 0, 0, 0.0) && shadowBlur == 0.0
      ensures font == "10px sans-serif" && letterSpacing == 0.0
      ensures textAlign == Start && textBaseline == Alphabetic
      ensures ops == []
    {
      fillStyle := Solid(Css("#000000"));
      shadowColor := Rgba(0, 0, 0, 0.0);
      shadowBlur := 0.0;
      font := "10px sans-serif";
      letterSpacing := 0.0;
      textAlign := Start;
      textBaseline := Alphabetic;
      ops := [];
    }

    function CurrentShadow(): Shadow
      reads this
    {
      Shadow(shadowColor, shadowBlur)
    }

    /** Setting `font`: the browser parses the value as a CSS font shorthand
        and keeps the old font when that fails. The one failure modelled is a
        negative font size, which the value then starts with. */
    method SetFont(value: string)
      modifies this`font
      ensures font == if FontRejected(value) then old(font) else value
    {
      if !FontRejected(value) {
        font := value;
      }
    }

    /** fillRect(x, y, w, h). */
    method FillRect(x: real, y: real, w: real, h: real)
      modifies this`ops
      ensures ops == old(ops) + [Fill(Rect(x, y, w, h), fillStyle, CurrentShadow())]
    {
      ops := ops + [Fill(Rect(x, y, w, h), fillStyle, CurrentShadow())];
    }

    /** A filled full circle: a path of one whole arc, then fill. The browser throws
        IndexSizeError for a negative radius, hence the precondition. */
    method FillDisc(cx: real, cy: real, r: real)
      requires r >= 0.0
      modifies this`ops
      ensures ops == old(ops) + [Fill(Disc(cx, cy, r), fillStyle, CurrentShadow())]
    {
      ops := ops + [Fill(Disc(cx, cy, r), fillStyle, CurrentShadow())];
    }

    /** A filled pie slice: a path from the centre along the arc from startDeg
        to endDeg and back, then fill. */
    method FillSector(cx: real, cy: real, r: real, startDeg: real, endDeg: real)
      requires r >= 0.0
      modifies this`ops
      ensures ops == old(ops) + [Fill(Sector(cx, cy, r, startDeg, endDeg), fillStyle, CurrentShadow())]
    {
      ops := ops + [Fill(Sector(cx, cy, r, startDeg, endDeg), fillStyle, CurrentShadow())];
    }

    /** fillText(text, x, y). */
    method FillText(text: string, x: real, y: real)
      modifies this`ops
      ensures ops == old(ops) + [Text(text, x, y, fillStyle, CurrentShadow(), font,
                                      letterSpacing, textAlign, textBaseline)]
    {
      ops := ops + [Text(text, x, y, fillStyle, CurrentShadow(), font,
                         letterSpacing, textAlign, textBaseline)];
    }
  }

  /** An HTMLCanvasElement: its pixel width and what getContext('2d') returns
      (null when no 2D context is available). */
  class Element {
    const width: nat
    const context: Context?

    constructor (width: nat, context: Context?)
      ensures this.width == width && this.context == context
    {
      this.width := width;
      this.context := context;
    }
  }
}
