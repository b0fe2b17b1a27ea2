/** The colour picker of ColorWheel.tsx: `drawWheel` paints 360 overlapping
    two-degree sectors, each a radial gradient from white at the centre to a
    fully saturated hue at the rim; a press, or a drag over the wheel, reads the
    pixel under the pointer and reports it as a "#rrggbb" string. */
module ColorWheel {
  import opened Wrappers
  import opened Strings
  import opened Canvas
  import opened AvatarPreview

  // ---------------------------------------------------------------------
  // The hex encoder of getColorAtPos
  // ---------------------------------------------------------------------

  /** A channel of ImageData (a Uint8ClampedArray entry). */
  type Byte = x: int | 0 <= x < 256

  /** The four channels getImageData returns for a single pixel. */
  datatype Pixel = Pixel(r: Byte, g: Byte, b: Byte, a: Byte)

  /** A '#' and then the base-16 digits of 2^24 + 65536 r + 256 g + b with the
      leading digit dropped; the source builds the sum with left shifts, which
      cannot overflow 32 bits for channels below 256. */
  function EncodeHex(r: Byte, g: Byte, b: Byte): string
  {
    "#" + HexString(0x100_0000 + r * 0x1_0000 + g * 0x100 + b)[1..]
  }

  /** A channel as two lower-case hex digits, high digit first. */
  function ByteHex(v: Byte): (s: string)
    ensures |s| == 2 && IsHexDigit(s[0]) && IsHexDigit(s[1])
    ensures HexPair(s[0], s[1]) == v
  {
    [HexChar(v / 16), HexChar(v % 16)]
  }

  /** Appending a channel to a number in base 16 appends its two digits. */
  lemma ByteHexStep(q: nat, v: Byte)
    requires q >= 1
    ensures HexString(256 * q + v) == HexString(q) + ByteHex(v)
  {
    HexStringStep(q, v / 16);
    HexStringStep(16 * q + v / 16, v % 16);
    assert 16 * (16 * q + v / 16) + v % 16 == 256 * q + v;
  }

  /** 0x1rr in base 16. */
  lemma LeadHex(r: Byte)
    ensures HexString(256 + r) == [HexChar(1)] + ByteHex(r)
  {
    assert HexString(1) == [HexChar(1)];
    ByteHexStep(1, r);
  }

  /** 0x1rrgg in base 16. */
  lemma LeadHex2(r: Byte, g: Byte)
    ensures HexString(256 * (256 + r) + g) == [HexChar(1)] + ByteHex(r) + ByteHex(g)
  {
    LeadHex(r);
    ByteHexStep(256 + r, g);
  }

  /** 0x1rrggbb in base 16: the leading 1, then two digits per channel. */
  lemma PackedHex(r: Byte, g: Byte, b: Byte)
    ensures HexString(256 * (256 * (256 + r) + g) + b)
         == [HexChar(1)] + ByteHex(r) + ByteHex(g) + ByteHex(b)
  {
    LeadHex2(r, g);
    ByteHexStep(256 * (256 + r) + g, b);
  }

  /** The leading 1 keeps every channel at two digits, so the slice leaves
      exactly the three zero-padded channels. */
  lemma EncodeHexDigits(r: Byte, g: Byte, b: Byte)
    ensures EncodeHex(r, g, b) == "#" + ByteHex(r) + ByteHex(g) + ByteHex(b)
  {
    PackedHex(r, g, b);
    assert 256 * (256 * (256 + r) + g) + b == 0x100_0000 + r * 0x1_0000 + g * 0x100 + b;
  }

  /** The encoder always yields a colour hexToRgb accepts, in lower case. */
  lemma EncodeHexIsHexColor(r: Byte, g: Byte, b: Byte)
    ensures var s := EncodeHex(r, g, b);
      |s| == 7 && s[0] == '#' && IsHexColor(s)
      && forall i :: 1 <= i < 7 ==> IsLowerHexDigit(s[i])
  {
    EncodeHexDigits(r, g, b);
  }

  /** hexToRgb reads back the channels the encoder wrote. */
  lemma DecodeEncode(r: Byte, g: Byte, b: Byte)
    ensures HexToRgb(EncodeHex(r, g, b)) == Rgb(r, g, b)
  {
    EncodeHexDigits(r, g, b);
    var s := EncodeHex(r, g, b);
    assert s[1..3] == ByteHex(r) && s[3..5] == ByteHex(g) && s[5..7] == ByteHex(b);
  }

  /** Distinct pixels are reported as distinct colours. */
  lemma EncodeHexInjective(p: Pixel, q: Pixel)
    requires EncodeHex(p.r, p.g, p.b) == EncodeHex(q.r, q.g, q.b)
    ensures p.r == q.r && p.g == q.g && p.b == q.b
  {
    DecodeEncode(p.r, p.g, p.b);
    DecodeEncode(q.r, q.g, q.b);
  }

  /** Writing back a two-digit group that was read gives it in lower case. */
  lemma ByteHexOfPair(hi: char, lo: char)
    requires IsHexDigit(hi) && IsHexDigit(lo)
    ensures ByteHex(HexPair(hi, lo)) == [LowerChar(hi), LowerChar(lo)]
  {
    var h, l := HexValue(hi), HexValue(lo);
    var v := HexPair(hi, lo);
    assert v == 16 * h + l && l < 16;
    assert v / 16 == h && v % 16 == l;
    HexCharOfValue(hi);
    HexCharOfValue(lo);
  }

  /** Lower-casing six characters, one by one. */
  lemma LowerSix(t: string)
    requires |t| == 6
    ensures LowerString(t) == [LowerChar(t[0]), LowerChar(t[1]), LowerChar(t[2]),
                               LowerChar(t[3]), LowerChar(t[4]), LowerChar(t[5])]
  {
  }

  /** Encoding what hexToRgb read from a colour gives that colour back, with a
      '#' and in lower case. */
  lemma EncodeDecode(hex: string)
    requires IsHexColor(hex)
    ensures var c := HexToRgb(hex);
      EncodeHex(c.r, c.g, c.b) == "#" + LowerString(hex[|hex| - 6..])
  {
    var c := HexToRgb(hex);
    var n := |hex|;
    var t := hex[n - 6..];
    assert IsHexDigit(t[0]) && IsHexDigit(t[1]) && IsHexDigit(t[2]);
    assert IsHexDigit(t[3]) && IsHexDigit(t[4]) && IsHexDigit(t[5]);
    var r2, g2, b2 := ByteHex(c.r), ByteHex(c.g), ByteHex(c.b);
    assert r2 == [LowerChar(t[0]), LowerChar(t[1])] by {
      assert c.r == HexPair(t[0], t[1]);
      ByteHexOfPair(t[0], t[1]);
    }
    assert g2 == [LowerChar(t[2]), LowerChar(t[3])] by {
      assert c.g == HexPair(t[2], t[3]);
      ByteHexOfPair(t[2], t[3]);
    }
    assert b2 == [LowerChar(t[4]), LowerChar(t[5])] by {
      assert c.b == HexPair(t[4], t[5]);
      ByteHexOfPair(t[4], t[5]);
    }
    assert r2 + g2 + b2 == LowerString(t) by {
      LowerSix(t);
    }
    EncodeHexDigits(c.r, c.g, c.b);
  }

  // ---------------------------------------------------------------------
  // drawWheel
  // ---------------------------------------------------------------------

  /** One sector per whole degree. */
  const Slices: nat := 360

  /** Sector k of drawWheel: from k to k + 2 degrees around the centre, filled
      with a gradient from white at the centre to hsl(k, 100%, 50%) at the rim. */
  function SliceOp(size: real, k: int, shadow: Shadow): Op
  {
    var radius := size / 2.0;
    Fill(Sector(radius, radius, radius, k as real, (k + 2) as real),
         RadialGradient(radius, radius, 0.0, radius, radius, radius,
                        [ColorStop(0.0, Css("#ffffff")), ColorStop(1.0, Hsl(k, 100, 50))]),
         shadow)
  }

  function WheelOps(size: real, shadow: Shadow): seq<Op>
  {
    seq(Slices, k => SliceOp(size, k, shadow))
  }

  /** drawWheel: nothing without a canvas or a 2D context; otherwise the 360
      sectors in increasing angle, under whatever shadow the context carries.
      Only fillStyle and the log change: shadow, font, letter spacing and
      alignment are as they were. */
  method DrawWheel(canvas: Element?)
    modifies if canvas != null && canvas.context != null then {canvas.context} else {}
    ensures canvas != null && canvas.context != null ==>
      var ctx := canvas.context;
      && ctx.ops == old(ctx.ops) + WheelOps(canvas.width as real, old(ctx.CurrentShadow()))
      && ctx.fillStyle == SliceOp(canvas.width as real, Slices - 1, ctx.CurrentShadow()).paint
      && ctx.shadowColor == old(ctx.shadowColor) && ctx.shadowBlur == old(ctx.shadowBlur)
      && ctx.font == old(ctx.font) && ctx.letterSpacing == old(ctx.letterSpacing)
      && ctx.textAlign == old(ctx.textAlign) && ctx.textBaseline == old(ctx.textBaseline)
  {
    if canvas == null { return; }
    var ctx := canvas.context;
    if ctx == null { return; }
    PaintSectors(ctx, canvas.width as real);
  }

  /** The sector loop of drawWheel, which assigns fillStyle and fills. */
  method PaintSectors(ctx: Context, size: real)
    requires size >= 0.0
    modifies ctx`fillStyle, ctx`ops
    ensures ctx.ops == old(ctx.ops) + WheelOps(size, old(ctx.CurrentShadow()))
    ensures ctx.fillStyle == SliceOp(size, Slices - 1, ctx.CurrentShadow()).paint
  {
    var radius := size / 2.0;
    ghost var shadow := ctx.CurrentShadow();
    ghost var wheel := WheelOps(size, shadow);
    for angle := 0 to Slices
      invariant ctx.ops == old(ctx.ops) + wheel[..angle]
      invariant angle > 0 ==> ctx.fillStyle == SliceOp(size, angle - 1, shadow).paint
    {
      var gradient := RadialGradient(radius, radius, 0.0, radius, radius, radius,
                                     [ColorStop(0.0, Css("#ffffff")), ColorStop(1.0, Hsl(angle, 100, 50))]);
      ctx.fillStyle := gradient;
      ctx.FillSector(radius, radius, radius, angle as real, (angle + 2) as real);
      assert wheel[..angle + 1] == wheel[..angle] + [SliceOp(size, angle, shadow)];
    }
    assert wheel[..Slices] == wheel;
  }

  /** The sectors as drawn: each spans two degrees starting at its own hue, and
      all share the centre, the radius and a white-to-hue gradient across it. */
  lemma WheelOpsShape(size: real, shadow: Shadow, k: int)
    requires 0 <= k < Slices
    ensures |WheelOps(size, shadow)| == 360
    ensures var op := WheelOps(size, shadow)[k];
      && op.Fill? && op.shape.Sector? && op.paint.RadialGradient?
      && op.shape.endDeg - op.shape.startDeg == 2.0
      && op.paint.stops[|op.paint.stops| - 1].color == Hsl(k, 100, 50)
      && op.shape.startDeg == k as real
      && op.paint.stops[0].color == Css("#ffffff") && op.paint.r0 == 0.0
      && op.paint.r1 == op.shape.r == size / 2.0
      && op.paint.x0 == op.paint.x1 == op.shape.cx && op.paint.y0 == op.paint.y1 == op.shape.cy
      && op.shape.cx == op.shape.cy == size / 2.0
      && |op.paint.stops| == 2 && op.paint.stops[0].offset == 0.0 && op.paint.stops[1].offset == 1.0
      && op.shadow == shadow
  {
  }

  /** Sector k covers the direction a (in degrees, 0 <= a < 360), also across
      the 0/360 seam. */
  predicate SliceCovers(k: int, a: real)
  {
    (k as real <= a < (k + 2) as real) || (k as real <= a + 360.0 < (k + 2) as real)
  }

  /** The last of sectors 0..k drawn over the direction a, or -1 if none is:
      later sectors are painted over earlier ones. */
  function LastCovering(a: real, k: int): (t: int)
    requires -1 <= k
    ensures -1 <= t <= k
    ensures t >= 0 ==> SliceCovers(t, a)
    ensures forall j :: t < j <= k ==> !SliceCovers(j, a)
    decreases k + 1
  {
    if k < 0 then -1 else if SliceCovers(k, a) then k else LastCovering(a, k - 1)
  }

  /** The hue visible in direction a is the whole degree at or just below a,
      except in the first degree, where the last sector wraps over the seam:
      the wheel shows every direction, and each within two degrees of its hue. */
  lemma VisibleHue(a: real)
    requires 0.0 <= a < 360.0
    ensures LastCovering(a, Slices - 1) == if a < 1.0 then 359 else a.Floor
  {
    var t := LastCovering(a, Slices - 1);
    var f := if a < 1.0 then 359 else a.Floor;
    assert SliceCovers(f, a);
  }

  // ---------------------------------------------------------------------
  // Pointer handling
  // ---------------------------------------------------------------------

  /** The mouse events the canvas listens to, with client coordinates. */
  datatype PointerEvent =
    | MouseDown(clientX: real, clientY: real)
    | MouseMove(clientX: real, clientY: real)
    | MouseUp
    | MouseLeave

  /** The isDragging flag after one event. */
  function DragStep(dragging: bool, e: PointerEvent): bool
  {
    match e
    case MouseDown(_, _) => true
    case MouseMove(_, _) => dragging
    case MouseUp => false
    case MouseLeave => false
  }

  /** Whether the event reads a pixel: a press always, a move while dragging. */
  predicate Samples(dragging: bool, e: PointerEvent)
  {
    e.MouseDown? || (e.MouseMove? && dragging)
  }

  /** The flag after a run of events, applied in order from the first. */
  function DraggingAfter(dragging: bool, events: seq<PointerEvent>): bool
    decreases |events|
  {
    if events == [] then dragging else DraggingAfter(DragStep(dragging, events[0]), events[1..])
  }

  /** The last press or release of a run, scanning from its end: Some(true) for
      a press, Some(false) for a release or leave, None if there is neither. */
  function LastButton(events: seq<PointerEvent>): Option<bool>
  {
    if events == [] then None
    else
      var e := events[|events| - 1];
      if e.MouseDown? then Some(true)
      else if e.MouseUp? || e.MouseLeave? then Some(false)
      else LastButton(events[..|events| - 1])
  }

  lemma {:induction false} DraggingAfterAppend(dragging: bool, events: seq<PointerEvent>, e: PointerEvent)
    ensures DraggingAfter(dragging, events + [e]) == DragStep(DraggingAfter(dragging, events), e)
    decreases |events|
  {
    if events != [] {
      assert (events + [e])[1..] == events[1..] + [e];
      DraggingAfterAppend(DragStep(dragging, events[0]), events[1..], e);
    }
  }

  /** The canvas is being dragged exactly when the last press or release was a
      press (or, with none, when it already was): moves never change it, so a
      move samples after a press until the next release or leave, and never
      after one until the next press. */
  lemma {:induction false} DraggingIsLastButton(dragging: bool, events: seq<PointerEvent>)
    ensures DraggingAfter(dragging, events) == match LastButton(events)
      case None => dragging
      case Some(pressed) => pressed
    decreases |events|
  {
    if events != [] {
      var init := events[..|events| - 1];
      var e := events[|events| - 1];
      assert events == init + [e];
      DraggingAfterAppend(dragging, init, e);
      DraggingIsLastButton(dragging, init);
    }
  }

  /** The colour getColorAtPos reports for a pixel. */
  function PixelHex(p: Pixel): string
  {
    EncodeHex(p.r, p.g, p.b)
  }

  /** The component: its canvas element (null before mount), its isDragging
      state, and the colours it has passed to onChange, oldest first. */
  class Wheel {
    const canvas: Element?
    var isDragging: bool
    var emitted: seq<string>

    constructor (canvas: Element?)
      ensures this.canvas == canvas && !isDragging && emitted == []
    {
      this.canvas := canvas;
      isDragging := false;
      emitted := [];
    }

    /** What getColorAtPos reports for canvas-relative (x, y): the pixel's hex
        string when there are a canvas and a 2D context, nothing otherwise. */
    function SampleAt(x: real, y: real, pixelAt: (real, real) -> Pixel): seq<string>
    {
      if canvas != null && canvas.context != null then [PixelHex(pixelAt(x, y))] else []
    }

    /** getColorAtPos; the pixel under (x, y) is supplied by pixelAt, as the
        rasterized wheel is not modelled. */
    method GetColorAtPos(x: real, y: real, pixelAt: (real, real) -> Pixel)
      modifies this`emitted
      ensures emitted == old(emitted) + SampleAt(x, y, pixelAt)
    {
      if canvas == null { return; }
      var ctx := canvas.context;
      if ctx == null { return; }
      var p := pixelAt(x, y);
      emitted := emitted + [EncodeHex(p.r, p.g, p.b)];
    }

    /** handleMouseDown: start dragging and sample under the pointer, relative
        to the canvas's bounding box (which exists once the canvas is mounted). */
    method HandleMouseDown(clientX: real, clientY: real, left: real, top: real,
                           pixelAt: (real, real) -> Pixel)
      modifies this
      ensures isDragging == DragStep(old(isDragging), MouseDown(clientX, clientY))
      ensures emitted == old(emitted) + SampleAt(clientX - left, clientY - top, pixelAt)
    {
      isDragging := true;
      if canvas != null {
        GetColorAtPos(clientX - left, clientY - top, pixelAt);
      }
    }

    /** handleMouseMove: sample only while dragging. */
    method HandleMouseMove(clientX: real, clientY: real, left: real, top: real,
                           pixelAt: (real, real) -> Pixel)
      modifies this
      ensures isDragging == DragStep(old(isDragging), MouseMove(clientX, clientY))
      ensures emitted == old(emitted)
        + if Samples(old(isDragging), MouseMove(clientX, clientY))
          then SampleAt(clientX - left, clientY - top, pixelAt) else []
    {
      if !isDragging { return; }
      if canvas != null {
        GetColorAtPos(clientX - left, clientY - top, pixelAt);
      }
    }

    /** onMouseUp: stop dragging. */
    method HandleMouseUp()
      modifies this`isDragging
      ensures isDragging == DragStep(old(isDragging), MouseUp)
    {
      isDragging := false;
    }

    /** onMouseLeave: stop dragging. */
    method HandleMouseLeave()
      modifies this`isDragging
      ensures isDragging == DragStep(old(isDragging), MouseLeave)
    {
      isDragging := false;
    }

    /** The native colour input reports its value unchanged. */
    method HandleColorInput(value: string)
      modifies this`emitted
      ensures emitted == old(emitted) + [value]
    {
      emitted := emitted + [value];
    }
  }
}
