/** The avatar renderer of components/AvatarPreview.tsx: `draw` paints a white
    background, fifteen concentric radial-gradient glow layers in the chosen
    colour, and the transformed text at the chosen anchor, on a shared 2D
    context whose letter spacing and shadow blur it resets afterwards. */
module AvatarPreview {
  import opened Wrappers
  import opened Strings
  import opened Types
  import opened Canvas

  datatype Rgb = Rgb(r: int, g: int, b: int)

  // ---------------------------------------------------------------------
  // hexToRgb
  // ---------------------------------------------------------------------

  predicate AllHexDigits(s: string)
  {
    forall i :: 0 <= i < |s| ==> IsHexDigit(s[i])
  }

  /** The colours hexToRgb's case-insensitive pattern accepts, stated on
      the string's last six characters: they are hex digits (either case), and
      at most one more character precedes them, a '#'. */
  predicate IsHexColor(hex: string)
  {
    (|hex| == 6 || |hex| == 7)
    && (forall i :: |hex| - 6 <= i < |hex| ==> IsHexDigit(hex[i]))
    && (|hex| == 7 ==> hex[0] == '#')
  }

  /** parseInt of a two-digit hex group. */
  function HexPair(hi: char, lo: char): (v: nat)
    requires IsHexDigit(hi) && IsHexDigit(lo)
    ensures v < 256
  {
    16 * HexValue(hi) + HexValue(lo)
  }

  /** hexToRgb: take off one optional leading '#', and read three two-digit hex
      groups from what is left if it is exactly six hex digits; anything else
      is black. */
  function HexToRgb(hex: string): (c: Rgb)
    ensures 0 <= c.r < 256 && 0 <= c.g < 256 && 0 <= c.b < 256
    ensures !IsHexColor(hex) ==> c == Rgb(0, 0, 0)
    ensures IsHexColor(hex) ==>
      var n := |hex|;
      c == Rgb(HexPair(hex[n - 6], hex[n - 5]), HexPair(hex[n - 4], hex[n - 3]), HexPair(hex[n - 2], hex[n - 1]))
  {
    var digits := if |hex| == 7 && hex[0] == '#' then hex[1..] else hex;
    if |digits| == 6 && AllHexDigits(digits) then
      Rgb(HexPair(digits[0], digits[1]), HexPair(digits[2], digits[3]), HexPair(digits[4], digits[5]))
    else
      Rgb(0, 0, 0)
  }

  /** The pattern is case-insensitive: lower-casing the input changes nothing. */
  lemma HexToRgbIgnoresCase(hex: string)
    ensures IsHexColor(LowerString(hex)) <==> IsHexColor(hex)
    ensures HexToRgb(LowerString(hex)) == HexToRgb(hex)
  {
    var low := LowerString(hex);
    forall i | 0 <= i < |hex|
      ensures IsHexDigit(low[i]) <==> IsHexDigit(hex[i])
      ensures IsHexDigit(hex[i]) ==> HexValue(low[i]) == HexValue(hex[i])
      ensures low[i] == '#' <==> hex[i] == '#'
    {
    }
  }

  // ---------------------------------------------------------------------
  // The aura schedule
  // ---------------------------------------------------------------------

  const Layers: nat := 15

  /** The base radius: half the canvas, scaled by the aura size as a percentage. */
  function BaseRadius(size: real, auraSize: real): real
  {
    size * (auraSize / 200.0)
  }

  /** The radius of layer i: 3.5% of the base radius smaller per layer. */
  function LayerRadius(baseRadius: real, i: int): real
  {
    baseRadius * (1.0 - (i as real) * 0.035)
  }

  /** The opacity of layer i: 3% plus 1.5% per layer, scaled by the intensity
      as a percentage. */
  function LayerOpacity(intensity: real, i: int): real
  {
    (intensity / 100.0) * (0.03 + (i as real) * 0.015)
  }

  /** The radial gradient a layer is filled with: full opacity at the centre,
      a fifth of it at 70% of the way out, transparent at 1.8 times the radius. */
  function LayerGradient(center: real, radius: real, rgb: Rgb, opacity: real): Paint
  {
    RadialGradient(center, center, 0.0, center, center, radius * 1.8,
      [ColorStop(0.0, Rgba(rgb.r, rgb.g, rgb.b, opacity)),
       ColorStop(0.7, Rgba(rgb.r, rgb.g, rgb.b, opacity * 0.2)),
       ColorStop(1.0, Rgba(rgb.r, rgb.g, rgb.b, 0.0))])
  }

  /** The fill of layer i: a disc of 1.8 times the layer radius at the centre. */
  function LayerOp(settings: AvatarSettings, size: real, i: int, shadow: Shadow): Op
  {
    var center := size / 2.0;
    var radius := LayerRadius(BaseRadius(size, settings.auraSize), i);
    var opacity := LayerOpacity(settings.intensity, i);
    Fill(Disc(center, center, radius * 1.8),
         LayerGradient(center, radius, HexToRgb(settings.color), opacity), shadow)
  }

  function AuraOps(settings: AvatarSettings, size: real, shadow: Shadow): seq<Op>
  {
    seq(Layers, i requires 0 <= i < Layers => LayerOp(settings, size, i, shadow))
  }

  /** Successive layers shrink, and every layer keeps at least 51% of the base
      radius, so a positive aura size gives fifteen positive, strictly
      decreasing radii. */
  lemma LayerRadiusDecreasing(baseRadius: real, i: int, j: int)
    requires baseRadius > 0.0
    requires 0 <= i < j < Layers
    ensures LayerRadius(baseRadius, j) < LayerRadius(baseRadius, i)
    ensures LayerRadius(baseRadius, j) >= 0.51 * baseRadius > 0.0
  {
    var gap := ((j - i) as real) * 0.035;
    var slack := (1.0 - (j as real) * 0.035) - 0.51;
    assert gap > 0.0 && slack >= 0.0;
    assert LayerRadius(baseRadius, i) - LayerRadius(baseRadius, j) == baseRadius * gap;
    assert LayerRadius(baseRadius, j) - 0.51 * baseRadius == baseRadius * slack;
    assert baseRadius * gap > 0.0 && baseRadius * slack >= 0.0;
  }

  /** Opacity grows with the layer index, is non-negative for a non-negative
      intensity, and never exceeds that of the last layer, 0.24 * intensity / 100. */
  lemma LayerOpacityBounds(intensity: real, i: int, j: int)
    requires intensity >= 0.0
    requires 0 <= i <= j < Layers
    ensures 0.0 <= LayerOpacity(intensity, i) <= LayerOpacity(intensity, j)
    ensures LayerOpacity(intensity, j) <= 0.24 * intensity / 100.0
    ensures LayerOpacity(intensity, Layers - 1) == 0.24 * intensity / 100.0
  {
    var k := intensity / 100.0;
    var gap := ((j - i) as real) * 0.015;
    var slack := 0.21 - (j as real) * 0.015;
    assert k >= 0.0 && gap >= 0.0 && slack >= 0.0;
    assert LayerOpacity(intensity, j) - LayerOpacity(intensity, i) == k * gap;
    assert 0.24 * intensity / 100.0 - LayerOpacity(intensity, j) == k * slack;
    assert k * gap >= 0.0 && k * slack >= 0.0;
    assert LayerOpacity(intensity, i) == k * (0.03 + (i as real) * 0.015);
  }

  /** Every layer is a disc at the canvas centre, filled with a gradient centred
      on it that fades out exactly at the disc's edge, through alphas that never
      increase outwards; its radius and opacity are those of the schedule. All
      three stops carry the parsed colour, with the layer's opacity, a fifth of
      it, and 0. */
  lemma AuraLayerShape(settings: AvatarSettings, size: real, shadow: Shadow, i: int)
    requires 0 <= i < Layers
    requires settings.intensity >= 0.0
    ensures |AuraOps(settings, size, shadow)| == Layers
    ensures var op := AuraOps(settings, size, shadow)[i];
      && op.Fill? && op.shape.Disc? && op.paint.RadialGradient? && op.shadow == shadow
      && op.shape.cx == op.shape.cy == size / 2.0
      && op.shape.r == 1.8 * LayerRadius(BaseRadius(size, settings.auraSize), i)
      && op.paint.x0 == op.paint.x1 == op.shape.cx && op.paint.y0 == op.paint.y1 == op.shape.cy
      && op.paint.r0 == 0.0 && op.paint.r1 == op.shape.r
      && |op.paint.stops| == 3
      && op.paint.stops[0].color.Rgba? && op.paint.stops[1].color.Rgba? && op.paint.stops[2].color.Rgba?
      && op.paint.stops[0].offset == 0.0 && op.paint.stops[1].offset == 0.7 && op.paint.stops[2].offset == 1.0
      && op.paint.stops[0].color.alpha == LayerOpacity(settings.intensity, i)
      && op.paint.stops[0].color.alpha >= op.paint.stops[1].color.alpha >= op.paint.stops[2].color.alpha == 0.0
      && HexToRgb(settings.color) == Rgb(op.paint.stops[0].color.r, op.paint.stops[0].color.g, op.paint.stops[0].color.b)
      && op.paint.stops[1].color == Rgba(op.paint.stops[0].color.r, op.paint.stops[0].color.g,
                                         op.paint.stops[0].color.b, 0.2 * op.paint.stops[0].color.alpha)
      && op.paint.stops[2].color == Rgba(op.paint.stops[0].color.r, op.paint.stops[0].color.g,
                                         op.paint.stops[0].color.b, 0.0)
  {
    LayerOpacityBounds(settings.intensity, i, i);
  }

  // ---------------------------------------------------------------------
  // Text transform
  // ---------------------------------------------------------------------

  /** A token with its first character upper-cased and the rest lower-cased. */
  function CapitalizeWord(w: string): string
  {
    if w == [] then [] else [UpperChar(w[0])] + LowerString(w[1..])
  }

  function MapCapitalizeWord(ws: seq<string>): (r: seq<string>)
    ensures |r| == |ws|
  {
    if ws == [] then [] else [CapitalizeWord(ws[0])] + MapCapitalizeWord(ws[1..])
  }

  /** The 'capitalize' transform: split at spaces, capitalize each token,
      join with spaces. */
  function CapitalizeWords(text: string): string
  {
    Join(MapCapitalizeWord(Split(text, ' ')), ' ')
  }

  /** The position-wise reading of capitalize: a character that starts a word
      (it is first, or follows a space) is upper-cased, every other character is
      lower-cased. With startsWord false the first character counts as inside a
      word. */
  function CaseByPosition(s: string, startsWord: bool): (r: string)
    ensures |r| == |s|
  {
    seq(|s|, k requires 0 <= k < |s| =>
      if (k == 0 && startsWord) || (k > 0 && s[k - 1] == ' ') then UpperChar(s[k]) else LowerChar(s[k]))
  }

  /** Peeling the first character off CaseByPosition. */
  lemma CaseByPositionCons(s: string, startsWord: bool)
    requires s != []
    ensures CaseByPosition(s, startsWord)
         == [if s[0] == ' ' || startsWord then UpperChar(s[0]) else LowerChar(s[0])]
            + CaseByPosition(s[1..], s[0] == ' ')
  {
    var lhs := CaseByPosition(s, startsWord);
    var rhs := [if s[0] == ' ' || startsWord then UpperChar(s[0]) else LowerChar(s[0])]
               + CaseByPosition(s[1..], s[0] == ' ');
    assert |lhs| == |rhs|;
    forall k | 0 <= k < |lhs| ensures lhs[k] == rhs[k] {
      if k == 0 {
        assert UpperChar(' ') == ' ' == LowerChar(' ');
      } else {
        assert s[1..][k - 1] == s[k];
      }
    }
  }

  /** The pipeline run on the pieces of s, the first piece capitalized only
      when startsWord, agrees with CaseByPosition. */
  predicate PiecesByPosition(s: string, startsWord: bool)
  {
    var t := Split(s, ' ');
    Join([if startsWord then CapitalizeWord(t[0]) else LowerString(t[0])] + MapCapitalizeWord(t[1..]), ' ')
      == CaseByPosition(s, startsWord)
  }

  /** A leading space ends an empty first piece; the rest starts a word. */
  lemma PiecesSpaceStep(s: string, startsWord: bool)
    requires s != [] && s[0] == ' '
    requires PiecesByPosition(s[1..], true)
    ensures PiecesByPosition(s, startsWord)
  {
    var u := Split(s[1..], ' ');
    assert Split(s, ' ') == [[]] + u;
    var mapped := MapCapitalizeWord(u);
    assert ([[]] + mapped)[1..] == mapped;
    CaseByPositionCons(s, startsWord);
  }

  /** A leading letter joins the first piece of the rest. */
  lemma PiecesLetterStep(s: string, startsWord: bool)
    requires s != [] && s[0] != ' '
    requires PiecesByPosition(s[1..], false)
    ensures PiecesByPosition(s, startsWord)
  {
    var t := Split(s, ' ');
    var u := Split(s[1..], ' ');
    var c := if startsWord then UpperChar(s[0]) else LowerChar(s[0]);
    var first := if startsWord then CapitalizeWord(t[0]) else LowerString(t[0]);
    assert t[0] == [s[0]] + u[0] && t[1..] == u[1..] by {
      assert t == [[s[0]] + u[0]] + u[1..];
    }
    assert first == [c] + LowerString(u[0]) by {
      assert ([s[0]] + u[0])[1..] == u[0];
    }
    calc {
      Join([first] + MapCapitalizeWord(t[1..]), ' ');
      Join([[c] + LowerString(u[0])] + MapCapitalizeWord(u[1..]), ' ');
      { JoinConsHead(c, LowerString(u[0]), MapCapitalizeWord(u[1..]), ' '); }
      [c] + Join([LowerString(u[0])] + MapCapitalizeWord(u[1..]), ' ');
      [c] + CaseByPosition(s[1..], false);
      { CaseByPositionCons(s, startsWord); }
      CaseByPosition(s, startsWord);
    }
  }

  lemma {:induction false} CapitalizePieces(s: string, startsWord: bool)
    ensures PiecesByPosition(s, startsWord)
    decreases |s|
  {
    if s == [] {
      assert Split(s, ' ') == [[]];
    } else if s[0] == ' ' {
      CapitalizePieces(s[1..], true);
      PiecesSpaceStep(s, startsWord);
    } else {
      CapitalizePieces(s[1..], false);
      PiecesLetterStep(s, startsWord);
    }
  }

  /** The split/map/join pipeline upper-cases exactly the first character of
      each space-separated token and lower-cases the rest. */
  lemma CapitalizeWordsByPosition(s: string)
    ensures CapitalizeWords(s) == CaseByPosition(s, true)
  {
    CapitalizePieces(s, true);
  }

  /** The text actually drawn, after the case transform. */
  function DisplayText(text: string, t: TextTransform): string
  {
    match t
    case NoTransform => text
    case Uppercase => UpperString(text)
    case Lowercase => LowerString(text)
    case Capitalize => CapitalizeWords(text)
  }

  /** Capitalizing by position a second time changes nothing: a character
      starting a word is already upper case, every other one lower case, and
      the spaces that decide this stay where they were. */
  lemma CaseByPositionIdempotent(s: string)
    ensures CaseByPosition(CaseByPosition(s, true), true) == CaseByPosition(s, true)
  {
    var once := CaseByPosition(s, true);
    forall k | 0 <= k < |s|
      ensures CaseByPosition(once, true)[k] == once[k]
    {
      CaseMapsAgree(s[k]);
      if k > 0 {
        CaseMapsAgree(s[k - 1]);
      }
    }
  }

  /** Every transform keeps the length and the positions of spaces (for ASCII
      case mapping), and 'none' is the identity. */
  lemma DisplayTextKeepsSpaces(text: string, t: TextTransform)
    ensures DisplayText(text, NoTransform) == text
    ensures |DisplayText(text, t)| == |text|
    ensures forall k :: 0 <= k < |text| ==> (DisplayText(text, t)[k] == ' ' <==> text[k] == ' ')
  {
    var once := DisplayText(text, t);
    match t
    case NoTransform =>
    case Uppercase =>
    case Lowercase =>
    case Capitalize =>
      CapitalizeWordsByPosition(text);
      assert once == CaseByPosition(text, true);
  }

  /** Applying a transform twice is the same as applying it once. */
  lemma DisplayTextIdempotent(text: string, t: TextTransform)
    ensures DisplayText(DisplayText(text, t), t) == DisplayText(text, t)
  {
    var once := DisplayText(text, t);
    match t
    case NoTransform =>
    case Uppercase =>
      forall k | 0 <= k < |text| ensures UpperChar(once[k]) == once[k] {
        CaseMapsAgree(text[k]);
      }
    case Lowercase =>
      forall k | 0 <= k < |text| ensures LowerChar(once[k]) == once[k] {
        CaseMapsAgree(text[k]);
      }
    case Capitalize =>
      CapitalizeWordsByPosition(text);
      CapitalizeWordsByPosition(once);
      CaseByPositionIdempotent(text);
  }

  // ---------------------------------------------------------------------
  // Font
  // ---------------------------------------------------------------------

  const DefaultFamily: string := "\"Inter\", sans-serif"

  /** The switch over settings.fontStyle, arm by arm, with its default. */
  function FontFamily(style: FontStyle): string
  {
    if style == WildShade then "\"Bungee Shade\", cursive"
    else if style == WildMetal then "\"Metal Mania\", cursive"
    else if style == WildBeast then "\"Rubik Beastly\", cursive"
    else if style == WildImpact then "\"Syne\", sans-serif"
    else if style == WildMarker then "\"Permanent Marker\", cursive"
    else if style == WildRock then "\"Rock Salt\", cursive"
    else if style == WildCreep then "\"Creepster\", cursive"
    else if style == LuxeMonsieur then "\"Monsieur La Doulaise\", cursive"
    else if style == LuxePinyon then "\"Pinyon Script\", cursive"
    else if style == LuxeItalianno then "\"Italianno\", cursive"
    else if style == LuxeDeco then "\"Cinzel Decorative\", serif"
    else if style == LuxeVibes then "\"Great Vibes\", cursive"
    else if style == LuxeParisienne then "\"Parisienne\", cursive"
    else if style == RawReenie then "\"Reenie Beanie\", cursive"
    else if style == RawJustHand then "\"Just Another Hand\", cursive"
    else if style == RawGrace then "\"Covered By Your Grace\", cursive"
    else if style == RawZeyada then "\"Zeyada\", cursive"
    else if style == RawNanum then "\"Nanum Pen Script\", cursive"
    else if style == Gothic then "\"UnifrakturMaguntia\", cursive"
    else DefaultFamily
  }

  /** Every enum member has its own arm, so the "Inter" default is never
      reached for a FontStyle. */
  lemma FontFamilyOfEveryStyle(f: FontStyle)
    ensures FontFamily(f) != DefaultFamily
  {
    match f
    case WildShade =>
    case WildMetal =>
    case WildBeast =>
    case WildImpact =>
    case WildMarker =>
    case WildRock =>
    case WildCreep =>
    case LuxeMonsieur =>
    case LuxePinyon =>
    case LuxeItalianno =>
    case LuxeDeco =>
    case LuxeVibes =>
    case LuxeParisienne =>
    case RawReenie =>
    case RawJustHand =>
    case RawGrace =>
    case RawZeyada =>
    case RawNanum =>
    case Gothic =>
  }

  /** The CSS font shorthand: the size in pixels, then the family. */
  function FontString(fontSize: int, style: FontStyle): string
  {
    DecimalString(fontSize) + "px " + FontFamily(style)
  }

  /** The font the context holds once draw has assigned FontString over
      `current`: the new font, unless its size is negative, in which case the
      browser rejects the shorthand and `current` stays. */
  function TextFont(settings: AvatarSettings, current: string): (f: string)
    ensures settings.fontSize >= 0 ==> f == FontString(settings.fontSize, settings.fontStyle)
    ensures settings.fontSize < 0 ==> f == current
  {
    var font := FontString(settings.fontSize, settings.fontStyle);
    if FontRejected(font) then current else font
  }

  // ---------------------------------------------------------------------
  // Position
  // ---------------------------------------------------------------------

  datatype Anchor = Anchor(x: real, y: real, align: Align, baseline: Baseline)

  /** The switch over settings.position, with padding = 0.12 * size. */
  function TextAnchor(position: TextPosition, size: real): (a: Anchor)
    ensures size >= 0.0 ==> 0.0 <= a.x <= size && 0.0 <= a.y <= size
  {
    var center := size / 2.0;
    var padding := size * 0.12;
    match position
    case Center => Anchor(center, center, CenterAlign, Middle)
    case BottomRight => Anchor(size - padding, size - padding, Right, Bottom)
    case BottomLeft => Anchor(padding, size - padding, Left, Bottom)
    case TopRight => Anchor(size - padding, padding, Right, Top)
  }

  /** Corner anchors sit 12% of the size in from two edges, mirror images of
      each other, and the text is aligned towards the inside of the canvas:
      right-aligned exactly when the anchor is right of centre, bottom-aligned
      exactly when it is below centre. */
  lemma TextAnchorInward(position: TextPosition, size: real)
    requires size > 0.0
    ensures var a := TextAnchor(position, size);
      && ((position == BottomRight || position == TopRight) <==> a.align == Right)
      && (position == BottomLeft <==> a.align == Left)
      && ((position == BottomRight || position == BottomLeft) <==> a.baseline == Bottom)
      && (position == TopRight <==> a.baseline == Top)
      && (a.align == Right <==> a.x > size / 2.0)
      && (a.align == Left <==> a.x < size / 2.0)
      && (a.baseline == Bottom <==> a.y > size / 2.0)
      && (a.baseline == Top <==> a.y < size / 2.0)
      && (position == Center <==> (a.x == size / 2.0 && a.y == size / 2.0))
    ensures TextAnchor(BottomLeft, size).x + TextAnchor(BottomRight, size).x == size
    ensures TextAnchor(TopRight, size).y + TextAnchor(BottomRight, size).y == size
    ensures position != Center ==>
      var a := TextAnchor(position, size);
      (a.x == 0.12 * size || a.x == 0.88 * size) && (a.y == 0.12 * size || a.y == 0.88 * size)
  {
  }

  // ---------------------------------------------------------------------
  // draw
  // ---------------------------------------------------------------------

  const TextPaint: Paint := Solid(Rgba(255, 255, 255, 0.99))
  const TextShadowColor: Color := Rgba(0, 0, 0, 0.1)
  const TextShadowBlur: real := 8.0

  function BackgroundOp(size: real, shadow: Shadow): Op
  {
    Fill(Rect(0.0, 0.0, size, size), Solid(Css("#FFFFFF")), shadow)
  }

  function TextOp(settings: AvatarSettings, size: real, fontIn: string): Op
  {
    var a := TextAnchor(settings.position, size);
    Text(DisplayText(settings.text, settings.textTransform), a.x, a.y, TextPaint,
         Shadow(TextShadowColor, TextShadowBlur), TextFont(settings, fontIn),
         settings.letterSpacing, a.align, a.baseline)
  }

  /** What one call of draw adds to the context's log, given the shadow and
      the font the context carried when draw began. */
  function RenderOps(settings: AvatarSettings, size: real, shadowIn: Shadow, fontIn: string): seq<Op>
  {
    [BackgroundOp(size, shadowIn)] + AuraOps(settings, size, shadowIn) + [TextOp(settings, size, fontIn)]
  }

  /** A render is the background, the fifteen layers and one text call, in that
      order. The letter spacing is used by the text call alone; when the context
      comes in without shadow blur, the text is also the only thing drawn with a
      shadow, so neither setting reaches the glow. The text is set in the
      chosen font unless its size is negative, when the incoming font stays. */
  lemma RenderOpsDiscipline(settings: AvatarSettings, size: real, shadowIn: Shadow, fontIn: string)
    ensures var ops := RenderOps(settings, size, shadowIn, fontIn);
      && |ops| == Layers + 2
      && ops[0].Fill? && ops[0].shape == Rect(0.0, 0.0, size, size)
      && (forall k :: 1 <= k <= Layers ==> ops[k].Fill? && ops[k].shape.Disc?)
      && (forall k :: 0 <= k < |ops| ==> (ops[k].Text? <==> k == |ops| - 1))
      && ops[|ops| - 1].spacing == settings.letterSpacing
      && (settings.fontSize >= 0 ==> ops[|ops| - 1].font == FontString(settings.fontSize, settings.fontStyle))
      && (settings.fontSize < 0 ==> ops[|ops| - 1].font == fontIn)
      && ops[|ops| - 1].text == DisplayText(settings.text, settings.textTransform)
      && (shadowIn.blur == 0.0 ==> forall k :: 0 <= k < |ops| ==> (ops[k].shadow.blur != 0.0 <==> ops[k].Text?))
  {
  }

  /** draw(): with no canvas, or no 2D context, nothing happens (the modifies
      clause is then empty). Otherwise the background, the aura layers and the
      text are drawn in that order, and letterSpacing and shadowBlur end at 0
      whatever the settings were. A negative aura size would make the browser
      throw on the first layer; the controls never produce one. */
  method Draw(canvas: Element?, settings: AvatarSettings)
    requires settings.auraSize >= 0.0
    modifies if canvas != null && canvas.context != null then {canvas.context} else {}
    ensures canvas != null && canvas.context != null ==>
      var ctx := canvas.context;
      var size := canvas.width as real;
      var anchor := TextAnchor(settings.position, size);
      && ctx.ops == old(ctx.ops) + RenderOps(settings, size, old(ctx.CurrentShadow()), old(ctx.font))
      && ctx.letterSpacing == 0.0 && ctx.shadowBlur == 0.0
      && ctx.fillStyle == TextPaint && ctx.shadowColor == TextShadowColor
      && ctx.font == TextFont(settings, old(ctx.font))
      && ctx.textAlign == anchor.align && ctx.textBaseline == anchor.baseline
  {
    if canvas == null { return; }
    var ctx := canvas.context;
    if ctx == null { return; }

    var size := canvas.width as real;
    ghost var shadowIn := ctx.CurrentShadow();
    ghost var fontIn := ctx.font;
    ghost var ops0 := ctx.ops;
    ctx.fillStyle := Solid(Css("#FFFFFF"));
    ctx.FillRect(0.0, 0.0, size, size);
    DrawAura(ctx, settings, size);
    DrawText(ctx, settings, size);
    RenderOpsAppend(ops0, settings, size, shadowIn, fontIn);
  }

  /** The three parts of a render, appended one after another to a log. */
  lemma RenderOpsAppend(ops0: seq<Op>, settings: AvatarSettings, size: real, shadowIn: Shadow, fontIn: string)
    ensures ops0 + [BackgroundOp(size, shadowIn)] + AuraOps(settings, size, shadowIn) + [TextOp(settings, size, fontIn)]
            == ops0 + RenderOps(settings, size, shadowIn, fontIn)
  {
  }

  /** The layer loop of draw. */
  method DrawAura(ctx: Context, settings: AvatarSettings, size: real)
    requires size >= 0.0 && settings.auraSize >= 0.0
    modifies ctx`fillStyle, ctx`ops
    ensures ctx.ops == old(ctx.ops) + AuraOps(settings, size, old(ctx.CurrentShadow()))
  {
    var center := size / 2.0;
    var rgb := HexToRgb(settings.color);
    var baseRadius := BaseRadius(size, settings.auraSize);
    assert baseRadius >= 0.0;
    ghost var shadowIn := ctx.CurrentShadow();
    ghost var aura := AuraOps(settings, size, shadowIn);
    for i := 0 to Layers
      invariant ctx.ops == old(ctx.ops) + aura[..i]
    {
      var radius := LayerRadius(baseRadius, i);
      var opacity := LayerOpacity(settings.intensity, i);
      assert 1.0 - (i as real) * 0.035 > 0.0;
      ctx.fillStyle := LayerGradient(center, radius, rgb, opacity);
      ctx.FillDisc(center, center, radius * 1.8);
      assert aura[..i + 1] == aura[..i] + [LayerOp(settings, size, i, shadowIn)];
    }
    assert aura[..Layers] == aura;
  }

  /** The text part of draw: transform the text, set paint, shadow, font,
      spacing and alignment, draw, then reset spacing and shadow blur. */
  method DrawText(ctx: Context, settings: AvatarSettings, size: real)
    modifies ctx
    ensures var anchor := TextAnchor(settings.position, size);
      && ctx.ops == old(ctx.ops) + [TextOp(settings, size, old(ctx.font))]
      && ctx.letterSpacing == 0.0 && ctx.shadowBlur == 0.0
      && ctx.fillStyle == TextPaint && ctx.shadowColor == TextShadowColor
      && ctx.font == TextFont(settings, old(ctx.font))
      && ctx.textAlign == anchor.align && ctx.textBaseline == anchor.baseline
  {
    var displayText := settings.text;
    if settings.textTransform == Uppercase { displayText := UpperString(displayText); }
    if settings.textTransform == Lowercase { displayText := LowerString(displayText); }
    if settings.textTransform == Capitalize { displayText := CapitalizeWords(displayText); }

    ctx.fillStyle := TextPaint;
    ctx.shadowColor := TextShadowColor;
    ctx.shadowBlur := TextShadowBlur;
    ctx.SetFont(FontString(settings.fontSize, settings.fontStyle));
    ctx.letterSpacing := settings.letterSpacing;

    var anchor := TextAnchor(settings.position, size);
    ctx.textAlign := anchor.align;
    ctx.textBaseline := anchor.baseline;

    ctx.FillText(displayText, anchor.x, anchor.y);
    ctx.letterSpacing := 0.0;
    ctx.shadowBlur := 0.0;
  }

  /** Two renders in a row on one context: the second logs exactly what it would
      log on a context without shadow blur, whatever the first one's letter
      spacing and shadow were, so neither setting leaks into the second. Only
      the font carries over, and only to a second render whose size is
      negative. */
  method DrawTwice(canvas: Element, first: AvatarSettings, second: AvatarSettings)
    requires canvas.context != null
    requires first.auraSize >= 0.0 && second.auraSize >= 0.0
    modifies canvas.context
    ensures var size := canvas.width as real;
      canvas.context.ops == old(canvas.context.ops)
        + RenderOps(first, size, old(canvas.context.CurrentShadow()), old(canvas.context.font))
        + RenderOps(second, size, Shadow(TextShadowColor, 0.0), TextFont(first, old(canvas.context.font)))
    ensures canvas.context.letterSpacing == 0.0 && canvas.context.shadowBlur == 0.0
    ensures canvas.context.font == TextFont(second, TextFont(first, old(canvas.context.font)))
  {
    Draw(canvas, first);
    Draw(canvas, second);
  }
}
