# Aura avatar studio, modelled in Dafny

A model of the logic behind a small browser app for drawing "aura" avatars: a
word set in one of nineteen display fonts over a glow of fifteen concentric
radial gradients, on a square canvas. The model covers:

- the preview renderer (`components/AvatarPreview.tsx`). It parses a hex
  colour, lays out the fifteen aura layers, applies the case transform to the
  text, chooses the CSS font string and the text anchor, and issues the
  canvas calls in order;
- the colour wheel (`ColorWheel.tsx`). It paints 360 overlapping hue sectors,
  tracks the drag state of the mouse, and encodes the pixel under the pointer
  as `#rrggbb`;
- the font picker (`components/FontPicker.tsx`). It holds a fixed catalogue of
  the font styles in four groups, with an open/closed drop-down;
- the app state (`App.tsx`). It covers single-field settings updates, the
  font-size input, the simulated live-user counter, the download counter with
  its stored total, and the "random inspiration" generator;
- the shared types (`types.ts`).

The canvas is a `Canvas.Context` object. It holds the drawing-state fields the
code assigns and a log (`ops`) of every fill and `fillText` call. A fill is
logged with its shape and the paint and shadow in force; a `fillText` also
with the font, letter spacing and alignment in force. Assigning a font whose
size is negative is ignored, as the browser does with an invalid CSS font. The
context's methods (`FillRect`, `FillDisc`, `FillSector`, `FillText`,
`SetFont`) stand for the canvas API calls the code makes. Drawing methods are
proved against functions that give the exact log they must append:
`RenderOps`, `AuraOps` and `WheelOps`. Properties of the drawing are then
lemmas about those functions. Random draws, pixel reads and storage are
parameters.

The JavaScript built-ins the code leans on are written out in `Strings`:

- `parseInt` (leading white space, a sign, a `0x` prefix, the longest digit
  prefix, NaN as `None`);
- `toString(16)` and decimal formatting;
- `split` and `join`, and `includes`;
- ASCII `toUpperCase` and `toLowerCase`.

## Model

| member | source | states |
|---|---|---|
| AvatarPreview.HexToRgb | components/AvatarPreview.tsx:26-33 | channels lie in [0, 256); any input the pattern rejects gives black; an accepted input gives the three two-digit groups of its last six characters |
| AvatarPreview.HexToRgbIgnoresCase | components/AvatarPreview.tsx:27 | the pattern is case-insensitive: lower-casing the input changes neither acceptance nor the colour read |
| AvatarPreview.LayerRadiusDecreasing | components/AvatarPreview.tsx:36-42 | for a positive base radius, layer radii strictly decrease with the index and stay at least 51% of the base |
| AvatarPreview.LayerOpacityBounds | components/AvatarPreview.tsx:43 | layer opacity is non-negative, never decreases with the index, and peaks at 0.24 * intensity / 100 on the last layer |
| AvatarPreview.AuraLayerShape | components/AvatarPreview.tsx:40-52 | each of the 15 layer calls fills a disc of 1.8 times the layer radius at the centre. Its gradient is centred there, with stops at 0, 0.7 and 1. All three stops carry the parsed colour, with alphas of the layer's opacity, a fifth of it, and 0 at the disc edge |
| AvatarPreview.DrawAura | components/AvatarPreview.tsx:41-52 | the layer loop appends exactly the 15 layer fills, in order, and changes nothing but fillStyle and the log |
| Strings.JoinSplit | components/AvatarPreview.tsx:58 | joining the pieces of `split(' ')` with ' ' gives back the string |
| AvatarPreview.CapitalizePieces | components/AvatarPreview.tsx:58 | the split/map/join pipeline agrees with the position rule, by induction over the string |
| AvatarPreview.CapitalizeWordsByPosition | components/AvatarPreview.tsx:57-59 | CapitalizeWords (split, capitalize each token, join) upper-cases exactly the characters that start the text or follow a space, and lower-cases all others |
| AvatarPreview.CaseByPositionIdempotent | components/AvatarPreview.tsx:58 | capitalizing by position twice is the same as once |
| AvatarPreview.DisplayTextKeepsSpaces | components/AvatarPreview.tsx:54-59 | every transform of DisplayText keeps the length and the positions of spaces, and 'none' leaves the text alone |
| AvatarPreview.DisplayTextIdempotent | components/AvatarPreview.tsx:54-59 | applying any transform of DisplayText to its own result changes nothing |
| AvatarPreview.FontFamilyOfEveryStyle | components/AvatarPreview.tsx:65-87 | FontFamily has an arm for every FontStyle, so the "Inter" default is never reached |
| AvatarPreview.TextFont | components/AvatarPreview.tsx:65-89 | after the font is assigned, the context holds FontString (the size in pixels, then the family) when the size is non-negative, and keeps its previous font otherwise |
| Canvas.Context.SetFont | components/AvatarPreview.tsx:89 | the font setter takes the value unless it starts with a minus sign (a negative size), and then keeps the old font |
| Canvas.Context.FillRect | components/AvatarPreview.tsx:23-24 | fillRect appends one rectangle fill with the current fill style and shadow, and changes nothing else |
| Canvas.Context.FillDisc | components/AvatarPreview.tsx:49-51 | a full-circle arc and fill append one disc fill with the current fill style and shadow, and change nothing else |
| Canvas.Context.FillSector | ColorWheel.tsx:27-35 | moveTo, arc, closePath and fill append one pie-slice fill with the current fill style and shadow, and change nothing else |
| Canvas.Context.FillText | components/AvatarPreview.tsx:124 | fillText appends one text call recording the paint, shadow, font, letter spacing and alignment in force, and changes nothing else |
| AvatarPreview.TextAnchor | components/AvatarPreview.tsx:93-122 | for a non-negative size the anchor lies inside the canvas |
| AvatarPreview.TextAnchorInward | components/AvatarPreview.tsx:93-122 | the two right-hand positions are exactly those right-aligned, and BOTTOM_LEFT is exactly the left-aligned one; the two bottom positions are exactly those on the bottom baseline, and TOP_RIGHT is exactly the top one; text is right-aligned iff the anchor is right of centre and left-aligned iff left of it, and the same holds vertically; corners sit 12% in from two edges and mirror each other; only CENTER anchors at the centre |
| AvatarPreview.RenderOpsDiscipline | components/AvatarPreview.tsx:13-128 | a render is the background, 15 discs and one text call, in that order. The text call alone carries the letter spacing and the transformed text. Its font is FontString for a non-negative size and the incoming font otherwise. Without incoming blur, only the text is drawn with a shadow |
| AvatarPreview.DrawText | components/AvatarPreview.tsx:54-127 | the text step logs one fillText of the transformed text at the anchor. The call uses near-opaque white, an 8px shadow of 10% black, the letter spacing and the font TextFont gives. Afterwards spacing and blur are back at 0, and font and alignment stay as set |
| AvatarPreview.Draw | components/AvatarPreview.tsx:13-128 | with no canvas or no 2D context nothing changes; otherwise the log grows by exactly RenderOps for the incoming shadow and font, the font is as TextFont gives, and spacing and blur end at 0 |
| AvatarPreview.DrawTwice | components/AvatarPreview.tsx:124-127 | after one render, the next logs what it would on a context without shadow blur, so no spacing or blur leaks between renders; only the font carries over, and only into a render whose size is negative |
| ColorWheel.ByteHex | ColorWheel.tsx:52 | a channel is written as two lower-case hex digits whose value is the channel |
| ColorWheel.EncodeHexDigits | ColorWheel.tsx:52 | EncodeHex, the `(1 << 24) + …` trick with the first digit sliced off, is '#' plus the three channels as two-digit hex, zero-padded |
| ColorWheel.EncodeHexIsHexColor | ColorWheel.tsx:52 | the reported colour always has 7 characters, starts with '#', has lower-case hex digits, and is accepted by hexToRgb |
| ColorWheel.DecodeEncode | ColorWheel.tsx:52 | HexToRgb reads back exactly the channels EncodeHex wrote |
| ColorWheel.EncodeDecode | ColorWheel.tsx:52 | EncodeHex of what HexToRgb read gives the input's six digits back in lower case with a '#' |
| ColorWheel.EncodeHexInjective | ColorWheel.tsx:48-52 | pixels with different colour channels are reported as different strings |
| ColorWheel.DrawWheel | ColorWheel.tsx:13-37 | with no canvas or context nothing changes; otherwise the log grows by the 360 sectors in increasing angle, and fillStyle is the last sector's gradient; shadow, font, letter spacing and alignment are unchanged |
| ColorWheel.PaintSectors | ColorWheel.tsx:24-36 | the sector loop appends exactly WheelOps under the context's shadow, and changes nothing but fillStyle and the log |
| ColorWheel.WheelOpsShape | ColorWheel.tsx:24-36 | sector k is centred at (size/2, size/2), spans degrees k to k+2 with radius size/2, and is drawn under the context's shadow. Its gradient is centred there too, with two stops: white at offset 0 (the centre) and hsl(k, 100%, 50%) at offset 1 (the rim) |
| ColorWheel.LastCovering | ColorWheel.tsx:24-36 | the last of sectors 0..k painted over a direction covers it, and none after it up to k does; it is -1 when none covers it |
| ColorWheel.VisibleHue | ColorWheel.tsx:24-36 | the hue showing in direction a is floor(a), except below 1 degree where sector 359 wraps over the seam |
| ColorWheel.DraggingAfterAppend | ColorWheel.tsx:56-83 | the drag flag after a run of events followed by e is one more DragStep (press sets it, move keeps it, release and leave clear it) from the flag after the run |
| ColorWheel.DraggingIsLastButton | ColorWheel.tsx:56-83 | after any run of events the wheel is dragging iff the last press or release was a press, so a move samples exactly between a press and the next release or leave |
| ColorWheel.Wheel.constructor | ColorWheel.tsx:11 | the wheel starts not dragging and has reported nothing |
| ColorWheel.Wheel.GetColorAtPos | ColorWheel.tsx:43-54 | without a canvas or context nothing is reported; otherwise exactly the pixel's hex string is |
| ColorWheel.Wheel.HandleMouseDown | ColorWheel.tsx:56-62 | a press starts dragging and reports the pixel under the canvas-relative pointer |
| ColorWheel.Wheel.HandleMouseMove | ColorWheel.tsx:64-70 | a move leaves the drag flag alone and reports a pixel only while dragging |
| ColorWheel.Wheel.HandleMouseUp | ColorWheel.tsx:82 | release stops dragging |
| ColorWheel.Wheel.HandleMouseLeave | ColorWheel.tsx:83 | leaving the canvas stops dragging |
| ColorWheel.Wheel.HandleColorInput | ColorWheel.tsx:94 | the native colour input's value is reported unchanged |
| FontPicker.Find | components/FontPicker.tsx:56 | `find` gives undefined iff no entry has the id, and otherwise the first entry with it |
| FontPicker.CatalogueConcat | components/FontPicker.tsx:56 | `flatMap` lists the four groups' entries one group after another |
| FontPicker.CatalogueShape | components/FontPicker.tsx:11-51 | there are four groups of 7, 6, 5 and 1 entries: 19 in all, one per FontStyle member |
| FontPicker.RowOfEntry | components/FontPicker.tsx:11-51 | the catalogue position of each entry is the row its style is given |
| FontPicker.ExactlyOneHighlighted | components/FontPicker.tsx:94-113 | for every value exactly one entry has that id, so exactly one row is highlighted and checked |
| FontPicker.SelectedFontDefined | components/FontPicker.tsx:56 | SelectedFont (Find over the flattened catalogue) is never undefined: it is a catalogue entry with the current id |
| FontPicker.SelectedFontOfEntry | components/FontPicker.tsx:56 | choosing an entry and passing its id back selects that same entry |
| FontPicker.TriggerLabelOfEntry | components/FontPicker.tsx:72-74 | the trigger shows the catalogue name of the current style |
| FontPicker.Picker.constructor | components/FontPicker.tsx:54 | the drop-down starts closed with nothing chosen |
| FontPicker.Picker.ClickTrigger | components/FontPicker.tsx:65 | the trigger toggles the drop-down |
| FontPicker.Picker.ClickEntry | components/FontPicker.tsx:90-93 | clicking a visible row reports its id and closes the drop-down |
| FontPicker.Picker.ClickBackdrop | components/FontPicker.tsx:122 | the backdrop closes the drop-down and reports nothing |
| App.UpdateSetting | App.tsx:57-59 | the named field takes the value, and every other field keeps its old value |
| App.SettingsByKeys | App.tsx:57-59 | settings that agree on every key are equal, so UpdateSetting's two clauses fix the result completely |
| App.UpdateSettingLaws | App.tsx:57-59 | writing a field's own value back is a no-op; a second write to the same field overrides the first |
| App.FontSizeFromInput | App.tsx:135 | the stored size is never 0: a NaN from Strings.ParseInt and 0 become 40, and any other parsed integer is kept |
| App.FontSizeInputRoundTrip | App.tsx:132-135 | the input shows String(fontSize); reading that back, alone or followed by any text that does not start with a digit, keeps any non-zero size |
| App.FontSizeFallback | App.tsx:135 | an input with no digit where parseInt expects the first one (after white space and an optional sign) gives 40 |
| Strings.ParseIntDecimalString | App.tsx:134-135 | parseInt reads back any integer written in decimal, followed by any non-digit (after a lone 0, other than an 'x') |
| App.InitialLiveUsers | App.tsx:26 | the starting count is between 15 and 39 |
| App.LiveUsersStep | App.tsx:36 | a tick gives at least 1, and exactly prev±3 unless that is clamped up to 1 |
| App.TickStats | App.tsx:34-37 | the interval's updater moves only the live-user count |
| App.TicksBounds | App.tsx:33-38 | over any run of ticks the count stays ≥ 1 once it is, is ≥ 1 after any tick, and rises by at most 3 per tick from max(start, 1) |
| App.LoadedCreationsRoundTrip | App.tsx:24 | LoadedCreations, the start-up parse, reads back any total as stored by the download handler: a number as itself, and "NaN" as NaN |
| App.Studio.constructor | App.tsx:23-27 | stats start with the total read from storage (NaN if the stored text does not parse, 0 if there is none), 0 session creations and the initial live-user count |
| App.Studio.SetCanvas | App.tsx:30 | the preview's callback records the canvas |
| App.Studio.Tick | App.tsx:33-38 | one interval firing applies TickStats |
| App.Studio.HandleDownload | App.tsx:42-55 | without a canvas nothing changes; otherwise both counters rise by exactly 1 (a NaN total stays NaN) and live users stay; the new total is stored as String(total), and the next start-up reads back that same total |
| App.ColorsAreHex | App.tsx:233 | every colour the generator can pick is a 7-character colour hexToRgb accepts |
| App.PickIndex | App.tsx:237 | `Math.floor(Math.random() * n)` is always a valid index |
| App.RoundedTenths | App.tsx:260 | toFixed(1) in tenths: the integer within half a tenth of 10x, with ties going away from zero, which fixes it uniquely |
| App.RoundToTenth | App.tsx:260 | `Number(x.toFixed(1))` is within 0.05 of x |
| App.RoundedTenthsKeepsBounds | App.tsx:260 | rounding to tenths never crosses a bound that is itself a whole number of tenths |
| Strings.Includes | App.tsx:242-250 | `includes` holds iff the pattern occurs at some position of the string |
| App.BoldStyles | App.tsx:238-242 | the Bungee Shade and Metal Mania styles take the capitals branch |
| App.PickStyle | App.tsx:238-259 | first match wins. 'Bungee'/'Metal' gives uppercase, size in [120, 180) and spacing in [-2, 6]. 'Monsieur'/'Pinyon' gives spacing 0 and size in [70, 120). 'Reenie'/'Hand' gives size in [60, 100) and spacing in [2, 7]. Otherwise the transform is 'none', the size is in [80, 200) and the spacing is 0. The size is the floor of the drawn value and the spacing its toFixed(1) rounding |
| App.InspiredPosition | App.tsx:264 | CENTER iff the first draw exceeds 0.5, otherwise BOTTOM_LEFT or TOP_RIGHT by the second draw, never BOTTOM_RIGHT |
| App.Inspire | App.tsx:232-266 | every field is replaced: the font is picked from all styles, and the style follows PickStyle's rule for that font's name; colour and text come from the fixed lists; intensity is in [60, 180), aura size in [40, 140), and the position is as InspiredPosition says |

## Left out

- Rasterization: what `fillRect`, `arc`/`fill`, gradients and `fillText` put on screen, and what `getImageData` returns. The pixel under the pointer is a parameter (`pixelAt`) of `ColorWheel.Wheel.GetColorAtPos`.
- The HSL-to-RGB conversion of the wheel's colour stops, glyph metrics, and the look of letter spacing and shadows. These are browser behaviour.
- Angles are in degrees; the radians (`Math.PI / 180`) passed to `arc` are not modelled, because they only rescale.
- Colours and the letter spacing are stored on the context as structured values rather than the CSS strings (`rgba(...)`, `${letterSpacing}px`) the code builds.
- `Math.random`, `Date.now`, `setInterval` timing and the five-second period. Random draws are parameters in [0, 1); one interval firing is `App.Studio.Tick`.
- `localStorage` I/O is modelled as a `map` field. The download link, `toDataURL` and the click are left out.
- AvatarPreview.Draw: it requires a non-negative aura size, since a negative arc radius makes the browser throw. The slider's range is 20 to 150.
- The slider handlers for letter spacing, aura size and intensity (`parseFloat`/`parseInt` of a range value) are not modelled beyond `App.UpdateSetting`.
- `toUpperCase`/`toLowerCase` are ASCII-only: other Unicode case mappings are not modelled.
- The 'capitalize' transform is modelled and proved, although the UI offers only 'none', 'uppercase' and 'lowercase' and the generator never picks it.
- `components/UsageStats.tsx`, JSX layout, class names, icons and React re-render triggers. These are presentation.
- App.BoldStyles: only the capitals branch is tied to particular styles. Which styles take the other branches follows from each name and `PickStyle`, but is not stated per style.
- JavaScript numbers are modelled as unbounded integers and exact reals, with NaN only where a count is read from storage. Rounding of doubles is not modelled.
- Strings.DecimalString: it writes every integer in plain digits. `String(n)` switches to exponent form from 1e21, and doubles lose integer precision above 2^53. So App.FontSizeInputRoundTrip, App.LoadedCreationsRoundTrip and Strings.ParseIntDecimalString hold in the browser only for magnitudes below 2^53. A typed font size can exceed that; a download count cannot in practice.
- Canvas.Context.SetFont: the only malformed font it recognises is a negative size, the only one the renderer can build. Full CSS font parsing is not modelled, and neither is how a huge size written in exponent form would parse.
