/** The state transitions of App.tsx: single-field settings updates, the
    font-size input, the simulated live-user counter, the download counter
    with its stored total, and the "random inspiration" generator. Random
    draws are parameters in [0, 1); storage, timers and the download itself
    are outside the model. */
module App {
  import opened Wrappers
  import opened Strings
  import opened Types
  import opened Canvas
  import opened AvatarPreview

  // ---------------------------------------------------------------------
  // updateSetting
  // ---------------------------------------------------------------------

  /** updateSetting(key, value): one variant per key of AvatarSettings, each
      carrying a value of that field's type. */
  datatype SettingUpdate =
    | SetText(text: string)
    | SetColor(color: string)
    | SetFontSize(fontSize: int)
    | SetFontStyle(fontStyle: FontStyle)
    | SetPosition(position: TextPosition)
    | SetIntensity(intensity: real)
    | SetAuraSize(auraSize: real)
    | SetTextTransform(textTransform: TextTransform)
    | SetLetterSpacing(letterSpacing: real)

  datatype SettingKey =
    | TextKey | ColorKey | FontSizeKey | FontStyleKey | PositionKey
    | IntensityKey | AuraSizeKey | TextTransformKey | LetterSpacingKey

  function Key(u: SettingUpdate): SettingKey
  {
    match u
    case SetText(_) => TextKey
    case SetColor(_) => ColorKey
    case SetFontSize(_) => FontSizeKey
    case SetFontStyle(_) => FontStyleKey
    case SetPosition(_) => PositionKey
    case SetIntensity(_) => IntensityKey
    case SetAuraSize(_) => AuraSizeKey
    case SetTextTransform(_) => TextTransformKey
    case SetLetterSpacing(_) => LetterSpacingKey
  }

  /** settings[key], as the update that would write it. */
  function Get(s: AvatarSettings, k: SettingKey): SettingUpdate
  {
    match k
    case TextKey => SetText(s.text)
    case ColorKey => SetColor(s.color)
    case FontSizeKey => SetFontSize(s.fontSize)
    case FontStyleKey => SetFontStyle(s.fontStyle)
    case PositionKey => SetPosition(s.position)
    case IntensityKey => SetIntensity(s.intensity)
    case AuraSizeKey => SetAuraSize(s.auraSize)
    case TextTransformKey => SetTextTransform(s.textTransform)
    case LetterSpacingKey => SetLetterSpacing(s.letterSpacing)
  }

  /** The updater passed to setSettings: the named field takes the
      value and every other field keeps its old one. */
  function UpdateSetting(prev: AvatarSettings, u: SettingUpdate): (next: AvatarSettings)
    ensures Get(next, Key(u)) == u
    ensures forall k :: k != Key(u) ==> Get(next, k) == Get(prev, k)
  {
    match u
    case SetText(v) => prev.(text := v)
    case SetColor(v) => prev.(color := v)
    case SetFontSize(v) => prev.(fontSize := v)
    case SetFontStyle(v) => prev.(fontStyle := v)
    case SetPosition(v) => prev.(position := v)
    case SetIntensity(v) => prev.(intensity := v)
    case SetAuraSize(v) => prev.(auraSize := v)
    case SetTextTransform(v) => prev.(textTransform := v)
    case SetLetterSpacing(v) => prev.(letterSpacing := v)
  }

  /** Settings agree on every key only when they are equal, so the two
      clauses of UpdateSetting pin the new settings down completely. */
  lemma SettingsByKeys(s: AvatarSettings, t: AvatarSettings)
    requires forall k :: Get(s, k) == Get(t, k)
    ensures s == t
  {
    assert Get(s, TextKey) == Get(t, TextKey) && Get(s, ColorKey) == Get(t, ColorKey);
    assert Get(s, FontSizeKey) == Get(t, FontSizeKey) && Get(s, FontStyleKey) == Get(t, FontStyleKey);
    assert Get(s, PositionKey) == Get(t, PositionKey) && Get(s, IntensityKey) == Get(t, IntensityKey);
    assert Get(s, AuraSizeKey) == Get(t, AuraSizeKey) && Get(s, TextTransformKey) == Get(t, TextTransformKey);
    assert Get(s, LetterSpacingKey) == Get(t, LetterSpacingKey);
  }

  /** Writing back the value a field already has changes nothing, and a
      second write to the same field overrides the first. */
  lemma UpdateSettingLaws(s: AvatarSettings, k: SettingKey, u: SettingUpdate, v: SettingUpdate)
    requires Key(u) == Key(v)
    ensures UpdateSetting(s, Get(s, k)) == s
    ensures UpdateSetting(UpdateSetting(s, u), v) == UpdateSetting(s, v)
  {
  }

  // ---------------------------------------------------------------------
  // The font-size input
  // ---------------------------------------------------------------------

  /** The font-size field's handler: parseInt of the typed text, where NaN
      and 0, being falsy, give way to 40. */
  function FontSizeFromInput(value: string): (size: int)
    ensures size != 0
    ensures match ParseInt(value)
      case None => size == 40
      case Some(n) => size == if n == 0 then 40 else n
  {
    match ParseInt(value)
    case None => 40
    case Some(n) => if n == 0 then 40 else n
  }

  /** The input shows String(fontSize); editing it back unchanged, or with
      trailing non-digits, keeps any non-zero size. */
  lemma FontSizeInputRoundTrip(n: int, rest: string)
    requires n != 0
    requires rest == [] || !IsDecimalDigit(rest[0])
    ensures FontSizeFromInput(DecimalString(n) + rest) == n
  {
    ParseIntDecimalString(n, rest);
  }

  /** An input with no digit where parseInt looks for the first one (after
      white space and an optional sign) is NaN, so the size falls back to 40. */
  lemma FontSizeFallback(value: string)
    requires var t := TrimStart(value);
      var u := if t != [] && (t[0] == '-' || t[0] == '+') then t[1..] else t;
      u == [] || !IsDecimalDigit(u[0])
    ensures FontSizeFromInput(value) == 40
  {
    var t := TrimStart(value);
    var u := if t != [] && (t[0] == '-' || t[0] == '+') then t[1..] else t;
    if u != [] {
      assert DigitPrefix(u, 10) == [];
    }
  }

  // ---------------------------------------------------------------------
  // Live users
  // ---------------------------------------------------------------------

  /** The starting live-user count: a random whole number from 15 to 39. */
  function InitialLiveUsers(draw: real): (n: int)
    requires 0.0 <= draw < 1.0
    ensures 15 <= n <= 39
  {
    (draw * 25.0).Floor + 15
  }

  /** One tick of the interval: up 3 when the draw is above one half, down 3
      otherwise, and never below 1. */
  function LiveUsersStep(prev: int, draw: real): (n: int)
    ensures n >= 1
    ensures var delta := if draw > 0.5 then 3 else -3;
      n >= prev + delta && (n == prev + delta || n == 1)
  {
    var next := prev + if draw > 0.5 then 3 else -3;
    if next > 1 then next else 1
  }

  /** The stats updater of the interval: only the live-user count moves. */
  function TickStats(prev: AppStats, draw: real): (next: AppStats)
    ensures next.localCreations == prev.localCreations
    ensures next.sessionCreations == prev.sessionCreations
    ensures next.simulatedLiveUsers == LiveUsersStep(prev.simulatedLiveUsers, draw)
  {
    prev.(simulatedLiveUsers := LiveUsersStep(prev.simulatedLiveUsers, draw))
  }

  /** A run of ticks never takes a positive count below 1, ends at 1 or more
      after any tick, and rises by at most 3 per tick from max(start, 1). */
  lemma {:induction false} TicksBounds(start: int, draws: seq<real>)
    ensures start >= 1 || draws != [] ==> TicksFrom(start, draws) >= 1
    ensures TicksFrom(start, draws) <= (if start > 1 then start else 1) + 3 * |draws|
    decreases |draws|
  {
    if draws != [] {
      TicksBounds(LiveUsersStep(start, draws[0]), draws[1..]);
    }
  }

  /** The live-user count after one tick per draw. */
  function TicksFrom(start: int, draws: seq<real>): int
    decreases |draws|
  {
    if draws == [] then start else TicksFrom(LiveUsersStep(start, draws[0]), draws[1..])
  }

  // ---------------------------------------------------------------------
  // The download counter
  // ---------------------------------------------------------------------

  /** The localStorage key of the running total. */
  const TotalKey := "aura_total_creations"

  /** The start-up read of the stored total with parseInt: a missing or empty
      entry counts as "0"; text parseInt cannot read is NaN, written None. */
  function LoadedCreations(stored: Option<string>): Option<int>
  {
    ParseInt(if stored.None? || stored.value == "" then "0" else stored.value)
  }

  /** What the total in a storage map reads as: the entry under TotalKey, or
      "0" when there is none. */
  function StoredTotal(storage: map<string, string>): Option<int>
  {
    LoadedCreations(if TotalKey in storage then Some(storage[TotalKey]) else None)
  }

  /** String(n) of a count that may be NaN. */
  function CountString(n: Option<int>): string
  {
    match n
    case None => "NaN"
    case Some(k) => DecimalString(k)
  }

  /** n + 1 on a count that may be NaN: NaN stays NaN. */
  function CountSucc(n: Option<int>): Option<int>
  {
    match n
    case None => None
    case Some(k) => Some(k + 1)
  }

  /** A total that was written is read back as the same number, and a NaN
      total, written as "NaN", is read back as NaN. */
  lemma LoadedCreationsRoundTrip(n: Option<int>)
    ensures LoadedCreations(Some(CountString(n))) == n
  {
    match n
    case None =>
      assert TrimStart("NaN") == "NaN";
      assert DigitPrefix("NaN", 10) == [];
    case Some(k) =>
      ParseIntDecimalString(k, []);
      assert DecimalString(k) + [] == DecimalString(k);
  }

  /** The app's stats, its storage, and the avatar canvas it downloads from
      (null until the preview has mounted). */
  class Studio {
    var stats: AppStats
    var storage: map<string, string>
    var canvas: Element?

    /** The initial state: the total read from storage (NaN when the stored
        text does not parse), no creations this session, and a live-user count
        from one random draw. */
    constructor (storage: map<string, string>, draw: real)
      requires 0.0 <= draw < 1.0
      ensures stats == AppStats(StoredTotal(storage), 0, InitialLiveUsers(draw))
      ensures this.storage == storage && canvas == null
    {
      var stored := if TotalKey in storage then Some(storage[TotalKey]) else None;
      stats := AppStats(LoadedCreations(stored), 0, InitialLiveUsers(draw));
      this.storage := storage;
      canvas := null;
    }

    /** setCanvasRef, the preview's callback. */
    method SetCanvas(c: Element?)
      modifies this`canvas
      ensures canvas == c
    {
      canvas := c;
    }

    /** One firing of the five-second interval. */
    method Tick(draw: real)
      modifies this`stats
      ensures stats == TickStats(old(stats), draw)
    {
      stats := TickStats(stats, draw);
    }

    /** handleDownload: without a canvas nothing happens; otherwise both
        counters rise by one (a NaN total stays NaN), the live-user count
        stays, and the new total is stored as a string that the next start-up
        reads back as that total. */
    method HandleDownload()
      modifies this`stats, this`storage
      ensures old(canvas) == null ==> stats == old(stats) && storage == old(storage)
      ensures old(canvas) != null ==>
        && stats.localCreations == CountSucc(old(stats.localCreations))
        && stats.sessionCreations == old(stats.sessionCreations) + 1
        && stats.simulatedLiveUsers == old(stats.simulatedLiveUsers)
        && storage == old(storage)[TotalKey := CountString(stats.localCreations)]
        && StoredTotal(storage) == stats.localCreations
    {
      if canvas == null { return; }
      var newTotal := CountSucc(stats.localCreations);
      storage := storage[TotalKey := CountString(newTotal)];
      stats := stats.(localCreations := newTotal, sessionCreations := stats.sessionCreations + 1);
      LoadedCreationsRoundTrip(newTotal);
    }
  }

  // ---------------------------------------------------------------------
  // The random inspiration generator
  // ---------------------------------------------------------------------

  const Colors: seq<string> :=
    ["#000000", "#ff2d55", "#5856d6", "#34c759", "#ff9500", "#007aff", "#ff3b30", "#af52de", "#1d1d1f"]

  const Texts: seq<string> := ["EGO", "RARE", "VOID", "PURE", "CHAOS", "GHOST", "SILK", "UNBORN", "SOLO", "RAW"]

  /** Every colour the generator can pick is a well-formed hex colour, so
      the preview never falls back to black for it. */
  lemma ColorsAreHex(i: int)
    requires 0 <= i < |Colors|
    ensures IsHexColor(Colors[i]) && |Colors[i]| == 7
  {
  }

  /** The random draws the generator consumes, by purpose. */
  datatype Draws = Draws(
    font: real,       // which font style
    baseSize: real,   // the default size, drawn before the branch
    spacing: real,    // the branch's letter spacing, when it draws one
    size: real,       // the branch's size, when it draws one
    color: real,
    text: real,
    intensity: real,
    auraSize: real,
    centered: real,   // Math.random() > 0.5 selects CENTER
    corner: real)     // otherwise this picks BOTTOM_LEFT or TOP_RIGHT

  predicate IsDraw(r: real) { 0.0 <= r < 1.0 }

  predicate ValidDraws(d: Draws)
  {
    IsDraw(d.font) && IsDraw(d.baseSize) && IsDraw(d.spacing) && IsDraw(d.size)
    && IsDraw(d.color) && IsDraw(d.text) && IsDraw(d.intensity) && IsDraw(d.auraSize)
    && IsDraw(d.centered) && IsDraw(d.corner)
  }

  /** Picking from a list of n by flooring a draw times n: the index is
      always in range. */
  function PickIndex(r: real, n: nat): (i: nat)
    requires IsDraw(r) && n > 0
    ensures i < n
  {
    var k := (r * n as real).Floor;
    assert r * n as real < n as real;
    k
  }

  /** Number(x.toFixed(1)) counted in tenths: the integer n with n / 10
      nearest to x, a tie going to the larger magnitude, as toFixed rounds
      the magnitude and keeps the sign. */
  function RoundedTenths(x: real): (n: int)
    ensures -0.5 <= n as real - x * 10.0 <= 0.5
    ensures x >= 0.0 ==> n as real - x * 10.0 > -0.5
    ensures x < 0.0 ==> n as real - x * 10.0 < 0.5
  {
    if x < 0.0 then -((-x * 10.0 + 0.5).Floor) else (x * 10.0 + 0.5).Floor
  }

  /** Number(x.toFixed(1)). */
  function RoundToTenth(x: real): (r: real)
    ensures -0.05 <= r - x <= 0.05
  {
    RoundedTenths(x) as real / 10.0
  }

  /** Rounding to tenths never crosses a tenth: a bound that is itself a
      whole number of tenths still holds after rounding. */
  lemma RoundedTenthsKeepsBounds(x: real, k: int)
    ensures k as real <= x * 10.0 ==> k <= RoundedTenths(x)
    ensures x * 10.0 <= k as real ==> RoundedTenths(x) <= k
  {
  }

  /** The name tests of the generator, on the font's enum value. */
  predicate IsBoldName(name: string) { Includes(name, "Bungee") || Includes(name, "Metal") }
  predicate IsScriptName(name: string) { Includes(name, "Monsieur") || Includes(name, "Pinyon") }
  predicate IsScrawlName(name: string) { Includes(name, "Reenie") || Includes(name, "Hand") }

  /** What the generator promises about the style it derives from a font
      name, first match winning: the transform, the exact floored size with
      its range, and the rounded letter spacing with its range. */
  predicate InspiredStyle(name: string, d: Draws, transform: TextTransform, fontSize: int, spacing: real)
  {
    if IsBoldName(name) then
      && transform == Uppercase
      && fontSize == (120.0 + d.size * 60.0).Floor && 120 <= fontSize < 180
      && spacing == RoundToTenth(-2.0 + d.spacing * 8.0) && -2.0 <= spacing <= 6.0
    else if IsScriptName(name) then
      && transform == NoTransform
      && fontSize == (70.0 + d.size * 50.0).Floor && 70 <= fontSize < 120
      && spacing == 0.0
    else if IsScrawlName(name) then
      && transform == NoTransform
      && fontSize == (60.0 + d.size * 40.0).Floor && 60 <= fontSize < 100
      && spacing == RoundToTenth(2.0 + d.spacing * 5.0) && 2.0 <= spacing <= 7.0
    else
      && transform == NoTransform
      && fontSize == (80.0 + d.baseSize * 120.0).Floor && 80 <= fontSize < 200
      && spacing == 0.0
  }

  /** The Bungee Shade and Metal Mania styles take the capitals branch. */
  lemma BoldStyles()
    ensures IsBoldName(FontValue(WildShade)) && IsBoldName(FontValue(WildMetal))
  {
    assert OccursAt("Bungee Shade", "Bungee", 0);
    assert OccursAt("Metal Mania", "Metal", 0);
  }

  /** The branch of the generator on the font's name: newTransform, newSize
      and newSpacing start at their defaults and the first matching test
      overrides them; the size is then floored and the spacing rounded. */
  method PickStyle(name: string, d: Draws) returns (transform: TextTransform, fontSize: int, letterSpacing: real)
    requires ValidDraws(d)
    ensures InspiredStyle(name, d, transform, fontSize, letterSpacing)
  {
    var newSpacing := 0.0;
    var newSize := 80.0 + d.baseSize * 120.0;
    transform := NoTransform;

    if Includes(name, "Bungee") || Includes(name, "Metal") {
      transform := Uppercase;
      newSpacing := -2.0 + d.spacing * 8.0;
      newSize := 120.0 + d.size * 60.0;
      RoundedTenthsKeepsBounds(newSpacing, -20);
      RoundedTenthsKeepsBounds(newSpacing, 60);
    } else if Includes(name, "Monsieur") || Includes(name, "Pinyon") {
      newSpacing := 0.0;
      newSize := 70.0 + d.size * 50.0;
    } else if Includes(name, "Reenie") || Includes(name, "Hand") {
      newSize := 60.0 + d.size * 40.0;
      newSpacing := 2.0 + d.spacing * 5.0;
      RoundedTenthsKeepsBounds(newSpacing, 20);
      RoundedTenthsKeepsBounds(newSpacing, 70);
    }
    fontSize := newSize.Floor;
    letterSpacing := RoundToTenth(newSpacing);
    assert RoundToTenth(0.0) == 0.0;
  }

  /** The position draw: CENTER above one half, otherwise one of the two
      remaining corners from a second draw. */
  function InspiredPosition(centered: real, corner: real): (p: TextPosition)
    requires IsDraw(centered) && IsDraw(corner)
    ensures p == Center <==> centered > 0.5
    ensures p != BottomRight
    ensures p == BottomLeft <==> centered <= 0.5 && corner < 0.5
    ensures p == TopRight <==> centered <= 0.5 && corner >= 0.5
  {
    if centered > 0.5 then Center else [BottomLeft, TopRight][PickIndex(corner, 2)]
  }

  /** The "random inspiration" button. Every field of the settings is
      replaced; the font's name decides, first match winning, the transform,
      the size range and the letter spacing. */
  method Inspire(prev: AvatarSettings, d: Draws) returns (next: AvatarSettings)
    requires ValidDraws(d)
    ensures next.fontStyle == AllFonts[PickIndex(d.font, |AllFonts|)]
    ensures InspiredStyle(FontValue(next.fontStyle), d, next.textTransform, next.fontSize, next.letterSpacing)
    ensures next.color == Colors[PickIndex(d.color, |Colors|)]
    ensures next.text == Texts[PickIndex(d.text, |Texts|)]
    ensures next.intensity == 60.0 + d.intensity * 120.0 && 60.0 <= next.intensity < 180.0
    ensures next.auraSize == 40.0 + d.auraSize * 100.0 && 40.0 <= next.auraSize < 140.0
    ensures next.position == InspiredPosition(d.centered, d.corner)
  {
    var fonts := AllFonts;
    var newFont := fonts[PickIndex(d.font, |fonts|)];
    var newTransform, newSize, newSpacing := PickStyle(FontValue(newFont), d);
    next := AvatarSettings(
      text := Texts[PickIndex(d.text, |Texts|)],
      color := Colors[PickIndex(d.color, |Colors|)],
      fontSize := newSize,
      fontStyle := newFont,
      position := InspiredPosition(d.centered, d.corner),
      intensity := 60.0 + d.intensity * 120.0,
      auraSize := 40.0 + d.auraSize * 100.0,
      textTransform := newTransform,
      letterSpacing := newSpacing);
  }
}
