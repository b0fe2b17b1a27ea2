/** The records and enumerations of types.ts. */
module Types {
  import opened Wrappers

  /** FontStyle is a string enum; FontValue gives each member's string. */
  datatype FontStyle =
    | WildShade | WildMetal | WildBeast | WildImpact | WildMarker | WildRock | WildCreep
    | LuxeMonsieur | LuxePinyon | LuxeItalianno | LuxeDeco | LuxeVibes | LuxeParisienne
    | RawReenie | RawJustHand | RawGrace | RawZeyada | RawNanum
    | Gothic

  function FontValue(f: FontStyle): string
  {
    match f
    case WildShade => "Bungee Shade"
    case WildMetal => "Metal Mania"
    case WildBeast => "Rubik Beastly"
    case WildImpact => "Syne"
    case WildMarker => "Permanent Marker"
    case WildRock => "Rock Salt"
    case WildCreep => "Creepster"
    case LuxeMonsieur => "Monsieur La Doulaise"
    case LuxePinyon => "Pinyon Script"
    case LuxeItalianno => "Italianno"
    case LuxeDeco => "Cinzel Decorative"
    case LuxeVibes => "Great Vibes"
    case LuxeParisienne => "Parisienne"
    case RawReenie => "Reenie Beanie"
    case RawJustHand => "Just Another Hand"
    case RawGrace => "Covered By Your Grace"
    case RawZeyada => "Zeyada"
    case RawNanum => "Nanum Pen Script"
    case Gothic => "UnifrakturMaguntia"
  }

  /** Object.values(FontStyle): the members in declaration order. */
  const AllFonts: seq<FontStyle> := [
    WildShade, WildMetal, WildBeast, WildImpact, WildMarker, WildRock, WildCreep,
    LuxeMonsieur, LuxePinyon, LuxeItalianno, LuxeDeco, LuxeVibes, LuxeParisienne,
    RawReenie, RawJustHand, RawGrace, RawZeyada, RawNanum,
    Gothic]

  datatype TextPosition = Center | BottomRight | BottomLeft | TopRight

  datatype TextTransform = NoTransform | Uppercase | Lowercase | Capitalize

  /** intensity, auraSize and letterSpacing are JavaScript numbers that the
      randomizer fills with non-integers, so they are reals here; fontSize only
      ever receives integers (parseInt, Math.floor, literals). */
  datatype AvatarSettings = AvatarSettings(
    text: string,
    color: string,
    fontSize: int,
    fontStyle: FontStyle,
    position: TextPosition,
    intensity: real,
    auraSize: real,
    textTransform: TextTransform,
    letterSpacing: real)

  /** localCreations is a JavaScript number read from storage by parseInt,
      so it can be NaN, written None. */
  datatype AppStats = AppStats(
    localCreations: Option<int>,
    sessionCreations: int,
    simulatedLiveUsers: int)
}
