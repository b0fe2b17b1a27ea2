/** The font chooser of components/FontPicker.tsx: a fixed catalogue of the
    font styles in four named groups, a trigger button that shows the selected
    entry's name and toggles a drop-down, and entries that report their style
    and close the drop-down. */
module FontPicker {
  import opened Wrappers
  import opened Types

  datatype FontEntry = FontEntry(id: FontStyle, name: string, desc: string)

  datatype FontGroup = FontGroup(name: string, fonts: seq<FontEntry>)

  /** fontGroups, in display order. */
  const FontGroups: seq<FontGroup> := [
    FontGroup("先锋豪放 (Impact & Bold)", [
      FontEntry(WildMetal, "Metal Mania", "锐利重金属"),
      FontEntry(WildMarker, "Permanent Marker", "粗犷记号笔"),
      FontEntry(WildRock, "Rock Salt", "岩石/涂鸦"),
      FontEntry(WildShade, "Bungee Shade", "工业立体"),
      FontEntry(WildBeast, "Rubik Beastly", "野性变形"),
      FontEntry(WildImpact, "Syne Ultra", "先锋实验"),
      FontEntry(WildCreep, "Creepster", "惊悚艺术")]),
    FontGroup("极致秀丽 (Elegant & Script)", [
      FontEntry(LuxeMonsieur, "Monsieur La Doulaise", "极致拉丝花体"),
      FontEntry(LuxeVibes, "Great Vibes", "流线华丽"),
      FontEntry(LuxePinyon, "Pinyon Script", "宫廷古典"),
      FontEntry(LuxeParisienne, "Parisienne", "浪漫法式"),
      FontEntry(LuxeItalianno, "Italianno", "柔情意大利"),
      FontEntry(LuxeDeco, "Cinzel Decorative", "艺术装饰")]),
    FontGroup("肆意潦草 (Raw & Scribble)", [
      FontEntry(RawReenie, "Reenie Beanie", "极细涂鸦"),
      FontEntry(RawZeyada, "Zeyada", "匆忙草写"),
      FontEntry(RawNanum, "Nanum Pen", "自然水笔"),
      FontEntry(RawGrace, "Covered By Your Grace", "个性马克笔"),
      FontEntry(RawJustHand, "Just Another Hand", "瘦长笔迹")]),
    FontGroup("异域黑暗 (Alternative Art)", [
      FontEntry(Gothic, "UnifrakturMaguntia", "沉郁哥特")])
  ]

  /** The groups' entries, one group after another, as flatMap lists them. */
  function Flatten(groups: seq<FontGroup>): (entries: seq<FontEntry>)
  {
    if groups == [] then [] else groups[0].fonts + Flatten(groups[1..])
  }

  /** The entries as the drop-down lists them, group after group. */
  function AllEntries(): seq<FontEntry>
  {
    Flatten(FontGroups)
  }

  /** Array.prototype.find on the entries: the first one whose id is value. */
  function Find(entries: seq<FontEntry>, value: FontStyle): (r: Option<FontEntry>)
    ensures r.None? <==> forall i :: 0 <= i < |entries| ==> entries[i].id != value
    ensures r.Some? ==> exists i :: 0 <= i < |entries| && entries[i] == r.value
                          && r.value.id == value
                          && forall j :: 0 <= j < i ==> entries[j].id != value
  {
    if entries == [] then None
    else if entries[0].id == value then Some(entries[0])
    else
      var r := Find(entries[1..], value);
      if r.Some? then
        var i :| 0 <= i < |entries| - 1 && entries[1..][i] == r.value && r.value.id == value
                 && forall j :: 0 <= j < i ==> entries[1..][j].id != value;
        assert entries[i + 1] == r.value;
        r
      else r
  }

  /** selectedFont: the catalogue entry of the current style. */
  function SelectedFont(value: FontStyle): Option<FontEntry>
  {
    Find(AllEntries(), value)
  }

  /** What the trigger button shows: the selected entry's name, or nothing when
      there is no selected entry. */
  function TriggerLabel(value: FontStyle): string
  {
    match SelectedFont(value)
    case None => ""
    case Some(entry) => entry.name
  }

  /** The drop-down lists the four groups one after another. */
  lemma CatalogueConcat()
    ensures AllEntries() == FontGroups[0].fonts + FontGroups[1].fonts
                          + FontGroups[2].fonts + FontGroups[3].fonts
  {
    assert FontGroups[1..][1..][1..][1..] == [];
  }

  /** The groups hold seven, six, five and one entries: nineteen in all. */
  lemma CatalogueShape()
    ensures |FontGroups| == 4
    ensures |FontGroups[0].fonts| == 7 && |FontGroups[1].fonts| == 6
    ensures |FontGroups[2].fonts| == 5 && |FontGroups[3].fonts| == 1
    ensures |AllEntries()| == |AllFonts| == 19
  {
    assert FontGroups[1..][1..][1..][1..] == [];
  }

  /** The row of a style in the catalogue, counting from 0 across groups. */
  function Row(f: FontStyle): nat
  {
    match f
    case WildMetal => 0      case WildMarker => 1     case WildRock => 2
    case WildShade => 3      case WildBeast => 4      case WildImpact => 5
    case WildCreep => 6      case LuxeMonsieur => 7   case LuxeVibes => 8
    case LuxePinyon => 9     case LuxeParisienne => 10 case LuxeItalianno => 11
    case LuxeDeco => 12      case RawReenie => 13     case RawZeyada => 14
    case RawNanum => 15      case RawGrace => 16      case RawJustHand => 17
    case Gothic => 18
  }

  /** Row numbers each catalogue entry by its position. */
  lemma RowOfEntry(i: int)
    requires 0 <= i < |AllEntries()|
    ensures Row(AllEntries()[i].id) == i
  {
    CatalogueConcat();
  }

  /** Every font style has exactly one entry in the catalogue, so exactly one
      row of the open drop-down is highlighted (its id equals the value) and shows
      the check mark, whatever the value. */
  lemma ExactlyOneHighlighted(value: FontStyle)
    ensures exists i :: 0 <= i < |AllEntries()| && AllEntries()[i].id == value
    ensures forall i, j :: 0 <= i < |AllEntries()| && 0 <= j < |AllEntries()|
              && AllEntries()[i].id == value && AllEntries()[j].id == value
              ==> i == j
  {
    CatalogueShape();
    var i := Row(value);
    RowOfEntry(i);
    assert AllEntries()[i].id == value;
    forall i, j | 0 <= i < |AllEntries()| && 0 <= j < |AllEntries()|
      && AllEntries()[i].id == value && AllEntries()[j].id == value
      ensures i == j
    {
      RowOfEntry(i);
      RowOfEntry(j);
    }
  }

  /** selectedFont is never undefined: it is the entry of the style. */
  lemma SelectedFontDefined(value: FontStyle)
    ensures SelectedFont(value).Some?
    ensures SelectedFont(value).value.id == value && SelectedFont(value).value in AllEntries()
  {
    ExactlyOneHighlighted(value);
  }

  /** Choosing an entry and feeding its style back selects that very entry. */
  lemma SelectedFontOfEntry(i: int)
    requires 0 <= i < |AllEntries()|
    ensures SelectedFont(AllEntries()[i].id) == Some(AllEntries()[i])
  {
    ExactlyOneHighlighted(AllEntries()[i].id);
  }

  /** The trigger shows the catalogue name of the current style. */
  lemma TriggerLabelOfEntry(i: int)
    requires 0 <= i < |AllEntries()|
    ensures TriggerLabel(AllEntries()[i].id) == AllEntries()[i].name
  {
    SelectedFontOfEntry(i);
  }

  /** The drop-down state of one picker, and the styles it has passed to
      onChange, oldest first. */
  class Picker {
    var isOpen: bool
    var chosen: seq<FontStyle>

    constructor ()
      ensures !isOpen && chosen == []
    {
      isOpen := false;
      chosen := [];
    }

    /** The rows the drop-down shows: every entry while open, none when closed. */
    function VisibleEntries(): seq<FontEntry>
      reads this
    {
      if isOpen then AllEntries() else []
    }

    /** The trigger button flips the drop-down. */
    method ClickTrigger()
      modifies this`isOpen
      ensures isOpen == !old(isOpen)
    {
      isOpen := !isOpen;
    }

    /** A row reports its style and closes the drop-down; rows exist only
        while it is open. */
    method ClickEntry(i: int)
      requires isOpen && 0 <= i < |VisibleEntries()|
      modifies this
      ensures chosen == old(chosen) + [AllEntries()[i].id]
      ensures !isOpen && VisibleEntries() == []
    {
      chosen := chosen + [AllEntries()[i].id];
      isOpen := false;
    }

    /** The full-screen backdrop behind the open drop-down closes it and
        reports nothing. */
    method ClickBackdrop()
      requires isOpen
      modifies this`isOpen
      ensures !isOpen && VisibleEntries() == []
    {
      isOpen := false;
    }
  }
}
