/** The per-session user configuration: the option enums, the session state
    they are stored in, the typed getters and setters over it, and the views
    derived from it (the resolved colour, the image to plot and the plot call). */
module Config {
  import opened Wrappers
  import Cocoon
  import Core

  // ---------------------------------------------------------------------------
  // Values held in the session state
  // ---------------------------------------------------------------------------

  /** A Python value stored under a session key. */
  datatype Value =
    | Str(s: string)
    | Int(i: int)
    | Bool(b: bool)
    | Float(f: real)
    | ColorV(color: Cocoon.Color)
    | ColorspaceV(colorspace: Cocoon.Colorspace)

  /** Python truthiness; colour and colourspace objects are always true. */
  function Truthy(v: Value): bool {
    match v
    case Str(s) => s != ""
    case Int(i) => i != 0
    case Bool(b) => b
    case Float(f) => f != 0.0
    case ColorV(_) => true
    case ColorspaceV(_) => true
  }

  // ---------------------------------------------------------------------------
  // SourceType
  // ---------------------------------------------------------------------------

  datatype SourceType = Color | Image {
    function Value(): string {
      match this
      case Color => "Color"
      case Image => "Image"
    }
  }

  const AllSourceTypes: seq<SourceType> := [Color, Image]

  /** `SourceType(value)`: the member with that value, or ValueError. */
  function SourceTypeOf(v: Value): (r: Result<SourceType, Exception>)
    ensures r.Success? ==> v == Str(r.value.Value())
    ensures r.Failure? ==> r.error == ValueError && forall t: SourceType :: v != Str(t.Value())
  {
    if v == Str("Color") then Success(Color)
    else if v == Str("Image") then Success(Image)
    else Failure(ValueError)
  }

  /** `SourceType.labels()`: the member values in declaration order. */
  function SourceTypeLabels(): (r: seq<string>)
    ensures |r| == |AllSourceTypes|
    ensures forall i :: 0 <= i < |r| ==> SourceTypeOf(Str(r[i])) == Success(AllSourceTypes[i])
  {
    seq(|AllSourceTypes|, i requires 0 <= i < |AllSourceTypes| => AllSourceTypes[i].Value())
  }

  // ---------------------------------------------------------------------------
  // DiagramMethod
  // ---------------------------------------------------------------------------

  datatype DiagramMethod = Cie1931 | Cie1960 | Cie1976 {
    function Value(): string {
      match this
      case Cie1931 => "CIE 1931"
      case Cie1960 => "CIE 1960 UCS"
      case Cie1976 => "CIE 1976 UCS"
    }
  }

  const AllDiagramMethods: seq<DiagramMethod> := [Cie1931, Cie1960, Cie1976]

  /** `DiagramMethod(value)`: the member with that value, or ValueError. */
  function DiagramMethodOf(v: Value): (r: Result<DiagramMethod, Exception>)
    ensures r.Success? ==> v == Str(r.value.Value())
    ensures r.Failure? ==> r.error == ValueError && forall d: DiagramMethod :: v != Str(d.Value())
  {
    if v == Str("CIE 1931") then Success(Cie1931)
    else if v == Str("CIE 1960 UCS") then Success(Cie1960)
    else if v == Str("CIE 1976 UCS") then Success(Cie1976)
    else Failure(ValueError)
  }

  /** `DiagramMethod.labels()`. */
  function DiagramMethodLabels(): (r: seq<string>)
    ensures |r| == |AllDiagramMethods|
    ensures forall i :: 0 <= i < |r| ==> DiagramMethodOf(Str(r[i])) == Success(AllDiagramMethods[i])
  {
    seq(|AllDiagramMethods|, i requires 0 <= i < |AllDiagramMethods| => AllDiagramMethods[i].Value())
  }

  // ---------------------------------------------------------------------------
  // MarkerShapeStyle: matplotlib marker codes, strings and small integers
  // ---------------------------------------------------------------------------

  datatype MarkerShapeStyle =
    | Point | Pixel | Circle | TriangleDown | TriangleUp | TriangleLeft | TriangleRight
    | TriDown | TriUp | TriLeft | TriRight | Octagon | Square | Pentagon | Star
    | Hexagon1 | Hexagon2 | Plus | X | Diamond | ThinDiamond | VLine | HLine
    | PlusFilled | XFilled
    | TickLeft | TickRight | TickUp | TickDown | CaretLeft | CaretRight | CaretUp | CaretDown
    | CaretLeftBase | CaretRightBase | CaretUpBase | CaretDownBase
  {
    function Value(): Value {
      match this
      case Point => Str(".")
      case Pixel => Str(",")
      case Circle => Str("o")
      case TriangleDown => Str("v")
      case TriangleUp => Str("^")
      case TriangleLeft => Str("<")
      case TriangleRight => Str(">")
      case TriDown => Str("1")
      case TriUp => Str("2")
      case TriLeft => Str("3")
      case TriRight => Str("4")
      case Octagon => Str("8")
      case Square => Str("s")
      case Pentagon => Str("p")
      case Star => Str("*")
      case Hexagon1 => Str("h")
      case Hexagon2 => Str("H")
      case Plus => Str("+")
      case X => Str("x")
      case Diamond => Str("D")
      case ThinDiamond => Str("d")
      case VLine => Str("|")
      case HLine => Str("_")
      case PlusFilled => Str("P")
      case XFilled => Str("X")
      case TickLeft => Int(0)
      case TickRight => Int(1)
      case TickUp => Int(2)
      case TickDown => Int(3)
      case CaretLeft => Int(4)
      case CaretRight => Int(5)
      case CaretUp => Int(6)
      case CaretDown => Int(7)
      case CaretLeftBase => Int(8)
      case CaretRightBase => Int(9)
      case CaretUpBase => Int(10)
      case CaretDownBase => Int(11)
    }
  }

  const AllMarkerShapeStyles: seq<MarkerShapeStyle> := [
    Point, Pixel, Circle, TriangleDown, TriangleUp, TriangleLeft, TriangleRight,
    TriDown, TriUp, TriLeft, TriRight, Octagon, Square, Pentagon, Star,
    Hexagon1, Hexagon2, Plus, X, Diamond, ThinDiamond, VLine, HLine,
    PlusFilled, XFilled,
    TickLeft, TickRight, TickUp, TickDown, CaretLeft, CaretRight, CaretUp, CaretDown,
    CaretLeftBase, CaretRightBase, CaretUpBase, CaretDownBase]

  /** The member whose value is the one-character string `[c]`. */
  function MarkerOfChar(c: char): Option<MarkerShapeStyle> {
    match c
    case '.' => Some(Point)
    case ',' => Some(Pixel)
    case 'o' => Some(Circle)
    case 'v' => Some(TriangleDown)
    case '^' => Some(TriangleUp)
    case '<' => Some(TriangleLeft)
    case '>' => Some(TriangleRight)
    case '1' => Some(TriDown)
    case '2' => Some(TriUp)
    case '3' => Some(TriLeft)
    case '4' => Some(TriRight)
    case '8' => Some(Octagon)
    case 's' => Some(Square)
    case 'p' => Some(Pentagon)
    case '*' => Some(Star)
    case 'h' => Some(Hexagon1)
    case 'H' => Some(Hexagon2)
    case '+' => Some(Plus)
    case 'x' => Some(X)
    case 'D' => Some(Diamond)
    case 'd' => Some(ThinDiamond)
    case '|' => Some(VLine)
    case '_' => Some(HLine)
    case 'P' => Some(PlusFilled)
    case 'X' => Some(XFilled)
    case _ => None
  }

  /** The member whose value is the integer `i`. */
  function MarkerOfInt(i: int): Option<MarkerShapeStyle> {
    match i
    case 0 => Some(TickLeft)
    case 1 => Some(TickRight)
    case 2 => Some(TickUp)
    case 3 => Some(TickDown)
    case 4 => Some(CaretLeft)
    case 5 => Some(CaretRight)
    case 6 => Some(CaretUp)
    case 7 => Some(CaretDown)
    case 8 => Some(CaretLeftBase)
    case 9 => Some(CaretRightBase)
    case 10 => Some(CaretUpBase)
    case 11 => Some(CaretDownBase)
    case _ => None
  }

  /** `MarkerShapeStyle(value)`: the member with that value, or ValueError. */
  function MarkerShapeStyleOf(v: Value): (r: Result<MarkerShapeStyle, Exception>)
    ensures r.Success? ==> v == r.value.Value()
    ensures r.Failure? ==> r.error == ValueError
  {
    var found := match v
      case Str(s) => if |s| == 1 then MarkerOfChar(s[0]) else None
      case Int(i) => MarkerOfInt(i)
      case _ => None;
    if found.Some? then
      MarkerLookupSound(v);
      Success(found.value)
    else
      Failure(ValueError)
  }

  lemma MarkerLookupSound(v: Value)
    ensures v.Str? && |v.s| == 1 && MarkerOfChar(v.s[0]).Some? ==> MarkerOfChar(v.s[0]).value.Value() == v
    ensures v.Int? && MarkerOfInt(v.i).Some? ==> MarkerOfInt(v.i).value.Value() == v
  {
    if v.Str? && |v.s| == 1 {
      assert v.s == [v.s[0]];
      MarkerOfCharSound(v.s[0]);
    } else if v.Int? {
      MarkerOfIntSound(v.i);
    }
  }

  lemma MarkerOfCharSound(c: char)
    ensures MarkerOfChar(c).Some? ==> MarkerOfChar(c).value.Value() == Str([c])
  {
  }

  lemma MarkerOfIntSound(i: int)
    ensures MarkerOfInt(i).Some? ==> MarkerOfInt(i).value.Value() == Int(i)
  {
  }

  /** Every member's value looks up that member. */
  lemma MarkerValueDecodes(m: MarkerShapeStyle)
    ensures MarkerShapeStyleOf(m.Value()) == Success(m)
  {
    if m.Value().Str? {
      MarkerCharDecodes(m);
    } else {
      MarkerIntDecodes(m);
    }
  }

  lemma MarkerCharDecodes(m: MarkerShapeStyle)
    requires m.Value().Str?
    ensures |m.Value().s| == 1 && MarkerOfChar(m.Value().s[0]) == Some(m)
  {
  }

  lemma MarkerIntDecodes(m: MarkerShapeStyle)
    requires !m.Value().Str?
    ensures m.Value().Int? && MarkerOfInt(m.Value().i) == Some(m)
  {
  }

  /** The lookup fails exactly on the values that are no member's. */
  lemma MarkerShapeStyleOfComplete(v: Value)
    ensures MarkerShapeStyleOf(v).Failure? <==> forall m: MarkerShapeStyle :: v != m.Value()
  {
    if MarkerShapeStyleOf(v).Failure? {
      forall m: MarkerShapeStyle
        ensures v != m.Value()
      {
        MarkerValueDecodes(m);
      }
    }
  }

  /** Distinct members have distinct values. */
  lemma MarkerValueInjective(a: MarkerShapeStyle, b: MarkerShapeStyle)
    ensures a.Value() == b.Value() ==> a == b
  {
    MarkerValueDecodes(a);
    MarkerValueDecodes(b);
  }

  /** `MarkerShapeStyle.labels()`. */
  function MarkerShapeStyleLabels(): (r: seq<Value>)
    ensures |r| == |AllMarkerShapeStyles|
    ensures forall i :: 0 <= i < |r| ==> MarkerShapeStyleOf(r[i]) == Success(AllMarkerShapeStyles[i])
  {
    var r := seq(|AllMarkerShapeStyles|, i requires 0 <= i < |AllMarkerShapeStyles| => AllMarkerShapeStyles[i].Value());
    assert forall i :: 0 <= i < |r| ==> MarkerShapeStyleOf(r[i]) == Success(AllMarkerShapeStyles[i]) by {
      forall i | 0 <= i < |r|
        ensures MarkerShapeStyleOf(r[i]) == Success(AllMarkerShapeStyles[i])
      {
        MarkerValueDecodes(AllMarkerShapeStyles[i]);
      }
    }
    r
  }

  // ---------------------------------------------------------------------------
  // UserIssue: an IntFlag, so any combination of its bits
  // ---------------------------------------------------------------------------

  const UNSET: nat := 1
  const VALUE_ERROR: nat := 2
  const HEX_COLORSPACE: nat := 4
  const HEX_FORCE_LINEAR: nat := 8

  /** `flags & member` is non-zero, for a single-bit member. */
  function HasFlag(flags: nat, member: nat): bool
    requires member in {VALUE_ERROR, HEX_COLORSPACE, HEX_FORCE_LINEAR}
  {
    (flags / member) % 2 == 1
  }

  /** `UserIssue(value)`: an IntFlag takes any non-negative integer as a
      combination of its bits. */
  function UserIssueOf(v: Value): (r: Result<nat, Exception>)
    ensures r.Success? <==> v.Int? && v.i >= 0
    ensures r.Success? ==> v == Int(r.value)
    ensures r.Failure? ==> r.error == ValueError
  {
    if v.Int? && v.i >= 0 then Success(v.i) else Failure(ValueError)
  }

  // ---------------------------------------------------------------------------
  // The session keys and their defaults
  // ---------------------------------------------------------------------------

  /** A session key: one of the configuration's own keys, or the key of a
      widget. */
  datatype Key =
    | KeySourceType
    | KeyDiagramMethod
    | KeyDiagramShowBackground
    | KeyRgbLocus
    | KeyTransparentBackground
    | KeySourceColor
    | KeySourceColorspace
    | KeySourceForceLinear
    | KeySourceColorFormat
    | KeySourceError
    | KeyScatterSize
    | KeyScatterColor
    | KeyScatterColorRgb
    | KeyMarkerStyle
    | KeyPlotPointerGamut
    | KeyPointerGamutAlpha
    | Widget(name: string)
  {
    /** The key as the session state spells it. */
    function Name(): string {
      match this
      case KeySourceType => "USER_SOURCE_TYPE"
      case KeyDiagramMethod => "USER_DIAGRAM_METHOD"
      case KeyDiagramShowBackground => "USER_DIAGRAM_SHOW_BACKGROUND"
      case KeyRgbLocus => "USER_RGB_LOCUS"
      case KeyTransparentBackground => "USER_TRANSPARENT_BACKGROUND"
      case KeySourceColor => "USER_SOURCE_COLOR"
      case KeySourceColorspace => "USER_SOURCE_COLORSPACE"
      case KeySourceForceLinear => "USER_SOURCE_FORCE_LINEAR"
      case KeySourceColorFormat => "USER_SOURCE_COLOR_FORMAT"
      case KeySourceError => "USER_SOURCE_ERROR"
      case KeyScatterSize => "USER_SCATTER_SIZE"
      case KeyScatterColor => "USER_SCATTER_COLOR"
      case KeyScatterColorRgb => "USER_SCATTER_COLOR_RGB"
      case KeyMarkerStyle => "USER_MARKER_STYLE"
      case KeyPlotPointerGamut => "USER_PLOT_POINTER_GAMUT"
      case KeyPointerGamutAlpha => "USER_POINTER_GAMUT_ALPHA"
      case Widget(name) => name
    }
  }

  /** The keys whose properties store the value as given, without an enum. */
  const PlainKeys: set<Key> := {
    KeyDiagramShowBackground, KeyRgbLocus, KeyTransparentBackground, KeySourceColor,
    KeySourceColorspace, KeySourceForceLinear, KeyScatterSize, KeyScatterColor,
    KeyScatterColorRgb, KeyPlotPointerGamut, KeyPointerGamutAlpha}

  /** The configuration's own keys, in the order the initialisation fills them. */
  const ConfigKeys: seq<Key> := [
    KeySourceType,
    KeyDiagramMethod,
    KeyDiagramShowBackground,
    KeyRgbLocus,
    KeyTransparentBackground,
    KeySourceColor,
    KeySourceColorspace,
    KeySourceForceLinear,
    KeySourceColorFormat,
    KeySourceError,
    KeyScatterSize,
    KeyScatterColor,
    KeyScatterColorRgb,
    KeyMarkerStyle,
    KeyPlotPointerGamut,
    KeyPointerGamutAlpha]

  /** Every key but a widget's is a configuration key. */
  lemma ConfigKeysComplete(k: Key)
    ensures k in ConfigKeys <==> !k.Widget?
  {
  }

  /** The value a configuration key starts with in a new session. */
  function Default(key: Key, lib: Cocoon.Library): Value
    requires !key.Widget?
  {
    match key
    case KeySourceType => Str(SourceType.Color.Value())
    case KeyDiagramMethod => Str(DiagramMethod.Cie1976.Value())
    case KeyDiagramShowBackground => Bool(false)
    case KeyRgbLocus => Bool(true)
    case KeyTransparentBackground => Bool(false)
    case KeySourceColor => ColorV(lib.black)
    case KeySourceColorspace => ColorspaceV(lib.sRGB)
    case KeySourceForceLinear => Bool(false)
    case KeySourceColorFormat => Str(lib.formatValue(lib.floatD4))
    case KeySourceError => Int(UNSET)
    case KeyScatterSize => Float(25.0)
    case KeyScatterColor => Str("#53DD97")
    case KeyScatterColorRgb => Bool(true)
    case KeyMarkerStyle => MarkerShapeStyle.Circle.Value()
    case KeyPlotPointerGamut => Bool(false)
    case KeyPointerGamutAlpha => Float(1.0)
  }

  /** One check-then-insert of the initialisation. */
  function Fill(m: map<Key, Value>, key: Key, v: Value): map<Key, Value> {
    if key in m then m else m[key := v]
  }

  /** One check-then-insert of a configuration key's default. */
  function FillDefault(m: map<Key, Value>, key: Key, lib: Cocoon.Library): map<Key, Value> {
    if key.Widget? then m else Fill(m, key, Default(key, lib))
  }

  /** Filling each configuration key of `keys` from index `i` on, in turn,
      with its default. */
  function FillFrom(m: map<Key, Value>, keys: seq<Key>, i: nat, lib: Cocoon.Library): map<Key, Value>
    decreases |keys| - i
  {
    if i >= |keys| then m else FillFrom(FillDefault(m, keys[i], lib), keys, i + 1, lib)
  }

  lemma FillFromStep(m: map<Key, Value>, keys: seq<Key>, i: nat, lib: Cocoon.Library)
    requires i < |keys|
    ensures FillFrom(m, keys, i, lib) == FillFrom(FillDefault(m, keys[i], lib), keys, i + 1, lib)
  {
  }

  /** Filling keeps every present key's value, gives every absent one of the
      filled keys its default, and adds no other key. */
  lemma {:induction false} FillFromSpec(m: map<Key, Value>, keys: seq<Key>, i: nat, lib: Cocoon.Library)
    requires i <= |keys|
    ensures forall k :: k in FillFrom(m, keys, i, lib) <==> k in m || (k in keys[i..] && !k.Widget?)
    ensures forall k :: k in m ==> FillFrom(m, keys, i, lib)[k] == m[k]
    ensures forall k :: k in keys[i..] && !k.Widget? && k !in m ==> FillFrom(m, keys, i, lib)[k] == Default(k, lib)
    decreases |keys| - i
  {
    if i < |keys| {
      var m' := FillDefault(m, keys[i], lib);
      FillFromSpec(m', keys, i + 1, lib);
      forall k
        ensures k in keys[i..] <==> k == keys[i] || k in keys[i + 1..]
      {
        assert keys[i..] == [keys[i]] + keys[i + 1..];
      }
    }
  }

  /** Filling keys that are all present changes nothing. */
  lemma {:induction false} FillFromPresent(m: map<Key, Value>, keys: seq<Key>, i: nat, lib: Cocoon.Library)
    requires forall k :: k in keys ==> k in m
    ensures FillFrom(m, keys, i, lib) == m
    decreases |keys| - i
  {
    if i < |keys| {
      assert keys[i] in m;
      FillFromPresent(m, keys, i + 1, lib);
    }
  }

  /** The session state after the configuration's initialisation. */
  function Initialized(m: map<Key, Value>, lib: Cocoon.Library): map<Key, Value> {
    FillFrom(m, ConfigKeys, 0, lib)
  }

  /** Initialising keeps every value already stored, gives every absent
      configuration key its default and touches no widget key. */
  lemma InitializedKeys(m: map<Key, Value>, lib: Cocoon.Library)
    ensures forall k :: k in Initialized(m, lib) <==> k in m || !k.Widget?
    ensures forall k :: k in m ==> Initialized(m, lib)[k] == m[k]
    ensures forall k: Key :: !k.Widget? && k !in m ==> Initialized(m, lib)[k] == Default(k, lib)
  {
    FillFromSpec(m, ConfigKeys, 0, lib);
    assert ConfigKeys[0..] == ConfigKeys;
    forall k
      ensures k in ConfigKeys <==> !k.Widget?
    {
      ConfigKeysComplete(k);
    }
  }

  /** InitializedKeys for one key. */
  lemma InitializedAt(m: map<Key, Value>, lib: Cocoon.Library, k: Key)
    ensures k in Initialized(m, lib) <==> k in m || !k.Widget?
    ensures k in m ==> Initialized(m, lib)[k] == m[k]
    ensures !k.Widget? && k !in m ==> Initialized(m, lib)[k] == Default(k, lib)
  {
    InitializedKeys(m, lib);
  }

  /** Building the configuration a second time changes nothing. */
  lemma InitializedIdempotent(m: map<Key, Value>, lib: Cocoon.Library)
    ensures Initialized(Initialized(m, lib), lib) == Initialized(m, lib)
  {
    InitializedKeys(m, lib);
    FillFromPresent(Initialized(m, lib), ConfigKeys, 0, lib);
  }

  /** Keys 0 and 1 of the initialisation, one after the other. */
  lemma FillFrom0(m: map<Key, Value>, lib: Cocoon.Library)
    ensures FillFrom(m, ConfigKeys, 0, lib) == FillFrom(FillDefault(FillDefault(m, KeySourceType, lib), KeyDiagramMethod, lib), ConfigKeys, 2, lib)
  {
    FillFromStep(m, ConfigKeys, 0, lib);
    FillFromStep(FillDefault(m, KeySourceType, lib), ConfigKeys, 1, lib);
  }

  /** Keys 2 and 3 of the initialisation, one after the other. */
  lemma FillFrom2(m: map<Key, Value>, lib: Cocoon.Library)
    ensures FillFrom(m, ConfigKeys, 2, lib) == FillFrom(FillDefault(FillDefault(m, KeyDiagramShowBackground, lib), KeyRgbLocus, lib), ConfigKeys, 4, lib)
  {
    FillFromStep(m, ConfigKeys, 2, lib);
    FillFromStep(FillDefault(m, KeyDiagramShowBackground, lib), ConfigKeys, 3, lib);
  }

  /** Keys 4 and 5 of the initialisation, one after the other. */
  lemma FillFrom4(m: map<Key, Value>, lib: Cocoon.Library)
    ensures FillFrom(m, ConfigKeys, 4, lib) == FillFrom(FillDefault(FillDefault(m, KeyTransparentBackground, lib), KeySourceColor, lib), ConfigKeys, 6, lib)
  {
    FillFromStep(m, ConfigKeys, 4, lib);
    FillFromStep(FillDefault(m, KeyTransparentBackground, lib), ConfigKeys, 5, lib);
  }

  /** Keys 6 and 7 of the initialisation, one after the other. */
  lemma FillFrom6(m: map<Key, Value>, lib: Cocoon.Library)
    ensures FillFrom(m, ConfigKeys, 6, lib) == FillFrom(FillDefault(FillDefault(m, KeySourceColorspace, lib), KeySourceForceLinear, lib), ConfigKeys, 8, lib)
  {
    FillFromStep(m, ConfigKeys, 6, lib);
    FillFromStep(FillDefault(m, KeySourceColorspace, lib), ConfigKeys, 7, lib);
  }

  /** Keys 8 and 9 of the initialisation, one after the other. */
  lemma FillFrom8(m: map<Key, Value>, lib: Cocoon.Library)
    ensures FillFrom(m, ConfigKeys, 8, lib) == FillFrom(FillDefault(FillDefault(m, KeySourceColorFormat, lib), KeySourceError, lib), ConfigKeys, 10, lib)
  {
    FillFromStep(m, ConfigKeys, 8, lib);
    FillFromStep(FillDefault(m, KeySourceColorFormat, lib), ConfigKeys, 9, lib);
  }

  /** Keys 10 and 11 of the initialisation, one after the other. */
  lemma FillFrom10(m: map<Key, Value>, lib: Cocoon.Library)
    ensures FillFrom(m, ConfigKeys, 10, lib) == FillFrom(FillDefault(FillDefault(m, KeyScatterSize, lib), KeyScatterColor, lib), ConfigKeys, 12, lib)
  {
    FillFromStep(m, ConfigKeys, 10, lib);
    FillFromStep(FillDefault(m, KeyScatterSize, lib), ConfigKeys, 11, lib);
  }

  /** Keys 12 and 13 of the initialisation, one after the other. */
  lemma FillFrom12(m: map<Key, Value>, lib: Cocoon.Library)
    ensures FillFrom(m, ConfigKeys, 12, lib) == FillFrom(FillDefault(FillDefault(m, KeyScatterColorRgb, lib), KeyMarkerStyle, lib), ConfigKeys, 14, lib)
  {
    FillFromStep(m, ConfigKeys, 12, lib);
    FillFromStep(FillDefault(m, KeyScatterColorRgb, lib), ConfigKeys, 13, lib);
  }

  /** Keys 14 and 15 of the initialisation, one after the other. */
  lemma FillFrom14(m: map<Key, Value>, lib: Cocoon.Library)
    ensures FillFrom(m, ConfigKeys, 14, lib) == FillFrom(FillDefault(FillDefault(m, KeyPlotPointerGamut, lib), KeyPointerGamutAlpha, lib), ConfigKeys, 16, lib)
  {
    FillFromStep(m, ConfigKeys, 14, lib);
    FillFromStep(FillDefault(m, KeyPlotPointerGamut, lib), ConfigKeys, 15, lib);
  }

  /** The initialisation written out key by key, as the source performs it. */
  lemma InitializedUnrolled(m: map<Key, Value>, lib: Cocoon.Library)
    ensures Initialized(m, lib) == FillDefault(FillDefault(FillDefault(FillDefault(FillDefault(FillDefault(FillDefault(FillDefault(FillDefault(FillDefault(FillDefault(FillDefault(FillDefault(FillDefault(FillDefault(FillDefault(m, KeySourceType, lib), KeyDiagramMethod, lib), KeyDiagramShowBackground, lib), KeyRgbLocus, lib), KeyTransparentBackground, lib), KeySourceColor, lib), KeySourceColorspace, lib), KeySourceForceLinear, lib), KeySourceColorFormat, lib), KeySourceError, lib), KeyScatterSize, lib), KeyScatterColor, lib), KeyScatterColorRgb, lib), KeyMarkerStyle, lib), KeyPlotPointerGamut, lib), KeyPointerGamutAlpha, lib)
  {
    var s2 := FillDefault(FillDefault(m, KeySourceType, lib), KeyDiagramMethod, lib);
    var s4 := FillDefault(FillDefault(s2, KeyDiagramShowBackground, lib), KeyRgbLocus, lib);
    var s6 := FillDefault(FillDefault(s4, KeyTransparentBackground, lib), KeySourceColor, lib);
    var s8 := FillDefault(FillDefault(s6, KeySourceColorspace, lib), KeySourceForceLinear, lib);
    var s10 := FillDefault(FillDefault(s8, KeySourceColorFormat, lib), KeySourceError, lib);
    var s12 := FillDefault(FillDefault(s10, KeyScatterSize, lib), KeyScatterColor, lib);
    var s14 := FillDefault(FillDefault(s12, KeyScatterColorRgb, lib), KeyMarkerStyle, lib);
    var s16 := FillDefault(FillDefault(s14, KeyPlotPointerGamut, lib), KeyPointerGamutAlpha, lib);
    FillFrom0(m, lib);
    FillFrom2(s2, lib);
    FillFrom4(s4, lib);
    FillFrom6(s6, lib);
    FillFrom8(s8, lib);
    FillFrom10(s10, lib);
    FillFrom12(s12, lib);
    FillFrom14(s14, lib);
    assert FillFrom(s16, ConfigKeys, 16, lib) == s16;
  }

  /** The value kind each key's getter and the views built on it work with. */
  ghost predicate SlotOk(key: Key, v: Value, lib: Cocoon.Library) {
    match key
    case KeySourceType => SourceTypeOf(v).Success?
    case KeyDiagramMethod => DiagramMethodOf(v).Success?
    case KeySourceColorFormat => v.Str? && lib.formatOf(v.s).Some?
    case KeySourceError => UserIssueOf(v).Success?
    case KeyMarkerStyle => MarkerShapeStyleOf(v).Success?
    case KeySourceColor => v.ColorV?
    case KeySourceColorspace => v.ColorspaceV?
    case KeyScatterSize => v.Float?
    case KeyPointerGamutAlpha => v.Float?
    case KeyScatterColor => v.Str?
    case Widget(_) => true
    case _ => v.Bool?
  }

  /** Every configuration key is present with a value of its kind. */
  ghost predicate WellTyped(m: map<Key, Value>, lib: Cocoon.Library) {
    forall k: Key :: !k.Widget? ==> k in m && SlotOk(k, m[k], lib)
  }

  /** The defaults are of their keys' kinds. */
  lemma DefaultsWellTyped(k: Key, lib: Cocoon.Library)
    requires Cocoon.Lawful(lib) && !k.Widget?
    ensures SlotOk(k, Default(k, lib), lib)
  {
    assert lib.formatOf(lib.formatValue(lib.floatD4)).Some?;
    MarkerValueDecodes(MarkerShapeStyle.Circle);
  }

  /** A session whose configuration keys, where present, hold values of their
      kind is well typed once initialised. */
  lemma InitializedWellTyped(m: map<Key, Value>, lib: Cocoon.Library)
    requires Cocoon.Lawful(lib)
    requires forall k :: k in m ==> SlotOk(k, m[k], lib)
    ensures WellTyped(Initialized(m, lib), lib)
  {
    InitializedKeys(m, lib);
    forall k: Key | !k.Widget? && k !in m
      ensures SlotOk(k, Default(k, lib), lib)
    {
      DefaultsWellTyped(k, lib);
    }
  }

  // ---------------------------------------------------------------------------
  // Getters: reads of the session state, decoding the enum slots
  // ---------------------------------------------------------------------------

  /** `session_state[key]`. */
  function Read(m: map<Key, Value>, key: Key): (r: Result<Value, Exception>)
    ensures r.Success? <==> key in m
    ensures r.Success? ==> r.value == m[key]
    ensures r.Failure? ==> r.error == KeyError(key.Name())
  {
    if key in m then Success(m[key]) else Failure(KeyError(key.Name()))
  }

  /** `USER_SOURCE_TYPE`: the stored value decoded as a SourceType. */
  function UserSourceType(m: map<Key, Value>): (r: Result<SourceType, Exception>)
    ensures r.Success? ==> KeySourceType in m && m[KeySourceType] == Str(r.value.Value())
    ensures KeySourceType !in m ==> r == Failure(KeyError(KeySourceType.Name()))
    ensures KeySourceType in m && r.Failure? ==> r.error == ValueError
  {
    var v :- Read(m, KeySourceType);
    SourceTypeOf(v)
  }

  /** `USER_DIAGRAM_METHOD`: the stored value decoded as a DiagramMethod. */
  function UserDiagramMethod(m: map<Key, Value>): (r: Result<DiagramMethod, Exception>)
    ensures r.Success? ==> KeyDiagramMethod in m && m[KeyDiagramMethod] == Str(r.value.Value())
    ensures KeyDiagramMethod !in m ==> r == Failure(KeyError(KeyDiagramMethod.Name()))
    ensures KeyDiagramMethod in m && r.Failure? ==> r.error == ValueError
  {
    var v :- Read(m, KeyDiagramMethod);
    DiagramMethodOf(v)
  }

  /** `USER_SOURCE_COLOR_FORMAT`: the stored value decoded as a colour string
      format. */
  function UserSourceColorFormat(m: map<Key, Value>, lib: Cocoon.Library): (r: Result<Cocoon.ColorStringFormat, Exception>)
    ensures r.Success? ==>
      KeySourceColorFormat in m && m[KeySourceColorFormat].Str? && lib.formatOf(m[KeySourceColorFormat].s) == Some(r.value)
    ensures KeySourceColorFormat !in m ==> r == Failure(KeyError(KeySourceColorFormat.Name()))
    ensures KeySourceColorFormat in m && r.Failure? ==> r.error == ValueError
  {
    var v :- Read(m, KeySourceColorFormat);
    if v.Str? && lib.formatOf(v.s).Some? then Success(lib.formatOf(v.s).value) else Failure(ValueError)
  }

  /** `USER_SOURCE_ERROR`: the stored value read as UserIssue flags. */
  function UserSourceError(m: map<Key, Value>): (r: Result<nat, Exception>)
    ensures r.Success? ==> KeySourceError in m && m[KeySourceError] == Int(r.value)
    ensures KeySourceError !in m ==> r == Failure(KeyError(KeySourceError.Name()))
    ensures KeySourceError in m && r.Failure? ==> r.error == ValueError
  {
    var v :- Read(m, KeySourceError);
    UserIssueOf(v)
  }

  /** `USER_MARKER_STYLE`: the stored value decoded as a MarkerShapeStyle. */
  function UserMarkerStyle(m: map<Key, Value>): (r: Result<MarkerShapeStyle, Exception>)
    ensures r.Success? ==> KeyMarkerStyle in m && m[KeyMarkerStyle] == r.value.Value()
    ensures KeyMarkerStyle !in m ==> r == Failure(KeyError(KeyMarkerStyle.Name()))
    ensures KeyMarkerStyle in m && r.Failure? ==> r.error == ValueError
  {
    var v :- Read(m, KeyMarkerStyle);
    MarkerShapeStyleOf(v)
  }

  /** An enum slot gives back the member its setter stored, whatever else the
      session holds. */
  lemma EnumSlotsRoundTrip(
    m: map<Key, Value>, lib: Cocoon.Library, t: SourceType, d: DiagramMethod,
    f: Cocoon.ColorStringFormat, issues: nat, s: MarkerShapeStyle)
    requires Cocoon.Lawful(lib)
    ensures UserSourceType(m[KeySourceType := Str(t.Value())]) == Success(t)
    ensures UserDiagramMethod(m[KeyDiagramMethod := Str(d.Value())]) == Success(d)
    ensures UserSourceColorFormat(m[KeySourceColorFormat := Str(lib.formatValue(f))], lib) == Success(f)
    ensures UserSourceError(m[KeySourceError := Int(issues)]) == Success(issues)
    ensures UserMarkerStyle(m[KeyMarkerStyle := s.Value()]) == Success(s)
  {
    assert lib.formatOf(lib.formatValue(f)) == Some(f);
    MarkerValueDecodes(s);
  }

  // ---------------------------------------------------------------------------
  // Derived views
  // ---------------------------------------------------------------------------

  /** The source colourspace, replaced by its linear copy when forced linear. */
  function SourceColorspace(m: map<Key, Value>, lib: Cocoon.Library): (r: Result<Cocoon.Colorspace, Exception>)
    ensures r.Success? <==> KeySourceColorspace in m && KeySourceForceLinear in m && m[KeySourceColorspace].ColorspaceV?
    ensures r.Success? ==> r.value == if Truthy(m[KeySourceForceLinear])
                                      then lib.asLinearCopy(m[KeySourceColorspace].colorspace)
                                      else m[KeySourceColorspace].colorspace
  {
    var space :- Read(m, KeySourceColorspace);
    var forceLinear :- Read(m, KeySourceForceLinear);
    if !space.ColorspaceV? then Failure(WrongType(KeySourceColorspace.Name()))
    else if Truthy(forceLinear) then Success(lib.asLinearCopy(space.colorspace))
    else Success(space.colorspace)
  }

  /** The `color` property: the source colour expressed in the source
      colourspace, the linear copy of it exactly when forced linear. */
  function ResolvedColor(m: map<Key, Value>, lib: Cocoon.Library): (r: Result<Cocoon.Color, Exception>)
    ensures r.Success? <==> SourceColorspace(m, lib).Success? && KeySourceColor in m && m[KeySourceColor].ColorV?
    ensures r.Success? ==> r.value == lib.asColorspace(m[KeySourceColor].color, SourceColorspace(m, lib).value)
    ensures r.Success? && Truthy(m[KeySourceForceLinear]) ==>
      r.value == lib.asColorspace(m[KeySourceColor].color, lib.asLinearCopy(m[KeySourceColorspace].colorspace))
    ensures r.Success? && !Truthy(m[KeySourceForceLinear]) ==>
      r.value == lib.asColorspace(m[KeySourceColor].color, m[KeySourceColorspace].colorspace)
  {
    var space :- SourceColorspace(m, lib);
    var color :- Read(m, KeySourceColor);
    if !color.ColorV? then Failure(WrongType(KeySourceColor.Name()))
    else Success(lib.asColorspace(color.color, space))
  }

  /** The `image` property: a 2 by 2 image of the resolved colour without alpha
      in colour mode; image mode is not implemented. */
  function SourceImage(m: map<Key, Value>, lib: Cocoon.Library): (r: Result<Core.Grid<seq<real>>, Exception>)
    ensures UserSourceType(m) == Success(SourceType.Image) ==> r == Failure(NotImplementedError)
    ensures UserSourceType(m) == Success(SourceType.Color) ==> (r.Success? <==> ResolvedColor(m, lib).Success?)
    ensures r.Success? ==>
      && UserSourceType(m) == Success(SourceType.Color)
      && r.value.Valid() && r.value.Height() == 2 && r.value.width == 2
      && forall i, j :: 0 <= i < 2 && 0 <= j < 2 ==> r.value.rows[i][j] == lib.toArray(ResolvedColor(m, lib).value)
  {
    var source :- UserSourceType(m);
    if source == SourceType.Color then
      var color :- ResolvedColor(m, lib);
      var pixel := lib.toArray(color);
      Success(Core.Grid([[pixel, pixel], [pixel, pixel]], 2))
    else
      Failure(NotImplementedError)
  }

  const PlotSamples: nat := 10

  /** The sampling `plot` applies: every tenth row and column, only when the
      image is larger than ten on either axis. */
  function SampleForPlot<P>(img: Core.Grid<P>): (r: Core.Grid<P>)
    requires img.Valid()
    ensures r.Valid()
    ensures img.Height() <= PlotSamples && img.width <= PlotSamples ==> r == img
    ensures img.Height() > PlotSamples || img.width > PlotSamples ==>
      && r.Height() == Core.CeilDiv(img.Height(), PlotSamples)
      && r.width == Core.CeilDiv(img.width, PlotSamples)
  {
    if img.Height() > PlotSamples || img.width > PlotSamples then
      Core.StrideGrid(img, PlotSamples, PlotSamples)
    else
      img
  }

  /** A sampled cell is the cell ten times further along each axis. */
  lemma SampleForPlotAt<P>(img: Core.Grid<P>, i: nat, j: nat)
    requires img.Valid() && (img.Height() > PlotSamples || img.width > PlotSamples)
    requires i < SampleForPlot(img).Height() && j < SampleForPlot(img).width
    ensures i * PlotSamples < img.Height() && j * PlotSamples < img.width
    ensures SampleForPlot(img).rows[i][j] == img.rows[i * PlotSamples][j * PlotSamples]
  {
    Core.StrideGridAt(img, PlotSamples, PlotSamples, i, j);
  }

  /** In this revision the image handed to the renderer is the 2 by 2 colour
      image itself: it is never large enough to be sampled. */
  lemma ColorImageNotSampled(m: map<Key, Value>, lib: Cocoon.Library)
    requires SourceImage(m, lib).Success?
    ensures SampleForPlot(SourceImage(m, lib).value) == SourceImage(m, lib).value
  {
  }

  /** The three chromaticity-diagram renderers of the colour-science library. */
  datatype Renderer =
    | RgbChromaticitiesCIE1931
    | RgbChromaticitiesCIE1960UCS
    | RgbChromaticitiesCIE1976UCS

  function RendererFor(d: DiagramMethod): Renderer {
    match d
    case Cie1931 => RgbChromaticitiesCIE1931
    case Cie1960 => RgbChromaticitiesCIE1960UCS
    case Cie1976 => RgbChromaticitiesCIE1976UCS
  }

  /** Each diagram method has a renderer of its own. */
  lemma RendererForInjective(a: DiagramMethod, b: DiagramMethod)
    ensures RendererFor(a) == RendererFor(b) ==> a == b
  {
  }

  /** The arguments `plot` hands to the renderer. */
  datatype PlotCall = PlotCall(
    renderer: Renderer,
    image: Core.Grid<seq<real>>,
    colourspace: Cocoon.ColourColorspace,
    scatterSize: Value,
    scatterColor: Value,
    marker: Value,
    spectralLocusColours: Option<string>,
    showDiagramColours: Value,
    showPointerGamut: Value,
    pointerGamutOpacity: Value,
    transparentBackground: Value)

  /** The `plot` property up to the call of the foreign renderer, in the order
      Python evaluates it. */
  function Plot(m: map<Key, Value>, lib: Cocoon.Library): (r: Result<PlotCall, Exception>)
    ensures r.Success? ==>
      && SourceImage(m, lib).Success? && r.value.image == SampleForPlot(SourceImage(m, lib).value)
      && SourceColorspace(m, lib).Success?
      && r.value.colourspace == lib.asColourColorspace(SourceColorspace(m, lib).value)
      && UserDiagramMethod(m).Success? && r.value.renderer == RendererFor(UserDiagramMethod(m).value)
      && KeyScatterColorRgb in m
      && (Truthy(m[KeyScatterColorRgb]) ==> r.value.scatterColor == Str("RGB"))
      && (!Truthy(m[KeyScatterColorRgb]) ==> KeyScatterColor in m && r.value.scatterColor == m[KeyScatterColor])
      && KeyMarkerStyle in m && r.value.marker == m[KeyMarkerStyle]
      && UserMarkerStyle(m).Success? && r.value.marker == UserMarkerStyle(m).value.Value()
      && KeyRgbLocus in m && r.value.spectralLocusColours == (if Truthy(m[KeyRgbLocus]) then Some("RGB") else None)
      && KeyScatterSize in m && r.value.scatterSize == m[KeyScatterSize]
      && KeyDiagramShowBackground in m && r.value.showDiagramColours == m[KeyDiagramShowBackground]
      && KeyPlotPointerGamut in m && r.value.showPointerGamut == m[KeyPlotPointerGamut]
      && KeyPointerGamutAlpha in m && r.value.pointerGamutOpacity == m[KeyPointerGamutAlpha]
      && KeyTransparentBackground in m && r.value.transparentBackground == m[KeyTransparentBackground]
    ensures UserSourceType(m) == Success(SourceType.Image) ==> r == Failure(NotImplementedError)
    ensures SourceImage(m, lib).Success? && UserDiagramMethod(m).Failure? ==>
      r == Failure(UserDiagramMethod(m).error)
    ensures (&& SourceImage(m, lib).Success? && UserDiagramMethod(m).Success?
             && KeyScatterSize in m && KeyScatterColorRgb in m
             && (Truthy(m[KeyScatterColorRgb]) || KeyScatterColor in m)
             && UserMarkerStyle(m).Failure?)
      ==> r == Failure(UserMarkerStyle(m).error)
  {
    var image :- SourceImage(m, lib);
    var sampled := SampleForPlot(image);
    var space := SourceColorspace(m, lib).value;
    var diagram :- UserDiagramMethod(m);
    var size :- Read(m, KeyScatterSize);
    var colorRgb :- Read(m, KeyScatterColorRgb);
    var scatterColor :- if Truthy(colorRgb) then Success(Str("RGB")) else Read(m, KeyScatterColor);
    var marker :- UserMarkerStyle(m);
    var rgbLocus :- Read(m, KeyRgbLocus);
    var showBackground :- Read(m, KeyDiagramShowBackground);
    var pointerGamut :- Read(m, KeyPlotPointerGamut);
    var pointerAlpha :- Read(m, KeyPointerGamutAlpha);
    var transparent :- Read(m, KeyTransparentBackground);
    Success(PlotCall(
      RendererFor(diagram), sampled, lib.asColourColorspace(space),
      size, scatterColor, marker.Value(),
      if Truthy(rgbLocus) then Some("RGB") else None,
      showBackground, pointerGamut, pointerAlpha, transparent))
  }

  /** On a well-typed session in colour mode, `plot` reaches the renderer. */
  lemma PlotTotal(m: map<Key, Value>, lib: Cocoon.Library)
    requires WellTyped(m, lib)
    requires UserSourceType(m) == Success(SourceType.Color)
    ensures Plot(m, lib).Success?
  {
    WellTypedAt(m, lib, KeySourceColorspace);
    WellTypedAt(m, lib, KeySourceForceLinear);
    WellTypedAt(m, lib, KeySourceColor);
    assert SourceImage(m, lib).Success?;
    WellTypedAt(m, lib, KeyDiagramMethod);
    WellTypedAt(m, lib, KeyMarkerStyle);
    WellTypedAt(m, lib, KeyScatterSize);
    WellTypedAt(m, lib, KeyScatterColor);
    WellTypedAt(m, lib, KeyScatterColorRgb);
    WellTypedAt(m, lib, KeyRgbLocus);
    WellTypedAt(m, lib, KeyDiagramShowBackground);
    WellTypedAt(m, lib, KeyPlotPointerGamut);
    WellTypedAt(m, lib, KeyPointerGamutAlpha);
    WellTypedAt(m, lib, KeyTransparentBackground);
  }

  lemma WellTypedAt(m: map<Key, Value>, lib: Cocoon.Library, key: Key)
    requires WellTyped(m, lib) && !key.Widget?
    ensures key in m && SlotOk(key, m[key], lib)
  {
  }

  // ---------------------------------------------------------------------------
  // The session state and the configuration object over it
  // ---------------------------------------------------------------------------

  /** The framework's per-session key/value table. */
  class Session {
    var state: map<Key, Value>

    constructor (initial: map<Key, Value>)
      ensures state == initial
    {
      state := initial;
    }
  }

  /** A view of the session state; building one fills in the absent keys. */
  class UserConfig {
    const session: Session
    const lib: Cocoon.Library

    constructor (session: Session, lib: Cocoon.Library)
      modifies session
      ensures this.session == session && this.lib == lib
      ensures session.state == Initialized(old(session.state), lib)
    {
      this.session := session;
      this.lib := lib;
      new;
      ghost var m0 := session.state;
      SetDefault(KeySourceType);
      SetDefault(KeyDiagramMethod);
      SetDefault(KeyDiagramShowBackground);
      SetDefault(KeyRgbLocus);
      SetDefault(KeyTransparentBackground);
      SetDefault(KeySourceColor);
      SetDefault(KeySourceColorspace);
      SetDefault(KeySourceForceLinear);
      SetDefault(KeySourceColorFormat);
      SetDefault(KeySourceError);
      SetDefault(KeyScatterSize);
      SetDefault(KeyScatterColor);
      SetDefault(KeyScatterColorRgb);
      SetDefault(KeyMarkerStyle);
      SetDefault(KeyPlotPointerGamut);
      SetDefault(KeyPointerGamutAlpha);
      InitializedUnrolled(m0, lib);
    }

    /** `if key not in session_state: session_state[key] = default`. */
    method SetDefault(key: Key)
      requires !key.Widget?
      modifies session
      ensures session.state == FillDefault(old(session.state), key, lib)
    {
      if key !in session.state {
        session.state := session.state[key := Default(key, lib)];
      }
    }

    method SetUserSourceType(x: SourceType)
      modifies session
      ensures session.state == old(session.state)[KeySourceType := Str(x.Value())]
      ensures UserSourceType(session.state) == Success(x)
      ensures WellTyped(old(session.state), lib) ==> WellTyped(session.state, lib)
    {
      session.state := session.state[KeySourceType := Str(x.Value())];
    }

    method SetUserDiagramMethod(x: DiagramMethod)
      modifies session
      ensures session.state == old(session.state)[KeyDiagramMethod := Str(x.Value())]
      ensures UserDiagramMethod(session.state) == Success(x)
      ensures WellTyped(old(session.state), lib) ==> WellTyped(session.state, lib)
    {
      session.state := session.state[KeyDiagramMethod := Str(x.Value())];
    }

    method SetUserSourceColorFormat(x: Cocoon.ColorStringFormat)
      modifies session
      ensures session.state == old(session.state)[KeySourceColorFormat := Str(lib.formatValue(x))]
      ensures Cocoon.Lawful(lib) ==> UserSourceColorFormat(session.state, lib) == Success(x)
      ensures Cocoon.Lawful(lib) && WellTyped(old(session.state), lib) ==> WellTyped(session.state, lib)
    {
      session.state := session.state[KeySourceColorFormat := Str(lib.formatValue(x))];
    }

    method SetUserSourceError(x: nat)
      modifies session
      ensures session.state == old(session.state)[KeySourceError := Int(x)]
      ensures UserSourceError(session.state) == Success(x)
      ensures WellTyped(old(session.state), lib) ==> WellTyped(session.state, lib)
    {
      session.state := session.state[KeySourceError := Int(x)];
    }

    method SetUserMarkerStyle(x: MarkerShapeStyle)
      modifies session
      ensures session.state == old(session.state)[KeyMarkerStyle := x.Value()]
      ensures UserMarkerStyle(session.state) == Success(x)
      ensures WellTyped(old(session.state), lib) ==> WellTyped(session.state, lib)
    {
      session.state := session.state[KeyMarkerStyle := x.Value()];
      MarkerValueDecodes(x);
    }

    /** The setters of the properties that store their value as given. */
    method SetPlain(key: Key, v: Value)
      requires key in PlainKeys
      modifies session
      ensures session.state == old(session.state)[key := v]
      ensures Read(session.state, key) == Success(v)
      ensures WellTyped(old(session.state), lib) && SlotOk(key, v, lib) ==> WellTyped(session.state, lib)
    {
      session.state := session.state[key := v];
    }
  }

  /** `config()`: a new configuration object over the session on every call. */
  method NewConfig(session: Session, lib: Cocoon.Library) returns (c: UserConfig)
    modifies session
    ensures fresh(c) && c.session == session && c.lib == lib
    ensures session.state == Initialized(old(session.state), lib)
  {
    c := new UserConfig(session, lib);
  }
}
