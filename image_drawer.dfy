/**
 * The drawing descriptor of the Background library (`ImageDrawer`): what to
 * paint, the attribute list that shapes it, and the order in which all of it
 * is sent to a graphics context.
 *
 * The graphics context is modelled by the trace of commands sent to it; what
 * the host's graphics layer makes of those commands (the clip, the stroke, the
 * pixels) is decided by the `Host` oracles and is not modelled.
 */
module Drawing {
  import opened Wrappers

  /** Swift's `UInt` on a 64-bit platform: the raw value of an option set. */
  newtype UInt = x: int | 0 <= x < 0x1_0000_0000_0000_0000

  datatype Size = Size(width: real, height: real)

  /** `CGSize.zero`. */
  const ZERO: Size := Size(0.0, 0.0)

  datatype Point = Point(x: real, y: real)

  /** A colour and a bitmap are opaque values to this library. */
  datatype Color = Color(id: nat)
  datatype Bitmap = Bitmap(id: nat)

  /**
   * `UIRectCorner` by its raw value. `UIRectCorner.allCorners` is the mask with
   * every bit set, so the mask of the four single corners is not equal to it.
   */
  type RectCorner = UInt
  const ALL_CORNERS: RectCorner := 0xFFFF_FFFF_FFFF_FFFF

  /** A corner of the target rectangle, the anchor of a gradient. */
  datatype DirectionPoint = LeftTop | RightTop | LeftBottom | RightBottom
  {
    predicate IsRight() { this == RightTop || this == RightBottom }

    predicate IsBottom() { this == LeftBottom || this == RightBottom }

    /** The corner's point in a rectangle of the given size with its origin at (0, 0). */
    function PointWithSize(size: Size): (p: Point)
      ensures p.x == (if IsRight() then size.width else 0.0)
      ensures p.y == (if IsBottom() then size.height else 0.0)
    {
      match this
      case LeftTop => Point(0.0, 0.0)
      case RightTop => Point(size.width, 0.0)
      case LeftBottom => Point(0.0, size.height)
      case RightBottom => Point(size.width, size.height)
    }
  }

  /** Two different corners of a rectangle with no zero side are two different points. */
  lemma CornersAreDistinct(a: DirectionPoint, b: DirectionPoint, size: Size)
    requires size.width != 0.0 && size.height != 0.0
    ensures a.PointWithSize(size) == b.PointWithSize(size) <==> a == b
  {
  }

  /** What an `ImageDrawer` paints. */
  datatype Content =
    | ColorContent(fill: Color)
    | GradientColor(colors: seq<Color>, locations: seq<real>, startPoint: DirectionPoint, endPoint: DirectionPoint)
    | ImageContent(image: Bitmap)

  /** One entry of the attribute list. */
  datatype Attribute =
    | BorderColor(color: Color)
    | BorderWidth(width: real)
    | CornerRadius(radius: real)
    | RoundCorners(corners: RectCorner)

  /** The value held by an `AttributesStore` at one moment. */
  datatype StoreState = StoreState(attribute: seq<Attribute>, clip: bool, border: bool, contentCTX: bool)

  /** The value of an `ImageDrawer` at one moment: its content and its store. */
  datatype Descriptor = Descriptor(content: Content, store: StoreState)

  /** The four kinds of path `attributePathWithRect` builds, over the rectangle at (0, 0) of size `rect`. */
  datatype Path =
    | RoundedByCorners(rect: Size, corners: RectCorner, radius: real)
    | Rounded(rect: Size, radius: real)
    | ByCornersZeroRadii(rect: Size, corners: RectCorner)
    | PlainRect(rect: Size)

  /** The calls made on a `CGContext`, in the abstract. */
  datatype Command =
    | SetLineWidth(lineWidth: real)
    | SetStrokeColor(strokeColor: Color)
    | AddPath(path: Path)
    | Clip
    | StrokePath
    | TranslateBy(tx: real, ty: real)
    | ScaleBy(sx: real, sy: real)
    | SetFillColor(fillColor: Color)
    | FillRect(fillRect: Size)
    | DrawLinearGradient(gradientColors: seq<Color>, gradientLocations: seq<real>, start: Point, end: Point)
    | DrawImage(drawn: Bitmap, imageRect: Size)

  /**
   * The host graphics layer, as oracles: whether a context can be had for a
   * size; whether `CGGradient` accepts the colours and locations; and what
   * `makeImage` extracts from a context that received a trace of commands;
   * and what a drawer defined outside the library, known by an id, returns.
   */
  datatype Host = Host(
    contextAvailable: Size -> bool,
    gradientAvailable: (seq<Color>, seq<real>) -> bool,
    makeImage: (seq<Command>, Size) -> Option<Bitmap>,
    customImage: (nat, Size) -> Option<Bitmap>)

  // ---------------------------------------------------------------------------
  // The attribute scan: last value wins, border settings in list order
  // ---------------------------------------------------------------------------

  /** The radius of the last `cornerRadius` entry, if any. */
  function LastRadius(attribute: seq<Attribute>): (r: Option<real>)
    ensures r.Some? ==> CornerRadius(r.value) in attribute
  {
    if attribute == [] then None
    else match attribute[|attribute| - 1]
      case CornerRadius(r) => Some(r)
      case _ => LastRadius(attribute[..|attribute| - 1])
  }

  /** The mask of the last `roundCorners` entry, if any. */
  function LastCorners(attribute: seq<Attribute>): (r: Option<RectCorner>)
    ensures r.Some? ==> RoundCorners(r.value) in attribute
  {
    if attribute == [] then None
    else match attribute[|attribute| - 1]
      case RoundCorners(c) => Some(c)
      case _ => LastCorners(attribute[..|attribute| - 1])
  }

  /** The context setting one attribute makes while the list is scanned. */
  function StrokeSetting(a: Attribute): seq<Command>
  {
    match a
    case BorderWidth(w) => [SetLineWidth(w)]
    case BorderColor(c) => [SetStrokeColor(c)]
    case _ => []
  }

  /** The context settings of a whole list, in list order. */
  function StrokeSettings(attribute: seq<Attribute>): (s: seq<Command>)
    ensures |s| <= |attribute|
  {
    if attribute == [] then []
    else StrokeSettings(attribute[..|attribute| - 1]) + StrokeSetting(attribute[|attribute| - 1])
  }

  /** The position of the last `cornerRadius` entry, or -1. */
  function LastRadiusIndex(attribute: seq<Attribute>): (k: int)
    ensures -1 <= k < |attribute|
    ensures k >= 0 ==> attribute[k].CornerRadius?
    ensures forall j :: k < j < |attribute| ==> !attribute[j].CornerRadius?
  {
    if attribute == [] then -1
    else if attribute[|attribute| - 1].CornerRadius? then |attribute| - 1
    else LastRadiusIndex(attribute[..|attribute| - 1])
  }

  /** The position of the last `roundCorners` entry, or -1. */
  function LastCornersIndex(attribute: seq<Attribute>): (k: int)
    ensures -1 <= k < |attribute|
    ensures k >= 0 ==> attribute[k].RoundCorners?
    ensures forall j :: k < j < |attribute| ==> !attribute[j].RoundCorners?
  {
    if attribute == [] then -1
    else if attribute[|attribute| - 1].RoundCorners? then |attribute| - 1
    else LastCornersIndex(attribute[..|attribute| - 1])
  }

  /** The scan's radius is the one of the last `cornerRadius` entry; none when there is no such entry. */
  lemma {:induction false} LastRadiusIsLastEntry(attribute: seq<Attribute>)
    ensures LastRadius(attribute).None? <==> LastRadiusIndex(attribute) == -1
    ensures LastRadius(attribute).Some? ==>
      attribute[LastRadiusIndex(attribute)] == CornerRadius(LastRadius(attribute).value)
  {
    if attribute != [] && !attribute[|attribute| - 1].CornerRadius? {
      LastRadiusIsLastEntry(attribute[..|attribute| - 1]);
    }
  }

  /** The scan's mask is the one of the last `roundCorners` entry; none when there is no such entry. */
  lemma {:induction false} LastCornersIsLastEntry(attribute: seq<Attribute>)
    ensures LastCorners(attribute).None? <==> LastCornersIndex(attribute) == -1
    ensures LastCorners(attribute).Some? ==>
      attribute[LastCornersIndex(attribute)] == RoundCorners(LastCorners(attribute).value)
  {
    if attribute != [] && !attribute[|attribute| - 1].RoundCorners? {
      LastCornersIsLastEntry(attribute[..|attribute| - 1]);
    }
  }

  /** A later list decides the radius unless it has no `cornerRadius` entry. */
  lemma {:induction false} LastRadiusConcat(a: seq<Attribute>, b: seq<Attribute>)
    ensures LastRadius(a + b) == if LastRadius(b).Some? then LastRadius(b) else LastRadius(a)
  {
    if b == [] {
      assert a + b == a;
    } else {
      var n := |b| - 1;
      assert (a + b)[..|a + b| - 1] == a + b[..n];
      assert (a + b)[|a + b| - 1] == b[n];
      LastRadiusConcat(a, b[..n]);
    }
  }

  /** A later list decides the corner mask unless it has no `roundCorners` entry. */
  lemma {:induction false} LastCornersConcat(a: seq<Attribute>, b: seq<Attribute>)
    ensures LastCorners(a + b) == if LastCorners(b).Some? then LastCorners(b) else LastCorners(a)
  {
    if b == [] {
      assert a + b == a;
    } else {
      var n := |b| - 1;
      assert (a + b)[..|a + b| - 1] == a + b[..n];
      assert (a + b)[|a + b| - 1] == b[n];
      LastCornersConcat(a, b[..n]);
    }
  }

  /** Border width and colour are set in list order: the settings of a list are those of its parts, in order. */
  lemma {:induction false} StrokeSettingsConcat(a: seq<Attribute>, b: seq<Attribute>)
    ensures StrokeSettings(a + b) == StrokeSettings(a) + StrokeSettings(b)
  {
    if b == [] {
      assert a + b == a;
    } else {
      var n := |b| - 1;
      assert (a + b)[..|a + b| - 1] == a + b[..n];
      assert (a + b)[|a + b| - 1] == b[n];
      StrokeSettingsConcat(a, b[..n]);
    }
  }

  /** The scan itself only sets the line width and the stroke colour, once per border entry. */
  lemma {:induction false} StrokeSettingsAreSettings(attribute: seq<Attribute>)
    ensures forall c :: c in StrokeSettings(attribute) ==> c.SetLineWidth? || c.SetStrokeColor?
    ensures |StrokeSettings(attribute)| == |BorderEntries(attribute)|
  {
    if attribute != [] {
      StrokeSettingsAreSettings(attribute[..|attribute| - 1]);
    }
  }

  /** The border entries of a list, in list order. */
  function BorderEntries(attribute: seq<Attribute>): seq<Attribute>
  {
    if attribute == [] then []
    else
      var last := attribute[|attribute| - 1];
      BorderEntries(attribute[..|attribute| - 1]) + if last.BorderWidth? || last.BorderColor? then [last] else []
  }

  // ---------------------------------------------------------------------------
  // Path selection
  // ---------------------------------------------------------------------------

  predicate PositiveRadius(radius: Option<real>) { radius.Some? && radius.value > 0.0 }

  predicate PartialMask(corners: Option<RectCorner>) { corners.Some? && corners.value != ALL_CORNERS }

  /** The four-way choice at the end of `attributePathWithRect`. */
  function SelectPath(rect: Size, radius: Option<real>, corners: Option<RectCorner>): (p: Path)
    ensures p.rect == rect
    ensures p.RoundedByCorners? <==> PositiveRadius(radius) && PartialMask(corners)
    ensures p.Rounded? <==> PositiveRadius(radius) && !PartialMask(corners)
    ensures p.ByCornersZeroRadii? <==> !PositiveRadius(radius) && PartialMask(corners)
    ensures p.PlainRect? <==> !PositiveRadius(radius) && !PartialMask(corners)
    ensures (p.RoundedByCorners? || p.Rounded?) ==> radius == Some(p.radius)
    ensures (p.RoundedByCorners? || p.ByCornersZeroRadii?) ==> corners == Some(p.corners)
  {
    if PositiveRadius(radius) && PartialMask(corners) then RoundedByCorners(rect, corners.value, radius.value)
    else if PositiveRadius(radius) then Rounded(rect, radius.value)
    else if PartialMask(corners) then ByCornersZeroRadii(rect, corners.value)
    else PlainRect(rect)
  }

  /** The path `attributePathWithRect` returns for a list. */
  function AttributePath(attribute: seq<Attribute>, rect: Size): (p: Path)
    ensures p.rect == rect
    ensures attribute == [] ==> p == PlainRect(rect)
  {
    SelectPath(rect, LastRadius(attribute), LastCorners(attribute))
  }

  /**
   * A radius of zero or less (or none) with the all-corners mask (or no mask)
   * gives a plain rectangle, whatever else the list holds; a positive radius
   * with the all-corners mask rounds every corner.
   */
  lemma PlainPathRule(attribute: seq<Attribute>, rect: Size)
    ensures AttributePath(attribute, rect) == PlainRect(rect) <==>
      (forall r :: LastRadius(attribute) == Some(r) ==> r <= 0.0) &&
      (LastCorners(attribute).None? || LastCorners(attribute) == Some(ALL_CORNERS))
    ensures LastCorners(attribute) == Some(ALL_CORNERS) && PositiveRadius(LastRadius(attribute)) ==>
      AttributePath(attribute, rect) == Rounded(rect, LastRadius(attribute).value)
  {
  }

  /** The path of a list followed by more entries: the later entries win, kind by kind. */
  lemma PathOfExtendedList(a: seq<Attribute>, r: real, c: RectCorner, rect: Size)
    ensures AttributePath(a + [RoundCorners(c), CornerRadius(r)], rect) == SelectPath(rect, Some(r), Some(c))
  {
    LastRadiusConcat(a, [RoundCorners(c), CornerRadius(r)]);
    LastCornersConcat(a, [RoundCorners(c), CornerRadius(r)]);
    assert [RoundCorners(c), CornerRadius(r)][..1] == [RoundCorners(c)];
  }

  // ---------------------------------------------------------------------------
  // The traces of drawAttributesInContext and imageWithContext
  // ---------------------------------------------------------------------------

  /** What `drawAttributesInContext` sends: nothing for an empty list; else settings, clip, stroke. */
  function AttributesTrace(store: StoreState, size: Size): (t: seq<Command>)
    ensures store.attribute == [] ==> t == []
  {
    if store.attribute == [] then []
    else
      var path := AttributePath(store.attribute, size);
      StrokeSettings(store.attribute)
        + (if store.clip then [AddPath(path), Clip] else [])
        + (if store.border then [AddPath(path), StrokePath] else [])
  }

  /** The vertical flip applied before the content when `contentCTX` is set. */
  function FlipCommands(contentCTX: bool, size: Size): (t: seq<Command>)
    ensures t == [] <==> !contentCTX
    ensures InPhase(t, 1)
  {
    if contentCTX then [TranslateBy(0.0, size.height), ScaleBy(1.0, -1.0)] else []
  }

  /** What `drawContentInContext` sends; a gradient `CGGradient` refuses is skipped. */
  function ContentCommands(content: Content, size: Size, host: Host): (t: seq<Command>)
    ensures InPhase(t, 2)
    ensures content.ColorContent? ==> t == [SetFillColor(content.fill), FillRect(size)]
    ensures content.ImageContent? ==> t == [DrawImage(content.image, size)]
    ensures content.GradientColor? ==> (t != [] <==> host.gradientAvailable(content.colors, content.locations))
    ensures content.GradientColor? && t != [] ==>
      t == [DrawLinearGradient(content.colors, content.locations,
        content.startPoint.PointWithSize(size), content.endPoint.PointWithSize(size))]
  {
    match content
    case ColorContent(c) => [SetFillColor(c), FillRect(size)]
    case GradientColor(colors, locations, s, e) =>
      if host.gradientAvailable(colors, locations)
      then [DrawLinearGradient(colors, locations, s.PointWithSize(size), e.PointWithSize(size))]
      else []
    case ImageContent(image) => [DrawImage(image, size)]
  }

  /** Everything `imageWithContext` sends to the context, in order. */
  function ImageTrace(d: Descriptor, size: Size, host: Host): (t: seq<Command>)
    ensures d.store.attribute == [] && !d.store.contentCTX ==> t == ContentCommands(d.content, size, host)
  {
    AttributesTrace(d.store, size) + FlipCommands(d.store.contentCTX, size) + ContentCommands(d.content, size, host)
  }

  /** 0: attributes, 1: the flip, 2: the content. */
  function Phase(c: Command): nat
  {
    match c
    case SetLineWidth(_) => 0
    case SetStrokeColor(_) => 0
    case AddPath(_) => 0
    case Clip => 0
    case StrokePath => 0
    case TranslateBy(_, _) => 1
    case ScaleBy(_, _) => 1
    case _ => 2
  }

  predicate InPhase(t: seq<Command>, phase: nat)
  {
    forall i :: 0 <= i < |t| ==> Phase(t[i]) == phase
  }

  predicate PhaseOrdered(t: seq<Command>)
  {
    forall i, j :: 0 <= i < j < |t| ==> Phase(t[i]) <= Phase(t[j])
  }

  /** The shape of a non-empty attribute trace: settings, then the optional clip, then the optional stroke. */
  lemma SettingsThenClipThenStroke(s: seq<Command>, path: Path, clip: bool, border: bool)
    requires forall k :: 0 <= k < |s| ==> s[k].SetLineWidth? || s[k].SetStrokeColor?
    ensures var t := s + (if clip then [AddPath(path), Clip] else []) + (if border then [AddPath(path), StrokePath] else []);
      && InPhase(t, 0)
      && (Clip in t <==> clip)
      && (StrokePath in t <==> border)
      && forall i, j :: (0 <= i < |t| && 0 <= j < |t| && t[i] == Clip && t[j] == StrokePath) ==> i < j
  {
    var c: seq<Command> := if clip then [AddPath(path), Clip] else [];
    var b: seq<Command> := if border then [AddPath(path), StrokePath] else [];
    var t := s + c + b;
    forall k | 0 <= k < |t|
      ensures Phase(t[k]) == 0
      ensures t[k] == Clip ==> k == |s| + 1
      ensures t[k] == StrokePath ==> k == |t| - 1 && (clip ==> k == |s| + 3)
    {
      if k < |s| {
        assert t[k] == s[k];
      } else if k < |s| + |c| {
        assert t[k] == c[k - |s|];
      } else {
        assert t[k] == b[k - |s| - |c|];
      }
    }
    assert clip ==> t[|s| + 1] == Clip;
    assert border ==> t[|t| - 1] == StrokePath;
  }

  /**
   * The clip and stroke rule: with an empty list neither happens whatever the
   * flags; otherwise a clip happens exactly when `clip` is set, a stroke
   * exactly when `border` is set, and the clip comes before the stroke.
   */
  lemma ClipAndStrokeRule(store: StoreState, size: Size)
    ensures InPhase(AttributesTrace(store, size), 0)
    ensures store.attribute == [] ==> AttributesTrace(store, size) == []
    ensures Clip in AttributesTrace(store, size) <==> store.attribute != [] && store.clip
    ensures StrokePath in AttributesTrace(store, size) <==> store.attribute != [] && store.border
    ensures forall i, j ::
      (0 <= i < |AttributesTrace(store, size)| && 0 <= j < |AttributesTrace(store, size)| &&
       AttributesTrace(store, size)[i] == Clip && AttributesTrace(store, size)[j] == StrokePath) ==> i < j
  {
    if store.attribute != [] {
      var s := StrokeSettings(store.attribute);
      StrokeSettingsAreSettings(store.attribute);
      assert forall k :: 0 <= k < |s| ==> s[k] in s;
      SettingsThenClipThenStroke(s, AttributePath(store.attribute, size), store.clip, store.border);
    }
  }

  /**
   * The order of `imageWithContext`: every attribute command comes before the
   * flip, which comes before every content command; the flip is sent exactly
   * when `contentCTX` is set.
   */
  lemma ImageTraceOrder(d: Descriptor, size: Size, host: Host)
    ensures PhaseOrdered(ImageTrace(d, size, host))
    ensures (exists i :: 0 <= i < |ImageTrace(d, size, host)| && Phase(ImageTrace(d, size, host)[i]) == 1)
      <==> d.store.contentCTX
  {
    ClipAndStrokeRule(d.store, size);
    var a := AttributesTrace(d.store, size);
    var f := FlipCommands(d.store.contentCTX, size);
    var c := ContentCommands(d.content, size, host);
    var t := a + f + c;
    assert InPhase(f, 1) && InPhase(c, 2);
    assert forall i :: 0 <= i < |t| ==> Phase(t[i]) == (if i < |a| then 0 else if i < |a| + |f| then 1 else 2);
    if d.store.contentCTX {
      assert Phase(t[|a|]) == 1;
    }
  }

  // ---------------------------------------------------------------------------
  // The mutable store and the drawer
  // ---------------------------------------------------------------------------

  /** `ImageDrawer.AttributesStore`: an append-only attribute list and three flags. */
  class AttributesStore {
    var attribute: seq<Attribute>
    var clip: bool
    var border: bool
    var contentCTX: bool

    function State(): StoreState
      reads this
    {
      StoreState(attribute, clip, border, contentCTX)
    }

    constructor (attribute: seq<Attribute>)
      ensures State() == StoreState(attribute, false, false, false)
    {
      this.attribute := attribute;
      clip, border, contentCTX := false, false, false;
    }

    method AddClip() returns (self: AttributesStore)
      modifies this
      ensures self == this
      ensures State() == old(State()).(clip := true)
    {
      clip := true;
      self := this;
    }

    method AddBorder() returns (self: AttributesStore)
      modifies this
      ensures self == this
      ensures State() == old(State()).(border := true)
    {
      border := true;
      self := this;
    }

    method AddContontCTX() returns (self: AttributesStore)
      modifies this
      ensures self == this
      ensures State() == old(State()).(contentCTX := true)
    {
      contentCTX := true;
      self := this;
    }

    method AddAttributes(attributes: Attribute) returns (self: AttributesStore)
      modifies this
      ensures self == this
      ensures State() == old(State()).(attribute := old(attribute) + [attributes])
    {
      attribute := attribute + [attributes];
      self := this;
    }

    /** Scans the list once: the last radius and mask win, border settings go to the context in order. */
    method AttributePathWithRect(rect: Size) returns (path: Path, settings: seq<Command>)
      ensures path == AttributePath(attribute, rect)
      ensures settings == StrokeSettings(attribute)
    {
      var cornerRadius: Option<real> := None;
      var roundCorners: Option<RectCorner> := None;
      settings := [];
      for i := 0 to |attribute|
        invariant cornerRadius == LastRadius(attribute[..i])
        invariant roundCorners == LastCorners(attribute[..i])
        invariant settings == StrokeSettings(attribute[..i])
      {
        assert attribute[..i + 1][..i] == attribute[..i];
        match attribute[i] {
          case RoundCorners(corners) =>
            roundCorners := Some(corners);
          case CornerRadius(radius) =>
            cornerRadius := Some(radius);
          case BorderWidth(borderWidth) =>
            settings := settings + [SetLineWidth(borderWidth)];
          case BorderColor(color) =>
            settings := settings + [SetStrokeColor(color)];
        }
      }
      assert attribute[..|attribute|] == attribute;
      path := SelectPath(rect, cornerRadius, roundCorners);
    }

    method DrawAttributesInContext(size: Size) returns (trace: seq<Command>)
      ensures trace == AttributesTrace(State(), size)
    {
      if attribute == [] {
        return [];
      }
      var path, settings := AttributePathWithRect(size);
      trace := settings;
      if clip {
        trace := trace + [AddPath(path), Clip];
      }
      if border {
        trace := trace + [AddPath(path), StrokePath];
      }
    }
  }

  /** `ImageDrawer`: a content and a shared reference to its attribute store. */
  class ImageDrawer {
    const attributesStore: AttributesStore
    const content: Content

    function Snapshot(): Descriptor
      reads attributesStore
    {
      Descriptor(content, attributesStore.State())
    }

    constructor (content: Content)
      ensures this.content == content
      ensures fresh(attributesStore)
      ensures attributesStore.State() == StoreState([], false, false, false)
    {
      this.attributesStore := new AttributesStore([]);
      this.content := content;
    }

    method AddAttributes(attributes: Attribute) returns (store: AttributesStore)
      modifies attributesStore
      ensures store == attributesStore
      ensures Snapshot() == old(Snapshot()).(store := old(Snapshot()).store.(attribute := old(attributesStore.attribute) + [attributes]))
    {
      store := attributesStore.AddAttributes(attributes);
    }

    method AddClip() returns (store: AttributesStore)
      modifies attributesStore
      ensures store == attributesStore
      ensures Snapshot() == old(Snapshot()).(store := old(Snapshot()).store.(clip := true))
    {
      store := attributesStore.AddClip();
    }

    method AddBorder() returns (store: AttributesStore)
      modifies attributesStore
      ensures store == attributesStore
      ensures Snapshot() == old(Snapshot()).(store := old(Snapshot()).store.(border := true))
    {
      store := attributesStore.AddBorder();
    }

    method AddContontCTX() returns (store: AttributesStore)
      modifies attributesStore
      ensures store == attributesStore
      ensures Snapshot() == old(Snapshot()).(store := old(Snapshot()).store.(contentCTX := true))
    {
      store := attributesStore.AddContontCTX();
    }

    /**
     * Draws attributes, then the optional flip, then the content, and returns
     * what the context yields; the result is none exactly when extraction fails.
     */
    method ImageWithContext(host: Host, size: Size) returns (trace: seq<Command>, image: Option<Bitmap>)
      ensures trace == ImageTrace(Snapshot(), size, host)
      ensures image == host.makeImage(trace, size)
    {
      trace := attributesStore.DrawAttributesInContext(size);
      if attributesStore.contentCTX {
        trace := trace + [TranslateBy(0.0, size.height), ScaleBy(1.0, -1.0)];
      }
      trace := trace + ContentCommands(content, size, host);
      image := host.makeImage(trace, size);
    }
  }
}
