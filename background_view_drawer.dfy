/**
 * `BackgroundViewDrawer`: the single-state background controller attached to
 * a plain view, and the drawer protocol it renders through.
 *
 * The controller's fields are a class; what its transitions do to them is
 * given by pure functions over `ViewModel`, and the methods are proved to
 * follow those functions. The image view the controller owns is reduced to
 * its frame size and its image.
 */
module ViewBackground {
  import opened Wrappers
  import opened Drawing
  import Runloop

  /**
   * The conformers of `BackgroundImageDrawerProtocol`: the two the library
   * defines, and any other conformer, known by an id.
   */
  datatype Drawer = NoneImageDrawer | Described(descriptor: Descriptor) | Custom(id: nat)

  /** `imageWithContext` of a drawer: `NoneImageDrawer` always yields nothing. */
  function DrawerImage(drawer: Drawer, size: Size, host: Host): (r: Option<Bitmap>)
    ensures drawer.NoneImageDrawer? ==> r.None?
    ensures drawer.Described? ==> r == host.makeImage(ImageTrace(drawer.descriptor, size, host), size)
    ensures drawer.Custom? ==> r == host.customImage(drawer.id, size)
  {
    match drawer
    case NoneImageDrawer => None
    case Described(d) => host.makeImage(ImageTrace(d, size, host), size)
    case Custom(id) => host.customImage(id, size)
  }

  /**
   * The render oracle `render(drawer, size)`: open an image context of the
   * size, give up if none is current, else draw into it and extract.
   */
  function Render(host: Host, drawer: Drawer, size: Size): (r: Option<Bitmap>)
    ensures r.Some? ==> host.contextAvailable(size) && !drawer.NoneImageDrawer?
    ensures host.contextAvailable(size) ==> r == DrawerImage(drawer, size, host)
    ensures !host.contextAvailable(size) ==> r.None?
  {
    if host.contextAvailable(size) then DrawerImage(drawer, size, host) else None
  }

  /** The descriptor every `UIView`/`UIButton` helper registers: two attributes and the clip flag. */
  function HelperDescriptor(content: Content, round: RectCorner, radius: real, flip: bool): (d: Descriptor)
    ensures d.content == content
    ensures LastCorners(d.store.attribute) == Some(round) && LastRadius(d.store.attribute) == Some(radius)
    ensures d.store.clip && !d.store.border && d.store.contentCTX == flip
  {
    Descriptor(content, StoreState([RoundCorners(round), CornerRadius(radius)], true, false, flip))
  }

  /**
   * What such a descriptor draws: the path chosen from the helper's own
   * mask and radius, settings none, always a clip, never a stroke.
   */
  lemma HelperDescriptorTrace(content: Content, round: RectCorner, radius: real, flip: bool, size: Size)
    ensures AttributesTrace(HelperDescriptor(content, round, radius, flip).store, size) ==
      [AddPath(SelectPath(size, Some(radius), Some(round))), Clip]
  {
    var a := [RoundCorners(round), CornerRadius(radius)];
    var store := StoreState(a, true, false, flip);
    assert HelperDescriptor(content, round, radius, flip).store == store;
    HelperSettingsEmpty(round, radius);
    PathOfExtendedList([], radius, round, size);
    assert [] + a == a;
    assert AttributesTrace(store, size) == StrokeSettings(a) + [AddPath(AttributePath(a, size)), Clip] + [];
  }

  /** The helpers' two entries set no border width or colour. */
  lemma HelperSettingsEmpty(round: RectCorner, radius: real)
    ensures StrokeSettings([RoundCorners(round), CornerRadius(radius)]) == []
  {
    var a := [RoundCorners(round), CornerRadius(radius)];
    assert a[..1] == [RoundCorners(round)] && [RoundCorners(round)][..0] == [];
  }

  /** The controller's state as a value. */
  datatype ViewModel = ViewModel(
    size: Size,
    frame: Size,
    drawer: Drawer,
    image: Option<Bitmap>,
    isRedrawDistinctSize: bool,
    secheuleWhenDrawerSettled: bool)

  /** `redrawBackground`: nothing for the zero size; a successful render replaces the image, a failed one keeps it. */
  function Redraw(host: Host, m: ViewModel): (r: ViewModel)
    ensures m.size == ZERO ==> r == m
    ensures r == m.(image := r.image)
    ensures m.size != ZERO && Render(host, m.drawer, m.size).Some? ==> r.image == Render(host, m.drawer, m.size)
    ensures Render(host, m.drawer, m.size).None? ==> r.image == m.image
  {
    if m.size == ZERO then m
    else match Render(host, m.drawer, m.size)
      case Some(image) => m.(image := Some(image))
      case None => m
  }

  /** The `size` observer: an equal size under `isRedrawDistinctSize` does nothing; any other assignment resizes the image view and redraws. */
  function AssignSize(host: Host, m: ViewModel, newSize: Size): (r: ViewModel)
    ensures m.size == newSize && m.isRedrawDistinctSize ==> r == m
    ensures !(m.size == newSize && m.isRedrawDistinctSize) ==> r == Redraw(host, m.(size := newSize, frame := newSize))
    ensures r.size == newSize && r.drawer == m.drawer
  {
    if m.size == newSize && m.isRedrawDistinctSize then m.(size := newSize)
    else Redraw(host, m.(size := newSize, frame := newSize))
  }

  /** `setBackground`: replace the drawer; redraw only under `secheuleWhenDrawerSettled`. */
  function WithBackground(host: Host, m: ViewModel, drawer: Drawer): (r: ViewModel)
    ensures r.drawer == drawer && r.size == m.size && r.frame == m.frame
    ensures !m.secheuleWhenDrawerSettled ==> r == m.(drawer := drawer)
    ensures m.secheuleWhenDrawerSettled ==> r == Redraw(host, m.(drawer := drawer))
  {
    var settled := m.(drawer := drawer);
    if m.secheuleWhenDrawerSettled then Redraw(host, settled) else settled
  }

  /** Run-loop ticks, each assigning the view's bounds size at that moment. */
  function RunloopTicks(host: Host, m: ViewModel, bounds: seq<Size>): ViewModel
  {
    if bounds == [] then m
    else AssignSize(host, RunloopTicks(host, m, bounds[..|bounds| - 1]), bounds[|bounds| - 1])
  }

  /**
   * Until the first `setBackground`, the drawer is `NoneImageDrawer`, so no
   * sequence of size changes ever changes the displayed image.
   */
  lemma {:induction false} NoneDrawerKeepsImage(host: Host, m: ViewModel, bounds: seq<Size>)
    requires m.drawer == NoneImageDrawer
    ensures RunloopTicks(host, m, bounds).image == m.image
    ensures RunloopTicks(host, m, bounds).drawer == NoneImageDrawer
  {
    if bounds != [] {
      NoneDrawerKeepsImage(host, m, bounds[..|bounds| - 1]);
    }
  }

  /**
   * Whatever happens, the displayed image is the one it was before or one a
   * render produced: a failed render never clears it.
   */
  lemma {:induction false} ImageOnlyFromRenders(host: Host, m: ViewModel, bounds: seq<Size>)
    ensures var r := RunloopTicks(host, m, bounds);
      r.image == m.image ||
      exists k :: 0 <= k < |bounds| && r.image == Render(host, m.drawer, bounds[k]) && r.image.Some?
  {
    if bounds != [] {
      var n := |bounds| - 1;
      var before := RunloopTicks(host, m, bounds[..n]);
      ImageOnlyFromRenders(host, m, bounds[..n]);
      DrawerUnchangedByTicks(host, m, bounds[..n]);
      if before.image != m.image {
        var k :| 0 <= k < n && before.image == Render(host, m.drawer, bounds[..n][k]) && before.image.Some?;
        assert bounds[..n][k] == bounds[k];
      }
      var r := RunloopTicks(host, m, bounds);
      if r.image != before.image {
        assert r.image == Render(host, m.drawer, bounds[n]);
      }
    }
  }

  lemma {:induction false} DrawerUnchangedByTicks(host: Host, m: ViewModel, bounds: seq<Size>)
    ensures RunloopTicks(host, m, bounds).drawer == m.drawer
  {
    if bounds != [] {
      DrawerUnchangedByTicks(host, m, bounds[..|bounds| - 1]);
    }
  }

  /** A plain view; the association slot `objc_setAssociatedObject` fills is a field. */
  class View {
    var boundsSize: Size
    var associatedDrawer: BackgroundViewDrawer?

    constructor (boundsSize: Size)
      ensures this.boundsSize == boundsSize && associatedDrawer == null
    {
      this.boundsSize := boundsSize;
      associatedDrawer := null;
    }
  }

  /** The controller found in a view's association slot is the one made for that view. */
  ghost predicate Attached(view: View)
    reads view, view.associatedDrawer
  {
    view.associatedDrawer != null ==> view.associatedDrawer.view == view
  }

  class BackgroundViewDrawer {
    const host: Host
    const view: View
    var size: Size
    var frame: Size
    var imageDrawer: Drawer
    var image: Option<Bitmap>
    var isRedrawDistinctSize: bool
    var secheuleWhenDrawerSettled: bool

    function Model(): ViewModel
      reads this
    {
      ViewModel(size, frame, imageDrawer, image, isRedrawDistinctSize, secheuleWhenDrawerSettled)
    }

    /** Takes the view's size, attaches itself to the view and registers with the run-loop observer. */
    constructor (view: View, host: Host, runloop: Runloop.MainRunloopObserver, alive: set<object>)
      requires runloop.Valid()
      modifies view`associatedDrawer, runloop
      ensures this.view == view && this.host == host
      ensures Model() == ViewModel(old(view.boundsSize), ZERO, NoneImageDrawer, None, true, true)
      ensures view.boundsSize == old(view.boundsSize) && view.associatedDrawer == this
      ensures runloop.Valid()
      ensures Runloop.Appended(runloop, old(runloop.observerList), alive, this)
    {
      this.host := host;
      this.view := view;
      size := view.boundsSize;
      frame := ZERO;
      imageDrawer := NoneImageDrawer;
      image := None;
      isRedrawDistinctSize := true;
      secheuleWhenDrawerSettled := true;
      new;
      view.associatedDrawer := this;
      runloop.AddObserver(this, alive + {this});
    }

    /** `drawerInView`: the controller already attached to the view, else a new one. */
    static method DrawerInView(view: View, host: Host, runloop: Runloop.MainRunloopObserver, alive: set<object>)
      returns (drawer: BackgroundViewDrawer)
      requires runloop.Valid()
      requires Attached(view)
      modifies view`associatedDrawer, runloop
      ensures runloop.Valid()
      ensures view.associatedDrawer == drawer && view.boundsSize == old(view.boundsSize)
      ensures old(view.associatedDrawer) != null ==>
        drawer == old(view.associatedDrawer) && unchanged(view) && unchanged(runloop)
      ensures old(view.associatedDrawer) == null ==>
        && fresh(drawer) && drawer.view == view && drawer.host == host
        && drawer.Model() == ViewModel(view.boundsSize, ZERO, NoneImageDrawer, None, true, true)
        && Runloop.Appended(runloop, old(runloop.observerList), alive, drawer)
    {
      if view.associatedDrawer != null {
        return view.associatedDrawer;
      }
      drawer := new BackgroundViewDrawer(view, host, runloop, alive);
    }

    method RedrawBackground()
      modifies this
      ensures Model() == Redraw(host, old(Model()))
    {
      if size == ZERO {
        return;
      }
      var rendered := Render(host, imageDrawer, size);
      if rendered.Some? {
        image := rendered;
      }
    }

    /** The `size` field's `didSet`, as an explicit transition. */
    method SetSize(newSize: Size)
      modifies this
      ensures Model() == AssignSize(host, old(Model()), newSize)
    {
      var oldValue := size;
      size := newSize;
      if oldValue == size && isRedrawDistinctSize {
        return;
      }
      frame := size;
      RedrawBackground();
    }

    method SetBackground(drawer: Drawer)
      modifies this
      ensures Model() == WithBackground(host, old(Model()), drawer)
    {
      imageDrawer := drawer;
      if secheuleWhenDrawerSettled {
        RedrawBackground();
      }
    }

    /** `mainRunloop(willWaiting:)`: re-reads the view's bounds. */
    method MainRunloopWillWait()
      modifies this
      ensures Model() == AssignSize(host, old(Model()), view.boundsSize)
    {
      SetSize(view.boundsSize);
    }
  }

  /** The `UIView.setImageDrawer` helper: round corners, then radius, then clip, then register. */
  method SetImageDrawer(
    view: View, drawer: ImageDrawer, round: RectCorner, radius: real,
    host: Host, runloop: Runloop.MainRunloopObserver, alive: set<object>)
    requires runloop.Valid() && Attached(view)
    modifies drawer.attributesStore, view`associatedDrawer, view.associatedDrawer, runloop
    ensures runloop.Valid()
    ensures drawer.attributesStore.State() ==
      old(drawer.attributesStore.State()).(attribute := old(drawer.attributesStore.attribute) + [RoundCorners(round), CornerRadius(radius)], clip := true)
    ensures view.boundsSize == old(view.boundsSize)
    ensures view.associatedDrawer != null && view.associatedDrawer.view == view
    ensures old(view.associatedDrawer) != null ==>
      view.associatedDrawer == old(view.associatedDrawer) && unchanged(runloop) &&
      view.associatedDrawer.Model() ==
        WithBackground(view.associatedDrawer.host, old(view.associatedDrawer.Model()), Described(drawer.Snapshot()))
    ensures old(view.associatedDrawer) == null ==>
      fresh(view.associatedDrawer) && view.associatedDrawer.host == host &&
      Runloop.Appended(runloop, old(runloop.observerList), alive, view.associatedDrawer) &&
      view.associatedDrawer.Model() ==
        WithBackground(host, ViewModel(old(view.boundsSize), ZERO, NoneImageDrawer, None, true, true), Described(drawer.Snapshot()))
  {
    var _ := drawer.AddAttributes(RoundCorners(round));
    var _ := drawer.AddAttributes(CornerRadius(radius));
    var _ := drawer.AddClip();
    var controller := BackgroundViewDrawer.DrawerInView(view, host, runloop, alive);
    controller.SetBackground(Described(drawer.Snapshot()));
  }

  /** `UIView.setBackgroundColor`: a nil colour leaves everything as it was. */
  method SetBackgroundColor(
    view: View, color: Option<Color>, round: RectCorner := ALL_CORNERS, radius: real,
    host: Host, runloop: Runloop.MainRunloopObserver, alive: set<object>)
    requires runloop.Valid() && Attached(view)
    modifies view`associatedDrawer, view.associatedDrawer, runloop
    ensures runloop.Valid() && view.boundsSize == old(view.boundsSize)
    ensures color.None? ==> unchanged(view, runloop) && (view.associatedDrawer != null ==> unchanged(view.associatedDrawer))
    ensures color.Some? ==>
      view.associatedDrawer != null && view.associatedDrawer.view == view &&
      view.associatedDrawer.imageDrawer == Described(HelperDescriptor(ColorContent(color.value), round, radius, false))
    ensures color.Some? && old(view.associatedDrawer) != null ==>
      view.associatedDrawer == old(view.associatedDrawer) && unchanged(runloop) &&
      view.associatedDrawer.Model() ==
        WithBackground(view.associatedDrawer.host, old(view.associatedDrawer.Model()), Described(HelperDescriptor(ColorContent(color.value), round, radius, false)))
    ensures color.Some? && old(view.associatedDrawer) == null ==>
      fresh(view.associatedDrawer) && view.associatedDrawer != null && view.associatedDrawer.host == host &&
      Runloop.Appended(runloop, old(runloop.observerList), alive, view.associatedDrawer) &&
      view.associatedDrawer.Model() ==
        WithBackground(host, ViewModel(old(view.boundsSize), ZERO, NoneImageDrawer, None, true, true), Described(HelperDescriptor(ColorContent(color.value), round, radius, false)))
  {
    if color.None? {
      return;
    }
    var drawer := new ImageDrawer(ColorContent(color.value));
    SetImageDrawer(view, drawer, round, radius, host, runloop, alive);
  }

  /** `UIView.setBackgroundGradient`: an empty colour list leaves everything as it was. */
  method SetBackgroundGradient(
    view: View, colors: seq<Color>, sPoint: DirectionPoint := LeftTop, ePoint: DirectionPoint := RightBottom,
    locations: seq<real> := [0.0, 1.0], round: RectCorner := ALL_CORNERS, radius: real,
    host: Host, runloop: Runloop.MainRunloopObserver, alive: set<object>)
    requires runloop.Valid() && Attached(view)
    modifies view`associatedDrawer, view.associatedDrawer, runloop
    ensures runloop.Valid() && view.boundsSize == old(view.boundsSize)
    ensures colors == [] ==> unchanged(view, runloop) && (view.associatedDrawer != null ==> unchanged(view.associatedDrawer))
    ensures colors != [] ==>
      view.associatedDrawer != null && view.associatedDrawer.view == view &&
      view.associatedDrawer.imageDrawer == Described(HelperDescriptor(GradientColor(colors, locations, sPoint, ePoint), round, radius, false))
    ensures colors != [] && old(view.associatedDrawer) != null ==>
      view.associatedDrawer == old(view.associatedDrawer) && unchanged(runloop) &&
      view.associatedDrawer.Model() ==
        WithBackground(view.associatedDrawer.host, old(view.associatedDrawer.Model()), Described(HelperDescriptor(GradientColor(colors, locations, sPoint, ePoint), round, radius, false)))
    ensures colors != [] && old(view.associatedDrawer) == null ==>
      fresh(view.associatedDrawer) && view.associatedDrawer != null && view.associatedDrawer.host == host &&
      Runloop.Appended(runloop, old(runloop.observerList), alive, view.associatedDrawer) &&
      view.associatedDrawer.Model() ==
        WithBackground(host, ViewModel(old(view.boundsSize), ZERO, NoneImageDrawer, None, true, true), Described(HelperDescriptor(GradientColor(colors, locations, sPoint, ePoint), round, radius, false)))
  {
    if colors == [] {
      return;
    }
    var drawer := new ImageDrawer(GradientColor(colors, locations, sPoint, ePoint));
    SetImageDrawer(view, drawer, round, radius, host, runloop, alive);
  }

  /** `UIView.setBackgroundImage`: a nil image leaves everything as it was; an image is drawn flipped. */
  method SetBackgroundImage(
    view: View, image: Option<Bitmap>, round: RectCorner := ALL_CORNERS, radius: real,
    host: Host, runloop: Runloop.MainRunloopObserver, alive: set<object>)
    requires runloop.Valid() && Attached(view)
    modifies view`associatedDrawer, view.associatedDrawer, runloop
    ensures runloop.Valid() && view.boundsSize == old(view.boundsSize)
    ensures image.None? ==> unchanged(view, runloop) && (view.associatedDrawer != null ==> unchanged(view.associatedDrawer))
    ensures image.Some? ==>
      view.associatedDrawer != null && view.associatedDrawer.view == view &&
      view.associatedDrawer.imageDrawer == Described(HelperDescriptor(ImageContent(image.value), round, radius, true))
    ensures image.Some? && old(view.associatedDrawer) != null ==>
      view.associatedDrawer == old(view.associatedDrawer) && unchanged(runloop) &&
      view.associatedDrawer.Model() ==
        WithBackground(view.associatedDrawer.host, old(view.associatedDrawer.Model()), Described(HelperDescriptor(ImageContent(image.value), round, radius, true)))
    ensures image.Some? && old(view.associatedDrawer) == null ==>
      fresh(view.associatedDrawer) && view.associatedDrawer != null && view.associatedDrawer.host == host &&
      Runloop.Appended(runloop, old(runloop.observerList), alive, view.associatedDrawer) &&
      view.associatedDrawer.Model() ==
        WithBackground(host, ViewModel(old(view.boundsSize), ZERO, NoneImageDrawer, None, true, true), Described(HelperDescriptor(ImageContent(image.value), round, radius, true)))
  {
    if image.None? {
      return;
    }
    var drawer := new ImageDrawer(ImageContent(image.value));
    var _ := drawer.AddContontCTX();
    SetImageDrawer(view, drawer, round, radius, host, runloop, alive);
  }
}
